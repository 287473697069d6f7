/**
 * The pure helpers of the KSeg import filter (filters/kseg-filter.cc):
 * the mapping from KSeg window coordinates to Kig coordinates, the
 * decoding of a record's info word, the choice of intersection type for
 * KSeg's intersection points, and the argument slicing of transformed
 * objects.  The object graph being built is a tree of `Calcer` values.
 */
module KSeg {
  import opened Geometry
  import opened Wrappers
  import opened Objects

  // ---------------------------------------------------------------------
  // readKSegCoordinate
  // ---------------------------------------------------------------------

  /**
   * KSeg measures from the top-left corner of a 600 by 600 window, y
   * growing downwards; Kig's view runs from -7 to 7 on both axes, y
   * growing upwards.
   */
  function ReadKSegCoordinate(inx: real, iny: real): Coordinate {
    Coordinate(inx * 14.0 / 600.0 - 7.0, (600.0 - iny) * 14.0 / 600.0 - 7.0)
  }

  /** Where a Kig coordinate sits in the KSeg window. */
  function ToKSegCoordinate(c: Coordinate): (r: (real, real)) {
    ((c.x + 7.0) * 600.0 / 14.0, 600.0 - (c.y + 7.0) * 600.0 / 14.0)
  }

  /** Reading back a written coordinate gives the coordinate. */
  lemma ReadToKSeg(c: Coordinate)
    ensures ReadKSegCoordinate(ToKSegCoordinate(c).0, ToKSegCoordinate(c).1) == c
  {
  }

  /** Writing a read coordinate gives the window position it was read from. */
  lemma ToKSegRead(inx: real, iny: real)
    ensures ToKSegCoordinate(ReadKSegCoordinate(inx, iny)) == (inx, iny)
  {
  }

  /** The bottom-left and top-right corners of the window land on (-7,-7) and (7,7). */
  lemma ReadKSegCorners()
    ensures ReadKSegCoordinate(0.0, 600.0) == Coordinate(-7.0, -7.0)
    ensures ReadKSegCoordinate(600.0, 0.0) == Coordinate(7.0, 7.0)
    ensures ReadKSegCoordinate(300.0, 300.0) == Origin()
  {
  }

  /** Lower in the KSeg window is lower in Kig; further right is further right. */
  lemma ReadKSegOrientation(inx: real, iny: real, inx': real, iny': real)
    ensures inx < inx' <==> ReadKSegCoordinate(inx, iny).x < ReadKSegCoordinate(inx', iny').x
    ensures iny < iny' <==> ReadKSegCoordinate(inx, iny).y > ReadKSegCoordinate(inx', iny').y
  {
  }

  // ---------------------------------------------------------------------
  // The info word
  // ---------------------------------------------------------------------

  /**
   * A record's info word, decoded: the bit index of its type (the type is
   * `1 << typeBit`), its descend type, and four flags.
   */
  datatype Info = Info(typeBit: bv16, descend: bv16, visible: bool, labelVisible: bool, given: bool, final: bool)

  predicate InfoInRange(i: Info) {
    i.typeBit < 32 && i.descend < 16
  }

  /**
   * Bits 0-4 are the type, bits 5-8 the descend type, and bits 9-12 the
   * visible, label-visible, given and final flags.  The source shifts a
   * signed short right, but only masked low bits are ever read, so the
   * sign does not matter.
   */
  function DecodeInfo(w: bv16): (i: Info)
    ensures InfoInRange(i)
  {
    var t := w & 31;
    var w1 := w >> 5;
    var d := w1 & 15;
    var w2 := w1 >> 4;
    Info(t, d, w2 & 1 != 0, w2 & 2 != 0, w2 & 4 != 0, w2 & 8 != 0)
  }

  function Bit(b: bool, n: bv16): bv16
    requires n < 16
  {
    if b then (1 as bv16) << n else 0
  }

  /** The info word KSeg writes for decoded fields. */
  function EncodeInfo(i: Info): bv16
    requires InfoInRange(i)
  {
    i.typeBit | (i.descend << 5) | Bit(i.visible, 9) | Bit(i.labelVisible, 10) | Bit(i.given, 11) | Bit(i.final, 12)
  }

  /** Decoding an encoded info word gives back its fields. */
  lemma DecodeEncodeInfo(i: Info)
    requires InfoInRange(i)
    ensures DecodeInfo(EncodeInfo(i)) == i
  {
  }

  /** The type and descend fields together are bits 0-8 of the word. */
  lemma DecodedLowBits(w: bv16)
    ensures DecodeInfo(w).typeBit | (DecodeInfo(w).descend << 5) == w & 0x1FF
  {
  }

  /** Each flag is its own bit of the word. */
  lemma DecodedFlagBits(w: bv16)
    ensures Bit(DecodeInfo(w).visible, 9) == w & 0x200
    ensures Bit(DecodeInfo(w).labelVisible, 10) == w & 0x400
    ensures Bit(DecodeInfo(w).given, 11) == w & 0x800
    ensures Bit(DecodeInfo(w).final, 12) == w & 0x1000
  {
  }

  /** Encoding decoded fields gives back the word's low 13 bits; the top three are never read. */
  lemma EncodeDecodeInfo(w: bv16)
    ensures EncodeInfo(DecodeInfo(w)) == w & 0x1FFF
  {
    DecodedLowBits(w);
    DecodedFlagBits(w);
    assert w & 0x1FFF == (w & 0x1FF) | (w & 0x200) | (w & 0x400) | (w & 0x800) | (w & 0x1000);
  }

  // ---------------------------------------------------------------------
  // intersectionPoint
  // ---------------------------------------------------------------------

  /** How intersectionPoint classifies a parent: line first, then conic, then arc. */
  datatype CurveClass = LineClass | ConicClass | ArcClass | OtherClass

  function ClassOf(o: ObjectImp): CurveClass {
    if Inherits(o, LineT) then LineClass
    else if Inherits(o, ConicT) then ConicClass
    else if o.ArcImp? then ArcClass
    else OtherClass
  }

  /** The pairs intersectionPoint builds an intersection for; two lines only for the first intersection. */
  predicate AcceptedPair(m: multiset<CurveClass>, which: int) {
    (m == multiset{LineClass, LineClass} && which == -1) ||
    m == multiset{LineClass, ConicClass} ||
    m == multiset{ConicClass, ConicClass} ||
    m == multiset{LineClass, ArcClass}
  }

  /** The pair of classes of two parents. */
  function PairOf(parents: seq<Calcer>, impOf: Calcer -> ObjectImp): multiset<CurveClass>
    requires |parents| == 2
  {
    multiset{ClassOf(impOf(parents[0])), ClassOf(impOf(parents[1]))}
  }

  /** How many of the two parents fall in class `k`. */
  function CountClass(parents: seq<Calcer>, impOf: Calcer -> ObjectImp, k: CurveClass): nat
    requires |parents| == 2
  {
    (if ClassOf(impOf(parents[0])) == k then 1 else 0) + (if ClassOf(impOf(parents[1])) == k then 1 else 0)
  }

  /** The conic's radical line with another conic, as intersectionPoint builds it. */
  function Radical(parents: seq<Calcer>): Calcer {
    TypeCalcer("ConicRadical", parents + [ConstCalcer(IntImp(1)), ConstCalcer(IntImp(1))])
  }

  /**
   * intersectionPoint( parents, which ): the calcer of KSeg's first
   * (`which` = -1) or second (`which` = 1) intersection of two curves, or
   * None when the parents do not form a supported pair.
   */
  function IntersectionPoint(parents: seq<Calcer>, which: int, impOf: Calcer -> ObjectImp): (r: Option<Calcer>)
    ensures r.Some? <==> |parents| == 2 && AcceptedPair(PairOf(parents, impOf), which)
  {
    if |parents| != 2 then None
    else if ClassOf(impOf(parents[0])) == OtherClass || ClassOf(impOf(parents[1])) == OtherClass then None
    else
      var nlines := CountClass(parents, impOf, LineClass);
      var nconics := CountClass(parents, impOf, ConicClass);
      var narcs := CountClass(parents, impOf, ArcClass);
      if nlines == 2 then
        (if which == -1 then Some(TypeCalcer("LineLineIntersection", parents)) else None)
      else if nlines == 1 && nconics == 1 then
        Some(TypeCalcer("ConicLineIntersection", parents + [ConstCalcer(IntImp(which))]))
      else if nlines == 0 && nconics == 2 then
        Some(TypeCalcer("ConicLineIntersection", [parents[0], Radical(parents), ConstCalcer(IntImp(which))]))
      else if nlines == 1 && narcs == 1 then
        Some(TypeCalcer("ArcLineIntersection", parents + [ConstCalcer(IntImp(which))]))
      else None
  }

  /** Two lines have one intersection only: asking for the second gives nothing. */
  lemma SecondLineLineIntersection(parents: seq<Calcer>, impOf: Calcer -> ObjectImp)
    requires |parents| == 2
    requires Inherits(impOf(parents[0]), LineT) && Inherits(impOf(parents[1]), LineT)
    ensures IntersectionPoint(parents, 1, impOf) == None
    ensures IntersectionPoint(parents, -1, impOf) == Some(TypeCalcer("LineLineIntersection", parents))
  {
  }

  /** A line and a conic, in either order, pass the intersection selector on unchanged. */
  lemma LineConicIntersection(parents: seq<Calcer>, which: int, impOf: Calcer -> ObjectImp)
    requires |parents| == 2 && PairOf(parents, impOf) == multiset{LineClass, ConicClass}
    ensures IntersectionPoint(parents, which, impOf)
      == Some(TypeCalcer("ConicLineIntersection", parents + [ConstCalcer(IntImp(which))]))
  {
    var a := ClassOf(impOf(parents[0]));
    var b := ClassOf(impOf(parents[1]));
    assert a in PairOf(parents, impOf) && b in PairOf(parents, impOf);
    assert a != b;
  }

  /**
   * Two conics: the first conic is cut by the radical line of the pair,
   * which is itself built from both conics and two selectors of 1.
   */
  lemma TwoConicsIntersection(parents: seq<Calcer>, which: int, impOf: Calcer -> ObjectImp)
    requires |parents| == 2 && ClassOf(impOf(parents[0])) == ConicClass && ClassOf(impOf(parents[1])) == ConicClass
    ensures var r := IntersectionPoint(parents, which, impOf);
      r.Some? && r.value.parents[0] == parents[0] && r.value.parents[1].parents[..2] == parents &&
      r.value.parents[2] == ConstCalcer(IntImp(which))
  {
  }

  /** A point, or any pair with an arc but no line, gives nothing. */
  lemma UnsupportedIntersections(parents: seq<Calcer>, which: int, impOf: Calcer -> ObjectImp)
    requires |parents| == 2
    requires impOf(parents[0]).PointImp? || ClassOf(impOf(parents[0])) == ClassOf(impOf(parents[1])) == ArcClass ||
             (ClassOf(impOf(parents[0])) == ArcClass && ClassOf(impOf(parents[1])) == ConicClass)
    ensures IntersectionPoint(parents, which, impOf) == None
  {
  }

  // ---------------------------------------------------------------------
  // transformObject
  // ---------------------------------------------------------------------

  /** The four descend types KSeg uses for transformed objects. */
  datatype TransformKind = Translated | Rotated | Scaled | Reflected

  /** A calcer, or None, and the `ok` flag transformObject sets. */
  datatype TransformResult = TransformResult(o: Option<Calcer>, ok: bool)

  /**
   * transformObject( parents, subtype, ok ): the transformed object is the
   * first parent.  A translation's vector is built from the remaining
   * parents; a rotation keeps centre and object and builds its angle from
   * the rest; only a scaling over four parents is supported; a
   * reflection passes all parents to the line reflection.
   */
  function TransformObject(parents: seq<Calcer>, subtype: TransformKind): (r: TransformResult)
    requires subtype == Translated ==> |parents| >= 1
    requires subtype == Rotated ==> |parents| >= 2
    ensures r.ok <==> !(subtype == Scaled && |parents| != 4)
    ensures r.ok <==> r.o.Some?
  {
    match subtype
    case Translated =>
      var vector := TypeCalcer("Vector", parents[1..]);
      TransformResult(Some(TypeCalcer("Translation", [parents[0], vector])), true)
    case Rotated =>
      var angle := TypeCalcer("Angle", parents[2..]);
      TransformResult(Some(TypeCalcer("Rotation", [parents[0], parents[1], angle])), true)
    case Scaled =>
      if |parents| == 4 then TransformResult(Some(TypeCalcer("ScalingOverCenter2", parents)), true)
      else TransformResult(None, false)
    case Reflected =>
      TransformResult(Some(TypeCalcer("LineReflection", parents)), true)
  }

  /**
   * The parents a transformed object's calcer reaches, after taking the
   * vector or angle apart again.
   */
  function Flatten(subtype: TransformKind, c: Calcer): seq<Calcer>
    requires c.TypeCalcer?
  {
    match subtype
    case Translated =>
      if |c.parents| == 2 && c.parents[1].TypeCalcer? then [c.parents[0]] + c.parents[1].parents else c.parents
    case Rotated =>
      if |c.parents| == 3 && c.parents[2].TypeCalcer? then c.parents[..2] + c.parents[2].parents else c.parents
    case _ => c.parents
  }

  /** transformObject loses no parent and reorders none: the object is always the first. */
  lemma TransformObjectKeepsParents(parents: seq<Calcer>, subtype: TransformKind)
    requires subtype == Translated ==> |parents| >= 1
    requires subtype == Rotated ==> |parents| >= 2
    ensures var r := TransformObject(parents, subtype);
      r.o.Some? ==>
        r.o.value.TypeCalcer? && Flatten(subtype, r.o.value) == parents &&
        (|parents| > 0 ==> r.o.value.parents[0] == parents[0])
  {
    var r := TransformObject(parents, subtype);
    if r.o.Some? {
      match subtype
      case Translated => assert [parents[0]] + parents[1..] == parents;
      case Rotated => assert parents[..2] + parents[2..] == parents;
      case _ =>
    }
  }
}
