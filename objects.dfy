/**
 * The values objects compute (the ObjectImp classes of the objects directory),
 * the transformations they can be mapped by, the nodes an import filter
 * builds (the ObjectCalcer family), and the two argument parsers the
 * object types use to read their arguments.
 *
 * objects/object.h gives only the shape of these classes; their numeric
 * members (conic coefficients, transformation matrices) are kept as
 * opaque payloads.
 */
module Objects {
  import opened Geometry
  import opened Common
  import opened Wrappers

  /** The six coefficients of a conic's cartesian equation. */
  datatype ConicCartesianData = ConicCartesianData(coeffs: seq<real>)

  /** A Transformation, by the named constructor that built it. */
  datatype Transformation =
    | Translation(dir: Coordinate)
    | PointReflection(center: Coordinate)
    | LineReflection(line: LineData)
    | Rotation(angle: real, center: Coordinate)
    | ScalingOverPoint(ratio: real, center: Coordinate)
    | ScalingOverLine(ratio: real, line: LineData)
    | ProjectiveRotation(alpha: real, dir: Coordinate, origin: Coordinate)
    | CastShadow(light: Coordinate, line: LineData)

  /** The result an object computes: one variant per ObjectImp class. */
  datatype ObjectImp =
    | InvalidImp
    | DoubleImp(d: real)
    | IntImp(i: int)
    | StringImp(s: string)
    | PointImp(c: Coordinate)
    | SegmentImp(l: LineData)
    | RayImp(l: LineData)
    | LineImp(l: LineData)
    | VectorImp(l: LineData)
    | CircleImp(center: Coordinate, radius: real)
    | ConicImp(cart: ConicCartesianData)
    | ArcImp(center: Coordinate, radius: real, startAngle: real, angle: real)
    | ConicArcImp(cart: ConicCartesianData, startAngle: real, angle: real)
    | AngleImp(point: Coordinate, startAngle: real, size: real)
    | PolygonImp(points: seq<Coordinate>)
    | TransformationImp(t: Transformation)
    | OtherImp(kind: string)

  /** valid(): every imp but InvalidImp. */
  predicate Valid(o: ObjectImp) {
    !o.InvalidImp?
  }

  /** The imp types an argument specification can ask for. */
  datatype ImpType =
    | AnyT | PointT | LineT | SegmentT | RayT | VectorT | AngleT
    | CircleT | ConicT | ArcT | PolygonT | TransformationT

  /**
   * inherits( type ): segments, rays and lines are all abstract lines,
   * circles are conics, and every imp is an AnyImp.
   */
  predicate Inherits(o: ObjectImp, t: ImpType) {
    match t
    case AnyT => true
    case PointT => o.PointImp?
    case LineT => o.SegmentImp? || o.RayImp? || o.LineImp?
    case SegmentT => o.SegmentImp?
    case RayT => o.RayImp?
    case VectorT => o.VectorImp?
    case AngleT => o.AngleImp?
    case CircleT => o.CircleImp?
    case ConicT => o.CircleImp? || o.ConicImp?
    case ArcT => o.ArcImp?
    case PolygonT => o.PolygonImp?
    case TransformationT => o.TransformationImp?
  }

  /**
   * A node of the object graph as an import filter builds it: a constant,
   * a fixed or constrained point, an object type applied to parents, a
   * property of a parent, a locus, or a text label.  Types and properties
   * go by their internal names.
   */
  datatype Calcer =
    | ConstCalcer(imp: ObjectImp)
    | FixedPoint(c: Coordinate)
    | ConstrainedPoint(curve: Calcer, param: real)
    | TypeCalcer(ctype: string, parents: seq<Calcer>)
    | PropertyCalcer(parent: Calcer, prop: string)
    | LocusCalcer(curve: Calcer, moving: Calcer)
    | TextCalcer(at: Coordinate, parent: Calcer, prop: string)
    | LabelCalcer(text: string, at: Coordinate)

  // ---------------------------------------------------------------------
  // ArgsParser::checkArgs (the argument check of objects/arc_type.cc)
  // ---------------------------------------------------------------------

  /**
   * checkArgs( os, min ): at least `min` arguments, and each one valid and
   * of the type its position asks for.  The parser asserts that there are
   * no more arguments than positions.
   */
  predicate CheckArgs(spec: seq<ImpType>, args: seq<ObjectImp>, min: nat)
    requires |args| <= |spec|
  {
    min <= |args| && forall i :: 0 <= i < |args| ==> Valid(args[i]) && Inherits(args[i], spec[i])
  }

  // ---------------------------------------------------------------------
  // ArgParser::parse (the argument matching of objects/transform_types.cc)
  // ---------------------------------------------------------------------

  /** Put `o` into the first free slot, from `i` on, whose type it has. */
  function PlaceFrom(spec: seq<ImpType>, slots: seq<Option<ObjectImp>>, o: ObjectImp, i: nat): (r: seq<Option<ObjectImp>>)
    requires |slots| == |spec| && i <= |spec|
    ensures |r| == |spec|
    decreases |spec| - i
  {
    if i == |spec| then slots
    else if slots[i].None? && Inherits(o, spec[i]) then slots[i := Some(o)]
    else PlaceFrom(spec, slots, o, i + 1)
  }

  /**
   * parse( os ): one slot per position of `spec`; each argument in turn
   * goes to the first still empty slot whose type it has, and is dropped
   * when there is none.
   */
  function Parse(spec: seq<ImpType>, os: seq<ObjectImp>): (r: seq<Option<ObjectImp>>)
    ensures |r| == |spec|
  {
    if os == [] then seq(|spec|, _ => None)
    else PlaceFrom(spec, Parse(spec, os[..|os| - 1]), os[|os| - 1], 0)
  }

  /** A slot that PlaceFrom fills holds `o`, which has the slot's type; the others are untouched. */
  lemma {:induction false} PlaceFromSlots(spec: seq<ImpType>, slots: seq<Option<ObjectImp>>, o: ObjectImp, i: nat)
    requires |slots| == |spec| && i <= |spec|
    ensures forall j :: 0 <= j < |spec| ==>
      var r := PlaceFrom(spec, slots, o, i);
      r[j] == slots[j] || (slots[j].None? && r[j] == Some(o) && Inherits(o, spec[j]))
    decreases |spec| - i
  {
    if i < |spec| && !(slots[i].None? && Inherits(o, spec[i])) {
      PlaceFromSlots(spec, slots, o, i + 1);
    }
  }

  /** Every filled slot holds one of the arguments, of the slot's type. */
  lemma {:induction false} ParseFilled(spec: seq<ImpType>, os: seq<ObjectImp>)
    ensures forall j :: 0 <= j < |spec| && Parse(spec, os)[j].Some? ==>
      Parse(spec, os)[j].value in os && Inherits(Parse(spec, os)[j].value, spec[j])
  {
    if os != [] {
      var front := os[..|os| - 1];
      ParseFilled(spec, front);
      PlaceFromSlots(spec, Parse(spec, front), os[|os| - 1], 0);
      forall j | 0 <= j < |spec| && Parse(spec, front)[j].Some?
        ensures Parse(spec, front)[j].value in os
      {
        var v := Parse(spec, front)[j].value;
        var k :| 0 <= k < |front| && front[k] == v;
        assert os[k] == v;
      }
    }
  }

  /** A slot no argument has the type of stays empty. */
  lemma ParseMissing(spec: seq<ImpType>, os: seq<ObjectImp>, j: nat)
    requires j < |spec| && forall o :: o in os ==> !Inherits(o, spec[j])
    ensures Parse(spec, os)[j].None?
  {
    ParseFilled(spec, os);
  }

  /** Arguments given in the order of the specification land in their own slots. */
  lemma {:induction false} ParseInOrder(spec: seq<ImpType>, os: seq<ObjectImp>)
    requires |os| <= |spec|
    requires forall i :: 0 <= i < |os| ==> Inherits(os[i], spec[i])
    ensures forall j :: 0 <= j < |spec| ==>
      Parse(spec, os)[j] == if j < |os| then Some(os[j]) else None
  {
    if os != [] {
      var n := |os| - 1;
      var front := os[..n];
      ParseInOrder(spec, front);
      var slots := Parse(spec, front);
      PlaceSkipsFilled(spec, slots, os[n], 0, n);
    }
  }

  /** Placing skips a run of filled slots and takes the next one when it fits. */
  lemma {:induction false} PlaceSkipsFilled(spec: seq<ImpType>, slots: seq<Option<ObjectImp>>, o: ObjectImp, i: nat, n: nat)
    requires |slots| == |spec| && i <= n < |spec|
    requires forall j :: i <= j < n ==> slots[j].Some?
    requires slots[n].None? && Inherits(o, spec[n])
    ensures PlaceFrom(spec, slots, o, i) == slots[n := Some(o)]
    decreases n - i
  {
    if i < n {
      PlaceSkipsFilled(spec, slots, o, i + 1, n);
    }
  }

  /** How many slots are filled. */
  function Filled(slots: seq<Option<ObjectImp>>): (k: nat)
    ensures k <= |slots|
  {
    if slots == [] then 0
    else Filled(slots[..|slots| - 1]) + (if slots[|slots| - 1].Some? then 1 else 0)
  }

  /** No slot is filled before any argument is placed. */
  lemma {:induction false} FilledNone(n: nat)
    ensures Filled(seq(n, _ => None)) == 0
  {
    if n > 0 {
      var s: seq<Option<ObjectImp>> := seq(n, _ => None);
      assert s[..n - 1] == seq(n - 1, _ => None);
      FilledNone(n - 1);
    }
  }

  /** Filling one empty slot adds one to the count. */
  lemma {:induction false} FilledUpdate(slots: seq<Option<ObjectImp>>, j: nat, o: ObjectImp)
    requires j < |slots| && slots[j].None?
    ensures Filled(slots[j := Some(o)]) == Filled(slots) + 1
    decreases |slots|
  {
    var n := |slots| - 1;
    var s' := slots[j := Some(o)];
    assert s'[..n] == if j == n then slots[..n] else slots[..n][j := Some(o)];
    if j < n {
      FilledUpdate(slots[..n], j, o);
    }
  }

  /** With the last slot free and of type AnyT, placing always puts the argument somewhere. */
  lemma {:induction false} PlaceIntoAny(spec: seq<ImpType>, slots: seq<Option<ObjectImp>>, o: ObjectImp, i: nat)
    requires |slots| == |spec| && i < |spec|
    requires spec[|spec| - 1] == AnyT && slots[|spec| - 1].None?
    ensures Filled(PlaceFrom(spec, slots, o, i)) == Filled(slots) + 1
    decreases |spec| - i
  {
    if slots[i].None? && Inherits(o, spec[i]) {
      FilledUpdate(slots, i, o);
    } else {
      PlaceIntoAny(spec, slots, o, i + 1);
    }
  }

  /** While the trailing AnyT slot is empty, no argument has been dropped. */
  lemma {:induction false} ParseKeepsAll(spec: seq<ImpType>, os: seq<ObjectImp>)
    requires |spec| > 0 && spec[|spec| - 1] == AnyT
    ensures Parse(spec, os)[|spec| - 1].None? ==> Filled(Parse(spec, os)) == |os|
  {
    if os == [] {
      FilledNone(|spec|);
    } else {
      var front := os[..|os| - 1];
      var slots := Parse(spec, front);
      ParseKeepsAll(spec, front);
      PlaceFromSlots(spec, slots, os[|os| - 1], 0);
      if Parse(spec, os)[|spec| - 1].None? {
        assert slots[|spec| - 1].None?;
        PlaceIntoAny(spec, slots, os[|os| - 1], 0);
      }
    }
  }

  /**
   * With as many arguments as positions and a trailing AnyT position, that
   * position is always filled: a type that checks only the other positions
   * before using it never uses an empty slot.
   */
  lemma TrailingAnyFilled(spec: seq<ImpType>, os: seq<ObjectImp>)
    requires |spec| > 0 && spec[|spec| - 1] == AnyT && |os| == |spec|
    ensures Parse(spec, os)[|spec| - 1].Some?
  {
    var r := Parse(spec, os);
    ParseKeepsAll(spec, os);
    if r[|spec| - 1].None? {
      FilledBelow(r);
      assert false;
    }
  }

  /** A sequence whose last slot is empty has fewer filled slots than entries. */
  lemma FilledBelow(slots: seq<Option<ObjectImp>>)
    requires |slots| > 0 && slots[|slots| - 1].None?
    ensures Filled(slots) < |slots|
  {
  }
}
