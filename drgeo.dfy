/**
 * The Dr. Geo import filter (filters/drgeo-filter.cc).
 *
 * A Dr. Geo file holds figures and macros.  load picks one figure and
 * importFigure reads it in two passes: the first gives every element an
 * id (its own `id` attribute, or the next number of a counter) and
 * collects the references to its parents; the second resolves those
 * references to the holders made so far, builds a calcer for the
 * element, and wraps it in a holder with a colour, a width, a pen style
 * and a visibility.  `boundingBox` elements make no holder and are
 * counted in `nignored`.
 *
 * The XML arrives already read: an element is a record of the attributes
 * and child texts the filter looks at, with the numbers already parsed
 * (`None` where QString::toDouble or toInt fails).  The imp a calcer
 * computes, the number formatting and the point-style names come in
 * through `Env`.
 */
module DrGeo {
  import opened Geometry
  import opened Wrappers
  import opened Objects

  /** One element of a figure: what importFigure reads of a QDomElement. */
  datatype Element = Element(
    tag: Tag,               // the tag name
    kind: Kind,             // the `type` attribute
    id: Option<string>,     // the `id` attribute, if present
    refs: seq<string>,      // the `ref` attributes of the `parent` children
    x: Option<real>,        // the `x` child, parsed
    y: Option<real>,        // the `y` child, parsed
    value: Option<real>,    // the `value` child, parsed
    valueText: string,      // the `value` child, as text
    code: string,           // the `code` child of a script
    extra: Option<int>,     // the `extra` attribute, parsed
    color: Option<int>,     // the `color` attribute, when it names a valid colour
    thickness: Thickness,   // the `thickness` attribute
    style: string,          // the `style` attribute
    masked: Mask)           // the `masked` attribute

  /** The tag names the filter knows, and any other. */
  datatype Tag =
    | TPoint | TLine | THalfLine | TSegment | TVector | TCircle | TArcCircle
    | TNumeric | TEquation | TAngle | TScript | TLocus | TPolygon | TBoundingBox
    | TOther(name: string)

  /** The values of the `type` attribute the filter knows, and any other. */
  datatype Kind =
    | KFree | KMiddle2pts | KMiddleSegment | KOnCurve | KIntersection
    | KReflexion | KSymmetry | KTranslation | KRotation
    | K2pts | K3pts | KSegment | KPerpendicular | KParallel
    | KValue | KPtAbscissa | KPtOrdinate | KSegmentLength | KCirclePerimeter | KArcLength
    | KDistance2pts | KVectorNorm | KVectorAbscissa | KVectorOrdinate | KSlope | KDistancePtLine
    | KLine | KCircle | KNitems | KNone
    | KOther(name: string)

  /** The `thickness` attribute: "Normal", "Thick", "Dashed" or anything else. */
  datatype Thickness = Normal | Thick | Dashed | OtherThickness

  /** The `masked` attribute: "True", "Alway" or anything else. */
  datatype Mask = MaskTrue | MaskAlway | MaskOther

  /** What the rest of Kig provides. */
  datatype Env = Env(
    impOf: Calcer -> ObjectImp,       // the imp a calcer computes
    format: real -> string,           // QString( "%1" ).arg( d, 0, 'g', 3 )
    pointStyleOf: string -> int)      // ObjectDrawer::pointStyleFromString

  /**
   * Why an import gives up.  `Undefined` marks the places where the
   * filter indexes a vector or uses a type without checking it first; the
   * model makes that outcome explicit instead of inventing a check.
   */
  datatype Failure =
    | ParseError
    | NotSupported(tag: Tag, kind: Kind)
    | NotSupportedIntersection
    | NotSupportedPolygon
    | Undefined
    | NoFigures(macroFile: bool)
    | NoFigureChosen

  // ---------------------------------------------------------------------
  // First pass: ids and parent references
  // ---------------------------------------------------------------------

  /** DrGeoHierarchyElement: an element's id and the references to its parents. */
  datatype Hierarchy = Hierarchy(id: string, parents: seq<string>)

  function Digit(d: nat): char
    requires d < 10
  {
    (48 + d) as char
  }

  /** QString::number for a non-negative int: its decimal digits. */
  function NumberString(n: nat): (s: string)
    ensures |s| >= 1
    ensures n >= 10 ==> |s| >= 2
    ensures n < 10 ==> s == [Digit(n)]
  {
    if n < 10 then [Digit(n)] else NumberString(n / 10) + [Digit(n % 10)]
  }

  /** Different numbers are written differently. */
  lemma {:induction false} NumberStringInjective(a: nat, b: nat)
    requires NumberString(a) == NumberString(b)
    ensures a == b
    decreases a
  {
    if a >= 10 && b >= 10 {
      var sa, sb := NumberString(a), NumberString(b);
      assert sa[..|sa| - 1] == NumberString(a / 10);
      assert sb[..|sb| - 1] == NumberString(b / 10);
      NumberStringInjective(a / 10, b / 10);
      assert Digit(a % 10) == sa[|sa| - 1] == Digit(b % 10);
    }
  }

  /** How many of the first i elements have no `id` attribute. */
  function WithoutId(es: seq<Element>, i: nat): (n: nat)
    requires i <= |es|
    ensures n <= i
  {
    if i == 0 then 0
    else WithoutId(es, i - 1) + (if es[i - 1].id.None? then 1 else 0)
  }

  /** The id element i gets: its `id` attribute, or the count of id-less elements before it. */
  function IdOf(es: seq<Element>, i: nat): string
    requires i < |es|
  {
    if es[i].id.Some? then es[i].id.value else NumberString(WithoutId(es, i))
  }

  /** The hierarchy the first pass builds. */
  predicate Fetched(es: seq<Element>, elems: seq<Hierarchy>) {
    |elems| == |es| && forall i :: 0 <= i < |es| ==> elems[i] == Hierarchy(IdOf(es, i), es[i].refs)
  }

  /** The first pass of importFigure, with its `withoutid` counter. */
  method FetchHierarchy(es: seq<Element>) returns (elems: seq<Hierarchy>)
    ensures |elems| == |es|
    ensures forall i :: 0 <= i < |es| ==> elems[i] == Hierarchy(IdOf(es, i), es[i].refs)
  {
    elems := [];
    var withoutid := 0;
    var i := 0;
    while i < |es|
      invariant 0 <= i <= |es| && |elems| == i
      invariant withoutid == WithoutId(es, i)
      invariant forall j :: 0 <= j < i ==> elems[j] == Hierarchy(IdOf(es, j), es[j].refs)
    {
      var id: string;
      if es[i].id.Some? {
        id := es[i].id.value;
      } else {
        id := NumberString(withoutid);
        withoutid := withoutid + 1;
      }
      elems := elems + [Hierarchy(id, es[i].refs)];
      i := i + 1;
    }
  }

  lemma {:induction false} WithoutIdMonotone(es: seq<Element>, i: nat, j: nat)
    requires i < j <= |es| && es[i].id.None?
    ensures WithoutId(es, i) < WithoutId(es, j)
    decreases j - i
  {
    if j - 1 > i {
      WithoutIdMonotone(es, i, j - 1);
    }
  }

  /** Two elements without an `id` attribute never get the same generated id. */
  lemma GeneratedIdsDistinct(es: seq<Element>, i: nat, j: nat)
    requires i < j < |es| && es[i].id.None? && es[j].id.None?
    ensures IdOf(es, i) != IdOf(es, j)
  {
    WithoutIdMonotone(es, i, j);
    if IdOf(es, i) == IdOf(es, j) {
      NumberStringInjective(WithoutId(es, i), WithoutId(es, j));
    }
  }

  /** The first index whose id is `id`, or -1. */
  function IndexOf(elems: seq<Hierarchy>, id: string): (r: int)
    ensures -1 <= r < |elems|
    ensures r == -1 <==> forall i :: 0 <= i < |elems| ==> elems[i].id != id
    ensures r >= 0 ==> elems[r].id == id && forall i :: 0 <= i < r ==> elems[i].id != id
  {
    if elems == [] then -1
    else if elems[0].id == id then 0
    else
      var r := IndexOf(elems[1..], id);
      if r == -1 then -1 else r + 1
  }

  /** convertDrgeoIndex: a linear search for the first element with the id. */
  method ConvertDrgeoIndex(es: seq<Hierarchy>, myid: string) returns (r: int)
    ensures r == IndexOf(es, myid)
  {
    var i := 0;
    while i < |es|
      invariant 0 <= i <= |es|
      invariant forall j :: 0 <= j < i ==> es[j].id != myid
    {
      if es[i].id == myid {
        return i;
      }
      i := i + 1;
    }
    return -1;
  }

  // ---------------------------------------------------------------------
  // Where an element's holder sits
  // ---------------------------------------------------------------------

  predicate IsBox(e: Element) {
    e.tag == TBoundingBox
  }

  /** How many bounding boxes there are among the first j elements. */
  function Boxes(es: seq<Element>, j: nat): (n: nat)
    requires j <= |es|
    ensures n <= j
  {
    if j == 0 then 0
    else Boxes(es, j - 1) + (if IsBox(es[j - 1]) then 1 else 0)
  }

  /** The position in `holders` of element j's holder: one holder per element that is not a bounding box. */
  function HolderIndex(es: seq<Element>, j: nat): nat
    requires j <= |es|
  {
    j - Boxes(es, j)
  }

  lemma HolderIndexStep(es: seq<Element>, j: nat)
    requires j < |es|
    ensures HolderIndex(es, j + 1) == HolderIndex(es, j) + (if IsBox(es[j]) then 0 else 1)
  {
  }

  lemma {:induction false} HolderIndexMonotone(es: seq<Element>, a: nat, b: nat)
    requires a <= b <= |es|
    ensures HolderIndex(es, a) <= HolderIndex(es, b)
    decreases b - a
  {
    if a < b {
      HolderIndexStep(es, b - 1);
      HolderIndexMonotone(es, a, b - 1);
    }
  }

  /** The reference names an imported element that is not a box, and `c` is that element's holder's calcer. */
  predicate RefResolved(es: seq<Element>, elems: seq<Hierarchy>, ref: string, holders: seq<Holder>, c: Calcer)
    requires |elems| == |es|
  {
    var idx := IndexOf(elems, ref);
    0 <= idx && !IsBox(es[idx]) && HolderIndex(es, idx) < |holders| &&
    c == holders[HolderIndex(es, idx)].calcer
  }

  /** The reference names an imported element that is not a box and whose holder slot is filled. */
  predicate Resolvable(es: seq<Element>, elems: seq<Hierarchy>, ref: string, holders: seq<Holder>)
    requires |elems| == |es|
  {
    var idx := IndexOf(elems, ref);
    0 <= idx && !IsBox(es[idx]) && HolderIndex(es, idx) < |holders|
  }

  /** Each reference resolves, and `ps` holds the calcers in reference order. */
  predicate Resolved(es: seq<Element>, elems: seq<Hierarchy>, refs: seq<string>, holders: seq<Holder>, ps: seq<Calcer>)
    requires |elems| == |es|
  {
    |ps| == |refs| && forall k :: 0 <= k < |refs| ==> RefResolved(es, elems, refs[k], holders, ps[k])
  }

  lemma {:induction false} ResolvedCons(es: seq<Element>, elems: seq<Hierarchy>, refs: seq<string>, holders: seq<Holder>, c: Calcer, rest: seq<Calcer>)
    requires |elems| == |es| && refs != [] && RefResolved(es, elems, refs[0], holders, c)
    requires Resolved(es, elems, refs[1..], holders, rest)
    ensures Resolved(es, elems, refs, holders, [c] + rest)
  {
    var ps := [c] + rest;
    forall k | 1 <= k < |refs|
      ensures RefResolved(es, elems, refs[k], holders, ps[k])
    {
      assert refs[k] == refs[1..][k - 1] && ps[k] == rest[k - 1];
    }
  }

  /**
   * The parents' calcers as the evidently intended lookup finds them:
   * each reference resolves to the first element with that id, and then
   * to that element's own holder.  An unknown id is a parse error; a
   * reference to a bounding box or to an element not yet imported reads
   * past the holders.
   */
  function Parents(es: seq<Element>, elems: seq<Hierarchy>, refs: seq<string>, holders: seq<Holder>)
    : (r: Result<seq<Calcer>, Failure>)
    requires |elems| == |es|
    ensures r.Ok? ==> Resolved(es, elems, refs, holders, r.value)
    ensures (exists k :: 0 <= k < |refs| && IndexOf(elems, refs[k]) == -1) ==> r.Err?
  {
    if refs == [] then Ok([])
    else
      var idx := IndexOf(elems, refs[0]);
      if idx == -1 then Err(ParseError)
      else if IsBox(es[idx]) || HolderIndex(es, idx) >= |holders| then Err(Undefined)
      else match Parents(es, elems, refs[1..], holders)
        case Err(f) => Err(f)
        case Ok(rest) =>
          ResolvedCons(es, elems, refs, holders, holders[HolderIndex(es, idx)].calcer, rest);
          Ok([holders[HolderIndex(es, idx)].calcer] + rest)
  }

  /** When every reference can be resolved, the lookup succeeds. */
  lemma {:induction false} ParentsSucceed(es: seq<Element>, elems: seq<Hierarchy>, refs: seq<string>, holders: seq<Holder>)
    requires |elems| == |es|
    requires forall k :: 0 <= k < |refs| ==> Resolvable(es, elems, refs[k], holders)
    ensures Parents(es, elems, refs, holders).Ok?
  {
    if refs != [] {
      assert Resolvable(es, elems, refs[0], holders);
      forall k | 0 <= k < |refs[1..]|
        ensures Resolvable(es, elems, refs[1..][k], holders)
      {
        assert refs[1..][k] == refs[k + 1];
      }
      ParentsSucceed(es, elems, refs[1..], holders);
    }
  }

  /** The reference resolves, and the element index less `nignored` falls among the holders. */
  predicate AsWrittenSlot(elems: seq<Hierarchy>, ref: string, n: nat, nignored: nat) {
    0 <= IndexOf(elems, ref) - nignored < n
  }

  /** The reference's element index less `nignored` is a holder slot, and `c` is that holder's calcer. */
  predicate RefAsWritten(elems: seq<Hierarchy>, ref: string, holders: seq<Holder>, nignored: nat, c: Calcer) {
    AsWrittenSlot(elems, ref, |holders|, nignored) && c == holders[IndexOf(elems, ref) - nignored].calcer
  }

  /** Each reference resolves as the code writes it, and `ps` holds the calcers in reference order. */
  predicate ResolvedAsWritten(elems: seq<Hierarchy>, refs: seq<string>, holders: seq<Holder>, nignored: nat, ps: seq<Calcer>) {
    |ps| == |refs| && forall k :: 0 <= k < |refs| ==> RefAsWritten(elems, refs[k], holders, nignored, ps[k])
  }

  lemma {:induction false} ResolvedAsWrittenCons(elems: seq<Hierarchy>, refs: seq<string>, holders: seq<Holder>, nignored: nat, c: Calcer, rest: seq<Calcer>)
    requires refs != [] && RefAsWritten(elems, refs[0], holders, nignored, c)
    requires ResolvedAsWritten(elems, refs[1..], holders, nignored, rest)
    ensures ResolvedAsWritten(elems, refs, holders, nignored, [c] + rest)
  {
    var ps := [c] + rest;
    forall k | 1 <= k < |refs|
      ensures RefAsWritten(elems, refs[k], holders, nignored, ps[k])
    {
      assert refs[k] == refs[1..][k - 1] && ps[k] == rest[k - 1];
    }
  }

  /**
   * The lookup as filters/drgeo-filter.cc:205-208 writes it: the element
   * index minus `nignored`, the number of bounding boxes met so far in
   * the whole figure rather than before the parent.
   */
  function ParentsAsWritten(elems: seq<Hierarchy>, refs: seq<string>, holders: seq<Holder>, nignored: nat)
    : (r: Result<seq<Calcer>, Failure>)
    ensures r.Ok? ==> ResolvedAsWritten(elems, refs, holders, nignored, r.value)
    ensures (forall k :: 0 <= k < |refs| ==> AsWrittenSlot(elems, refs[k], |holders|, nignored)) ==> r.Ok?
  {
    if refs == [] then Ok([])
    else
      var idx := IndexOf(elems, refs[0]);
      if idx == -1 then Err(ParseError)
      else if !AsWrittenSlot(elems, refs[0], |holders|, nignored) then Err(Undefined)
      else match ParentsAsWritten(elems, refs[1..], holders, nignored)
        case Err(f) => Err(f)
        case Ok(rest) =>
          ResolvedAsWrittenCons(elems, refs, holders, nignored, holders[idx - nignored].calcer, rest);
          Ok([holders[idx - nignored].calcer] + rest)
  }

  // ---------------------------------------------------------------------
  // Second pass: one element's calcer
  // ---------------------------------------------------------------------

  /** What the big switch of importFigure makes of one element. */
  datatype Made = Built(c: Calcer) | Ignored | Fail(f: Failure)

  function Unsupported(e: Element): Made {
    Fail(NotSupported(e.tag, e.kind))
  }

  /** The `extra` attribute of an intersection: 0 selects -1, 1 selects 1, anything else is an error. */
  function WhichOf(extra: Option<int>): (r: Result<int, Failure>)
    ensures r == Ok(-1) <==> extra == Some(0)
    ensures r == Ok(1) <==> extra == Some(1)
    ensures r.Err? <==> extra != Some(0) && extra != Some(1)
    ensures r.Err? ==> r.error == ParseError
  {
    match extra
    case None => Err(ParseError)
    case Some(w) => if w == 0 then Ok(-1) else if w == 1 then Ok(1) else Err(ParseError)
  }

  /** The Kig type a transforming element uses, by its Dr. Geo type. */
  function TransformName(kind: Kind): Option<string> {
    match kind
    case KReflexion => Some("LineReflection")
    case KSymmetry => Some("PointReflection")
    case KTranslation => Some("Translation")
    case KRotation => Some("Rotation")
    case _ => None
  }

  /** A point on a curve: circles and segments keep the value, arcs run the other way. */
  function OnCurveParam(curve: ObjectImp, value: real): (p: Option<real>)
    ensures curve.CircleImp? || curve.SegmentImp? ==> p == Some(value)
    ensures curve.ArcImp? ==> p == Some(1.0 - value)
    ensures p.None? <==> !(curve.CircleImp? || curve.SegmentImp? || curve.ArcImp?)
  {
    if curve.CircleImp? || curve.SegmentImp? then Some(value)
    else if curve.ArcImp? then Some(1.0 - value)
    else None
  }

  function Intersection(e: Element, ps: seq<Calcer>, env: Env): Made
    requires |ps| >= 2
  {
    var a, b := env.impOf(ps[0]), env.impOf(ps[1]);
    if Inherits(a, LineT) && Inherits(b, LineT) then Built(TypeCalcer("LineLineIntersection", ps))
    else if a.CircleImp? && b.CircleImp? then
      match WhichOf(e.extra)
      case Err(f) => Fail(f)
      case Ok(w) => Built(TypeCalcer("CircleCircleIntersection", ps + [ConstCalcer(IntImp(w))]))
    else if (a.CircleImp? && Inherits(b, LineT)) || (b.CircleImp? && Inherits(a, LineT)) then
      match WhichOf(e.extra)
      case Err(f) => Fail(f)
      case Ok(w) => Built(TypeCalcer("ConicLineIntersection", ps + [ConstCalcer(IntImp(w))]))
    else Fail(NotSupportedIntersection)
  }

  function PointCalcer(e: Element, ps: seq<Calcer>, env: Env): Made {
    if e.kind == KFree then
      if e.x.Some? && e.y.Some? then Built(FixedPoint(Coordinate(e.x.value, e.y.value))) else Fail(ParseError)
    else if e.kind == KMiddle2pts then Built(TypeCalcer("MidPoint", ps))
    else if e.kind == KMiddleSegment then
      if |ps| != 1 || !env.impOf(ps[0]).SegmentImp? then Fail(ParseError)
      else Built(TypeCalcer("MidPoint", [PropertyCalcer(ps[0], "end-point-A"), PropertyCalcer(ps[0], "end-point-B")]))
    else if e.kind == KOnCurve then
      if e.value.None? then Fail(ParseError)
      else if ps == [] then Fail(Undefined)
      else match OnCurveParam(env.impOf(ps[0]), e.value.value)
        case Some(p) => Built(ConstrainedPoint(ps[0], p))
        case None => Unsupported(e)
    else if e.kind == KIntersection then
      if |ps| < 2 then Fail(Undefined) else Intersection(e, ps, env)
    else match TransformName(e.kind)
      case Some(n) => Built(TypeCalcer(n, ps))
      case None => Unsupported(e)
  }

  /** The elements drawn as lines: line, halfLine, segment, vector, circle, arcCircle. */
  predicate LineLike(tag: Tag) {
    tag in {TLine, THalfLine, TSegment, TVector, TCircle, TArcCircle}
  }

  /** The type a "2pts" element uses; an arc through two points has none. */
  function TwoPointsType(tag: Tag): Option<string> {
    match tag
    case TLine => Some("LineAB")
    case THalfLine => Some("RayAB")
    case TSegment => Some("SegmentAB")
    case TVector => Some("Vector")
    case TCircle => Some("CircleBCP")
    case _ => None
  }

  /** An ObjectTypeCalcer of a type the filter may have left null. */
  function Typed(t: Option<string>, ps: seq<Calcer>): Made {
    if t.Some? then Built(TypeCalcer(t.value, ps)) else Fail(Undefined)
  }

  function LineLikeCalcer(e: Element, ps: seq<Calcer>): Made {
    if e.kind == K2pts then Typed(TwoPointsType(e.tag), ps)
    else if e.kind == K3pts then Typed(if e.tag == TArcCircle then Some("ArcBTP") else None, ps)
    else if e.kind == KSegment then
      if e.tag != TCircle then Fail(Undefined)
      else if |ps| < 2 then Fail(Undefined)
      else Built(TypeCalcer("CircleBPR", [ps[0], PropertyCalcer(ps[1], "length")]))
    else if e.kind == KPerpendicular then Built(TypeCalcer("LinePerpend", ps))
    else if e.kind == KParallel then Built(TypeCalcer("LineParallel", ps))
    else match TransformName(e.kind)
      case Some(n) => Built(TypeCalcer(n, ps))
      case None => Unsupported(e)
  }

  /** The property a one-parent numeric or equation shows. */
  function ShownProperty(kind: Kind): Option<string> {
    match kind
    case KPtAbscissa => Some("coordinate-x")
    case KPtOrdinate => Some("coordinate-y")
    case KSegmentLength => Some("length")
    case KCirclePerimeter => Some("circumference")
    case KArcLength => Some("arc-length")
    case KVectorNorm => Some("length")
    case KVectorAbscissa => Some("length-x")
    case KVectorOrdinate => Some("length-y")
    case KSlope => Some("slope")
    case KLine => Some("equation")
    case KCircle => Some("simply-cartesian-equation")
    case _ => None
  }

  function NumericCalcer(e: Element, ps: seq<Calcer>, env: Env): Made {
    if e.x.None? || e.y.None? then Fail(ParseError)
    else
      var m := Coordinate(e.x.value, e.y.value);
      if e.kind == KValue then
        Built(LabelCalcer(if e.value.Some? then env.format(e.value.value) else e.valueText, m))
      else if e.kind == KDistance2pts then
        if |ps| != 2 then Fail(ParseError)
        else Built(TextCalcer(m, TypeCalcer("SegmentAB", ps), "length"))
      else if e.kind == KDistancePtLine then
        if |ps| != 2 then Fail(ParseError)
        else
          var foot := TypeCalcer("LineLineIntersection", [ps[1], TypeCalcer("LinePerpend", [ps[1], ps[0]])]);
          Built(TextCalcer(m, TypeCalcer("SegmentAB", [ps[0], foot]), "length"))
      else match ShownProperty(e.kind)
        case Some(prop) => if |ps| != 1 then Fail(ParseError) else Built(TextCalcer(m, ps[0], prop))
        case None => Unsupported(e)
  }

  /** The switch of importFigure over the element's tag and type. */
  function MakeCalcer(e: Element, ps: seq<Calcer>, env: Env): (r: Made)
    ensures r.Ignored? <==> IsBox(e)
  {
    if e.tag == TPoint then PointCalcer(e, ps, env)
    else if LineLike(e.tag) then LineLikeCalcer(e, ps)
    else if e.tag == TNumeric || e.tag == TEquation then NumericCalcer(e, ps, env)
    else if e.tag == TAngle then
      if e.kind == K3pts then Built(TypeCalcer("Angle", ps)) else Unsupported(e)
    else if e.tag == TScript then
      if e.x.None? || e.y.None? then Fail(ParseError)
      else if e.kind == KNitems then Built(LabelCalcer(e.code, Coordinate(e.x.value, e.y.value)))
      else Unsupported(e)
    else if e.tag == TLocus then
      if e.kind != KNone then Unsupported(e)
      else if |ps| < 2 then Fail(Undefined)
      else Built(LocusCalcer(ps[0], ps[1]))
    else if e.tag == TPolygon then Fail(NotSupportedPolygon)
    else if IsBox(e) then Ignored
    else Unsupported(e)
  }

  // ---------------------------------------------------------------------
  // Drawing style
  // ---------------------------------------------------------------------

  datatype PenStyle = SolidLine | DotLine

  /** An ObjectHolder with its ObjectDrawer's settings. */
  datatype Holder = Holder(calcer: Calcer, color: int, width: int, shown: bool, pen: PenStyle, pointStyle: int)

  /** Qt::blue, the colour of elements without a valid `color`. */
  const Blue: int := 0x0000FF

  /** The elements whose `thickness` sets a line style: the line-like ones and angles. */
  predicate Stroked(tag: Tag) {
    LineLike(tag) || tag == TAngle
  }

  /** The width table: points Normal 7 and Thick 9, stroked elements Thick 2, anything else -1. */
  function Width(e: Element): (w: int)
    ensures w in {-1, 2, 7, 9}
    ensures w == 7 <==> e.tag == TPoint && e.thickness == Normal
    ensures w == 9 <==> e.tag == TPoint && e.thickness == Thick
    ensures w == 2 <==> Stroked(e.tag) && e.thickness == Thick
  {
    if e.tag == TPoint then
      if e.thickness == Normal then 7 else if e.thickness == Thick then 9 else -1
    else if Stroked(e.tag) && e.thickness == Thick then 2
    else -1
  }

  /** Dashed stroked elements are dotted; everything else is solid. */
  function Pen(e: Element): (s: PenStyle)
    ensures s == DotLine <==> Stroked(e.tag) && e.thickness == Dashed
  {
    if Stroked(e.tag) && e.thickness == Dashed then DotLine else SolidLine
  }

  /** An element is shown unless it is masked "True" or "Alway". */
  function Shown(masked: Mask): (b: bool)
    ensures b <==> masked != MaskTrue && masked != MaskAlway
  {
    masked != MaskTrue && masked != MaskAlway
  }

  function HolderFor(e: Element, c: Calcer, env: Env): Holder {
    Holder(c, if e.color.Some? then e.color.value else Blue, Width(e), Shown(e.masked), Pen(e), env.pointStyleOf(e.style))
  }

  // ---------------------------------------------------------------------
  // Second pass: the loop
  // ---------------------------------------------------------------------

  /** What an element contributes: a holder, nothing (a bounding box), or the failure that ends the import. */
  datatype Step = Push(h: Holder) | Skip | Abort(f: Failure)

  /**
   * The switch and the drawer settings the second loop uses.  The loop's
   * properties hold for any switch that ignores exactly the bounding
   * boxes, so they are stated over this pair.
   */
  datatype Importer = Importer(make: (Element, seq<Calcer>) -> Made, env: Env)

  function DrGeoImporter(env: Env): Importer {
    Importer((e, ps) => MakeCalcer(e, ps, env), env)
  }

  /** The switch makes nothing exactly for bounding boxes. */
  ghost predicate IgnoresBoxes(im: Importer) {
    forall e, ps :: im.make(e, ps).Ignored? <==> IsBox(e)
  }

  lemma DrGeoIgnoresBoxes(env: Env)
    ensures IgnoresBoxes(DrGeoImporter(env))
  {
    forall e, ps ensures DrGeoImporter(env).make(e, ps).Ignored? <==> IsBox(e) {
      assert DrGeoImporter(env).make(e, ps) == MakeCalcer(e, ps, env);
    }
  }

  /** The body of the second loop for element i, with the holders made before it. */
  function ElementStep(es: seq<Element>, elems: seq<Hierarchy>, im: Importer, i: nat, holders: seq<Holder>): Step
    requires Fetched(es, elems) && i < |es|
  {
    match Parents(es, elems, elems[i].parents, holders)
    case Err(f) => Abort(f)
    case Ok(ps) =>
      match im.make(es[i], ps)
      case Fail(f) => Abort(f)
      case Ignored => Skip
      case Built(c) => Push(HolderFor(es[i], c, im.env))
  }

  function ImportFrom(es: seq<Element>, elems: seq<Hierarchy>, im: Importer, i: nat, holders: seq<Holder>)
    : Result<seq<Holder>, Failure>
    requires Fetched(es, elems) && i <= |es|
    decreases |es| - i
  {
    if i == |es| then Ok(holders)
    else match ElementStep(es, elems, im, i, holders)
      case Abort(f) => Err(f)
      case Skip => ImportFrom(es, elems, im, i + 1, holders)
      case Push(h) => ImportFrom(es, elems, im, i + 1, holders + [h])
  }

  function HierarchyOf(es: seq<Element>): (elems: seq<Hierarchy>)
    ensures Fetched(es, elems)
  {
    seq(|es|, i requires 0 <= i < |es| => Hierarchy(IdOf(es, i), es[i].refs))
  }

  /** One element's step of the import, as the run from that element on sees it. */
  lemma ImportFromStep(es: seq<Element>, elems: seq<Hierarchy>, im: Importer, i: nat, holders: seq<Holder>)
    requires Fetched(es, elems) && i < |es|
    ensures Parents(es, elems, elems[i].parents, holders).Err? ==>
      ImportFrom(es, elems, im, i, holders) == Err(Parents(es, elems, elems[i].parents, holders).error)
    ensures Parents(es, elems, elems[i].parents, holders).Ok? ==>
      var made := im.make(es[i], Parents(es, elems, elems[i].parents, holders).value);
      (made.Fail? ==> ImportFrom(es, elems, im, i, holders) == Err(made.f)) &&
      (made.Ignored? ==> ImportFrom(es, elems, im, i, holders) == ImportFrom(es, elems, im, i + 1, holders)) &&
      (made.Built? ==>
        ImportFrom(es, elems, im, i, holders)
          == ImportFrom(es, elems, im, i + 1, holders + [HolderFor(es[i], made.c, im.env)]))
  {
  }

  /** The imported figure: its holders, and whether the Euclidean coordinate system (grid) is on. */
  datatype Document = Document(holders: seq<Holder>, euclidean: bool)

  function ImportSpec(es: seq<Element>, grid: bool, env: Env): Result<Document, Failure> {
    match ImportFrom(es, HierarchyOf(es), DrGeoImporter(env), 0, [])
    case Err(f) => Err(f)
    case Ok(hs) => Ok(Document(hs, grid))
  }

  /** The holder positions of the elements seen so far, -1 for bounding boxes. */
  predicate Slots(es: seq<Element>, slot: seq<int>, holders: seq<Holder>) {
    |slot| <= |es| && |holders| == HolderIndex(es, |slot|) &&
    forall j :: 0 <= j < |slot| ==> slot[j] == if IsBox(es[j]) then -1 else HolderIndex(es, j)
  }

  lemma SlotsExtend(es: seq<Element>, slot: seq<int>, holders: seq<Holder>, x: int, holders': seq<Holder>)
    requires Slots(es, slot, holders) && |slot| < |es|
    requires x == if IsBox(es[|slot|]) then -1 else HolderIndex(es, |slot|)
    requires |holders'| == HolderIndex(es, |slot| + 1)
    ensures Slots(es, slot + [x], holders')
  {
    var s' := slot + [x];
    forall j | 0 <= j < |s'|
      ensures s'[j] == if IsBox(es[j]) then -1 else HolderIndex(es, j)
    {
      if j < |slot| {
        assert s'[j] == slot[j];
      }
    }
  }

  /**
   * The parent loop of importFigure, with the lookup of each parent's
   * holder done through `slot`, the holder position recorded for each
   * element as it is imported.
   */
  method ResolveParents(es: seq<Element>, elems: seq<Hierarchy>, refs: seq<string>, holders: seq<Holder>, slot: seq<int>)
    returns (r: Result<seq<Calcer>, Failure>)
    requires Fetched(es, elems) && Slots(es, slot, holders)
    ensures r == Parents(es, elems, refs, holders)
  {
    var ps: seq<Calcer> := [];
    var k := 0;
    assert refs[0..] == refs;
    assert Joined([], Parents(es, elems, refs, holders)) == Parents(es, elems, refs, holders) by {
      if Parents(es, elems, refs, holders).Ok? {
        assert [] + Parents(es, elems, refs, holders).value == Parents(es, elems, refs, holders).value;
      }
    }
    while k < |refs|
      invariant 0 <= k <= |refs|
      invariant Parents(es, elems, refs, holders) == Joined(ps, Parents(es, elems, refs[k..], holders))
    {
      assert refs[k..][1..] == refs[k + 1..];
      var parentid := ConvertDrgeoIndex(elems, refs[k]);
      if parentid == -1 {
        return Err(ParseError);
      }
      if parentid >= |slot| {
        HolderIndexMonotone(es, |slot|, parentid);
        return Err(Undefined);
      }
      if slot[parentid] == -1 {
        return Err(Undefined);
      }
      HolderIndexStep(es, parentid);
      HolderIndexMonotone(es, parentid + 1, |slot|);
      var c := holders[slot[parentid]].calcer;
      ParentsCons(es, elems, refs[k..], holders, parentid);
      JoinedAppend(ps, c, Parents(es, elems, refs[k + 1..], holders));
      ps := ps + [c];
      k := k + 1;
    }
    assert refs[k..] == [] && ps + [] == ps;
    return Ok(ps);
  }

  lemma {:induction false} ParentsCons(es: seq<Element>, elems: seq<Hierarchy>, refs: seq<string>, holders: seq<Holder>, idx: int)
    requires |elems| == |es| && refs != [] && idx == IndexOf(elems, refs[0])
    requires 0 <= idx && !IsBox(es[idx]) && HolderIndex(es, idx) < |holders|
    ensures Parents(es, elems, refs, holders)
      == Joined([holders[HolderIndex(es, idx)].calcer], Parents(es, elems, refs[1..], holders))
  {
  }

  lemma JoinedAppend(ps: seq<Calcer>, c: Calcer, rest: Result<seq<Calcer>, Failure>)
    ensures Joined(ps, Joined([c], rest)) == Joined(ps + [c], rest)
  {
    if rest.Ok? {
      assert ps + ([c] + rest.value) == (ps + [c]) + rest.value;
    }
  }

  /** The parents resolved so far, followed by the rest. */
  function Joined(ps: seq<Calcer>, rest: Result<seq<Calcer>, Failure>): Result<seq<Calcer>, Failure> {
    match rest
    case Err(f) => Err(f)
    case Ok(qs) => Ok(ps + qs)
  }

  /**
   * importFigure with the parent lookup corrected: the first pass, then
   * one step per element, stopping at the first failure.
   */
  method ImportFigure(es: seq<Element>, grid: bool, env: Env) returns (r: Result<Document, Failure>)
    ensures r == ImportSpec(es, grid, env)
  {
    var elems := FetchHierarchy(es);
    assert elems == HierarchyOf(es);
    var im := DrGeoImporter(env);
    var holders: seq<Holder> := [];
    var slot: seq<int> := [];
    var nignored := 0;
    var curid := 0;
    while curid < |es|
      invariant curid == |slot| && Slots(es, slot, holders)
      invariant nignored == Boxes(es, curid)
      invariant ImportFrom(es, elems, im, curid, holders) == ImportFrom(es, elems, im, 0, [])
      decreases |es| - curid
    {
      var parents := ResolveParents(es, elems, elems[curid].parents, holders, slot);
      ImportFromStep(es, elems, im, curid, holders);
      if parents.Err? {
        return Err(parents.error);
      }
      var made := im.make(es[curid], parents.value);
      DrGeoIgnoresBoxes(env);
      HolderIndexStep(es, curid);
      match made {
        case Fail(f) =>
          return Err(f);
        case Ignored =>
          SlotsExtend(es, slot, holders, -1, holders);
          nignored := nignored + 1;
          slot := slot + [-1];
        case Built(c) =>
          var h := HolderFor(es[curid], c, env);
          SlotsExtend(es, slot, holders, |holders|, holders + [h]);
          slot := slot + [|holders|];
          holders := holders + [h];
      }
      curid := curid + 1;
    }
    return Ok(Document(holders, grid));
  }

  // ---------------------------------------------------------------------
  // What an import yields
  // ---------------------------------------------------------------------

  /** Each holder of an import is what its element makes from the holders before it. */
  ghost predicate StepsFrom(es: seq<Element>, elems: seq<Hierarchy>, im: Importer, i: nat, rs: seq<Holder>)
    requires Fetched(es, elems)
  {
    forall j :: i <= j < |es| && !IsBox(es[j]) ==>
      HolderIndex(es, j) < |rs| &&
      ElementStep(es, elems, im, j, rs[..HolderIndex(es, j)]) == Push(rs[HolderIndex(es, j)])
  }

  /** Element i's holder, pushed in front of the run after it, extends StepsFrom back to i. */
  lemma StepsFromPush(es: seq<Element>, elems: seq<Hierarchy>, im: Importer, i: nat,
                      holders: seq<Holder>, h: Holder, rs: seq<Holder>)
    requires Fetched(es, elems) && i < |es| && !IsBox(es[i]) && |holders| == HolderIndex(es, i)
    requires ElementStep(es, elems, im, i, holders) == Push(h)
    requires |holders| < |rs| && rs[..|holders| + 1] == holders + [h]
    requires StepsFrom(es, elems, im, i + 1, rs)
    ensures rs[..|holders|] == holders && StepsFrom(es, elems, im, i, rs)
  {
    assert rs[..|holders|] == rs[..|holders| + 1][..|holders|];
    assert rs[|holders|] == rs[..|holders| + 1][|holders|];
  }

  /** Under an importer that ignores exactly the boxes, an element is skipped only when it is a box and pushed only when it is not. */
  lemma StepKind(es: seq<Element>, elems: seq<Hierarchy>, im: Importer, i: nat, holders: seq<Holder>)
    requires Fetched(es, elems) && i < |es| && IgnoresBoxes(im)
    ensures ElementStep(es, elems, im, i, holders).Skip? ==> IsBox(es[i])
    ensures ElementStep(es, elems, im, i, holders).Push? ==> !IsBox(es[i])
  {
    var ps := Parents(es, elems, elems[i].parents, holders);
    if ps.Ok? {
      assert im.make(es[i], ps.value).Ignored? <==> IsBox(es[i]);
    }
  }

  lemma {:induction false} ImportFromShape(es: seq<Element>, elems: seq<Hierarchy>, im: Importer, i: nat, holders: seq<Holder>)
    requires Fetched(es, elems) && i <= |es| && |holders| == HolderIndex(es, i) && IgnoresBoxes(im)
    ensures var r := ImportFrom(es, elems, im, i, holders);
      r.Ok? ==>
        |r.value| == HolderIndex(es, |es|) && |holders| <= |r.value| && r.value[..|holders|] == holders &&
        StepsFrom(es, elems, im, i, r.value)
    decreases |es| - i
  {
    if i < |es| {
      HolderIndexStep(es, i);
      var s := ElementStep(es, elems, im, i, holders);
      StepKind(es, elems, im, i, holders);
      if s.Skip? {
        ImportFromShape(es, elems, im, i + 1, holders);
      } else if s.Push? {
        var hs := holders + [s.h];
        ImportFromShape(es, elems, im, i + 1, hs);
        var r := ImportFrom(es, elems, im, i + 1, hs);
        assert r == ImportFrom(es, elems, im, i, holders);
        if r.Ok? {
          StepsFromPush(es, elems, im, i, holders, s.h, r.value);
        }
      }
    }
  }

  /**
   * A figure that imports has one holder per element that is not a
   * bounding box, in element order: element j's holder sits at
   * HolderIndex(j) and is what element j makes from the holders before
   * it.  With Parents' own contract, a reference to element j therefore
   * resolves to the calcer element j made.  The grid attribute picks the
   * coordinate system.
   */
  lemma ImportedFigure(es: seq<Element>, grid: bool, env: Env)
    ensures var r := ImportSpec(es, grid, env);
      r.Ok? ==>
        |r.value.holders| == HolderIndex(es, |es|) && r.value.euclidean == grid &&
        forall j :: 0 <= j < |es| && !IsBox(es[j]) ==>
          HolderIndex(es, j) < |r.value.holders| &&
          ElementStep(es, HierarchyOf(es), DrGeoImporter(env), j, r.value.holders[..HolderIndex(es, j)])
            == Push(r.value.holders[HolderIndex(es, j)])
  {
    DrGeoIgnoresBoxes(env);
    ImportFromShape(es, HierarchyOf(es), DrGeoImporter(env), 0, []);
  }

  /** A figure with an element the filter refuses does not import. */
  lemma RefusedElementFails(es: seq<Element>, grid: bool, env: Env, j: nat)
    requires j < |es| && es[j].tag == TPolygon
    ensures ImportSpec(es, grid, env).Err?
  {
    ImportedFigure(es, grid, env);
    var r := ImportSpec(es, grid, env);
    if r.Ok? {
      PolygonNeverPushed(es, HierarchyOf(es), env, j, r.value.holders[..HolderIndex(es, j)]);
    }
  }

  lemma PolygonNeverPushed(es: seq<Element>, elems: seq<Hierarchy>, env: Env, j: nat, holders: seq<Holder>)
    requires Fetched(es, elems) && j < |es| && es[j].tag == TPolygon
    ensures !ElementStep(es, elems, DrGeoImporter(env), j, holders).Push?
  {
  }

  // ---------------------------------------------------------------------
  // The rules of the switch
  // ---------------------------------------------------------------------

  /** A free point needs both coordinates and sits at them. */
  lemma FreePointRule(e: Element, ps: seq<Calcer>, env: Env)
    requires e.tag == TPoint && e.kind == KFree
    ensures MakeCalcer(e, ps, env) ==
      if e.x.Some? && e.y.Some? then Built(FixedPoint(Coordinate(e.x.value, e.y.value))) else Fail(ParseError)
  {
  }

  /** A point on a circle or segment keeps its value, on an arc it gets 1 - value. */
  lemma OnCurveRule(e: Element, curve: Calcer, env: Env)
    requires e.tag == TPoint && e.kind == KOnCurve && e.value.Some?
    ensures env.impOf(curve).ArcImp? ==>
      MakeCalcer(e, [curve], env) == Built(ConstrainedPoint(curve, 1.0 - e.value.value))
    ensures env.impOf(curve).CircleImp? || env.impOf(curve).SegmentImp? ==>
      MakeCalcer(e, [curve], env) == Built(ConstrainedPoint(curve, e.value.value))
  {
  }

  /** Two circles intersect with a selector taken from `extra`, which must be 0 or 1. */
  lemma CircleIntersectionRule(e: Element, a: Calcer, b: Calcer, env: Env)
    requires e.tag == TPoint && e.kind == KIntersection
    requires env.impOf(a).CircleImp? && env.impOf(b).CircleImp?
    ensures MakeCalcer(e, [a, b], env).Fail? <==> e.extra != Some(0) && e.extra != Some(1)
    ensures e.extra == Some(0) ==>
      MakeCalcer(e, [a, b], env) == Built(TypeCalcer("CircleCircleIntersection", [a, b, ConstCalcer(IntImp(-1))]))
  {
    assert [a, b] + [ConstCalcer(IntImp(-1))] == [a, b, ConstCalcer(IntImp(-1))];
  }

  /** A measure with the wrong number of parents is a parse error. */
  lemma MeasureArityRule(e: Element, ps: seq<Calcer>, env: Env)
    requires e.tag == TNumeric && e.x.Some? && e.y.Some? && ShownProperty(e.kind).Some?
    ensures MakeCalcer(e, ps, env).Fail? <==> |ps| != 1
  {
  }

  /**
   * The lookup as written picks the wrong holder once a bounding box
   * lies between a parent and its child: with points a and b, then a
   * bounding box, then a midpoint of b, the reference to b reads a's
   * holder; the corrected lookup reads b's.
   */
  lemma BoxShiftsParents(env: Env, ha: Holder, hb: Holder)
    requires ha.calcer != hb.calcer
    ensures var es := BoxExample();
      var elems := HierarchyOf(es);
      ParentsAsWritten(elems, ["b"], [ha, hb], Boxes(es, 3)) == Ok([ha.calcer]) &&
      Parents(es, elems, ["b"], [ha, hb]) == Ok([hb.calcer])
  {
    var es := BoxExample();
    var elems := HierarchyOf(es);
    assert elems[0].id == "a" && elems[1].id == "b";
    assert IndexOf(elems, "b") == 1;
    assert Boxes(es, 1) == 0;
    assert Boxes(es, 2) == 0;
    assert Boxes(es, 3) == 1;
    assert HolderIndex(es, 1) == 1;
    var refs := ["b"];
    assert refs[0] == "b" && refs[1..] == [];
    assert ParentsAsWritten(elems, refs[1..], [ha, hb], 1) == Ok([]);
    assert Parents(es, elems, refs[1..], [ha, hb]) == Ok([]);
    assert [ha.calcer] + [] == [ha.calcer] && [hb.calcer] + [] == [hb.calcer];
  }

  function BoxPoint(id: string, refs: seq<string>, kind: Kind): Element {
    Element(TPoint, kind, Some(id), refs, Some(0.0), Some(0.0), None, "", "", None, None, OtherThickness, "", MaskOther)
  }

  /** Points a and b, a bounding box, and the midpoint of b. */
  function BoxExample(): seq<Element> {
    [BoxPoint("a", [], KFree), BoxPoint("b", [], KFree),
     Element(TBoundingBox, KOther(""), Some("box"), [], None, None, None, "", "", None, None, OtherThickness, "", MaskOther),
     BoxPoint("m", ["b"], KMiddle2pts)]
  }

  // ---------------------------------------------------------------------
  // load: choosing the figure
  // ---------------------------------------------------------------------

  /** The children of the root element. */
  datatype TopNode = Figure(name: string, grid: string, content: seq<Element>) | Macro | OtherNode

  function FiguresOf(top: seq<TopNode>): (fs: seq<TopNode>)
    ensures forall f :: f in fs ==> f.Figure?
  {
    if top == [] then []
    else FiguresOf(top[..|top| - 1]) + (if top[|top| - 1].Figure? then [top[|top| - 1]] else [])
  }

  function Macros(top: seq<TopNode>): nat {
    if top == [] then 0 else Macros(top[..|top| - 1]) + (if top[|top| - 1].Macro? then 1 else 0)
  }

  /**
   * load: no figures is an error (a different one for a macro file); the
   * user chooses among several figures; the chosen figure is imported
   * with the grid on unless its `grid` attribute is "False".
   */
  function LoadSpec(top: seq<TopNode>, choice: int, env: Env): Result<Document, Failure> {
    var figures := FiguresOf(top);
    if figures == [] then Err(NoFigures(Macros(top) > 0))
    else
      var myfig := if |figures| > 1 then choice else 0;
      if !(0 <= myfig < |figures|) then Err(NoFigureChosen)
      else ImportSpec(figures[myfig].content, figures[myfig].grid != "False", env)
  }

  lemma {:induction false} FiguresPrefix(top: seq<TopNode>, i: nat)
    requires i <= |top|
    ensures FiguresOf(top[..i]) <= FiguresOf(top)
    decreases |top| - i
  {
    if i < |top| {
      FiguresPrefix(top, i + 1);
      assert top[..i + 1][..i] == top[..i];
    } else {
      assert top[..i] == top;
    }
  }

  /** The first pass of load: how many figures and macros the root holds. */
  method CountTopNodes(top: seq<TopNode>) returns (nfigures: nat, nmacros: nat)
    ensures nfigures == |FiguresOf(top)| && nmacros == Macros(top)
  {
    nfigures, nmacros := 0, 0;
    var i := 0;
    while i < |top|
      invariant 0 <= i <= |top|
      invariant nfigures == |FiguresOf(top[..i])| && nmacros == Macros(top[..i])
    {
      assert top[..i + 1][..i] == top[..i];
      if top[i].Figure? {
        nfigures := nfigures + 1;
      } else if top[i].Macro? {
        nmacros := nmacros + 1;
      }
      i := i + 1;
    }
    assert top[..i] == top;
  }

  /** The second pass of load: the position among the root's children of figure number `myfig`, or -1. */
  method FindFigure(top: seq<TopNode>, myfig: int) returns (found: int)
    ensures -1 <= found < |top|
    ensures found == -1 <==> !(0 <= myfig < |FiguresOf(top)|)
    ensures found >= 0 ==> top[found] == FiguresOf(top)[myfig]
  {
    var curfig := -1;
    var i := 0;
    while i < |top|
      invariant 0 <= i <= |top|
      invariant curfig + 1 == |FiguresOf(top[..i])| && (0 <= myfig ==> curfig < myfig)
    {
      assert top[..i + 1][..i] == top[..i];
      if top[i].Figure? {
        curfig := curfig + 1;
        if curfig == myfig {
          FiguresPrefix(top, i + 1);
          assert FiguresOf(top)[myfig] == top[i];
          return i;
        }
      }
      i := i + 1;
    }
    assert top[..i] == top;
    return -1;
  }

  method Load(top: seq<TopNode>, choice: int, env: Env) returns (r: Result<Document, Failure>)
    ensures r == LoadSpec(top, choice, env)
  {
    var nfigures, nmacros := CountTopNodes(top);
    if nfigures == 0 {
      return Err(NoFigures(nmacros > 0));
    }
    var myfig := if nfigures > 1 then choice else 0;
    var found := FindFigure(top, myfig);
    if found == -1 {
      return Err(NoFigureChosen);
    }
    r := ImportFigure(top[found].content, top[found].grid != "False", env);
  }

  /** A file with a single figure imports it, whatever the user would have chosen. */
  lemma SingleFigure(top: seq<TopNode>, c1: int, c2: int, env: Env)
    requires |FiguresOf(top)| == 1
    ensures LoadSpec(top, c1, env) == LoadSpec(top, c2, env)
    ensures LoadSpec(top, c1, env) ==
      ImportSpec(FiguresOf(top)[0].content, FiguresOf(top)[0].grid != "False", env)
  {
  }

  /** A file without figures fails, telling a macro file from an empty one. */
  lemma NoFigureFile(top: seq<TopNode>, choice: int, env: Env)
    requires forall k :: 0 <= k < |top| ==> !top[k].Figure?
    ensures LoadSpec(top, choice, env) == Err(NoFigures(exists k :: 0 <= k < |top| && top[k].Macro?))
  {
    FigureFreeCounts(top);
  }

  lemma {:induction false} FigureFreeCounts(top: seq<TopNode>)
    requires forall k :: 0 <= k < |top| ==> !top[k].Figure?
    ensures FiguresOf(top) == []
    ensures Macros(top) > 0 <==> exists k :: 0 <= k < |top| && top[k].Macro?
  {
    if top != [] {
      var p := top[..|top| - 1];
      FigureFreeCounts(p);
      assert forall k :: 0 <= k < |p| ==> p[k] == top[k];
      if top[|top| - 1].Macro? {
        assert top[|top| - 1].Macro?;
      }
    }
  }
}
