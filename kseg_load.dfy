/**
 * The record loop of KigFilterKSeg::load (filters/kseg-filter.cc): each
 * object record names its parents by index, carries an info word and a
 * label, and becomes a calcer wrapped in a holder with a colour, a width
 * and a visibility.  The first record that cannot be imported stops the
 * load.
 *
 * The records arrive already read from the stream; the numeric values of
 * KSeg's type and descend constants (kseg-defs.h is not part of this
 * model) come in as the tables `kindOf` and `descendOf`, and the imp a
 * calcer computes comes in as `impOf`.
 */
module KSegLoad {
  import opened Geometry
  import opened Wrappers
  import opened Objects
  import opened KSeg

  /** KSeg's object types (G_POINT, G_SEGMENT, ...). */
  datatype Kind =
    | GPoint | GSegment | GRay | GLine | GCircle | GArc | GPolygon
    | GCircleInterior | GArcSector | GArcSegment | GLocus | GMeasure
    | GCalculate | GAnnotation | GLoop | GOtherKind

  /** KSeg's descend types: how an object is built from its parents. */
  datatype Descend =
    | GTransform(t: TransformKind)
    | GFreePoint | GConstrainedPoint | GIntersectionPoint | GIntersection2Point | GMidPoint
    | GEndpointsSegment | GTwoPointsRay | GBisectorRay
    | GTwoPointsLine | GParallelLine | GPerpendicularLine
    | GCenterPointCircle | GCenterRadiusCircle | GThreePointsArc | GObjectLocus
    | GDistanceMeasure | GLengthMeasure | GRadiusMeasure | GAngleMeasure | GSlopeMeasure | GAreaMeasure
    | GOtherDescend

  /** What kseg-defs.h and the document provide. */
  datatype Env = Env(
    kindOf: bv16 -> Kind,
    descendOf: (Kind, bv16) -> Descend,
    smallCircle: int,
    mediumCircle: int,
    impOf: Calcer -> ObjectImp,
    hasProperty: (ObjectImp, string) -> bool)

  /** A draw style: point style, pen and brush. */
  datatype DrawStyle = DrawStyle(pointstyle: int, penColor: int, penWidth: int, penStyle: int, brushColor: int)

  /**
   * An object record: its style, its parents' record indices, its info
   * word and label, the one window coordinate its data holds (a free
   * point's position or a measure's text position) and a constrained
   * point's parameter.
   */
  datatype Record = Record(styleid: int, parents: seq<int>, info: bv16, text: string, coord: (real, real), param: real)

  /** An object holder: a calcer, how to draw it, and its name if it has a label. */
  datatype Holder = Holder(calcer: Calcer, color: int, width: int, visible: bool, penStyle: int, name: Option<string>)

  /** The "%1" label attached to a point whose label KSeg shows. */
  datatype LabelHolder = LabelHolder(text: string, owner: Calcer, at: Coordinate, color: int)

  /** The imported document: one entry per record (none for a loop), then the labels. */
  datatype Document = Document(objects: seq<Option<Holder>>, labels: seq<LabelHolder>, axes: bool, grid: bool)

  /**
   * Why a load fails: a parse error, a kind the filter refuses, or a
   * record the source reads without checking (a style index out of
   * range, a parent that is not an earlier object, too few parents for
   * the slices a case takes), where its behaviour is undefined.
   */
  datatype LoadError = ParseError | NotSupported(what: string) | Undefined

  function KindOf(r: Record, env: Env): Kind {
    env.kindOf(DecodeInfo(r.info).typeBit)
  }

  function DescendOf(r: Record, env: Env): Descend {
    env.descendOf(KindOf(r, env), DecodeInfo(r.info).descend)
  }

  /** The kinds whose switch handles the four transform descend types. */
  predicate HandlesTransforms(k: Kind) {
    k in {GPoint, GSegment, GRay, GLine, GCircle, GArc, GPolygon, GLocus}
  }

  /**
   * What the source takes for granted of record `i`: its style exists, its
   * parents are earlier records that are not loops, and the descend types
   * that index into their parents have enough of them.
   */
  predicate RecordOk(records: seq<Record>, i: nat, styles: seq<DrawStyle>, env: Env)
    requires i < |records|
  {
    var r := records[i];
    0 <= r.styleid < |styles| &&
    (forall j :: 0 <= j < |r.parents| ==> 0 <= r.parents[j] < i && KindOf(records[r.parents[j]], env) != GLoop) &&
    (HandlesTransforms(KindOf(r, env)) && DescendOf(r, env) == GTransform(Translated) ==> |r.parents| >= 1) &&
    (HandlesTransforms(KindOf(r, env)) && DescendOf(r, env) == GTransform(Rotated) ==> |r.parents| >= 2) &&
    (KindOf(r, env) == GCircle && DescendOf(r, env) == GCenterRadiusCircle ==> |r.parents| >= 2)
  }

  // ---------------------------------------------------------------------
  // One record
  // ---------------------------------------------------------------------

  /** The outcome of a record's switch: a calcer or null with the `ok` flag, or an immediate stop. */
  datatype Made = Made(o: Option<Calcer>, ok: bool) | Stop(e: LoadError)

  function Parsed(c: Calcer): Made {
    Made(Some(c), true)
  }

  /** The transform cases, shared by every kind that handles them. */
  function Transformed(parents: seq<Calcer>, t: TransformKind): Made
    requires t == Translated ==> |parents| >= 1
    requires t == Rotated ==> |parents| >= 2
  {
    var r := TransformObject(parents, t);
    Made(r.o, r.ok)
  }

  /** A type calcer when there are exactly `n` parents, a parse error otherwise. */
  function WithParents(parents: seq<Calcer>, n: nat, ctype: string): Made {
    if |parents| != n then Stop(ParseError) else Parsed(TypeCalcer(ctype, parents))
  }

  function IntersectionMade(parents: seq<Calcer>, which: int, env: Env): Made {
    match IntersectionPoint(parents, which, env.impOf)
    case None => Stop(ParseError)
    case Some(o) => Parsed(o)
  }

  /** The measured object and the property a measure shows. */
  function Measured(d: Descend, parents: seq<Calcer>, env: Env): Result<(seq<Calcer>, string), LoadError> {
    match d
    case GDistanceMeasure =>
      if |parents| != 2 then Err(ParseError) else Ok(([TypeCalcer("SegmentAB", parents)], "length"))
    case GLengthMeasure =>
      if |parents| != 1 then Err(ParseError)
      else if env.impOf(parents[0]).SegmentImp? then Ok((parents, "length"))
      else if env.impOf(parents[0]).CircleImp? then Ok((parents, "circumference"))
      else Err(ParseError)
    case GRadiusMeasure =>
      if |parents| != 1 || !env.impOf(parents[0]).CircleImp? then Err(ParseError) else Ok((parents, "radius"))
    case GAngleMeasure =>
      if |parents| != 3 then Err(ParseError) else Ok(([TypeCalcer("Angle", parents)], "angle-degrees"))
    case GSlopeMeasure =>
      if |parents| != 1 || !Inherits(env.impOf(parents[0]), LineT) then Err(ParseError) else Ok((parents, "slope"))
    case GAreaMeasure =>
      if |parents| != 1 || !env.impOf(parents[0]).PolygonImp? then Err(ParseError) else Ok((parents, "polygon-surface"))
    case _ => Err(ParseError)
  }

  /** The switch over a record's type and descend type. */
  function MakeObject(k: Kind, d: Descend, parents: seq<Calcer>, r: Record, env: Env): Made
    requires HandlesTransforms(k) && d == GTransform(Translated) ==> |parents| >= 1
    requires HandlesTransforms(k) && d == GTransform(Rotated) ==> |parents| >= 2
    requires k == GCircle && d == GCenterRadiusCircle ==> |parents| >= 2
  {
    if HandlesTransforms(k) && d.GTransform? then Transformed(parents, d.t)
    else match k
      case GPoint =>
        (match d
         case GFreePoint =>
           if |parents| != 0 then Stop(ParseError)
           else Parsed(FixedPoint(ReadKSegCoordinate(r.coord.0, r.coord.1)))
         case GConstrainedPoint =>
           if |parents| != 1 then Stop(ParseError) else Parsed(ConstrainedPoint(parents[0], r.param))
         case GIntersectionPoint => IntersectionMade(parents, -1, env)
         case GIntersection2Point => IntersectionMade(parents, 1, env)
         case GMidPoint =>
           if |parents| != 1 || !env.impOf(parents[0]).SegmentImp? then Stop(ParseError)
           else Parsed(PropertyCalcer(parents[0], "mid-point"))
         case _ => Stop(ParseError))
      case GSegment =>
        if d == GEndpointsSegment then WithParents(parents, 2, "SegmentAB") else Stop(ParseError)
      case GRay =>
        if d == GTwoPointsRay then WithParents(parents, 2, "RayAB")
        else if d == GBisectorRay then Parsed(PropertyCalcer(TypeCalcer("HalfAngle", parents), "angle-bisector"))
        else Stop(ParseError)
      case GLine =>
        if d == GTwoPointsLine then WithParents(parents, 2, "LineAB")
        else if d == GParallelLine then WithParents(parents, 2, "LineParallel")
        else if d == GPerpendicularLine then WithParents(parents, 2, "LinePerpendicular")
        else Stop(ParseError)
      case GCircle =>
        if d == GCenterPointCircle then WithParents(parents, 2, "CircleBCP")
        else if d == GCenterRadiusCircle then
          var (point, segment) := if env.impOf(parents[0]).PointImp? then (parents[0], parents[1]) else (parents[1], parents[0]);
          if !env.hasProperty(env.impOf(segment), "length") then Stop(ParseError)
          else Parsed(TypeCalcer("CircleBPR", [point, PropertyCalcer(segment, "length")]))
        else Stop(ParseError)
      case GArc =>
        if d == GThreePointsArc then WithParents(parents, 3, "ArcBTP") else Stop(ParseError)
      case GPolygon =>
        if |parents| < 3 then Stop(ParseError) else Parsed(TypeCalcer("PolygonBNP", parents))
      case GCircleInterior => Stop(NotSupported("filled circle"))
      case GArcSector => Stop(NotSupported("arc sector"))
      case GArcSegment => Stop(NotSupported("arc segment"))
      case GLocus =>
        if d == GObjectLocus then
          (if |parents| != 2 then Stop(ParseError) else Parsed(LocusCalcer(parents[0], parents[1])))
        else Stop(ParseError)
      case GMeasure =>
        (match Measured(d, parents, env)
         case Err(e) => Stop(e)
         case Ok((ps, prop)) =>
           if |ps| != 1 then Stop(ParseError)
           else Parsed(TextCalcer(ReadKSegCoordinate(r.coord.0, r.coord.1), ps[0], prop)))
      case _ => Stop(ParseError)
  }

  /** A point's width from its point style: 2 for small circles, 3 for medium ones, 5 otherwise. */
  function PointWidth(pointstyle: int, env: Env): (w: int)
    ensures w in {2, 3, 5}
    ensures w == 2 <==> pointstyle == env.smallCircle
    ensures w == 3 <==> pointstyle == env.mediumCircle && pointstyle != env.smallCircle
  {
    if pointstyle == env.smallCircle then 2 else if pointstyle == env.mediumCircle then 3 else 5
  }

  /** The calcers of the parent records. */
  function Resolve(idxs: seq<int>, ret: seq<Option<Holder>>): (cs: seq<Calcer>)
    requires forall j :: 0 <= j < |idxs| ==> 0 <= idxs[j] < |ret| && ret[idxs[j]].Some?
    ensures |cs| == |idxs|
    ensures forall j :: 0 <= j < |idxs| ==> cs[j] == ret[idxs[j]].value.calcer
  {
    if idxs == [] then [] else [ret[idxs[0]].value.calcer] + Resolve(idxs[1..], ret)
  }

  /** What a record contributes: nothing (a loop), a holder and perhaps a label, or the error that ends the load. */
  datatype Step = Skip | Add(h: Holder, attached: Option<LabelHolder>) | Abort(e: LoadError)

  /** The holders built so far exist exactly for the records that are not loops. */
  predicate Built(records: seq<Record>, ret: seq<Option<Holder>>, env: Env)
    requires |ret| <= |records|
  {
    forall j :: 0 <= j < |ret| ==> (ret[j].Some? <==> KindOf(records[j], env) != GLoop)
  }

  /** The body of the record loop, for record |ret|, once the record is known to be well formed. */
  function RecordStep(records: seq<Record>, styles: seq<DrawStyle>, ret: seq<Option<Holder>>, env: Env): Step
    requires |ret| < |records| && RecordOk(records, |ret|, styles, env) && Built(records, ret, env)
  {
    var r := records[|ret|];
    var parents := Resolve(r.parents, ret);
    var info := DecodeInfo(r.info);
    var k := KindOf(r, env);
    var d := DescendOf(r, env);
    var style := styles[r.styleid];
    if k == GLoop then Skip
    else match MakeObject(k, d, parents, r, env)
      case Stop(e) => Abort(e)
      case Made(None, ok) => Abort(if ok then ParseError else NotSupported("scaling"))
      case Made(Some(o), _) =>
        var color := if k == GPoint then style.brushColor else style.penColor;
        var width := if k == GPoint then PointWidth(style.pointstyle, env) else style.penWidth;
        var name := if r.text != [] then Some(r.text) else None;
        var h := Holder(o, color, width, info.visible, style.penStyle, name);
        var attached :=
          if r.text != [] && info.labelVisible && env.impOf(o).PointImp?
          then Some(LabelHolder("%1", o, env.impOf(o).c, style.penColor))
          else None;
        Add(h, attached)
  }

  /**
   * The record loop from record |ret| on.  A record the source would read
   * out of bounds ends the load as Undefined; records after the one that
   * ends the load are never looked at.
   */
  function LoadFrom(records: seq<Record>, styles: seq<DrawStyle>, env: Env,
                    ret: seq<Option<Holder>>, ret2: seq<LabelHolder>): Result<Document, LoadError>
    requires |ret| <= |records| && Built(records, ret, env)
    decreases |records| - |ret|
  {
    if |ret| == |records| then Ok(Document(ret, ret2, false, false))
    else if !RecordOk(records, |ret|, styles, env) then Err(Undefined)
    else match RecordStep(records, styles, ret, env)
      case Skip => LoadFrom(records, styles, env, ret + [None], ret2)
      case Abort(e) => Err(e)
      case Add(h, l) =>
        LoadFrom(records, styles, env, ret + [Some(h)], if l.Some? then ret2 + [l.value] else ret2)
  }

  const VersionPrefix: string := "KSeg Document Version "

  predicate StartsWith(s: string, prefix: string) {
    |prefix| <= |s| && s[..|prefix|] == prefix
  }

  /** What load( file ) yields for a document of the given version, styles and records. */
  function LoadSpec(version: string, styles: seq<DrawStyle>, records: seq<Record>, env: Env): Result<Document, LoadError>
  {
    if !StartsWith(version, VersionPrefix) then Err(ParseError)
    else LoadFrom(records, styles, env, [], [])
  }

  /**
   * load( file ): check the version, then import the records in order
   * (KSeg saves them sorted so that parents come first), stopping at the
   * first one that fails.
   */
  method Load(version: string, styles: seq<DrawStyle>, records: seq<Record>, env: Env)
    returns (r: Result<Document, LoadError>)
    ensures r == LoadSpec(version, styles, records, env)
  {
    if !StartsWith(version, VersionPrefix) {
      return Err(ParseError);
    }
    var ret: seq<Option<Holder>> := [];
    var ret2: seq<LabelHolder> := [];
    while |ret| < |records|
      invariant |ret| <= |records| && Built(records, ret, env)
      invariant LoadFrom(records, styles, env, ret, ret2) == LoadSpec(version, styles, records, env)
      decreases |records| - |ret|
    {
      if !RecordOk(records, |ret|, styles, env) {
        return Err(Undefined);
      }
      var step := RecordStep(records, styles, ret, env);
      StepBuilt(records, styles, env, ret);
      match step
      case Skip =>
        ret := ret + [None];
      case Abort(e) =>
        return Err(e);
      case Add(h, l) =>
        ret := ret + [Some(h)];
        if l.Some? {
          ret2 := ret2 + [l.value];
        }
    }
    return Ok(Document(ret, ret2, false, false));
  }

  // ---------------------------------------------------------------------
  // What a record's switch decides
  // ---------------------------------------------------------------------

  /** A null object always comes with `ok` cleared: every switch case that does not stop yields a calcer unless a scaling failed. */
  lemma NullOnlyWhenNotOk(k: Kind, d: Descend, parents: seq<Calcer>, r: Record, env: Env)
    requires HandlesTransforms(k) && d == GTransform(Translated) ==> |parents| >= 1
    requires HandlesTransforms(k) && d == GTransform(Rotated) ==> |parents| >= 2
    requires k == GCircle && d == GCenterRadiusCircle ==> |parents| >= 2
    ensures var m := MakeObject(k, d, parents, r, env);
      m.Made? ==> (m.o.Some? <==> m.ok) && (!m.ok <==> HandlesTransforms(k) && d == GTransform(Scaled) && |parents| != 4)
  {
  }

  /** A free point has no parents, and sits at its coordinate mapped from the KSeg window. */
  lemma FreePointRule(parents: seq<Calcer>, r: Record, env: Env)
    ensures MakeObject(GPoint, GFreePoint, parents, r, env)
      == if parents == [] then Parsed(FixedPoint(ReadKSegCoordinate(r.coord.0, r.coord.1))) else Stop(ParseError)
  {
  }

  /** A constrained point has exactly one parent, the curve, and keeps its parameter. */
  lemma ConstrainedPointRule(parents: seq<Calcer>, r: Record, env: Env)
    ensures MakeObject(GPoint, GConstrainedPoint, parents, r, env)
      == if |parents| == 1 then Parsed(ConstrainedPoint(parents[0], r.param)) else Stop(ParseError)
  {
  }

  /** KSeg's first and second intersection points succeed exactly for the accepted pairs. */
  lemma IntersectionRule(parents: seq<Calcer>, r: Record, env: Env)
    ensures MakeObject(GPoint, GIntersectionPoint, parents, r, env).Made? <==>
      |parents| == 2 && AcceptedPair(PairOf(parents, env.impOf), -1)
    ensures MakeObject(GPoint, GIntersection2Point, parents, r, env).Made? <==>
      |parents| == 2 && AcceptedPair(PairOf(parents, env.impOf), 1)
  {
  }

  /** A centre-and-radius circle takes its centre from whichever of the two parents is a point, and its radius from the other's length. */
  lemma CenterRadiusRule(p: Calcer, s: Calcer, r: Record, env: Env)
    requires env.impOf(p).PointImp? && !env.impOf(s).PointImp? && env.hasProperty(env.impOf(s), "length")
    ensures MakeObject(GCircle, GCenterRadiusCircle, [p, s], r, env) == Parsed(TypeCalcer("CircleBPR", [p, PropertyCalcer(s, "length")]))
    ensures MakeObject(GCircle, GCenterRadiusCircle, [s, p], r, env) == Parsed(TypeCalcer("CircleBPR", [p, PropertyCalcer(s, "length")]))
  {
  }

  /** Filled circles, arc sectors and arc segments stop the load as unsupported. */
  lemma UnsupportedKinds(d: Descend, parents: seq<Calcer>, r: Record, env: Env)
    ensures MakeObject(GCircleInterior, d, parents, r, env) == Stop(NotSupported("filled circle"))
    ensures MakeObject(GArcSector, d, parents, r, env) == Stop(NotSupported("arc sector"))
    ensures MakeObject(GArcSegment, d, parents, r, env) == Stop(NotSupported("arc segment"))
  {
  }

  /** A measure is a text label showing one property of one object; the transform descend types are not measures. */
  lemma MeasureRule(d: Descend, parents: seq<Calcer>, r: Record, env: Env)
    ensures var m := MakeObject(GMeasure, d, parents, r, env);
      m.Made? ==>
        (m.ok && m.o.Some? && m.o.value.TextCalcer? &&
         m.o.value.at == ReadKSegCoordinate(r.coord.0, r.coord.1) &&
         d in {GDistanceMeasure, GLengthMeasure, GRadiusMeasure, GAngleMeasure, GSlopeMeasure, GAreaMeasure})
  {
  }

  /** A record that is kept becomes a holder with the record's visibility, named by its label when it has one. */
  lemma RecordHolder(records: seq<Record>, styles: seq<DrawStyle>, ret: seq<Option<Holder>>, env: Env)
    requires |ret| < |records| && RecordOk(records, |ret|, styles, env) && Built(records, ret, env)
    ensures var st := RecordStep(records, styles, ret, env);
      var r := records[|ret|];
      st.Add? ==>
        st.h.visible == DecodeInfo(r.info).visible &&
        (st.h.name.Some? <==> r.text != []) &&
        (KindOf(r, env) == GPoint ==> st.h.width in {2, 3, 5} && st.h.color == styles[r.styleid].brushColor) &&
        (KindOf(r, env) != GPoint ==> st.h.width == styles[r.styleid].penWidth && st.h.color == styles[r.styleid].penColor) &&
        (st.attached.Some? ==> r.text != [] && DecodeInfo(r.info).labelVisible && env.impOf(st.h.calcer).PointImp?)
  {
  }

  // ---------------------------------------------------------------------
  // What load yields
  // ---------------------------------------------------------------------

  /** The kinds the filter can import (loops are read and skipped). */
  predicate Importable(k: Kind) {
    k !in {GCircleInterior, GArcSector, GArcSegment, GCalculate, GAnnotation, GOtherKind}
  }

  /** Every attached label is a "%1" label on a point. */
  predicate PointLabels(labels: seq<LabelHolder>, env: Env) {
    forall l :: l in labels ==> l.text == "%1" && env.impOf(l.owner).PointImp?
  }

  /** A loop is skipped and any other record that gets past the switch gets a holder, so Built carries over. */
  lemma StepBuilt(records: seq<Record>, styles: seq<DrawStyle>, env: Env, ret: seq<Option<Holder>>)
    requires |ret| < |records| && RecordOk(records, |ret|, styles, env) && Built(records, ret, env)
    ensures var st := RecordStep(records, styles, ret, env);
      (st.Skip? ==> Built(records, ret + [None], env)) &&
      (st.Add? ==> Built(records, ret + [Some(st.h)], env))
  {
    var st := RecordStep(records, styles, ret, env);
    var k := KindOf(records[|ret|], env);
    assert st.Skip? <==> k == GLoop;
  }

  /** One step of the record loop keeps Built and PointLabels, and only importable kinds get past it. */
  lemma StepShape(records: seq<Record>, styles: seq<DrawStyle>, env: Env,
                  ret: seq<Option<Holder>>, ret2: seq<LabelHolder>)
    requires |ret| < |records| && RecordOk(records, |ret|, styles, env) && Built(records, ret, env)
    requires PointLabels(ret2, env)
    ensures var st := RecordStep(records, styles, ret, env);
      var k := KindOf(records[|ret|], env);
      (st.Skip? ==> Built(records, ret + [None], env) && Importable(k)) &&
      (st.Add? ==>
        Built(records, ret + [Some(st.h)], env) && Importable(k) &&
        PointLabels(if st.attached.Some? then ret2 + [st.attached.value] else ret2, env))
  {
    var st := RecordStep(records, styles, ret, env);
    var k := KindOf(records[|ret|], env);
    if st.Add? {
      RecordHolder(records, styles, ret, env);
      assert k != GLoop;
      if !Importable(k) {
        var r := records[|ret|];
        UnsupportedKinds(DescendOf(r, env), Resolve(r.parents, ret), r, env);
      }
    }
  }

  /** The records from `lo` on are well formed and of kinds the filter imports. */
  ghost predicate LoadableFrom(records: seq<Record>, styles: seq<DrawStyle>, env: Env, lo: nat) {
    forall i :: lo <= i < |records| ==> RecordOk(records, i, styles, env) && Importable(KindOf(records[i], env))
  }

  /** Loadable from lo + 1 on, and record lo loadable too. */
  lemma LoadableExtend(records: seq<Record>, styles: seq<DrawStyle>, env: Env, lo: nat)
    requires lo < |records| && RecordOk(records, lo, styles, env) && Importable(KindOf(records[lo], env))
    requires LoadableFrom(records, styles, env, lo + 1)
    ensures LoadableFrom(records, styles, env, lo)
  {
  }

  /** One round of the record loop, when the load goes on to succeed: the record is loadable and the state grows by one slot. */
  lemma LoadFromStep(records: seq<Record>, styles: seq<DrawStyle>, env: Env,
                     ret: seq<Option<Holder>>, ret2: seq<LabelHolder>)
    returns (next: seq<Option<Holder>>, ret2': seq<LabelHolder>)
    requires |ret| < |records| && Built(records, ret, env) && PointLabels(ret2, env)
    requires LoadFrom(records, styles, env, ret, ret2).Ok?
    ensures RecordOk(records, |ret|, styles, env) && Importable(KindOf(records[|ret|], env))
    ensures |next| == |ret| + 1 && next[..|ret|] == ret && Built(records, next, env) && PointLabels(ret2', env)
    ensures LoadFrom(records, styles, env, ret, ret2) == LoadFrom(records, styles, env, next, ret2')
  {
    var step := RecordStep(records, styles, ret, env);
    StepShape(records, styles, env, ret, ret2);
    next := if step.Skip? then ret + [None] else ret + [Some(step.h)];
    ret2' := if step.Add? && step.attached.Some? then ret2 + [step.attached.value] else ret2;
    assert next[..|ret|] == ret;
  }

  lemma {:induction false} LoadFromShape(records: seq<Record>, styles: seq<DrawStyle>, env: Env,
                                         ret: seq<Option<Holder>>, ret2: seq<LabelHolder>)
    requires |ret| <= |records| && Built(records, ret, env)
    requires PointLabels(ret2, env)
    ensures var res := LoadFrom(records, styles, env, ret, ret2);
      res.Ok? ==>
        |res.value.objects| == |records| && res.value.objects[..|ret|] == ret &&
        Built(records, res.value.objects, env) && PointLabels(res.value.labels, env) &&
        !res.value.axes && !res.value.grid
    decreases |records| - |ret|
  {
    if |ret| < |records| && LoadFrom(records, styles, env, ret, ret2).Ok? {
      var next, ret2' := LoadFromStep(records, styles, env, ret, ret2);
      LoadFromShape(records, styles, env, next, ret2');
      var res := LoadFrom(records, styles, env, next, ret2');
      assert res.value.objects[..|ret|] == res.value.objects[..|next|][..|ret|];
    }
  }

  /** A load that succeeds from record |ret| on went through well-formed, importable records only. */
  lemma {:induction false} LoadFromLoadable(records: seq<Record>, styles: seq<DrawStyle>, env: Env,
                                            ret: seq<Option<Holder>>, ret2: seq<LabelHolder>)
    requires |ret| <= |records| && Built(records, ret, env)
    requires PointLabels(ret2, env)
    ensures LoadFrom(records, styles, env, ret, ret2).Ok? ==> LoadableFrom(records, styles, env, |ret|)
    decreases |records| - |ret|
  {
    if |ret| < |records| && LoadFrom(records, styles, env, ret, ret2).Ok? {
      var next, ret2' := LoadFromStep(records, styles, env, ret, ret2);
      LoadFromLoadable(records, styles, env, next, ret2');
      LoadableExtend(records, styles, env, |ret|);
    }
  }

  /**
   * A document that loads has one entry per record, empty exactly for the
   * loops; its attached labels are "%1" labels on points; axes and grid
   * are off; and none of its records is of a kind the filter refuses.
   */
  lemma LoadedDocument(version: string, styles: seq<DrawStyle>, records: seq<Record>, env: Env)
    ensures var res := LoadSpec(version, styles, records, env);
      res.Ok? ==>
        StartsWith(version, VersionPrefix) &&
        |res.value.objects| == |records| &&
        (forall i :: 0 <= i < |records| ==> (res.value.objects[i].None? <==> KindOf(records[i], env) == GLoop)) &&
        PointLabels(res.value.labels, env) && !res.value.axes && !res.value.grid
    ensures (exists i :: 0 <= i < |records| && !Importable(KindOf(records[i], env))) ==>
      LoadSpec(version, styles, records, env).Err?
    ensures (exists i :: 0 <= i < |records| && !RecordOk(records, i, styles, env)) ==>
      LoadSpec(version, styles, records, env).Err?
  {
    if StartsWith(version, VersionPrefix) {
      LoadFromShape(records, styles, env, [], []);
      LoadFromLoadable(records, styles, env, [], []);
    }
  }

  /** A record the filter refuses, right at the start, ends the load with its error. */
  lemma FirstRecordRefused(version: string, styles: seq<DrawStyle>, records: seq<Record>, env: Env)
    requires StartsWith(version, VersionPrefix)
    requires |records| > 0 && RecordOk(records, 0, styles, env) && KindOf(records[0], env) == GCircleInterior
    ensures LoadSpec(version, styles, records, env) == Err(NotSupported("filled circle"))
  {
  }
}
