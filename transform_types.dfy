/**
 * The transformation object types of objects/transform_types.cc.  Each
 * reads its arguments with ArgParser::parse, checks the ones it needs,
 * builds a Transformation and applies it to the object it was given.
 *
 * Applying a transformation to an arbitrary object (ObjectImp::transform),
 * the length of a vector and the normalisation of a direction are numeric
 * kernels, collected in `Kernels`.
 */
module TransformTypes {
  import opened Geometry
  import opened Common
  import opened Wrappers
  import opened Objects

  datatype Kernels = Kernels(
    transform: (ObjectImp, Transformation) -> ObjectImp,
    norm: Coordinate -> real,
    normalize: Coordinate -> Coordinate)

  /** The nine transformation object types. */
  datatype TransformType =
    | TranslatedType | PointReflectionType | LineReflectionType | RotationType
    | ScalingOverCenterType | ScalingOverLineType | ProjectiveRotationType
    | CastShadowType | ApplyTransformationObjectType

  /** The argument specification of each type. */
  function Spec(t: TransformType): (spec: seq<ImpType>)
    ensures |spec| > 0 && spec[|spec| - 1] == AnyT
  {
    match t
    case TranslatedType => [VectorT, AnyT]
    case PointReflectionType => [PointT, AnyT]
    case LineReflectionType => [LineT, AnyT]
    case RotationType => [PointT, AngleT, AnyT]
    case ScalingOverCenterType => [PointT, SegmentT, AnyT]
    case ScalingOverLineType => [SegmentT, LineT, AnyT]
    case ProjectiveRotationType => [RayT, AngleT, AnyT]
    case CastShadowType => [PointT, LineT, AnyT]
    case ApplyTransformationObjectType => [TransformationT, AnyT]
  }

  /** isTransform(): every one of these types is a transformation. */
  function IsTransform(t: TransformType): (b: bool)
    ensures b
  {
    true
  }

  /** resultId(): the result may be of any imp type. */
  function ResultId(t: TransformType): (r: ImpType)
    ensures r == AnyT
  {
    AnyT
  }

  /** A segment's length: the ratio both scaling types use. */
  function SegmentLength(s: ObjectImp, k: Kernels): real
    requires s.SegmentImp?
  {
    Length(s.l, k.norm)
  }

  /** Translation: a vector and an object; the object moved by the vector's direction. */
  function Translated(targs: seq<ObjectImp>, k: Kernels): (r: ObjectImp)
    ensures |targs| != 2 ==> r == InvalidImp
  {
    if |targs| != 2 then InvalidImp
    else
      var args := Parse(Spec(TranslatedType), targs);
      ParseFilled(Spec(TranslatedType), targs);
      if args[0].None? || args[1].None? then InvalidImp
      else k.transform(args[1].value, Translation(Dir(args[0].value.l)))
  }

  /** PointReflection: a point and an object; only the point is checked. */
  function PointReflected(targs: seq<ObjectImp>, k: Kernels): (r: ObjectImp)
    ensures |targs| != 2 ==> r == InvalidImp
  {
    if |targs| != 2 then InvalidImp
    else
      var args := Parse(Spec(PointReflectionType), targs);
      ParseFilled(Spec(PointReflectionType), targs);
      if args[0].None? then InvalidImp
      else
        TrailingAnyFilled(Spec(PointReflectionType), targs);
        k.transform(args[1].value, PointReflection(args[0].value.c))
  }

  /** LineReflection: a line and an object; only the line is checked. */
  function LineReflected(targs: seq<ObjectImp>, k: Kernels): (r: ObjectImp)
    ensures |targs| != 2 ==> r == InvalidImp
  {
    if |targs| != 2 then InvalidImp
    else
      var args := Parse(Spec(LineReflectionType), targs);
      ParseFilled(Spec(LineReflectionType), targs);
      if args[0].None? then InvalidImp
      else
        TrailingAnyFilled(Spec(LineReflectionType), targs);
        k.transform(args[1].value, LineReflection(args[0].value.l))
  }

  /** Rotation: a centre, an angle and an object, rotated by the angle's size. */
  function Rotated(targs: seq<ObjectImp>, k: Kernels): (r: ObjectImp)
    ensures |targs| != 3 ==> r == InvalidImp
  {
    if |targs| != 3 then InvalidImp
    else
      var args := Parse(Spec(RotationType), targs);
      ParseFilled(Spec(RotationType), targs);
      if args[0].None? || args[1].None? then InvalidImp
      else
        TrailingAnyFilled(Spec(RotationType), targs);
        k.transform(args[2].value, Rotation(args[1].value.size, args[0].value.c))
  }

  /** ScalingOverCenter: a centre, a segment whose length is the ratio, and an object. */
  function ScaledOverCenter(targs: seq<ObjectImp>, k: Kernels): (r: ObjectImp)
    ensures |targs| != 3 ==> r == InvalidImp
  {
    if |targs| != 3 then InvalidImp
    else
      var args := Parse(Spec(ScalingOverCenterType), targs);
      ParseFilled(Spec(ScalingOverCenterType), targs);
      if args[0].None? || args[1].None? then InvalidImp
      else
        TrailingAnyFilled(Spec(ScalingOverCenterType), targs);
        k.transform(args[2].value, ScalingOverPoint(SegmentLength(args[1].value, k), args[0].value.c))
  }

  /** ScalingOverLine: a segment whose length is the ratio, a line and an object. */
  function ScaledOverLine(targs: seq<ObjectImp>, k: Kernels): (r: ObjectImp)
    ensures |targs| != 3 ==> r == InvalidImp
  {
    if |targs| != 3 then InvalidImp
    else
      var args := Parse(Spec(ScalingOverLineType), targs);
      ParseFilled(Spec(ScalingOverLineType), targs);
      if args[0].None? || args[1].None? then InvalidImp
      else
        TrailingAnyFilled(Spec(ScalingOverLineType), targs);
        k.transform(args[2].value, ScalingOverLine(SegmentLength(args[0].value, k), args[1].value.l))
  }

  /** The angle ProjectiveRotation uses when none is given: a tenth of a right angle. */
  const DefaultProjectiveAngle: real := 0.1 * Pi / 2.0

  /**
   * ProjectiveRotation: a ray, an optional angle and an object; at least
   * two arguments, and the ray and the object must be there.
   */
  function ProjectivelyRotated(targs: seq<ObjectImp>, k: Kernels): (r: ObjectImp)
    ensures |targs| < 2 ==> r == InvalidImp
  {
    if |targs| < 2 then InvalidImp
    else
      var args := Parse(Spec(ProjectiveRotationType), targs);
      ParseFilled(Spec(ProjectiveRotationType), targs);
      if args[2].None? || args[0].None? then InvalidImp
      else
        var ray := args[0].value.l;
        var alpha := if args[1].Some? then args[1].value.size else DefaultProjectiveAngle;
        k.transform(args[2].value, ProjectiveRotation(alpha, k.normalize(Dir(ray)), ray.a))
  }

  /** CastShadow: a light source, a line and an object, all three checked. */
  function ShadowCast(targs: seq<ObjectImp>, k: Kernels): (r: ObjectImp)
    ensures |targs| != 3 ==> r == InvalidImp
  {
    if |targs| != 3 then InvalidImp
    else
      var args := Parse(Spec(CastShadowType), targs);
      ParseFilled(Spec(CastShadowType), targs);
      if args[0].None? || args[1].None? || args[2].None? then InvalidImp
      else k.transform(args[2].value, CastShadow(args[0].value.c, args[1].value.l))
  }

  /**
   * ApplyTransformation: a transformation object and an object.  The type
   * asserts that it gets exactly these two.
   */
  function TransformationApplied(targs: seq<ObjectImp>, k: Kernels): (r: ObjectImp)
    requires |targs| == 2
    requires Parse(Spec(ApplyTransformationObjectType), targs)[0].Some?
    requires Parse(Spec(ApplyTransformationObjectType), targs)[1].Some?
    ensures var args := Parse(Spec(ApplyTransformationObjectType), targs);
      args[0].value.TransformationImp? && r == k.transform(args[1].value, args[0].value.t)
  {
    var args := Parse(Spec(ApplyTransformationObjectType), targs);
    ParseFilled(Spec(ApplyTransformationObjectType), targs);
    k.transform(args[1].value, args[0].value.t)
  }

  /** How many arguments a fixed-arity type insists on. */
  function Arity(t: TransformType): nat {
    |Spec(t)|
  }

  /** calc( args ) of each type. */
  function Calc(t: TransformType, targs: seq<ObjectImp>, k: Kernels): (r: ObjectImp)
    requires t == ApplyTransformationObjectType ==>
      |targs| == 2 && Parse(Spec(t), targs)[0].Some? && Parse(Spec(t), targs)[1].Some?
    ensures t != ProjectiveRotationType && |targs| != Arity(t) ==> r == InvalidImp
  {
    match t
    case TranslatedType => Translated(targs, k)
    case PointReflectionType => PointReflected(targs, k)
    case LineReflectionType => LineReflected(targs, k)
    case RotationType => Rotated(targs, k)
    case ScalingOverCenterType => ScaledOverCenter(targs, k)
    case ScalingOverLineType => ScaledOverLine(targs, k)
    case ProjectiveRotationType => ProjectivelyRotated(targs, k)
    case CastShadowType => ShadowCast(targs, k)
    case ApplyTransformationObjectType => TransformationApplied(targs, k)
  }

  // -----------------------------------------------------------------------
  // What each type computes, argument order aside
  // -----------------------------------------------------------------------

  /**
   * With two arguments of which only one has the first position's type,
   * both orders parse alike: that one first, the other in the AnyImp slot.
   */
  lemma TwoArgParse(t: ImpType, x: ObjectImp, y: ObjectImp)
    requires Inherits(x, t) && !Inherits(y, t)
    ensures Parse([t, AnyT], [x, y]) == [Some(x), Some(y)]
    ensures Parse([t, AnyT], [y, x]) == [Some(x), Some(y)]
  {
    var spec := [t, AnyT];
    ParseInOrder(spec, [x, y]);
    var s0: seq<Option<ObjectImp>> := seq(2, _ => None);
    assert [y, x][..1] == [y];
    assert [y][..0] == [];
    assert Parse(spec, []) == s0;
    assert PlaceFrom(spec, s0, y, 1) == s0[1 := Some(y)];
    assert PlaceFrom(spec, s0, y, 0) == s0[1 := Some(y)];
    assert Parse(spec, [y]) == s0[1 := Some(y)];
    assert Parse(spec, [y, x]) == s0[1 := Some(y)][0 := Some(x)];
  }

  /** Translation moves the object by the vector, in either argument order. */
  lemma TranslatedSpec(v: ObjectImp, o: ObjectImp, k: Kernels)
    requires v.VectorImp? && !o.VectorImp?
    ensures Translated([v, o], k) == k.transform(o, Translation(Dir(v.l)))
    ensures Translated([o, v], k) == k.transform(o, Translation(Dir(v.l)))
  {
    TwoArgParse(VectorT, v, o);
  }

  /** Translation without a vector among its arguments is invalid. */
  lemma TranslatedNeedsVector(targs: seq<ObjectImp>, k: Kernels)
    requires forall o :: o in targs ==> !o.VectorImp?
    ensures Translated(targs, k) == InvalidImp
  {
    if |targs| == 2 {
      ParseMissing(Spec(TranslatedType), targs, 0);
    }
  }

  /** PointReflection mirrors the object in the point, in either argument order. */
  lemma PointReflectedSpec(p: ObjectImp, o: ObjectImp, k: Kernels)
    requires p.PointImp? && !o.PointImp?
    ensures PointReflected([p, o], k) == k.transform(o, PointReflection(p.c))
    ensures PointReflected([o, p], k) == k.transform(o, PointReflection(p.c))
  {
    TwoArgParse(PointT, p, o);
  }

  /** Reflecting one point in another: the first given point is the centre. */
  lemma PointReflectedPoints(p: ObjectImp, q: ObjectImp, k: Kernels)
    requires p.PointImp? && q.PointImp?
    ensures PointReflected([p, q], k) == k.transform(q, PointReflection(p.c))
  {
    ParseInOrder(Spec(PointReflectionType), [p, q]);
  }

  /** PointReflection without a point is invalid. */
  lemma PointReflectedNeedsPoint(targs: seq<ObjectImp>, k: Kernels)
    requires forall o :: o in targs ==> !o.PointImp?
    ensures PointReflected(targs, k) == InvalidImp
  {
    if |targs| == 2 {
      ParseMissing(Spec(PointReflectionType), targs, 0);
    }
  }

  /** LineReflection mirrors the object in the line, in either argument order. */
  lemma LineReflectedSpec(l: ObjectImp, o: ObjectImp, k: Kernels)
    requires Inherits(l, LineT) && !Inherits(o, LineT)
    ensures LineReflected([l, o], k) == k.transform(o, LineReflection(l.l))
    ensures LineReflected([o, l], k) == k.transform(o, LineReflection(l.l))
  {
    TwoArgParse(LineT, l, o);
  }

  /** LineReflection without a line, ray or segment is invalid. */
  lemma LineReflectedNeedsLine(targs: seq<ObjectImp>, k: Kernels)
    requires forall o :: o in targs ==> !Inherits(o, LineT)
    ensures LineReflected(targs, k) == InvalidImp
  {
    if |targs| == 2 {
      ParseMissing(Spec(LineReflectionType), targs, 0);
    }
  }

  /** Rotation, arguments in order: the object turned by the angle's size about the centre. */
  lemma RotatedSpec(c: ObjectImp, a: ObjectImp, o: ObjectImp, k: Kernels)
    requires c.PointImp? && a.AngleImp?
    ensures Rotated([c, a, o], k) == k.transform(o, Rotation(a.size, c.c))
  {
    ParseInOrder(Spec(RotationType), [c, a, o]);
  }

  /** Rotation without a centre or without an angle is invalid. */
  lemma RotatedNeedsCenterAndAngle(targs: seq<ObjectImp>, k: Kernels)
    requires (forall o :: o in targs ==> !o.PointImp?) || (forall o :: o in targs ==> !o.AngleImp?)
    ensures Rotated(targs, k) == InvalidImp
  {
    if |targs| == 3 {
      if forall o :: o in targs ==> !o.PointImp? {
        ParseMissing(Spec(RotationType), targs, 0);
      } else {
        ParseMissing(Spec(RotationType), targs, 1);
      }
    }
  }

  /** ScalingOverCenter, arguments in order: the ratio is the segment's length. */
  lemma ScaledOverCenterSpec(c: ObjectImp, s: ObjectImp, o: ObjectImp, k: Kernels)
    requires c.PointImp? && s.SegmentImp?
    ensures ScaledOverCenter([c, s, o], k) == k.transform(o, ScalingOverPoint(k.norm(Sub(s.l.b, s.l.a)), c.c))
  {
    ParseInOrder(Spec(ScalingOverCenterType), [c, s, o]);
  }

  /** ScalingOverLine, arguments in order: the ratio is the segment's length. */
  lemma ScaledOverLineSpec(s: ObjectImp, l: ObjectImp, o: ObjectImp, k: Kernels)
    requires s.SegmentImp? && Inherits(l, LineT)
    ensures ScaledOverLine([s, l, o], k) == k.transform(o, ScalingOverLine(k.norm(Sub(s.l.b, s.l.a)), l.l))
  {
    ParseInOrder(Spec(ScalingOverLineType), [s, l, o]);
  }

  /** Both scaling types are invalid without a segment to take the ratio from. */
  lemma ScalingNeedsSegment(targs: seq<ObjectImp>, k: Kernels)
    requires forall o :: o in targs ==> !o.SegmentImp?
    ensures ScaledOverCenter(targs, k) == InvalidImp
    ensures ScaledOverLine(targs, k) == InvalidImp
  {
    if |targs| == 3 {
      ParseMissing(Spec(ScalingOverCenterType), targs, 1);
      ParseMissing(Spec(ScalingOverLineType), targs, 0);
    }
  }

  /** ProjectiveRotation with a ray and an object but no angle uses a tenth of a right angle. */
  lemma ProjectivelyRotatedDefault(ray: ObjectImp, o: ObjectImp, k: Kernels)
    requires ray.RayImp? && !o.AngleImp? && !o.RayImp?
    ensures ProjectivelyRotated([ray, o], k)
      == k.transform(o, ProjectiveRotation(DefaultProjectiveAngle, k.normalize(Dir(ray.l)), ray.l.a))
  {
    var spec := Spec(ProjectiveRotationType);
    assert [ray, o][..1] == [ray];
    assert [ray][..0] == [];
    var s0: seq<Option<ObjectImp>> := seq(3, _ => None);
    assert Parse(spec, []) == s0;
    assert Parse(spec, [ray]) == s0[0 := Some(ray)];
    var s1 := s0[0 := Some(ray)];
    assert PlaceFrom(spec, s1, o, 2) == s1[2 := Some(o)];
    assert Parse(spec, [ray, o]) == s1[2 := Some(o)];
  }

  /** ProjectiveRotation, arguments in order: the given angle is used. */
  lemma ProjectivelyRotatedSpec(ray: ObjectImp, a: ObjectImp, o: ObjectImp, k: Kernels)
    requires ray.RayImp? && a.AngleImp?
    ensures ProjectivelyRotated([ray, a, o], k)
      == k.transform(o, ProjectiveRotation(a.size, k.normalize(Dir(ray.l)), ray.l.a))
  {
    ParseInOrder(Spec(ProjectiveRotationType), [ray, a, o]);
  }

  /** ProjectiveRotation without a ray is invalid. */
  lemma ProjectivelyRotatedNeedsRay(targs: seq<ObjectImp>, k: Kernels)
    requires forall o :: o in targs ==> !o.RayImp?
    ensures ProjectivelyRotated(targs, k) == InvalidImp
  {
    if |targs| >= 2 {
      ParseMissing(Spec(ProjectiveRotationType), targs, 0);
    }
  }

  /** CastShadow, arguments in order: the shadow of the object from the light onto the line's plane. */
  lemma ShadowCastSpec(p: ObjectImp, l: ObjectImp, o: ObjectImp, k: Kernels)
    requires p.PointImp? && Inherits(l, LineT)
    ensures ShadowCast([p, l, o], k) == k.transform(o, CastShadow(p.c, l.l))
  {
    ParseInOrder(Spec(CastShadowType), [p, l, o]);
  }

  /** CastShadow without a light source or without a line is invalid. */
  lemma ShadowCastNeedsPointAndLine(targs: seq<ObjectImp>, k: Kernels)
    requires (forall o :: o in targs ==> !o.PointImp?) || (forall o :: o in targs ==> !Inherits(o, LineT))
    ensures ShadowCast(targs, k) == InvalidImp
  {
    if |targs| == 3 {
      if forall o :: o in targs ==> !o.PointImp? {
        ParseMissing(Spec(CastShadowType), targs, 0);
      } else {
        ParseMissing(Spec(CastShadowType), targs, 1);
      }
    }
  }

  /** ApplyTransformation applies the given transformation, in either argument order. */
  lemma TransformationAppliedSpec(tr: ObjectImp, o: ObjectImp, k: Kernels)
    requires tr.TransformationImp? && !o.TransformationImp?
    ensures Parse(Spec(ApplyTransformationObjectType), [tr, o]) == [Some(tr), Some(o)]
    ensures Parse(Spec(ApplyTransformationObjectType), [o, tr]) == [Some(tr), Some(o)]
    ensures TransformationApplied([tr, o], k) == k.transform(o, tr.t)
    ensures TransformationApplied([o, tr], k) == k.transform(o, tr.t)
  {
    TwoArgParse(TransformationT, tr, o);
  }
}
