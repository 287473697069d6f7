/**
 * The arc constructions of objects/arc_type.cc: an arc through three
 * points (or from two), an arc from its centre, start point and angle,
 * and an arc of a conic from its centre and three points.
 *
 * The circumcentre of three points (calcCenter), the angle of a vector
 * (atan2), the length of a vector, the conic through a list of points and
 * the parameter of a point on a conic are numeric kernels, passed in.  A
 * missing circumcentre (an invalid Coordinate in Kig) is `None`.
 */
module ArcTypes {
  import opened Geometry
  import opened Common
  import opened Wrappers
  import opened Objects

  /** ArcBTP: start point, a point the arc goes through, end point. */
  const ArcBTPSpec: seq<ImpType> := [PointT, PointT, PointT]

  /** ArcBCPA: centre, start point, angle. */
  const ArcBCPASpec: seq<ImpType> := [PointT, PointT, AngleT]

  /** ConicArcBCTP: centre, start point, a point it goes through, end point. */
  const ConicArcBCTPSpec: seq<ImpType> := [PointT, PointT, PointT, PointT]

  /** 2 * M_PI. */
  const TwoPi: real := 2.0 * Pi

  /** An arc's start angle and the angle it spans, counter-clockwise. */
  datatype Span = Span(start: real, angle: real)

  function Abs(x: real): real {
    if x < 0.0 then -x else x
  }

  /**
   * The shared angle rule: order the two end angles, then take the arc
   * between them when the middle angle lies between them, and the
   * complementary arc from the larger one round otherwise.
   */
  function ChooseSpan(anglea: real, angleb: real, anglec: real): Span {
    var lo := if anglea > anglec then anglec else anglea;
    var hi := if anglea > anglec then anglea else anglec;
    if angleb > hi || angleb < lo then Span(hi, TwoPi + lo - hi)
    else Span(lo, hi - lo)
  }

  /** The angle `t` turned `k` full turns further. */
  function Turned(t: real, k: int): real {
    t + TwoPi * (k as real)
  }

  /** The angle `t`, taken modulo 2π, lies on the arc `s`. */
  ghost predicate OnArc(s: Span, t: real) {
    exists k: int :: s.start <= Turned(t, k) <= s.start + s.angle
  }

  /**
   * When the three angles lie in one window of width 2π (as atan2's
   * results and conic parameters times 2π do), the chosen arc spans at
   * most a full turn, starts at one end angle and ends at the other, and
   * passes the middle angle.
   */
  lemma ChooseSpanCovers(lo: real, anglea: real, angleb: real, anglec: real)
    requires lo <= anglea <= lo + TwoPi && lo <= angleb <= lo + TwoPi && lo <= anglec <= lo + TwoPi
    ensures var s := ChooseSpan(anglea, angleb, anglec);
      && 0.0 <= s.angle <= TwoPi
      && OnArc(s, anglea) && OnArc(s, angleb) && OnArc(s, anglec)
      && (s.start == anglea || s.start == anglec)
  {
    var s := ChooseSpan(anglea, angleb, anglec);
    var small := if anglea > anglec then anglec else anglea;
    var big := if anglea > anglec then anglea else anglec;
    if angleb > big || angleb < small {
      assert s.start <= Turned(small, 1) <= s.start + s.angle;
      assert s.start <= Turned(big, 0) <= s.start + s.angle;
      if angleb > big {
        assert s.start <= Turned(angleb, 0) <= s.start + s.angle;
      } else {
        assert s.start <= Turned(angleb, 1) <= s.start + s.angle;
      }
    } else {
      assert s.start <= Turned(small, 0) <= s.start + s.angle;
      assert s.start <= Turned(big, 0) <= s.start + s.angle;
      assert s.start <= Turned(angleb, 0) <= s.start + s.angle;
    }
  }

  /** The angle at which `p` is seen from `center`. */
  function Bearing(atan2: (real, real) -> real, center: Coordinate, p: Coordinate): real {
    var d := Sub(p, center);
    atan2(d.y, d.x)
  }

  /**
   * The collinear fallback: `b` lies strictly between `a` and `c` along the
   * axis on which they are further apart (the product test with 1e-12).
   */
  predicate StrictlyBetween(a: Coordinate, b: Coordinate, c: Coordinate) {
    if Abs(a.x - c.x) > Abs(a.y - c.y) then (b.x - a.x) * (c.x - b.x) > 0.000000000001
    else (b.y - a.y) * (c.y - b.y) > 0.000000000001
  }

  /** The centre ArcBTP picks for two points: 0.6 of the chord to the left of its middle. */
  function TwoPointCenter(a: Coordinate, b: Coordinate): Coordinate {
    Add(Half(Add(b, a)), Scale(Orthogonal(Sub(b, a)), 0.6))
  }

  /** `halfangle`: the turn from `a` to `b`, moved up by 2π when below -π. */
  function HalfAngle(starta: real, angleb: real): real {
    var h := angleb - starta;
    if h < -Pi then h + TwoPi else h
  }

  /**
   * ArcBTPType::calc.  With three points: the arc round their circumcentre
   * that passes the middle point, or when there is no circumcentre the
   * segment from the first to the last point if the middle one lies
   * between them.  With two: an arc round TwoPointCenter from the first
   * point, spanning twice the turn to the second.
   */
  function ArcBTP(args: seq<ObjectImp>, calcCenter: (Coordinate, Coordinate, Coordinate) -> Option<Coordinate>,
                  atan2: (real, real) -> real, norm: Coordinate -> real): (r: ObjectImp)
    requires |args| <= |ArcBTPSpec|
    ensures !CheckArgs(ArcBTPSpec, args, 2) ==> r == InvalidImp
    ensures r.ArcImp? ==> r.radius == norm(Sub(args[0].c, r.center))
    ensures r.SegmentImp? ==> |args| == 3 && r.l == LineData(args[0].c, args[2].c)
  {
    if !CheckArgs(ArcBTPSpec, args, 2) then InvalidImp
    else
      var a := args[0].c;
      var b := args[1].c;
      if |args| == 3 then
        var c := args[2].c;
        match calcCenter(a, b, c)
        case None =>
          if StrictlyBetween(a, b, c) then SegmentImp(LineData(a, c)) else InvalidImp
        case Some(center) =>
          var s := ChooseSpan(Bearing(atan2, center, a), Bearing(atan2, center, b), Bearing(atan2, center, c));
          ArcImp(center, norm(Sub(a, center)), s.start, s.angle)
      else
        var center := TwoPointCenter(a, b);
        var startangle := Bearing(atan2, center, a);
        ArcImp(center, norm(Sub(a, center)), startangle, 2.0 * HalfAngle(startangle, Bearing(atan2, center, b)))
  }

  /** Three points with no circumcentre, the middle one strictly between the others, give the segment between the outer two. */
  lemma ArcBTPCollinear(a: Coordinate, b: Coordinate, c: Coordinate,
                        calcCenter: (Coordinate, Coordinate, Coordinate) -> Option<Coordinate>,
                        atan2: (real, real) -> real, norm: Coordinate -> real)
    requires calcCenter(a, b, c) == None && StrictlyBetween(a, b, c)
    ensures ArcBTP([PointImp(a), PointImp(b), PointImp(c)], calcCenter, atan2, norm) == SegmentImp(LineData(a, c))
  {
  }

  /** Without a circumcentre the result is the segment exactly when the middle point lies between the others. */
  lemma ArcBTPNoCenter(args: seq<ObjectImp>, calcCenter: (Coordinate, Coordinate, Coordinate) -> Option<Coordinate>,
                       atan2: (real, real) -> real, norm: Coordinate -> real)
    requires |args| == 3 && CheckArgs(ArcBTPSpec, args, 2)
    requires calcCenter(args[0].c, args[1].c, args[2].c) == None
    ensures ArcBTP(args, calcCenter, atan2, norm).SegmentImp? <==> StrictlyBetween(args[0].c, args[1].c, args[2].c)
    ensures !ArcBTP(args, calcCenter, atan2, norm).SegmentImp? ==> ArcBTP(args, calcCenter, atan2, norm) == InvalidImp
  {
  }

  /**
   * With a circumcentre and angles in atan2's range (-π, π], the arc
   * spans at most a full turn, starts at the first or the last point, and
   * passes all three points.
   */
  lemma ArcBTPThrough(args: seq<ObjectImp>, calcCenter: (Coordinate, Coordinate, Coordinate) -> Option<Coordinate>,
                      atan2: (real, real) -> real, norm: Coordinate -> real, center: Coordinate)
    requires |args| == 3 && CheckArgs(ArcBTPSpec, args, 2)
    requires calcCenter(args[0].c, args[1].c, args[2].c) == Some(center)
    requires forall i :: 0 <= i < 3 ==> -Pi < Bearing(atan2, center, args[i].c) <= Pi
    ensures var r := ArcBTP(args, calcCenter, atan2, norm);
      && r.ArcImp? && r.center == center
      && 0.0 <= r.angle <= TwoPi
      && (r.startAngle == Bearing(atan2, center, args[0].c) || r.startAngle == Bearing(atan2, center, args[2].c))
      && forall i :: 0 <= i < 3 ==> OnArc(Span(r.startAngle, r.angle), Bearing(atan2, center, args[i].c))
  {
    var ba, bb, bc := Bearing(atan2, center, args[0].c), Bearing(atan2, center, args[1].c), Bearing(atan2, center, args[2].c);
    assert -Pi < ba <= Pi && -Pi < bb <= Pi && -Pi < bc <= Pi;
    ChooseSpanCovers(-Pi, ba, bb, bc);
  }

  /** The two-point centre is as far from both points: both lie on the arc's circle. */
  lemma TwoPointCenterEquidistant(a: Coordinate, b: Coordinate)
    ensures var m := TwoPointCenter(a, b);
      var da := Sub(a, m);
      var db := Sub(b, m);
      da.x * da.x + da.y * da.y == db.x * db.x + db.y * db.y
  {
    var v := Sub(b, a);
    var m := TwoPointCenter(a, b);
    assert Sub(a, m) == Coordinate(-v.x / 2.0 + 0.6 * v.y, -v.y / 2.0 - 0.6 * v.x);
    assert Sub(b, m) == Coordinate(v.x / 2.0 + 0.6 * v.y, v.y / 2.0 - 0.6 * v.x);
  }

  /**
   * With two points and angles in (-π, π], `halfangle` is the turn from
   * the first point to the second taken in [-π, 2π), and the arc spans
   * twice it.
   */
  lemma ArcBTPTwoPoints(args: seq<ObjectImp>, calcCenter: (Coordinate, Coordinate, Coordinate) -> Option<Coordinate>,
                        atan2: (real, real) -> real, norm: Coordinate -> real)
    requires |args| == 2 && CheckArgs(ArcBTPSpec, args, 2)
    requires var m := TwoPointCenter(args[0].c, args[1].c);
      -Pi < Bearing(atan2, m, args[0].c) <= Pi && -Pi < Bearing(atan2, m, args[1].c) <= Pi
    ensures var r := ArcBTP(args, calcCenter, atan2, norm);
      var m := TwoPointCenter(args[0].c, args[1].c);
      var turn := Bearing(atan2, m, args[1].c) - Bearing(atan2, m, args[0].c);
      && r.ArcImp? && r.center == m && r.startAngle == Bearing(atan2, m, args[0].c)
      && -TwoPi <= r.angle < 2.0 * TwoPi
      && (r.angle == 2.0 * turn || r.angle == 2.0 * (turn + TwoPi))
  {
  }

  /**
   * ArcBCPAType::calc: all three arguments present; the arc round the
   * centre through the start point, spanning the given angle unchanged.
   */
  function ArcBCPA(args: seq<ObjectImp>, atan2: (real, real) -> real, norm: Coordinate -> real): (r: ObjectImp)
    requires |args| <= |ArcBCPASpec|
    ensures !CheckArgs(ArcBCPASpec, args, |ArcBCPASpec|) <==> r == InvalidImp
    ensures CheckArgs(ArcBCPASpec, args, |ArcBCPASpec|) ==>
              && r.ArcImp? && r.center == args[0].c
              && r.radius == Length(LineData(args[0].c, args[1].c), norm)
              && r.startAngle == Bearing(atan2, args[0].c, args[1].c)
              && r.angle == args[2].size
  {
    if !CheckArgs(ArcBCPASpec, args, |ArcBCPASpec|) then InvalidImp
    else
      var center := args[0].c;
      var p := args[1].c;
      ArcImp(center, norm(Sub(p, center)), Bearing(atan2, center, p), args[2].size)
  }

  /** The points ConicArcBCTP fits its conic through: a, b, (c,) and the mirror images of a and b in the centre. */
  function ConicPoints(center: Coordinate, a: Coordinate, b: Coordinate, c: Option<Coordinate>): seq<Coordinate> {
    var d := Sub(Scale(center, 2.0), a);
    var e := Sub(Scale(center, 2.0), b);
    [a, b] + (if c.Some? then [c.value] else []) + [d, e]
  }

  /** A point's conic parameter, scaled from [0, 1) to a turn. */
  function ParamAngle(conicParam: (ConicCartesianData, Coordinate) -> real, cart: ConicCartesianData, p: Coordinate): real {
    TwoPi * conicParam(cart, p)
  }

  /**
   * ConicArcBCTPType::calc.  The second point defaults to the first turned
   * a quarter about the centre.  The arc on the fitted conic is built
   * spanning the whole conic, then gets the start angle and angle of the
   * shared rule applied to the conic parameters times 2π; without an end
   * point the end parameter is taken as far past the middle one as the
   * start is before it.
   */
  method ConicArcBCTP(args: seq<ObjectImp>, conicThrough: seq<Coordinate> -> ConicCartesianData,
                      conicParam: (ConicCartesianData, Coordinate) -> real) returns (r: ObjectImp)
    requires |args| <= |ConicArcBCTPSpec|
    ensures !CheckArgs(ConicArcBCTPSpec, args, 2) <==> r == InvalidImp
    ensures CheckArgs(ConicArcBCTPSpec, args, 2) ==>
      var center := args[0].c;
      var a := args[1].c;
      var b := if |args| >= 3 then args[2].c else Add(center, Orthogonal(Sub(a, center)));
      var c := if |args| == 4 then Some(args[3].c) else None;
      var cart := conicThrough(ConicPoints(center, a, b, c));
      var pa := ParamAngle(conicParam, cart, a);
      var pb := ParamAngle(conicParam, cart, b);
      var pc := if c.Some? then ParamAngle(conicParam, cart, c.value) else 2.0 * pb - pa;
      && r.ConicArcImp? && r.cart == cart
      && Span(r.startAngle, r.angle) == ChooseSpan(pa, pb, pc)
  {
    if !CheckArgs(ConicArcBCTPSpec, args, 2) {
      return InvalidImp;
    }
    var center := args[0].c;
    var a := args[1].c;
    var b := Add(center, Orthogonal(Sub(a, center)));
    if |args| >= 3 {
      b := args[2].c;
    }
    var c: Option<Coordinate> := None;
    if |args| == 4 {
      c := Some(args[3].c);
    }
    var cart := conicThrough(ConicPoints(center, a, b, c));
    var me := ConicArcImp(cart, 0.0, TwoPi);
    var anglea := ParamAngle(conicParam, cart, a);
    var angleb := ParamAngle(conicParam, cart, b);
    var anglec := 2.0 * angleb - anglea;
    if c.Some? {
      anglec := ParamAngle(conicParam, cart, c.value);
    }
    var s := ChooseSpan(anglea, angleb, anglec);
    me := ConicArcImp(me.cart, s.start, me.angle);
    me := ConicArcImp(me.cart, me.startAngle, s.angle);
    r := me;
  }

  /** Without an end point the arc is centred on the middle point's parameter. */
  lemma ConicArcCentredOnMiddle(anglea: real, angleb: real)
    ensures var s := ChooseSpan(anglea, angleb, 2.0 * angleb - anglea);
      s.start + s.angle / 2.0 == angleb
  {
  }

  /**
   * With conic parameters in [0, 1] the arc spans at most a full turn,
   * starts at one end and passes the start, middle and end parameters.
   */
  lemma ConicArcThrough(pa: real, pb: real, pc: real)
    requires 0.0 <= pa <= 1.0 && 0.0 <= pb <= 1.0 && 0.0 <= pc <= 1.0
    ensures var s := ChooseSpan(TwoPi * pa, TwoPi * pb, TwoPi * pc);
      && 0.0 <= s.angle <= TwoPi
      && OnArc(s, TwoPi * pa) && OnArc(s, TwoPi * pb) && OnArc(s, TwoPi * pc)
  {
    ChooseSpanCovers(0.0, TwoPi * pa, TwoPi * pb, TwoPi * pc);
  }
}
