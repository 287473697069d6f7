/**
 * The locus of objects/locus.cpp and objects/locus.h: the curve a point
 * `mp` traces while a constrained point `cp` runs over the parameters
 * 0 to 1 of the curve it lies on.  The locus keeps a list of samples,
 * found by adaptive bisection of the parameter range.
 *
 * Recomputing `mp` from `cp` (cp->calc, calcpath.calc) is abstracted as
 * the function `mp.at` from the parameter of `cp` to the position of
 * `mp`, and the length of a vector (a square root) as the function `norm`.
 */
module Loci {
  import opened Geometry
  import opened Rects
  import CalcPaths

  /** numberOfSamples: how many samples a locus aims for. */
  const NumberOfSamples: int := 500

  /** No recursion depth below this many samples is cut short. */
  const ForcedSamples: int := 20

  /** CPt: a sample position together with the parameter that produced it. */
  datatype CPt = CPt(pt: Coordinate, pm: real)

  /** The part of the screen on show, and the size of one pixel. */
  datatype ScreenInfo = ScreenInfo(shownRect: Rect, pixelWidth: real)

  /** `r == Rect()`: the shown rect is not known yet. */
  predicate IsDefaultRect(r: Rect)
    reads r
  {
    r.bottomLeft == Origin() && r.width == 0.0 && r.height == 0.0
  }

  /** `b` is `a` with zero or more samples appended. */
  ghost predicate Extends(a: seq<CPt>, b: seq<CPt>) {
    |a| <= |b| && b[..|a|] == a
  }

  lemma ExtendsAppend(a: seq<CPt>, n: CPt)
    ensures Extends(a, a + [n]) && (a + [n])[|a|] == n
  {
    assert (a + [n])[..|a|] == a;
  }

  lemma ExtendsTrans(a: seq<CPt>, b: seq<CPt>, c: seq<CPt>)
    requires Extends(a, b) && Extends(b, c)
    ensures Extends(a, c)
  {
    assert c[..|a|] == c[..|b|][..|a|];
  }

  /** A list that extends `a` keeps each of `a`'s samples in place. */
  lemma ExtendsAt(a: seq<CPt>, b: seq<CPt>, k: nat)
    requires Extends(a, b) && k < |a|
    ensures b[k] == a[k]
  {
    assert b[..|a|][k] == b[k];
  }

  /** The constrained point: its parameter on the curve it is bound to. */
  class ConstrainedPoint {
    var param: real
    var valid: bool

    constructor (p: real, v: bool)
      ensures param == p && valid == v
    {
      param := p;
      valid := v;
    }
  }

  /** The traced point, through where it lies for each parameter of the constrained point. */
  class TracedPoint {
    var valid: bool
    const at: real -> Coordinate

    constructor (v: bool, at: real -> Coordinate)
      ensures valid == v && this.at == at
    {
      valid := v;
      this.at := at;
    }
  }

  class Locus {
    const cp: ConstrainedPoint?
    const mp: TracedPoint?
    const norm: Coordinate -> real
    /** The objects between `cp` and `mp`, then `mp` itself, as graph nodes. */
    const calcpath: seq<CalcPaths.Node>
    var pts: seq<CPt>
    var mvalid: bool

    /** Locus(): no constrained point and no traced point yet. */
    constructor Empty(norm: Coordinate -> real)
      ensures cp == null && mp == null && pts == [] && calcpath == []
    {
      cp := null;
      mp := null;
      this.norm := norm;
      calcpath := [];
      pts := [];
      mvalid := false;
    }

    /**
     * Locus( os ), once its two arguments are told apart: the calc path
     * is calcPath( [cp], mp ) followed by `mp`, so `mp` is computed after
     * everything it uses that depends on `cp`.
     */
    constructor (cp: ConstrainedPoint, mp: TracedPoint, norm: Coordinate -> real,
                 g: CalcPaths.Graph, cpNode: CalcPaths.Node, mpNode: CalcPaths.Node, ghost rank: map<CalcPaths.Node, nat>)
      requires CalcPaths.Ranked(g, rank) && cpNode in g.children && mpNode in g.children
      ensures this.cp == cp && this.mp == mp && pts == []
      ensures |calcpath| > 0 && calcpath[|calcpath| - 1] == mpNode && CalcPaths.NoDup(calcpath)
      ensures forall n :: n in calcpath[..|calcpath| - 1] <==> n in CalcPaths.Between(g, rank, [cpNode], mpNode)
    {
      this.cp := cp;
      this.mp := mp;
      this.norm := norm;
      var path := CalcPaths.CalcPathBetween(g, [cpNode], mpNode, rank);
      calcpath := path + [mpNode];
      pts := [];
      mvalid := false;
      new;
      assert calcpath[..|calcpath| - 1] == path;
    }

    /** `c` is what the traced point gives at the parameter of `c`, a parameter in [0, 1]. */
    predicate Sample(c: CPt)
      reads this
      requires mp != null
    {
      c.pt == mp.at(c.pm) && 0.0 <= c.pm <= 1.0
    }

    /** Every stored sample is a sample. */
    predicate Sampled()
      reads this
      requires mp != null
    {
      forall k :: 0 <= k < |pts| ==> Sample(pts[k])
    }

    /** getParents(): the constrained point, then the traced point. */
    function GetParents(): (ps: seq<object?>)
      reads this
      ensures |ps| == 2 && ps[0] == cp && ps[1] == mp
    {
      [cp, mp]
    }

    /** getParam( c ): always the middle of the range. */
    function GetParam(c: Coordinate): (r: real)
      ensures r == 0.5
    {
      0.5
    }

    /** startMove, moveTo and stopMove do nothing: a locus is not moved directly. */
    method StartMove(c: Coordinate)
      ensures unchanged(this)
    {
    }

    method MoveTo(c: Coordinate)
      ensures unchanged(this)
    {
    }

    method StopMove()
      ensures unchanged(this)
    {
    }

    /** addPoint( param ): move `cp` to `param` and store the sample found there. */
    method AddPoint(param: real) returns (n: CPt)
      requires cp != null && mp != null
      modifies this`pts, cp`param
      ensures cp.param == param
      ensures n == CPt(mp.at(param), param) && pts == old(pts) + [n]
    {
      cp.param := param;
      n := CPt(mp.at(cp.param), param);
      pts := pts + [n];
    }

    /**
     * recurse( first, last, i, si ): bisect the parameter range between two
     * samples.  The counter `i` is shared by all calls and goes up on each;
     * a call adds a sample only while `i` has not passed numberOfSamples.
     * The first ForcedSamples counts always bisect; after that a call stops
     * when neither end is on screen, and recurses only on a side whose two
     * samples are more than 1.5 pixels apart.
     */
    method Recurse(first: CPt, last: CPt, i: int, si: ScreenInfo) returns (i': int)
      requires cp != null && mp != null && Sample(first) && Sample(last)
      requires Sampled() && |pts| <= i && |pts| <= NumberOfSamples + 1
      modifies this`pts, cp`param
      ensures i' > i
      ensures Sampled() && |pts| <= i' && |pts| <= NumberOfSamples + 1
      ensures Extends(old(pts), pts)
      ensures i > NumberOfSamples ==> pts == old(pts) && i' == i + 1
      ensures i <= NumberOfSamples && i + 1 > ForcedSamples &&
              !si.shownRect.Contains(first.pt) && !si.shownRect.Contains(last.pt) ==>
                pts == old(pts) && i' == i + 1
      ensures i <= NumberOfSamples && (i + 1 <= ForcedSamples ||
              si.shownRect.Contains(first.pt) || si.shownRect.Contains(last.pt)) ==>
                |pts| > |old(pts)| && pts[|old(pts)|].pm == (first.pm + last.pm) / 2.0
      ensures i + 2 <= ForcedSamples ==>
                |pts| > |old(pts)| + 1 && pts[|old(pts)| + 1].pm == ((first.pm + last.pm) / 2.0 + first.pm) / 2.0
      decreases NumberOfSamples + 1 - i
    {
      var r := si.shownRect;
      i' := i + 1;
      if i > NumberOfSamples {
        return;
      }
      if !(r.Contains(first.pt) || r.Contains(last.pt)) && i' > ForcedSamples {
        return;
      }
      var p := (first.pm + last.pm) / 2.0;
      ghost var before := pts;
      var n := AddPoint(p);
      ghost var added := pts;
      ExtendsAppend(before, n);
      if i' <= ForcedSamples || norm(Sub(n.pt, first.pt)) > 1.5 * si.pixelWidth {
        i' := Recurse(n, first, i', si);
      }
      ghost var mid := pts;
      ExtendsTrans(before, added, mid);
      ExtendsAt(added, mid, |before|);
      if i' > NumberOfSamples {
        return;
      }
      if i' <= ForcedSamples || norm(Sub(n.pt, last.pt)) > 1.5 * si.pixelWidth {
        i' := Recurse(n, last, i', si);
      }
      ExtendsTrans(before, mid, pts);
      ExtendsAt(mid, pts, |before|);
      if |added| < |mid| {
        ExtendsAt(mid, pts, |added|);
      }
      if i' > NumberOfSamples {
        return;
      }
    }

    /**
     * calc( si ): recompute the samples.  The locus is valid when both
     * points are; then, unless the shown rect is not known yet, the
     * samples at 0 and 1 are stored and the range between them bisected,
     * and `cp` gets its parameter back.
     */
    method Calc(si: ScreenInfo)
      requires cp != null && mp != null
      modifies this`pts, this`mvalid, cp`param
      ensures mvalid == (cp.valid && mp.valid)
      ensures cp.param == old(cp.param)
      ensures !mvalid || IsDefaultRect(si.shownRect) ==> pts == old(pts)
      ensures mvalid && !IsDefaultRect(si.shownRect) ==>
        && 2 <= |pts| <= NumberOfSamples + 1
        && pts[0] == CPt(mp.at(0.0), 0.0) && pts[1] == CPt(mp.at(1.0), 1.0)
        && Sampled()
    {
      mvalid := cp.valid && mp.valid;
      if mvalid {
        if IsDefaultRect(si.shownRect) {
          return;
        }
        pts := [];
        var oldP := cp.param;
        var b := AddPoint(0.0);
        var e := AddPoint(1.0);
        var i := 2;
        i := Recurse(b, e, i, si);
        cp.param := oldP;
      }
    }

    /** getPoint( param ): where the traced point lies at `param`; `cp` keeps its parameter. */
    method GetPoint(param: real) returns (t: Coordinate)
      requires cp != null && mp != null
      modifies cp`param
      ensures cp.param == old(cp.param)
      ensures t == if mvalid then mp.at(param) else Origin()
    {
      if !mvalid {
        return Origin();
      }
      var tmp := cp.param;
      cp.param := param;
      t := mp.at(cp.param);
      cp.param := tmp;
    }

    /** contains( o, fault ): some sample lies closer than `fault` to `o`. */
    method Contains(o: Coordinate, fault: real) returns (b: bool)
      ensures b <==> exists k :: 0 <= k < |pts| && norm(Sub(pts[k].pt, o)) < fault
    {
      for k := 0 to |pts|
        invariant forall j :: 0 <= j < k ==> norm(Sub(pts[j].pt, o)) >= fault
      {
        if norm(Sub(pts[k].pt, o)) < fault {
          return true;
        }
      }
      return false;
    }

    /** inRect( r ): some sample lies in `r`. */
    method InRect(r: Rect) returns (b: bool)
      ensures b <==> exists k :: 0 <= k < |pts| && r.Contains(pts[k].pt)
    {
      for k := 0 to |pts|
        invariant forall j :: 0 <= j < k ==> !r.Contains(pts[j].pt)
      {
        if r.Contains(pts[k].pt) {
          return true;
        }
      }
      return false;
    }
  }
}
