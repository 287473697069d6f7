/**
 * PolygonImp (objects/polygon_imp.cc): a polygon kept as its vertex
 * sequence.  Its edges run from each vertex to the next and close from the
 * last vertex back to the first.
 *
 * Applying a transformation to a coordinate (None when the image is not a
 * valid coordinate), whether a transformation is homothetic, isOnSegment
 * and lineInRect are numeric kernels passed in as parameters.
 */
module Polygons {
  import opened Geometry
  import opened Common
  import opened Wrappers
  import opened Objects
  import opened Rects

  // ---------------------------------------------------------------------
  // points, npoints, copy, equals, valid
  // ---------------------------------------------------------------------

  /** points(): a copy of the vertex sequence. */
  function Points(poly: ObjectImp): (r: seq<Coordinate>)
    requires poly.PolygonImp?
    ensures r == poly.points
  {
    poly.points
  }

  /** npoints(): the number of vertices. */
  function NPoints(poly: ObjectImp): (n: nat)
    requires poly.PolygonImp?
    ensures n == |Points(poly)|
  {
    |poly.points|
  }

  /** copy(): a polygon over the same vertices. */
  function Copy(poly: ObjectImp): (r: ObjectImp)
    requires poly.PolygonImp?
    ensures r.PolygonImp? && Points(r) == Points(poly)
  {
    PolygonImp(poly.points)
  }

  /** equals( rhs ): `rhs` is a polygon with the very same vertex sequence. */
  predicate Equals(poly: ObjectImp, rhs: ObjectImp)
    requires poly.PolygonImp?
  {
    rhs.PolygonImp? && Points(rhs) == Points(poly)
  }

  /** valid(): a polygon is always valid. */
  function IsValid(poly: ObjectImp): (b: bool)
    requires poly.PolygonImp?
    ensures b
  {
    true
  }

  /** A copy equals its original, and the original equals the copy. */
  lemma CopyEqualsOriginal(poly: ObjectImp)
    requires poly.PolygonImp?
    ensures Equals(poly, Copy(poly)) && Equals(Copy(poly), poly)
  {
  }

  /** Polygon equality is an equivalence: it holds exactly between identical imps. */
  lemma EqualsIsIdentity(poly: ObjectImp, rhs: ObjectImp)
    requires poly.PolygonImp?
    ensures Equals(poly, rhs) <==> rhs == poly
  {
  }

  // ---------------------------------------------------------------------
  // transform
  // ---------------------------------------------------------------------

  /** Every vertex mapped by `apply`, or None as soon as one image is not valid. */
  function MapAll(apply: Coordinate -> Option<Coordinate>, pts: seq<Coordinate>): (r: Option<seq<Coordinate>>)
  {
    if pts == [] then Some([])
    else match (apply(pts[0]), MapAll(apply, pts[1..]))
      case (Some(c), Some(rest)) => Some([c] + rest)
      case _ => None
  }

  /** MapAll succeeds exactly when every vertex has a valid image, and then lists those images in order. */
  lemma {:induction false} MapAllMeaning(apply: Coordinate -> Option<Coordinate>, pts: seq<Coordinate>)
    ensures MapAll(apply, pts).Some? <==> forall i :: 0 <= i < |pts| ==> apply(pts[i]).Some?
    ensures MapAll(apply, pts).Some? ==>
      |MapAll(apply, pts).value| == |pts| &&
      forall i :: 0 <= i < |pts| ==> apply(pts[i]) == Some(MapAll(apply, pts).value[i])
  {
    if pts != [] {
      MapAllMeaning(apply, pts[1..]);
      assert forall i :: 1 <= i < |pts| ==> pts[i] == pts[1..][i - 1];
    }
  }

  /** `apply` with the transformation fixed. */
  function ApplyWith(t: Transformation, apply: (Transformation, Coordinate) -> Option<Coordinate>): Coordinate -> Option<Coordinate> {
    c => apply(t, c)
  }

  /** `rest` with `np` in front, if there is a `rest`. */
  function Prepend(np: seq<Coordinate>, rest: Option<seq<Coordinate>>): Option<seq<Coordinate>> {
    match rest
    case None => None
    case Some(r) => Some(np + r)
  }

  /** One vertex of the transform loop: a missing image ends the mapping, a valid one moves to the front part. */
  lemma MapAllStep(f: Coordinate -> Option<Coordinate>, pts: seq<Coordinate>, i: nat, np: seq<Coordinate>)
    requires i < |pts| && MapAll(f, pts) == Prepend(np, MapAll(f, pts[i..]))
    ensures f(pts[i]).None? ==> MapAll(f, pts).None?
    ensures f(pts[i]).Some? ==> MapAll(f, pts) == Prepend(np + [f(pts[i]).value], MapAll(f, pts[i + 1..]))
  {
    var q := pts[i..];
    assert q[0] == pts[i] && q[1..] == pts[i + 1..];
    MapAllCons(f, q);
    PrependStep(np, f(pts[i]), MapAll(f, pts[i + 1..]));
  }

  lemma PrependStep(np: seq<Coordinate>, c: Option<Coordinate>, rest: Option<seq<Coordinate>>)
    ensures c.None? ==> Prepend(np, if c.Some? && rest.Some? then Some([c.value] + rest.value) else None).None?
    ensures c.Some? ==> Prepend(np, if c.Some? && rest.Some? then Some([c.value] + rest.value) else None)
                        == Prepend(np + [c.value], rest)
  {
    if c.Some? && rest.Some? {
      assert np + ([c.value] + rest.value) == (np + [c.value]) + rest.value;
    }
  }

  /** MapAll of a non-empty list, by its head and its tail. */
  lemma MapAllCons(f: Coordinate -> Option<Coordinate>, q: seq<Coordinate>)
    requires q != []
    ensures MapAll(f, q) == if f(q[0]).Some? && MapAll(f, q[1..]).Some?
                            then Some([f(q[0]).value] + MapAll(f, q[1..]).value) else None
  {
  }

  /** The transform of a polygon, as a function of its vertices. */
  function Transformed(pts: seq<Coordinate>, t: Transformation,
                       isHomothetic: Transformation -> bool,
                       apply: (Transformation, Coordinate) -> Option<Coordinate>): ObjectImp
  {
    if !isHomothetic(t) then InvalidImp
    else match MapAll(ApplyWith(t, apply), pts)
      case None => InvalidImp
      case Some(np) => PolygonImp(np)
  }

  /**
   * transform( t ): invalid for a transformation that is not homothetic;
   * otherwise the vertices are mapped one by one, and the first one whose
   * image is not valid makes the whole result invalid.
   */
  method Transform(poly: ObjectImp, t: Transformation,
                   isHomothetic: Transformation -> bool,
                   apply: (Transformation, Coordinate) -> Option<Coordinate>) returns (r: ObjectImp)
    requires poly.PolygonImp?
    ensures r == Transformed(poly.points, t, isHomothetic, apply)
  {
    var pts := poly.points;
    if !isHomothetic(t) {
      return InvalidImp;
    }
    var f := ApplyWith(t, apply);
    var np: seq<Coordinate> := [];
    var i := 0;
    assert pts[i..] == pts;
    if MapAll(f, pts).Some? {
      assert np + MapAll(f, pts).value == MapAll(f, pts).value;
    }
    while i < |pts|
      invariant 0 <= i <= |pts|
      invariant MapAll(f, pts) == Prepend(np, MapAll(f, pts[i..]))
    {
      var nc := apply(t, pts[i]);
      assert f(pts[i]) == nc;
      MapAllStep(f, pts, i, np);
      if nc.None? {
        return InvalidImp;
      }
      np := np + [nc.value];
      i := i + 1;
    }
    assert pts[i..] == [];
    return PolygonImp(np);
  }

  /** A transform is invalid exactly when `t` is not homothetic or some vertex has no valid image. */
  lemma TransformedInvalid(pts: seq<Coordinate>, t: Transformation,
                           isHomothetic: Transformation -> bool,
                           apply: (Transformation, Coordinate) -> Option<Coordinate>)
    ensures Transformed(pts, t, isHomothetic, apply).InvalidImp? <==>
      !isHomothetic(t) || exists i :: 0 <= i < |pts| && apply(t, pts[i]).None?
  {
    MapAllMeaning(ApplyWith(t, apply), pts);
  }

  /** A valid transform has as many vertices as the original, vertex i the image of vertex i. */
  lemma TransformedVertices(pts: seq<Coordinate>, t: Transformation,
                            isHomothetic: Transformation -> bool,
                            apply: (Transformation, Coordinate) -> Option<Coordinate>)
    ensures var r := Transformed(pts, t, isHomothetic, apply);
      !r.InvalidImp? ==>
        r.PolygonImp? && |r.points| == |pts| &&
        forall i :: 0 <= i < |pts| ==> apply(t, pts[i]) == Some(r.points[i])
  {
    MapAllMeaning(ApplyWith(t, apply), pts);
  }

  /** A homothetic transformation fixing every vertex yields a polygon equal to the original. */
  lemma TransformedFixed(pts: seq<Coordinate>, t: Transformation,
                         isHomothetic: Transformation -> bool,
                         apply: (Transformation, Coordinate) -> Option<Coordinate>)
    requires isHomothetic(t)
    requires forall i :: 0 <= i < |pts| ==> apply(t, pts[i]) == Some(pts[i])
    ensures Equals(PolygonImp(pts), Transformed(pts, t, isHomothetic, apply))
  {
    MapAllMeaning(ApplyWith(t, apply), pts);
  }

  // ---------------------------------------------------------------------
  // contains and inRect: some edge, the closing one included
  // ---------------------------------------------------------------------

  /** The index of the vertex an edge from vertex `i` runs to. */
  function Succ(i: nat, n: nat): (j: nat)
    requires i < n
    ensures j < n
    ensures j == 0 <==> i == n - 1
  {
    if i + 1 == n then 0 else i + 1
  }

  /** The edge starting at vertex `i` satisfies `hit`. */
  predicate EdgeHit(pts: seq<Coordinate>, i: nat, hit: (Coordinate, Coordinate) -> bool)
    requires i < |pts|
  {
    hit(pts[i], pts[Succ(i, |pts|)])
  }

  /** Some edge of the closed polygon satisfies `hit`. */
  predicate AnyEdge(pts: seq<Coordinate>, hit: (Coordinate, Coordinate) -> bool) {
    exists i :: 0 <= i < |pts| && EdgeHit(pts, i, hit)
  }

  /**
   * The scan both contains and inRect perform: OR `hit` over the edges
   * i -> i+1 below the last vertex, then over the closing edge.  The index
   * of the last vertex is `size() - 1` unsigned, so there must be a vertex.
   */
  method ScanEdges(pts: seq<Coordinate>, hit: (Coordinate, Coordinate) -> bool) returns (ret: bool)
    requires |pts| >= 1
    ensures ret <==> AnyEdge(pts, hit)
  {
    ret := false;
    var reduceddim := |pts| - 1;
    var i := 0;
    while i < reduceddim
      invariant 0 <= i <= reduceddim
      invariant ret <==> exists j :: 0 <= j < i && EdgeHit(pts, j, hit)
    {
      assert EdgeHit(pts, i, hit) == hit(pts[i], pts[i + 1]);
      ret := ret || hit(pts[i], pts[i + 1]);
      i := i + 1;
    }
    assert EdgeHit(pts, reduceddim, hit) == hit(pts[reduceddim], pts[0]);
    ret := ret || hit(pts[reduceddim], pts[0]);
  }

  /** contains( p, width, w ): `p` lies on some edge, within the widget's miss distance. */
  method Contains(poly: ObjectImp, p: Coordinate, miss: real,
                  isOnSegment: (Coordinate, Coordinate, Coordinate, real) -> bool) returns (b: bool)
    requires poly.PolygonImp? && |poly.points| >= 1
    ensures b <==> exists i :: 0 <= i < |poly.points| &&
                             isOnSegment(p, poly.points[i], poly.points[Succ(i, |poly.points|)], miss)
  {
    var hit := (a, c) => isOnSegment(p, a, c, miss);
    b := ScanEdges(poly.points, hit);
    assert forall i :: 0 <= i < |poly.points| ==>
      (EdgeHit(poly.points, i, hit) <==> isOnSegment(p, poly.points[i], poly.points[Succ(i, |poly.points|)], miss));
  }

  /** The bounds of a rect, as lineInRect reads them. */
  datatype Box = Box(left: real, right: real, bottom: real, top: real)

  /** inRect( r, width, w ): some edge, as a segment, lies in `r`. */
  method InRect(poly: ObjectImp, r: Rect, width: int,
                lineInRect: (Box, Coordinate, Coordinate, int) -> bool) returns (b: bool)
    requires poly.PolygonImp? && |poly.points| >= 1
    ensures b <==> exists i :: 0 <= i < |poly.points| &&
                             lineInRect(Box(r.Left(), r.Right(), r.Bottom(), r.Top()), poly.points[i], poly.points[Succ(i, |poly.points|)], width)
  {
    var box := Box(r.Left(), r.Right(), r.Bottom(), r.Top());
    var hit := (a, c) => lineInRect(box, a, c, width);
    b := ScanEdges(poly.points, hit);
    assert forall i :: 0 <= i < |poly.points| ==>
      (EdgeHit(poly.points, i, hit) <==> lineInRect(box, poly.points[i], poly.points[Succ(i, |poly.points|)], width));
  }

  /** Where vertex `j` of the list started at vertex `k` sits in the original list. */
  function Rot(j: nat, k: nat, n: nat): (i: nat)
    requires j < n && k < n
    ensures i < n
  {
    if j + k < n then j + k else j + k - n
  }

  /** Starting the vertex list at another vertex describes the same closed polygon: the same edges are hit. */
  lemma AnyEdgeRotate(pts: seq<Coordinate>, k: nat, hit: (Coordinate, Coordinate) -> bool)
    requires k < |pts|
    ensures AnyEdge(pts[k..] + pts[..k], hit) <==> AnyEdge(pts, hit)
  {
    var n := |pts|;
    var q := pts[k..] + pts[..k];
    assert |q| == n;
    assert forall j :: 0 <= j < n ==> q[j] == pts[Rot(j, k, n)];
    assert forall j :: 0 <= j < n ==> Rot(Succ(j, n), k, n) == Succ(Rot(j, k, n), n);
    if AnyEdge(q, hit) {
      var j :| 0 <= j < n && EdgeHit(q, j, hit);
      assert EdgeHit(pts, Rot(j, k, n), hit);
    }
    if AnyEdge(pts, hit) {
      var i :| 0 <= i < n && EdgeHit(pts, i, hit);
      var j := if i >= k then i - k else i + n - k;
      assert Rot(j, k, n) == i;
      assert EdgeHit(q, j, hit);
    }
  }

  // ---------------------------------------------------------------------
  // surroundingRect
  // ---------------------------------------------------------------------

  /** The box `b` grown to take in `p`, as setContains grows a normalized rect. */
  function Grow(b: Box, p: Coordinate): Box {
    Box(KigMin(b.left, p.x), KigMax(b.right, p.x), KigMin(b.bottom, p.y), KigMax(b.top, p.y))
  }

  /** The box `start` grown by every vertex in turn. */
  function Hull(start: Box, pts: seq<Coordinate>): Box
    decreases |pts|
  {
    if pts == [] then start else Grow(Hull(start, pts[..|pts| - 1]), pts[|pts| - 1])
  }

  predicate InBox(b: Box, p: Coordinate) {
    b.left <= p.x <= b.right && b.bottom <= p.y <= b.top
  }

  /** `b` covers `c`. */
  predicate BoxCovers(b: Box, c: Box) {
    b.left <= c.left && c.right <= b.right && b.bottom <= c.bottom && c.top <= b.top
  }

  /** The bounds of a rect, read as a box. */
  function BoundsOf(r: Rect): Box
    reads r
  {
    Box(r.Left(), r.Right(), r.Bottom(), r.Top())
  }

  /** The hull takes in the starting box and every vertex. */
  lemma {:induction false} HullContains(start: Box, pts: seq<Coordinate>)
    requires start.left <= start.right && start.bottom <= start.top
    ensures BoxCovers(Hull(start, pts), start)
    ensures forall i :: 0 <= i < |pts| ==> InBox(Hull(start, pts), pts[i])
    decreases |pts|
  {
    if pts != [] {
      var front := pts[..|pts| - 1];
      HullContains(start, front);
      assert forall i :: 0 <= i < |front| ==> pts[i] == front[i];
    }
  }

  /** The hull is the least such box: any box covering `start` and every vertex covers it. */
  lemma {:induction false} HullLeast(start: Box, pts: seq<Coordinate>, b: Box)
    requires BoxCovers(b, start)
    requires forall i :: 0 <= i < |pts| ==> InBox(b, pts[i])
    ensures BoxCovers(b, Hull(start, pts))
    decreases |pts|
  {
    if pts != [] {
      HullLeast(start, pts[..|pts| - 1], b);
    }
  }

  /** The zero-sized box at the origin surroundingRect starts from. */
  const ZeroBox: Box := Box(0.0, 0.0, 0.0, 0.0)

  /** Grow a rect in place by each vertex, keeping it equal to the hull of its starting bounds. */
  method GrowBy(r: Rect, pts: seq<Coordinate>)
    requires r.Normalized()
    modifies r
    ensures r.Normalized() && BoundsOf(r) == Hull(old(BoundsOf(r)), pts)
  {
    ghost var start := BoundsOf(r);
    var i := 0;
    while i < |pts|
      invariant 0 <= i <= |pts|
      invariant r.Normalized() && BoundsOf(r) == Hull(start, pts[..i])
    {
      r.SetContains(pts[i]);
      assert pts[..i + 1][..i] == pts[..i];
      i := i + 1;
    }
    assert pts[..i] == pts;
  }

  /**
   * surroundingRect() as written: it starts from the zero rect at the
   * origin, so the result always takes in the origin as well as the
   * vertices.
   */
  method SurroundingRectAsWritten(poly: ObjectImp) returns (r: Rect)
    requires poly.PolygonImp?
    ensures fresh(r) && r.Normalized() && BoundsOf(r) == Hull(ZeroBox, poly.points)
  {
    r := new Rect.FromSize(Origin(), 0.0, 0.0);
    GrowBy(r, poly.points);
  }

  /**
   * A triangle with corners (1,1), (2,1), (1,2): the as-written bounds run
   * from (0,0) to (2,2), the bounding box of its corners from (1,1) to (2,2).
   */
  lemma SurroundingRectTakesInOrigin()
    ensures var pts := [Coordinate(1.0, 1.0), Coordinate(2.0, 1.0), Coordinate(1.0, 2.0)];
      Hull(ZeroBox, pts) == Box(0.0, 2.0, 0.0, 2.0) && Hull(PointBox(pts[0]), pts) == Box(1.0, 2.0, 1.0, 2.0)
  {
    var pts := [Coordinate(1.0, 1.0), Coordinate(2.0, 1.0), Coordinate(1.0, 2.0)];
    assert pts[..2] == [pts[0], pts[1]];
    assert pts[..2][..1] == [pts[0]];
    assert pts[..2][..1][..0] == [];
    assert Hull(ZeroBox, pts[..2][..1]) == Box(0.0, 1.0, 0.0, 1.0);
    assert Hull(ZeroBox, pts[..2]) == Box(0.0, 2.0, 0.0, 1.0);
    var start := PointBox(pts[0]);
    assert start == Box(1.0, 1.0, 1.0, 1.0);
    assert Hull(start, pts[..2][..1]) == Box(1.0, 1.0, 1.0, 1.0);
    assert Hull(start, pts[..2]) == Box(1.0, 2.0, 1.0, 1.0);
  }

  /** The box of a single point. */
  function PointBox(p: Coordinate): (b: Box)
    ensures InBox(b, p) && b.left == b.right && b.bottom == b.top
  {
    Box(p.x, p.x, p.y, p.y)
  }

  /**
   * surroundingRect(), corrected: the smallest rect around the vertices.
   * It starts from the first vertex instead of the origin; a polygon
   * without vertices keeps the zero rect.
   */
  method SurroundingRect(poly: ObjectImp) returns (r: Rect)
    requires poly.PolygonImp?
    ensures fresh(r) && r.Normalized()
    ensures BoundsOf(r) == if poly.points == [] then ZeroBox else Hull(PointBox(poly.points[0]), poly.points)
  {
    if poly.points == [] {
      r := new Rect.FromSize(Origin(), 0.0, 0.0);
    } else {
      r := new Rect.FromSize(poly.points[0], 0.0, 0.0);
      GrowBy(r, poly.points);
    }
  }

  /**
   * The corrected bounds are the bounding box of the vertices: every vertex
   * lies inside, and any box holding every vertex covers it.
   */
  lemma SurroundingRectTight(pts: seq<Coordinate>, b: Box)
    requires pts != []
    ensures forall i :: 0 <= i < |pts| ==> InBox(Hull(PointBox(pts[0]), pts), pts[i])
    ensures (forall i :: 0 <= i < |pts| ==> InBox(b, pts[i])) ==> BoxCovers(b, Hull(PointBox(pts[0]), pts))
  {
    HullContains(PointBox(pts[0]), pts);
    if forall i :: 0 <= i < |pts| ==> InBox(b, pts[i]) {
      assert InBox(b, pts[0]);
      HullLeast(PointBox(pts[0]), pts, b);
    }
  }
}
