/**
 * Kig's Rect (misc/rect.cc, misc/rect.h): an axis-parallel rectangle kept
 * as its bottom-left corner plus a width and a height, updated in place.
 * A rect is normalized when its width and height are not negative; the
 * region it covers is the box between its corners either way.
 */
module Rects {
  import opened Geometry
  import opened Common

  class Rect {
    var bottomLeft: Coordinate
    var width: real
    var height: real

    /** Rect( bottomLeft, topRight ). */
    constructor FromCorners(bl: Coordinate, tr: Coordinate)
      ensures Normalized()
      ensures Left() == KigMin(bl.x, tr.x) && Right() == KigMax(bl.x, tr.x)
      ensures Bottom() == KigMin(bl.y, tr.y) && Top() == KigMax(bl.y, tr.y)
    {
      bottomLeft := bl;
      width := tr.x - bl.x;
      height := tr.y - bl.y;
      new;
      Normalize();
    }

    /** Rect( p, width, height ). */
    constructor FromSize(p: Coordinate, w: real, h: real)
      ensures Normalized()
      ensures Left() == KigMin(p.x, p.x + w) && Right() == KigMax(p.x, p.x + w)
      ensures Bottom() == KigMin(p.y, p.y + h) && Top() == KigMax(p.y, p.y + h)
    {
      bottomLeft := p;
      width := w;
      height := h;
      new;
      Normalize();
    }

    /** Rect( xa, ya, xb, yb ) on integer corners. */
    constructor FromInts(xa: int, ya: int, xb: int, yb: int)
      ensures Normalized()
      ensures Left() == KigMin(xa as real, xb as real) && Right() == KigMax(xa as real, xb as real)
      ensures Bottom() == KigMin(ya as real, yb as real) && Top() == KigMax(ya as real, yb as real)
    {
      bottomLeft := Coordinate(xa as real, ya as real);
      width := (xb - xa) as real;
      height := (yb - ya) as real;
      new;
      Normalize();
    }

    /** The copy constructor, which normalizes the copy. */
    constructor Copy(r: Rect)
      ensures Normalized()
      ensures Left() == r.MinX() && Right() == r.MaxX()
      ensures Bottom() == r.MinY() && Top() == r.MaxY()
    {
      bottomLeft := r.bottomLeft;
      width := r.width;
      height := r.height;
      new;
      Normalize();
    }

    /** Rect(): a zero-sized rect at the origin. */
    constructor ()
      ensures bottomLeft == Origin() && width == 0.0 && height == 0.0
    {
      bottomLeft := Origin();
      width := 0.0;
      height := 0.0;
    }

    // -------------------------------------------------------------------
    // accessors

    function Left(): real reads this { bottomLeft.x }
    function Bottom(): real reads this { bottomLeft.y }

    function Right(): (r: real)
      reads this
      ensures r - Left() == width
    {
      Left() + width
    }

    function Top(): (t: real)
      reads this
      ensures t - Bottom() == height
    {
      Bottom() + height
    }

    function BottomRight(): (c: Coordinate)
      reads this
      ensures c == Coordinate(Right(), Bottom())
    {
      Add(bottomLeft, Coordinate(width, 0.0))
    }

    function TopLeft(): (c: Coordinate)
      reads this
      ensures c == Coordinate(Left(), Top())
    {
      Add(bottomLeft, Coordinate(0.0, height))
    }

    function TopRight(): (c: Coordinate)
      reads this
      ensures c == Coordinate(Right(), Top())
    {
      Add(bottomLeft, Coordinate(width, height))
    }

    /** center(): halfway between the corners. */
    function Center(): (c: Coordinate)
      reads this
      ensures c.x - Left() == Right() - c.x && c.y - Bottom() == Top() - c.y
    {
      Add(bottomLeft, Half(Coordinate(width, height)))
    }

    /** Width and height are not negative. */
    predicate Normalized()
      reads this
    {
      width >= 0.0 && height >= 0.0
    }

    /** The edges of the covered region, whatever the signs of width and height. */
    function MinX(): real reads this { KigMin(Left(), Right()) }
    function MaxX(): real reads this { KigMax(Left(), Right()) }
    function MinY(): real reads this { KigMin(Bottom(), Top()) }
    function MaxY(): real reads this { KigMax(Bottom(), Top()) }

    /** `p` lies in the covered region. */
    predicate Covers(p: Coordinate)
      reads this
    {
      MinX() <= p.x <= MaxX() && MinY() <= p.y <= MaxY()
    }

    /**
     * contains( p ): left <= p.x <= right and bottom <= p.y <= top, as
     * `p.x - left() <= width()` and `p.y - bottom() <= height()`.  On a
     * normalized rect this is exactly the covered region.
     */
    predicate Contains(p: Coordinate)
      reads this
      ensures Contains(p) <==> Left() <= p.x <= Right() && Bottom() <= p.y <= Top()
      ensures Normalized() ==> (Contains(p) <==> Covers(p))
    {
      p.x >= Left() && p.y >= Bottom() && p.x - Left() <= width && p.y - Bottom() <= height
    }

    /** intersects( p ): false when `p` lies wholly to one side of this rect. */
    predicate Intersects(p: Rect)
      reads this, p
    {
      if p.Left() < Left() && p.Right() < Left() then false
      else if p.Left() > Right() && p.Right() > Right() then false
      else if p.Bottom() < Bottom() && p.Top() < Bottom() then false
      else if p.Bottom() > Top() && p.Top() > Top() then false
      else true
    }

    /** operator==: same bottom-left corner, width and height. */
    predicate Equals(s: Rect)
      reads this, s
    {
      bottomLeft == s.bottomLeft && width == s.width && height == s.height
    }

    // -------------------------------------------------------------------
    // updates

    /** normalize(): flip a negative width or height, keeping the covered region. */
    method Normalize()
      modifies this
      ensures Normalized()
      ensures Left() == old(MinX()) && Right() == old(MaxX())
      ensures Bottom() == old(MinY()) && Top() == old(MaxY())
    {
      if width < 0.0 {
        bottomLeft := bottomLeft.(x := bottomLeft.x + width);
        width := -width;
      }
      if height < 0.0 {
        bottomLeft := bottomLeft.(y := bottomLeft.y + height);
        height := -height;
      }
    }

    method SetBottomLeft(p: Coordinate)
      modifies this
      ensures bottomLeft == p && width == old(width) && height == old(height)
    {
      bottomLeft := p;
    }

    method SetBottomRight(p: Coordinate)
      modifies this
      ensures BottomRight() == p && width == old(width) && height == old(height)
    {
      bottomLeft := Sub(p, Coordinate(width, 0.0));
    }

    method SetTopRight(p: Coordinate)
      modifies this
      ensures TopRight() == p && width == old(width) && height == old(height)
    {
      bottomLeft := Sub(p, Coordinate(width, height));
    }

    method SetCenter(p: Coordinate)
      modifies this
      ensures Center() == p && width == old(width) && height == old(height)
    {
      bottomLeft := Sub(p, Half(Coordinate(width, height)));
    }

    /** setLeft( p ): move the left edge, keeping the right one. */
    method SetLeft(p: real)
      modifies this
      ensures Left() == p && Right() == old(Right())
      ensures Bottom() == old(Bottom()) && height == old(height)
    {
      var r := Right();
      bottomLeft := bottomLeft.(x := p);
      SetRight(r);
    }

    /** setRight( p ): move the right edge, keeping the left one. */
    method SetRight(p: real)
      modifies this
      ensures Right() == p && bottomLeft == old(bottomLeft) && height == old(height)
    {
      width := p - Left();
    }

    /** setBottom( p ): move the bottom edge, keeping the top one. */
    method SetBottom(p: real)
      modifies this
      ensures Bottom() == p && Top() == old(Top())
      ensures Left() == old(Left()) && width == old(width)
    {
      var t := Top();
      bottomLeft := bottomLeft.(y := p);
      SetTop(t);
    }

    /** setTop( p ): move the top edge, keeping the bottom one. */
    method SetTop(p: real)
      modifies this
      ensures Top() == p && bottomLeft == old(bottomLeft) && width == old(width)
    {
      height := p - Bottom();
    }

    method SetWidth(w: real)
      modifies this
      ensures width == w && bottomLeft == old(bottomLeft) && height == old(height)
    {
      width := w;
    }

    method SetHeight(h: real)
      modifies this
      ensures height == h && bottomLeft == old(bottomLeft) && width == old(width)
    {
      height := h;
    }

    /** moveBy( p ), also operator+=: translate by `p`, keeping the size. */
    method MoveBy(p: Coordinate)
      modifies this
      ensures bottomLeft == Add(old(bottomLeft), p) && width == old(width) && height == old(height)
      ensures forall q :: old(Contains(q)) <==> Contains(Add(q, p))
    {
      bottomLeft := Add(bottomLeft, p);
    }

    /** operator+=( p ): a synonym for moveBy. */
    method AddAssign(p: Coordinate)
      modifies this
      ensures bottomLeft == Add(old(bottomLeft), p) && width == old(width) && height == old(height)
    {
      MoveBy(p);
    }

    /** scale( r ): multiply width and height by `r`; the bottom-left corner stays. */
    method Scale(r: real)
      modifies this
      ensures bottomLeft == old(bottomLeft) && width == old(width) * r && height == old(height) * r
    {
      width := width * r;
      height := height * r;
    }

    /** operator*=( r ): a synonym for scale. */
    method MulAssign(r: real)
      modifies this
      ensures bottomLeft == old(bottomLeft) && width == old(width) * r && height == old(height) * r
    {
      Scale(r);
    }

    /** operator/=( r ): scale by `1 / r`. */
    method DivAssign(r: real)
      requires r != 0.0
      modifies this
      ensures bottomLeft == old(bottomLeft) && width * r == old(width) && height * r == old(height)
    {
      Scale(1.0 / r);
    }

    /**
     * setContains( p ): normalize, then push out whichever edges `p` lies
     * beyond.  The result is the smallest normalized rect covering both
     * the old region and `p`.
     */
    method SetContains(p: Coordinate)
      modifies this
      ensures Normalized() && Contains(p)
      ensures Left() == KigMin(old(MinX()), p.x) && Right() == KigMax(old(MaxX()), p.x)
      ensures Bottom() == KigMin(old(MinY()), p.y) && Top() == KigMax(old(MaxY()), p.y)
      ensures forall q :: old(Covers(q)) ==> Contains(q)
    {
      Normalize();
      if p.x < Left() {
        SetLeft(p.x);
      }
      if p.x > Right() {
        SetRight(p.x);
      }
      if p.y < Bottom() {
        SetBottom(p.y);
      }
      if p.y > Top() {
        SetTop(p.y);
      }
    }

    /** normalized(): a normalized copy, leaving this rect as it is. */
    method NormalizedCopy() returns (t: Rect)
      ensures fresh(t) && t.Normalized()
      ensures t.Left() == MinX() && t.Right() == MaxX() && t.Bottom() == MinY() && t.Top() == MaxY()
    {
      t := new Rect.Copy(this);
    }
  }

  /**
   * The four corners lie in the covered region; on a normalized rect they
   * are contained, and every contained point lies between the bottom-left
   * and the top-right corner.
   */
  lemma CornersCovered(r: Rect)
    ensures r.Covers(r.bottomLeft) && r.Covers(r.BottomRight()) && r.Covers(r.TopLeft()) && r.Covers(r.TopRight())
    ensures r.Normalized() ==>
      r.Contains(r.bottomLeft) && r.Contains(r.BottomRight()) && r.Contains(r.TopLeft()) && r.Contains(r.TopRight())
    ensures r.Normalized() ==> forall p :: r.Contains(p) ==>
      r.bottomLeft.x <= p.x <= r.TopRight().x && r.bottomLeft.y <= p.y <= r.TopRight().y
  {
  }

  /** For normalized rects, intersects is false exactly when the x-ranges or the y-ranges are strictly apart. */
  lemma IntersectsMeaning(r: Rect, s: Rect)
    requires r.Normalized() && s.Normalized()
    ensures !r.Intersects(s) <==>
      (s.Right() < r.Left() || r.Right() < s.Left() || s.Top() < r.Bottom() || r.Top() < s.Bottom())
  {
  }

  /** ... so for normalized rects it is symmetric. */
  lemma IntersectsSymmetric(r: Rect, s: Rect)
    requires r.Normalized() && s.Normalized()
    ensures r.Intersects(s) <==> s.Intersects(r)
  {
    IntersectsMeaning(r, s);
    IntersectsMeaning(s, r);
  }

  /** A point both rects contain shows that they intersect. */
  lemma CommonPointIntersects(r: Rect, s: Rect, p: Coordinate)
    requires r.Contains(p) && s.Contains(p)
    ensures r.Intersects(s)
  {
  }

  /** The copy constructor yields an equal rect exactly when the original is normalized. */
  lemma CopyEquals(r: Rect, t: Rect)
    requires t.Normalized()
    requires t.Left() == r.MinX() && t.Right() == r.MaxX() && t.Bottom() == r.MinY() && t.Top() == r.MaxY()
    ensures t.Equals(r) <==> r.Normalized()
  {
  }
}
