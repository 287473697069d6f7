/** The small generic helpers of misc/common.h. */
module Common {
  import opened Geometry

  /** kigMin( a, b ): `a` if `a < b`, else `b`. */
  function KigMin(a: real, b: real): (m: real)
    ensures m <= a && m <= b
    ensures m == a || m == b
  {
    if a < b then a else b
  }

  /** kigMax( a, b ): `a` if `a > b`, else `b`. */
  function KigMax(a: real, b: real): (m: real)
    ensures m >= a && m >= b
    ensures m == a || m == b
  {
    if a > b then a else b
  }

  /** The two points that define a line, segment, ray or vector. */
  datatype LineData = LineData(a: Coordinate, b: Coordinate)

  /** The default constructor: both points at the origin. */
  function DefaultLineData(): (l: LineData)
    ensures l.a == Origin() && l.b == Origin()
  {
    LineData(Origin(), Origin())
  }

  /** dir(): the vector from `a` to `b`. */
  function Dir(l: LineData): (d: Coordinate)
    ensures Add(l.a, d) == l.b
  {
    Sub(l.b, l.a)
  }

  /**
   * length(): the length of `dir()`.  Coordinate::length takes a square
   * root and is passed in as `norm`.
   */
  function Length(l: LineData, norm: Coordinate -> real): real {
    norm(Dir(l))
  }

  /** A line has no direction exactly when its two points coincide, as the default line's do. */
  lemma DefaultLineDataDegenerate(l: LineData)
    ensures Dir(l) == Origin() <==> l.a == l.b
    ensures Dir(DefaultLineData()) == Origin()
  {
  }

  /** Swapping the endpoints reverses the direction ... */
  lemma DirSwap(l: LineData)
    ensures Dir(LineData(l.b, l.a)) == Neg(Dir(l))
  {
  }

  /** ... and so keeps the length, for any norm that ignores the sign of a vector. */
  lemma LengthSwap(l: LineData, norm: Coordinate -> real)
    requires forall c :: norm(Neg(c)) == norm(c)
    ensures Length(LineData(l.b, l.a), norm) == Length(l, norm)
  {
    DirSwap(l);
  }
}
