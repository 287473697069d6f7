/**
 * Kig's Coordinate: a point or vector of the plane.  Coordinates are
 * doubles in Kig; here they are exact reals, so rounding is not modelled.
 */
module Geometry {

  datatype Coordinate = Coordinate(x: real, y: real)

  /** The default-constructed coordinate. */
  function Origin(): Coordinate {
    Coordinate(0.0, 0.0)
  }

  function Add(a: Coordinate, b: Coordinate): Coordinate {
    Coordinate(a.x + b.x, a.y + b.y)
  }

  function Sub(a: Coordinate, b: Coordinate): Coordinate {
    Coordinate(a.x - b.x, a.y - b.y)
  }

  function Neg(a: Coordinate): Coordinate {
    Coordinate(-a.x, -a.y)
  }

  /** `a * k`. */
  function Scale(a: Coordinate, k: real): Coordinate {
    Coordinate(a.x * k, a.y * k)
  }

  /** `a / 2`. */
  function Half(a: Coordinate): Coordinate {
    Coordinate(a.x / 2.0, a.y / 2.0)
  }

  /** `a.orthogonal()`: `a` turned a quarter turn counter-clockwise. */
  function Orthogonal(a: Coordinate): Coordinate {
    Coordinate(-a.y, a.x)
  }

  /** M_PI, as the double it is stored in. */
  const Pi: real := 3.141592653589793
}
