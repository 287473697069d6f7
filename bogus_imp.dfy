/**
 * The payload holders of objects/bogus_imp.h: objects whose whole value
 * is one double, one int or one string.
 */
module BogusImps {

  /** A C++ `int`. */
  newtype Int32 = x: int | -0x8000_0000 <= x < 0x8000_0000

  class DoubleImp {
    var mdata: real

    constructor (d: real)
      ensures mdata == d
    {
      mdata := d;
    }

    function Data(): real
      reads this
    {
      mdata
    }

    method SetData(d: real)
      modifies this
      ensures Data() == d
    {
      mdata := d;
    }
  }

  class IntImp {
    var mdata: Int32

    constructor (d: Int32)
      ensures mdata == d
    {
      mdata := d;
    }

    function Data(): Int32
      reads this
    {
      mdata
    }

    method SetData(d: Int32)
      modifies this
      ensures Data() == d
    {
      mdata := d;
    }
  }

  class StringImp {
    var mdata: string

    constructor (d: string)
      ensures mdata == d
    {
      mdata := d;
    }

    function Data(): string
      reads this
    {
      mdata
    }

    method SetData(s: string)
      modifies this
      ensures Data() == s
    {
      mdata := s;
    }
  }
}
