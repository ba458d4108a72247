/**
  The ECMAScript number conversions the terrain and picking code rely on,
  stated over Dafny's exact reals: truncation, ToInt32 (what `~~x` computes),
  ToUint8 (a store into a Uint8Array), ToUint8Clamp (a store into a
  Uint8ClampedArray) and the fractional part `x - Math.floor(x)`.
*/
module JsNumbers {

  const TWO_TO_31: int := 0x8000_0000
  const TWO_TO_32: int := 0x1_0000_0000

  /** One element of a Uint8Array or Uint8ClampedArray. */
  type Byte = b: int | 0 <= b < 256

  /** A JavaScript number the model needs to tell apart from NaN. */
  datatype Number = Finite(value: real) | NaN

  function Abs(x: real): (r: real)
    ensures 0.0 <= r && (r == x || r == -x)
  {
    if x < 0.0 then -x else x
  }

  function Min(a: int, b: int): (m: int)
    ensures m <= a && m <= b && (m == a || m == b)
  {
    if a <= b then a else b
  }

  /** Rounding toward zero, the integer part every integer conversion starts with. */
  function Truncate(x: real): (n: int)
    ensures 0.0 <= x ==> n as real <= x < n as real + 1.0
    ensures x <= 0.0 ==> n as real - 1.0 < x <= n as real
  {
    if 0.0 <= x then x.Floor else -((-x).Floor)
  }

  /** ToInt32: truncate, then wrap modulo 2^32 into the signed 32-bit range. */
  function ToInt32(x: real): (n: int)
    ensures -TWO_TO_31 <= n < TWO_TO_31
    ensures (Truncate(x) - n) % TWO_TO_32 == 0
  {
    var m := Truncate(x) % TWO_TO_32;
    if m < TWO_TO_31 then m else m - TWO_TO_32
  }

  /** On a value in [0, 2^31) ToInt32 is the floor: the wrap never happens. */
  lemma ToInt32OfSmall(x: real)
    requires 0.0 <= x < TWO_TO_31 as real
    ensures ToInt32(x) == x.Floor
  {
  }

  /** ToUint8: truncate, then wrap modulo 256. */
  function ToUint8(x: real): (b: Byte)
    ensures (Truncate(x) - b) % 256 == 0
  {
    Truncate(x) % 256
  }

  /**
    Adding a non-negative real to a stored byte and storing it back keeps the
    integer part of the addend and wraps: `(d + floor(f)) mod 256`.
  */
  lemma AddToByte(d: Byte, f: real)
    requires 0.0 <= f
    ensures ToUint8(d as real + f) == (d + f.Floor) % 256
  {
    var n := f.Floor;
    assert n as real <= f < n as real + 1.0;
    assert (d + n) as real <= d as real + f < (d + n) as real + 1.0;
    assert Truncate(d as real + f) == d + n;
  }

  /**
    ToUint8Clamp: NaN and non-positive values store 0, values from 255 up store
    255, everything else is rounded to the nearest integer, ties to even.
  */
  function ToUint8Clamp(x: real): (b: Byte)
    ensures x <= 0.0 ==> b == 0
    ensures 255.0 <= x ==> b == 255
    ensures 0.0 < x < 255.0 ==> -0.5 <= b as real - x <= 0.5
    ensures 0.0 < x < 255.0 && (b as real - x == 0.5 || x - b as real == 0.5) ==> b % 2 == 0
  {
    if x <= 0.0 then 0
    else if 255.0 <= x then 255
    else
      var f := x.Floor;
      if f as real + 0.5 < x then f + 1
      else if x < f as real + 0.5 then f
      else if f % 2 == 0 then f
      else f + 1
  }

  /** A clamped store never reverses the order of the values stored. */
  lemma ToUint8ClampMonotonic(x: real, y: real)
    requires x <= y
    ensures ToUint8Clamp(x) <= ToUint8Clamp(y)
  {
    if 0.0 < x && y < 255.0 {
      var fx, fy := x.Floor, y.Floor;
      assert fx <= fy;
      if fx == fy {
        if fx as real + 0.5 < x {
          assert fy as real + 0.5 < y;
        } else if x == fx as real + 0.5 && fx % 2 != 0 {
          assert fy as real + 0.5 <= y;
        }
      }
    }
  }

  /** A clamped store of an integer is that integer, cut to 0..255. */
  lemma ToUint8ClampOfInt(n: int)
    ensures ToUint8Clamp(n as real) == if n < 0 then 0 else Min(n, 255)
  {
    if 0 < n < 255 {
      assert (n as real).Floor == n;
    }
  }

  /** `x - Math.floor(x)`, the fractional part. */
  function Fract(x: real): (r: real)
    ensures 0.0 <= r < 1.0
    ensures (x - r).Floor as real == x - r
  {
    x - x.Floor as real
  }
}
