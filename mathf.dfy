/** The subset of UnityEngine.Mathf the core uses, over real numbers
    (single-precision rounding is not modelled). */
module Mathf {

  /** Mathf.PI and Mathf.Deg2Rad as single-precision values. */
  const PI: real := 3.14159274
  const Deg2Rad: real := 0.0174532924

  function Max(a: real, b: real): (r: real)
    ensures r >= a && r >= b && (r == a || r == b)
  {
    if a > b then a else b
  }

  function Min(a: real, b: real): (r: real)
    ensures r <= a && r <= b && (r == a || r == b)
  {
    if a < b then a else b
  }

  /** Mathf.Clamp(value, min, max): the lower bound is tested first. */
  function Clamp(x: real, lo: real, hi: real): (r: real)
    ensures lo <= hi ==> lo <= r <= hi
    ensures lo <= x <= hi ==> r == x
    ensures x < lo ==> r == lo
    ensures lo <= hi < x ==> r == hi
  {
    if x < lo then lo else if x > hi then hi else x
  }

  function Clamp01(x: real): (r: real)
    ensures 0.0 <= r <= 1.0
    ensures 0.0 <= x <= 1.0 ==> r == x
    ensures x < 0.0 ==> r == 0.0
    ensures x > 1.0 ==> r == 1.0
  {
    Clamp(x, 0.0, 1.0)
  }

  lemma Clamp01Monotone(x: real, y: real)
    requires x <= y
    ensures Clamp01(x) <= Clamp01(y)
  {}

  /** Mathf.Clamp on int (used for sample and segment counts). */
  function ClampInt(x: int, lo: int, hi: int): (r: int)
    ensures lo <= hi ==> lo <= r <= hi
    ensures lo <= x <= hi ==> r == x
  {
    if x < lo then lo else if x > hi then hi else x
  }

  function MaxInt(a: int, b: int): (r: int)
    ensures r >= a && r >= b && (r == a || r == b)
  {
    if a > b then a else b
  }

  /** x scaled by a fraction c in [0,1] lies between 0 and x. */
  function Scale(x: real, c: real): (r: real)
    requires 0.0 <= c <= 1.0
    ensures 0.0 <= x ==> 0.0 <= r <= x
    ensures x <= 0.0 ==> x <= r <= 0.0
    ensures c == 0.0 ==> r == 0.0
    ensures c == 1.0 ==> r == x
  {
    if 0.0 <= x then
      MulNonNegative(x, c);
      MulNonNegative(x, 1.0 - c);
      x * c
    else
      MulNonNegative(-x, c);
      MulNonNegative(-x, 1.0 - c);
      x * c
  }

  lemma MulNonNegative(x: real, y: real)
    requires 0.0 <= x && 0.0 <= y
    ensures 0.0 <= x * y
  {}

  /** Mathf.Lerp clamps its parameter to [0,1]: it never extrapolates. */
  function Lerp(a: real, b: real, t: real): (r: real)
    ensures Min(a, b) <= r <= Max(a, b)
    ensures t <= 0.0 ==> r == a
    ensures t >= 1.0 ==> r == b
  {
    a + Scale(b - a, Clamp01(t))
  }

  /** The greatest integer not above x. */
  function Floor(x: real): (r: int)
    ensures r as real <= x < r as real + 1.0
  {
    x.Floor
  }

  /** Mathf.RoundToInt: the nearest integer, a tie going to the even one
      (System.Math.Round's default). */
  function RoundToInt(x: real): (r: int)
    ensures -0.5 <= r as real - x <= 0.5
    ensures (r as real - x == 0.5 || x - r as real == 0.5) ==> r % 2 == 0
  {
    var f := Floor(x);
    var frac := x - f as real;
    if frac < 0.5 then f
    else if frac > 0.5 then f + 1
    else if f % 2 == 0 then f
    else f + 1
  }

  /** Rounding never reverses the order of two values. */
  lemma RoundToIntMonotone(x: real, y: real)
    requires x <= y
    ensures RoundToInt(x) <= RoundToInt(y)
  {}

  /** An integer rounds to itself. */
  lemma RoundToIntOfInt(n: int)
    ensures RoundToInt(n as real) == n
  {}

  /** Mathf.Repeat(t, 1): wraps t into [0,1). */
  function Repeat01(t: real): (r: real)
    ensures 0.0 <= r < 1.0
    ensures 0.0 <= t < 1.0 ==> r == t
  {
    Clamp(t - Floor(t) as real, 0.0, 1.0)
  }
}

/** Fixed-width integers of the C# core. */
module Int32s {

  /** System.Int32. */
  type Int32 = x: int | -0x8000_0000 <= x < 0x8000_0000

  const Modulus: int := 0x1_0000_0000

  /** unchecked int arithmetic: the Int32 congruent to x modulo 2^32. */
  function Wrap(x: int): (r: Int32)
    ensures (x - r) % Modulus == 0
    ensures -0x8000_0000 <= x < 0x8000_0000 ==> r == x
  {
    var u := x % Modulus;
    if u >= 0x8000_0000 then u - Modulus else u
  }

  /** Congruent values wrap to the same Int32, so Wrap picks the one
      representative of each residue. */
  lemma WrapCongruent(x: int, y: int)
    requires (x - y) % Modulus == 0
    ensures Wrap(x) == Wrap(y)
  {
    assert x % Modulus == y % Modulus by {
      var k := (x - y) / Modulus;
      assert x == y + k * Modulus;
      ShiftMod(y, k);
    }
  }

  lemma ShiftMod(y: int, k: int)
    ensures (y + k * Modulus) % Modulus == y % Modulus
  {
    var q := y / Modulus;
    assert y + k * Modulus == (q + k) * Modulus + y % Modulus;
  }

  /** The bit pattern of an Int32 read as unsigned (what the X8 format prints). */
  function AsUInt32(h: Int32): (u: nat)
    ensures u < Modulus
    ensures (u - h) % Modulus == 0
    ensures 0 <= h ==> u == h
  {
    if h < 0 then h + Modulus else h
  }

}
