/** Assets/Runtime/Utils/DeterministicRng.cs: the xorshift32 stream every
    generator draws from, the 32-bit seed mixer and the FNV-1a string hash. */
module Rng {
  import opened Wrappers
  import opened Int32s

  /** The state used when the seed is 0 (xorshift32 is stuck at 0). */
  const FallbackState: bv32 := 0xA341316C

  /** A value drawn from the stream, paired with the stream state after the draw. */
  datatype Draw<T> = Draw(value: T, state: bv32)

  /** The state the struct's constructor stores for `seed`. */
  function InitialState(seed: bv32): (s: bv32)
    ensures s != 0
    ensures seed != 0 ==> s == seed
    ensures seed == 0 ==> s == FallbackState
  {
    if seed != 0 then seed else FallbackState
  }

  /** The three xor-shift steps of xorshift32, each with 32-bit wrap-around. */
  function XorShl13(x: bv32): bv32 { x ^ (x << 13) }
  function XorShr17(x: bv32): bv32 { x ^ (x >> 17) }
  function XorShl5(x: bv32): bv32 { x ^ (x << 5) }

  /** One xorshift32 step: x ^= x << 13; x ^= x >> 17; x ^= x << 5. */
  function Xorshift32(x: bv32): bv32
  {
    XorShl5(XorShr17(XorShl13(x)))
  }

  lemma KeepNonZeroShl13(x: bv32)
    requires x != 0
    ensures x ^ (x << 13) != 0
  {}

  lemma KeepNonZeroShr17(x: bv32)
    requires x != 0
    ensures x ^ (x >> 17) != 0
  {}

  lemma KeepNonZeroShl5(x: bv32)
    requires x != 0
    ensures x ^ (x << 5) != 0
  {}

  /** A stream that starts non-zero never reaches the stuck state 0. */
  lemma XorshiftNonZero(x: bv32)
    requires x != 0
    ensures Xorshift32(x) != 0
  {
    KeepNonZeroShl13(x);
    KeepNonZeroShr17(XorShl13(x));
    KeepNonZeroShl5(XorShr17(XorShl13(x)));
  }

  /** NextU32: advance once and return the new state. */
  function DrawU32(s: bv32): (d: Draw<bv32>)
    ensures d.value == d.state
    ensures s != 0 ==> d.state != 0
  {
    var x := Xorshift32(s);
    assert s != 0 ==> x != 0 by {
      if s != 0 { XorshiftNonZero(s); }
    }
    Draw(x, x)
  }

  /** The number the low 8 bits of x stand for, bit by bit. */
  function ByteValue(x: bv32): (k: nat)
    ensures k < 0x100
  {
    (if x & 0x01 != 0 then 0x01 else 0) + (if x & 0x02 != 0 then 0x02 else 0) +
    (if x & 0x04 != 0 then 0x04 else 0) + (if x & 0x08 != 0 then 0x08 else 0) +
    (if x & 0x10 != 0 then 0x10 else 0) + (if x & 0x20 != 0 then 0x20 else 0) +
    (if x & 0x40 != 0 then 0x40 else 0) + (if x & 0x80 != 0 then 0x80 else 0)
  }

  /** x & 0xFFFFFF read as a number, byte by byte. */
  function Low24(x: bv32): (k: nat)
    ensures k < 0x100_0000
  {
    ByteValue(x) + 0x100 * ByteValue(x >> 8) + 0x1_0000 * ByteValue(x >> 16)
  }

  /** The low 24 bits of x as a fraction of 2^24. */
  function Unit24(x: bv32): (f: real)
    ensures 0.0 <= f < 1.0
  {
    Low24(x) as real / 16777216.0
  }

  /** Next01: one draw scaled into [0,1). */
  function Draw01(s: bv32): (d: Draw<real>)
    ensures 0.0 <= d.value < 1.0
    ensures d.state == Xorshift32(s)
    ensures d.value == Unit24(d.state)
  {
    var x := DrawU32(s);
    Draw(Unit24(x.value), x.state)
  }

  /** Tri01: the mean of two consecutive Next01 draws (a triangular distribution). */
  function DrawTri01(s: bv32): (d: Draw<real>)
    ensures 0.0 <= d.value < 1.0
    ensures d.state == Xorshift32(Xorshift32(s))
    ensures d.value * 2.0 == Draw01(s).value + Draw01(Xorshift32(s)).value
  {
    var a := Draw01(s);
    var b := Draw01(a.state);
    Draw((a.value + b.value) * 0.5, b.state)
  }

  /** A uint read as a number. */
  function Unsigned(x: bv32): (k: nat)
    ensures k < 0x1_0000_0000
  {
    Low24(x) + 0x100_0000 * ByteValue(x >> 24)
  }

  /** NextInt(min, max): min without a draw when the range is empty, otherwise
      min + (x mod (max - min)) for one fresh x. The source computes max - min in
      wrapping int32 arithmetic and casts it to uint, which recovers the exact
      difference, and forms the sum in 64 bits, so no wrap-around reaches the result. */
  function DrawInt(s: bv32, lo: Int32, hi: Int32): (d: Draw<Int32>)
    ensures hi <= lo ==> d == Draw(lo, s)
    ensures lo < hi ==> lo <= d.value < hi && d.state == Xorshift32(s)
  {
    if hi <= lo then Draw(lo, s)
    else
      var range := hi - lo;
      var x := DrawU32(s);
      Draw(lo + Unsigned(x.value) % range, x.state)
  }

  /** HashCombine: a fixed 32-bit mixer used to derive sub-seeds. */
  function HashCombine(a: bv32, b: bv32): bv32
  {
    var x0 := a + 0x9E3779B9 + (b << 6) + (b >> 2);
    var x1 := x0 ^ (x0 >> 16);
    var x2 := x1 * 0x7FEB352D;
    var x3 := x2 ^ (x2 >> 15);
    var x4 := x3 * 0x846CA68B;
    x4 ^ (x4 >> 16)
  }

  /** The mixer is order-sensitive. */
  lemma HashCombineNotSymmetric()
    ensures HashCombine(0, 1) != HashCombine(1, 0)
  {
    assert HashCombine(0, 1) == 0x77307690;
    assert HashCombine(1, 0) == 0x9F505634;
  }

  /** A seed of 0 yields the same stream as the fallback constant; the first five
      Next01 draws from seed 1 are the fixed values below. */
  lemma Next01Golden()
    ensures InitialState(0) == InitialState(FallbackState)
    ensures var s0 := InitialState(1);
            var d1 := Draw01(s0); var d2 := Draw01(d1.state); var d3 := Draw01(d2.state);
            var d4 := Draw01(d3.state); var d5 := Draw01(d4.state);
            && d1.value == 270369.0 / 16777216.0
            && d2.value == 525825.0 / 16777216.0
            && d3.value == 13412549.0 / 16777216.0
            && d4.value == 5609807.0 / 16777216.0
            && d5.value == 16324561.0 / 16777216.0
  {
    assert Xorshift32(1) == 0x42021;
    assert Xorshift32(0x42021) == 0x4080601;
    assert Xorshift32(0x4080601) == 0x9DCCA8C5;
    assert Xorshift32(0x9DCCA8C5) == 0x1255994F;
    assert Xorshift32(0x1255994F) == 0x8EF917D1;
  }

  const FnvOffsetBasis: bv32 := 2166136261
  const FnvPrime: bv32 := 16777619

  /** One FNV-1a round on a UTF-16 code unit. */
  function FnvStep(h: bv32, c: bv16): bv32
  {
    (h ^ (c as bv32)) * FnvPrime
  }

  /** FNV-1a rounds over the code units of s, starting from h. */
  function FnvFold(h: bv32, s: seq<bv16>): bv32
    decreases |s|
  {
    if s == [] then h else FnvFold(FnvStep(h, s[0]), s[1..])
  }

  /** Hashing may be done in pieces: the hash of s + t continues from the hash of s. */
  lemma {:induction false} FnvFoldAppend(h: bv32, s: seq<bv16>, t: seq<bv16>)
    ensures FnvFold(h, s + t) == FnvFold(FnvFold(h, s), t)
    decreases |s|
  {
    if s != [] {
      assert (s + t)[1..] == s[1..] + t;
      FnvFoldAppend(FnvStep(h, s[0]), s[1..], t);
    } else {
      assert s + t == t;
    }
  }

  /** The last code unit hashed is the last round applied. */
  lemma FnvFoldSnoc(h: bv32, s: seq<bv16>, c: bv16)
    ensures FnvFold(h, s + [c]) == FnvStep(FnvFold(h, s), c)
  {
    FnvFoldAppend(h, s, [c]);
    assert FnvFold(FnvFold(h, s), [c]) == FnvFold(FnvStep(FnvFold(h, s), c), []);
  }

  /** HashStringToU32: 0 for a null or empty string, otherwise 32-bit FNV-1a
      over the string's UTF-16 code units. */
  function HashString(s: Option<seq<bv16>>): (h: bv32)
    ensures s.None? || s.value == [] ==> h == 0
    ensures s.Some? && s.value != [] ==>
              var u := s.value;
              h == FnvStep(FnvFold(FnvOffsetBasis, u[..|u| - 1]), u[|u| - 1])
  {
    match s
    case None => 0
    case Some(units) =>
      if units == [] then 0
      else
        var n := |units| - 1;
        assert units == units[..n] + [units[n]];
        FnvFoldSnoc(FnvOffsetBasis, units[..n], units[n]);
        FnvFold(FnvOffsetBasis, units)
  }

  /** The loop of HashStringToU32. */
  method HashStringToU32(s: Option<seq<bv16>>) returns (h: bv32)
    ensures h == HashString(s)
  {
    if s == None || s.value == [] {
      return 0;
    }
    var units := s.value;
    h := FnvOffsetBasis;
    var i := 0;
    while i < |units|
      invariant 0 <= i <= |units|
      invariant h == FnvFold(FnvOffsetBasis, units[..i])
    {
      FnvFoldSnoc(FnvOffsetBasis, units[..i], units[i]);
      assert units[..i + 1] == units[..i] + [units[i]];
      h := FnvStep(h, units[i]);
      i := i + 1;
    }
    assert units[..i] == units;
  }

  /** The C# struct; `ref rng` parameters become references to one of these. */
  class DeterministicRng {
    var state: bv32

    constructor (seed: bv32)
      ensures state == InitialState(seed)
    {
      state := if seed != 0 then seed else 0xA341316C;
    }

    method NextU32() returns (x: bv32)
      modifies this
      ensures x == DrawU32(old(state)).value && state == DrawU32(old(state)).state
    {
      x := state;
      x := XorShl13(x);
      x := XorShr17(x);
      x := XorShl5(x);
      state := x;
    }

    method Next01() returns (f: real)
      modifies this
      ensures f == Draw01(old(state)).value && state == Draw01(old(state)).state
    {
      var x := NextU32();
      f := Unit24(x);
    }

    method Tri01() returns (f: real)
      modifies this
      ensures f == DrawTri01(old(state)).value && state == DrawTri01(old(state)).state
    {
      var a := Next01();
      var b := Next01();
      f := (a + b) * 0.5;
    }

    method NextInt(minInclusive: Int32, maxExclusive: Int32) returns (k: Int32)
      modifies this
      ensures k == DrawInt(old(state), minInclusive, maxExclusive).value && state == DrawInt(old(state), minInclusive, maxExclusive).state
    {
      if maxExclusive <= minInclusive {
        return minInclusive;
      }
      // (uint)(max - min) is the exact difference, which lies in (0, 2^32).
      var range := maxExclusive - minInclusive;
      var x := NextU32();
      k := minInclusive + Unsigned(x) % range;
    }
  }
}
