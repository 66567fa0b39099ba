/** Assets/Runtime/Propulsion/NozzleSpec.cs and the spec hash of
    Assets/Runtime/Propulsion/Generation/NozzleGeneratorV0.cs: the unchecked
    int fold h = h * 31 + x over the quantised fields, printed as X8. */
module NozzleSpecHash {
  import Mathf
  import opened Int32s

  /** The fields of the NozzleSpec asset the generator reads; `name` is the
      asset's object name. */
  datatype NozzleSpec = NozzleSpec(
    name: string,
    seed: Int32,
    thrust: real,
    length: real,
    throatRadius: real,
    exitRadius: real,
    radialSegments: Int32,
    flareJitter: real,
    axialProfileSamples: Int32,
    throatCurvatureFactor: real)

  /** The field initialisers of a NozzleSpec asset (named after the asset menu's file name). */
  const DefaultSpec := NozzleSpec("NozzleSpec", 0, 100.0, 1.0, 0.1, 0.3, 32, 0.0, 48, 0.5)

  // ---------------------------------------------------------------------------
  // The spec hash

  /** FloatHash: the value in units of 1e-4, rounded half to even. */
  function FloatHash(x: real): (h: int)
    ensures -0.5 <= h as real - x * 10000.0 <= 0.5
  {
    Mathf.RoundToInt(x * 10000.0)
  }

  /** Quantisation keeps order: a larger field never hashes to a smaller word. */
  lemma FloatHashMonotone(x: real, y: real)
    requires x <= y
    ensures FloatHash(x) <= FloatHash(y)
  {
    Mathf.RoundToIntMonotone(x * 10000.0, y * 10000.0);
  }

  /** A value on the 1e-4 grid hashes to its grid index. */
  lemma FloatHashOnGrid(n: int)
    ensures FloatHash(n as real / 10000.0) == n
  {
    assert n as real / 10000.0 * 10000.0 == n as real;
    Mathf.RoundToIntOfInt(n);
  }

  /** The nine words folded into the hash, in source order. */
  function HashWords(s: NozzleSpec): (ws: seq<int>)
    ensures |ws| == 9
  {
    [s.seed as int, FloatHash(s.thrust), FloatHash(s.length), FloatHash(s.throatRadius),
     FloatHash(s.exitRadius), s.radialSegments as int, s.axialProfileSamples as int,
     FloatHash(s.throatCurvatureFactor), FloatHash(s.flareJitter)]
  }

  /** One unchecked update h = h * 31 + x. */
  function HashStep(h: Int32, x: int): Int32
  {
    Wrap(h * 31 + x)
  }

  /** The updates over ws, from h. */
  function Fold(h: Int32, ws: seq<int>): Int32
  {
    if ws == [] then h else HashStep(Fold(h, ws[..|ws| - 1]), ws[|ws| - 1])
  }

  /** The same polynomial in exact integers: h * 31^n + ws[0] * 31^(n-1) + ... + ws[n-1]. */
  function Poly(h: int, ws: seq<int>): int
  {
    if ws == [] then h else Poly(h, ws[..|ws| - 1]) * 31 + ws[|ws| - 1]
  }

  /** The wrapped hash, as an Int32. */
  function SpecHashValue(s: NozzleSpec): Int32
  {
    Fold(17, HashWords(s))
  }

  lemma CongruentStep(a: int, b: int, x: int)
    requires (a - b) % Modulus == 0
    ensures (a * 31 + x - (b * 31 + x)) % Modulus == 0
  {
    var k := (a - b) / Modulus;
    assert a - b == k * Modulus;
    assert a * 31 + x - (b * 31 + x) == (31 * k) * Modulus;
  }

  /** Wrapping after every step is wrapping once at the end: the unchecked
      fold is the exact polynomial reduced to an Int32. */
  lemma {:induction false} FoldIsWrappedPoly(h: Int32, ws: seq<int>)
    ensures Fold(h, ws) == Wrap(Poly(h, ws))
    ensures (Fold(h, ws) - Poly(h, ws)) % Modulus == 0
  {
    if ws != [] {
      var init, x := ws[..|ws| - 1], ws[|ws| - 1];
      FoldIsWrappedPoly(h, init);
      var f := Fold(h, init);
      var p := Poly(h, init);
      CongruentStep(f, p, x);
      WrapCongruent(f * 31 + x, p * 31 + x);
      assert (Fold(h, ws) - Poly(h, ws)) % Modulus == 0 by {
        assert ((f * 31 + x) - Wrap(f * 31 + x)) % Modulus == 0;
        SumOfMultiples(f * 31 + x - Wrap(f * 31 + x), f * 31 + x - (p * 31 + x));
      }
    } else {
      assert Fold(h, ws) == Wrap(Poly(h, ws));
    }
  }

  lemma SumOfMultiples(a: int, b: int)
    requires a % Modulus == 0 && b % Modulus == 0
    ensures (b - a) % Modulus == 0
  {
    var i, j := a / Modulus, b / Modulus;
    assert b - a == (j - i) * Modulus;
  }

  /** 31 is invertible modulo 2^32: 31 * 3186588639 == 1 + 23 * 2^32. */
  const Inverse31: int := 3186588639

  /** Each update is a bijection of the running hash: two states that give
      the same next state were the same. */
  lemma StepInjective(a: Int32, b: Int32, x: int)
    requires HashStep(a, x) == HashStep(b, x)
    ensures a == b
  {
    var d := a - b;
    assert (d * 31) % Modulus == 0 by {
      assert ((a * 31 + x) - HashStep(a, x)) % Modulus == 0;
      assert ((b * 31 + x) - HashStep(b, x)) % Modulus == 0;
      SumOfMultiples((b * 31 + x) - HashStep(b, x), (a * 31 + x) - HashStep(a, x));
      assert (a * 31 + x) - HashStep(a, x) - ((b * 31 + x) - HashStep(b, x)) == d * 31;
    }
    var k := (d * 31) / Modulus;
    assert d * 31 == k * Modulus;
    assert d == (k * Inverse31 - 23 * d) * Modulus by {
      assert 31 * Inverse31 == 1 + 23 * Modulus;
      assert d * (1 + 23 * Modulus) == k * Modulus * Inverse31;
    }
    SmallMultiple(d, k * Inverse31 - 23 * d);
  }

  lemma SmallMultiple(d: int, m: int)
    requires -Modulus < d < Modulus && d == m * Modulus
    ensures d == 0
  {}

  /** Each update is also a bijection of the incoming word, modulo 2^32. */
  lemma StepSeparatesWords(h: Int32, x: int, y: int)
    requires (x - y) % Modulus != 0
    ensures HashStep(h, x) != HashStep(h, y)
  {
    if HashStep(h, x) == HashStep(h, y) {
      assert ((h * 31 + x) - HashStep(h, x)) % Modulus == 0;
      assert ((h * 31 + y) - HashStep(h, y)) % Modulus == 0;
      SumOfMultiples((h * 31 + y) - HashStep(h, y), (h * 31 + x) - HashStep(h, x));
      assert false;
    }
  }

  /** Changing a single word (modulo 2^32) always changes the hash: the fold
      detects every one-field edit that survives quantisation. */
  lemma {:induction false} SingleEditChangesFold(h: Int32, xs: seq<int>, ys: seq<int>, i: nat)
    requires |xs| == |ys| && i < |xs|
    requires forall j :: 0 <= j < |xs| && j != i ==> xs[j] == ys[j]
    requires (xs[i] - ys[i]) % Modulus != 0
    ensures Fold(h, xs) != Fold(h, ys)
  {
    var n := |xs| - 1;
    if i == n {
      assert xs[..n] == ys[..n];
      StepSeparatesWords(Fold(h, xs[..n]), xs[n], ys[n]);
    } else {
      SingleEditChangesFold(h, xs[..n], ys[..n], i);
      if Fold(h, xs) == Fold(h, ys) {
        StepInjective(Fold(h, xs[..n]), Fold(h, ys[..n]), xs[n]);
        assert false;
      }
    }
  }

  // ---------------------------------------------------------------------------
  // The X8 format

  /** An upper-case hex digit, as X8 prints them. */
  predicate IsHexDigit(c: char)
  {
    '0' <= c <= '9' || 'A' <= c <= 'F'
  }

  function HexChar(d: nat): (c: char)
    requires d < 16
    ensures IsHexDigit(c)
  {
    if d < 10 then ('0' as int + d) as char else ('A' as int + d - 10) as char
  }

  /** The value of an upper-case hex digit. */
  function HexValue(c: char): (d: nat)
    ensures d < 16
  {
    if '0' <= c <= '9' then (c as int - '0' as int)
    else if 'A' <= c <= 'F' then (c as int - 'A' as int) + 10
    else 0
  }

  /** Reading a digit back gives its value. */
  lemma HexValueOfChar(d: nat)
    requires d < 16
    ensures HexValue(HexChar(d)) == d
  {}

  function Pow16(n: nat): (p: nat)
    ensures p > 0
  {
    if n == 0 then 1 else 16 * Pow16(n - 1)
  }

  /** The low n hex digits of u, most significant first. */
  function HexDigits(u: nat, n: nat): (s: string)
    ensures |s| == n
    ensures forall i :: 0 <= i < |s| ==> IsHexDigit(s[i])
  {
    if n == 0 then [] else HexDigits(u / 16, n - 1) + [HexChar(u % 16)]
  }

  /** Reads a string of hex digits back as a number. */
  function ParseHex(s: string): nat
  {
    if s == [] then 0 else ParseHex(s[..|s| - 1]) * 16 + HexValue(s[|s| - 1])
  }

  /** h.ToString("X8"): the Int32's bit pattern as eight upper-case hex digits. */
  function Hex8(h: Int32): (s: string)
    ensures |s| == 8
    ensures forall i :: 0 <= i < |s| ==> IsHexDigit(s[i])
  {
    HexDigits(AsUInt32(h), 8)
  }

  /** A positive multiple strictly inside (-m, m) is zero. */
  lemma ZeroMultiple(k: int, m: int)
    requires m > 0 && -m < k * m < m
    ensures k == 0
  {}

  /** The remainder is the c of any decomposition u = m * a + c with 0 <= c < m. */
  lemma ModOfDecomposition(u: int, m: int, a: int, c: int)
    requires m > 0 && 0 <= c < m && u == m * a + c
    ensures u % m == c
  {
    var q, r := u / m, u % m;
    assert u == m * q + r;
    assert m * (a - q) == r - c by {
      assert m * (a - q) == m * a - m * q;
    }
    ZeroMultiple(a - q, m);
  }

  lemma DivModSplit(u: nat, p: nat)
    requires p > 0
    ensures (u / 16) % p * 16 + u % 16 == u % (16 * p)
  {
    var q, r := u / 16, u % 16;
    var a, b := q / p, q % p;
    assert u == (16 * p) * a + (16 * b + r) by {
      assert q == p * a + b;
      assert u == 16 * q + r;
      assert 16 * (p * a) == (16 * p) * a;
    }
    assert 16 * b + r < 16 * p by {
      assert b <= p - 1;
      assert 16 * b <= 16 * p - 16;
    }
    ModOfDecomposition(u, 16 * p, a, 16 * b + r);
  }

  /** Parsing the n digits gives back u modulo 16^n. */
  lemma {:induction false} ParseHexDigits(u: nat, n: nat)
    ensures ParseHex(HexDigits(u, n)) == u % Pow16(n)
  {
    if n > 0 {
      var s := HexDigits(u, n);
      var t := HexDigits(u / 16, n - 1);
      assert s == t + [HexChar(u % 16)];
      assert s[..n - 1] == t;
      ParseHexDigits(u / 16, n - 1);
      HexValueOfChar(u % 16);
      assert ParseHex(s) == (u / 16) % Pow16(n - 1) * 16 + u % 16;
      DivModSplit(u, Pow16(n - 1));
    }
  }

  /** X8 is lossless: the eight digits read back as the Int32's bit pattern,
      so two different hashes never print alike. */
  lemma Hex8RoundTrip(h: Int32)
    ensures ParseHex(Hex8(h)) == AsUInt32(h)
  {
    ParseHexDigits(AsUInt32(h), 8);
    assert Pow16(8) == Modulus;
    ModOfDecomposition(AsUInt32(h), Modulus, 0, AsUInt32(h));
  }

  lemma Hex8Injective(a: Int32, b: Int32)
    requires Hex8(a) == Hex8(b)
    ensures a == b
  {
    Hex8RoundTrip(a);
    Hex8RoundTrip(b);
  }

  /** The printed spec hash. */
  function SpecHash(s: NozzleSpec): (hex: string)
    ensures |hex| == 8
  {
    Hex8(SpecHashValue(s))
  }

  /** Appending one word is one more update. */
  lemma FoldSnoc(h: Int32, ws: seq<int>, x: int)
    ensures Fold(h, ws + [x]) == HashStep(Fold(h, ws), x)
  {
    assert (ws + [x])[..|ws|] == ws;
  }

  /** ComputeSpecHash: the nine unchecked updates in source order. */
  method ComputeSpecHash(s: NozzleSpec) returns (hex: string)
    ensures hex == SpecHash(s)
  {
    var h: Int32 := 17;
    ghost var done: seq<int> := [];
    h := HashStep(h, s.seed as int);
    FoldSnoc(17, done, s.seed as int);
    done := done + [s.seed as int];
    h := HashStep(h, FloatHash(s.thrust));
    FoldSnoc(17, done, FloatHash(s.thrust));
    done := done + [FloatHash(s.thrust)];
    h := HashStep(h, FloatHash(s.length));
    FoldSnoc(17, done, FloatHash(s.length));
    done := done + [FloatHash(s.length)];
    h := HashStep(h, FloatHash(s.throatRadius));
    FoldSnoc(17, done, FloatHash(s.throatRadius));
    done := done + [FloatHash(s.throatRadius)];
    h := HashStep(h, FloatHash(s.exitRadius));
    FoldSnoc(17, done, FloatHash(s.exitRadius));
    done := done + [FloatHash(s.exitRadius)];
    h := HashStep(h, s.radialSegments as int);
    FoldSnoc(17, done, s.radialSegments as int);
    done := done + [s.radialSegments as int];
    h := HashStep(h, s.axialProfileSamples as int);
    FoldSnoc(17, done, s.axialProfileSamples as int);
    done := done + [s.axialProfileSamples as int];
    h := HashStep(h, FloatHash(s.throatCurvatureFactor));
    FoldSnoc(17, done, FloatHash(s.throatCurvatureFactor));
    done := done + [FloatHash(s.throatCurvatureFactor)];
    h := HashStep(h, FloatHash(s.flareJitter));
    FoldSnoc(17, done, FloatHash(s.flareJitter));
    done := done + [FloatHash(s.flareJitter)];
    assert done == HashWords(s);
    hex := Hex8(h);
  }

  /** Printed, the unchecked fold is the exact polynomial of the words modulo 2^32. */
  lemma FoldPrintsPoly(h0: Int32, ws: seq<int>)
    ensures ParseHex(Hex8(Fold(h0, ws))) == Poly(h0, ws) % Modulus
  {
    var h := Fold(h0, ws);
    Hex8RoundTrip(h);
    FoldIsWrappedPoly(h0, ws);
    var u := AsUInt32(h);
    var p := Poly(h0, ws);
    assert (p - u) % Modulus == 0 by {
      SumOfMultiples(h - p, h - u);
    }
    var k := (p - u) / Modulus;
    assert p == Modulus * k + u;
    ModOfDecomposition(p, Modulus, k, u);
  }

  /** The printed spec hash is the exact polynomial of the nine words modulo 2^32. */
  lemma SpecHashIsPolynomial(s: NozzleSpec)
    ensures ParseHex(SpecHash(s)) == Poly(17, HashWords(s)) % Modulus
  {
    FoldPrintsPoly(17, HashWords(s));
  }

  /** Editing the seed changes the printed hash. */
  lemma SeedEditChangesHash(s: NozzleSpec, seed: Int32)
    requires seed != s.seed
    ensures SpecHash(s.(seed := seed)) != SpecHash(s)
  {
    var t := s.(seed := seed);
    SingleEditChangesFold(17, HashWords(t), HashWords(s), 0);
    if SpecHash(t) == SpecHash(s) {
      Hex8Injective(SpecHashValue(t), SpecHashValue(s));
    }
  }

  /** Editing the thrust so that it lands on another 1e-4 step changes the
      printed hash (within the Int32 range of the quantised value). */
  lemma ThrustEditChangesHash(s: NozzleSpec, thrust: real)
    requires FloatHash(thrust) != FloatHash(s.thrust)
    requires -0x8000_0000 <= FloatHash(thrust) < 0x8000_0000 && -0x8000_0000 <= FloatHash(s.thrust) < 0x8000_0000
    ensures SpecHash(s.(thrust := thrust)) != SpecHash(s)
  {
    var t := s.(thrust := thrust);
    SingleEditChangesFold(17, HashWords(t), HashWords(s), 1);
    if SpecHash(t) == SpecHash(s) {
      Hex8Injective(SpecHashValue(t), SpecHashValue(s));
    }
  }

  /** The words of the asset defaults. */
  lemma DefaultWords()
    ensures HashWords(DefaultSpec) == [0, 1000000, 10000, 1000, 3000, 32, 48, 5000, 0]
  {
    FloatHashOnGrid(1000000);
    FloatHashOnGrid(10000);
    FloatHashOnGrid(1000);
    FloatHashOnGrid(3000);
    FloatHashOnGrid(5000);
    FloatHashOnGrid(0);
  }

  /** An update whose exact value is q * 2^32 + r, r an Int32, gives r. */
  lemma StepBy(h: Int32, x: int, q: int, r: Int32)
    requires h * 31 + x == q * Modulus + r
    ensures HashStep(h, x) == r
  {
    if r >= 0 {
      ModOfDecomposition(h * 31 + x, Modulus, q, r);
    } else {
      ModOfDecomposition(h * 31 + x, Modulus, q - 1, r + Modulus);
    }
  }

  /** The nine updates on the default words, step by step. */
  lemma DefaultFold()
    ensures Fold(17, [0, 1000000, 10000, 1000, 3000, 32, 48, 5000, 0]) == -1864626633
  {
    FoldSnoc(17, [], 0);
    StepBy(17, 0, 0, 527);
    assert [] + [0] == [0];
    FoldSnoc(17, [0], 1000000);
    StepBy(527, 1000000, 0, 1016337);
    assert [0] + [1000000] == [0, 1000000];
    FoldSnoc(17, [0, 1000000], 10000);
    StepBy(1016337, 10000, 0, 31516447);
    assert [0, 1000000] + [10000] == [0, 1000000, 10000];
    FoldSnoc(17, [0, 1000000, 10000], 1000);
    StepBy(31516447, 1000, 0, 977010857);
    assert [0, 1000000, 10000] + [1000] == [0, 1000000, 10000, 1000];
    FoldSnoc(17, [0, 1000000, 10000, 1000], 3000);
    StepBy(977010857, 3000, 7, 222568495);
    assert [0, 1000000, 10000, 1000] + [3000] == [0, 1000000, 10000, 1000, 3000];
    FoldSnoc(17, [0, 1000000, 10000, 1000, 3000], 32);
    StepBy(222568495, 32, 2, -1690311215);
    assert [0, 1000000, 10000, 1000, 3000] + [32] == [0, 1000000, 10000, 1000, 3000, 32];
    FoldSnoc(17, [0, 1000000, 10000, 1000, 3000, 32], 48);
    StepBy(-1690311215, 48, -12, -860040065);
    assert [0, 1000000, 10000, 1000, 3000, 32] + [48] == [0, 1000000, 10000, 1000, 3000, 32, 48];
    FoldSnoc(17, [0, 1000000, 10000, 1000, 3000, 32, 48], 5000);
    StepBy(-860040065, 5000, -6, -891433239);
    assert [0, 1000000, 10000, 1000, 3000, 32, 48] + [5000] == [0, 1000000, 10000, 1000, 3000, 32, 48, 5000];
    FoldSnoc(17, [0, 1000000, 10000, 1000, 3000, 32, 48, 5000], 0);
    StepBy(-891433239, 0, -6, -1864626633);
    assert [0, 1000000, 10000, 1000, 3000, 32, 48, 5000] + [0] == [0, 1000000, 10000, 1000, 3000, 32, 48, 5000, 0];
  }

  /** The default fold's value prints as 90DC0E37, digit by digit. */
  lemma DefaultHex()
    ensures Hex8(-1864626633) == "90DC0E37"
  {
    assert AsUInt32(-1864626633) == 0x90DC0E37;
    assert HexDigits(0x9, 1) == "9";
    assert HexDigits(0x90, 2) == "90";
    assert HexDigits(0x90D, 3) == "90D";
    assert HexDigits(0x90DC, 4) == "90DC";
    assert HexDigits(0x90DC0, 5) == "90DC0";
    assert HexDigits(0x90DC0E, 6) == "90DC0E";
    assert HexDigits(0x90DC0E3, 7) == "90DC0E3";
    assert HexDigits(0x90DC0E37, 8) == "90DC0E37";
  }

  /** The asset defaults hash to 90DC0E37. */
  lemma DefaultSpecHash()
    ensures SpecHash(DefaultSpec) == "90DC0E37"
  {
    DefaultWords();
    DefaultFold();
    DefaultHex();
  }
}
