/** Assets/Runtime/Propulsion/Generation/NozzleProfileSamplerV0.cs: the axial
    (z, r) profile of a nozzle. A smoothstep throat blend, a linear diverging
    cone, optional jitter near the exit, then a pass that keeps z monotone and
    radii non-negative. System.Random is modelled by the stream of NextDouble
    values it yields for a seed. */
module NozzleProfile {
  import Mathf
  import opened Int32s

  /** A Vector2 of the profile: x is the axial position z, y the radius r. */
  datatype Point2 = Point2(z: real, r: real)

  /** Profile2D; a null point list reads like an empty one. */
  datatype Profile2D = Profile2D(zr: seq<Point2>)

  /** Profile2D.Length: the last point's z, or 0 for an empty profile. */
  function Length(p: Profile2D): real
  {
    if |p.zr| == 0 then 0.0 else p.zr[|p.zr| - 1].z
  }

  /** What NextDouble can return. */
  type UnitInterval = x: real | 0.0 <= x < 1.0

  /** System.Random: the k-th NextDouble of the seeded stream is draws(k). */
  class SystemRandom {
    const draws: nat -> UnitInterval
    var taken: nat

    constructor (draws: nat -> UnitInterval)
      ensures this.draws == draws && taken == 0
    {
      this.draws := draws;
      taken := 0;
    }

    method NextDouble() returns (x: UnitInterval)
      modifies this
      ensures x == draws(old(taken)) && taken == old(taken) + 1
    {
      x := draws(taken);
      taken := taken + 1;
    }
  }

  // ---------------------------------------------------------------------------
  // Inputs after the defensive clamps

  datatype SamplerInputs = SamplerInputs(length: real, throatRadius: real, exitRadius: real,
                                         samples: int, curvature: real, jitter: real)

  predicate ValidInputs(p: SamplerInputs)
  {
    && p.length >= 0.01 && p.throatRadius >= 0.001 && p.exitRadius >= p.throatRadius
    && p.samples >= 2 && 0.0 <= p.curvature <= 1.0 && 0.0 <= p.jitter <= 1.0
  }

  /** The defensive clamps at the top of Sample. */
  function ClampInputs(length: real, throatRadius: real, exitRadius: real, axialSamples: Int32,
                       throatCurvatureFactor: real, flareJitter: real): (p: SamplerInputs)
    ensures ValidInputs(p)
    ensures length >= 0.01 ==> p.length == length
    ensures throatRadius >= 0.001 ==> p.throatRadius == throatRadius
    ensures exitRadius >= p.throatRadius ==> p.exitRadius == exitRadius
    ensures axialSamples >= 2 ==> p.samples == axialSamples as int
    ensures 0.0 <= throatCurvatureFactor <= 1.0 ==> p.curvature == throatCurvatureFactor
    ensures 0.0 <= flareJitter <= 1.0 ==> p.jitter == flareJitter
  {
    var tr := Mathf.Max(0.001, throatRadius);
    SamplerInputs(Mathf.Max(0.01, length), tr, Mathf.Max(tr, exitRadius), Mathf.MaxInt(2, axialSamples),
                  Mathf.Clamp01(throatCurvatureFactor), Mathf.Clamp01(flareJitter))
  }

  // ---------------------------------------------------------------------------
  // Shape primitives

  /** SmoothStep: 3x^2 - 2x^3 on x clamped to [0,1]. */
  function SmoothStep(x: real): (s: real)
    ensures 0.0 <= s <= 1.0
    ensures x <= 0.0 ==> s == 0.0
    ensures x >= 1.0 ==> s == 1.0
  {
    var c := Mathf.Clamp01(x);
    SmoothStepBounds(c);
    c * c * (3.0 - 2.0 * c)
  }

  lemma SmoothStepBounds(c: real)
    requires 0.0 <= c <= 1.0
    ensures 0.0 <= c * c * (3.0 - 2.0 * c) <= 1.0
  {
    Mathf.MulNonNegative(c, c);
    Mathf.MulNonNegative(c * c, 3.0 - 2.0 * c);
    assert 1.0 - c * c * (3.0 - 2.0 * c) == (1.0 - c) * (1.0 - c) * (1.0 + 2.0 * c);
    Mathf.MulNonNegative(1.0 - c, 1.0 - c);
    Mathf.MulNonNegative((1.0 - c) * (1.0 - c), 1.0 + 2.0 * c);
  }

  /** The radius the throat blend reaches: between the throat radius and
      min(exitRadius, 1.25 * throatRadius). */
  function RadiusAtBlend(throatRadius: real, exitRadius: real, throatCurvatureFactor: real): (r: real)
    requires 0.0 <= throatRadius <= exitRadius
    ensures throatRadius <= r <= exitRadius && r <= throatRadius * 1.25
  {
    Mathf.Lerp(throatRadius, Mathf.Min(exitRadius, throatRadius * 1.25), Mathf.Clamp01(throatCurvatureFactor))
  }

  /** a / b for 0 <= a <= b: a fraction in [0,1]. */
  function Fraction(a: real, b: real): (f: real)
    requires 0.0 < b
    ensures 0.0 <= a <= b ==> 0.0 <= f <= 1.0
    ensures a == b ==> f == 1.0
    ensures a == 0.0 ==> f == 0.0
  {
    a / b
  }

  /** z of sample i: (i / (n - 1)) * length. With n >= 2 after the clamp,
      the source's n == 1 arm is never taken. */
  function AxialZ(i: nat, n: int, length: real): (z: real)
    requires i < n && n >= 2 && length > 0.0
    ensures 0.0 <= z <= length
    ensures i == 0 ==> z == 0.0
    ensures i == n - 1 ==> z == length
  {
    var t := Fraction(i as real, (n - 1) as real);
    Mathf.Scale(length, t)
  }

  lemma AxialZMonotone(i: nat, j: nat, n: int, length: real)
    requires i <= j < n && n >= 2 && length > 0.0
    ensures AxialZ(i, n, length) <= AxialZ(j, n, length)
  {
    var d := (n - 1) as real;
    var ti := Fraction(i as real, d);
    var tj := Fraction(j as real, d);
    assert ti <= tj by {
      DivMonotone(i as real, j as real, d);
    }
    Mathf.MulNonNegative(length, tj - ti);
  }

  lemma DivMonotone(a: real, b: real, d: real)
    requires a <= b && 0.0 < d
    ensures a / d <= b / d
  {
    assert b / d - a / d == (b - a) / d;
  }

  lemma MulPositive(x: real, y: real)
    requires 0.0 < x && 0.0 < y
    ensures 0.0 < x * y
  {}

  /** zBlend = length * blendFrac, strictly inside (0, length). */
  function BlendZ(p: SamplerInputs): (zb: real)
    requires ValidInputs(p)
    ensures 0.0 < zb < p.length
  {
    var frac := Mathf.Lerp(0.05, 0.25, p.curvature);
    MulPositive(p.length, frac);
    MulPositive(p.length, 1.0 - frac);
    p.length * frac
  }

  /** The target the throat region expands toward. */
  function PreDivergeTarget(p: SamplerInputs): (r: real)
    requires ValidInputs(p)
    ensures r == RadiusAtBlend(p.throatRadius, p.exitRadius, p.curvature)
  {
    Mathf.Lerp(p.throatRadius, Mathf.Min(p.exitRadius, p.throatRadius * 1.25), p.curvature)
  }

  /** The radius at z in the throat region z <= zBlend. */
  function ThroatRadiusAt(p: SamplerInputs, z: real): (r: real)
    requires ValidInputs(p) && 0.0 <= z <= BlendZ(p)
    ensures p.throatRadius <= r <= PreDivergeTarget(p)
  {
    var eased := SmoothStep(Fraction(z, BlendZ(p)));
    Mathf.Lerp(p.throatRadius, PreDivergeTarget(p), eased)
  }

  /** u of the diverging region: 0 at zBlend, 1 at the exit. */
  function DivergeU(p: SamplerInputs, z: real): (u: real)
    requires ValidInputs(p) && BlendZ(p) <= z <= p.length
    ensures 0.0 <= u <= 1.0
    ensures z == p.length ==> u == 1.0
    ensures z == BlendZ(p) ==> u == 0.0
  {
    Fraction(z - BlendZ(p), p.length - BlendZ(p))
  }

  /** The conical radius at z, before jitter. */
  function ConeRadiusAt(p: SamplerInputs, z: real): (r: real)
    requires ValidInputs(p) && BlendZ(p) <= z <= p.length
    ensures p.throatRadius <= r <= p.exitRadius
  {
    Mathf.Lerp(RadiusAtBlend(p.throatRadius, p.exitRadius, p.curvature), p.exitRadius, DivergeU(p, z))
  }

  /** Jitter applies when it is switched on, past zBlend, in the last 20% of u. */
  predicate Jittered(p: SamplerInputs, z: real)
    requires ValidInputs(p) && 0.0 <= z <= p.length
  {
    p.jitter > 0.0 && z > BlendZ(p) && DivergeU(p, z) >= 0.8
  }

  /** amp = flareJitter * 0.03 * exitRadius: at most 3% of the exit radius,
      reached at flareJitter = 1. */
  function JitterAmplitude(jitter: real, exitRadius: real): (amp: real)
    requires 0.0 <= jitter <= 1.0 && 0.0 <= exitRadius
    ensures 0.0 <= amp <= 0.03 * exitRadius
    ensures jitter == 1.0 ==> amp == 0.03 * exitRadius
    ensures jitter == 0.0 ==> amp == 0.0
  {
    Mathf.MulNonNegative(jitter, exitRadius);
    Mathf.MulNonNegative(1.0 - jitter, exitRadius);
    jitter * 0.03 * exitRadius
  }

  /** amp * fade * noise, at most amp in magnitude for a fade in [0,1] and
      noise in [-1,1]. */
  function JitterDelta(amp: real, fade: real, noise: real): (d: real)
    requires 0.0 <= amp && 0.0 <= fade <= 1.0 && -1.0 <= noise <= 1.0
    ensures -amp <= d <= amp
  {
    var s := Mathf.Scale(amp, fade);
    assert 0.0 <= s <= amp;
    if 0.0 <= noise then
      assert s * noise == Mathf.Scale(s, noise);
      amp * fade * noise
    else
      assert -(s * noise) == Mathf.Scale(s, -noise);
      amp * fade * noise
  }

  /** The jittered radius for the draw d in [0,1): noise = 2d - 1, then the floor. */
  function JitteredRadius(p: SamplerInputs, z: real, d: real): (r: real)
    requires ValidInputs(p) && BlendZ(p) <= z <= p.length && 0.0 <= d < 1.0
    ensures r >= 0.0001
  {
    var u := DivergeU(p, z);
    var fade := SmoothStep((u - 0.8) / (1.0 - 0.8));
    var amp := JitterAmplitude(p.jitter, p.exitRadius);
    Mathf.Max(0.0001, ConeRadiusAt(p, z) + JitterDelta(amp, fade, d * 2.0 - 1.0))
  }

  /** The radius at z, given the draw the jitter would use. */
  function RadiusAt(p: SamplerInputs, z: real, d: real): (r: real)
    requires ValidInputs(p) && 0.0 <= z <= p.length && 0.0 <= d < 1.0
    ensures r > 0.0
  {
    if z <= BlendZ(p) then ThroatRadiusAt(p, z)
    else if Jittered(p, z) then JitteredRadius(p, z, d)
    else ConeRadiusAt(p, z)
  }

  function Z(p: SamplerInputs, i: nat): (z: real)
    requires ValidInputs(p) && i < p.samples
    ensures 0.0 <= z <= p.length
  {
    AxialZ(i, p.samples, p.length)
  }

  /** How many NextDouble calls the samples before i consumed. */
  function DrawsBefore(p: SamplerInputs, i: nat): nat
    requires ValidInputs(p) && i <= p.samples
  {
    if i == 0 then 0
    else DrawsBefore(p, i - 1) + (if Jittered(p, Z(p, i - 1)) then 1 else 0)
  }

  /** Sample i as the first loop appends it. */
  function RawPoint(p: SamplerInputs, draws: nat -> UnitInterval, i: nat): Point2
    requires ValidInputs(p) && i < p.samples
  {
    Point2(Z(p, i), RadiusAt(p, Z(p, i), draws(DrawsBefore(p, i))))
  }

  function RawPoints(p: SamplerInputs, draws: nat -> UnitInterval): (s: seq<Point2>)
    requires ValidInputs(p)
    ensures |s| == p.samples
  {
    seq(p.samples, i requires 0 <= i < p.samples => RawPoint(p, draws, i))
  }

  // ---------------------------------------------------------------------------
  // The final pass

  /** One step of the final loop: pull z up to the previous point's, then
      raise a negative radius to 0. */
  function Fixed(prev: Point2, cur: Point2): (q: Point2)
    ensures prev.z <= q.z && q.r >= 0.0
    ensures prev.z <= cur.z && cur.r >= 0.0 ==> q == cur
  {
    var c := if cur.z < prev.z then Point2(prev.z, cur.r) else cur;
    if c.r < 0.0 then Point2(c.z, 0.0) else c
  }

  /** The final loop over pts, from index 1 on, each step seeing the
      already-fixed previous point. */
  function Pass(pts: seq<Point2>): (q: seq<Point2>)
    ensures |q| == |pts|
    ensures |pts| > 0 ==> q[0] == pts[0]
    decreases |pts|
  {
    if |pts| <= 1 then pts
    else
      var prev := Pass(pts[..|pts| - 1]);
      prev + [Fixed(prev[|prev| - 1], pts[|pts| - 1])]
  }

  predicate Ordered(q: seq<Point2>)
  {
    forall i :: 1 <= i < |q| ==> q[i - 1].z <= q[i].z && q[i].r >= 0.0
  }

  /** In an ordered profile every z lies between the first and the last. */
  lemma {:induction false} OrderedSpan(q: seq<Point2>)
    requires Ordered(q) && |q| >= 1
    ensures forall i :: 0 <= i < |q| ==> q[0].z <= q[i].z <= q[|q| - 1].z
  {
    if |q| > 1 {
      var init := q[..|q| - 1];
      assert Ordered(init);
      OrderedSpan(init);
      forall i | 0 <= i < |q|
        ensures q[0].z <= q[i].z <= q[|q| - 1].z
      {
        if i < |q| - 1 {
          assert init[i] == q[i] && init[0] == q[0];
          assert q[|q| - 2].z <= q[|q| - 1].z;
        }
      }
    }
  }

  /** After the pass z never decreases and every radius past the first is
      non-negative, whatever the input. */
  lemma {:induction false} PassOrdered(pts: seq<Point2>)
    ensures Ordered(Pass(pts))
    decreases |pts|
  {
    if |pts| > 1 {
      PassOrdered(pts[..|pts| - 1]);
    }
  }

  /** A profile that is already ordered passes through unchanged. */
  lemma {:induction false} PassKeepsOrdered(pts: seq<Point2>)
    requires Ordered(pts)
    ensures Pass(pts) == pts
    decreases |pts|
  {
    if |pts| > 1 {
      var init := pts[..|pts| - 1];
      assert Ordered(init);
      PassKeepsOrdered(init);
      assert pts == init + [pts[|pts| - 1]];
    }
  }

  // ---------------------------------------------------------------------------
  // Sample

  /** The profile Sample returns for the given inputs, when System.Random(seed)
      yields the NextDouble stream random(seed). */
  function SampleProfile(random: Int32 -> nat -> UnitInterval, seed: Int32, length: real, throatRadius: real,
                         exitRadius: real, axialSamples: Int32, throatCurvatureFactor: real,
                         flareJitter: real): Profile2D
  {
    var p := ClampInputs(length, throatRadius, exitRadius, axialSamples, throatCurvatureFactor, flareJitter);
    Profile2D(Pass(RawPoints(p, random(seed))))
  }

  /** The raw samples are already ordered: z grows with i and every radius is
      positive. */
  lemma RawPointsOrdered(p: SamplerInputs, draws: nat -> UnitInterval)
    requires ValidInputs(p)
    ensures Ordered(RawPoints(p, draws))
  {
    var s := RawPoints(p, draws);
    forall i | 1 <= i < |s| ensures s[i - 1].z <= s[i].z && s[i].r >= 0.0 {
      AxialZMonotone(i - 1, i, p.samples, p.length);
    }
  }

  /** The shape of a sampled profile: one point per sample, point i at
      z = i/(n-1) * length, starting at (0, throatRadius) and ending at the
      clamped length; the final pass leaves the raw samples as they are. */
  lemma {:induction false} SampledShape(p: SamplerInputs, draws: nat -> UnitInterval)
    requires ValidInputs(p)
    ensures var q := Pass(RawPoints(p, draws));
            && |q| == p.samples
            && q == RawPoints(p, draws)
            && (forall i :: 0 <= i < |q| ==> q[i].z == AxialZ(i, p.samples, p.length))
            && q[0] == Point2(0.0, p.throatRadius)
            && Length(Profile2D(q)) == p.length
            && Ordered(q)
  {
    var s := RawPoints(p, draws);
    RawPointsOrdered(p, draws);
    PassKeepsOrdered(s);
    assert s[0] == RawPoint(p, draws, 0);
    assert s[|s| - 1] == RawPoint(p, draws, p.samples - 1);
  }

  /** In the throat region the radius lies between the throat radius and the
      pre-diverge target, which is at most min(exitRadius, 1.25 throatRadius). */
  lemma ThroatRegionBounds(p: SamplerInputs, draws: nat -> UnitInterval, i: nat)
    requires ValidInputs(p) && i < p.samples
    requires Z(p, i) <= BlendZ(p)
    ensures var r := RawPoints(p, draws)[i].r;
            && p.throatRadius <= r <= PreDivergeTarget(p)
            && PreDivergeTarget(p) <= Mathf.Min(p.exitRadius, p.throatRadius * 1.25)
  {
    assert RawPoints(p, draws)[i] == RawPoint(p, draws, i);
  }

  /** The throat blend ends exactly where the cone begins: both give
      RadiusAtBlend at zBlend. */
  lemma ThroatMeetsCone(p: SamplerInputs)
    requires ValidInputs(p)
    ensures ThroatRadiusAt(p, BlendZ(p)) == RadiusAtBlend(p.throatRadius, p.exitRadius, p.curvature)
    ensures ConeRadiusAt(p, BlendZ(p)) == RadiusAtBlend(p.throatRadius, p.exitRadius, p.curvature)
  {}

  /** Past zBlend the radius is the cone radius, jittered only when jitter is
      on and u >= 0.8; a jittered radius is within amp of the cone radius
      unless the 0.0001 floor lifts it. */
  lemma DivergeRegion(p: SamplerInputs, draws: nat -> UnitInterval, i: nat)
    requires ValidInputs(p) && i < p.samples
    requires Z(p, i) > BlendZ(p)
    ensures var z := Z(p, i);
            var r := RawPoints(p, draws)[i].r;
            var amp := JitterAmplitude(p.jitter, p.exitRadius);
            && (!Jittered(p, z) ==> r == ConeRadiusAt(p, z))
            && (Jittered(p, z) ==>
                  p.jitter > 0.0 && DivergeU(p, z) >= 0.8
                  && amp <= 0.03 * p.exitRadius
                  && r >= 0.0001
                  && (r == 0.0001 || ConeRadiusAt(p, z) - amp <= r <= ConeRadiusAt(p, z) + amp))
  {
    assert RawPoints(p, draws)[i] == RawPoint(p, draws, i);
  }

  /** Without jitter the last point sits exactly on the exit radius. */
  lemma ExitRadiusWithoutJitter(p: SamplerInputs, draws: nat -> UnitInterval)
    requires ValidInputs(p) && p.jitter == 0.0
    ensures RawPoints(p, draws)[p.samples - 1] == Point2(p.length, p.exitRadius)
  {
    assert RawPoints(p, draws)[p.samples - 1] == RawPoint(p, draws, p.samples - 1);
  }

  /** One pass of the sampling loop: sample i, drawing from rng only when
      the point is jittered. */
  method SamplePoint(p: SamplerInputs, zBlend: real, rng: SystemRandom, i: nat) returns (pt: Point2)
    requires ValidInputs(p) && i < p.samples && zBlend == BlendZ(p)
    requires rng.taken == DrawsBefore(p, i)
    modifies rng
    ensures pt == RawPoint(p, rng.draws, i)
    ensures rng.taken == DrawsBefore(p, i + 1)
  {
    var z := AxialZ(i, p.samples, p.length);
    var r: real;
    if z <= zBlend {
      r := ThroatRadiusAt(p, z);
    } else {
      var u := DivergeU(p, z);
      r := ConeRadiusAt(p, z);
      if p.jitter > 0.0 && u >= 0.8 {
        var d := rng.NextDouble();
        r := JitteredRadius(p, z, d);
      }
    }
    pt := Point2(z, r);
  }

  /** The final loop, rewriting the points in place; the sampled list always
      has at least one point. */
  method EnforceMonotone(raw: seq<Point2>) returns (points: seq<Point2>)
    requires |raw| >= 1
    ensures points == Pass(raw)
  {
    points := raw;
    for i := 1 to |points|
      invariant |points| == |raw|
      invariant points == Pass(raw[..i]) + raw[i..]
    {
      ghost var pre := Pass(raw[..i]);
      ghost var before := points;
      assert points[i - 1] == pre[i - 1] && points[i] == raw[i];
      if points[i].z < points[i - 1].z {
        points := points[i := Point2(points[i - 1].z, points[i].r)];
      }
      if points[i].r < 0.0 {
        points := points[i := Point2(points[i].z, 0.0)];
      }
      assert points == before[i := points[i]];
      assert points[i] == Fixed(pre[i - 1], raw[i]);
      PassExtend(raw, i);
      ReplaceFirstOfRest(pre, raw[i..], points[i]);
    }
    assert raw[..|raw|] == raw;
  }

  /** One more step of the pass over a longer prefix. */
  lemma PassExtend(raw: seq<Point2>, i: nat)
    requires 1 <= i < |raw|
    ensures Pass(raw[..i + 1]) == Pass(raw[..i]) + [Fixed(Pass(raw[..i])[i - 1], raw[i])]
  {
    assert raw[..i + 1][..i] == raw[..i];
  }

  /** Overwriting the first element after a prefix. */
  lemma ReplaceFirstOfRest<T>(pre: seq<T>, rest: seq<T>, x: T)
    requires |rest| >= 1
    ensures (pre + rest)[|pre| := x] == pre + [x] + rest[1..]
  {}

  /** The sampling loop: one point per sample, drawing from System.Random(seed)
      only for jittered points. */
  method SampleRaw(p: SamplerInputs, draws: nat -> UnitInterval) returns (points: seq<Point2>)
    requires ValidInputs(p)
    ensures points == RawPoints(p, draws)
  {
    var zBlend := BlendZ(p);
    var rng := new SystemRandom(draws);
    ghost var raw := RawPoints(p, draws);
    points := [];
    for i := 0 to p.samples
      invariant rng.draws == draws
      invariant rng.taken == DrawsBefore(p, i)
      invariant points == raw[..i]
    {
      var pt := SamplePoint(p, zBlend, rng, i);
      points := points + [pt];
      assert raw[..i + 1] == raw[..i] + [raw[i]];
    }
    assert raw[..p.samples] == raw;
  }

  /** Sample: the clamps, the sampling loop, then the monotone pass. */
  method Sample(random: Int32 -> nat -> UnitInterval, seed: Int32, length: real, throatRadius: real,
                exitRadius: real, axialSamples: Int32, throatCurvatureFactor: real, flareJitter: real)
    returns (profile: Profile2D)
    ensures profile == SampleProfile(random, seed, length, throatRadius, exitRadius, axialSamples,
                                     throatCurvatureFactor, flareJitter)
  {
    var p := ClampInputs(length, throatRadius, exitRadius, axialSamples, throatCurvatureFactor, flareJitter);
    var points := SampleRaw(p, random(seed));
    points := EnforceMonotone(points);
    profile := Profile2D(points);
  }

  /** MinRadius: 0 for an empty profile, otherwise the smallest radius. The
      accumulator starts at +infinity, so the first comparison yields the
      first radius. */
  method MinRadius(p: Profile2D) returns (m: real)
    ensures |p.zr| == 0 ==> m == 0.0
    ensures |p.zr| > 0 ==> forall i :: 0 <= i < |p.zr| ==> m <= p.zr[i].r
    ensures |p.zr| > 0 ==> exists i :: 0 <= i < |p.zr| && m == p.zr[i].r
  {
    if |p.zr| == 0 {
      return 0.0;
    }
    m := p.zr[0].r;
    for i := 0 to |p.zr|
      invariant forall k :: 0 <= k < i ==> m <= p.zr[k].r
      invariant exists k :: 0 <= k < |p.zr| && m == p.zr[k].r
    {
      m := Mathf.Min(m, p.zr[i].r);
    }
  }

  /** MaxRadius: 0 for an empty profile, otherwise the largest radius, but
      never below 0 because the accumulator starts at 0. */
  method MaxRadius(p: Profile2D) returns (m: real)
    ensures |p.zr| == 0 ==> m == 0.0
    ensures m >= 0.0 && forall i :: 0 <= i < |p.zr| ==> p.zr[i].r <= m
    ensures m == 0.0 || exists i :: 0 <= i < |p.zr| && m == p.zr[i].r
  {
    if |p.zr| == 0 {
      return 0.0;
    }
    m := 0.0;
    for i := 0 to |p.zr|
      invariant m >= 0.0 && forall k :: 0 <= k < i ==> p.zr[k].r <= m
      invariant m == 0.0 || exists k :: 0 <= k < |p.zr| && m == p.zr[k].r
    {
      m := Mathf.Max(m, p.zr[i].r);
    }
  }
}
