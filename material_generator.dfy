/** Assets/Runtime/Materials/MaterialVisualProfile.cs, which holds the Tier 0
    material generator MaterialGeneratorT0: a planet and a node seed give a
    seeded stream, which picks a category and a subtype, samples a property
    vector from the category template, adds the subtype and planet biases,
    picks the dominant and weak traits and runs the Tier 0 rule passes. */
module MaterialGenerator {
  import opened Wrappers
  import opened Int32s
  import Mathf
  import opened Rng
  import opened MaterialEnums
  import opened PropertyVectors
  import opened MaterialTemplates
  import opened TierRules
  import PlanetModifiers

  // ---------------------------------------------------------------------------
  // Category choice

  /** The five category weights, negative ones read as 0, in declaration order. */
  function Weights(planet: PlanetProfile): (w: seq<real>)
    ensures |w| == 5
    ensures forall i :: 0 <= i < 5 ==> w[i] >= 0.0
  {
    [Mathf.Max(0.0, planet.weightMetal), Mathf.Max(0.0, planet.weightStoneSilicate),
     Mathf.Max(0.0, planet.weightSedimentaryCarbon), Mathf.Max(0.0, planet.weightLiquid),
     Mathf.Max(0.0, planet.weightGas)]
  }

  /** The position of a category in the weight list. */
  function CategoryIndex(c: MaterialCategory): (k: nat)
    ensures k < 5
  {
    match c
    case Metal => 0
    case StoneSilicate => 1
    case SedimentaryCarbon => 2
    case Liquid => 3
    case Gas => 4
  }

  /** The sum of the first k weights, added left to right. */
  function PrefixSum(w: seq<real>, k: nat): real
    requires k <= |w|
  {
    if k == 0 then 0.0 else PrefixSum(w, k - 1) + w[k - 1]
  }

  /** The five prefix sums written out. */
  lemma PrefixSums(w: seq<real>)
    requires |w| == 5
    ensures PrefixSum(w, 0) == 0.0
    ensures PrefixSum(w, 1) == w[0]
    ensures PrefixSum(w, 2) == w[0] + w[1]
    ensures PrefixSum(w, 3) == w[0] + w[1] + w[2]
    ensures PrefixSum(w, 4) == w[0] + w[1] + w[2] + w[3]
    ensures PrefixSum(w, 5) == w[0] + w[1] + w[2] + w[3] + w[4]
  {
    assert PrefixSum(w, 1) == PrefixSum(w, 0) + w[0];
    assert PrefixSum(w, 2) == PrefixSum(w, 1) + w[1];
    assert PrefixSum(w, 3) == PrefixSum(w, 2) + w[2];
    assert PrefixSum(w, 4) == PrefixSum(w, 3) + w[3];
  }

  /** The running `r -= w` chain: the first category that takes r below 0. */
  function CategoryForRoll(w: seq<real>, r: real): MaterialCategory
    requires |w| == 5
  {
    var r1 := r - w[0];
    if r1 < 0.0 then Metal
    else
      var r2 := r1 - w[1];
      if r2 < 0.0 then StoneSilicate
      else
        var r3 := r2 - w[2];
        if r3 < 0.0 then SedimentaryCarbon
        else
          var r4 := r3 - w[3];
          if r4 < 0.0 then Liquid else Gas
  }

  /** The category a unit roll u picks once the weights sum to more than 0. */
  function CategoryForUnit(planet: PlanetProfile, u: real): MaterialCategory
  {
    var w := Weights(planet);
    CategoryForRoll(w, Roll(u, PrefixSum(w, 5)))
  }

  /** ChooseCategory on a stream in state s: no draw when the weights sum to
      at most 0, otherwise one Next01 scaled by the sum. */
  function CategoryDraw(planet: PlanetProfile, s: bv32): Draw<MaterialCategory>
  {
    if PrefixSum(Weights(planet), 5) <= 0.0 then Draw(StoneSilicate, s)
    else
      var d := Draw01(s);
      Draw(CategoryForUnit(planet, d.value), d.state)
  }

  /** A roll in [0, sum) lands in the cumulative interval of the category it
      picks; that interval is not empty. */
  lemma RollInInterval(w: seq<real>, r: real)
    requires |w| == 5 && forall i :: 0 <= i < 5 ==> w[i] >= 0.0
    requires 0.0 <= r < PrefixSum(w, 5)
    ensures var k := CategoryIndex(CategoryForRoll(w, r));
            PrefixSum(w, k) <= r < PrefixSum(w, k) + w[k] && w[k] > 0.0
  {
    PrefixSums(w);
  }

  /** The roll: a unit draw scaled by the weight sum, which it stays below. */
  function Roll(u: real, sum: real): (r: real)
    ensures 0.0 <= u < 1.0 && sum > 0.0 ==> 0.0 <= r < sum
  {
    if 0.0 <= u < 1.0 && sum > 0.0 then
      Mathf.MulNonNegative(u, sum);
      assert sum - u * sum == (1.0 - u) * sum;
      u * sum
    else u * sum
  }

  /** Any unit roll picks a category whose clamped weight is positive. */
  lemma UnitRollHasWeight(planet: PlanetProfile, u: real)
    requires 0.0 <= u < 1.0 && PrefixSum(Weights(planet), 5) > 0.0
    ensures Weights(planet)[CategoryIndex(CategoryForUnit(planet, u))] > 0.0
  {
    RollInInterval(Weights(planet), Roll(u, PrefixSum(Weights(planet), 5)));
  }

  /** ChooseCategory: StoneSilicate without a draw when every weight is at most
      0; otherwise a category whose clamped weight is positive, after one draw. */
  lemma ChosenCategoryHasWeight(planet: PlanetProfile, s: bv32)
    ensures PrefixSum(Weights(planet), 5) <= 0.0 ==> CategoryDraw(planet, s) == Draw(StoneSilicate, s)
    ensures PrefixSum(Weights(planet), 5) > 0.0 ==>
              Weights(planet)[CategoryIndex(CategoryDraw(planet, s).value)] > 0.0 &&
              CategoryDraw(planet, s).state == Xorshift32(s)
  {
    if PrefixSum(Weights(planet), 5) > 0.0 {
      UnitRollHasWeight(planet, Draw01(s).value);
    }
  }

  /** ChooseCategory(planet, ref rng). */
  method ChooseCategory(planet: PlanetProfile, rng: DeterministicRng) returns (cat: MaterialCategory)
    modifies rng
    ensures Draw(cat, rng.state) == CategoryDraw(planet, old(rng.state))
  {
    var wM := Mathf.Max(0.0, planet.weightMetal);
    var wS := Mathf.Max(0.0, planet.weightStoneSilicate);
    var wC := Mathf.Max(0.0, planet.weightSedimentaryCarbon);
    var wL := Mathf.Max(0.0, planet.weightLiquid);
    var wG := Mathf.Max(0.0, planet.weightGas);
    var sum := wM + wS + wC + wL + wG;
    PrefixSums(Weights(planet));
    if sum <= 0.0 {
      return StoneSilicate;
    }
    var u := rng.Next01();
    var r := Roll(u, sum);
    r := r - wM;
    if r < 0.0 { return Metal; }
    r := r - wS;
    if r < 0.0 { return StoneSilicate; }
    r := r - wC;
    if r < 0.0 { return SedimentaryCarbon; }
    r := r - wL;
    if r < 0.0 { return Liquid; }
    return Gas;
  }

  // ---------------------------------------------------------------------------
  // Subtype choice

  /** The subtype options of each category, in the order the switch lists them. */
  function Family(c: MaterialCategory): (f: seq<MaterialSubtype>)
    ensures 2 <= |f| <= 3
  {
    match c
    case Metal => [NativeMetal, MetalOxide, SulfideOre]
    case StoneSilicate => [SilicateRock, VolcanicGlass, CeramicMineral]
    case SedimentaryCarbon => [CarbonRich, OrganicSediment]
    case Liquid => [WaterBrine, HydrocarbonLiquid, ReactiveSolvent]
    case Gas => [InertGas, ReactiveGas]
  }

  /** The category a subtype belongs to, read off the enum's grouping. */
  function FamilyOf(s: MaterialSubtype): MaterialCategory
  {
    match s
    case NativeMetal | MetalOxide | SulfideOre => Metal
    case SilicateRock | VolcanicGlass | CeramicMineral => StoneSilicate
    case CarbonRich | OrganicSediment => SedimentaryCarbon
    case WaterBrine | HydrocarbonLiquid | ReactiveSolvent => Liquid
    case InertGas | ReactiveGas => Gas
  }

  /** The families partition the subtypes: each subtype is offered by exactly
      the category it is grouped under. */
  lemma FamiliesPartition(c: MaterialCategory, s: MaterialSubtype)
    ensures s in Family(c) <==> FamilyOf(s) == c
  {}

  /** ChooseSubtype on a stream in state s: one NextInt(0, |family|). */
  function SubtypeDraw(c: MaterialCategory, s: bv32): (d: Draw<MaterialSubtype>)
    ensures d.value in Family(c)
    ensures FamilyOf(d.value) == c
    ensures d.state == Xorshift32(s)
  {
    var f := Family(c);
    var k := DrawInt(s, 0, |f|);
    FamiliesPartition(c, f[k.value]);
    Draw(f[k.value], k.state)
  }

  /** ChooseSubtype(cat, ref rng). */
  method ChooseSubtype(c: MaterialCategory, rng: DeterministicRng) returns (sub: MaterialSubtype)
    modifies rng
    ensures Draw(sub, rng.state) == SubtypeDraw(c, old(rng.state))
  {
    var opts := Family(c);
    var k := rng.NextInt(0, |opts|);
    sub := opts[k];
  }

  // ---------------------------------------------------------------------------
  // Sampling

  /** m + sp * c for c in [-1, 1] lies within sp of m. */
  lemma CentredWithinSpread(m: real, sp: real, c: real)
    requires sp >= 0.0 && -1.0 <= c <= 1.0
    ensures m - sp <= m + sp * c <= m + sp
  {
    Mathf.MulNonNegative(sp, 1.0 - c);
    Mathf.MulNonNegative(sp, c + 1.0);
    assert sp * (1.0 - c) == sp - sp * c;
    assert sp * (c + 1.0) == sp * c + sp;
  }

  /** One sampled slot, mean + spread * (2 * tri - 1): a non-negative spread
      keeps it within one spread of the mean. */
  function Sample(m: real, sp: real, tri: real): (x: real)
    ensures sp >= 0.0 && 0.0 <= tri <= 1.0 ==> m - sp <= x <= m + sp
  {
    if sp >= 0.0 && 0.0 <= tri <= 1.0 then
      CentredWithinSpread(m, sp, 2.0 * tri - 1.0);
      m + sp * (2.0 * tri - 1.0)
    else
      m + sp * (2.0 * tri - 1.0)
  }

  /** One Tri01 sample per slot, drawing in slot order; also the state after
      the last draw. */
  function Samples(mu: seq<real>, sig: seq<real>, s: bv32): (r: (seq<real>, bv32))
    requires |mu| == |sig|
    ensures |r.0| == |mu|
    decreases |mu|
  {
    if |mu| == 0 then ([], s)
    else
      var d := DrawTri01(s);
      var rest := Samples(mu[1..], sig[1..], d.state);
      ([Sample(mu[0], sig[0], d.value)] + rest.0, rest.1)
  }

  /** One more slot of the sampling loop. */
  lemma SamplesStep(mu: seq<real>, sig: seq<real>, s: bv32, i: nat)
    requires |mu| == |sig| && i < |mu|
    ensures var d := DrawTri01(s);
            var rest := Samples(mu[i + 1..], sig[i + 1..], d.state);
            Samples(mu[i..], sig[i..], s) == ([Sample(mu[i], sig[i], d.value)] + rest.0, rest.1)
  {
    var m := mu[i..];
    var g := sig[i..];
    assert |m| > 0;
    assert m[0] == mu[i] && g[0] == sig[i];
    assert m[1..] == mu[i + 1..];
    assert g[1..] == sig[i + 1..];
  }

  /** A sample lies within one spread of its mean. */
  lemma {:induction false} SamplesWithinSpread(mu: seq<real>, sig: seq<real>, s: bv32, i: nat)
    requires |mu| == |sig| && i < |mu| && sig[i] >= 0.0
    ensures mu[i] - sig[i] <= Samples(mu, sig, s).0[i] <= mu[i] + sig[i]
    decreases |mu|
  {
    var d := DrawTri01(s);
    var rest := Samples(mu[1..], sig[1..], d.state);
    assert Samples(mu, sig, s).0 == [Sample(mu[0], sig[0], d.value)] + rest.0;
    if i > 0 {
      SamplesWithinSpread(mu[1..], sig[1..], d.state, i - 1);
      assert mu[1..][i - 1] == mu[i] && sig[1..][i - 1] == sig[i];
    }
  }

  /** SampleFromTemplate on a stream in state s: the sampled, clamped vector
      and the state after it; the template's vectors may throw first. */
  function SampleDraw(t: MaterialCategoryTemplate, s: bv32, count: nat): (r: Result<Draw<seq<real>>>)
    ensures r.Success? <==> count > Ordinal(Manufacturability)
    ensures r.Failure? ==> r.error == IndexOutOfRange
    ensures r.Success? ==> |r.value.value| == count && InUnitRange(r.value.value)
  {
    var mu :- GetMeanVector(t, count);
    var sig := GetSpreadVector(t, count).value;
    var x := Samples(mu, sig, s);
    Success(Draw(Clamped01(x.0), x.1))
  }

  /** A sampled property lies between its clamped mean minus and plus its spread. */
  lemma SampleWithinTemplate(t: MaterialCategoryTemplate, s: bv32, count: nat, p: MaterialProperty)
    requires SampleDraw(t, s, count).Success?
    requires t.Template(p).spread >= 0.0
    ensures var m := t.Template(p).mean;
            var sp := t.Template(p).spread;
            Mathf.Clamp01(m - sp) <= SampleDraw(t, s, count).value.value[Ordinal(p)] <= Mathf.Clamp01(m + sp)
  {
    var mu := GetMeanVector(t, count).value;
    var sig := GetSpreadVector(t, count).value;
    var k := Ordinal(p);
    var x := Samples(mu, sig, s).0;
    assert SampleDraw(t, s, count).value.value == Clamped01(x);
    SamplesWithinSpread(mu, sig, s, k);
    Mathf.Clamp01Monotone(mu[k] - sig[k], x[k]);
    Mathf.Clamp01Monotone(x[k], mu[k] + sig[k]);
  }

  /** As written, with 8 slots, sampling throws at GetMeanVector's write of
      Manufacturability, whatever the template and the stream. */
  lemma SampleAsWrittenFails(t: MaterialCategoryTemplate, s: bv32)
    ensures SampleDraw(t, s, Count) == Failure(IndexOutOfRange)
  {}

  /** With a ninth slot sampling succeeds, and every property, Manufacturability
      included, lands within its template's spread of its mean. */
  lemma SampleCorrected(t: MaterialCategoryTemplate, s: bv32, p: MaterialProperty)
    requires t.Template(p).spread >= 0.0
    ensures SampleDraw(t, s, CorrectedCount).Success?
    ensures var v := SampleDraw(t, s, CorrectedCount).value.value;
            var m := t.Template(p).mean;
            var sp := t.Template(p).spread;
            |v| == CorrectedCount && Mathf.Clamp01(m - sp) <= v[Ordinal(p)] <= Mathf.Clamp01(m + sp)
  {
    SampleWithinTemplate(t, s, CorrectedCount, p);
  }

  /** The sampling loop of SampleFromTemplate: slot i gets mean_i and
      spread_i applied to the i-th Tri01 draw. */
  method FillSamples(a: array<real>, mu: seq<real>, sig: seq<real>, rng: DeterministicRng)
    requires a.Length == |mu| == |sig|
    modifies a, rng
    ensures a[..] == Samples(mu, sig, old(rng.state)).0
    ensures rng.state == Samples(mu, sig, old(rng.state)).1
  {
    ghost var s0 := rng.state;
    assert mu[0..] == mu && sig[0..] == sig;
    for i := 0 to a.Length
      invariant Samples(mu, sig, s0).0 == a[..i] + Samples(mu[i..], sig[i..], rng.state).0
      invariant Samples(mu, sig, s0).1 == Samples(mu[i..], sig[i..], rng.state).1
    {
      SamplesStep(mu, sig, rng.state, i);
      var tri := rng.Tri01();
      a[i] := Sample(mu[i], sig[i], tri);
      assert a[..i + 1] == a[..i] + [a[i]];
    }
    assert mu[a.Length..] == [] && sig[a.Length..] == [];
    assert a[..a.Length] == a[..];
  }

  /** SampleFromTemplate(tpl, ref rng). */
  method SampleFromTemplate(t: MaterialCategoryTemplate, rng: DeterministicRng, count: nat)
    returns (r: Result<MaterialPropertyVector>)
    modifies rng
    ensures SampleDraw(t, old(rng.state), count).Failure? ==>
              r == Failure(SampleDraw(t, old(rng.state), count).error)
    ensures SampleDraw(t, old(rng.state), count).Success? ==>
              r.Success? && r.value.v != null && fresh(r.value.v) &&
              Draw(r.value.v[..], rng.state) == SampleDraw(t, old(rng.state), count).value
  {
    var meanVec := GetMeanVector(t, count);
    if meanVec.Failure? {
      return Failure(meanVec.error);
    }
    var mu := meanVec.value;
    var sig := GetSpreadVector(t, count).value;
    var v := CreateZero(count);
    FillSamples(v.v, mu, sig, rng);
    v := Clamp01(v, count);
    return Success(v);
  }

  // ---------------------------------------------------------------------------
  // Dominant and weak traits

  /** The vector values of the candidates; an unreadable candidate reads as 0
      (the loops throw before they would use it). */
  function Scores(c: seq<MaterialProperty>, vals: seq<real>): (r: seq<real>)
    ensures |r| == |c|
  {
    seq(|c|, i requires 0 <= i < |c| => if Ordinal(c[i]) < |vals| then vals[Ordinal(c[i])] else 0.0)
  }

  /** Every candidate has a slot in a vector of n slots. */
  predicate Readable(c: seq<MaterialProperty>, n: nat)
  {
    forall i :: 0 <= i < |c| ==> Ordinal(c[i]) < n
  }

  lemma ReadableSnoc(c: seq<MaterialProperty>, i: nat, n: nat)
    requires i < |c| && Readable(c[..i], n) && Ordinal(c[i]) < n
    ensures Readable(c[..i + 1], n)
  {
    assert c[..i + 1] == c[..i] + [c[i]];
  }

  /** ChooseDominant: Strength for a null or empty list; otherwise the earliest
      candidate of maximal value, unless some candidate has no slot. */
  function DominantOf(cands: Option<seq<MaterialProperty>>, vals: seq<real>): (r: Result<MaterialProperty>)
    ensures cands.None? || cands.value == [] ==> r == Success(Strength)
    ensures cands.Some? && cands.value != [] ==> (r.Failure? <==> !Readable(cands.value, |vals|))
    ensures r.Failure? ==> r.error == IndexOutOfRange
    ensures r.Success? && cands.Some? && cands.value != [] ==>
              var c := cands.value;
              exists k :: 0 <= k < |c| && r.value == c[k] &&
                (forall i :: 0 <= i < |c| ==> vals[Ordinal(c[i])] <= vals[Ordinal(c[k])]) &&
                (forall i :: 0 <= i < k ==> vals[Ordinal(c[i])] < vals[Ordinal(c[k])])
  {
    if cands.None? || cands.value == [] then Success(Strength)
    else if !Readable(cands.value, |vals|) then Failure(IndexOutOfRange)
    else
      var c := cands.value;
      var k := FirstMaxIndex(Scores(c, vals));
      assert forall i :: 0 <= i < |c| ==> Scores(c, vals)[i] == vals[Ordinal(c[i])];
      Success(c[k])
  }

  /** ChooseWeakness: Manufacturability for a null or empty list; otherwise the
      earliest candidate of minimal value, unless some candidate has no slot. */
  function WeaknessOf(cands: Option<seq<MaterialProperty>>, vals: seq<real>): (r: Result<MaterialProperty>)
    ensures cands.None? || cands.value == [] ==> r == Success(Manufacturability)
    ensures cands.Some? && cands.value != [] ==> (r.Failure? <==> !Readable(cands.value, |vals|))
    ensures r.Failure? ==> r.error == IndexOutOfRange
    ensures r.Success? && cands.Some? && cands.value != [] ==>
              var c := cands.value;
              exists k :: 0 <= k < |c| && r.value == c[k] &&
                (forall i :: 0 <= i < |c| ==> vals[Ordinal(c[k])] <= vals[Ordinal(c[i])]) &&
                (forall i :: 0 <= i < k ==> vals[Ordinal(c[k])] < vals[Ordinal(c[i])])
  {
    if cands.None? || cands.value == [] then Success(Manufacturability)
    else if !Readable(cands.value, |vals|) then Failure(IndexOutOfRange)
    else
      var c := cands.value;
      var k := FirstMinIndex(Scores(c, vals));
      assert forall i :: 0 <= i < |c| ==> Scores(c, vals)[i] == vals[Ordinal(c[i])];
      Success(c[k])
  }

  /** The scan of ChooseDominant: a candidate replaces the best so far only when
      its value is strictly larger; a candidate without a slot throws. */
  method ScanDominant(q: MaterialPropertyVector, c: seq<MaterialProperty>) returns (r: Result<MaterialProperty>)
    requires q.v != null && |c| > 0
    ensures Readable(c, q.v.Length) ==> r == Success(c[FirstMaxIndex(Scores(c, q.v[..]))])
    ensures !Readable(c, q.v.Length) ==> r == Failure(IndexOutOfRange)
  {
    ghost var vals := q.v[..];
    ghost var sc := Scores(c, vals);
    var best := c[0];
    var first := GetProperty(q, best);
    if first.Failure? {
      return Failure(first.error);
    }
    var bestVal := first.value;
    ghost var k := 0;
    assert c[..1] == [c[0]];
    for i := 1 to |c|
      invariant q.v[..] == vals
      invariant Readable(c[..i], q.v.Length)
      invariant k < i && best == c[k] && bestVal == sc[k]
      invariant forall j :: 0 <= j < i ==> sc[j] <= bestVal
      invariant forall j :: 0 <= j < k ==> sc[j] < bestVal
    {
      var p := c[i];
      var v := GetProperty(q, p);
      if v.Failure? {
        return Failure(v.error);
      }
      assert v.value == sc[i];
      ReadableSnoc(c, i, q.v.Length);
      if v.value > bestVal {
        bestVal := v.value;
        best := p;
        k := i;
      }
    }
    assert c[..|c|] == c;
    FirstMaxIndexUnique(sc, k);
    return Success(best);
  }

  /** ChooseDominant(tpl, props); props is a copy, so its EnsureInit reaches
      nothing the caller holds. */
  method ChooseDominant(t: MaterialCategoryTemplate, props: MaterialPropertyVector, count: nat)
    returns (r: Result<MaterialProperty>)
    ensures r == DominantOf(t.dominantCandidates, Contents(props, count))
  {
    var q := EnsureInit(props, count);
    if t.dominantCandidates.None? || |t.dominantCandidates.value| == 0 {
      return Success(Strength);
    }
    r := ScanDominant(q, t.dominantCandidates.value);
  }

  /** The scan of ChooseWeakness: a candidate replaces the weakest so far only
      when its value is strictly smaller. */
  method ScanWeakness(q: MaterialPropertyVector, c: seq<MaterialProperty>) returns (r: Result<MaterialProperty>)
    requires q.v != null && |c| > 0
    ensures Readable(c, q.v.Length) ==> r == Success(c[FirstMinIndex(Scores(c, q.v[..]))])
    ensures !Readable(c, q.v.Length) ==> r == Failure(IndexOutOfRange)
  {
    ghost var vals := q.v[..];
    ghost var sc := Scores(c, vals);
    var worst := c[0];
    var first := GetProperty(q, worst);
    if first.Failure? {
      return Failure(first.error);
    }
    var worstVal := first.value;
    ghost var k := 0;
    assert c[..1] == [c[0]];
    for i := 1 to |c|
      invariant q.v[..] == vals
      invariant Readable(c[..i], q.v.Length)
      invariant k < i && worst == c[k] && worstVal == sc[k]
      invariant forall j :: 0 <= j < i ==> worstVal <= sc[j]
      invariant forall j :: 0 <= j < k ==> worstVal < sc[j]
    {
      var p := c[i];
      var v := GetProperty(q, p);
      if v.Failure? {
        return Failure(v.error);
      }
      assert v.value == sc[i];
      ReadableSnoc(c, i, q.v.Length);
      if v.value < worstVal {
        worstVal := v.value;
        worst := p;
        k := i;
      }
    }
    assert c[..|c|] == c;
    FirstMinIndexUnique(sc, k);
    return Success(worst);
  }

  /** ChooseWeakness(tpl, props). */
  method ChooseWeakness(t: MaterialCategoryTemplate, props: MaterialPropertyVector, count: nat)
    returns (r: Result<MaterialProperty>)
    ensures r == WeaknessOf(t.weaknessCandidates, Contents(props, count))
  {
    var q := EnsureInit(props, count);
    if t.weaknessCandidates.None? || |t.weaknessCandidates.value| == 0 {
      return Success(Manufacturability);
    }
    r := ScanWeakness(q, t.weaknessCandidates.value);
  }

  /** As written, the default weakness has no slot: a template without
      weakness candidates makes `props[weakness] -= ...` throw. */
  lemma DefaultWeaknessAsWritten(vals: seq<real>)
    requires |vals| == Count
    ensures WeaknessOf(None, vals) == Success(Manufacturability)
    ensures Ordinal(Manufacturability) >= |vals|
  {}

  /** As written, the penalty on the default weakness is the indexer's
      out-of-range failure, and the 8-slot vector is left as it was. */
  method DefaultWeaknessPenaltyFails(props: MaterialPropertyVector) returns (o: Outcome)
    requires props.v != null && props.v.Length == Count
    modifies props.v
    ensures o == Fail(IndexOutOfRange)
    ensures props.v[..] == old(props.v[..])
  {
    var w := WeaknessOf(None, props.v[..]).value;
    o := AddToProperty(props, w, -WeaknessPenalty);
  }

  // ---------------------------------------------------------------------------
  // Abundance and name

  /** The category's commonness centre. */
  function BaseAbundance(c: MaterialCategory): (b: real)
    ensures 0.35 <= b <= 0.65
  {
    match c
    case Metal => 0.35
    case StoneSilicate => 0.65
    case SedimentaryCarbon => 0.45
    case Liquid => 0.50
    case Gas => 0.55
  }

  /** EstimateAbundance on a stream in state s: one Tri01. */
  function AbundanceDraw(c: MaterialCategory, s: bv32): (d: Draw<real>)
    ensures 0.0 <= d.value <= 1.0
    ensures d.state == Xorshift32(Xorshift32(s))
  {
    var t := DrawTri01(s);
    Draw(Mathf.Clamp01(BaseAbundance(c) + 0.25 * (2.0 * t.value - 1.0)), t.state)
  }

  /** The clamp never bites: abundance is within 0.25 of the category's centre,
      so metals never exceed 0.60 and stone never falls below 0.40. */
  lemma AbundanceNearBase(c: MaterialCategory, s: bv32)
    ensures BaseAbundance(c) - 0.25 <= AbundanceDraw(c, s).value < BaseAbundance(c) + 0.25
  {}

  /** EstimateAbundance(cat, ref rng). */
  method EstimateAbundance(c: MaterialCategory, rng: DeterministicRng) returns (x: real)
    modifies rng
    ensures Draw(x, rng.state) == AbundanceDraw(c, old(rng.state))
  {
    var baseMean := BaseAbundance(c);
    var tri := rng.Tri01();
    x := Mathf.Clamp01(baseMean + 0.25 * ((2.0 * tri) - 1.0));
  }

  function DigitChar(d: nat): (ch: char)
    requires d < 10
    ensures '0' <= ch <= '9'
  {
    "0123456789"[d]
  }

  function DigitValue(ch: char): nat
  {
    if '0' <= ch <= '9' then (ch - '0') as nat else 0
  }

  /** The decimal value of a digit string, most significant digit first. */
  function ParseDecimal(s: string): nat
  {
    if s == [] then 0 else ParseDecimal(s[..|s| - 1]) * 10 + DigitValue(s[|s| - 1])
  }

  /** n formatted with "0000". */
  function Pad4(n: nat): (s: string)
    requires n < 10000
    ensures |s| == 4
    ensures forall i :: 0 <= i < 4 ==> '0' <= s[i] <= '9'
  {
    [DigitChar(n / 10 / 10 / 10), DigitChar(n / 10 / 10 % 10), DigitChar(n / 10 % 10), DigitChar(n % 10)]
  }

  lemma DigitRoundTrip(d: nat)
    requires d < 10
    ensures DigitValue(DigitChar(d)) == d
  {}

  /** A four-character string read as a number, digit by digit. */
  lemma ParseDecimal4(s: string)
    requires |s| == 4
    ensures ParseDecimal(s) ==
              ((DigitValue(s[0]) * 10 + DigitValue(s[1])) * 10 + DigitValue(s[2])) * 10 + DigitValue(s[3])
  {
    var s3, s2, s1 := s[..3], s[..2], s[..1];
    assert s3[..2] == s2 && s2[..1] == s1 && s1[..0] == [];
    assert ParseDecimal(s1) == DigitValue(s[0]);
    assert ParseDecimal(s2) == ParseDecimal(s1) * 10 + DigitValue(s[1]);
    assert ParseDecimal(s3) == ParseDecimal(s2) * 10 + DigitValue(s[2]);
  }

  /** Reading the four digits back gives the number. */
  lemma Pad4RoundTrip(n: nat)
    requires n < 10000
    ensures ParseDecimal(Pad4(n)) == n
  {
    ParseDecimal4(Pad4(n));
    DigitRoundTrip(n / 10 / 10 / 10);
    DigitRoundTrip(n / 10 / 10 % 10);
    DigitRoundTrip(n / 10 % 10);
    DigitRoundTrip(n % 10);
  }

  /** The part of the name between the base name and the digits. */
  function NameMiddle(c: MaterialCategory, sub: MaterialSubtype): string
  {
    " (" + CategoryName(c) + ":" + SubtypeName(sub) + ") #"
  }

  /** MakeDisplayName: "{base} ({cat}:{sub}) #" and nodeSeed % 10000 as four
      digits. A null base name prints as nothing. */
  function MakeDisplayName(baseName: Option<string>, c: MaterialCategory, sub: MaterialSubtype, nodeSeed: bv32): (name: string)
    ensures var b := if baseName.Some? then baseName.value else "";
            && |name| == |b| + |NameMiddle(c, sub)| + 4
            && name[..|b|] == b
            && name[|b|..|name| - 4] == NameMiddle(c, sub)
            && ParseDecimal(name[|name| - 4..]) == Unsigned(nodeSeed) % 10000
  {
    var b := if baseName.Some? then baseName.value else "";
    ThreeParts(b, NameMiddle(c, sub), Pad4(Unsigned(nodeSeed) % 10000));
    Pad4RoundTrip(Unsigned(nodeSeed) % 10000);
    b + NameMiddle(c, sub) + Pad4(Unsigned(nodeSeed) % 10000)
  }

  /** The three parts of a + m + d can be cut back out. */
  lemma ThreeParts(a: string, m: string, d: string)
    ensures (a + m + d)[..|a|] == a
    ensures (a + m + d)[|a|..|a| + |m|] == m
    ensures (a + m + d)[|a| + |m|..] == d
  {
    assert a + m + d == a + (m + d);
  }

  /** The name starts with the base name, names the category and subtype in
      brackets, and ends in four digits that read back as nodeSeed % 10000. */
  lemma DisplayNameShape(baseName: string, c: MaterialCategory, sub: MaterialSubtype, nodeSeed: bv32)
    ensures var name := MakeDisplayName(Some(baseName), c, sub, nodeSeed);
            var mid := NameMiddle(c, sub);
            |name| == |baseName| + |mid| + 4 &&
            name[..|baseName|] == baseName &&
            name[|baseName|..|name| - 4] == mid &&
            ParseDecimal(name[|name| - 4..]) == Unsigned(nodeSeed) % 10000
  {
    ThreeParts(baseName, NameMiddle(c, sub), Pad4(Unsigned(nodeSeed) % 10000));
    Pad4RoundTrip(Unsigned(nodeSeed) % 10000);
  }

  /** Node seeds that differ modulo 10000 give different names. */
  lemma DisplayNamesDiffer(baseName: string, c: MaterialCategory, sub: MaterialSubtype, n1: bv32, n2: bv32)
    requires Unsigned(n1) % 10000 != Unsigned(n2) % 10000
    ensures MakeDisplayName(Some(baseName), c, sub, n1) != MakeDisplayName(Some(baseName), c, sub, n2)
  {
    DisplayNameShape(baseName, c, sub, n1);
    DisplayNameShape(baseName, c, sub, n2);
  }

  // ---------------------------------------------------------------------------
  // The generator

  /** MaterialInstance: the generator's output record. */
  class MaterialInstance {
    var displayName: string
    var category: MaterialCategory
    var subtype: MaterialSubtype
    var planetSeed: bv32
    var nodeSeed: bv32
    var estimatedPlanetaryAbundance: real
    var dominantProperty: MaterialProperty
    var weaknessProperty: MaterialProperty
    var properties: MaterialPropertyVector

    constructor (displayName: string, category: MaterialCategory, subtype: MaterialSubtype,
                 planetSeed: bv32, nodeSeed: bv32, abundance: real,
                 dominant: MaterialProperty, weakness: MaterialProperty, properties: MaterialPropertyVector)
      ensures this.displayName == displayName && this.category == category && this.subtype == subtype
      ensures this.planetSeed == planetSeed && this.nodeSeed == nodeSeed
      ensures this.estimatedPlanetaryAbundance == abundance
      ensures this.dominantProperty == dominant && this.weaknessProperty == weakness
      ensures this.properties == properties
    {
      this.displayName := displayName;
      this.category := category;
      this.subtype := subtype;
      this.planetSeed := planetSeed;
      this.nodeSeed := nodeSeed;
      this.estimatedPlanetaryAbundance := abundance;
      this.dominantProperty := dominant;
      this.weaknessProperty := weakness;
      this.properties := properties;
    }
  }

  /** The stream seed of a node on a planet. */
  function NodeState(planet: PlanetProfile, nodeSeed: bv32): bv32
  {
    InitialState(HashCombine(planet.planetSeed, nodeSeed))
  }

  /** The category the generator settles on for a node. */
  function ChosenCategory(planet: PlanetProfile, nodeSeed: bv32): MaterialCategory
  {
    CategoryDraw(planet, NodeState(planet, nodeSeed)).value
  }

  /** A fresh vector holding s (the vectors the builders return). */
  method Materialize(s: seq<real>) returns (p: MaterialPropertyVector)
    ensures p.v != null && fresh(p.v) && p.v[..] == s
  {
    var a := new real[|s|](i requires 0 <= i < |s| => s[i]);
    p := MaterialPropertyVector(a);
  }

  /** Every candidate has a slot once the vector covers all nine properties. */
  lemma AllReadable(c: seq<MaterialProperty>, n: nat)
    requires n > Ordinal(Manufacturability)
    ensures Readable(c, n)
  {
    forall i | 0 <= i < |c| ensures Ordinal(c[i]) < n {
      IndexerRange(c[i]);
    }
  }

  /** The bias step of Generate: the subtype adjustment, when the template has
      one for the subtype, and then the planet bias are added in place. */
  method ApplyBiases(t: MaterialCategoryTemplate, sub: MaterialSubtype, planet: PlanetProfile,
                     cat: MaterialCategory, props: MaterialPropertyVector, count: nat)
    requires props.v != null && props.v.Length == count > Ordinal(Manufacturability)
    modifies props.v
    ensures SubtypeAdjustmentOf(t, sub, count).Success?
    ensures props.v[..] ==
              Sum(Sum(old(props.v[..]), SubtypeAdjustmentOf(t, sub, count).value.1),
                  PlanetModifiers.BiasVector(planet, cat, sub, count))
  {
    ghost var s0 := props.v[..];
    var q := props;
    var adj := TryGetSubtypeAdjustment(t, sub, count);
    if adj.value.0 {
      var adjVec := Materialize(adj.value.1);
      q := Add(q, adjVec, count);
    } else {
      SumZeros(s0);
    }
    PlanetModifiers.ComputeIsBias(planet, cat, sub, count);
    var biasVec := Materialize(PlanetModifiers.Compute(planet, cat, sub, count).value);
    q := Add(q, biasVec, count);
  }

  /** The vector after the trait step: DominantBoost added to the dominant slot,
      WeaknessPenalty taken from the weak slot (both, when they are the same). */
  function Boosted(s: seq<real>, d: MaterialProperty, w: MaterialProperty): (r: seq<real>)
    requires Ordinal(d) < |s| && Ordinal(w) < |s|
    ensures |r| == |s|
    ensures forall i :: 0 <= i < |s| ==>
              r[i] == s[i] + (if i == Ordinal(d) then DominantBoost else 0.0)
                           - (if i == Ordinal(w) then WeaknessPenalty else 0.0)
  {
    var s1 := s[Ordinal(d) := s[Ordinal(d)] + DominantBoost];
    s1[Ordinal(w) := s1[Ordinal(w)] - WeaknessPenalty]
  }

  /** The two AddToProperty calls of the trait step, in place. */
  method Boost(props: MaterialPropertyVector, d: MaterialProperty, w: MaterialProperty)
    requires props.v != null && Ordinal(d) < props.v.Length && Ordinal(w) < props.v.Length
    modifies props.v
    ensures props.v[..] == Boosted(old(props.v[..]), d, w)
  {
    ghost var s0 := props.v[..];
    var o := AddToProperty(props, d, DominantBoost);
    assert o.Pass?;
    ghost var s1 := props.v[..];
    o := AddToProperty(props, w, -WeaknessPenalty);
    assert o.Pass?;
    assert s1 == s0[Ordinal(d) := s0[Ordinal(d)] + DominantBoost];
    assert props.v[..] == s1[Ordinal(w) := s1[Ordinal(w)] - WeaknessPenalty];
    assert Boosted(s0, d, w) == s1[Ordinal(w) := s1[Ordinal(w)] - WeaknessPenalty];
  }

  /** The trait step of Generate: both traits are read from the same vector,
      then the dominant slot is raised and the weak slot lowered in place. */
  method ApplyTraits(t: MaterialCategoryTemplate, props: MaterialPropertyVector, count: nat)
    returns (dominant: MaterialProperty, weakness: MaterialProperty)
    requires props.v != null && props.v.Length == count > Ordinal(Manufacturability)
    modifies props.v
    ensures DominantOf(t.dominantCandidates, old(props.v[..])) == Success(dominant)
    ensures WeaknessOf(t.weaknessCandidates, old(props.v[..])) == Success(weakness)
    ensures props.v[..] == Boosted(old(props.v[..]), dominant, weakness)
  {
    if t.dominantCandidates.Some? {
      AllReadable(t.dominantCandidates.value, count);
    }
    if t.weaknessCandidates.Some? {
      AllReadable(t.weaknessCandidates.value, count);
    }
    var d := ChooseDominant(t, props, count);
    var w := ChooseWeakness(t, props, count);
    dominant, weakness := d.value, w.value;
    IndexerRange(dominant);
    IndexerRange(weakness);
    Boost(props, dominant, weakness);
  }

  /** The Tier 0 rule passes in Generate's order, run in place. */
  method ApplyTierRules(props: MaterialPropertyVector, count: nat)
    requires props.v != null && props.v.Length == count > 0
    modifies props.v
    ensures props.v[..] == WithWeakness(OneDominant(HardCapped(Clamped01(old(props.v[..])))))
    ensures var s := props.v[..];
            WithinCaps(s) && HasWeakness(s)
  {
    ghost var s0 := props.v[..];
    var q := Clamp01(props, count);
    q := ApplyHardCaps(q, count);
    q := EnforceOneDominant(q, count);
    q := EnsureAWeakness(q, count);
    RuleChain(s0);
  }

  /** What Generate settles on for one node: the draws, the traits, the final
      property values and the abundance. */
  datatype NodeMaterial = NodeMaterial(category: MaterialCategory, subtype: MaterialSubtype,
                                       dominant: MaterialProperty, weakness: MaterialProperty,
                                       properties: seq<real>, abundance: real)

  /** Both trait choices succeed once every property has a slot. */
  lemma TraitsSucceed(t: MaterialCategoryTemplate, vals: seq<real>)
    requires |vals| > Ordinal(Manufacturability)
    ensures DominantOf(t.dominantCandidates, vals).Success?
    ensures WeaknessOf(t.weaknessCandidates, vals).Success?
  {
    if t.dominantCandidates.Some? {
      AllReadable(t.dominantCandidates.value, |vals|);
    }
    if t.weaknessCandidates.Some? {
      AllReadable(t.weaknessCandidates.value, |vals|);
    }
  }

  /** The vector the bias step leaves: the sample plus the subtype adjustment
      (zeros when there is none) plus the planet bias. */
  function BiasedSample(t: MaterialCategoryTemplate, planet: PlanetProfile, cat: MaterialCategory,
                        sub: MaterialSubtype, sampled: seq<real>): (r: seq<real>)
    requires |sampled| > Ordinal(Manufacturability)
    ensures |r| == |sampled|
  {
    var count := |sampled|;
    Sum(Sum(sampled, SubtypeAdjustmentOf(t, sub, count).value.1), PlanetModifiers.BiasVector(planet, cat, sub, count))
  }

  /** The steps of Generate after sampling, on the sampled values and the
      stream state after the sample. */
  function FinishOf(t: MaterialCategoryTemplate, planet: PlanetProfile, cat: MaterialCategory,
                    sub: MaterialSubtype, sampled: seq<real>, s: bv32): (m: NodeMaterial)
    requires |sampled| > Ordinal(Manufacturability)
    ensures m.category == cat && m.subtype == sub
    ensures |m.properties| == |sampled| && WithinCaps(m.properties) && HasWeakness(m.properties)
    ensures 0.0 <= m.abundance <= 1.0
  {
    var b := BiasedSample(t, planet, cat, sub, sampled);
    TraitsSucceed(t, b);
    var d := DominantOf(t.dominantCandidates, b).value;
    var w := WeaknessOf(t.weaknessCandidates, b).value;
    IndexerRange(d);
    IndexerRange(w);
    var boosted := Boosted(b, d, w);
    RuleChain(boosted);
    NodeMaterial(cat, sub, d, w, WithWeakness(OneDominant(HardCapped(Clamped01(boosted)))),
                 AbundanceDraw(cat, s).value)
  }

  /** Generate for a node whose category has template t, with vectors of
      `count` slots: category, subtype, sample, then FinishOf. */
  function NodeMaterialOf(t: MaterialCategoryTemplate, planet: PlanetProfile, nodeSeed: bv32, count: nat): (m: NodeMaterial)
    requires count > Ordinal(Manufacturability)
    ensures m.category == ChosenCategory(planet, nodeSeed)
    ensures m.subtype in Family(m.category)
    ensures |m.properties| == count && WithinCaps(m.properties) && HasWeakness(m.properties)
    ensures 0.0 <= m.abundance <= 1.0
  {
    var c := CategoryDraw(planet, NodeState(planet, nodeSeed));
    var sub := SubtypeDraw(c.value, c.state);
    var smp := SampleDraw(t, sub.state, count).value;
    FinishOf(t, planet, c.value, sub.value, smp.value, smp.state)
  }

  /** The traits chosen from a vector with a slot for every property are
      template candidates: the dominant one of greatest value (Strength when
      there are none), the weak one of least value (Manufacturability when
      there are none). */
  lemma ChosenTraits(t: MaterialCategoryTemplate, b: seq<real>)
    requires |b| > Ordinal(Manufacturability)
    ensures DominantOf(t.dominantCandidates, b).Success? && WeaknessOf(t.weaknessCandidates, b).Success?
    ensures var d := DominantOf(t.dominantCandidates, b).value;
            && (t.dominantCandidates.None? || t.dominantCandidates.value == [] ==> d == Strength)
            && (t.dominantCandidates.Some? && t.dominantCandidates.value != [] ==>
                  d in t.dominantCandidates.value &&
                  forall p :: p in t.dominantCandidates.value ==> b[Ordinal(p)] <= b[Ordinal(d)])
    ensures var w := WeaknessOf(t.weaknessCandidates, b).value;
            && (t.weaknessCandidates.None? || t.weaknessCandidates.value == [] ==> w == Manufacturability)
            && (t.weaknessCandidates.Some? && t.weaknessCandidates.value != [] ==>
                  w in t.weaknessCandidates.value &&
                  forall p :: p in t.weaknessCandidates.value ==> b[Ordinal(w)] <= b[Ordinal(p)])
  {
    TraitsSucceed(t, b);
    if t.dominantCandidates.Some? && t.dominantCandidates.value != [] {
      var c := t.dominantCandidates.value;
      var d := DominantOf(t.dominantCandidates, b).value;
      var k :| 0 <= k < |c| && d == c[k] &&
               forall i :: 0 <= i < |c| ==> b[Ordinal(c[i])] <= b[Ordinal(c[k])];
      forall p | p in c ensures b[Ordinal(p)] <= b[Ordinal(d)] {
        var i :| 0 <= i < |c| && c[i] == p;
      }
    }
    if t.weaknessCandidates.Some? && t.weaknessCandidates.value != [] {
      var c := t.weaknessCandidates.value;
      var w := WeaknessOf(t.weaknessCandidates, b).value;
      var k :| 0 <= k < |c| && w == c[k] &&
               forall i :: 0 <= i < |c| ==> b[Ordinal(c[k])] <= b[Ordinal(c[i])];
      forall p | p in c ensures b[Ordinal(w)] <= b[Ordinal(p)] {
        var i :| 0 <= i < |c| && c[i] == p;
      }
    }
  }

  /** FinishOf keeps the traits chosen from the biased sample and an abundance
      within 0.25 of the category's centre. */
  lemma FinishedTraits(t: MaterialCategoryTemplate, planet: PlanetProfile, cat: MaterialCategory,
                       sub: MaterialSubtype, sampled: seq<real>, s: bv32)
    requires |sampled| > Ordinal(Manufacturability)
    ensures var m := FinishOf(t, planet, cat, sub, sampled, s);
            var b := BiasedSample(t, planet, cat, sub, sampled);
            && DominantOf(t.dominantCandidates, b) == Success(m.dominant)
            && WeaknessOf(t.weaknessCandidates, b) == Success(m.weakness)
            && BaseAbundance(cat) - 0.25 <= m.abundance < BaseAbundance(cat) + 0.25
  {
    TraitsSucceed(t, BiasedSample(t, planet, cat, sub, sampled));
    AbundanceNearBase(cat, s);
  }

  /** The rest of Generate once the vector is sampled: the biases, the traits,
      the rule passes, the abundance draw and the instance itself. */
  method Finish(tpl: MaterialCategoryTemplate, planet: PlanetProfile, cat: MaterialCategory,
                subtype: MaterialSubtype, nodeSeed: bv32, baseName: Option<string>,
                props: MaterialPropertyVector, rng: DeterministicRng, count: nat)
    returns (inst: MaterialInstance)
    requires props.v != null && props.v.Length == count > Ordinal(Manufacturability)
    modifies props.v, rng
    ensures fresh(inst) && inst.properties == props
    ensures inst.category == cat && inst.subtype == subtype
    ensures inst.planetSeed == planet.planetSeed && inst.nodeSeed == nodeSeed
    ensures inst.displayName == MakeDisplayName(baseName, cat, subtype, nodeSeed)
    ensures var m := FinishOf(tpl, planet, cat, subtype, old(props.v[..]), old(rng.state));
            && inst.dominantProperty == m.dominant && inst.weaknessProperty == m.weakness
            && inst.estimatedPlanetaryAbundance == m.abundance
            && props.v[..] == m.properties
    ensures var s := props.v[..];
            WithinCaps(s) && HasWeakness(s)
  {
    ghost var s0 := props.v[..];
    ApplyBiases(tpl, subtype, planet, cat, props, count);
    assert props.v[..] == BiasedSample(tpl, planet, cat, subtype, s0);
    var dominant, weakness := ApplyTraits(tpl, props, count);
    ApplyTierRules(props, count);
    ghost var final := props.v[..];
    var abundance := EstimateAbundance(cat, rng);
    assert props.v[..] == final;
    inst := new MaterialInstance(MakeDisplayName(baseName, cat, subtype, nodeSeed), cat, subtype,
                                 planet.planetSeed, nodeSeed, abundance, dominant, weakness, props);
  }

  /** MaterialGeneratorT0, holding one template per category (null is None). */
  class MaterialGeneratorT0 {
    const metal: Option<MaterialCategoryTemplate>
    const stone: Option<MaterialCategoryTemplate>
    const sedimentary: Option<MaterialCategoryTemplate>
    const liquid: Option<MaterialCategoryTemplate>
    const gas: Option<MaterialCategoryTemplate>

    constructor (metal: Option<MaterialCategoryTemplate>, stone: Option<MaterialCategoryTemplate>,
                 sedimentary: Option<MaterialCategoryTemplate>, liquid: Option<MaterialCategoryTemplate>,
                 gas: Option<MaterialCategoryTemplate>)
      ensures this.metal == metal && this.stone == stone && this.sedimentary == sedimentary
      ensures this.liquid == liquid && this.gas == gas
    {
      this.metal := metal;
      this.stone := stone;
      this.sedimentary := sedimentary;
      this.liquid := liquid;
      this.gas := gas;
    }

    /** GetTemplate(cat): the template held for the category, in the order
        the category weights are listed; a null field stays missing. */
    function GetTemplate(c: MaterialCategory): (t: Option<MaterialCategoryTemplate>)
      ensures t == [metal, stone, sedimentary, liquid, gas][CategoryIndex(c)]
    {
      match c
      case Metal => metal
      case StoneSilicate => stone
      case SedimentaryCarbon => sedimentary
      case Liquid => liquid
      case Gas => gas
    }

    /** Generate(planet, nodeSeed, baseName) over vectors of `count` slots. */
    method Generate(planet: Option<PlanetProfile>, nodeSeed: bv32, baseName: Option<string>, count: nat)
      returns (r: Result<MaterialInstance>)
      requires Count <= count
      ensures planet.None? ==> r == Failure(ArgumentNull)
      ensures planet.Some? ==>
                (r == Failure(InvalidOperation) <==> GetTemplate(ChosenCategory(planet.value, nodeSeed)).None?)
      ensures planet.Some? && count <= Ordinal(Manufacturability) ==> r.Failure?
      ensures planet.Some? && count > Ordinal(Manufacturability) ==>
                (r.Success? <==> GetTemplate(ChosenCategory(planet.value, nodeSeed)).Some?)
      ensures r.Success? ==>
                var inst := r.value;
                fresh(inst) && planet.Some? &&
                inst.category == ChosenCategory(planet.value, nodeSeed) &&
                inst.subtype in Family(inst.category) &&
                inst.planetSeed == planet.value.planetSeed && inst.nodeSeed == nodeSeed &&
                inst.displayName == MakeDisplayName(baseName, inst.category, inst.subtype, nodeSeed) &&
                0.0 <= inst.estimatedPlanetaryAbundance <= 1.0 &&
                inst.properties.v != null && fresh(inst.properties.v) && inst.properties.v.Length == count
      ensures r.Success? ==>
                var inst := r.value;
                var m := NodeMaterialOf(GetTemplate(inst.category).value, planet.value, nodeSeed, count);
                && inst.subtype == m.subtype
                && inst.dominantProperty == m.dominant && inst.weaknessProperty == m.weakness
                && inst.properties.v[..] == m.properties
                && inst.estimatedPlanetaryAbundance == m.abundance
      ensures r.Success? ==>
                var s := r.value.properties.v[..];
                WithinCaps(s) && HasWeakness(s)
    {
      if planet.None? {
        return Failure(ArgumentNull);
      }
      var pl := planet.value;
      var seed := HashCombine(pl.planetSeed, nodeSeed);
      var rng := new DeterministicRng(seed);
      var cat := ChooseCategory(pl, rng);
      var subtype := ChooseSubtype(cat, rng);
      var tplOpt := GetTemplate(cat);
      if tplOpt.None? {
        return Failure(InvalidOperation);
      }
      var tpl := tplOpt.value;
      var sampled := SampleFromTemplate(tpl, rng, count);
      if sampled.Failure? {
        return Failure(sampled.error);
      }
      var inst := Finish(tpl, pl, cat, subtype, nodeSeed, baseName, sampled.value, rng, count);
      assert inst.properties == sampled.value;
      return Success(inst);
    }
  }
}
