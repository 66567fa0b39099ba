/** Assets/Runtime/Materials/MaterialVisualGeneratorT0.cs: the render
    parameters of a material instance in a processing state, derived from its
    properties, a seeded stream and an optional paint override. */
module VisualGenerator {
  import opened Wrappers
  import Mathf
  import opened Rng
  import opened MaterialEnums
  import opened PropertyVectors
  import opened Colors
  import opened VisualPalettes
  import MaterialGenerator

  /** MaterialVisualState, in declaration order (the code compares it by order). */
  datatype MaterialVisualState = RawOre | ConcentratedOre | RefinedStock | ManufacturedPart | PaintedPart

  /** (uint)state. */
  function StateOrdinal(s: MaterialVisualState): (k: nat)
    ensures k < 5
  {
    match s
    case RawOre => 0
    case ConcentratedOre => 1
    case RefinedStock => 2
    case ManufacturedPart => 3
    case PaintedPart => 4
  }

  /** MaterialVisualProfile: the parameters handed to the renderer. */
  datatype MaterialVisualProfile = MaterialVisualProfile(
    visualState: MaterialVisualState,
    baseColor: Color,
    metallic: real,
    smoothness: real,
    normalStrength: real,
    noiseScale: real,
    noiseStrength: real,
    dirtStrength: real,
    oxidationStrength: real,
    heatTintStrength: real,
    heatTintColor: Color,
    usePaint: bool,
    paintColor: Color,
    paintStrength: real)

  const RustColor: Color := Rgb(0.45, 0.22, 0.18)
  const HeatTintColor: Color := Rgb(0.95, 0.55, 0.20)

  // ---------------------------------------------------------------------------
  // The Compute* helpers

  /** ComputeMetallic: metals around 0.80 (oxides around 0.10) nudged by the
      electrical conductivity; stone 0.02, sediment 0.05, the rest 0. */
  function Metallic(c: MaterialCategory, sub: MaterialSubtype, elecK: real): (m: real)
    ensures 0.0 <= m <= 1.0
    ensures c != Metal ==> m <= 0.05
    ensures c == Metal && 0.0 <= elecK <= 1.0 && sub == MetalOxide ==> 0.025 <= m <= 0.175
    ensures c == Metal && 0.0 <= elecK <= 1.0 && sub != MetalOxide ==> 0.725 <= m <= 0.875
  {
    if c == Metal then
      var baseM := if sub == MetalOxide then 0.10 else 0.80;
      Mathf.Clamp01(baseM + 0.15 * (elecK - 0.5))
    else if c == StoneSilicate then 0.02
    else if c == SedimentaryCarbon then 0.05
    else 0.0
  }

  /** For conductivities in [0,1] an oxide always reads less metallic than any
      other metal, and any metal more metallic than any non-metal other than an oxide. */
  lemma OxidesReadLessMetallic(sub: MaterialSubtype, c: MaterialCategory, e1: real, e2: real, e3: real)
    requires 0.0 <= e1 <= 1.0 && 0.0 <= e2 <= 1.0
    requires sub != MetalOxide && c != Metal
    ensures Metallic(Metal, MetalOxide, e1) < Metallic(Metal, sub, e2)
    ensures Metallic(c, sub, e3) < Metallic(Metal, sub, e2)
  {}

  /** The state part of ComputeSmoothness. */
  function SmoothnessBase(s: MaterialVisualState): real
  {
    match s
    case RawOre => 0.10
    case ConcentratedOre => 0.18
    case RefinedStock => 0.35
    case ManufacturedPart => 0.55
    case PaintedPart => 0.60
  }

  /** The category part of ComputeSmoothness. */
  function SmoothnessBias(c: MaterialCategory): real
  {
    match c
    case Metal => 0.10
    case StoneSilicate => -0.08
    case SedimentaryCarbon => -0.05
    case _ => 0.0
  }

  /** ComputeSmoothness. */
  function Smoothness(s: MaterialVisualState, manuf: real, corrosion: real, c: MaterialCategory, sub: MaterialSubtype): (r: real)
    ensures 0.0 <= r <= 1.0
  {
    Mathf.Clamp01(SmoothnessBase(s) + SmoothnessBias(c) + 0.20 * (manuf - 0.5) - 0.10 * (1.0 - corrosion))
  }

  /** Later states, easier manufacture and better corrosion resistance never
      make a surface rougher. */
  lemma SmoothnessMonotone(s1: MaterialVisualState, s2: MaterialVisualState, m1: real, m2: real,
                           k1: real, k2: real, c: MaterialCategory, sub: MaterialSubtype)
    requires StateOrdinal(s1) <= StateOrdinal(s2) && m1 <= m2 && k1 <= k2
    ensures Smoothness(s1, m1, k1, c, sub) <= Smoothness(s2, m2, k2, c, sub)
  {
    assert SmoothnessBase(s1) <= SmoothnessBase(s2);
    Mathf.Clamp01Monotone(SmoothnessBase(s1) + SmoothnessBias(c) + 0.20 * (m1 - 0.5) - 0.10 * (1.0 - k1),
                          SmoothnessBase(s2) + SmoothnessBias(c) + 0.20 * (m2 - 0.5) - 0.10 * (1.0 - k2));
  }

  /** The state part of ComputeNoiseStrength. */
  function NoiseBase(s: MaterialVisualState): (b: real)
    ensures 0.10 <= b <= 0.85
  {
    match s
    case RawOre => 0.85
    case ConcentratedOre => 0.65
    case RefinedStock => 0.35
    case ManufacturedPart => 0.20
    case PaintedPart => 0.10
  }

  /** b * f for a base b and a factor f, kept whole so that its bounds are
      proved once. */
  function Damped(b: real, f: real): (r: real)
    ensures 0.0 <= b && 0.0 <= f ==> 0.0 <= r
    ensures 0.0 <= b && f <= 1.15 ==> r <= 1.15 * b
  {
    if 0.0 <= b && f <= 1.15 then
      Mathf.MulNonNegative(b, 1.15 - f);
      b * f
    else b * f
  }

  /** ComputeNoiseStrength: the state's base damped by manufacturability, with
      a floor of 0.22 for refined or later stone. */
  function NoiseStrength(s: MaterialVisualState, manuf: real, c: MaterialCategory): (r: real)
    ensures 0.0 <= r <= 1.0
    ensures c == StoneSilicate && StateOrdinal(s) >= StateOrdinal(RefinedStock) ==> r >= 0.22
  {
    var n := Damped(NoiseBase(s), Mathf.Lerp(1.15, 0.75, manuf));
    var n' := if c == StoneSilicate && StateOrdinal(s) >= StateOrdinal(RefinedStock) then Mathf.Max(n, 0.22) else n;
    Mathf.Clamp01(n')
  }

  /** The state part of ComputeDirtStrength. */
  function DirtBase(s: MaterialVisualState): real
  {
    match s
    case RawOre => 0.70
    case ConcentratedOre => 0.45
    case RefinedStock => 0.15
    case ManufacturedPart => 0.05
    case PaintedPart => 0.03
  }

  /** ComputeDirtStrength: stone and sediment hold 0.10 more grime. */
  function DirtStrength(s: MaterialVisualState, c: MaterialCategory): (r: real)
    ensures 0.0 <= r <= 1.0
  {
    var d := DirtBase(s);
    if c == SedimentaryCarbon || c == StoneSilicate then Mathf.Clamp01(d + 0.10) else d
  }

  /** Dirt never grows as processing advances, and stone and sediment are
      never cleaner than the other categories. */
  lemma DirtFallsWithState(s1: MaterialVisualState, s2: MaterialVisualState, c: MaterialCategory, other: MaterialCategory)
    requires StateOrdinal(s1) <= StateOrdinal(s2)
    requires other != SedimentaryCarbon && other != StoneSilicate
    ensures DirtStrength(s2, c) <= DirtStrength(s1, c)
    ensures DirtStrength(s1, other) <= DirtStrength(s1, c)
  {
    assert DirtBase(s2) <= DirtBase(s1);
  }

  /** The state part of ComputeOxidationStrength. */
  function OxidationBase(s: MaterialVisualState): (b: real)
    ensures 0.05 <= b <= 0.60
  {
    match s
    case RawOre => 0.60
    case ConcentratedOre => 0.45
    case RefinedStock => 0.20
    case ManufacturedPart => 0.10
    case PaintedPart => 0.05
  }

  /** ComputeOxidationStrength: nothing for non-metals. */
  function OxidationStrength(s: MaterialVisualState, c: MaterialCategory, corrosion: real): (r: real)
    ensures 0.0 <= r <= 1.0
    ensures c != Metal ==> r == 0.0
  {
    if c != Metal then 0.0
    else Mathf.Clamp01(Damped(OxidationBase(s), Mathf.Lerp(1.20, 0.60, corrosion)))
  }

  /** ComputeHeatTintStrength. */
  function HeatTintStrength(s: MaterialVisualState, maxTemp: real, erosion: real, c: MaterialCategory): (r: real)
    ensures StateOrdinal(s) < StateOrdinal(ManufacturedPart) ==> r == 0.0
    ensures StateOrdinal(s) >= StateOrdinal(ManufacturedPart) && c != Metal ==> r == 0.05 * (1.0 - maxTemp)
    ensures c == Metal ==> 0.0 <= r <= 1.0
  {
    if StateOrdinal(s) < StateOrdinal(ManufacturedPart) then 0.0
    else if c != Metal then 0.05 * (1.0 - maxTemp)
    else
      var heatVuln := 0.60 * (1.0 - maxTemp) + 0.40 * (1.0 - erosion);
      Mathf.Clamp01(0.15 + 0.50 * heatVuln)
  }

  /** For properties in [0,1], non-metals show at most 0.05 of heat tint and
      metals at least 0.15 once manufactured. */
  lemma HeatTintBounds(s: MaterialVisualState, maxTemp: real, erosion: real, c: MaterialCategory)
    requires 0.0 <= maxTemp <= 1.0 && 0.0 <= erosion <= 1.0
    ensures c != Metal ==> 0.0 <= HeatTintStrength(s, maxTemp, erosion, c) <= 0.05
    ensures c == Metal && StateOrdinal(s) >= StateOrdinal(ManufacturedPart) ==>
              0.15 <= HeatTintStrength(s, maxTemp, erosion, c)
  {}

  // ---------------------------------------------------------------------------
  // Generate

  /** (uint)state + 1u. */
  function StateSalt(s: MaterialVisualState): bv32
  {
    Salts[StateOrdinal(s)]
  }

  const Salts: seq<bv32> := [1, 2, 3, 4, 5]

  /** The salt is the state's ordinal plus one. */
  lemma StateSaltIsOrdinalPlusOne(s: MaterialVisualState)
    ensures StateSalt(s) as int == StateOrdinal(s) + 1
  {}

  /** The stream seed: the material's planet and node seeds, then state + 1. */
  function VisualSeed(planetSeed: bv32, nodeSeed: bv32, s: MaterialVisualState): bv32
  {
    HashCombine(HashCombine(planetSeed, nodeSeed), StateSalt(s))
  }

  /** The rust tint applies to metals on a planet with an oxidizing atmosphere. */
  predicate RustApplies(planet: Option<PlanetProfile>, c: MaterialCategory)
  {
    planet.Some? && planet.value.atmoChem == Oxidizing && c == Metal
  }

  /** The two base-colour passes after construction: alpha forced to 1, then
      a tenth of the way towards the colour scaled by Lerp(0.85, 1.05, density). */
  function Settled(c: Color, density: real): Color
  {
    var solid := Colors.Lerp(c, Rgb(c.r, c.g, c.b), 1.0);
    Colors.Lerp(solid, Times(solid, Mathf.Lerp(0.85, 1.05, density)), 0.10)
  }

  /** The paint override applied to a profile. */
  function Painted(p: MaterialVisualProfile, paintColor: Color, paintStrength01: real): (q: MaterialVisualProfile)
    ensures q.visualState == PaintedPart && q.usePaint && q.paintColor == paintColor
    ensures 0.0 <= q.paintStrength <= 1.0
    ensures q.metallic <= p.metallic
  {
    var paint := Mathf.Clamp01(paintStrength01);
    p.(visualState := PaintedPart, usePaint := true, paintStrength := paint, paintColor := paintColor,
       metallic := Mathf.Lerp(p.metallic, Mathf.Min(p.metallic, 0.35), 0.65 * paint),
       smoothness := Mathf.Lerp(p.smoothness, Mathf.Clamp01(p.smoothness + 0.15), 0.30 * paint))
  }

  /** Paint marks the profile painted, never raises metallic, never lowers a
      smoothness in [0,1], and leaves every other field as it was. */
  lemma PaintRules(p: MaterialVisualProfile, paintColor: Color, paintStrength01: real)
    requires 0.0 <= p.smoothness <= 1.0
    ensures var q := Painted(p, paintColor, paintStrength01);
            && q.visualState == PaintedPart && q.usePaint
            && q.paintColor == paintColor && 0.0 <= q.paintStrength <= 1.0
            && Mathf.Min(p.metallic, 0.35) <= q.metallic <= p.metallic
            && p.smoothness <= q.smoothness <= Mathf.Clamp01(p.smoothness + 0.15)
            && q.(visualState := p.visualState, usePaint := p.usePaint, paintColor := p.paintColor,
                  paintStrength := p.paintStrength, metallic := p.metallic, smoothness := p.smoothness) == p
  {}

  /** The slots Generate reads, by property. */
  function Slot(vals: seq<real>, p: MaterialProperty): real
    requires |vals| > Ordinal(Manufacturability)
  {
    vals[Ordinal(p)]
  }

  /** The profile as first assembled from the base colour, the noise-scale
      draw u and the property slots, before the colour passes and the paint. */
  function Assembled(s: MaterialVisualState, base: Color, u: real, vals: seq<real>,
                     c: MaterialCategory, sub: MaterialSubtype,
                     paintColor: Color, paintStrength01: real): MaterialVisualProfile
    requires |vals| > Ordinal(Manufacturability)
  {
    var corrosion := Slot(vals, CorrosionResistance);
    var manuf := Slot(vals, Manufacturability);
    MaterialVisualProfile(
      s, base,
      Metallic(c, sub, Slot(vals, ElectricalConductivity)),
      Smoothness(s, manuf, corrosion, c, sub),
      Mathf.Lerp(1.2, 0.6, manuf),
      Mathf.Lerp(0.9, 2.8, u),
      NoiseStrength(s, manuf, c),
      DirtStrength(s, c),
      OxidationStrength(s, c, corrosion),
      HeatTintStrength(s, Slot(vals, MaxTemperature), Slot(vals, ErosionResistance), c),
      HeatTintColor,
      false, paintColor, Mathf.Clamp01(paintStrength01))
  }

  /** The two base-colour passes, then the paint override. */
  function Finished(p: MaterialVisualProfile, density: real, paintedOverride: bool,
                    paintColor: Color, paintStrength01: real): MaterialVisualProfile
  {
    var settled := p.(baseColor := Settled(p.baseColor, density));
    if paintedOverride then Painted(settled, paintColor, paintStrength01) else settled
  }

  /** The picked colour, pulled toward rust on an oxidizing planet. */
  function Tinted(planet: Option<PlanetProfile>, c: MaterialCategory, picked: Color, corrosion: real): Color
  {
    if RustApplies(planet, c) then Colors.Lerp(picked, RustColor, 0.15 * (1.0 - corrosion)) else picked
  }

  /** The profile Generate builds once every slot was read, from the stream
      state st the seed gives. */
  function ProfileFrom(planet: Option<PlanetProfile>, c: MaterialCategory, sub: MaterialSubtype,
                       st: bv32, vals: seq<real>, s: MaterialVisualState,
                       paintedOverride: bool, paintColor: Color, paintStrength01: real,
                       toHsv: Color -> Hsv, fromHsv: Hsv -> Color): MaterialVisualProfile
    requires |vals| > Ordinal(Manufacturability)
  {
    var pick := PickDraw(c, sub, st, toHsv);
    var base := Tinted(planet, c, fromHsv(pick.value), Slot(vals, CorrosionResistance));
    var p := Assembled(s, base, Draw01(pick.state).value, vals, c, sub, paintColor, paintStrength01);
    Finished(p, Slot(vals, Density), paintedOverride, paintColor, paintStrength01)
  }

  /** ProfileFrom is the pick, the rust tint, the assembly and the colour passes in turn. */
  lemma ProfileFromSteps(planet: Option<PlanetProfile>, c: MaterialCategory, sub: MaterialSubtype,
                         st: bv32, vals: seq<real>, s: MaterialVisualState,
                         paintedOverride: bool, paintColor: Color, paintStrength01: real,
                         toHsv: Color -> Hsv, fromHsv: Hsv -> Color)
    requires |vals| > Ordinal(Manufacturability)
    ensures var pick := PickDraw(c, sub, st, toHsv);
            ProfileFrom(planet, c, sub, st, vals, s, paintedOverride, paintColor, paintStrength01, toHsv, fromHsv)
              == Finished(Assembled(s, Tinted(planet, c, fromHsv(pick.value), Slot(vals, CorrosionResistance)),
                                    Draw01(pick.state).value, vals, c, sub, paintColor, paintStrength01),
                          Slot(vals, Density), paintedOverride, paintColor, paintStrength01)
  {}

  /** What Generate returns for a material with the given fields and property
      slots (after EnsureInit). Reading Manufacturability throws unless the
      vector has a ninth slot, before any colour is drawn. */
  function VisualOf(planet: Option<PlanetProfile>, c: MaterialCategory, sub: MaterialSubtype,
                    planetSeed: bv32, nodeSeed: bv32, vals: seq<real>, s: MaterialVisualState,
                    paintedOverride: bool, paintColor: Color, paintStrength01: real,
                    toHsv: Color -> Hsv, fromHsv: Hsv -> Color): (r: Result<MaterialVisualProfile>)
    ensures r.Failure? <==> |vals| <= Ordinal(Manufacturability)
    ensures r.Failure? ==> r.error == IndexOutOfRange
  {
    if |vals| <= Ordinal(Manufacturability) then Failure(IndexOutOfRange)
    else
      Success(ProfileFrom(planet, c, sub, InitialState(VisualSeed(planetSeed, nodeSeed, s)), vals, s,
                          paintedOverride, paintColor, paintStrength01, toHsv, fromHsv))
  }

  /** As written, with 8 slots, the read of Manufacturability throws, so no
      material instance ever gets a visual profile. */
  lemma VisualAsWrittenFails(planet: Option<PlanetProfile>, c: MaterialCategory, sub: MaterialSubtype,
                             planetSeed: bv32, nodeSeed: bv32, vals: seq<real>, s: MaterialVisualState,
                             paintedOverride: bool, paintColor: Color, paintStrength01: real,
                             toHsv: Color -> Hsv, fromHsv: Hsv -> Color)
    requires |vals| == Count
    ensures VisualOf(planet, c, sub, planetSeed, nodeSeed, vals, s, paintedOverride, paintColor,
                     paintStrength01, toHsv, fromHsv) == Failure(IndexOutOfRange)
  {}

  /** With a ninth slot every material gets a profile, and its strengths and
      scales lie in their ranges. */
  lemma VisualCorrected(planet: Option<PlanetProfile>, c: MaterialCategory, sub: MaterialSubtype,
                        planetSeed: bv32, nodeSeed: bv32, vals: seq<real>, s: MaterialVisualState,
                        paintedOverride: bool, paintColor: Color, paintStrength01: real,
                        toHsv: Color -> Hsv, fromHsv: Hsv -> Color)
    requires |vals| == CorrectedCount
    ensures var r := VisualOf(planet, c, sub, planetSeed, nodeSeed, vals, s, paintedOverride, paintColor,
                              paintStrength01, toHsv, fromHsv);
            && r.Success?
            && 0.0 <= r.value.metallic <= 1.0 && 0.0 <= r.value.smoothness <= 1.0
            && 0.0 <= r.value.noiseStrength <= 1.0 && 0.0 <= r.value.dirtStrength <= 1.0
            && 0.0 <= r.value.oxidationStrength <= 1.0 && 0.0 <= r.value.paintStrength <= 1.0
  {
    ProfileStrengthsInRange(planet, c, sub, InitialState(VisualSeed(planetSeed, nodeSeed, s)), vals, s,
                            paintedOverride, paintColor, paintStrength01, toHsv, fromHsv);
  }

  /** Without paint the state is kept and UsePaint is off; with paint the
      profile is the unpainted one put through the paint rules. */
  lemma PaintOverride(planet: Option<PlanetProfile>, c: MaterialCategory, sub: MaterialSubtype,
                      st: bv32, vals: seq<real>, s: MaterialVisualState,
                      paintColor: Color, paintStrength01: real, toHsv: Color -> Hsv, fromHsv: Hsv -> Color)
    requires |vals| > Ordinal(Manufacturability)
    ensures var plain := ProfileFrom(planet, c, sub, st, vals, s, false, paintColor, paintStrength01, toHsv, fromHsv);
            var painted := ProfileFrom(planet, c, sub, st, vals, s, true, paintColor, paintStrength01, toHsv, fromHsv);
            && plain.visualState == s && !plain.usePaint
            && painted == Painted(plain, paintColor, paintStrength01)
            && painted.visualState == PaintedPart && painted.usePaint
            && painted.metallic <= plain.metallic && plain.smoothness <= painted.smoothness
  {
    var plain := ProfileFrom(planet, c, sub, st, vals, s, false, paintColor, paintStrength01, toHsv, fromHsv);
    PaintRules(plain, paintColor, paintStrength01);
  }

  /** The planet only matters through the rust condition: two planets that
      agree on it give the same profile, and without it the base colour is the
      settled palette pick. */
  lemma PlanetOnlyTintsRust(p1: Option<PlanetProfile>, p2: Option<PlanetProfile>, c: MaterialCategory, sub: MaterialSubtype,
                            st: bv32, vals: seq<real>, s: MaterialVisualState,
                            paintColor: Color, paintStrength01: real, toHsv: Color -> Hsv, fromHsv: Hsv -> Color)
    requires |vals| > Ordinal(Manufacturability)
    requires RustApplies(p1, c) == RustApplies(p2, c)
    ensures ProfileFrom(p1, c, sub, st, vals, s, false, paintColor, paintStrength01, toHsv, fromHsv) ==
            ProfileFrom(p2, c, sub, st, vals, s, false, paintColor, paintStrength01, toHsv, fromHsv)
    ensures !RustApplies(p1, c) ==>
              ProfileFrom(p1, c, sub, st, vals, s, false, paintColor, paintStrength01, toHsv, fromHsv).baseColor ==
              Settled(fromHsv(PickDraw(c, sub, st, toHsv).value), vals[Ordinal(Density)])
  {}

  /** Every strength of a generated profile lies in [0,1]. */
  lemma ProfileStrengthsInRange(planet: Option<PlanetProfile>, c: MaterialCategory, sub: MaterialSubtype,
                                st: bv32, vals: seq<real>, s: MaterialVisualState,
                                paintedOverride: bool, paintColor: Color, paintStrength01: real,
                                toHsv: Color -> Hsv, fromHsv: Hsv -> Color)
    requires |vals| > Ordinal(Manufacturability)
    ensures var p := ProfileFrom(planet, c, sub, st, vals, s, paintedOverride, paintColor, paintStrength01, toHsv, fromHsv);
            && 0.0 <= p.metallic <= 1.0 && 0.0 <= p.smoothness <= 1.0
            && 0.0 <= p.noiseStrength <= 1.0 && 0.0 <= p.dirtStrength <= 1.0
            && 0.0 <= p.oxidationStrength <= 1.0 && 0.0 <= p.paintStrength <= 1.0
            && 0.6 <= p.normalStrength <= 1.2 && 0.9 <= p.noiseScale <= 2.8
  {
    var plain := ProfileFrom(planet, c, sub, st, vals, s, false, paintColor, paintStrength01, toHsv, fromHsv);
    PaintRules(plain, paintColor, paintStrength01);
  }

  /** The eight indexer reads of Generate, in source order; the first read
      without a slot throws. */
  method ReadSlots(q: MaterialPropertyVector) returns (r: Result<seq<real>>)
    requires q.v != null
    ensures r.Failure? <==> q.v.Length <= Ordinal(Manufacturability)
    ensures r.Failure? ==> r.error == IndexOutOfRange
    ensures r.Success? ==> r.value == q.v[..]
  {
    var strength := GetProperty(q, Strength);
    if strength.Failure? { return Failure(strength.error); }
    var maxTemp := GetProperty(q, MaxTemperature);
    if maxTemp.Failure? { return Failure(maxTemp.error); }
    var thermK := GetProperty(q, ThermalConductivity);
    if thermK.Failure? { return Failure(thermK.error); }
    var elecK := GetProperty(q, ElectricalConductivity);
    if elecK.Failure? { return Failure(elecK.error); }
    var erosion := GetProperty(q, ErosionResistance);
    if erosion.Failure? { return Failure(erosion.error); }
    var corrosion := GetProperty(q, CorrosionResistance);
    if corrosion.Failure? { return Failure(corrosion.error); }
    var density := GetProperty(q, Density);
    if density.Failure? { return Failure(density.error); }
    var manuf := GetProperty(q, Manufacturability);
    if manuf.Failure? { return Failure(manuf.error); }
    r := Success(q.v[..]);
  }

  /** The stream Generate seeds: HashCombine of the two material seeds, then
      HashCombine with state + 1. */
  method SeedStream(planetSeed: bv32, nodeSeed: bv32, s: MaterialVisualState) returns (rng: DeterministicRng)
    ensures fresh(rng) && rng.state == InitialState(VisualSeed(planetSeed, nodeSeed, s))
  {
    var seed := HashCombine(planetSeed, nodeSeed);
    seed := HashCombine(seed, StateSalt(s));
    rng := new DeterministicRng(seed);
  }

  /** The palette pick, then the rust tint on an oxidizing planet. */
  method TintedBase(planet: Option<PlanetProfile>, c: MaterialCategory, sub: MaterialSubtype,
                    rng: DeterministicRng, corrosion: real, toHsv: Color -> Hsv, fromHsv: Hsv -> Color)
    returns (baseColor: Color)
    modifies rng
    ensures baseColor == Tinted(planet, c, fromHsv(PickDraw(c, sub, old(rng.state), toHsv).value), corrosion)
    ensures rng.state == PickDraw(c, sub, old(rng.state), toHsv).state
  {
    baseColor := PickBase(c, sub, rng, toHsv, fromHsv);
    if planet.Some? && planet.value.atmoChem == Oxidizing && c == Metal {
      baseColor := Colors.Lerp(baseColor, RustColor, 0.15 * (1.0 - corrosion));
    }
  }

  /** The profile part of Generate, from the slots read and the seeded stream. */
  method BuildProfile(planet: Option<PlanetProfile>, c: MaterialCategory, sub: MaterialSubtype,
                      rng: DeterministicRng, vals: seq<real>, s: MaterialVisualState,
                      paintedOverride: bool, paintColor: Color, paintStrength01: real,
                      toHsv: Color -> Hsv, fromHsv: Hsv -> Color)
    returns (profile: MaterialVisualProfile)
    requires |vals| > Ordinal(Manufacturability)
    modifies rng
    ensures profile == ProfileFrom(planet, c, sub, old(rng.state), vals, s, paintedOverride, paintColor,
                                   paintStrength01, toHsv, fromHsv)
  {
    var corrosion, density := vals[Ordinal(CorrosionResistance)], vals[Ordinal(Density)];
    ghost var pick := PickDraw(c, sub, rng.state, toHsv);
    var baseColor := TintedBase(planet, c, sub, rng, corrosion, toHsv, fromHsv);
    var noise := rng.Next01();
    assert noise == Draw01(pick.state).value;
    profile := Assembled(s, baseColor, noise, vals, c, sub, paintColor, paintStrength01);
    ghost var assembled := profile;
    // The two base-colour passes, then the paint override.
    profile := profile.(baseColor := Settled(profile.baseColor, density));
    if paintedOverride {
      profile := Painted(profile, paintColor, paintStrength01);
    }
    assert profile == Finished(assembled, density, paintedOverride, paintColor, paintStrength01);
    ProfileFromSteps(planet, c, sub, old(rng.state), vals, s, paintedOverride, paintColor, paintStrength01, toHsv, fromHsv);
  }

  /** Generate after the stream is seeded: EnsureInit on the material's own
      vector, the slot reads, then the profile from the stream. */
  method GenerateFrom(planet: Option<PlanetProfile>, mat: MaterialGenerator.MaterialInstance, rng: DeterministicRng,
                      s: MaterialVisualState, paintedOverride: bool, paintColor: Color, paintStrength01: real,
                      count: nat, toHsv: Color -> Hsv, fromHsv: Hsv -> Color)
    returns (r: Result<MaterialVisualProfile>)
    modifies mat, rng
    ensures var vals := old(Contents(mat.properties, count));
            r == if |vals| <= Ordinal(Manufacturability) then Failure(IndexOutOfRange)
                 else Success(ProfileFrom(planet, mat.category, mat.subtype, old(rng.state), vals, s,
                                          paintedOverride, paintColor, paintStrength01, toHsv, fromHsv))
    ensures mat.properties.v != null && mat.properties.v[..] == old(Contents(mat.properties, count))
    ensures mat.displayName == old(mat.displayName) && mat.category == old(mat.category)
    ensures mat.subtype == old(mat.subtype) && mat.planetSeed == old(mat.planetSeed)
    ensures mat.nodeSeed == old(mat.nodeSeed)
    ensures mat.estimatedPlanetaryAbundance == old(mat.estimatedPlanetaryAbundance)
    ensures mat.dominantProperty == old(mat.dominantProperty) && mat.weaknessProperty == old(mat.weaknessProperty)
  {
    var q := EnsureInit(mat.properties, count);
    mat.properties := q;
    var vals := ReadSlots(q);
    if vals.Failure? {
      return Failure(vals.error);
    }
    var profile := BuildProfile(planet, mat.category, mat.subtype, rng, vals.value, s,
                                paintedOverride, paintColor, paintStrength01, toHsv, fromHsv);
    return Success(profile);
  }

  /** Generate(planet, mat, state, paintedOverride, paintColor, paintStrength01)
      over vectors of `count` slots. A null material throws at its first field
      read. EnsureInit runs on the material's own vector, so the material may
      be left holding a fresh zero vector. */
  method Generate(planet: Option<PlanetProfile>, mat: MaterialGenerator.MaterialInstance?, s: MaterialVisualState,
                  paintedOverride: bool, paintColor: Color, paintStrength01: real, count: nat,
                  toHsv: Color -> Hsv, fromHsv: Hsv -> Color)
    returns (r: Result<MaterialVisualProfile>)
    modifies mat
    ensures mat == null ==> r == Failure(NullReference)
    ensures mat != null ==>
              r == VisualOf(planet, mat.category, mat.subtype, mat.planetSeed, mat.nodeSeed,
                            old(Contents(mat.properties, count)), s, paintedOverride, paintColor,
                            paintStrength01, toHsv, fromHsv)
    ensures mat != null ==> mat.properties.v != null && mat.properties.v[..] == old(Contents(mat.properties, count))
    ensures mat != null ==>
              && mat.displayName == old(mat.displayName) && mat.category == old(mat.category)
              && mat.subtype == old(mat.subtype) && mat.planetSeed == old(mat.planetSeed)
              && mat.nodeSeed == old(mat.nodeSeed)
              && mat.estimatedPlanetaryAbundance == old(mat.estimatedPlanetaryAbundance)
              && mat.dominantProperty == old(mat.dominantProperty) && mat.weaknessProperty == old(mat.weaknessProperty)
  {
    if mat == null {
      return Failure(NullReference);
    }
    var rng := SeedStream(mat.planetSeed, mat.nodeSeed, s);
    r := GenerateFrom(planet, mat, rng, s, paintedOverride, paintColor, paintStrength01, count, toHsv, fromHsv);
  }
}
