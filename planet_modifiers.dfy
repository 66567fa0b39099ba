/** Assets/Scripts/Data/PlanetModifiersT0.cs: the additive bias a planet's four
    bands put on a material's property vector. Compute builds a fresh zero vector
    and applies `+=`/`-=` through the partial indexer in four switches; it reads
    nothing but the bands, the category and the subtype. */
module PlanetModifiers {
  import opened Wrappers
  import opened MaterialEnums
  import opened PropertyVectors

  /** v[prop] += delta through the indexer: IndexOutOfRange past the end. */
  function Bump(v: seq<real>, prop: MaterialProperty, delta: real): (r: Result<seq<real>>)
    ensures r.Success? <==> Ordinal(prop) < |v|
    ensures r.Failure? ==> r.error == IndexOutOfRange
    ensures r.Success? ==> |r.value| == |v| && r.value[Ordinal(prop)] - delta == v[Ordinal(prop)]
    ensures r.Success? ==> forall i :: 0 <= i < |v| && i != Ordinal(prop) ==> r.value[i] == v[i]
  {
    var k := Ordinal(prop);
    if k < |v| then Success(v[k := v[k] + delta]) else Failure(IndexOutOfRange)
  }

  /** The temperature switch. */
  function TempStep(v: seq<real>, band: PlanetTempBand): (r: Result<seq<real>>)
    ensures r.Success? ==> |r.value| == |v|
  {
    match band
    case Cryo =>
      var v1 :- Bump(v, MaxTemperature, -0.03);
      Bump(v1, Manufacturability, -0.02)
    case Temperate => Success(v)
    case Hot =>
      var v1 :- Bump(v, MaxTemperature, 0.08);
      Bump(v1, Manufacturability, -0.03)
    case Extreme =>
      var v1 :- Bump(v, MaxTemperature, 0.10);
      var v2 :- Bump(v1, Manufacturability, -0.05);
      Bump(v2, ErosionResistance, 0.03)
  }

  /** The pressure switch. */
  function PressureStep(v: seq<real>, band: PlanetPressureBand): (r: Result<seq<real>>)
    ensures r.Success? ==> |r.value| == |v|
  {
    match band
    case Low => Bump(v, Density, -0.02)
    case Normal => Success(v)
    case High =>
      var v1 :- Bump(v, Strength, 0.05);
      Bump(v1, Density, 0.03)
  }

  /** Oxidizing atmospheres hit metals harder than anything else. */
  predicate OxidationSensitive(cat: MaterialCategory, sub: MaterialSubtype)
  {
    cat == Metal || sub == SulfideOre || sub == NativeMetal
  }

  /** The atmosphere switch. */
  function AtmoStep(v: seq<real>, atmo: PlanetAtmoChem, cat: MaterialCategory, sub: MaterialSubtype): (r: Result<seq<real>>)
    ensures r.Success? ==> |r.value| == |v|
  {
    match atmo
    case Reducing => Bump(v, CorrosionResistance, 0.02)
    case Neutral => Success(v)
    case Oxidizing =>
      if OxidationSensitive(cat, sub) then Bump(v, CorrosionResistance, -0.08)
      else Bump(v, CorrosionResistance, -0.03)
  }

  /** The hydrosphere switch. */
  function HydroStep(v: seq<real>, hydro: HydrosphereType, cat: MaterialCategory): (r: Result<seq<real>>)
    ensures r.Success? ==> |r.value| == |v|
  {
    match hydro
    case NoHydrosphere => Success(v)
    case Water =>
      var v1 :- if cat == Metal then Bump(v, CorrosionResistance, -0.08) else Success(v);
      if cat == StoneSilicate then Bump(v1, CorrosionResistance, 0.05) else Success(v1)
    case Acidic =>
      if cat == Metal then Bump(v, CorrosionResistance, -0.12)
      else Bump(v, CorrosionResistance, -0.06)
    case Hydrocarbon =>
      if cat == Metal then Bump(v, CorrosionResistance, 0.02) else Success(v)
  }

  /** PlanetModifiersT0.Compute over a vector of `count` slots. */
  function Compute(planet: PlanetProfile, cat: MaterialCategory, sub: MaterialSubtype, count: nat): (r: Result<seq<real>>)
    ensures r.Success? ==> |r.value| == count
  {
    var v1 :- TempStep(Zeros(count), planet.tempBand);
    var v2 :- PressureStep(v1, planet.pressureBand);
    var v3 :- AtmoStep(v2, planet.atmoChem, cat, sub);
    HydroStep(v3, planet.hydrosphere, cat)
  }

  // ---------------------------------------------------------------------------
  // The bias channel by channel: an independent reading of the four switches.

  function TempDelta(band: PlanetTempBand, prop: MaterialProperty): real
  {
    match (band, prop)
    case (Cryo, MaxTemperature) => -0.03
    case (Cryo, Manufacturability) => -0.02
    case (Hot, MaxTemperature) => 0.08
    case (Hot, Manufacturability) => -0.03
    case (Extreme, MaxTemperature) => 0.10
    case (Extreme, Manufacturability) => -0.05
    case (Extreme, ErosionResistance) => 0.03
    case _ => 0.0
  }

  function PressureDelta(band: PlanetPressureBand, prop: MaterialProperty): real
  {
    match (band, prop)
    case (Low, Density) => -0.02
    case (High, Strength) => 0.05
    case (High, Density) => 0.03
    case _ => 0.0
  }

  /** The corrosion change of the atmosphere switch. */
  function AtmoCorrosion(atmo: PlanetAtmoChem, cat: MaterialCategory, sub: MaterialSubtype): real
  {
    match atmo
    case Reducing => 0.02
    case Neutral => 0.0
    case Oxidizing => if OxidationSensitive(cat, sub) then -0.08 else -0.03
  }

  /** The corrosion change of the hydrosphere switch. */
  function HydroCorrosion(hydro: HydrosphereType, cat: MaterialCategory): real
  {
    match hydro
    case NoHydrosphere => 0.0
    case Water => if cat == Metal then -0.08 else if cat == StoneSilicate then 0.05 else 0.0
    case Acidic => if cat == Metal then -0.12 else -0.06
    case Hydrocarbon => if cat == Metal then 0.02 else 0.0
  }

  /** The corrosion change of the atmosphere and hydrosphere together. */
  function CorrosionDelta(planet: PlanetProfile, cat: MaterialCategory, sub: MaterialSubtype): real
  {
    AtmoCorrosion(planet.atmoChem, cat, sub) + HydroCorrosion(planet.hydrosphere, cat)
  }

  /** The bias on one property. */
  function Delta(planet: PlanetProfile, cat: MaterialCategory, sub: MaterialSubtype, prop: MaterialProperty): real
  {
    TempDelta(planet.tempBand, prop) + PressureDelta(planet.pressureBand, prop)
      + (if prop == CorrosionResistance then CorrosionDelta(planet, cat, sub) else 0.0)
  }

  /** The bias vector over `count` slots: slot i carries Delta of property i. */
  function BiasVector(planet: PlanetProfile, cat: MaterialCategory, sub: MaterialSubtype, count: nat): (r: seq<real>)
    ensures |r| == count
  {
    seq(count, i requires 0 <= i < count => if i < 9 then Delta(planet, cat, sub, PropertyAt(i)) else 0.0)
  }

  /** The temperature change of slot i (none past the properties). */
  function TempAt(band: PlanetTempBand, i: nat): real
  {
    if i < 9 then TempDelta(band, PropertyAt(i)) else 0.0
  }

  /** The pressure change of slot i. */
  function PressureAt(band: PlanetPressureBand, i: nat): real
  {
    if i < 9 then PressureDelta(band, PropertyAt(i)) else 0.0
  }

  /** Slot i of the bias vector is the sum of the three channels' changes. */
  lemma BiasSlot(planet: PlanetProfile, cat: MaterialCategory, sub: MaterialSubtype, count: nat, i: nat)
    requires i < count
    ensures BiasVector(planet, cat, sub, count)[i] ==
              TempAt(planet.tempBand, i) + PressureAt(planet.pressureBand, i)
              + (if i == Ordinal(CorrosionResistance) then CorrosionDelta(planet, cat, sub) else 0.0)
  {
    if i < 9 {
      OrdinalInjective(PropertyAt(i), CorrosionResistance);
    }
  }

  lemma TempStepAdds(v: seq<real>, band: PlanetTempBand)
    ensures TempStep(v, band).Failure? <==> band != Temperate && |v| <= Ordinal(Manufacturability)
    ensures TempStep(v, band).Success? ==>
              |TempStep(v, band).value| == |v| &&
              forall i :: 0 <= i < |v| ==> TempStep(v, band).value[i] == v[i] + TempAt(band, i)
  {
    var r := TempStep(v, band);
    if r.Success? {
      forall i | 0 <= i < |v| ensures r.value[i] == v[i] + TempAt(band, i) {
        if i < 9 {
          assert Ordinal(PropertyAt(i)) == i;
        }
      }
    }
  }

  lemma PressureStepAdds(v: seq<real>, band: PlanetPressureBand)
    requires |v| > Ordinal(Density)
    ensures PressureStep(v, band).Success?
    ensures |PressureStep(v, band).value| == |v|
    ensures forall i :: 0 <= i < |v| ==> PressureStep(v, band).value[i] == v[i] + PressureAt(band, i)
  {
    var r := PressureStep(v, band).value;
    forall i | 0 <= i < |v| ensures r[i] == v[i] + PressureAt(band, i) {
      if i < 9 {
        assert Ordinal(PropertyAt(i)) == i;
      }
    }
  }

  lemma AtmoStepAdds(v: seq<real>, atmo: PlanetAtmoChem, cat: MaterialCategory, sub: MaterialSubtype)
    requires |v| > Ordinal(CorrosionResistance)
    ensures AtmoStep(v, atmo, cat, sub) == Success(v[6 := v[6] + AtmoCorrosion(atmo, cat, sub)])
  {
    if atmo == Neutral {
      assert v[6 := v[6] + 0.0] == v;
    }
  }

  lemma HydroStepAdds(v: seq<real>, hydro: HydrosphereType, cat: MaterialCategory)
    requires |v| > Ordinal(CorrosionResistance)
    ensures HydroStep(v, hydro, cat) == Success(v[6 := v[6] + HydroCorrosion(hydro, cat)])
  {
    if HydroCorrosion(hydro, cat) == 0.0 {
      assert v[6 := v[6] + 0.0] == v;
    }
    if hydro == Water && cat == StoneSilicate {
      assert HydroStep(v, hydro, cat) == Bump(v, CorrosionResistance, 0.05);
    }
  }

  lemma CorrosionStepsAdd(v: seq<real>, planet: PlanetProfile, cat: MaterialCategory, sub: MaterialSubtype)
    requires |v| > Ordinal(CorrosionResistance)
    ensures AtmoStep(v, planet.atmoChem, cat, sub).Success?
    ensures HydroStep(AtmoStep(v, planet.atmoChem, cat, sub).value, planet.hydrosphere, cat) ==
              Success(v[6 := v[6] + CorrosionDelta(planet, cat, sub)])
  {
    AtmoStepAdds(v, planet.atmoChem, cat, sub);
    var v1 := AtmoStep(v, planet.atmoChem, cat, sub).value;
    HydroStepAdds(v1, planet.hydrosphere, cat);
    var a := AtmoCorrosion(planet.atmoChem, cat, sub);
    var h := HydroCorrosion(planet.hydrosphere, cat);
    assert v1 == v[6 := v[6] + a];
    assert v1[6 := v1[6] + h] == v[6 := v[6] + (a + h)];
  }

  /** Once the temperature switch has succeeded, Compute is the bias vector. */
  lemma ComputeSucceedsWithBias(planet: PlanetProfile, cat: MaterialCategory, sub: MaterialSubtype, count: nat)
    requires count > Ordinal(Density)
    requires TempStep(Zeros(count), planet.tempBand).Success?
    ensures Compute(planet, cat, sub, count) == Success(BiasVector(planet, cat, sub, count))
  {
    var z := Zeros(count);
    TempStepAdds(z, planet.tempBand);
    var v1 := TempStep(z, planet.tempBand).value;
    PressureStepAdds(v1, planet.pressureBand);
    var v2 := PressureStep(v1, planet.pressureBand).value;
    CorrosionStepsAdd(v2, planet, cat, sub);
    var r := v2[6 := v2[6] + CorrosionDelta(planet, cat, sub)];
    assert Compute(planet, cat, sub, count) == Success(r);
    var b := BiasVector(planet, cat, sub, count);
    forall i | 0 <= i < count ensures r[i] == b[i] {
      assert z[i] == 0.0;
      BiasSlot(planet, cat, sub, count, i);
    }
    assert r == b;
  }

  /** Compute fails exactly when a temperature band other than Temperate writes
      Manufacturability past the end of the vector; otherwise it is the bias
      vector, slot by slot. */
  lemma ComputeIsBias(planet: PlanetProfile, cat: MaterialCategory, sub: MaterialSubtype, count: nat)
    requires count > Ordinal(Density)
    ensures Compute(planet, cat, sub, count).Failure? <==> planet.tempBand != Temperate && count <= Ordinal(Manufacturability)
    ensures Compute(planet, cat, sub, count).Failure? ==> Compute(planet, cat, sub, count).error == IndexOutOfRange
    ensures Compute(planet, cat, sub, count).Success? ==> Compute(planet, cat, sub, count).value == BiasVector(planet, cat, sub, count)
  {
    var z := Zeros(count);
    TempStepAdds(z, planet.tempBand);
    if TempStep(z, planet.tempBand).Success? {
      ComputeSucceedsWithBias(planet, cat, sub, count);
    } else {
      assert Compute(planet, cat, sub, count) == Failure(IndexOutOfRange);
    }
  }

  // ---------------------------------------------------------------------------
  // What the bias promises.

  /** A temperate, normal-pressure, neutral, dry planet biases nothing. */
  lemma NeutralPlanetIsZero(planet: PlanetProfile, cat: MaterialCategory, sub: MaterialSubtype, count: nat)
    requires count > Ordinal(Density)
    requires planet.tempBand == Temperate && planet.pressureBand == Normal
    requires planet.atmoChem == Neutral && planet.hydrosphere == NoHydrosphere
    ensures Compute(planet, cat, sub, count) == Success(Zeros(count))
  {
    ComputeIsBias(planet, cat, sub, count);
    var r := Compute(planet, cat, sub, count).value;
    assert forall i :: 0 <= i < count && i < 9 ==> Delta(planet, cat, sub, PropertyAt(i)) == 0.0;
    assert r == Zeros(count);
  }

  lemma AtmoCorrosionBounds(atmo: PlanetAtmoChem, cat: MaterialCategory, sub: MaterialSubtype)
    ensures -0.08 <= AtmoCorrosion(atmo, cat, sub) <= 0.02
  {}

  lemma HydroCorrosionBounds(hydro: HydrosphereType, cat: MaterialCategory)
    ensures -0.12 <= HydroCorrosion(hydro, cat) <= 0.05
  {}

  lemma TempDeltaBounds(band: PlanetTempBand)
    ensures -0.03 <= TempDelta(band, MaxTemperature) <= 0.10
    ensures 0.0 <= TempDelta(band, ErosionResistance) <= 0.03
    ensures -0.05 <= TempDelta(band, Manufacturability) <= 0.0
    ensures forall p :: p !in {MaxTemperature, ErosionResistance, Manufacturability} ==> TempDelta(band, p) == 0.0
  {}

  lemma PressureDeltaBounds(band: PlanetPressureBand)
    ensures -0.02 <= PressureDelta(band, Density) <= 0.03
    ensures 0.0 <= PressureDelta(band, Strength) <= 0.05
    ensures forall p :: p !in {Density, Strength} ==> PressureDelta(band, p) == 0.0
  {}

  /** The per-channel totals stay small. */
  lemma DeltaBounds(planet: PlanetProfile, cat: MaterialCategory, sub: MaterialSubtype)
    ensures -0.20 <= Delta(planet, cat, sub, CorrosionResistance) <= 0.07
    ensures -0.03 <= Delta(planet, cat, sub, MaxTemperature) <= 0.10
    ensures -0.02 <= Delta(planet, cat, sub, Density) <= 0.03
    ensures 0.0 <= Delta(planet, cat, sub, Strength) <= 0.05
    ensures 0.0 <= Delta(planet, cat, sub, ErosionResistance) <= 0.03
    ensures -0.05 <= Delta(planet, cat, sub, Manufacturability) <= 0.0
  {
    AtmoCorrosionBounds(planet.atmoChem, cat, sub);
    HydroCorrosionBounds(planet.hydrosphere, cat);
    TempDeltaBounds(planet.tempBand);
    PressureDeltaBounds(planet.pressureBand);
  }

  /** The conductivity and energy channels are never written. */
  lemma UnwrittenChannels(planet: PlanetProfile, cat: MaterialCategory, sub: MaterialSubtype)
    ensures Delta(planet, cat, sub, ThermalConductivity) == 0.0
    ensures Delta(planet, cat, sub, ElectricalConductivity) == 0.0
    ensures Delta(planet, cat, sub, EnergyPotential) == 0.0
  {
    TempDeltaBounds(planet.tempBand);
    PressureDeltaBounds(planet.pressureBand);
  }

  /** Outside the corrosion slot the bias vector ignores category and subtype. */
  lemma BiasOutsideCorrosion(planet: PlanetProfile, cat1: MaterialCategory, sub1: MaterialSubtype,
                             cat2: MaterialCategory, sub2: MaterialSubtype, count: nat)
    ensures forall i :: 0 <= i < count && i != Ordinal(CorrosionResistance) ==>
              BiasVector(planet, cat1, sub1, count)[i] == BiasVector(planet, cat2, sub2, count)[i]
  {
    var b1 := BiasVector(planet, cat1, sub1, count);
    var b2 := BiasVector(planet, cat2, sub2, count);
    forall i | 0 <= i < count && i != Ordinal(CorrosionResistance) ensures b1[i] == b2[i] {
      if i < 9 {
        var p := PropertyAt(i);
        assert p != CorrosionResistance;
        assert Delta(planet, cat1, sub1, p) == Delta(planet, cat2, sub2, p);
      }
    }
  }

  /** Category and subtype reach only the corrosion channel: whether Compute
      succeeds does not depend on them, and neither does any other slot. */
  lemma OnlyCorrosionDependsOnMaterial(planet: PlanetProfile, cat1: MaterialCategory, sub1: MaterialSubtype,
                                       cat2: MaterialCategory, sub2: MaterialSubtype, count: nat)
    requires count > Ordinal(Density)
    requires Compute(planet, cat1, sub1, count).Success?
    ensures Compute(planet, cat2, sub2, count).Success?
    ensures forall i :: 0 <= i < count && i != Ordinal(CorrosionResistance) ==>
              Compute(planet, cat1, sub1, count).value[i] == Compute(planet, cat2, sub2, count).value[i]
  {
    var c1 := Compute(planet, cat1, sub1, count);
    var c2 := Compute(planet, cat2, sub2, count);
    ComputeIsBias(planet, cat1, sub1, count);
    ComputeIsBias(planet, cat2, sub2, count);
    assert c2.Success?;
    BiasOutsideCorrosion(planet, cat1, sub1, cat2, sub2, count);
    forall i | 0 <= i < count && i != Ordinal(CorrosionResistance) ensures c1.value[i] == c2.value[i] {
      assert c1.value[i] == BiasVector(planet, cat1, sub1, count)[i];
    }
  }

  /** Under an oxidizing atmosphere the corrosion change is -0.08 for metals,
      native metal and sulfide ore, and -0.03 for everything else, before the
      hydrosphere adds its own. */
  lemma OxidizingCorrosion(planet: PlanetProfile, cat: MaterialCategory, sub: MaterialSubtype)
    requires planet.atmoChem == Oxidizing && planet.hydrosphere == NoHydrosphere
    ensures OxidationSensitive(cat, sub) ==> Delta(planet, cat, sub, CorrosionResistance) == -0.08
    ensures !OxidationSensitive(cat, sub) ==> Delta(planet, cat, sub, CorrosionResistance) == -0.03
  {}

  /** As written (8 slots) the Cryo, Hot and Extreme branches throw
      IndexOutOfRangeException at their Manufacturability write. */
  lemma ComputeAsWrittenFails(planet: PlanetProfile, cat: MaterialCategory, sub: MaterialSubtype)
    requires planet.tempBand != Temperate
    ensures Compute(planet, cat, sub, Count) == Failure(IndexOutOfRange)
  {
    ComputeIsBias(planet, cat, sub, Count);
  }

  /** With a slot for Manufacturability every planet yields its bias vector. */
  lemma ComputeCorrected(planet: PlanetProfile, cat: MaterialCategory, sub: MaterialSubtype)
    ensures Compute(planet, cat, sub, CorrectedCount) == Success(BiasVector(planet, cat, sub, CorrectedCount))
  {
    ComputeIsBias(planet, cat, sub, CorrectedCount);
  }
}
