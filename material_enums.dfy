/** Assets/Runtime/Materials/MaterialEnums.cs and the plain planet record of
    Assets/Scripts/Data/PlanetProfileSO.cs. */
module MaterialEnums {

  datatype MaterialCategory = Metal | StoneSilicate | SedimentaryCarbon | Liquid | Gas

  datatype MaterialSubtype =
    | NativeMetal | MetalOxide | SulfideOre                // metal family
    | SilicateRock | VolcanicGlass | CeramicMineral        // stone family
    | CarbonRich | OrganicSediment                         // sedimentary family
    | WaterBrine | HydrocarbonLiquid | ReactiveSolvent     // liquid family
    | InertGas | ReactiveGas                               // gas family

  datatype PlanetTempBand = Cryo | Temperate | Hot | Extreme
  datatype PlanetPressureBand = Low | Normal | High
  datatype PlanetAtmoChem = Reducing | Neutral | Oxidizing
  datatype HydrosphereType = NoHydrosphere | Water | Acidic | Hydrocarbon

  /** Nine properties; the enum's ordinals are the vector slots. */
  datatype MaterialProperty =
    | Strength | MaxTemperature | ThermalConductivity | ElectricalConductivity
    | EnergyPotential | ErosionResistance | CorrosionResistance | Density
    | Manufacturability

  /** (int)p. */
  function Ordinal(p: MaterialProperty): (k: nat)
    ensures k < 9
  {
    match p
    case Strength => 0
    case MaxTemperature => 1
    case ThermalConductivity => 2
    case ElectricalConductivity => 3
    case EnergyPotential => 4
    case ErosionResistance => 5
    case CorrosionResistance => 6
    case Density => 7
    case Manufacturability => 8
  }

  /** (MaterialProperty)i for a declared ordinal. */
  function PropertyAt(i: nat): (p: MaterialProperty)
    requires i < 9
    ensures Ordinal(p) == i
  {
    [Strength, MaxTemperature, ThermalConductivity, ElectricalConductivity,
     EnergyPotential, ErosionResistance, CorrosionResistance, Density,
     Manufacturability][i]
  }

  /** Ordinals name the properties one-to-one. */
  lemma OrdinalInjective(p: MaterialProperty, q: MaterialProperty)
    ensures Ordinal(p) == Ordinal(q) ==> p == q
  {}

  /** A statement about every property follows from the nine cases. */
  lemma EveryProperty(P: MaterialProperty -> bool)
    requires P(Strength) && P(MaxTemperature) && P(ThermalConductivity) && P(ElectricalConductivity)
    requires P(EnergyPotential) && P(ErosionResistance) && P(CorrosionResistance) && P(Density)
    requires P(Manufacturability)
    ensures forall p :: P(p)
  {
    forall p ensures P(p) {
      match p
      case Strength =>
      case MaxTemperature =>
      case ThermalConductivity =>
      case ElectricalConductivity =>
      case EnergyPotential =>
      case ErosionResistance =>
      case CorrosionResistance =>
      case Density =>
      case Manufacturability =>
    }
  }

  /** MaterialPropertyCount.Count as written: one slot fewer than there are properties. */
  const Count: nat := 8

  /** The slot count that gives every property, Manufacturability included, a slot. */
  const CorrectedCount: nat := 9

  /** The declared name of a category, as Enum.ToString prints it. */
  function CategoryName(c: MaterialCategory): string
  {
    match c
    case Metal => "Metal"
    case StoneSilicate => "StoneSilicate"
    case SedimentaryCarbon => "SedimentaryCarbon"
    case Liquid => "Liquid"
    case Gas => "Gas"
  }

  /** The declared name of a subtype, as Enum.ToString prints it. */
  function SubtypeName(s: MaterialSubtype): string
  {
    match s
    case NativeMetal => "NativeMetal"
    case MetalOxide => "MetalOxide"
    case SulfideOre => "SulfideOre"
    case SilicateRock => "SilicateRock"
    case VolcanicGlass => "VolcanicGlass"
    case CeramicMineral => "CeramicMineral"
    case CarbonRich => "CarbonRich"
    case OrganicSediment => "OrganicSediment"
    case WaterBrine => "WaterBrine"
    case HydrocarbonLiquid => "HydrocarbonLiquid"
    case ReactiveSolvent => "ReactiveSolvent"
    case InertGas => "InertGas"
    case ReactiveGas => "ReactiveGas"
  }

  /** PlanetProfileSO: bands, category weights and the planet seed. */
  datatype PlanetProfile = PlanetProfile(
    tempBand: PlanetTempBand,
    pressureBand: PlanetPressureBand,
    atmoChem: PlanetAtmoChem,
    hydrosphere: HydrosphereType,
    weightMetal: real,
    weightStoneSilicate: real,
    weightSedimentaryCarbon: real,
    weightLiquid: real,
    weightGas: real,
    planetSeed: bv32)

  /** The field initialisers of PlanetProfileSO. */
  const DefaultPlanet := PlanetProfile(Temperate, Normal, Neutral, Water, 1.0, 2.0, 1.0, 1.0, 1.0, 12345)
}
