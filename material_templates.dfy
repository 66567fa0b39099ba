/** Assets/Scripts/Data/MaterialCategoryTemplateSO.cs: per-category property
    templates and per-subtype additive adjustments. The template assets are
    plain data the core only reads, so they are values here; the three vector
    builders write one slot per property through the partial indexer into a
    fresh zero vector of `count` slots. */
module MaterialTemplates {
  import opened Wrappers
  import opened MaterialEnums
  import opened PropertyVectors

  /** PropertyTemplate: a mean and a spread for one property. */
  datatype PropertyTemplate = PropertyTemplate(mean: real, spread: real)

  /** SubtypeAdjustment: additive score-space adjustments for one subtype. */
  datatype SubtypeAdjustment = SubtypeAdjustment(
    subtype: MaterialSubtype,
    strength: real,
    maxTemperature: real,
    thermalConductivity: real,
    electricalConductivity: real,
    energyPotential: real,
    erosionResistance: real,
    corrosionResistance: real,
    density: real,
    manufacturability: real)
  {
    /** The field named after property p. */
    function Field(p: MaterialProperty): real
    {
      match p
      case Strength => strength
      case MaxTemperature => maxTemperature
      case ThermalConductivity => thermalConductivity
      case ElectricalConductivity => electricalConductivity
      case EnergyPotential => energyPotential
      case ErosionResistance => erosionResistance
      case CorrosionResistance => corrosionResistance
      case Density => density
      case Manufacturability => manufacturability
    }
  }

  /** MaterialCategoryTemplateSO. Null arrays are None. */
  datatype MaterialCategoryTemplate = MaterialCategoryTemplate(
    category: MaterialCategory,
    strength: PropertyTemplate,
    maxTemperature: PropertyTemplate,
    thermalConductivity: PropertyTemplate,
    electricalConductivity: PropertyTemplate,
    energyPotential: PropertyTemplate,
    erosionResistance: PropertyTemplate,
    corrosionResistance: PropertyTemplate,
    density: PropertyTemplate,
    manufacturability: PropertyTemplate,
    dominantCandidates: Option<seq<MaterialProperty>>,
    weaknessCandidates: Option<seq<MaterialProperty>>,
    subtypeAdjustments: Option<seq<SubtypeAdjustment>>)
  {
    /** The template field named after property p. */
    function Template(p: MaterialProperty): PropertyTemplate
    {
      match p
      case Strength => strength
      case MaxTemperature => maxTemperature
      case ThermalConductivity => thermalConductivity
      case ElectricalConductivity => electricalConductivity
      case EnergyPotential => energyPotential
      case ErosionResistance => erosionResistance
      case CorrosionResistance => corrosionResistance
      case Density => density
      case Manufacturability => manufacturability
    }
  }

  /** v[prop] = x through the indexer: IndexOutOfRange past the end. */
  function Put(v: seq<real>, prop: MaterialProperty, x: real): (r: Result<seq<real>>)
    ensures r.Success? <==> Ordinal(prop) < |v|
    ensures r.Failure? ==> r.error == IndexOutOfRange
    ensures r.Success? ==> r.value == v[Ordinal(prop) := x]
  {
    var k := Ordinal(prop);
    if k < |v| then Success(v[k := x]) else Failure(IndexOutOfRange)
  }

  /** The nine indexer writes of a builder, in declaration order, into
      CreateZero's vector. The last write, Manufacturability, needs a ninth slot. */
  function FromFields(field: MaterialProperty -> real, count: nat): (r: Result<seq<real>>)
    ensures r.Success? <==> count > Ordinal(Manufacturability)
    ensures r.Failure? ==> r.error == IndexOutOfRange
    ensures r.Success? ==> |r.value| == count
    ensures r.Success? ==> forall p :: r.value[Ordinal(p)] == field(p)
    ensures r.Success? ==> forall i :: Ordinal(Manufacturability) < i < count ==> r.value[i] == 0.0
  {
    var v0 := Zeros(count);
    var v1 :- Put(v0, Strength, field(Strength));
    var v2 :- Put(v1, MaxTemperature, field(MaxTemperature));
    var v3 :- Put(v2, ThermalConductivity, field(ThermalConductivity));
    var v4 :- Put(v3, ElectricalConductivity, field(ElectricalConductivity));
    var v5 :- Put(v4, EnergyPotential, field(EnergyPotential));
    var v6 :- Put(v5, ErosionResistance, field(ErosionResistance));
    var v7 :- Put(v6, CorrosionResistance, field(CorrosionResistance));
    var v8 :- Put(v7, Density, field(Density));
    var v9 :- Put(v8, Manufacturability, field(Manufacturability));
    EveryProperty(p => v9[Ordinal(p)] == field(p));
    Success(v9)
  }

  /** SubtypeAdjustment.ToVector. */
  function ToVector(a: SubtypeAdjustment, count: nat): (r: Result<seq<real>>)
    ensures r.Success? <==> count > Ordinal(Manufacturability)
    ensures r.Failure? ==> r.error == IndexOutOfRange
    ensures r.Success? ==> |r.value| == count && forall p :: r.value[Ordinal(p)] == a.Field(p)
  {
    FromFields(p => a.Field(p), count)
  }

  /** GetMeanVector. */
  function GetMeanVector(t: MaterialCategoryTemplate, count: nat): (r: Result<seq<real>>)
    ensures r.Success? <==> count > Ordinal(Manufacturability)
    ensures r.Failure? ==> r.error == IndexOutOfRange
    ensures r.Success? ==> |r.value| == count && forall p :: r.value[Ordinal(p)] == t.Template(p).mean
  {
    FromFields(p => t.Template(p).mean, count)
  }

  /** GetSpreadVector. */
  function GetSpreadVector(t: MaterialCategoryTemplate, count: nat): (r: Result<seq<real>>)
    ensures r.Success? <==> count > Ordinal(Manufacturability)
    ensures r.Failure? ==> r.error == IndexOutOfRange
    ensures r.Success? ==> |r.value| == count && forall p :: r.value[Ordinal(p)] == t.Template(p).spread
  {
    FromFields(p => t.Template(p).spread, count)
  }

  /** As written, with 8 slots, all three builders throw at their
      Manufacturability write. */
  lemma BuildersAsWrittenFail(t: MaterialCategoryTemplate, a: SubtypeAdjustment)
    ensures GetMeanVector(t, Count) == Failure(IndexOutOfRange)
    ensures GetSpreadVector(t, Count) == Failure(IndexOutOfRange)
    ensures ToVector(a, Count) == Failure(IndexOutOfRange)
  {}

  /** With a ninth slot every property, Manufacturability included, lands in the
      slot of its own ordinal. */
  lemma BuildersCorrected(t: MaterialCategoryTemplate, a: SubtypeAdjustment)
    ensures GetMeanVector(t, CorrectedCount).Success?
    ensures GetMeanVector(t, CorrectedCount).value[Ordinal(Manufacturability)] == t.manufacturability.mean
    ensures GetSpreadVector(t, CorrectedCount).value[Ordinal(Manufacturability)] == t.manufacturability.spread
    ensures ToVector(a, CorrectedCount).value[Ordinal(Manufacturability)] == a.manufacturability
  {}

  /** The index of the first adjustment for `sub`, or |s| when there is none. */
  function FindSubtype(s: seq<SubtypeAdjustment>, sub: MaterialSubtype): (k: nat)
    ensures k <= |s|
    ensures k < |s| ==> s[k].subtype == sub
    ensures forall j :: 0 <= j < k ==> s[j].subtype != sub
  {
    if s == [] then 0
    else if s[0].subtype == sub then 0
    else 1 + FindSubtype(s[1..], sub)
  }

  /** What TryGetSubtypeAdjustment returns: (true, ToVector of the first match),
      or (false, a zero vector) when the array is null or nothing matches. */
  function SubtypeAdjustmentOf(t: MaterialCategoryTemplate, sub: MaterialSubtype, count: nat): (r: Result<(bool, seq<real>)>)
    ensures r.Failure? <==>
              count <= Ordinal(Manufacturability) && t.subtypeAdjustments.Some? &&
              FindSubtype(t.subtypeAdjustments.value, sub) < |t.subtypeAdjustments.value|
    ensures r.Success? && r.value.0 ==>
              t.subtypeAdjustments.Some? &&
              (var s := t.subtypeAdjustments.value; var k := FindSubtype(s, sub);
               k < |s| && |r.value.1| == count > Ordinal(Manufacturability) &&
               forall p :: r.value.1[Ordinal(p)] == s[k].Field(p))
    ensures r.Success? && !r.value.0 ==>
              r.value.1 == Zeros(count) &&
              (t.subtypeAdjustments.None? ||
               forall i :: 0 <= i < |t.subtypeAdjustments.value| ==> t.subtypeAdjustments.value[i].subtype != sub)
  {
    match t.subtypeAdjustments
    case None => Success((false, Zeros(count)))
    case Some(s) =>
      var k := FindSubtype(s, sub);
      if k == |s| then Success((false, Zeros(count)))
      else
        var v :- ToVector(s[k], count);
        Success((true, v))
  }

  /** TryGetSubtypeAdjustment(subtype, out adj): a first-match search. */
  method TryGetSubtypeAdjustment(t: MaterialCategoryTemplate, sub: MaterialSubtype, count: nat)
    returns (r: Result<(bool, seq<real>)>)
    ensures r == SubtypeAdjustmentOf(t, sub, count)
  {
    if t.subtypeAdjustments.Some? {
      var s := t.subtypeAdjustments.value;
      var i := 0;
      while i < |s|
        invariant 0 <= i <= |s|
        invariant forall j :: 0 <= j < i ==> s[j].subtype != sub
        invariant FindSubtype(s, sub) >= i
      {
        if s[i].subtype == sub {
          assert FindSubtype(s, sub) == i;
          var v := ToVector(s[i], count);
          if v.Failure? {
            return Failure(v.error);
          }
          return Success((true, v.value));
        }
        i := i + 1;
      }
      assert FindSubtype(s, sub) == |s|;
    }
    r := Success((false, Zeros(count)));
  }
}
