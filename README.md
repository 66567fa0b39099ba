# space-voxel generation core in Dafny

This project models the deterministic generation core of the space-voxel Unity
project and proves properties of it. The core has four parts, each built on the
one before:

- **Seeded randomness and hashing** (`deterministic_rng.dfy`). The xorshift32
  stream, with `DeterministicRng` as a class whose `state` field the draw methods
  update, plus pure `bv32` functions that specify each draw. Also the
  HashCombine avalanche mixer and the 32-bit FNV-1a string hash.
- **Material synthesis.**
  - `material_property_vector.dfy`: the slot vector with in-place clamp, add,
    min and max.
  - `tier_rules.dfy`: the three Tier-0 rule passes (hard caps, one dominant
    trait, guaranteed weakness).
  - `planet_modifiers.dfy`: the planet-band bias.
  - `material_templates.dfy`: the template lookups.
  - `material_generator.dfy`: MaterialGeneratorT0. Weighted category choice,
    subtype choice, sampling, argmax/argmin trait choice with first-wins ties,
    abundance, and the display name.
- **Visual derivation.**
  - `visual_generator.dfy`: the per-state and per-category scalars (metallic,
    smoothness, noise, dirt, oxidation, heat tint), the seed derivation, the
    rust tint and the paint override.
  - `visual_palettes.dfy`: palette choice and HSV jitter.
  - `colors.dfy`: the Unity colour helpers used by these.
- **Nozzle geometry.**
  - `nozzle_profile_sampler.dfy`: the axial (z, r) profile sampler.
  - `revolve_mesh_builder.dfy`: the revolve mesher, covering index topology,
    cap fans and UV ranges.
  - `nozzle_spec_hash.dfy`: the int32 spec hash and its X8 hex string.
  - `nozzle_generator.dfy`: the generator's orchestration.
  - `nozzle_spec.dfy`: `ClampForSafety` on the nozzle spec asset.
  - `nozzle_derived.dfy`: the performance deriver's clamp pipeline.

Shared helpers live in `mathf.dfy` (Unity's `Mathf` clamps and lerps, and the
int32 wrap-around) and `wrappers.dfy` (`Option`, and `Result` carrying the .NET
exception kinds).

Modelling decisions:

- **Floats are reals.** Every `float` is a `real`. `Mathf.Lerp` clamps t, as
  Unity documents. `Mathf.RoundToInt` rounds half to even.
- **Foreign math is passed in.** Functions whose source is not part of this
  model are parameters of the members that use them:
  - `Mathf.Cos/Sin/Log/Sqrt/Tan`;
  - `Color.RGBToHSV/HSVToRGB`;
  - the draws of `System.Random` (a function from seed and draw index to
    [0,1)).

  Where a bound depends on them, the member states only the fact it needs: cos
  and sin lie in [-1,1], ln(200) > 0, and draws lie in [0,1).
- **Exceptions are values.** An exception is a `Failure` in `Result`, and
  `null` is `None` in `Option`.
- **The vector is a struct holding an array.** `MaterialPropertyVector` is a
  datatype wrapping `array?<real>`. Copies therefore share the array, as they
  do in C#. `EnsureInit` returns the possibly new struct value, because the
  C# struct is updated through `ref`.
- **The slot count is a parameter.** `MaterialProperty` has nine members, and
  Manufacturability is ordinal 8. The vector has `Count = 8` slots, and the
  indexer is `_v[(int)p]`. So every read or write of Manufacturability throws
  `IndexOutOfRangeException`.

  The model makes the indexer partial: it fails with `IndexOutOfRange`. Every
  vector operation takes the slot count `count` as a parameter. The constant
  `Count` (8) is the count as written; `CorrectedCount` (9) is the evidently
  intended one.

  Each affected operation is proved both ways: it fails as written, and it has
  its intended properties with nine slots (see "## Findings"). EnergyPotential
  (ordinal 4) has a slot; Manufacturability, the last ordinal, is the one
  without.
- **`MaterialVisualState` takes its order from the switch arms.** The order is
  RawOre < ConcentratedOre < RefinedStock < ManufacturedPart < PaintedPart.
  `MaterialVisualProfile` takes its fields from the assignments in the
  generator.
- **Plain data are datatypes.** This covers PlanetProfile, the category
  template, the nozzle spec and ProcArtifact. `NozzleSpecSO` is a class,
  because `ClampForSafety` updates its fields in place. `MaterialInstance` is a
  class, because the visual generator reinitialises its vector through it.

## Model

| member | source | states |
|---|---|---|
| Rng.InitialState | Assets/Runtime/Utils/DeterministicRng.cs:15-18 | A zero seed becomes 0xA341316C; any other seed is kept; the state is never zero. |
| Rng.Xorshift32 | Assets/Runtime/Utils/DeterministicRng.cs:21-29 | One xorshift32 step in 32-bit arithmetic; its properties are XorshiftNonZero (no non-zero state reaches 0) and the fixed outputs in Next01Golden. |
| Rng.XorshiftNonZero | Assets/Runtime/Utils/DeterministicRng.cs:21-29 | The xorshift32 step (x^=x<<13, x^=x>>17, x^=x<<5) maps a non-zero state to a non-zero state. |
| Rng.DrawU32 | Assets/Runtime/Utils/DeterministicRng.cs:21-29 | NextU32 returns exactly the new state, and a non-zero state stays non-zero. |
| Rng.ByteValue | Assets/Runtime/Utils/DeterministicRng.cs:31-36 | A byte of the state is below 256 (building block of the 24-bit mask). |
| Rng.Low24 | Assets/Runtime/Utils/DeterministicRng.cs:31-36 | The masked value x & 0xFFFFFF is below 2^24. |
| Rng.Unit24 | Assets/Runtime/Utils/DeterministicRng.cs:31-36 | Dividing the low 24 bits by 2^24 yields a value in [0,1). |
| Rng.Draw01 | Assets/Runtime/Utils/DeterministicRng.cs:31-36 | Next01 lies in [0,1), advances the state by exactly one xorshift step, and is the low 24 bits of the new state over 2^24. |
| Rng.DrawTri01 | Assets/Runtime/Utils/DeterministicRng.cs:38-42 | Tri01 lies in [0,1), is the mean of two consecutive Next01 draws, and advances the state by two steps. |
| Rng.Unsigned | Assets/Runtime/Utils/DeterministicRng.cs:47-49 | The unsigned reading of a state is below 2^32. |
| Rng.DrawInt | Assets/Runtime/Utils/DeterministicRng.cs:44-50 | When max <= min the result is min and the state is untouched; otherwise the result lies in [min,max) and the state advances once. |
| Rng.HashCombine | Assets/Runtime/Utils/DeterministicRng.cs:54-64 | a + 0x9E3779B9 + (b<<6) + (b>>2), then two multiply-xorshift rounds; HashCombineNotSymmetric shows that argument order matters. |
| Rng.HashCombineNotSymmetric | Assets/Runtime/Utils/DeterministicRng.cs:54-64 | The avalanche mixer depends on argument order: HashCombine(0,1) differs from HashCombine(1,0). |
| Rng.Next01Golden | Assets/Runtime/Utils/DeterministicRng.cs:15-36 | Seeds 0 and 0xA341316C give the same stream; the first five Next01 values from seed 1 are the stated fractions of 2^24. |
| Rng.FnvFoldAppend | Assets/Runtime/Utils/DeterministicRng.cs:71-77 | The FNV-1a fold over a concatenation is the fold over the second part started from the fold over the first. |
| Rng.FnvFoldSnoc | Assets/Runtime/Utils/DeterministicRng.cs:71-77 | Folding one more UTF-16 unit is one FNV-1a step (xor, then multiply by 16777619) on the previous hash. |
| Rng.HashString | Assets/Runtime/Utils/DeterministicRng.cs:66-79 | Null or empty input hashes to 0. A non-empty string hashes to one FNV-1a round on its last code unit, applied to the fold of the rest from the offset basis. |
| Rng.HashStringToU32 | Assets/Runtime/Utils/DeterministicRng.cs:66-79 | The loop returns HashString: 0 for null or empty input, otherwise the FNV-1a fold from basis 2166136261 over the code units. |
| Rng.DeterministicRng.constructor | Assets/Runtime/Utils/DeterministicRng.cs:15-18 | The new stream's state is InitialState(seed). |
| Rng.DeterministicRng.NextU32 | Assets/Runtime/Utils/DeterministicRng.cs:21-29 | The value and the new state are those of DrawU32 on the old state. |
| Rng.DeterministicRng.Next01 | Assets/Runtime/Utils/DeterministicRng.cs:31-36 | The value and the new state are those of Draw01 on the old state. |
| Rng.DeterministicRng.Tri01 | Assets/Runtime/Utils/DeterministicRng.cs:38-42 | The value and the new state are those of DrawTri01 on the old state. |
| Rng.DeterministicRng.NextInt | Assets/Runtime/Utils/DeterministicRng.cs:44-50 | The value and the new state are those of DrawInt on the old state and bounds. |
| MaterialEnums.Ordinal | Assets/Runtime/Materials/MaterialEnums.cs:48-59 | Every MaterialProperty has an ordinal below 9 (Manufacturability is 8). |
| MaterialEnums.PropertyAt | Assets/Runtime/Materials/MaterialEnums.cs:48-59 | Every ordinal below 9 names the property with that ordinal (inverse of Ordinal). |
| MaterialEnums.OrdinalInjective | Assets/Runtime/Materials/MaterialEnums.cs:48-59 | Distinct properties have distinct ordinals. |
| MaterialEnums.EveryProperty | Assets/Runtime/Materials/MaterialEnums.cs:48-59 | A predicate true of the nine listed properties holds of every property (the enum has exactly these members). |
| PropertyVectors.Zeros | Assets/Runtime/Materials/MaterialPropertyVector.cs:18-22 | A zero vector of n slots: length n, every slot 0. |
| PropertyVectors.Contents | Assets/Runtime/Materials/MaterialPropertyVector.cs:33-37 | What a vector reads as after EnsureInit: its array when that has the right length, otherwise zeros. |
| PropertyVectors.Clamped01 | Assets/Runtime/Materials/MaterialPropertyVector.cs:39-44 | Every slot ends in [0,1]; in-range slots are unchanged; below 0 becomes 0 and above 1 becomes 1. |
| PropertyVectors.Clamped01FixedPoints | Assets/Runtime/Materials/MaterialPropertyVector.cs:39-44 | Clamping is idempotent, and a vector is unchanged by it exactly when all slots already lie in [0,1]. |
| PropertyVectors.Sum | Assets/Runtime/Materials/MaterialPropertyVector.cs:46-52 | Slotwise sum: each slot minus the other's slot gives back the original slot. |
| PropertyVectors.SumZeros | Assets/Runtime/Materials/MaterialPropertyVector.cs:46-52 | Adding the zero vector changes nothing. |
| PropertyVectors.SeqMax | Assets/Runtime/Materials/MaterialPropertyVector.cs:54-60 | The maximum equals some slot and is at least every slot. |
| PropertyVectors.SeqMin | Assets/Runtime/Materials/MaterialPropertyVector.cs:62-68 | The minimum equals some slot and is at most every slot. |
| PropertyVectors.CreateZero | Assets/Runtime/Materials/MaterialPropertyVector.cs:18-22 | A fresh array of zeros of the slot count. |
| PropertyVectors.Get | Assets/Runtime/Materials/MaterialPropertyVector.cs:30 | Succeeds exactly for an index inside the array, with that slot; otherwise IndexOutOfRange. |
| PropertyVectors.Set | Assets/Runtime/Materials/MaterialPropertyVector.cs:31 | Inside the array the slot is overwritten and nothing else changes; outside, IndexOutOfRange and the array is unchanged. |
| PropertyVectors.GetProperty | Assets/Runtime/Materials/MaterialPropertyVector.cs:24-26 | The indexer read succeeds exactly when the property's ordinal is inside the array. |
| PropertyVectors.SetProperty | Assets/Runtime/Materials/MaterialPropertyVector.cs:24-27 | The indexer write replaces exactly the property's slot, or fails with IndexOutOfRange leaving the array unchanged. |
| PropertyVectors.AddToProperty | Assets/Runtime/Materials/MaterialPropertyVector.cs:24-27 | The compound `v[p] += d` adds d to exactly the property's slot, or fails with IndexOutOfRange and changes nothing. |
| PropertyVectors.IndexerRange | Assets/Runtime/Materials/MaterialPropertyVector.cs:24-28 | With 8 slots every property except Manufacturability is in range; with 9 slots all are. |
| PropertyVectors.EnsureInit | Assets/Runtime/Materials/MaterialPropertyVector.cs:33-37 | An array of the right length is kept (same struct, same array); otherwise a fresh zero array replaces it. |
| PropertyVectors.Clamp01 | Assets/Runtime/Materials/MaterialPropertyVector.cs:39-44 | After EnsureInit, the contents become Clamped01 of the old contents, in the same array when it was already initialised. |
| PropertyVectors.Add | Assets/Runtime/Materials/MaterialPropertyVector.cs:46-52 | After EnsureInit, the contents become the slotwise sum with the other vector's old contents. |
| PropertyVectors.Max | Assets/Runtime/Materials/MaterialPropertyVector.cs:54-60 | Contents unchanged and the result is SeqMax of them. |
| PropertyVectors.Min | Assets/Runtime/Materials/MaterialPropertyVector.cs:62-68 | Contents unchanged and the result is SeqMin of them. |
| TierRules.HardCapped | Assets/Scripts/Data/TierRulesT0.cs:25-41 | Every slot ends within its cap (Density in [0.10,0.90], others in [0,0.80]); slots already within their cap are unchanged. |
| TierRules.HardCapsFixedPoints | Assets/Scripts/Data/TierRulesT0.cs:34-39 | Hard capping is idempotent and leaves a vector unchanged exactly when it is already within the caps. |
| TierRules.ApplyHardCaps | Assets/Scripts/Data/TierRulesT0.cs:25-41 | The vector's new contents are HardCapped of its old contents. |
| TierRules.FirstMaxIndex | Assets/Scripts/Data/TierRulesT0.cs:48-54 | The argmax: a maximal slot with every earlier slot strictly smaller (first wins on ties). |
| TierRules.FirstMaxIndexUnique | Assets/Scripts/Data/TierRulesT0.cs:48-54 | Any index that is maximal and strictly beats all earlier slots is FirstMaxIndex. |
| TierRules.CountAbove | Assets/Scripts/Data/TierRulesT0.cs:56-58 | The number of slots above a threshold is at most the length. |
| TierRules.CountAboveAtMostOne | Assets/Scripts/Data/TierRulesT0.cs:56-60 | The count is at most one exactly when at most one slot exceeds the threshold, and zero exactly when none does. |
| TierRules.OneDominant | Assets/Scripts/Data/TierRulesT0.cs:43-69 | With at most one slot above 0.85 nothing changes; otherwise the first maximum and all slots <= 0.85 are kept and the other high slots drop to 0.85. |
| TierRules.OneDominantLeavesOne | Assets/Scripts/Data/TierRulesT0.cs:62-68 | After the one-dominant rule at most one slot exceeds 0.85. |
| TierRules.IndexOfMax | Assets/Scripts/Data/TierRulesT0.cs:48-54 | The argmax loop returns FirstMaxIndex. |
| TierRules.CountAboveIn | Assets/Scripts/Data/TierRulesT0.cs:56-58 | The counting loop returns CountAbove. |
| TierRules.EnforceOneDominant | Assets/Scripts/Data/TierRulesT0.cs:43-69 | The vector's new contents are OneDominant of its old contents. |
| TierRules.FirstMinIndex | Assets/Scripts/Data/TierRulesT0.cs:82-88 | The argmin: a minimal slot with every earlier slot strictly larger (first wins on ties). |
| TierRules.FirstMinIndexUnique | Assets/Scripts/Data/TierRulesT0.cs:82-88 | Any index that is minimal and strictly below all earlier slots is FirstMinIndex. |
| TierRules.WithWeakness | Assets/Scripts/Data/TierRulesT0.cs:71-91 | Some slot ends <= 0.35; if the minimum was already <= 0.35 nothing changes, otherwise only the first minimal slot changes, to exactly 0.35. |
| TierRules.SeqMinIn | Assets/Scripts/Data/TierRulesT0.cs:75-77 | The minimum loop returns SeqMin. |
| TierRules.IndexOfMin | Assets/Scripts/Data/TierRulesT0.cs:82-88 | The argmin loop returns FirstMinIndex. |
| TierRules.EnsureAWeakness | Assets/Scripts/Data/TierRulesT0.cs:71-91 | The vector's new contents are WithWeakness of its old contents. |
| TierRules.CapsThenRules | Assets/Scripts/Data/TierRulesT0.cs:14-91 | On a hard-capped vector the one-dominant rule is a no-op and the weakness rule keeps every cap. |
| TierRules.RuleChain | Assets/Runtime/Materials/MaterialVisualProfile.cs:70-73 | Clamp, hard caps, one-dominant and weakness in the generator's order always end within the caps and with a weakness. |
| PlanetModifiers.Bump | Assets/Scripts/Data/PlanetModifiersT0.cs:23-98 | One `+=`/`-=` on a slot: in range it changes exactly that slot by delta; out of range it fails with IndexOutOfRange. |
| PlanetModifiers.TempStep | Assets/Scripts/Data/PlanetModifiersT0.cs:20-40 | The temperature switch keeps the vector length when it succeeds. |
| PlanetModifiers.PressureStep | Assets/Scripts/Data/PlanetModifiersT0.cs:43-54 | The pressure switch keeps the vector length when it succeeds. |
| PlanetModifiers.AtmoStep | Assets/Scripts/Data/PlanetModifiersT0.cs:57-74 | The atmosphere switch keeps the vector length when it succeeds. |
| PlanetModifiers.HydroStep | Assets/Scripts/Data/PlanetModifiersT0.cs:77-100 | The hydrosphere switch keeps the vector length when it succeeds. |
| PlanetModifiers.Compute | Assets/Scripts/Data/PlanetModifiersT0.cs:14-103 | A successful bias has the slot count. |
| PlanetModifiers.BiasVector | Assets/Scripts/Data/PlanetModifiersT0.cs:14-103 | The reference bias has the slot count. |
| PlanetModifiers.BiasSlot | Assets/Scripts/Data/PlanetModifiersT0.cs:14-103 | Slot i of the reference bias is the temperature delta plus the pressure delta plus, on CorrosionResistance only, the corrosion delta. |
| PlanetModifiers.TempStepAdds | Assets/Scripts/Data/PlanetModifiersT0.cs:20-40 | The temperature switch fails exactly for a non-Temperate band on a vector without a Manufacturability slot; otherwise it adds the band's deltas slotwise. |
| PlanetModifiers.PressureStepAdds | Assets/Scripts/Data/PlanetModifiersT0.cs:43-54 | The pressure switch always succeeds and adds the band's deltas slotwise. |
| PlanetModifiers.AtmoStepAdds | Assets/Scripts/Data/PlanetModifiersT0.cs:57-74 | The atmosphere switch adds its corrosion delta to slot 6 only. |
| PlanetModifiers.HydroStepAdds | Assets/Scripts/Data/PlanetModifiersT0.cs:77-100 | The hydrosphere switch adds its corrosion delta to slot 6 only. |
| PlanetModifiers.CorrosionStepsAdd | Assets/Scripts/Data/PlanetModifiersT0.cs:57-100 | The two corrosion switches together add the combined corrosion delta to slot 6 only. |
| PlanetModifiers.ComputeSucceedsWithBias | Assets/Scripts/Data/PlanetModifiersT0.cs:14-103 | When the temperature switch succeeds, Compute equals the reference bias vector. |
| PlanetModifiers.ComputeIsBias | Assets/Scripts/Data/PlanetModifiersT0.cs:14-103 | Compute fails (IndexOutOfRange) exactly for a non-Temperate band without a ninth slot; otherwise it is the reference bias. |
| PlanetModifiers.NeutralPlanetIsZero | Assets/Scripts/Data/PlanetModifiersT0.cs:27-80 | Temperate, Normal, Neutral and no hydrosphere give the all-zero vector. |
| PlanetModifiers.AtmoCorrosionBounds | Assets/Scripts/Data/PlanetModifiersT0.cs:57-74 | The atmosphere's corrosion delta lies in [-0.08,+0.02]. |
| PlanetModifiers.HydroCorrosionBounds | Assets/Scripts/Data/PlanetModifiersT0.cs:77-100 | The hydrosphere's corrosion delta lies in [-0.12,+0.05]. |
| PlanetModifiers.TempDeltaBounds | Assets/Scripts/Data/PlanetModifiersT0.cs:20-40 | Temperature moves MaxTemperature within [-0.03,+0.10], ErosionResistance within [0,0.03], Manufacturability within [-0.05,0], and nothing else. |
| PlanetModifiers.PressureDeltaBounds | Assets/Scripts/Data/PlanetModifiersT0.cs:43-54 | Pressure moves Density within [-0.02,+0.03], Strength within [0,0.05], and nothing else. |
| PlanetModifiers.DeltaBounds | Assets/Scripts/Data/PlanetModifiersT0.cs:20-100 | Per-channel totals: Corrosion [-0.20,+0.07], MaxTemperature [-0.03,+0.10], Density [-0.02,+0.03], Strength [0,0.05], Erosion [0,0.03], Manufacturability [-0.05,0]. |
| PlanetModifiers.UnwrittenChannels | Assets/Scripts/Data/PlanetModifiersT0.cs:20-100 | ThermalConductivity, ElectricalConductivity and EnergyPotential are never biased. |
| PlanetModifiers.BiasOutsideCorrosion | Assets/Scripts/Data/PlanetModifiersT0.cs:57-100 | Two materials on the same planet get identical bias on every slot except CorrosionResistance. |
| PlanetModifiers.OnlyCorrosionDependsOnMaterial | Assets/Scripts/Data/PlanetModifiersT0.cs:57-100 | If Compute succeeds for one material it succeeds for all, and the results differ only in CorrosionResistance. |
| PlanetModifiers.OxidizingCorrosion | Assets/Scripts/Data/PlanetModifiersT0.cs:66-72 | Under an Oxidizing atmosphere with no hydrosphere, Metal, NativeMetal and SulfideOre get -0.08 corrosion and everything else -0.03. |
| PlanetModifiers.ComputeAsWrittenFails | Assets/Scripts/Data/PlanetModifiersT0.cs:22-37 | With 8 slots, every planet whose band is not Temperate makes Compute fail with IndexOutOfRange. |
| PlanetModifiers.ComputeCorrected | Assets/Scripts/Data/PlanetModifiersT0.cs:22-37 | With 9 slots Compute always succeeds with the reference bias vector. |
| MaterialTemplates.Put | Assets/Scripts/Data/MaterialCategoryTemplateSO.cs:36-44 | One indexer write: in range it replaces exactly the property's slot; otherwise IndexOutOfRange. |
| MaterialTemplates.FromFields | Assets/Scripts/Data/MaterialCategoryTemplateSO.cs:72-100 | Filling a fresh zero vector field by field fails without a Manufacturability slot; otherwise each property's slot holds its field and extra slots stay 0. |
| MaterialTemplates.ToVector | Assets/Scripts/Data/MaterialCategoryTemplateSO.cs:32-46 | A subtype adjustment's vector has each additive field in its property's slot, or fails with IndexOutOfRange without a ninth slot. |
| MaterialTemplates.GetMeanVector | Assets/Scripts/Data/MaterialCategoryTemplateSO.cs:72-85 | Each property's Mean lands in its slot, or the build fails with IndexOutOfRange without a ninth slot. |
| MaterialTemplates.GetSpreadVector | Assets/Scripts/Data/MaterialCategoryTemplateSO.cs:87-100 | Each property's Spread lands in its slot, or the build fails with IndexOutOfRange without a ninth slot. |
| MaterialTemplates.BuildersAsWrittenFail | Assets/Scripts/Data/MaterialCategoryTemplateSO.cs:44-99 | With 8 slots GetMeanVector, GetSpreadVector and ToVector always fail with IndexOutOfRange. |
| MaterialTemplates.BuildersCorrected | Assets/Scripts/Data/MaterialCategoryTemplateSO.cs:44-99 | With 9 slots the builders succeed and Manufacturability's mean, spread and adjustment land in slot 8. |
| MaterialTemplates.FindSubtype | Assets/Scripts/Data/MaterialCategoryTemplateSO.cs:104-113 | The index of the first adjustment for the subtype; every earlier entry has another subtype; the list length when none matches. |
| MaterialTemplates.SubtypeAdjustmentOf | Assets/Scripts/Data/MaterialCategoryTemplateSO.cs:102-118 | True with the first matching entry's vector; false with zeros when the array is null or nothing matches; fails only when a match exists and its vector cannot be built. |
| MaterialTemplates.TryGetSubtypeAdjustment | Assets/Scripts/Data/MaterialCategoryTemplateSO.cs:102-118 | The search loop returns SubtypeAdjustmentOf. |
| MaterialGenerator.Weights | Assets/Runtime/Materials/MaterialVisualProfile.cs:97-101 | Five category weights, negative weights read as 0. |
| MaterialGenerator.CategoryIndex | Assets/Runtime/Materials/MaterialVisualProfile.cs:95-112 | Every category has an index below 5. |
| MaterialGenerator.PrefixSums | Assets/Runtime/Materials/MaterialVisualProfile.cs:103-111 | The running sums of the weights, written out for the five categories. |
| MaterialGenerator.RollInInterval | Assets/Runtime/Materials/MaterialVisualProfile.cs:106-111 | The `r -= w` loop stops at a category whose interval contains the roll, so its weight is positive. |
| MaterialGenerator.Roll | Assets/Runtime/Materials/MaterialVisualProfile.cs:106 | A unit draw scaled by a positive sum lies in [0,sum). |
| MaterialGenerator.UnitRollHasWeight | Assets/Runtime/Materials/MaterialVisualProfile.cs:103-111 | With a positive total, the category chosen for any unit draw has positive weight. |
| MaterialGenerator.ChosenCategoryHasWeight | Assets/Runtime/Materials/MaterialVisualProfile.cs:95-112 | A total <= 0 returns StoneSilicate without drawing; otherwise the chosen category has positive weight and one draw is used. |
| MaterialGenerator.ChooseCategory | Assets/Runtime/Materials/MaterialVisualProfile.cs:95-112 | The chosen category and the new stream state are those of CategoryDraw. |
| MaterialGenerator.Family | Assets/Runtime/Materials/MaterialVisualProfile.cs:114-145 | Each category's subtype family has two or three members. |
| MaterialGenerator.FamiliesPartition | Assets/Runtime/Materials/MaterialVisualProfile.cs:114-145 | A subtype is in a category's family exactly when that category is its FamilyOf, so families do not overlap. |
| MaterialGenerator.SubtypeDraw | Assets/Runtime/Materials/MaterialVisualProfile.cs:114-145 | The chosen subtype belongs to the category's family, and exactly one draw is used. |
| MaterialGenerator.ChooseSubtype | Assets/Runtime/Materials/MaterialVisualProfile.cs:114-145 | The chosen subtype and the new stream state are those of SubtypeDraw. |
| MaterialGenerator.Sample | Assets/Runtime/Materials/MaterialVisualProfile.cs:172-174 | mean + spread*(2*tri-1) lies within [mean-spread, mean+spread] for a unit draw. |
| MaterialGenerator.Samples | Assets/Runtime/Materials/MaterialVisualProfile.cs:170-176 | One sample per slot. |
| MaterialGenerator.SamplesStep | Assets/Runtime/Materials/MaterialVisualProfile.cs:170-176 | Sampling from slot i draws one Tri01 for slot i, then samples the rest from the new state (slot order). |
| MaterialGenerator.SamplesWithinSpread | Assets/Runtime/Materials/MaterialVisualProfile.cs:170-176 | Every raw sample lies within its mean plus or minus its spread. |
| MaterialGenerator.SampleDraw | Assets/Runtime/Materials/MaterialVisualProfile.cs:160-180 | Sampling fails with IndexOutOfRange exactly when there is no ninth slot; otherwise it yields count clamped values in [0,1]. |
| MaterialGenerator.SampleWithinTemplate | Assets/Runtime/Materials/MaterialVisualProfile.cs:160-180 | Each sampled slot lies between clamp01(mean-spread) and clamp01(mean+spread). |
| MaterialGenerator.SampleAsWrittenFails | Assets/Runtime/Materials/MaterialVisualProfile.cs:162 | With 8 slots, SampleFromTemplate always fails with IndexOutOfRange when building the mean vector. |
| MaterialGenerator.SampleCorrected | Assets/Runtime/Materials/MaterialVisualProfile.cs:162 | With 9 slots sampling succeeds and every slot lies within its clamped template range. |
| MaterialGenerator.FillSamples | Assets/Runtime/Materials/MaterialVisualProfile.cs:170-176 | The slot loop fills the array with Samples and leaves the stream where Samples ends. |
| MaterialGenerator.SampleFromTemplate | Assets/Runtime/Materials/MaterialVisualProfile.cs:160-180 | Fails exactly as SampleDraw does; otherwise a fresh vector holding SampleDraw's values, with the stream where SampleDraw leaves it. |
| MaterialGenerator.Scores | Assets/Runtime/Materials/MaterialVisualProfile.cs:190-195 | One score per candidate. |
| MaterialGenerator.DominantOf | Assets/Runtime/Materials/MaterialVisualProfile.cs:182-200 | Strength for a null or empty list; IndexOutOfRange if a candidate has no slot; otherwise the earliest candidate of maximal value. |
| MaterialGenerator.WeaknessOf | Assets/Runtime/Materials/MaterialVisualProfile.cs:202-220 | Manufacturability for a null or empty list; IndexOutOfRange if a candidate has no slot; otherwise the earliest candidate of minimal value. |
| MaterialGenerator.ScanDominant | Assets/Runtime/Materials/MaterialVisualProfile.cs:189-199 | The best-so-far loop returns the candidate at FirstMaxIndex of the scores, or fails on an unreadable candidate. |
| MaterialGenerator.ChooseDominant | Assets/Runtime/Materials/MaterialVisualProfile.cs:182-200 | Returns DominantOf on the vector's contents. |
| MaterialGenerator.ScanWeakness | Assets/Runtime/Materials/MaterialVisualProfile.cs:209-219 | The best-so-far loop returns the candidate at FirstMinIndex of the scores, or fails on an unreadable candidate. |
| MaterialGenerator.ChooseWeakness | Assets/Runtime/Materials/MaterialVisualProfile.cs:202-220 | Returns WeaknessOf on the vector's contents. |
| MaterialGenerator.DefaultWeaknessAsWritten | Assets/Runtime/Materials/MaterialVisualProfile.cs:207 | With 8 slots the default weakness, Manufacturability, has no slot to penalise. |
| MaterialGenerator.DefaultWeaknessPenaltyFails | Assets/Runtime/Materials/MaterialVisualProfile.cs:67 | With 8 slots, subtracting the penalty from the default weakness fails with IndexOutOfRange and leaves the vector unchanged. |
| MaterialGenerator.BaseAbundance | Assets/Runtime/Materials/MaterialVisualProfile.cs:226-234 | Each category's base abundance lies in [0.35,0.65]. |
| MaterialGenerator.AbundanceDraw | Assets/Runtime/Materials/MaterialVisualProfile.cs:222-239 | The abundance lies in [0,1] and uses two draws (one Tri01). |
| MaterialGenerator.AbundanceNearBase | Assets/Runtime/Materials/MaterialVisualProfile.cs:236-238 | The abundance lies within 0.25 of the category's base. |
| MaterialGenerator.EstimateAbundance | Assets/Runtime/Materials/MaterialVisualProfile.cs:222-239 | The abundance and the new stream state are those of AbundanceDraw. |
| MaterialGenerator.DigitChar | Assets/Runtime/Materials/MaterialVisualProfile.cs:247 | A digit below 10 prints as a character '0'..'9'. |
| MaterialGenerator.Pad4 | Assets/Runtime/Materials/MaterialVisualProfile.cs:247 | A number below 10000 prints as exactly four decimal digits. |
| MaterialGenerator.DigitRoundTrip | Assets/Runtime/Materials/MaterialVisualProfile.cs:247 | Reading back a printed digit gives the digit. |
| MaterialGenerator.ParseDecimal4 | Assets/Runtime/Materials/MaterialVisualProfile.cs:247 | Reading four digits is the usual base-10 value. |
| MaterialGenerator.Pad4RoundTrip | Assets/Runtime/Materials/MaterialVisualProfile.cs:247 | Reading back the zero-padded suffix gives the number (the "0000" format loses nothing below 10000). |
| MaterialGenerator.MakeDisplayName | Assets/Runtime/Materials/MaterialVisualProfile.cs:241-249 | The name is the base name (empty when null), then " (cat:sub) #", then four digits that read back as nodeSeed mod 10000. |
| MaterialGenerator.DisplayNameShape | Assets/Runtime/Materials/MaterialVisualProfile.cs:241-249 | The name is the base, then " (cat:sub) #", then four digits that read back as nodeSeed mod 10000. |
| MaterialGenerator.DisplayNamesDiffer | Assets/Runtime/Materials/MaterialVisualProfile.cs:247-248 | Seeds with different values mod 10000 give different names. |
| MaterialGenerator.MaterialInstance.constructor | Assets/Runtime/Materials/MaterialVisualProfile.cs:79-90 | The new instance holds exactly the given name, category, subtype, seeds, abundance, traits and properties. |
| MaterialGenerator.Materialize | Assets/Runtime/Materials/MaterialVisualProfile.cs:162-163 | A fresh vector holding the given values. |
| MaterialGenerator.AllReadable | Assets/Runtime/Materials/MaterialVisualProfile.cs:63-64 | With a ninth slot every candidate property is readable. |
| MaterialGenerator.ApplyBiases | Assets/Runtime/Materials/MaterialVisualProfile.cs:55-60 | The subtype adjustment lookup succeeds, and the properties become old + adjustment + planet bias. |
| MaterialGenerator.Boosted | Assets/Runtime/Materials/MaterialVisualProfile.cs:66-67 | Only the dominant slot gains DominantBoost (0.10) and only the weakness slot loses WeaknessPenalty (0.10); both apply when they coincide. |
| MaterialGenerator.Boost | Assets/Runtime/Materials/MaterialVisualProfile.cs:66-67 | The properties become Boosted of their old contents. |
| MaterialGenerator.ApplyTraits | Assets/Runtime/Materials/MaterialVisualProfile.cs:62-67 | The traits are DominantOf and WeaknessOf the old contents, and the properties become Boosted by them. |
| MaterialGenerator.ApplyTierRules | Assets/Runtime/Materials/MaterialVisualProfile.cs:69-73 | The properties become WithWeakness(OneDominant(HardCapped(Clamped01(old)))), hence within the caps and with a weakness. |
| MaterialGenerator.TraitsSucceed | Assets/Runtime/Materials/MaterialVisualProfile.cs:62-64 | Once every property has a slot, both trait choices succeed. |
| MaterialGenerator.ChosenTraits | Assets/Runtime/Materials/MaterialVisualProfile.cs:62-64 | The dominant trait is a dominant candidate of greatest value, or Strength when there are none. The weak trait is a weakness candidate of least value, or Manufacturability when there are none. |
| MaterialGenerator.FinishOf | Assets/Runtime/Materials/MaterialVisualProfile.cs:55-92 | The steps after sampling keep the category and subtype. The final vector is within the caps and has a weakness. The abundance is in [0,1]. |
| MaterialGenerator.FinishedTraits | Assets/Runtime/Materials/MaterialVisualProfile.cs:62-90 | FinishOf's traits are those chosen from the biased sample, and its abundance is within 0.25 of the category centre. |
| MaterialGenerator.NodeMaterialOf | Assets/Runtime/Materials/MaterialVisualProfile.cs:35-93 | Generate's reference result for a node: the seeded category, a subtype of its family, a final vector of count slots within the caps and with a weakness, and an abundance in [0,1]. |
| MaterialGenerator.Finish | Assets/Runtime/Materials/MaterialVisualProfile.cs:55-92 | A fresh instance with the chosen category and subtype, the seeds and the display name. Its traits, abundance and final property values are those of FinishOf on the sampled vector and the stream state. |
| MaterialGenerator.MaterialGeneratorT0.constructor | Assets/Runtime/Materials/MaterialVisualProfile.cs:21-33 | The generator holds the five given templates. |
| MaterialGenerator.MaterialGeneratorT0.GetTemplate | Assets/Runtime/Materials/MaterialVisualProfile.cs:147-158 | Each category reads its own template field, in the order of the category weights; a null field stays missing. |
| MaterialGenerator.MaterialGeneratorT0.Generate | Assets/Runtime/Materials/MaterialVisualProfile.cs:35-93 | A null planet gives ArgumentNull and a missing template gives InvalidOperation. With 8 slots it always fails; with 9 it succeeds exactly when the template exists. The subtype, both traits, the abundance and the final property values are those of NodeMaterialOf for the planet, the node seed and the slot count. |
| Colors.Rgb | Assets/Runtime/Materials/MaterialVisualGeneratorT0.cs:43 | The constructor keeps the three channels and sets alpha to 1. |
| Colors.Lerp | Assets/Runtime/Materials/MaterialVisualGeneratorT0.cs:43 | Unity's clamped colour lerp: the ends at t <= 0 and t >= 1, and each channel between the two inputs' channels. |
| Colors.LerpInGamut | Assets/Runtime/Materials/MaterialVisualGeneratorT0.cs:43 | Interpolating two colours with channels in [0,1] gives such a colour. |
| Colors.Times | Assets/Runtime/Materials/MaterialVisualGeneratorT0.cs:72 | Scaling a colour by 1 leaves it unchanged. |
| VisualPalettes.PaletteChoice | Assets/Runtime/Materials/MaterialVisualPaletttesT0.cs:11-69 | Every palette has 4 in-gamut opaque entries; Metal uses the oxide palette exactly for MetalOxide; other categories ignore the subtype. |
| VisualPalettes.HueShift | Assets/Runtime/Materials/MaterialVisualPaletttesT0.cs:74 | The hue jitter lies in [-0.02,0.02) for a unit draw. |
| VisualPalettes.ToneShift | Assets/Runtime/Materials/MaterialVisualPaletttesT0.cs:75-76 | The saturation and value jitters lie in [-0.03,0.03) for a unit draw. |
| VisualPalettes.Nudged | Assets/Runtime/Materials/MaterialVisualPaletttesT0.cs:78-81 | Hue is wrapped into [0,1); saturation and value are clamped into [0,1]. |
| VisualPalettes.NudgeIsSmall | Assets/Runtime/Materials/MaterialVisualPaletttesT0.cs:74-81 | Saturation and value move by at most 0.03; hue moves by less than 0.02 modulo a whole turn. |
| VisualPalettes.PickDrawShape | Assets/Runtime/Materials/MaterialVisualPaletttesT0.cs:71-76 | Four draws in order (one NextInt, three Next01): some palette entry, nudged by the three unit draws. |
| VisualPalettes.PickBase | Assets/Runtime/Materials/MaterialVisualPaletttesT0.cs:59-83 | Returns the HSV-to-RGB of PickDraw's colour and leaves the stream where PickDraw does. |
| VisualGenerator.StateOrdinal | Assets/Runtime/Materials/MaterialVisualGeneratorT0.cs:111-118 | The five visual states have ordinals 0..4 in the declared order. |
| VisualGenerator.Metallic | Assets/Runtime/Materials/MaterialVisualGeneratorT0.cs:90-106 | In [0,1]; at most 0.05 for non-metals; for Metal with conductivity in [0,1], 0.025..0.175 for MetalOxide and 0.725..0.875 otherwise. |
| VisualGenerator.OxidesReadLessMetallic | Assets/Runtime/Materials/MaterialVisualGeneratorT0.cs:92-105 | A metal oxide is less metallic than any other metal subtype, and any non-metal is less metallic than a non-oxide metal. |
| VisualGenerator.Smoothness | Assets/Runtime/Materials/MaterialVisualGeneratorT0.cs:108-134 | Smoothness lies in [0,1]. |
| VisualGenerator.SmoothnessMonotone | Assets/Runtime/Materials/MaterialVisualGeneratorT0.cs:108-134 | Smoothness never falls with a later state, higher manufacturability or higher corrosion resistance. |
| VisualGenerator.NoiseBase | Assets/Runtime/Materials/MaterialVisualGeneratorT0.cs:138-146 | The per-state noise base lies in [0.10,0.85]. |
| VisualGenerator.Damped | Assets/Runtime/Materials/MaterialVisualGeneratorT0.cs:149 | Damping a non-negative base keeps it non-negative and at most 1.15 times the base. |
| VisualGenerator.NoiseStrength | Assets/Runtime/Materials/MaterialVisualGeneratorT0.cs:136-156 | Noise strength lies in [0,1], and StoneSilicate at RefinedStock or later keeps at least 0.22. |
| VisualGenerator.DirtStrength | Assets/Runtime/Materials/MaterialVisualGeneratorT0.cs:158-175 | Dirt strength lies in [0,1]. |
| VisualGenerator.DirtFallsWithState | Assets/Runtime/Materials/MaterialVisualGeneratorT0.cs:158-175 | Dirt never rises with a later state, and Stone and Sedimentary are at least as dirty as other categories. |
| VisualGenerator.OxidationBase | Assets/Runtime/Materials/MaterialVisualGeneratorT0.cs:181-189 | The per-state oxidation base lies in [0.05,0.60]. |
| VisualGenerator.OxidationStrength | Assets/Runtime/Materials/MaterialVisualGeneratorT0.cs:177-195 | Oxidation lies in [0,1] and is 0 for every non-metal. |
| VisualGenerator.HeatTintStrength | Assets/Runtime/Materials/MaterialVisualGeneratorT0.cs:197-206 | 0 before ManufacturedPart; 0.05*(1-maxTemp) for non-metals from then on; in [0,1] for metals. |
| VisualGenerator.HeatTintBounds | Assets/Runtime/Materials/MaterialVisualGeneratorT0.cs:197-206 | With inputs in [0,1], non-metal heat tint lies in [0,0.05] and metal tint from ManufacturedPart on is at least 0.15. |
| VisualGenerator.StateSaltIsOrdinalPlusOne | Assets/Runtime/Materials/MaterialVisualGeneratorT0.cs:23 | The seed salt of a state is its ordinal plus one. |
| VisualGenerator.Painted | Assets/Runtime/Materials/MaterialVisualGeneratorT0.cs:74-85 | Painting marks the profile PaintedPart with UsePaint and the paint colour, keeps the strength in [0,1], and never raises metallic. |
| VisualGenerator.PaintRules | Assets/Runtime/Materials/MaterialVisualGeneratorT0.cs:74-85 | Painting sets PaintedPart, UsePaint and the paint colour; metallic falls to no less than min(m,0.35); smoothness rises by at most 0.15; nothing else changes. |
| VisualGenerator.ProfileFromSteps | Assets/Runtime/Materials/MaterialVisualGeneratorT0.cs:38-72 | The profile is the palette pick, then the rust tint, then the assembled scalars, then density settling and the paint override, in that order. |
| VisualGenerator.VisualOf | Assets/Runtime/Materials/MaterialVisualGeneratorT0.cs:14-88 | Generation fails with IndexOutOfRange exactly when the vector has no ninth slot. |
| VisualGenerator.VisualAsWrittenFails | Assets/Runtime/Materials/MaterialVisualGeneratorT0.cs:35 | With 8 slots visual generation always fails at the Manufacturability read. |
| VisualGenerator.VisualCorrected | Assets/Runtime/Materials/MaterialVisualGeneratorT0.cs:35 | With 9 slots it succeeds, and metallic, smoothness, noise, dirt, oxidation and paint strength all lie in [0,1]. |
| VisualGenerator.PaintOverride | Assets/Runtime/Materials/MaterialVisualGeneratorT0.cs:49-85 | Without paint the state is kept and UsePaint is false; with paint the profile is the painted plain one, with metallic no higher and smoothness no lower. |
| VisualGenerator.PlanetOnlyTintsRust | Assets/Runtime/Materials/MaterialVisualGeneratorT0.cs:41-44 | The planet matters only through the rust condition (non-null, Oxidizing, Metal); without it the base colour is the settled palette pick. |
| VisualGenerator.ProfileStrengthsInRange | Assets/Runtime/Materials/MaterialVisualGeneratorT0.cs:47-85 | Every strength lies in [0,1]; normal strength in [0.6,1.2]; noise scale in [0.9,2.8]. |
| VisualGenerator.ReadSlots | Assets/Runtime/Materials/MaterialVisualGeneratorT0.cs:26-35 | Reading the nine slots fails exactly without a ninth slot; otherwise it returns the contents. |
| VisualGenerator.VisualSeed | Assets/Runtime/Materials/MaterialVisualGeneratorT0.cs:22-23 | The seed mixes the planet seed with the node seed, then the state salt. StateSaltIsOrdinalPlusOne proves the salt is the state ordinal plus one. |
| VisualGenerator.SeedStream | Assets/Runtime/Materials/MaterialVisualGeneratorT0.cs:22-24 | The stream starts from HashCombine(HashCombine(planetSeed, nodeSeed), state+1). |
| VisualGenerator.TintedBase | Assets/Runtime/Materials/MaterialVisualGeneratorT0.cs:38-44 | The base colour is the rust-tinted palette pick, and the stream ends where the pick leaves it. |
| VisualGenerator.BuildProfile | Assets/Runtime/Materials/MaterialVisualGeneratorT0.cs:38-85 | The built profile is ProfileFrom on the old stream state. |
| VisualGenerator.GenerateFrom | Assets/Runtime/Materials/MaterialVisualGeneratorT0.cs:26-87 | Fails without a ninth slot, else ProfileFrom; the material's fields and property contents are unchanged. |
| VisualGenerator.Generate | Assets/Runtime/Materials/MaterialVisualGeneratorT0.cs:14-88 | A null material gives NullReference. Otherwise Generate returns VisualOf of the material and leaves the material's fields and property contents unchanged. |
| Mathf.Max | Assets/Runtime/Materials/MaterialVisualProfile.cs:97 | The larger of the two arguments. |
| Mathf.Min | Assets/Scripts/Data/TierRulesT0.cs:37 | The smaller of the two arguments. |
| Mathf.Clamp | Assets/Scripts/Data/TierRulesT0.cs:35 | In [lo,hi]; in-range values unchanged; below lo gives lo and above hi gives hi. |
| Mathf.Clamp01 | Assets/Runtime/Materials/MaterialPropertyVector.cs:43 | In [0,1]; in-range values unchanged; below 0 gives 0 and above 1 gives 1. |
| Mathf.ClampInt | Assets/Runtime/Propulsion/NozzleSpecSO.cs:103-104 | In [lo,hi], and in-range values unchanged. |
| Mathf.MaxInt | Assets/Runtime/Propulsion/Generation/NozzleProfileSamplerV0.cs:62 | The larger of the two integers. |
| Mathf.Lerp | Assets/Runtime/Propulsion/NozzleDerived.cs:64 | Unity's clamped lerp: between the ends, a at t <= 0, b at t >= 1. |
| Mathf.RoundToInt | Assets/Runtime/Propulsion/Generation/NozzleGeneratorV0.cs:99 | Within 0.5 of x, with ties going to the even integer. |
| Mathf.RoundToIntMonotone | Assets/Runtime/Propulsion/Generation/NozzleGeneratorV0.cs:99 | Rounding preserves order. |
| Mathf.RoundToIntOfInt | Assets/Runtime/Propulsion/Generation/NozzleGeneratorV0.cs:99 | Whole numbers round to themselves. |
| Mathf.Repeat01 | Assets/Runtime/Materials/MaterialVisualPaletttesT0.cs:79 | Repeat(t,1) lies in [0,1) and leaves [0,1) unchanged. |
| Int32s.Wrap | Assets/Runtime/Propulsion/Generation/NozzleGeneratorV0.cs:79-90 | The 32-bit wrap-around of x: congruent to x modulo 2^32, and x itself when x fits in int32. |
| Int32s.WrapCongruent | Assets/Runtime/Propulsion/Generation/NozzleGeneratorV0.cs:79-90 | Values congruent modulo 2^32 wrap to the same int32. |
| Int32s.AsUInt32 | Assets/Runtime/Propulsion/Generation/NozzleGeneratorV0.cs:91 | The unsigned reading of an int32 is below 2^32, congruent to it, and equal to it when non-negative. |
| NozzleSpecs.AtLeast | Assets/Runtime/Propulsion/NozzleSpecSO.cs:99-101 | Math.Max(x, lo): at least lo; x when x >= lo; lo otherwise. |
| NozzleSpecs.ClampedIsSafe | Assets/Runtime/Propulsion/NozzleSpecSO.cs:97-111 | The clamped spec is within every safety range, and the name, propellant, type, seed, material and surface flags are untouched. |
| NozzleSpecs.ClampKeepsSafe | Assets/Runtime/Propulsion/NozzleSpecSO.cs:97-111 | A spec already within range is unchanged. |
| NozzleSpecs.ClampIdempotent | Assets/Runtime/Propulsion/NozzleSpecSO.cs:97-111 | Clamping twice is clamping once. |
| NozzleSpecs.DefaultsSafe | Assets/Runtime/Propulsion/NozzleSpecSO.cs:37-91 | The default field values are already safe and so unchanged by ClampForSafety. |
| NozzleSpecs.NozzleSpecSO.constructor | Assets/Runtime/Propulsion/NozzleSpecSO.cs:37-91 | A new spec holds the default field values. |
| NozzleSpecs.NozzleSpecSO.FloorPerformanceInputs | Assets/Runtime/Propulsion/NozzleSpecSO.cs:99-101 | Thrust and chamber pressure are floored at 0.1, expansion ratio at 1.01; nothing else changes. |
| NozzleSpecs.NozzleSpecSO.ClampResolution | Assets/Runtime/Propulsion/NozzleSpecSO.cs:103-104 | Profile samples and radial segments are clamped to [8,256]; nothing else changes. |
| NozzleSpecs.NozzleSpecSO.ClampGeometry | Assets/Runtime/Propulsion/NozzleSpecSO.cs:106-110 | Wall thickness, length factor, half-angle and curvature are clamped to their ranges; nothing else changes. |
| NozzleSpecs.NozzleSpecSO.ClampForSafety | Assets/Runtime/Propulsion/NozzleSpecSO.cs:97-111 | The fields become Clamped of the old fields. |
| NozzleDerivation.BaseCf | Assets/Runtime/Propulsion/NozzleDerived.cs:45-57 | The propellant table lies in [1.35,1.65]. |
| NozzleDerivation.AmbientCfFactor | Assets/Runtime/Propulsion/NozzleDerived.cs:60-65 | In [0.92,1.00]: 1.00 at or below 0 kPa and 0.92 at or above 101.3 kPa. |
| NozzleDerivation.EpsilonCfFactor | Assets/Runtime/Propulsion/NozzleDerived.cs:68-74 | In [0.92,1.06] whatever the logarithm returns, given ln(200) > 0. |
| NozzleDerivation.CfProduct | Assets/Runtime/Propulsion/NozzleDerived.cs:87 | The product of the three factors lies in [1.14264,1.749]. |
| NozzleDerivation.Cf | Assets/Runtime/Propulsion/NozzleDerived.cs:87-88 | The thrust coefficient lies in [0.8,2.2]. |
| NozzleDerivation.IspVac | Assets/Runtime/Propulsion/NozzleDerived.cs:110 | Vacuum Isp lies in [240,360]. |
| NozzleDerivation.ThroatArea | Assets/Runtime/Propulsion/NozzleDerived.cs:91 | At = F/(Cf*Pc): Cf*Pc*At equals F, and At is positive for positive thrust. |
| NozzleDerivation.ExitArea | Assets/Runtime/Propulsion/NozzleDerived.cs:94 | Ae = eps*At, and larger than At when eps > 1. |
| NozzleDerivation.AreasFollowThrust | Assets/Runtime/Propulsion/NozzleDerived.cs:90-94 | On a clamped spec: Cf*Pc*At equals the thrust in newtons, At > 0, Ae = eps*At > At. |
| NozzleDerivation.LengthAndIsp | Assets/Runtime/Propulsion/NozzleDerived.cs:103-111 | Length is max(0.02, factor*base), the bell base is 0.8 of the conical length, Cf in [0.8,2.2], Isp_vac in [240,360], Isp_sl = 0.92*Isp_vac. |
| NozzleDerivation.CfProductBounds | Assets/Runtime/Propulsion/NozzleDerived.cs:87-88 | Factors within their ranges give a product in [1.14264,1.749]. |
| NozzleDerivation.CfClampNeverBites | Assets/Runtime/Propulsion/NozzleDerived.cs:87-88 | The raw product always lies inside [0.8,2.2], so the final clamp never changes Cf. |
| NozzleDerivation.Compute | Assets/Runtime/Propulsion/NozzleDerived.cs:76-124 | Null spec gives ArgumentNull; otherwise the spec is clamped in place, is safe, and the result is derived from the clamped fields. |
| NozzleProfile.SystemRandom.constructor | Assets/Runtime/Propulsion/Generation/NozzleProfileSamplerV0.cs:72 | A seeded stream that has taken no draws. |
| NozzleProfile.SystemRandom.NextDouble | Assets/Runtime/Propulsion/Generation/NozzleProfileSamplerV0.cs:105-110 | Returns the next unit draw and advances the draw counter by one. |
| NozzleProfile.ClampInputs | Assets/Runtime/Propulsion/Generation/NozzleProfileSamplerV0.cs:59-65 | After the clamps length >= 0.01, throat >= 0.001, exit >= throat, samples >= 2, factors in [0,1]; in-range inputs unchanged. |
| NozzleProfile.SmoothStep | Assets/Runtime/Propulsion/Generation/NozzleProfileSamplerV0.cs:133-137 | In [0,1]; 0 at or below 0 and 1 at or above 1. |
| NozzleProfile.RadiusAtBlend | Assets/Runtime/Propulsion/Generation/NozzleProfileSamplerV0.cs:139-143 | Between the throat and exit radii and at most 1.25 times the throat radius. |
| NozzleProfile.Fraction | Assets/Runtime/Propulsion/Generation/NozzleProfileSamplerV0.cs:78-79 | i/(n-1) lies in [0,1], 0 at the start and 1 at the end. |
| NozzleProfile.AxialZ | Assets/Runtime/Propulsion/Generation/NozzleProfileSamplerV0.cs:78-79 | z lies in [0,length], is 0 at the first point and length at the last. |
| NozzleProfile.AxialZMonotone | Assets/Runtime/Propulsion/Generation/NozzleProfileSamplerV0.cs:78-79 | z grows with the point index. |
| NozzleProfile.BlendZ | Assets/Runtime/Propulsion/Generation/NozzleProfileSamplerV0.cs:69-70 | The throat blend ends strictly inside the nozzle. |
| NozzleProfile.PreDivergeTarget | Assets/Runtime/Propulsion/Generation/NozzleProfileSamplerV0.cs:69-143 | The throat-region target equals RadiusAtBlend, so the two sections meet. |
| NozzleProfile.ThroatRadiusAt | Assets/Runtime/Propulsion/Generation/NozzleProfileSamplerV0.cs:82-92 | In the throat region the radius lies between the throat radius and the pre-diverge target. |
| NozzleProfile.DivergeU | Assets/Runtime/Propulsion/Generation/NozzleProfileSamplerV0.cs:96-99 | u lies in [0,1]: 0 at the blend end and 1 at the exit. |
| NozzleProfile.ConeRadiusAt | Assets/Runtime/Propulsion/Generation/NozzleProfileSamplerV0.cs:96-99 | In the cone the radius lies between the throat and exit radii. |
| NozzleProfile.JitterAmplitude | Assets/Runtime/Propulsion/Generation/NozzleProfileSamplerV0.cs:107 | The amplitude is at most 3% of the exit radius: exactly 3% at jitter 1 and 0 at jitter 0. |
| NozzleProfile.JitterDelta | Assets/Runtime/Propulsion/Generation/NozzleProfileSamplerV0.cs:103-113 | The jitter offset lies within plus or minus the amplitude. |
| NozzleProfile.JitteredRadius | Assets/Runtime/Propulsion/Generation/NozzleProfileSamplerV0.cs:103-115 | A jittered radius is floored at 0.0001. |
| NozzleProfile.RadiusAt | Assets/Runtime/Propulsion/Generation/NozzleProfileSamplerV0.cs:82-115 | Every raw radius is positive. |
| NozzleProfile.Z | Assets/Runtime/Propulsion/Generation/NozzleProfileSamplerV0.cs:78-79 | Every sample's z lies in [0,length]. |
| NozzleProfile.RawPoints | Assets/Runtime/Propulsion/Generation/NozzleProfileSamplerV0.cs:76-119 | The loop emits one point per sample. |
| NozzleProfile.Fixed | Assets/Runtime/Propulsion/Generation/NozzleProfileSamplerV0.cs:122-128 | A fixed point never goes below the previous z and has a non-negative radius; a point already fine is kept. |
| NozzleProfile.Pass | Assets/Runtime/Propulsion/Generation/NozzleProfileSamplerV0.cs:122-128 | The final pass keeps the length and the first point. |
| NozzleProfile.OrderedSpan | Assets/Runtime/Propulsion/Generation/NozzleProfileSamplerV0.cs:122-128 | In a z-ordered profile every z lies between the first and last. |
| NozzleProfile.PassOrdered | Assets/Runtime/Propulsion/Generation/NozzleProfileSamplerV0.cs:122-128 | After the final pass z is non-decreasing and every radius is >= 0. |
| NozzleProfile.PassKeepsOrdered | Assets/Runtime/Propulsion/Generation/NozzleProfileSamplerV0.cs:122-128 | The final pass changes nothing on an already ordered profile. |
| NozzleProfile.RawPointsOrdered | Assets/Runtime/Propulsion/Generation/NozzleProfileSamplerV0.cs:76-119 | The raw points are already ordered with non-negative radii. |
| NozzleProfile.SampledShape | Assets/Runtime/Propulsion/Generation/NozzleProfileSamplerV0.cs:76-128 | The profile has exactly max(2,n) points, point i at z = i/(n-1)*length, first point (0, throatRadius), Length = length, ordered. |
| NozzleProfile.ThroatRegionBounds | Assets/Runtime/Propulsion/Generation/NozzleProfileSamplerV0.cs:82-92 | In the throat region r lies between the throat radius and the target, and the target is at most min(exit, 1.25*throat). |
| NozzleProfile.ThroatMeetsCone | Assets/Runtime/Propulsion/Generation/NozzleProfileSamplerV0.cs:89-99 | The throat section and the cone both reach RadiusAtBlend at the blend end. |
| NozzleProfile.DivergeRegion | Assets/Runtime/Propulsion/Generation/NozzleProfileSamplerV0.cs:96-115 | Without jitter the cone radius; with jitter only when flareJitter > 0 and u >= 0.8, within the amplitude of the cone radius or at the 0.0001 floor. |
| NozzleProfile.ExitRadiusWithoutJitter | Assets/Runtime/Propulsion/Generation/NozzleProfileSamplerV0.cs:96-99 | With zero jitter the last point is (length, exitRadius). |
| NozzleProfile.SamplePoint | Assets/Runtime/Propulsion/Generation/NozzleProfileSamplerV0.cs:78-118 | One loop iteration yields RawPoint i and consumes exactly the draws that point needs. |
| NozzleProfile.EnforceMonotone | Assets/Runtime/Propulsion/Generation/NozzleProfileSamplerV0.cs:122-128 | The in-place fix loop computes Pass. |
| NozzleProfile.SampleRaw | Assets/Runtime/Propulsion/Generation/NozzleProfileSamplerV0.cs:76-119 | The sampling loop yields RawPoints. |
| NozzleProfile.Sample | Assets/Runtime/Propulsion/Generation/NozzleProfileSamplerV0.cs:48-131 | Sample returns SampleProfile of its inputs. |
| NozzleProfile.MinRadius | Assets/Runtime/Propulsion/Generation/NozzleProfileSamplerV0.cs:21-27 | 0 for an empty profile; otherwise a radius of some point that bounds every radius from below. |
| NozzleProfile.MaxRadius | Assets/Runtime/Propulsion/Generation/NozzleProfileSamplerV0.cs:28-34 | 0 for an empty profile; otherwise non-negative, bounding every radius from above, and either 0 or some point's radius. |
| RevolveMesh.Radial | Assets/Runtime/Propulsion/Generation/RevolveMeshBuilder.cs:34 | Radial segments are floored at 3. |
| RevolveMesh.RingRadius | Assets/Runtime/Propulsion/Generation/RevolveMeshBuilder.cs:53 | Negative profile radii are treated as 0; others are kept. |
| RevolveMesh.Ring | Assets/Runtime/Propulsion/Generation/RevolveMeshBuilder.cs:50-72 | A ring has radial+1 vertices (the seam is duplicated). |
| RevolveMesh.RingUvs | Assets/Runtime/Propulsion/Generation/RevolveMeshBuilder.cs:66-70 | A ring has radial+1 UVs. |
| RevolveMesh.Strip | Assets/Runtime/Propulsion/Generation/RevolveMeshBuilder.cs:79-96 | A ring pair emits 6 indices per segment. |
| RevolveMesh.CapVertices | Assets/Runtime/Propulsion/Generation/RevolveMeshBuilder.cs:160-189 | A cap adds radial+2 vertices when its radius exceeds 1e-6 and nothing otherwise. |
| RevolveMesh.CapUvs | Assets/Runtime/Propulsion/Generation/RevolveMeshBuilder.cs:168-188 | A cap adds one UV per cap vertex. |
| RevolveMesh.Fan | Assets/Runtime/Propulsion/Generation/RevolveMeshBuilder.cs:192-211 | A fan of m segments emits 3*m indices. |
| RevolveMesh.CapTriangles | Assets/Runtime/Propulsion/Generation/RevolveMeshBuilder.cs:158-211 | A cap adds 3*radial indices when its radius exceeds 1e-6 and nothing otherwise. |
| RevolveMesh.ZSpan | Assets/Runtime/Propulsion/Generation/RevolveMeshBuilder.cs:45-47 | The UV span is at least 1e-6, and is zMax - zMin when that is larger. |
| RevolveMesh.MeshLists.constructor | Assets/Runtime/Propulsion/Generation/RevolveMeshBuilder.cs:40-42 | New vertex, UV and triangle lists start empty. |
| RevolveMesh.AppendRing | Assets/Runtime/Propulsion/Generation/RevolveMeshBuilder.cs:50-72 | One side ring appends its vertices and, with UVs on, its UVs; triangles unchanged. |
| RevolveMesh.AppendStrip | Assets/Runtime/Propulsion/Generation/RevolveMeshBuilder.cs:79-96 | One ring pair appends its strip of indices; vertices and UVs unchanged. |
| RevolveMesh.AppendCapRing | Assets/Runtime/Propulsion/Generation/RevolveMeshBuilder.cs:173-189 | The cap ring appends radial+1 vertices and its cap UVs; triangles unchanged. |
| RevolveMesh.AppendFan | Assets/Runtime/Propulsion/Generation/RevolveMeshBuilder.cs:192-211 | The fan loop appends its triangles; vertices and UVs unchanged. |
| RevolveMesh.AddCap | Assets/Runtime/Propulsion/Generation/RevolveMeshBuilder.cs:148-212 | AddCap appends the cap's vertices, UVs and triangles indexed from the old vertex count. |
| RevolveMesh.AppendRings | Assets/Runtime/Propulsion/Generation/RevolveMeshBuilder.cs:50-72 | The ring loop produces all rings and side UVs. |
| RevolveMesh.AppendStrips | Assets/Runtime/Propulsion/Generation/RevolveMeshBuilder.cs:77-98 | The strip loop produces all side triangles. |
| RevolveMesh.AddStartCap | Assets/Runtime/Propulsion/Generation/RevolveMeshBuilder.cs:104-128 | The start cap appends its vertices, triangles and UVs when capStart is on. |
| RevolveMesh.AddEndCap | Assets/Runtime/Propulsion/Generation/RevolveMeshBuilder.cs:104-128 | The end cap appends its vertices, triangles and UVs when capEnd is on. |
| RevolveMesh.AddCaps | Assets/Runtime/Propulsion/Generation/RevolveMeshBuilder.cs:104-128 | Both caps are appended in order. |
| RevolveMesh.Build | Assets/Runtime/Propulsion/Generation/RevolveMeshBuilder.cs:29-146 | A null profile gives ArgumentNull, fewer than 2 points gives Argument, otherwise the built mesh. |
| RevolveMesh.RingsLength | Assets/Runtime/Propulsion/Generation/RevolveMeshBuilder.cs:38-72 | The side has rings*(radial+1) vertices. |
| RevolveMesh.SideUvsLength | Assets/Runtime/Propulsion/Generation/RevolveMeshBuilder.cs:66-70 | The side has rings*(radial+1) UVs. |
| RevolveMesh.StripsLength | Assets/Runtime/Propulsion/Generation/RevolveMeshBuilder.cs:77-98 | The side has 6*(rings-1)*radial indices. |
| RevolveMesh.SideVertexAt | Assets/Runtime/Propulsion/Generation/RevolveMeshBuilder.cs:50-72 | Ring i, step j sits at index i*(radial+1)+j. |
| RevolveMesh.SideUvAt | Assets/Runtime/Propulsion/Generation/RevolveMeshBuilder.cs:58-70 | The UV at index i*(radial+1)+j is that of ring i, step j. |
| RevolveMesh.StripAt | Assets/Runtime/Propulsion/Generation/RevolveMeshBuilder.cs:79-96 | Segment j of a strip is its quad. |
| RevolveMesh.StripsPrefix | Assets/Runtime/Propulsion/Generation/RevolveMeshBuilder.cs:77-98 | Earlier strips are a prefix of later ones. |
| RevolveMesh.SideQuadAt | Assets/Runtime/Propulsion/Generation/RevolveMeshBuilder.cs:79-96 | Quad (i,j) sits at index 6*(i*radial+j) as (a0,b0,a1),(a1,b0,b1). |
| RevolveMesh.StripBounds | Assets/Runtime/Propulsion/Generation/RevolveMeshBuilder.cs:79-96 | A strip between rings i and i+1 indexes only those two rings. |
| RevolveMesh.StripsBounds | Assets/Runtime/Propulsion/Generation/RevolveMeshBuilder.cs:79-96 | Side indices stay below the side vertex count. |
| RevolveMesh.FanBounds | Assets/Runtime/Propulsion/Generation/RevolveMeshBuilder.cs:192-211 | Fan indices stay between the centre and the last ring vertex. |
| RevolveMesh.FanAt | Assets/Runtime/Propulsion/Generation/RevolveMeshBuilder.cs:192-211 | Segment j of a fan is its triangle. |
| RevolveMesh.CapWinding | Assets/Runtime/Propulsion/Generation/RevolveMeshBuilder.cs:197-210 | The start cap winds (c, v1, v0) and the end cap (c, v0, v1): opposite orientations. |
| RevolveMesh.MeshCounts | Assets/Runtime/Propulsion/Generation/RevolveMeshBuilder.cs:29-146 | Vertex, triangle and UV counts including the caps; the name is RevolvedMesh_V0; normals are recalculated as requested. |
| RevolveMesh.SideIndicesInRange | Assets/Runtime/Propulsion/Generation/RevolveMeshBuilder.cs:79-96 | Every side index names a side vertex. |
| RevolveMesh.CapIndicesInRange | Assets/Runtime/Propulsion/Generation/RevolveMeshBuilder.cs:166-210 | Every cap index names one of that cap's vertices. |
| RevolveMesh.CapsIndicesInRange | Assets/Runtime/Propulsion/Generation/RevolveMeshBuilder.cs:104-128 | Every cap index names a vertex appended by the caps. |
| RevolveMesh.IndicesInRange | Assets/Runtime/Propulsion/Generation/RevolveMeshBuilder.cs:79-210 | Every triangle index is below the final vertex count. |
| RevolveMesh.UvsInUnitSquare | Assets/Runtime/Propulsion/Generation/RevolveMeshBuilder.cs:45-188 | For a z-ordered profile every UV lies in the unit square. |
| RevolveMesh.SideUvsInUnitSquare | Assets/Runtime/Propulsion/Generation/RevolveMeshBuilder.cs:66-69 | Side UVs lie in the unit square when every z lies within the span. |
| RevolveMesh.NegativeRadiusOnAxis | Assets/Runtime/Propulsion/Generation/RevolveMeshBuilder.cs:53-160 | A non-positive radius puts the whole ring on the axis and suppresses the cap. |
| NozzleSpecHash.FloatHash | Assets/Runtime/Propulsion/Generation/NozzleGeneratorV0.cs:95-100 | round(x*10000) lies within 0.5 of x*10000. |
| NozzleSpecHash.FloatHashMonotone | Assets/Runtime/Propulsion/Generation/NozzleGeneratorV0.cs:95-100 | The quantisation preserves order. |
| NozzleSpecHash.FloatHashOnGrid | Assets/Runtime/Propulsion/Generation/NozzleGeneratorV0.cs:95-100 | Values on the 1e-4 grid hash to their grid index. |
| NozzleSpecHash.HashWords | Assets/Runtime/Propulsion/Generation/NozzleGeneratorV0.cs:82-90 | Nine words are hashed. |
| NozzleSpecHash.FoldIsWrappedPoly | Assets/Runtime/Propulsion/Generation/NozzleGeneratorV0.cs:79-90 | The wrapped fold h := h*31 + x equals the int32 wrap of the exact polynomial. |
| NozzleSpecHash.StepInjective | Assets/Runtime/Propulsion/Generation/NozzleGeneratorV0.cs:82-90 | One fold step is injective in the running hash. |
| NozzleSpecHash.StepSeparatesWords | Assets/Runtime/Propulsion/Generation/NozzleGeneratorV0.cs:82-90 | Words that differ modulo 2^32 give different steps. |
| NozzleSpecHash.SingleEditChangesFold | Assets/Runtime/Propulsion/Generation/NozzleGeneratorV0.cs:81-90 | Changing one word (modulo 2^32) always changes the fold. |
| NozzleSpecHash.HexChar | Assets/Runtime/Propulsion/Generation/NozzleGeneratorV0.cs:91 | A value below 16 prints as an uppercase hex digit. |
| NozzleSpecHash.HexValueOfChar | Assets/Runtime/Propulsion/Generation/NozzleGeneratorV0.cs:91 | Reading back a printed hex digit gives the value. |
| NozzleSpecHash.HexDigits | Assets/Runtime/Propulsion/Generation/NozzleGeneratorV0.cs:91 | n digits are printed, all hex. |
| NozzleSpecHash.Hex8 | Assets/Runtime/Propulsion/Generation/NozzleGeneratorV0.cs:91 | The X8 format prints exactly 8 hex digits. |
| NozzleSpecHash.ParseHexDigits | Assets/Runtime/Propulsion/Generation/NozzleGeneratorV0.cs:91 | Reading back n printed digits gives the value mod 16^n. |
| NozzleSpecHash.Hex8RoundTrip | Assets/Runtime/Propulsion/Generation/NozzleGeneratorV0.cs:91 | Reading back X8 gives the unsigned reading of the int32. |
| NozzleSpecHash.Hex8Injective | Assets/Runtime/Propulsion/Generation/NozzleGeneratorV0.cs:91 | Different int32 values print differently. |
| NozzleSpecHash.SpecHash | Assets/Runtime/Propulsion/Generation/NozzleGeneratorV0.cs:77-93 | The spec hash is 8 characters long. |
| NozzleSpecHash.FoldSnoc | Assets/Runtime/Propulsion/Generation/NozzleGeneratorV0.cs:81-90 | Hashing one more word is one fold step. |
| NozzleSpecHash.ComputeSpecHash | Assets/Runtime/Propulsion/Generation/NozzleGeneratorV0.cs:77-93 | The unchecked-arithmetic loop returns SpecHash. |
| NozzleSpecHash.FoldPrintsPoly | Assets/Runtime/Propulsion/Generation/NozzleGeneratorV0.cs:81-91 | The printed fold reads back as the exact polynomial mod 2^32. |
| NozzleSpecHash.SpecHashIsPolynomial | Assets/Runtime/Propulsion/Generation/NozzleGeneratorV0.cs:77-93 | The hash reads back as the polynomial from 17 over the nine words, mod 2^32. |
| NozzleSpecHash.SeedEditChangesHash | Assets/Runtime/Propulsion/Generation/NozzleGeneratorV0.cs:82 | Changing the seed always changes the hash. |
| NozzleSpecHash.ThrustEditChangesHash | Assets/Runtime/Propulsion/Generation/NozzleGeneratorV0.cs:83 | Changing the quantised thrust (within int32 range) always changes the hash. |
| NozzleSpecHash.DefaultWords | Assets/Runtime/Propulsion/NozzleSpec.cs:12-42 | The default spec hashes the words [0, 1000000, 10000, 1000, 3000, 32, 48, 5000, 0]. |
| NozzleSpecHash.DefaultFold | Assets/Runtime/Propulsion/Generation/NozzleGeneratorV0.cs:81-90 | Those words fold to -1864626633. |
| NozzleSpecHash.DefaultHex | Assets/Runtime/Propulsion/Generation/NozzleGeneratorV0.cs:91 | -1864626633 prints as 90DC0E37. |
| NozzleSpecHash.DefaultSpecHash | Assets/Runtime/Propulsion/Generation/NozzleGeneratorV0.cs:77-93 | The default spec's hash is 90DC0E37. |
| NozzleGeneration.NozzleSettings | Assets/Runtime/Propulsion/Generation/NozzleGeneratorV0.cs:39-46 | The spec's radial segments, no caps, normals and UVs on. |
| NozzleGeneration.ProfileShape | Assets/Runtime/Propulsion/Generation/NozzleGeneratorV0.cs:28-36 | The profile has max(2, samples) ordered points from z = 0, and Length is the clamped length. |
| NozzleGeneration.SampleAndRevolve | Assets/Runtime/Propulsion/Generation/NozzleGeneratorV0.cs:28-49 | The profile is the sampled one and the mesh is it revolved and renamed after the spec. |
| NozzleGeneration.GenerateFrom | Assets/Runtime/Propulsion/Generation/NozzleGeneratorV0.cs:27-70 | A non-null spec gives the Generated artifact. |
| NozzleGeneration.Generate | Assets/Runtime/Propulsion/Generation/NozzleGeneratorV0.cs:15-71 | Null spec gives the error artifact; otherwise the Generated artifact. |
| NozzleGeneration.NullSpecNotValid | Assets/Runtime/Propulsion/Generation/NozzleGeneratorV0.cs:13-25 | The error artifact has no mesh (so is not valid), version NozzleGeneratorV0_0001 and tags ["error:null-spec"]. |
| NozzleGeneration.GeneratedMetadata | Assets/Runtime/Propulsion/Generation/NozzleGeneratorV0.cs:49-68 | Mesh named NozzleMesh_<name> with normals; spec hash; version; inlet at the origin; outlet at (0,0,length); thrust axis back; tags ["nozzle","v0"]. |
| NozzleGeneration.GeneratedCounts | Assets/Runtime/Propulsion/Generation/NozzleGeneratorV0.cs:39-48 | The mesh is valid (some vertex), with rings*(radial+1) vertices, 6*(rings-1)*radial indices and one UV per vertex. |
| NozzleGeneration.GeneratedIndices | Assets/Runtime/Propulsion/Generation/NozzleGeneratorV0.cs:48 | Every index names a vertex of the generated mesh. |
| NozzleGeneration.GeneratedUvs | Assets/Runtime/Propulsion/Generation/NozzleGeneratorV0.cs:45-48 | Every UV of the generated mesh lies in the unit square. |

## Left out

- The URP renderer binding, the demo MonoBehaviours, the UI, input and scene spawning, the editor preview menu and every `OnValidate` hook: they only bind the core to Unity.
- The component data assets (`ComponentDefinitionSO`, `ComponentCategorySO`): they hold data and have no behaviour.
- IEEE-754 single-precision rounding: floats are reals. No result is claimed bit-exact, and the golden RNG values are exact fractions of 2^24.
- Vertex positions and normals: they depend on cos and sin, which are parameters. `Mesh.RecalculateNormals` and `RecalculateBounds` are recorded as a flag on the mesh value.
- ProcArtifact's `materials` and `bounds`: the generator never sets them. `specGuid` stays null, which is modelled as `None`.
- `System.Random`: its algorithm is not modelled. Its draws are a function of the seed and the draw index.
- `Color.RGBToHSV`, `Color.HSVToRGB` and Unity's trigonometry, logarithm and square root: they are function parameters.
- ToString: `NozzleDerived.ToString`, `MaterialInstance.ToString` and `MaterialPropertyVector.ToString` are not modelled. Only the display name with its four-digit suffix is modelled.
- Category and subtype names: `CategoryName` and `SubtypeName` are a fixed table of the enums' identifiers. C#'s enum-to-string conversion is not modelled.
- The unreachable `_ =>` default arms of the enum switches: every enum value in the model has an explicit arm.
- The template builders are stated on sequences. `MaterialTemplates.GetMeanVector`, `GetSpreadVector` and `ToVector` return the contents of the fresh array rather than a new array object. The sampling method then materialises them into a fresh array.
- NozzleSpecHash.HashWords: the float words are the exact `round(x*10000)`. The C# cast of a value at or beyond 2^31 is unspecified, so the model does not reproduce it.
- NozzleSpecHash.ThrustEditChangesHash: requires both quantised thrusts to fit in int32, for the reason given for HashWords.
- PropertyVectors.Max: requires `count > 0`. The source always has 8 slots, and an empty array would throw.
- PropertyVectors.Min: requires `count > 0`. The source always has 8 slots, and an empty array would throw.
- TierRules.EnforceOneDominant: requires `count > 0`. The source always has 8 slots, and an empty array would throw.
- TierRules.EnsureAWeakness: requires `count > 0`. The source always has 8 slots, and an empty array would throw.
- MaterialGenerator.MaterialGeneratorT0.Generate: requires `count >= 8`, the source's slot count or more.
- RevolveMesh.Build: `radial + 1` and `rings * (radial + 1)` are unbounded integers here. The source computes them in int32, which wraps once `rings * (radial + 1)` passes 2^31 - 1 (for example 46341 points and 46340 segments); that wrap-around is not modelled.
- NozzleProfile.EnforceMonotone: requires at least one point. The sampler always produces at least two.
- NozzleProfile.RadiusAtBlend: requires `0 <= throatRadius <= exitRadius`. This is what the sampler's clamps guarantee at every call.
- NozzleDerivation.EpsilonCfFactor: requires `ln(200) > 0`. The logarithm is a parameter, so this one fact about it is stated.
- NozzleDerivation.Cf: requires `ln(200) > 0`, for the same reason.
- NozzleDerivation.Compute: requires `ln(200) > 0`, for the same reason.

## Findings

| source | as written | input that shows it | evidently intended | confidence | as-written member | corrected member |
|---|---|---|---|---|---|---|
| Assets/Scripts/Data/PlanetModifiersT0.cs:24 | The Cryo, Hot and Extreme branches add to `v[MaterialProperty.Manufacturability]` on an 8-slot vector | any planet whose temperature band is Cryo, Hot or Extreme | a ninth slot, so the bias applies to Manufacturability | not executed | PlanetModifiers.ComputeAsWrittenFails | PlanetModifiers.ComputeCorrected |
| Assets/Scripts/Data/MaterialCategoryTemplateSO.cs:83 | GetMeanVector, GetSpreadVector and ToVector write Manufacturability into an 8-slot `CreateZero` vector | any template or subtype adjustment | each builder fills all nine properties | not executed | MaterialTemplates.BuildersAsWrittenFail | MaterialTemplates.BuildersCorrected |
| Assets/Runtime/Materials/MaterialVisualProfile.cs:162 | SampleFromTemplate calls GetMeanVector, so Generate throws once a planet and a template exist | any planet and any category template | sampled properties within the template's clamped ranges | not executed | MaterialGenerator.SampleAsWrittenFails | MaterialGenerator.SampleCorrected |
| Assets/Runtime/Materials/MaterialVisualGeneratorT0.cs:35 | Reads `props[MaterialProperty.Manufacturability]` on an 8-slot vector | any material instance | a profile whose strengths all lie in [0,1] | not executed | VisualGenerator.VisualAsWrittenFails | VisualGenerator.VisualCorrected |
| Assets/Runtime/Materials/MaterialPropertyVector.cs:24 | The indexer `_v[(int)p]` over `Count = 8` slots cannot reach ordinal 8 | `MaterialProperty.Manufacturability` | `Count = 9`, one slot per property | not executed | MaterialGenerator.DefaultWeaknessPenaltyFails | PropertyVectors.IndexerRange |
