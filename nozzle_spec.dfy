/** Assets/Runtime/Propulsion/NozzleSpecSO.cs: the authoritative inputs of a
    nozzle design and the edit-time ClampForSafety pass over them. */
module NozzleSpecs {
  import Mathf
  import opened Int32s

  datatype NozzleType = Conical | BellRao

  datatype PropellantClass = Solid | LoxRp1 | LoxLh2 | Methalox | Hypergolic | Exotic

  /** Every serialized field of a NozzleSpecSO, as one value. */
  datatype NozzleSpecValues = NozzleSpecValues(
    displayName: string,
    propellant: PropellantClass,
    designThrustKn: real,
    chamberPressureMpa: real,
    expansionRatio: real,
    designAmbientPressureKpa: real,
    nozzleType: NozzleType,
    lengthFactor: real,
    divergenceHalfAngleDeg: real,
    throatRadiusCurvatureFactor: real,
    wallThicknessMm: real,
    deterministicSeed: Int32,
    materialRef: object?,
    profileSamples: Int32,
    radialSegments: Int32,
    generateInnerSurface: bool,
    generateOuterSurface: bool,
    openEnds: bool)

  /** The field initialisers of the ScriptableObject. */
  const Defaults := NozzleSpecValues("Nozzle", LoxRp1, 100.0, 5.0, 20.0, 101.3, Conical, 0.80, 15.0, 1.0, 8.0,
                                     0, null, 64, 48, true, true, true)

  /** `if (x < lo) x = lo`: a floor that leaves larger values alone. */
  function AtLeast(x: real, lo: real): (r: real)
    ensures r >= lo
    ensures x >= lo ==> r == x
    ensures x < lo ==> r == lo
  {
    if x < lo then lo else x
  }

  /** The ranges ClampForSafety establishes. */
  predicate Safe(v: NozzleSpecValues)
  {
    && v.designThrustKn >= 0.1
    && v.chamberPressureMpa >= 0.1
    && v.expansionRatio >= 1.01
    && 8 <= v.profileSamples <= 256
    && 8 <= v.radialSegments <= 256
    && 1.0 <= v.wallThicknessMm <= 200.0
    && 0.2 <= v.lengthFactor <= 1.5
    && 5.0 <= v.divergenceHalfAngleDeg <= 35.0
    && 0.2 <= v.throatRadiusCurvatureFactor <= 3.0
    && v.designAmbientPressureKpa >= 0.0
  }

  /** The values after ClampForSafety: each numeric field floored or clamped,
      everything else as it was. */
  function Clamped(v: NozzleSpecValues): NozzleSpecValues
  {
    v.(designThrustKn := AtLeast(v.designThrustKn, 0.1),
       chamberPressureMpa := AtLeast(v.chamberPressureMpa, 0.1),
       expansionRatio := AtLeast(v.expansionRatio, 1.01),
       profileSamples := Mathf.ClampInt(v.profileSamples, 8, 256),
       radialSegments := Mathf.ClampInt(v.radialSegments, 8, 256),
       wallThicknessMm := Mathf.Clamp(v.wallThicknessMm, 1.0, 200.0),
       lengthFactor := Mathf.Clamp(v.lengthFactor, 0.2, 1.5),
       divergenceHalfAngleDeg := Mathf.Clamp(v.divergenceHalfAngleDeg, 5.0, 35.0),
       throatRadiusCurvatureFactor := Mathf.Clamp(v.throatRadiusCurvatureFactor, 0.2, 3.0),
       designAmbientPressureKpa := Mathf.Max(0.0, v.designAmbientPressureKpa))
  }

  /** ClampForSafety establishes the ranges and leaves the identity, the
      type, the seed, the material link and the surface flags alone. */
  lemma ClampedIsSafe(v: NozzleSpecValues)
    ensures var r := Clamped(v);
            && Safe(r)
            && r.displayName == v.displayName && r.propellant == v.propellant && r.nozzleType == v.nozzleType
            && r.deterministicSeed == v.deterministicSeed && r.materialRef == v.materialRef
            && r.generateInnerSurface == v.generateInnerSurface && r.generateOuterSurface == v.generateOuterSurface
            && r.openEnds == v.openEnds
  {}

  /** Values already in range are left exactly as they are. */
  lemma ClampKeepsSafe(v: NozzleSpecValues)
    requires Safe(v)
    ensures Clamped(v) == v
  {}

  /** Clamping twice is clamping once. */
  lemma ClampIdempotent(v: NozzleSpecValues)
    ensures Clamped(Clamped(v)) == Clamped(v)
  {
    ClampKeepsSafe(Clamped(v));
  }

  /** The field initialisers are already safe, so a fresh asset clamps to itself. */
  lemma DefaultsSafe()
    ensures Safe(Defaults)
    ensures Clamped(Defaults) == Defaults
  {
    ClampKeepsSafe(Defaults);
  }

  /** The ScriptableObject; ClampForSafety rewrites its fields in place. */
  class NozzleSpecSO {
    var displayName: string
    var propellant: PropellantClass
    var designThrustKn: real
    var chamberPressureMpa: real
    var expansionRatio: real
    var designAmbientPressureKpa: real
    var nozzleType: NozzleType
    var lengthFactor: real
    var divergenceHalfAngleDeg: real
    var throatRadiusCurvatureFactor: real
    var wallThicknessMm: real
    var deterministicSeed: Int32
    var materialRef: object?
    var profileSamples: Int32
    var radialSegments: Int32
    var generateInnerSurface: bool
    var generateOuterSurface: bool
    var openEnds: bool

    function Values(): NozzleSpecValues
      reads this
    {
      NozzleSpecValues(displayName, propellant, designThrustKn, chamberPressureMpa, expansionRatio,
                       designAmbientPressureKpa, nozzleType, lengthFactor, divergenceHalfAngleDeg,
                       throatRadiusCurvatureFactor, wallThicknessMm, deterministicSeed, materialRef,
                       profileSamples, radialSegments, generateInnerSurface, generateOuterSurface, openEnds)
    }

    constructor ()
      ensures Values() == Defaults
    {
      displayName := "Nozzle";
      propellant := LoxRp1;
      designThrustKn := 100.0;
      chamberPressureMpa := 5.0;
      expansionRatio := 20.0;
      designAmbientPressureKpa := 101.3;
      nozzleType := Conical;
      lengthFactor := 0.80;
      divergenceHalfAngleDeg := 15.0;
      throatRadiusCurvatureFactor := 1.0;
      wallThicknessMm := 8.0;
      deterministicSeed := 0;
      materialRef := null;
      profileSamples := 64;
      radialSegments := 48;
      generateInnerSurface := true;
      generateOuterSurface := true;
      openEnds := true;
    }

    /** The three floors on the performance inputs. */
    method FloorPerformanceInputs()
      modifies this
      ensures Values() == old(Values()).(designThrustKn := AtLeast(old(designThrustKn), 0.1),
                                         chamberPressureMpa := AtLeast(old(chamberPressureMpa), 0.1),
                                         expansionRatio := AtLeast(old(expansionRatio), 1.01))
    {
      if designThrustKn < 0.1 { designThrustKn := 0.1; }
      if chamberPressureMpa < 0.1 { chamberPressureMpa := 0.1; }
      if expansionRatio < 1.01 { expansionRatio := 1.01; }
    }

    /** The mesh resolution clamps. */
    method ClampResolution()
      modifies this
      ensures Values() == old(Values()).(profileSamples := Mathf.ClampInt(old(profileSamples), 8, 256),
                                         radialSegments := Mathf.ClampInt(old(radialSegments), 8, 256))
    {
      profileSamples := Mathf.ClampInt(profileSamples, 8, 256);
      radialSegments := Mathf.ClampInt(radialSegments, 8, 256);
    }

    /** The geometry clamps. */
    method ClampGeometry()
      modifies this
      ensures Values() == old(Values()).(wallThicknessMm := Mathf.Clamp(old(wallThicknessMm), 1.0, 200.0),
                                         lengthFactor := Mathf.Clamp(old(lengthFactor), 0.2, 1.5),
                                         divergenceHalfAngleDeg := Mathf.Clamp(old(divergenceHalfAngleDeg), 5.0, 35.0),
                                         throatRadiusCurvatureFactor := Mathf.Clamp(old(throatRadiusCurvatureFactor), 0.2, 3.0))
    {
      wallThicknessMm := Mathf.Clamp(wallThicknessMm, 1.0, 200.0);
      lengthFactor := Mathf.Clamp(lengthFactor, 0.2, 1.5);
      divergenceHalfAngleDeg := Mathf.Clamp(divergenceHalfAngleDeg, 5.0, 35.0);
      throatRadiusCurvatureFactor := Mathf.Clamp(throatRadiusCurvatureFactor, 0.2, 3.0);
    }

    /** ClampForSafety: the field updates in source order. */
    method ClampForSafety()
      modifies this
      ensures Values() == Clamped(old(Values()))
    {
      FloorPerformanceInputs();
      ClampResolution();
      ClampGeometry();
      designAmbientPressureKpa := Mathf.Max(0.0, designAmbientPressureKpa);
    }
  }
}
