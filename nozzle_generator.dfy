/** Assets/Runtime/Propulsion/Generation/NozzleGeneratorV0.cs: samples the
    nozzle profile, revolves it into a mesh and wraps the mesh with its cache
    metadata (spec hash, generator version, attach points, tags). */
module NozzleGeneration {
  import opened Wrappers
  import Mathf
  import opened Int32s
  import opened NozzleProfile
  import opened RevolveMesh
  import opened NozzleSpecHash

  /** Bumped whenever generation changes, to invalidate baked assets. */
  const GeneratorVersion := "NozzleGeneratorV0_0001"

  /** The generated bundle: mesh, cache metadata and attach points. */
  datatype ProcArtifact = ProcArtifact(
    mesh: Option<Mesh>,
    specGuid: Option<string>,
    specHash: Option<string>,
    generatorVersion: string,
    inletPosition: Vector3,
    outletPosition: Vector3,
    thrustAxis: Vector3,
    tags: seq<string>)

  const Zero := Vector3(0.0, 0.0, 0.0)

  /** Vector3.back: thrust points along -Z, the exhaust leaves along +Z. */
  const Back := Vector3(0.0, 0.0, -1.0)

  /** ProcArtifact.IsValidMesh: a mesh with at least one vertex. */
  predicate IsValidMesh(a: ProcArtifact)
  {
    a.mesh.Some? && |a.mesh.value.vertices| > 0
  }

  // ---------------------------------------------------------------------------
  // Generate

  /** What a null spec yields: no mesh, the version, and one error tag. */
  const NullSpecArtifact := ProcArtifact(None, None, None, GeneratorVersion, Zero, Zero, Zero, ["error:null-spec"])

  /** The revolve settings: the spec's segment count, open ends, normals and UVs. */
  function NozzleSettings(s: NozzleSpec): (settings: BuildSettings)
    ensures settings.radialSegments == s.radialSegments
    ensures !settings.capStart && !settings.capEnd
    ensures settings.generateNormals && settings.generateUVs
  {
    BuildSettings(s.radialSegments, false, false, true, true)
  }

  /** The sampled profile of a spec. */
  function NozzleProfileOf(s: NozzleSpec, random: Int32 -> nat -> UnitInterval): Profile2D
  {
    SampleProfile(random, s.seed, s.length, s.throatRadius, s.exitRadius, s.axialProfileSamples,
                  s.throatCurvatureFactor, s.flareJitter)
  }

  /** The profile always has max(2, axialProfileSamples) ordered points, the
      first on the axis origin plane and the last at the clamped length. */
  lemma ProfileShape(s: NozzleSpec, random: Int32 -> nat -> UnitInterval)
    ensures var zr := NozzleProfileOf(s, random).zr;
            && |zr| == Mathf.MaxInt(2, s.axialProfileSamples)
            && zr[0].z == 0.0
            && Length(NozzleProfileOf(s, random)) == Mathf.Max(0.01, s.length)
            && Ordered(zr)
  {
    var p := ClampInputs(s.length, s.throatRadius, s.exitRadius, s.axialProfileSamples,
                         s.throatCurvatureFactor, s.flareJitter);
    SampledShape(p, random(s.seed));
  }

  /** The spec's profile revolved with NozzleSettings and renamed after the spec. */
  function NozzleMesh(s: NozzleSpec, random: Int32 -> nat -> UnitInterval, cos: real -> real, sin: real -> real): Mesh
  {
    ProfileShape(s, random);
    BuiltMesh(NozzleProfileOf(s, random).zr, NozzleSettings(s), cos, sin).(name := "NozzleMesh_" + s.name)
  }

  /** The artifact Generate returns for a non-null spec. */
  function Generated(s: NozzleSpec, random: Int32 -> nat -> UnitInterval, cos: real -> real, sin: real -> real)
    : ProcArtifact
  {
    ProcArtifact(Some(NozzleMesh(s, random, cos, sin)), None, Some(SpecHash(s)), GeneratorVersion, Zero,
                 Vector3(0.0, 0.0, Length(NozzleProfileOf(s, random))), Back, ["nozzle", "v0"])
  }

  /** Steps 1 and 2 of Generate: sample the profile, revolve it with no caps,
      normals and UVs on, and name the mesh after the spec. */
  method SampleAndRevolve(s: NozzleSpec, random: Int32 -> nat -> UnitInterval, cos: real -> real, sin: real -> real)
    returns (profile: Profile2D, mesh: Mesh)
    ensures profile == NozzleProfileOf(s, random)
    ensures mesh == NozzleMesh(s, random, cos, sin)
  {
    profile := Sample(random, s.seed, s.length, s.throatRadius, s.exitRadius, s.axialProfileSamples,
                      s.throatCurvatureFactor, s.flareJitter);
    var settings := BuildSettings(s.radialSegments, false, false, true, true);
    assert settings == NozzleSettings(s);
    ProfileShape(s, random);
    var built := Build(Some(profile.zr), settings, cos, sin);
    mesh := built.value.(name := "NozzleMesh_" + s.name);
  }

  /** Generate on a non-null spec: sample and revolve, hash the spec, fill
      in the metadata, then tag the artifact. */
  method GenerateFrom(s: NozzleSpec, random: Int32 -> nat -> UnitInterval, cos: real -> real, sin: real -> real)
    returns (artifact: ProcArtifact)
    ensures artifact == Generated(s, random, cos, sin)
  {
    var profile, mesh := SampleAndRevolve(s, random, cos, sin);
    var hash := ComputeSpecHash(s);
    // The artifact is created with an empty tag list, then tagged.
    var tags: seq<string> := [];
    tags := tags + ["nozzle"];
    tags := tags + ["v0"];
    AppendTwice<string>("nozzle", "v0");
    artifact := ProcArtifact(Some(mesh), None, Some(hash), GeneratorVersion, Zero, Vector3(0.0, 0.0, Length(profile)),
                             Back, tags);
  }

  lemma AppendTwice<T>(a: T, b: T)
    ensures [] + [a] + [b] == [a, b]
  {}

  /** Generate: a null spec gives the error artifact; otherwise the sampled
      profile is revolved, renamed after the spec and wrapped with its hash,
      version, attach points and tags. */
  method Generate(spec: Option<NozzleSpec>, random: Int32 -> nat -> UnitInterval, cos: real -> real, sin: real -> real)
    returns (artifact: ProcArtifact)
    ensures spec.None? ==> artifact == NullSpecArtifact
    ensures spec.Some? ==> artifact == Generated(spec.value, random, cos, sin)
  {
    if spec.None? {
      return NullSpecArtifact;
    }
    artifact := GenerateFrom(spec.value, random, cos, sin);
  }

  /** The null-spec artifact carries no mesh, so it is never a valid mesh. */
  lemma NullSpecNotValid()
    ensures !IsValidMesh(NullSpecArtifact)
    ensures NullSpecArtifact.generatorVersion == "NozzleGeneratorV0_0001"
    ensures NullSpecArtifact.tags == ["error:null-spec"]
  {}

  /** A generated artifact's metadata: the mesh is named after the spec and
      has recalculated normals; the hash, version, attach points, thrust axis
      and tags are those of the source. */
  lemma GeneratedMetadata(s: NozzleSpec, random: Int32 -> nat -> UnitInterval, cos: real -> real, sin: real -> real)
    ensures var a := Generated(s, random, cos, sin);
            && a.mesh.Some?
            && a.mesh.value.name == "NozzleMesh_" + s.name
            && a.mesh.value.normalsRecalculated
            && a.specGuid.None?
            && a.specHash == Some(SpecHash(s))
            && a.generatorVersion == GeneratorVersion
            && a.inletPosition == Zero
            && a.outletPosition == Vector3(0.0, 0.0, Mathf.Max(0.01, s.length))
            && a.thrustAxis == Back
            && a.tags == ["nozzle", "v0"]
  {
    ProfileShape(s, random);
  }

  /** A generated mesh is valid and open-ended: rings * (radial + 1) vertices,
      6 * (rings - 1) * radial indices and one UV per vertex, where rings and
      radial are the clamped sample and segment counts. */
  lemma GeneratedCounts(s: NozzleSpec, random: Int32 -> nat -> UnitInterval, cos: real -> real, sin: real -> real)
    ensures var m := Generated(s, random, cos, sin).mesh;
            var rings := Mathf.MaxInt(2, s.axialProfileSamples);
            var radial := Mathf.MaxInt(3, s.radialSegments);
            && IsValidMesh(Generated(s, random, cos, sin))
            && |m.value.vertices| == rings * (radial + 1)
            && |m.value.triangles| == 6 * ((rings - 1) * radial)
            && |m.value.uvs| == |m.value.vertices|
  {
    var ps := NozzleProfileOf(s, random).zr;
    var settings := NozzleSettings(s);
    ProfileShape(s, random);
    var rings := Mathf.MaxInt(2, s.axialProfileSamples);
    var radial := Mathf.MaxInt(3, s.radialSegments);
    assert |ps| == rings && Radial(settings) == radial;
    var m := Generated(s, random, cos, sin).mesh.value;
    assert m == NozzleMesh(s, random, cos, sin);
    assert m.vertices == MeshVertices(ps, settings, cos, sin);
    assert m.triangles == MeshTriangles(ps, settings, cos, sin);
    assert m.uvs == MeshUvs(ps, settings, cos, sin);
    MeshCounts(ps, settings, cos, sin);
    assert |m.vertices| == rings * (radial + 1);
    assert |m.triangles| == 6 * ((rings - 1) * radial);
    assert rings * (radial + 1) > 0 by {
      assert rings * (radial + 1) >= radial + 1;
    }
  }

  /** Every index of a generated mesh names one of its vertices. */
  lemma GeneratedIndices(s: NozzleSpec, random: Int32 -> nat -> UnitInterval, cos: real -> real, sin: real -> real)
    ensures var m := Generated(s, random, cos, sin).mesh.value;
            forall x :: x in m.triangles ==> 0 <= x < |m.vertices|
  {
    ProfileShape(s, random);
    IndicesInRange(NozzleProfileOf(s, random).zr, NozzleSettings(s), cos, sin);
  }

  /** Every UV of a generated mesh lies in the unit square. */
  lemma GeneratedUvs(s: NozzleSpec, random: Int32 -> nat -> UnitInterval, cos: real -> real, sin: real -> real)
    requires forall t :: -1.0 <= cos(t) <= 1.0 && -1.0 <= sin(t) <= 1.0
    ensures forall uv :: uv in Generated(s, random, cos, sin).mesh.value.uvs ==> 0.0 <= uv.u <= 1.0 && 0.0 <= uv.v <= 1.0
  {
    var ps := NozzleProfileOf(s, random).zr;
    ProfileShape(s, random);
    assert forall i :: 0 <= i < |ps| ==> ps[0].z <= ps[i].z <= ps[|ps| - 1].z by {
      OrderedSpan(ps);
    }
    UvsInUnitSquare(ps, NozzleSettings(s), cos, sin);
  }
}
