/** Assets/Runtime/Propulsion/Generation/RevolveMeshBuilder.cs: revolves an
    axial (z, r) profile around +Z into a triangle mesh. The side surface is
    one ring of radial+1 vertices per profile point (the seam vertex repeats
    for UV wrapping), stitched ring to ring by two triangles per quad; optional
    caps are triangle fans. Mathf.Cos and Mathf.Sin are parameters. */
module RevolveMesh {
  import opened Wrappers
  import Mathf
  import opened Int32s
  import opened NozzleProfile

  datatype Vector3 = Vector3(x: real, y: real, z: real)

  /** A texture coordinate (Vector2 of the UV channel). */
  datatype Uv = Uv(u: real, v: real)

  datatype BuildSettings = BuildSettings(radialSegments: Int32, capStart: bool, capEnd: bool,
                                         generateNormals: bool, generateUVs: bool)

  /** The Unity mesh Build returns: its name, vertex and index buffers, UV
      channel 0 (empty when UVs were not set) and whether normals were
      recalculated. */
  datatype Mesh = Mesh(name: string, vertices: seq<Vector3>, triangles: seq<int>, uvs: seq<Uv>,
                       normalsRecalculated: bool)

  const MeshName := "RevolvedMesh_V0"

  /** Radial segments are floored at 3. */
  function Radial(settings: BuildSettings): (radial: int)
    ensures radial >= 3
    ensures settings.radialSegments >= 3 ==> radial == settings.radialSegments as int
    ensures settings.radialSegments < 3 ==> radial == 3
  {
    Mathf.MaxInt(3, settings.radialSegments)
  }

  /** theta = (j / radial) * PI * 2. */
  function Theta(j: nat, radial: nat): real
    requires radial > 0
  {
    Fraction(j as real, radial as real) * Mathf.PI * 2.0
  }

  /** Negative profile radii are treated as 0. */
  function RingRadius(p: Point2): (r: real)
    ensures r >= 0.0 && (p.r >= 0.0 ==> r == p.r) && (p.r <= 0.0 ==> r == 0.0)
  {
    Mathf.Max(0.0, p.r)
  }

  /** Step j of the ring around profile point p. */
  function RingVertex(p: Point2, j: nat, radial: nat, cos: real -> real, sin: real -> real): Vector3
    requires radial > 0
  {
    var r := RingRadius(p);
    var theta := Theta(j, radial);
    Vector3(r * cos(theta), r * sin(theta), p.z)
  }

  /** The radial+1 vertices of one ring. */
  function Ring(p: Point2, radial: nat, cos: real -> real, sin: real -> real): (s: seq<Vector3>)
    requires radial > 0
    ensures |s| == radial + 1
  {
    seq(radial + 1, j requires 0 <= j <= radial => RingVertex(p, j, radial, cos, sin))
  }

  /** The side vertices: the rings of all profile points, in order. */
  function Rings(ps: seq<Point2>, radial: nat, cos: real -> real, sin: real -> real): seq<Vector3>
    requires radial > 0
    decreases |ps|
  {
    if |ps| == 0 then []
    else Rings(ps[..|ps| - 1], radial, cos, sin) + Ring(ps[|ps| - 1], radial, cos, sin)
  }

  /** The UV of side vertex j on the ring of p: u = j / radial, and v the
      position of z between zMin and zMin + zSpan. */
  function SideUv(p: Point2, j: nat, radial: nat, zMin: real, zSpan: real): Uv
    requires radial > 0 && zSpan > 0.0
  {
    Uv(Fraction(j as real, radial as real), Fraction(p.z - zMin, zSpan))
  }

  function RingUvs(p: Point2, radial: nat, zMin: real, zSpan: real): (s: seq<Uv>)
    requires radial > 0 && zSpan > 0.0
    ensures |s| == radial + 1
  {
    seq(radial + 1, j requires 0 <= j <= radial => SideUv(p, j, radial, zMin, zSpan))
  }

  function SideUvs(ps: seq<Point2>, radial: nat, zMin: real, zSpan: real): seq<Uv>
    requires radial > 0 && zSpan > 0.0
    decreases |ps|
  {
    if |ps| == 0 then []
    else SideUvs(ps[..|ps| - 1], radial, zMin, zSpan) + RingUvs(ps[|ps| - 1], radial, zMin, zSpan)
  }

  /** The two triangles of quad j between ring i and ring i+1:
      (a0, b0, a1) and (a1, b0, b1). */
  function Quad(i: nat, j: nat, ringVerts: nat): seq<int>
  {
    var a0 := i * ringVerts + j;
    var b0 := (i + 1) * ringVerts + j;
    [a0, b0, a0 + 1, a0 + 1, b0, b0 + 1]
  }

  /** The first m quads between ring i and ring i+1. */
  function Strip(i: nat, m: nat, ringVerts: nat): (s: seq<int>)
    ensures |s| == 6 * m
  {
    if m == 0 then [] else Strip(i, m - 1, ringVerts) + Quad(i, m - 1, ringVerts)
  }

  /** The side triangles of the first k ring gaps. */
  function Strips(k: nat, radial: nat): seq<int>
  {
    if k == 0 then [] else Strips(k - 1, radial) + Strip(k - 1, radial, radial + 1)
  }

  /** A cap is built only around a ring of radius above 1e-6. */
  predicate CapApplies(p: Point2)
  {
    RingRadius(p) > 0.000001
  }

  /** A cap's vertices: the centre on the axis, then a ring. */
  function CapVertices(p: Point2, radial: nat, cos: real -> real, sin: real -> real): (s: seq<Vector3>)
    requires radial > 0
    ensures |s| == if CapApplies(p) then radial + 2 else 0
  {
    if CapApplies(p) then [Vector3(0.0, 0.0, p.z)] + Ring(p, radial, cos, sin) else []
  }

  /** The polar UV of cap ring vertex j. */
  function CapUv(j: nat, radial: nat, cos: real -> real, sin: real -> real): Uv
    requires radial > 0
  {
    var theta := Theta(j, radial);
    Uv(0.5 + 0.5 * cos(theta), 0.5 + 0.5 * sin(theta))
  }

  function CapUvs(p: Point2, radial: nat, cos: real -> real, sin: real -> real): (s: seq<Uv>)
    requires radial > 0
    ensures |s| == if CapApplies(p) then radial + 2 else 0
  {
    if CapApplies(p) then
      [Uv(0.5, 0.5)] + seq(radial + 1, j requires 0 <= j <= radial => CapUv(j, radial, cos, sin))
    else []
  }

  /** Fan triangle j around the centre: (c, v1, v0) on the start cap, which
      faces -Z, and (c, v0, v1) on the end cap. */
  function FanTriangle(center: nat, j: nat, isStart: bool): seq<int>
  {
    var v0 := center + 1 + j;
    if isStart then [center, v0 + 1, v0] else [center, v0, v0 + 1]
  }

  function Fan(center: nat, m: nat, isStart: bool): (s: seq<int>)
    ensures |s| == 3 * m
  {
    if m == 0 then [] else Fan(center, m - 1, isStart) + FanTriangle(center, m - 1, isStart)
  }

  function CapTriangles(center: nat, p: Point2, radial: nat, isStart: bool): (s: seq<int>)
    ensures |s| == if CapApplies(p) then 3 * radial else 0
  {
    if CapApplies(p) then Fan(center, radial, isStart) else []
  }

  /** The vertices, UVs and triangles Build accumulates, before the caps. */
  function SideVertices(ps: seq<Point2>, settings: BuildSettings, cos: real -> real, sin: real -> real): seq<Vector3>
  {
    Rings(ps, Radial(settings), cos, sin)
  }

  function ZSpan(ps: seq<Point2>): (span: real)
    requires |ps| >= 1
    ensures span >= 0.000001
    ensures ps[|ps| - 1].z - ps[0].z >= 0.000001 ==> span == ps[|ps| - 1].z - ps[0].z
  {
    Mathf.Max(0.000001, ps[|ps| - 1].z - ps[0].z)
  }

  function StartCapVertices(ps: seq<Point2>, settings: BuildSettings, cos: real -> real, sin: real -> real): seq<Vector3>
    requires |ps| >= 1
  {
    if settings.capStart then CapVertices(ps[0], Radial(settings), cos, sin) else []
  }

  function EndCapVertices(ps: seq<Point2>, settings: BuildSettings, cos: real -> real, sin: real -> real): seq<Vector3>
    requires |ps| >= 1
  {
    if settings.capEnd then CapVertices(ps[|ps| - 1], Radial(settings), cos, sin) else []
  }

  /** The vertices of the requested caps, start cap first. */
  function CapsVertices(ps: seq<Point2>, settings: BuildSettings, cos: real -> real, sin: real -> real): seq<Vector3>
    requires |ps| >= 1
  {
    StartCapVertices(ps, settings, cos, sin) + EndCapVertices(ps, settings, cos, sin)
  }

  function StartCapTriangles(ps: seq<Point2>, settings: BuildSettings, center: nat): seq<int>
    requires |ps| >= 1
  {
    if settings.capStart then CapTriangles(center, ps[0], Radial(settings), true) else []
  }

  function EndCapTriangles(ps: seq<Point2>, settings: BuildSettings, center: nat): seq<int>
    requires |ps| >= 1
  {
    if settings.capEnd then CapTriangles(center, ps[|ps| - 1], Radial(settings), false) else []
  }

  function StartCapUvs(ps: seq<Point2>, settings: BuildSettings, cos: real -> real, sin: real -> real): seq<Uv>
    requires |ps| >= 1
  {
    if settings.capStart then CapUvs(ps[0], Radial(settings), cos, sin) else []
  }

  function EndCapUvs(ps: seq<Point2>, settings: BuildSettings, cos: real -> real, sin: real -> real): seq<Uv>
    requires |ps| >= 1
  {
    if settings.capEnd then CapUvs(ps[|ps| - 1], Radial(settings), cos, sin) else []
  }

  /** The fans of the requested caps when the first cap vertex lands at index
      first. */
  function CapsTriangles(ps: seq<Point2>, settings: BuildSettings, first: nat, cos: real -> real, sin: real -> real): seq<int>
    requires |ps| >= 1
  {
    StartCapTriangles(ps, settings, first)
    + EndCapTriangles(ps, settings, first + |StartCapVertices(ps, settings, cos, sin)|)
  }

  function CapsUvs(ps: seq<Point2>, settings: BuildSettings, cos: real -> real, sin: real -> real): seq<Uv>
    requires |ps| >= 1
  {
    StartCapUvs(ps, settings, cos, sin) + EndCapUvs(ps, settings, cos, sin)
  }

  function MeshVertices(ps: seq<Point2>, settings: BuildSettings, cos: real -> real, sin: real -> real): seq<Vector3>
    requires |ps| >= 1
  {
    Rings(ps, Radial(settings), cos, sin) + CapsVertices(ps, settings, cos, sin)
  }

  function MeshTriangles(ps: seq<Point2>, settings: BuildSettings, cos: real -> real, sin: real -> real): seq<int>
    requires |ps| >= 1
  {
    var radial := Radial(settings);
    Strips(|ps| - 1, radial) + CapsTriangles(ps, settings, |Rings(ps, radial, cos, sin)|, cos, sin)
  }

  function MeshUvs(ps: seq<Point2>, settings: BuildSettings, cos: real -> real, sin: real -> real): seq<Uv>
    requires |ps| >= 1
  {
    if settings.generateUVs then SideUvs(ps, Radial(settings), ps[0].z, ZSpan(ps)) + CapsUvs(ps, settings, cos, sin)
    else []
  }

  /** The mesh Build returns for a profile of at least two points. */
  function BuiltMesh(ps: seq<Point2>, settings: BuildSettings, cos: real -> real, sin: real -> real): Mesh
    requires |ps| >= 2
  {
    Mesh(MeshName, MeshVertices(ps, settings, cos, sin), MeshTriangles(ps, settings, cos, sin),
         MeshUvs(ps, settings, cos, sin), settings.generateNormals)
  }

  // ---------------------------------------------------------------------------
  // The lists Build fills

  /** The vertex, UV and index lists Build fills and AddCap appends to; the UV
      list exists only when UVs are generated. */
  class MeshLists {
    var vertices: seq<Vector3>
    var uvs: seq<Uv>
    const hasUvs: bool
    var triangles: seq<int>

    constructor (hasUvs: bool)
      ensures vertices == [] && uvs == [] && triangles == [] && this.hasUvs == hasUvs
    {
      vertices := [];
      uvs := [];
      this.hasUvs := hasUvs;
      triangles := [];
    }
  }

  /** The inner loop of the side surface: one ring of vertices (and UVs). */
  method AppendRing(lists: MeshLists, p: Point2, radial: nat, zMin: real, zSpan: real,
                    cos: real -> real, sin: real -> real)
    requires radial > 0 && zSpan > 0.0
    modifies lists
    ensures lists.vertices == old(lists.vertices) + Ring(p, radial, cos, sin)
    ensures lists.uvs == old(lists.uvs) + (if lists.hasUvs then RingUvs(p, radial, zMin, zSpan) else [])
    ensures lists.triangles == old(lists.triangles)
  {
    var z := p.z;
    var r := Mathf.Max(0.0, p.r);
    for j := 0 to radial + 1
      invariant lists.vertices == old(lists.vertices) + Ring(p, radial, cos, sin)[..j]
      invariant lists.uvs == old(lists.uvs) + (if lists.hasUvs then RingUvs(p, radial, zMin, zSpan)[..j] else [])
      invariant lists.triangles == old(lists.triangles)
    {
      var u := Fraction(j as real, radial as real);
      var theta := u * Mathf.PI * 2.0;
      var vertex := Vector3(r * cos(theta), r * sin(theta), z);
      assert vertex == Ring(p, radial, cos, sin)[j];
      lists.vertices := lists.vertices + [vertex];
      if lists.hasUvs {
        var v := (z - zMin) / zSpan;
        assert Uv(u, v) == RingUvs(p, radial, zMin, zSpan)[j];
        lists.uvs := lists.uvs + [Uv(u, v)];
        assert RingUvs(p, radial, zMin, zSpan)[..j + 1] == RingUvs(p, radial, zMin, zSpan)[..j] + [Uv(u, v)];
      }
      assert Ring(p, radial, cos, sin)[..j + 1] == Ring(p, radial, cos, sin)[..j] + [vertex];
    }
  }

  /** The inner loop of the side triangles: the quads between ring i and i+1. */
  method AppendStrip(lists: MeshLists, i: nat, radial: nat, ringVerts: nat)
    modifies lists
    ensures lists.triangles == old(lists.triangles) + Strip(i, radial, ringVerts)
    ensures lists.vertices == old(lists.vertices) && lists.uvs == old(lists.uvs)
  {
    var baseA := i * ringVerts;
    var baseB := (i + 1) * ringVerts;
    for j := 0 to radial
      invariant lists.triangles == old(lists.triangles) + Strip(i, j, ringVerts)
      invariant lists.vertices == old(lists.vertices) && lists.uvs == old(lists.uvs)
    {
      var a0 := baseA + j;
      var a1 := baseA + j + 1;
      var b0 := baseB + j;
      var b1 := baseB + j + 1;
      lists.triangles := lists.triangles + [a0, b0, a1] + [a1, b0, b1];
    }
  }

  /** The ring loop of AddCap: radial+1 vertices of radius r at z, with
      polar UVs when the UV list exists. */
  method AppendCapRing(lists: MeshLists, p: Point2, radial: nat, cos: real -> real, sin: real -> real)
    requires radial > 0
    modifies lists
    ensures lists.vertices == old(lists.vertices) + Ring(p, radial, cos, sin)
    ensures lists.uvs == old(lists.uvs) +
              (if lists.hasUvs then seq(radial + 1, j requires 0 <= j <= radial => CapUv(j, radial, cos, sin)) else [])
    ensures lists.triangles == old(lists.triangles)
  {
    var z := p.z;
    var r := Mathf.Max(0.0, p.r);
    ghost var capUvs := seq(radial + 1, j requires 0 <= j <= radial => CapUv(j, radial, cos, sin));
    for j := 0 to radial + 1
      invariant lists.vertices == old(lists.vertices) + Ring(p, radial, cos, sin)[..j]
      invariant lists.uvs == old(lists.uvs) + (if lists.hasUvs then capUvs[..j] else [])
      invariant lists.triangles == old(lists.triangles)
    {
      var u := Fraction(j as real, radial as real);
      var theta := u * Mathf.PI * 2.0;
      var vertex := Vector3(r * cos(theta), r * sin(theta), z);
      assert vertex == Ring(p, radial, cos, sin)[j];
      lists.vertices := lists.vertices + [vertex];
      if lists.hasUvs {
        var uv := Uv(0.5 + 0.5 * cos(theta), 0.5 + 0.5 * sin(theta));
        assert uv == capUvs[j];
        lists.uvs := lists.uvs + [uv];
        assert capUvs[..j + 1] == capUvs[..j] + [uv];
      }
      assert Ring(p, radial, cos, sin)[..j + 1] == Ring(p, radial, cos, sin)[..j] + [vertex];
    }
  }

  /** The fan loop of AddCap. */
  method AppendFan(lists: MeshLists, centerIndex: nat, radial: nat, isStart: bool)
    modifies lists
    ensures lists.triangles == old(lists.triangles) + Fan(centerIndex, radial, isStart)
    ensures lists.vertices == old(lists.vertices) && lists.uvs == old(lists.uvs)
  {
    var ringStartIndex := centerIndex + 1;
    for j := 0 to radial
      invariant lists.triangles == old(lists.triangles) + Fan(centerIndex, j, isStart)
      invariant lists.vertices == old(lists.vertices) && lists.uvs == old(lists.uvs)
    {
      var v0 := ringStartIndex + j;
      var v1 := ringStartIndex + j + 1;
      if isStart {
        lists.triangles := lists.triangles + [centerIndex, v1, v0];
      } else {
        lists.triangles := lists.triangles + [centerIndex, v0, v1];
      }
    }
  }

  /** AddCap: a fan at the first (isStart) or last profile point, or nothing
      when that ring's radius is at most 1e-6. */
  method AddCap(ps: seq<Point2>, isStart: bool, radial: nat, ringVerts: nat, lists: MeshLists,
                cos: real -> real, sin: real -> real)
    requires |ps| >= 1 && radial > 0 && ringVerts == radial + 1
    modifies lists
    ensures var p := if isStart then ps[0] else ps[|ps| - 1];
            && lists.vertices == old(lists.vertices) + CapVertices(p, radial, cos, sin)
            && lists.uvs == old(lists.uvs) + (if lists.hasUvs then CapUvs(p, radial, cos, sin) else [])
            && lists.triangles == old(lists.triangles) + CapTriangles(|old(lists.vertices)|, p, radial, isStart)
  {
    var ringIndex := if isStart then 0 else |ps| - 1;
    var p := ps[ringIndex];
    var z := p.z;
    var r := Mathf.Max(0.0, p.r);
    if r <= 0.000001 {
      return;
    }
    var centerIndex := |lists.vertices|;
    lists.vertices := lists.vertices + [Vector3(0.0, 0.0, z)];
    if lists.hasUvs {
      lists.uvs := lists.uvs + [Uv(0.5, 0.5)];
    }
    AppendCapRing(lists, p, radial, cos, sin);
    AppendFan(lists, centerIndex, radial, isStart);
  }

  /** The side surface: every ring in profile order. */
  method AppendRings(lists: MeshLists, ps: seq<Point2>, radial: nat, zMin: real, zSpan: real,
                     cos: real -> real, sin: real -> real)
    requires radial > 0 && zSpan > 0.0
    requires lists.vertices == [] && lists.uvs == [] && lists.triangles == []
    modifies lists
    ensures lists.vertices == Rings(ps, radial, cos, sin)
    ensures lists.uvs == if lists.hasUvs then SideUvs(ps, radial, zMin, zSpan) else []
    ensures lists.triangles == []
  {
    for i := 0 to |ps|
      invariant lists.vertices == Rings(ps[..i], radial, cos, sin)
      invariant lists.uvs == if lists.hasUvs then SideUvs(ps[..i], radial, zMin, zSpan) else []
      invariant lists.triangles == []
    {
      AppendRing(lists, ps[i], radial, zMin, zSpan, cos, sin);
      assert ps[..i + 1][..i] == ps[..i];
    }
    assert ps[..|ps|] == ps;
  }

  /** The side triangles: every gap between consecutive rings. */
  method AppendStrips(lists: MeshLists, rings: nat, radial: nat)
    requires rings >= 1 && lists.triangles == []
    modifies lists
    ensures lists.triangles == Strips(rings - 1, radial)
    ensures lists.vertices == old(lists.vertices) && lists.uvs == old(lists.uvs)
  {
    for i := 0 to rings - 1
      invariant lists.triangles == Strips(i, radial)
      invariant lists.vertices == old(lists.vertices) && lists.uvs == old(lists.uvs)
    {
      AppendStrip(lists, i, radial, radial + 1);
    }
  }

  /** The capStart block of Build. */
  method AddStartCap(ps: seq<Point2>, settings: BuildSettings, radial: nat, ringVerts: nat, lists: MeshLists,
                     cos: real -> real, sin: real -> real)
    requires |ps| >= 1 && radial == Radial(settings) && ringVerts == radial + 1
    modifies lists
    ensures lists.vertices == old(lists.vertices) + StartCapVertices(ps, settings, cos, sin)
    ensures lists.triangles == old(lists.triangles) + StartCapTriangles(ps, settings, |old(lists.vertices)|)
    ensures lists.uvs == old(lists.uvs) + (if lists.hasUvs then StartCapUvs(ps, settings, cos, sin) else [])
  {
    if settings.capStart {
      AddCap(ps, true, radial, ringVerts, lists, cos, sin);
    } else {
      assert lists.vertices + [] == lists.vertices && lists.triangles + [] == lists.triangles;
      assert lists.uvs + [] == lists.uvs;
    }
  }

  /** The capEnd block of Build. */
  method AddEndCap(ps: seq<Point2>, settings: BuildSettings, radial: nat, ringVerts: nat, lists: MeshLists,
                   cos: real -> real, sin: real -> real)
    requires |ps| >= 1 && radial == Radial(settings) && ringVerts == radial + 1
    modifies lists
    ensures lists.vertices == old(lists.vertices) + EndCapVertices(ps, settings, cos, sin)
    ensures lists.triangles == old(lists.triangles) + EndCapTriangles(ps, settings, |old(lists.vertices)|)
    ensures lists.uvs == old(lists.uvs) + (if lists.hasUvs then EndCapUvs(ps, settings, cos, sin) else [])
  {
    if settings.capEnd {
      AddCap(ps, false, radial, ringVerts, lists, cos, sin);
    } else {
      assert lists.vertices + [] == lists.vertices && lists.triangles + [] == lists.triangles;
      assert lists.uvs + [] == lists.uvs;
    }
  }

  /** The two cap blocks of Build. */
  method AddCaps(ps: seq<Point2>, settings: BuildSettings, radial: nat, ringVerts: nat, lists: MeshLists,
                 cos: real -> real, sin: real -> real)
    requires |ps| >= 1 && radial == Radial(settings) && ringVerts == radial + 1
    modifies lists
    ensures lists.vertices == old(lists.vertices) + CapsVertices(ps, settings, cos, sin)
    ensures lists.triangles == old(lists.triangles) + CapsTriangles(ps, settings, |old(lists.vertices)|, cos, sin)
    ensures lists.uvs == old(lists.uvs) + (if lists.hasUvs then CapsUvs(ps, settings, cos, sin) else [])
  {
    ghost var side, sideT, sideU := lists.vertices, lists.triangles, lists.uvs;
    ghost var startV := StartCapVertices(ps, settings, cos, sin);
    ghost var startT := StartCapTriangles(ps, settings, |side|);
    ghost var startU := if lists.hasUvs then StartCapUvs(ps, settings, cos, sin) else [];
    ghost var endV := EndCapVertices(ps, settings, cos, sin);
    ghost var endT := EndCapTriangles(ps, settings, |side| + |startV|);
    ghost var endU := if lists.hasUvs then EndCapUvs(ps, settings, cos, sin) else [];
    AddStartCap(ps, settings, radial, ringVerts, lists, cos, sin);
    assert lists.vertices == side + startV && |lists.vertices| == |side| + |startV|;
    assert lists.triangles == sideT + startT && lists.uvs == sideU + startU;
    AddEndCap(ps, settings, radial, ringVerts, lists, cos, sin);
    assert lists.vertices == side + startV + endV && lists.triangles == sideT + startT + endT;
    assert lists.uvs == sideU + startU + endU;
    assert lists.vertices == side + (startV + endV) by { AppendAssoc(side, startV, endV); }
    assert lists.triangles == sideT + (startT + endT) by { AppendAssoc(sideT, startT, endT); }
    assert lists.uvs == sideU + (startU + endU) by { AppendAssoc(sideU, startU, endU); }
  }

  lemma AppendAssoc<T>(a: seq<T>, b: seq<T>, c: seq<T>)
    ensures a + b + c == a + (b + c)
  {}

  /** Build: a null profile and one of fewer than two points are rejected;
      otherwise side rings, side triangles, then the requested caps. */
  method Build(profile: Option<seq<Point2>>, settings: BuildSettings, cos: real -> real, sin: real -> real)
    returns (r: Result<Mesh>)
    ensures profile.None? ==> r == Failure(ArgumentNull)
    ensures profile.Some? && |profile.value| < 2 ==> r == Failure(Argument)
    ensures profile.Some? && |profile.value| >= 2 ==> r == Success(BuiltMesh(profile.value, settings, cos, sin))
  {
    if profile.None? {
      return Failure(ArgumentNull);
    }
    var ps := profile.value;
    if |ps| < 2 {
      return Failure(Argument);
    }
    var radial := Mathf.MaxInt(3, settings.radialSegments);
    var rings := |ps|;
    var ringVerts := radial + 1;
    var lists := new MeshLists(settings.generateUVs);

    var zMin := ps[0].z;
    var zMax := ps[rings - 1].z;
    var zSpan := Mathf.Max(0.000001, zMax - zMin);

    AppendRings(lists, ps, radial, zMin, zSpan, cos, sin);
    AppendStrips(lists, rings, radial);
    AddCaps(ps, settings, radial, ringVerts, lists, cos, sin);
    assert lists.vertices == MeshVertices(ps, settings, cos, sin);
    assert lists.triangles == MeshTriangles(ps, settings, cos, sin);
    var uvs := if settings.generateUVs then lists.uvs else [];
    assert uvs == MeshUvs(ps, settings, cos, sin);
    r := Success(Mesh(MeshName, lists.vertices, lists.triangles, uvs, settings.generateNormals));
  }

  // ---------------------------------------------------------------------------
  // Properties of the mesh

  /** rings * (radial + 1) side vertices. */
  lemma {:induction false} RingsLength(ps: seq<Point2>, radial: nat, cos: real -> real, sin: real -> real)
    requires radial > 0
    ensures |Rings(ps, radial, cos, sin)| == |ps| * (radial + 1)
    decreases |ps|
  {
    if |ps| > 0 {
      var n := |ps| - 1;
      RingsLength(ps[..n], radial, cos, sin);
      assert n * (radial + 1) + (radial + 1) == |ps| * (radial + 1);
    }
  }

  /** One side UV per side vertex. */
  lemma {:induction false} SideUvsLength(ps: seq<Point2>, radial: nat, zMin: real, zSpan: real)
    requires radial > 0 && zSpan > 0.0
    ensures |SideUvs(ps, radial, zMin, zSpan)| == |ps| * (radial + 1)
    decreases |ps|
  {
    if |ps| > 0 {
      var n := |ps| - 1;
      SideUvsLength(ps[..n], radial, zMin, zSpan);
      assert n * (radial + 1) + (radial + 1) == |ps| * (radial + 1);
    }
  }

  /** (rings - 1) * radial quads of six indices. */
  lemma {:induction false} StripsLength(k: nat, radial: nat)
    ensures |Strips(k, radial)| == 6 * (k * radial)
  {
    if k > 0 {
      StripsLength(k - 1, radial);
      assert (k - 1) * radial + radial == k * radial;
    }
  }

  lemma MulStep(i: nat, n: nat, rv: nat)
    requires i < n
    ensures i * rv + rv <= n * rv
  {
    var d := n - i - 1;
    assert n * rv == i * rv + rv + d * rv by {
      assert n == i + 1 + d;
    }
    assert d * rv >= 0;
  }

  /** Ring i, step j sits at index i * (radial + 1) + j of the side vertices. */
  lemma {:induction false} SideVertexAt(ps: seq<Point2>, radial: nat, cos: real -> real, sin: real -> real, i: nat, j: nat)
    requires radial > 0 && i < |ps| && j <= radial
    ensures i * (radial + 1) + j < |Rings(ps, radial, cos, sin)|
    ensures Rings(ps, radial, cos, sin)[i * (radial + 1) + j] == RingVertex(ps[i], j, radial, cos, sin)
    decreases |ps|
  {
    var n := |ps| - 1;
    RingsLength(ps, radial, cos, sin);
    RingsLength(ps[..n], radial, cos, sin);
    MulStep(i, |ps|, radial + 1);
    if i < n {
      MulStep(i, n, radial + 1);
      SideVertexAt(ps[..n], radial, cos, sin, i, j);
      assert ps[..n][i] == ps[i];
    }
  }

  /** The UV of ring i, step j sits at the same index as its vertex. */
  lemma {:induction false} SideUvAt(ps: seq<Point2>, radial: nat, zMin: real, zSpan: real, i: nat, j: nat)
    requires radial > 0 && zSpan > 0.0 && i < |ps| && j <= radial
    ensures i * (radial + 1) + j < |SideUvs(ps, radial, zMin, zSpan)|
    ensures SideUvs(ps, radial, zMin, zSpan)[i * (radial + 1) + j] == SideUv(ps[i], j, radial, zMin, zSpan)
    decreases |ps|
  {
    var n := |ps| - 1;
    SideUvsLength(ps, radial, zMin, zSpan);
    SideUvsLength(ps[..n], radial, zMin, zSpan);
    MulStep(i, |ps|, radial + 1);
    if i < n {
      MulStep(i, n, radial + 1);
      SideUvAt(ps[..n], radial, zMin, zSpan, i, j);
      assert ps[..n][i] == ps[i];
    }
  }

  /** Quad j of a strip occupies the six indices from 6j. */
  lemma {:induction false} StripAt(i: nat, m: nat, ringVerts: nat, j: nat)
    requires j < m
    ensures Strip(i, m, ringVerts)[6 * j .. 6 * j + 6] == Quad(i, j, ringVerts)
  {
    if j < m - 1 {
      StripAt(i, m - 1, ringVerts, j);
      SliceLeft(Strip(i, m - 1, ringVerts), Quad(i, m - 1, ringVerts), 6 * j, 6 * j + 6);
    } else {
      SliceRight(Strip(i, m - 1, ringVerts), Quad(i, m - 1, ringVerts), 0, 6);
    }
  }

  lemma SliceLeft<T>(a: seq<T>, b: seq<T>, x: nat, y: nat)
    requires x <= y <= |a|
    ensures (a + b)[x .. y] == a[x .. y]
  {}

  lemma SliceRight<T>(a: seq<T>, b: seq<T>, x: nat, y: nat)
    requires x <= y <= |b|
    ensures (a + b)[|a| + x .. |a| + y] == b[x .. y]
  {}

  /** The triangles of the first i gaps are a prefix of those of the first k. */
  lemma {:induction false} StripsPrefix(i: nat, k: nat, radial: nat)
    requires i <= k
    ensures Strips(i, radial) <= Strips(k, radial)
  {
    if i < k {
      StripsPrefix(i, k - 1, radial);
    }
  }

  /** The side triangles: quad j between ring i and ring i+1 is the pair
      (a0, b0, a1), (a1, b0, b1) at index 6 * (i * radial + j). */
  lemma SideQuadAt(k: nat, radial: nat, i: nat, j: nat)
    requires i < k && j < radial
    ensures 6 * (i * radial + j) + 6 <= |Strips(k, radial)|
    ensures Strips(k, radial)[6 * (i * radial + j) .. 6 * (i * radial + j) + 6] == Quad(i, j, radial + 1)
  {
    var pre := Strips(i, radial);
    var strip := Strip(i, radial, radial + 1);
    var lo := 6 * (i * radial + j);
    assert Strips(i + 1, radial) == pre + strip;
    assert lo == |pre| + 6 * j by {
      StripsLength(i, radial);
    }
    assert (pre + strip)[lo .. lo + 6] == Quad(i, j, radial + 1) by {
      StripAt(i, radial, radial + 1, j);
      SliceRight(pre, strip, 6 * j, 6 * j + 6);
    }
    StripsPrefix(i + 1, k, radial);
  }

  /** Every index of the quads between ring i and ring i+1 lies on those two rings. */
  lemma {:induction false} StripBounds(i: nat, m: nat, ringVerts: nat)
    requires m < ringVerts
    ensures forall x :: x in Strip(i, m, ringVerts) ==> i * ringVerts <= x < (i + 2) * ringVerts
  {
    assert (i + 1) * ringVerts == i * ringVerts + ringVerts;
    assert (i + 2) * ringVerts == i * ringVerts + 2 * ringVerts;
    if m > 0 {
      StripBounds(i, m - 1, ringVerts);
    }
  }

  /** The side triangles of k gaps index only the first k + 1 rings. */
  lemma {:induction false} StripsBounds(k: nat, radial: nat)
    ensures forall x :: x in Strips(k, radial) ==> 0 <= x < (k + 1) * (radial + 1)
  {
    if k > 0 {
      StripsBounds(k - 1, radial);
      StripBounds(k - 1, radial, radial + 1);
      assert (k + 1) * (radial + 1) == k * (radial + 1) + (radial + 1);
    }
  }

  /** A fan of m triangles around centre c indexes c .. c + m + 1. */
  lemma {:induction false} FanBounds(c: nat, m: nat, isStart: bool)
    ensures forall x :: x in Fan(c, m, isStart) ==> c <= x <= c + m + 1
  {
    if m > 0 {
      FanBounds(c, m - 1, isStart);
    }
  }

  /** Fan triangle j occupies the three indices from 3j. */
  lemma {:induction false} FanAt(c: nat, m: nat, isStart: bool, j: nat)
    requires j < m
    ensures Fan(c, m, isStart)[3 * j .. 3 * j + 3] == FanTriangle(c, j, isStart)
  {
    if j < m - 1 {
      FanAt(c, m - 1, isStart, j);
      SliceLeft(Fan(c, m - 1, isStart), FanTriangle(c, m - 1, isStart), 3 * j, 3 * j + 3);
    } else {
      SliceRight(Fan(c, m - 1, isStart), FanTriangle(c, m - 1, isStart), 0, 3);
    }
  }

  /** The start cap winds each fan triangle (centre, v1, v0) and the end cap
      (centre, v0, v1): the same triangles in opposite orientation. */
  lemma CapWinding(c: nat, radial: nat, j: nat)
    requires j < radial
    ensures Fan(c, radial, true)[3 * j .. 3 * j + 3] == [c, c + 2 + j, c + 1 + j]
    ensures Fan(c, radial, false)[3 * j .. 3 * j + 3] == [c, c + 1 + j, c + 2 + j]
  {
    FanAt(c, radial, true, j);
    FanAt(c, radial, false, j);
  }

  /** The buffer sizes: rings * (radial + 1) side vertices, (rings - 1) *
      radial * 2 side triangles, and per applied cap radial + 2 vertices and
      radial triangles; with UVs on, one UV per vertex. */
  lemma MeshCounts(ps: seq<Point2>, settings: BuildSettings, cos: real -> real, sin: real -> real)
    requires |ps| >= 2
    ensures var m := Mesh(MeshName, MeshVertices(ps, settings, cos, sin), MeshTriangles(ps, settings, cos, sin),
                          MeshUvs(ps, settings, cos, sin), settings.generateNormals);
            var radial := Radial(settings);
            var startCap := settings.capStart && CapApplies(ps[0]);
            var endCap := settings.capEnd && CapApplies(ps[|ps| - 1]);
            && m.name == "RevolvedMesh_V0"
            && m.normalsRecalculated == settings.generateNormals
            && |m.vertices| == |ps| * (radial + 1) + (if startCap then radial + 2 else 0) + (if endCap then radial + 2 else 0)
            && |m.triangles| == 6 * ((|ps| - 1) * radial) + (if startCap then 3 * radial else 0) + (if endCap then 3 * radial else 0)
            && (settings.generateUVs ==> |m.uvs| == |m.vertices|)
            && (!settings.generateUVs ==> m.uvs == [])
  {
    var radial := Radial(settings);
    RingsLength(ps, radial, cos, sin);
    StripsLength(|ps| - 1, radial);
    SideUvsLength(ps, radial, ps[0].z, ZSpan(ps));
  }

  /** The side triangles of k = rings - 1 gaps index only side vertices. */
  lemma SideIndicesInRange(ps: seq<Point2>, k: nat, radial: nat, cos: real -> real, sin: real -> real)
    requires k == |ps| - 1 && radial > 0
    ensures forall x :: x in Strips(k, radial) ==> 0 <= x < |Rings(ps, radial, cos, sin)|
  {
    StripsBounds(k, radial);
    RingsLength(ps, radial, cos, sin);
  }

  /** A cap fan indexes only its own centre and ring. */
  lemma CapIndicesInRange(center: nat, p: Point2, radial: nat, isStart: bool, cos: real -> real, sin: real -> real)
    requires radial > 0
    ensures forall x :: x in CapTriangles(center, p, radial, isStart) ==>
              center <= x < center + |CapVertices(p, radial, cos, sin)|
  {
    if CapApplies(p) {
      FanBounds(center, radial, isStart);
    }
  }

  /** The requested caps, placed from vertex `first`, index only their own vertices. */
  lemma CapsIndicesInRange(ps: seq<Point2>, settings: BuildSettings, first: nat, cos: real -> real, sin: real -> real)
    requires |ps| >= 1
    ensures forall x :: x in CapsTriangles(ps, settings, first, cos, sin) ==>
              first <= x < first + |CapsVertices(ps, settings, cos, sin)|
  {
    var radial := Radial(settings);
    var startLen := |StartCapVertices(ps, settings, cos, sin)|;
    var endLen := |EndCapVertices(ps, settings, cos, sin)|;
    assert forall x :: x in StartCapTriangles(ps, settings, first) ==> first <= x < first + startLen by {
      if settings.capStart {
        CapIndicesInRange(first, ps[0], radial, true, cos, sin);
      }
    }
    var second := first + startLen;
    assert forall x :: x in EndCapTriangles(ps, settings, second) ==> second <= x < second + endLen by {
      if settings.capEnd {
        CapIndicesInRange(second, ps[|ps| - 1], radial, false, cos, sin);
      }
    }
  }

  /** Every triangle index names a vertex of the mesh. */
  lemma IndicesInRange(ps: seq<Point2>, settings: BuildSettings, cos: real -> real, sin: real -> real)
    requires |ps| >= 2
    ensures forall x :: x in MeshTriangles(ps, settings, cos, sin) ==> 0 <= x < |MeshVertices(ps, settings, cos, sin)|
  {
    var radial := Radial(settings);
    var sideLen := |Rings(ps, radial, cos, sin)|;
    var n := |MeshVertices(ps, settings, cos, sin)|;
    assert n == sideLen + |CapsVertices(ps, settings, cos, sin)|;
    var side := Strips(|ps| - 1, radial);
    var caps := CapsTriangles(ps, settings, sideLen, cos, sin);
    assert MeshTriangles(ps, settings, cos, sin) == side + caps;
    assert forall x :: x in side ==> 0 <= x < n by {
      SideIndicesInRange(ps, |ps| - 1, radial, cos, sin);
    }
    assert forall x :: x in caps ==> 0 <= x < n by {
      CapsIndicesInRange(ps, settings, sideLen, cos, sin);
    }
  }

  /** With the profile's z between its first and last point, every side UV
      lies in the unit square; so does every cap UV when cos and sin stay in
      [-1, 1]. */
  lemma UvsInUnitSquare(ps: seq<Point2>, settings: BuildSettings, cos: real -> real, sin: real -> real)
    requires |ps| >= 2
    requires forall i :: 0 <= i < |ps| ==> ps[0].z <= ps[i].z <= ps[|ps| - 1].z
    requires forall t :: -1.0 <= cos(t) <= 1.0 && -1.0 <= sin(t) <= 1.0
    ensures forall uv :: uv in MeshUvs(ps, settings, cos, sin) ==> 0.0 <= uv.u <= 1.0 && 0.0 <= uv.v <= 1.0
  {
    var radial := Radial(settings);
    var zMin, zSpan := ps[0].z, ZSpan(ps);
    SideUvsInUnitSquare(ps, radial, zMin, zSpan, ps[|ps| - 1].z);
  }

  lemma {:induction false} SideUvsInUnitSquare(ps: seq<Point2>, radial: nat, zMin: real, zSpan: real, zMax: real)
    requires radial > 0 && zSpan > 0.0 && zMax - zMin <= zSpan
    requires forall i :: 0 <= i < |ps| ==> zMin <= ps[i].z <= zMax
    ensures forall uv :: uv in SideUvs(ps, radial, zMin, zSpan) ==> 0.0 <= uv.u <= 1.0 && 0.0 <= uv.v <= 1.0
    decreases |ps|
  {
    if |ps| > 0 {
      SideUvsInUnitSquare(ps[..|ps| - 1], radial, zMin, zSpan, zMax);
    }
  }

  /** A profile point of radius <= 0 revolves to the axis: every ring vertex
      is (0, 0, z), and no cap is built around it. */
  lemma NegativeRadiusOnAxis(p: Point2, radial: nat, cos: real -> real, sin: real -> real)
    requires radial > 0 && p.r <= 0.0
    ensures forall j :: 0 <= j <= radial ==> Ring(p, radial, cos, sin)[j] == Vector3(0.0, 0.0, p.z)
    ensures !CapApplies(p) && CapVertices(p, radial, cos, sin) == []
  {}
}
