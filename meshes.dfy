/**
 * Mesh loading: flattening an imported scene into one ModelData record
 * (load_mesh in main.cpp). The importer is foreign; its result is modelled
 * as an optional sequence of meshes, None standing for a failed import.
 */
module Meshes {
  import opened Wrappers
  import opened Maths

  /** The per-vertex attribute streams an imported mesh may carry. */
  datatype Attribute = Position | Normal | TexCoord

  /**
   * One mesh as the importer hands it over: a vertex count and, for each
   * attribute, either no array (a null pointer) or an array of 3-vectors.
   * Texture coordinates are those of channel 0, still 3-component.
   */
  datatype ImportedMesh = ImportedMesh(
    numVertices: nat,
    positions: Option<seq<Vec3>>,
    normals: Option<seq<Vec3>>,
    texCoords: Option<seq<Vec3>>)

  function Channel(m: ImportedMesh, a: Attribute): Option<seq<Vec3>> {
    match a
    case Position => m.positions
    case Normal => m.normals
    case TexCoord => m.texCoords
  }

  /** The importer's guarantee: every array present holds one entry per vertex. */
  predicate WellFormed(m: ImportedMesh) {
    && (m.positions.Some? ==> |m.positions.value| == m.numVertices)
    && (m.normals.Some? ==> |m.normals.value| == m.numVertices)
    && (m.texCoords.Some? ==> |m.texCoords.value| == m.numVertices)
  }

  predicate AllWellFormed(ms: seq<ImportedMesh>) {
    forall i :: 0 <= i < |ms| ==> WellFormed(ms[i])
  }

  /** The flattened record: a point count and three attribute streams. */
  datatype ModelData = ModelData(
    pointCount: nat,
    vertices: seq<Vec3>,
    normals: seq<Vec3>,
    textureCoords: seq<Vec2>)

  /** A default-constructed record, which is also what a failed import returns. */
  const EMPTY_MODEL: ModelData := ModelData(0, [], [], [])

  /** Number of vertices in the first n meshes. */
  function PointCount(ms: seq<ImportedMesh>, n: nat): nat
    requires n <= |ms|
  {
    if n == 0 then 0 else PointCount(ms, n - 1) + ms[n - 1].numVertices
  }

  /** The entries a mesh contributes to stream a: its array, or nothing if absent. */
  function Contribution(m: ImportedMesh, a: Attribute): seq<Vec3> {
    match Channel(m, a)
    case Some(xs) => xs
    case None => []
  }

  /** Stream a of the first n meshes: mesh order, then vertex order. */
  function Flat(ms: seq<ImportedMesh>, n: nat, a: Attribute): seq<Vec3>
    requires n <= |ms|
  {
    if n == 0 then [] else Flat(ms, n - 1, a) + Contribution(ms[n - 1], a)
  }

  /** A texture coordinate keeps the first two components. */
  function ToVec2(v: Vec3): Vec2 {
    Vec2(v.x, v.y)
  }

  function ToVec2s(vs: seq<Vec3>): (r: seq<Vec2>)
    ensures |r| == |vs|
  {
    if vs == [] then [] else ToVec2s(vs[..|vs| - 1]) + [ToVec2(vs[|vs| - 1])]
  }

  /** The first v entries of an optional attribute array; nothing if it is absent. */
  function Take(arr: Option<seq<Vec3>>, v: nat): seq<Vec3>
    requires arr.Some? ==> v <= |arr.value|
  {
    if arr.Some? then arr.value[..v] else []
  }

  lemma TakeStep(arr: Option<seq<Vec3>>, v: nat)
    requires arr.Some? ==> v < |arr.value|
    ensures arr.Some? ==> Take(arr, v + 1) == Take(arr, v) + [arr.value[v]]
    ensures arr.None? ==> Take(arr, v + 1) == Take(arr, v)
  {
    if arr.Some? {
      assert arr.value[..v + 1] == arr.value[..v] + [arr.value[v]];
    }
  }

  lemma TakeWhole(m: ImportedMesh, a: Attribute)
    requires WellFormed(m)
    ensures Take(Channel(m, a), m.numVertices) == Contribution(m, a)
  {
    if Channel(m, a).Some? {
      assert Channel(m, a).value[..m.numVertices] == Channel(m, a).value;
    }
  }

  /**
   * load_mesh: a failed import yields the empty record; otherwise the point
   * count is summed over the meshes and each present attribute array is
   * appended vertex by vertex, mesh by mesh.
   */
  method LoadMesh(scene: Option<seq<ImportedMesh>>) returns (md: ModelData)
    requires scene.Some? ==> AllWellFormed(scene.value)
    ensures scene.None? ==> md == EMPTY_MODEL
    ensures scene.Some? ==>
      && md.pointCount == PointCount(scene.value, |scene.value|)
      && md.vertices == Flat(scene.value, |scene.value|, Position)
      && md.normals == Flat(scene.value, |scene.value|, Normal)
      && md.textureCoords == ToVec2s(Flat(scene.value, |scene.value|, TexCoord))
  {
    md := EMPTY_MODEL;
    if scene.None? {
      return;
    }
    var ms := scene.value;
    ghost var rawTex: seq<Vec3> := [];
    var i := 0;
    while i < |ms|
      invariant 0 <= i <= |ms|
      invariant md.pointCount == PointCount(ms, i)
      invariant md.vertices == Flat(ms, i, Position)
      invariant md.normals == Flat(ms, i, Normal)
      invariant rawTex == Flat(ms, i, TexCoord) && md.textureCoords == ToVec2s(rawTex)
    {
      var mesh := ms[i];
      assert WellFormed(mesh);
      md := md.(pointCount := md.pointCount + mesh.numVertices);
      md := AppendVertices(md, mesh, rawTex);
      rawTex := rawTex + Contribution(mesh, TexCoord);
      i := i + 1;
    }
  }

  /**
   * The inner loop of load_mesh: for each vertex of one mesh, append its
   * position, normal and texture coordinate, each only if the mesh has that
   * array. `rawTex` is the 3-component texture stream appended so far.
   */
  method AppendVertices(md: ModelData, mesh: ImportedMesh, ghost rawTex: seq<Vec3>)
    returns (md': ModelData)
    requires WellFormed(mesh) && md.textureCoords == ToVec2s(rawTex)
    ensures md'.pointCount == md.pointCount
    ensures md'.vertices == md.vertices + Contribution(mesh, Position)
    ensures md'.normals == md.normals + Contribution(mesh, Normal)
    ensures md'.textureCoords == ToVec2s(rawTex + Contribution(mesh, TexCoord))
  {
    md' := md;
    var v := 0;
    assert rawTex + Take(mesh.texCoords, 0) == rawTex;
    while v < mesh.numVertices
      invariant 0 <= v <= mesh.numVertices
      invariant md'.pointCount == md.pointCount
      invariant md'.vertices == md.vertices + Take(mesh.positions, v)
      invariant md'.normals == md.normals + Take(mesh.normals, v)
      invariant md'.textureCoords == ToVec2s(rawTex + Take(mesh.texCoords, v))
    {
      StreamStep(md'.vertices, md.vertices, mesh.positions, v);
      StreamStep(md'.normals, md.normals, mesh.normals, v);
      TexStep(md'.textureCoords, rawTex, mesh.texCoords, v);
      if mesh.positions.Some? {
        md' := md'.(vertices := md'.vertices + [mesh.positions.value[v]]);
      }
      if mesh.normals.Some? {
        md' := md'.(normals := md'.normals + [mesh.normals.value[v]]);
      }
      if mesh.texCoords.Some? {
        var vt := mesh.texCoords.value[v];
        md' := md'.(textureCoords := md'.textureCoords + [Vec2(vt.x, vt.y)]);
      }
      v := v + 1;
    }
    TakeWhole(mesh, Position);
    TakeWhole(mesh, Normal);
    TakeWhole(mesh, TexCoord);
  }

  /** One step of the inner loop on a 3-component stream. */
  lemma StreamStep(acc: seq<Vec3>, base: seq<Vec3>, arr: Option<seq<Vec3>>, v: nat)
    requires arr.Some? ==> v < |arr.value|
    requires acc == base + Take(arr, v)
    ensures arr.Some? ==> acc + [arr.value[v]] == base + Take(arr, v + 1)
    ensures arr.None? ==> acc == base + Take(arr, v + 1)
  {
    TakeStep(arr, v);
  }

  /** One step of the inner loop on the texture stream, which keeps two components. */
  lemma TexStep(acc: seq<Vec2>, rawTex: seq<Vec3>, arr: Option<seq<Vec3>>, v: nat)
    requires arr.Some? ==> v < |arr.value|
    requires acc == ToVec2s(rawTex + Take(arr, v))
    ensures arr.Some? ==> acc + [ToVec2(arr.value[v])] == ToVec2s(rawTex + Take(arr, v + 1))
    ensures arr.None? ==> acc == ToVec2s(rawTex + Take(arr, v + 1))
  {
    TakeStep(arr, v);
    if arr.Some? {
      ToVec2sSnoc(rawTex + Take(arr, v), arr.value[v]);
      assert rawTex + Take(arr, v + 1) == (rawTex + Take(arr, v)) + [arr.value[v]];
    }
  }

  lemma ToVec2sSnoc(xs: seq<Vec3>, v: Vec3)
    ensures ToVec2s(xs + [v]) == ToVec2s(xs) + [ToVec2(v)]
  {
    assert (xs + [v])[..|xs|] == xs;
  }

  /** A mesh that has stream a and at least one vertex. */
  predicate Has(m: ImportedMesh, a: Attribute) {
    m.numVertices > 0 ==> Channel(m, a).Some?
  }

  /**
   * A stream never holds more entries than the point count, and holds
   * exactly as many if and only if every mesh with vertices has that array.
   */
  lemma {:induction false} StreamLength(ms: seq<ImportedMesh>, n: nat, a: Attribute)
    requires AllWellFormed(ms) && n <= |ms|
    ensures |Flat(ms, n, a)| <= PointCount(ms, n)
    ensures |Flat(ms, n, a)| == PointCount(ms, n) <==> forall i :: 0 <= i < n ==> Has(ms[i], a)
  {
    if n > 0 {
      StreamLength(ms, n - 1, a);
      assert WellFormed(ms[n - 1]);
      var c := Contribution(ms[n - 1], a);
      assert |c| == if Channel(ms[n - 1], a).Some? then ms[n - 1].numVertices else 0;
      if |Flat(ms, n, a)| == PointCount(ms, n) {
        forall i | 0 <= i < n ensures Has(ms[i], a) {
        }
      }
    }
  }

  /**
   * When every mesh has positions and normals, the loaded record holds
   * exactly one position and one normal per point.
   */
  lemma PositionsAndNormalsAligned(ms: seq<ImportedMesh>)
    requires AllWellFormed(ms)
    requires forall i :: 0 <= i < |ms| ==> Has(ms[i], Position) && Has(ms[i], Normal)
    ensures |Flat(ms, |ms|, Position)| == |Flat(ms, |ms|, Normal)| == PointCount(ms, |ms|)
  {
    StreamLength(ms, |ms|, Position);
    StreamLength(ms, |ms|, Normal);
  }

  /**
   * Mesh order, then vertex order: when every mesh has stream a, vertex k of
   * mesh i sits at offset (vertices of the meshes before i) + k.
   */
  lemma {:induction false} FlatAt(ms: seq<ImportedMesh>, n: nat, a: Attribute, i: nat, k: nat)
    requires AllWellFormed(ms) && n <= |ms|
    requires forall j :: 0 <= j < n ==> Channel(ms[j], a).Some?
    requires i < n && k < ms[i].numVertices
    ensures PointCount(ms, i) + k < |Flat(ms, n, a)|
    ensures Flat(ms, n, a)[PointCount(ms, i) + k] == Channel(ms[i], a).value[k]
  {
    StreamLength(ms, n - 1, a);
    assert WellFormed(ms[n - 1]);
    if i < n - 1 {
      FlatAt(ms, n - 1, a, i, k);
    } else {
      assert |Flat(ms, n - 1, a)| == PointCount(ms, i);
    }
  }
}
