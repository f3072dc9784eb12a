/**
 * The vertex plumbing of src/scene_loader.rs: index-driven extraction of
 * per-vertex attributes from an imported mesh, the concatenation over the
 * triangle faces of the meshes a node uses, the material ranges (one per
 * mesh, contiguous in the vertex stream), the length normalisation and the
 * zip into full vertices.
 *
 * The vertex counter of `load_data` is a `u32`; it is modelled with
 * wrap-around (`% U32_LIMIT`), and `CountAfterExact` states that it is the
 * exact count whenever that fits.
 */
module SceneData {
  import opened Primitives
  import opened LinearAlgebra
  import opened Meshes

  /** An imported mesh (assimp's `Mesh`): attribute arrays, texture channels, faces as index lists. */
  datatype AiMesh = AiMesh(
    vertices: seq<Vec3>,
    normals: seq<Vec3>,
    tangents: seq<Vec3>,
    bitangents: seq<Vec3>,
    textureCoords: seq<Option3>,
    faces: seq<seq<u32>>,
    materialIndex: u32)

  /** One optional texture-coordinate channel. */
  datatype Option3 = NoChannel | Channel(coords: seq<Vec3>)

  /** `VEC3_FROM_VEC3D`. */
  function Vec3FromVec3D(v: Vec3): (r: Vec3)
    ensures r.x == v.x && r.y == v.y && r.z == v.z
  {
    Vec3(v.x, v.y, v.z)
  }

  /** `VEC2_FROM_VEC3D`: drops the third coordinate. */
  function Vec2FromVec3D(v: Vec3): (r: Vec2)
    ensures r.x == v.x && r.y == v.y
  {
    Vec2(v.x, v.y)
  }

  /** The indices below `n`, in their original order. */
  function InRange(indices: seq<u32>, n: nat): (r: seq<u32>)
    ensures |r| <= |indices|
    ensures forall i | 0 <= i < |r| :: r[i] < n
    ensures forall x :: x in r <==> x in indices && x < n
    ensures (forall i | 0 <= i < |indices| :: indices[i] < n) ==> r == indices
  {
    if indices == [] then []
    else
      var last := indices[|indices| - 1];
      InRange(indices[..|indices| - 1], n) + (if last < n then [last] else [])
  }

  /**
   * `InRange` is `filter(|i| i < n)`: together with the empty case, these
   * two lemmas fix its result, order and multiplicity included.
   */
  lemma {:induction false} InRangeAppend(xs: seq<u32>, ys: seq<u32>, n: nat)
    ensures InRange(xs + ys, n) == InRange(xs, n) + InRange(ys, n)
    decreases |ys|
  {
    if ys == [] {
      assert xs + ys == xs;
    } else {
      var init := ys[..|ys| - 1];
      InRangeAppend(xs, init, n);
      assert (xs + ys)[..|xs + ys| - 1] == xs + init;
      assert (xs + ys)[|xs + ys| - 1] == ys[|ys| - 1];
    }
  }

  lemma InRangeSingleton(x: u32, n: nat)
    ensures InRange([x], n) == if x < n then [x] else []
  {
    assert [x][..0] == [];
  }

  /**
   * `extract_data`: the converted source element of every index that names
   * one, in index order; an index past the end of `source` is skipped.
   */
  function ExtractData<T, O>(indices: seq<u32>, source: seq<T>, convert: T -> O): (r: seq<O>)
    ensures var kept := InRange(indices, |source|);
            |r| == |kept| && forall i | 0 <= i < |kept| :: r[i] == convert(source[kept[i]])
    ensures |r| <= |indices|
  {
    if indices == [] then []
    else
      var last := indices[|indices| - 1];
      var rest := ExtractData(indices[..|indices| - 1], source, convert);
      if last < |source| then rest + [convert(source[last])] else rest
  }

  /** With every index in range, extraction is exactly the converted lookup of each index. */
  lemma ExtractDataInRange<T, O>(indices: seq<u32>, source: seq<T>, convert: T -> O)
    requires forall i | 0 <= i < |indices| :: indices[i] < |source|
    ensures |ExtractData(indices, source, convert)| == |indices|
    ensures forall i | 0 <= i < |indices| :: ExtractData(indices, source, convert)[i] == convert(source[indices[i]])
  {
  }

  /** `extend_data`: the existing elements, then the extracted ones. */
  function ExtendData<T, O>(extendable: seq<O>, indices: seq<u32>, source: seq<T>, convert: T -> O): (r: seq<O>)
    ensures |r| == |extendable| + |ExtractData(indices, source, convert)|
    ensures r[..|extendable|] == extendable && r[|extendable|..] == ExtractData(indices, source, convert)
  {
    extendable + ExtractData(indices, source, convert)
  }

  /**
   * `Vec::resize(n, zero)`: the first `n` elements, padded with `zero` up
   * to length `n`.
   */
  function Resize<T>(v: seq<T>, n: nat, zero: T): (r: seq<T>)
    ensures |r| == n
    ensures forall i | 0 <= i < n && i < |v| :: r[i] == v[i]
    ensures forall i | |v| <= i < n :: r[i] == zero
  {
    if n <= |v| then v[..n] else v + seq(n - |v|, _ => zero)
  }

  lemma ResizeToOwnLength<T>(v: seq<T>, zero: T)
    ensures Resize(v, |v|, zero) == v
  {
  }

  /** The five per-vertex attribute streams `load_data` collects. */
  datatype Streams = Streams(
    positions: seq<Vec3>,
    texCoords: seq<Vec2>,
    normals: seq<Vec3>,
    tangents: seq<Vec3>,
    bitangents: seq<Vec3>)

  const NoStreams: Streams := Streams([], [], [], [], [])

  function Append(a: Streams, b: Streams): (r: Streams)
    ensures r.positions == a.positions + b.positions && r.texCoords == a.texCoords + b.texCoords
    ensures r.normals == a.normals + b.normals && r.tangents == a.tangents + b.tangents
    ensures r.bitangents == a.bitangents + b.bitangents
  {
    Streams(a.positions + b.positions, a.texCoords + b.texCoords, a.normals + b.normals,
            a.tangents + b.tangents, a.bitangents + b.bitangents)
  }

  lemma AppendAssociative(a: Streams, b: Streams, c: Streams)
    ensures Append(Append(a, b), c) == Append(a, Append(b, c))
  {
    assert (a.positions + b.positions) + c.positions == a.positions + (b.positions + c.positions);
    assert (a.texCoords + b.texCoords) + c.texCoords == a.texCoords + (b.texCoords + c.texCoords);
    assert (a.normals + b.normals) + c.normals == a.normals + (b.normals + c.normals);
    assert (a.tangents + b.tangents) + c.tangents == a.tangents + (b.tangents + c.tangents);
    assert (a.bitangents + b.bitangents) + c.bitangents == a.bitangents + (b.bitangents + c.bitangents);
  }

  /** Whether the first texture-coordinate channel of `m` exists. */
  predicate HasTexCoords(m: AiMesh) {
    |m.textureCoords| > 0 && m.textureCoords[0].Channel?
  }

  /**
   * What one face adds: nothing for a line or point primitive; for a
   * triangle, the extracted position, normal, tangent and bitangent of each
   * corner, and its texture coordinate when the first channel exists.
   */
  function FaceStreams(m: AiMesh, face: seq<u32>): (r: Streams)
    ensures |face| != 3 ==> r == NoStreams
    ensures |face| == 3 ==> r.positions == ExtractData(face, m.vertices, Vec3FromVec3D)
    ensures |face| == 3 && HasTexCoords(m) ==> r.texCoords == ExtractData(face, m.textureCoords[0].coords, Vec2FromVec3D)
    ensures !HasTexCoords(m) ==> r.texCoords == []
    ensures |face| == 3 ==> r.normals == ExtractData(face, m.normals, Vec3FromVec3D)
    ensures |face| == 3 ==> r.tangents == ExtractData(face, m.tangents, Vec3FromVec3D)
    ensures |face| == 3 ==> r.bitangents == ExtractData(face, m.bitangents, Vec3FromVec3D)
  {
    if |face| != 3 then NoStreams
    else
      Streams(
        ExtractData(face, m.vertices, Vec3FromVec3D),
        if HasTexCoords(m) then ExtractData(face, m.textureCoords[0].coords, Vec2FromVec3D) else [],
        ExtractData(face, m.normals, Vec3FromVec3D),
        ExtractData(face, m.tangents, Vec3FromVec3D),
        ExtractData(face, m.bitangents, Vec3FromVec3D))
  }

  /** The streams of the faces `faces` of mesh `m`, in face order. */
  function MeshStreams(m: AiMesh, faces: seq<seq<u32>>): (r: Streams) {
    if faces == [] then NoStreams
    else Append(MeshStreams(m, faces[..|faces| - 1]), FaceStreams(m, faces[|faces| - 1]))
  }

  /** The number of triangles (three-index faces) among `faces`. */
  function Triangles(faces: seq<seq<u32>>): (n: nat)
    ensures n <= |faces|
  {
    if faces == [] then 0
    else Triangles(faces[..|faces| - 1]) + (if |faces[|faces| - 1]| == 3 then 1 else 0)
  }

  /** The `u32` vertex counter after it started at `start` and advanced by 3 per triangle. */
  function CountAfter(start: u32, faces: seq<seq<u32>>): (r: u32) {
    if faces == [] then start
    else Advance(CountAfter(start, faces[..|faces| - 1]), faces[|faces| - 1])
  }

  /** The counter after one face: a triangle adds 3, wrapping at 2^32. */
  function Advance(c: u32, face: seq<u32>): (r: u32) {
    if |face| == 3 then (c + 3) % U32_LIMIT else c
  }

  /** The counter is exact while it fits in a `u32`. */
  lemma {:induction false} CountAfterExact(start: u32, faces: seq<seq<u32>>)
    requires start + 3 * Triangles(faces) < U32_LIMIT
    ensures CountAfter(start, faces) as int == start + 3 * Triangles(faces)
  {
    if faces != [] {
      CountAfterExact(start, faces[..|faces| - 1]);
    }
  }

  /** Whether scene mesh `i` is one of the node's meshes. */
  predicate Listed(nodeMeshes: seq<u32>, i: nat) {
    exists j | 0 <= j < |nodeMeshes| :: nodeMeshes[j] as int == i
  }

  /** The scene meshes the node lists, in scene order, each once however often it is listed. */
  function Selected(meshes: seq<AiMesh>, nodeMeshes: seq<u32>): (r: seq<AiMesh>)
    ensures |r| <= |meshes|
    ensures forall m | m in r :: m in meshes
    ensures nodeMeshes == [] ==> r == []
  {
    if meshes == [] then []
    else
      Selected(meshes[..|meshes| - 1], nodeMeshes)
        + (if Listed(nodeMeshes, |meshes| - 1) then [meshes[|meshes| - 1]] else [])
  }

  /** The positions below `count` of the scene meshes the node lists, in increasing order. */
  function ListedIndices(nodeMeshes: seq<u32>, count: nat): (idx: seq<nat>)
    ensures forall k | 0 <= k < |idx| :: idx[k] < count
    ensures forall k, l | 0 <= k < l < |idx| :: idx[k] < idx[l]
    ensures forall i: nat :: i in idx <==> i < count && Listed(nodeMeshes, i)
  {
    if count == 0 then []
    else ListedIndices(nodeMeshes, count - 1) + (if Listed(nodeMeshes, count - 1) then [count - 1] else [])
  }

  /**
   * The selection is the listed scene meshes in scene order, each once:
   * its k-th mesh is the scene mesh at the k-th listed position.
   */
  lemma {:induction false} SelectedInSceneOrder(meshes: seq<AiMesh>, nodeMeshes: seq<u32>)
    ensures var idx := ListedIndices(nodeMeshes, |meshes|);
            && |Selected(meshes, nodeMeshes)| == |idx|
            && forall k | 0 <= k < |idx| :: Selected(meshes, nodeMeshes)[k] == meshes[idx[k]]
  {
    if meshes != [] {
      var init := meshes[..|meshes| - 1];
      SelectedInSceneOrder(init, nodeMeshes);
      var idx0, sel0 := ListedIndices(nodeMeshes, |init|), Selected(init, nodeMeshes);
      var idx, sel := ListedIndices(nodeMeshes, |meshes|), Selected(meshes, nodeMeshes);
      var listed := Listed(nodeMeshes, |init|);
      assert idx == idx0 + (if listed then [|init|] else []);
      assert sel == sel0 + (if listed then [meshes[|init|]] else []);
      forall k | 0 <= k < |idx|
        ensures sel[k] == meshes[idx[k]]
      {
        if k < |idx0| {
          assert sel[k] == sel0[k] == init[idx0[k]];
          assert idx[k] == idx0[k] < |init|;
        }
      }
    }
  }

  /** The streams of all triangles of the selected meshes, mesh after mesh. */
  function NodeStreams(sel: seq<AiMesh>): (r: Streams) {
    if sel == [] then NoStreams
    else
      var m := sel[|sel| - 1];
      Append(NodeStreams(sel[..|sel| - 1]), MeshStreams(m, m.faces))
  }

  /** The vertex counter after all selected meshes. */
  function EndOf(sel: seq<AiMesh>): (r: u32) {
    if sel == [] then 0
    else
      var m := sel[|sel| - 1];
      CountAfter(EndOf(sel[..|sel| - 1]), m.faces)
  }

  /**
   * The material ranges: one per selected mesh, with that mesh's material,
   * the first starting at 0 and each starting where the previous ended,
   * the last ending at the final counter value.
   */
  function Ranges(sel: seq<AiMesh>): (r: seq<MaterialRange>)
    ensures |r| == |sel|
    ensures forall j | 0 <= j < |sel| :: r[j].material == sel[j].materialIndex as nat
    ensures sel != [] ==> r[0].start == 0 && r[|r| - 1].end == EndOf(sel)
    ensures forall j | 0 <= j < |r| - 1 :: r[j].end == r[j + 1].start
    ensures forall j | 0 <= j < |r| :: r[j].end == CountAfter(r[j].start, sel[j].faces)
  {
    if sel == [] then []
    else
      var m := sel[|sel| - 1];
      var prefix := sel[..|sel| - 1];
      Ranges(prefix) + [MaterialRange(m.materialIndex as nat, EndOf(prefix), EndOf(sel))]
  }

  /**
   * `normalize_data`: every stream other than the positions is resized to
   * the number of positions (zero-padded or truncated); the positions are
   * left as they are.
   */
  function Normalize(s: Streams): (r: Streams)
    ensures r.positions == s.positions
    ensures r.texCoords == Resize(s.texCoords, |s.positions|, Zero2)
    ensures r.normals == Resize(s.normals, |s.positions|, Zero3)
    ensures r.tangents == Resize(s.tangents, |s.positions|, Zero3)
    ensures r.bitangents == Resize(s.bitangents, |s.positions|, Zero3)
  {
    var n := |s.positions|;
    var t := if |s.texCoords| != n then Resize(s.texCoords, n, Zero2) else s.texCoords;
    var no := if |s.normals| != n then Resize(s.normals, n, Zero3) else s.normals;
    var ta := if |s.tangents| != n then Resize(s.tangents, n, Zero3) else s.tangents;
    var b := if |s.bitangents| != n then Resize(s.bitangents, n, Zero3) else s.bitangents;
    ResizeToOwnLength(s.texCoords, Zero2);
    ResizeToOwnLength(s.normals, Zero3);
    ResizeToOwnLength(s.tangents, Zero3);
    ResizeToOwnLength(s.bitangents, Zero3);
    Streams(s.positions, t, no, ta, b)
  }

  function Min(a: nat, b: nat): (r: nat) {
    if a <= b then a else b
  }

  /** `izip!(..).map(Vertex3D { .. })`: as many vertices as the shortest stream has elements. */
  function Zip(s: Streams): (r: seq<Vertex3D>)
    ensures |r| == Min(Min(Min(Min(|s.positions|, |s.texCoords|), |s.normals|), |s.tangents|), |s.bitangents|)
    ensures forall i | 0 <= i < |r| ::
      r[i] == Vertex3D(s.positions[i], s.texCoords[i], s.normals[i], s.tangents[i], s.bitangents[i])
  {
    var n := Min(Min(Min(Min(|s.positions|, |s.texCoords|), |s.normals|), |s.tangents|), |s.bitangents|);
    seq(n, i requires 0 <= i < n => Vertex3D(s.positions[i], s.texCoords[i], s.normals[i], s.tangents[i], s.bitangents[i]))
  }

  /**
   * After normalisation there is one vertex per position; a missing
   * attribute reads as zero.
   */
  lemma NormalizedZip(s: Streams)
    ensures var v := Zip(Normalize(s));
            && |v| == |s.positions|
            && (forall i | 0 <= i < |v| :: v[i].position == s.positions[i])
            && (forall i | 0 <= i < |v| :: v[i].normal == (if i < |s.normals| then s.normals[i] else Zero3))
            && (forall i | 0 <= i < |v| :: v[i].texCoord == (if i < |s.texCoords| then s.texCoords[i] else Zero2))
  {
  }

  /** What the loop body does with one face, stated on the five streams together. */
  function ExtendFace(s: Streams, m: AiMesh, face: seq<u32>): (r: Streams) {
    if |face| != 3 then s
    else
      Streams(
        ExtendData(s.positions, face, m.vertices, Vec3FromVec3D),
        if HasTexCoords(m) then ExtendData(s.texCoords, face, m.textureCoords[0].coords, Vec2FromVec3D) else s.texCoords,
        ExtendData(s.normals, face, m.normals, Vec3FromVec3D),
        ExtendData(s.tangents, face, m.tangents, Vec3FromVec3D),
        ExtendData(s.bitangents, face, m.bitangents, Vec3FromVec3D))
  }

  lemma ExtendFaceAppends(s: Streams, m: AiMesh, face: seq<u32>)
    ensures ExtendFace(s, m, face) == Append(s, FaceStreams(m, face))
  {
    if |face| != 3 {
      assert Append(s, NoStreams) == s;
    }
  }

  /** The body of the face loop for a triangle: its attributes are appended to each stream. */
  method ExtendWithTriangle(mesh: AiMesh, face: seq<u32>, positions0: seq<Vec3>, texCoords0: seq<Vec2>,
                            normals0: seq<Vec3>, tangents0: seq<Vec3>, bitangents0: seq<Vec3>)
    returns (positions: seq<Vec3>, texCoords: seq<Vec2>, normals: seq<Vec3>, tangents: seq<Vec3>, bitangents: seq<Vec3>)
    requires |face| == 3
    ensures Streams(positions, texCoords, normals, tangents, bitangents)
            == ExtendFace(Streams(positions0, texCoords0, normals0, tangents0, bitangents0), mesh, face)
  {
    positions := ExtendData(positions0, face, mesh.vertices, Vec3FromVec3D);
    texCoords := texCoords0;
    if |mesh.textureCoords| > 0 && mesh.textureCoords[0].Channel? {
      texCoords := ExtendData(texCoords0, face, mesh.textureCoords[0].coords, Vec2FromVec3D);
    }
    normals := ExtendData(normals0, face, mesh.normals, Vec3FromVec3D);
    tangents := ExtendData(tangents0, face, mesh.tangents, Vec3FromVec3D);
    bitangents := ExtendData(bitangents0, face, mesh.bitangents, Vec3FromVec3D);
  }

  /** One pass of the face loop: a triangle is appended and counted, any other face is skipped. */
  method GatherFace(mesh: AiMesh, face: seq<u32>, positions0: seq<Vec3>, texCoords0: seq<Vec2>,
                    normals0: seq<Vec3>, tangents0: seq<Vec3>, bitangents0: seq<Vec3>, count0: u32)
    returns (positions: seq<Vec3>, texCoords: seq<Vec2>, normals: seq<Vec3>, tangents: seq<Vec3>,
             bitangents: seq<Vec3>, count: u32)
    ensures Streams(positions, texCoords, normals, tangents, bitangents)
            == ExtendFace(Streams(positions0, texCoords0, normals0, tangents0, bitangents0), mesh, face)
    ensures count == Advance(count0, face)
  {
    positions, texCoords, normals, tangents, bitangents, count :=
      positions0, texCoords0, normals0, tangents0, bitangents0, count0;
    if |face| == 3 {
      positions, texCoords, normals, tangents, bitangents :=
        ExtendWithTriangle(mesh, face, positions0, texCoords0, normals0, tangents0, bitangents0);
      count := (count0 + 3) % U32_LIMIT;
    }
  }

  /**
   * The face loop of `load_data` for one mesh: the attributes of each
   * triangle are appended to the five streams and the vertex counter
   * advances by 3; other faces are skipped.
   */
  method GatherMeshData(mesh: AiMesh, positions0: seq<Vec3>, texCoords0: seq<Vec2>, normals0: seq<Vec3>,
                        tangents0: seq<Vec3>, bitangents0: seq<Vec3>, start: u32)
    returns (positions: seq<Vec3>, texCoords: seq<Vec2>, normals: seq<Vec3>, tangents: seq<Vec3>,
             bitangents: seq<Vec3>, count: u32)
    ensures Streams(positions, texCoords, normals, tangents, bitangents)
            == Append(Streams(positions0, texCoords0, normals0, tangents0, bitangents0), MeshStreams(mesh, mesh.faces))
    ensures count == CountAfter(start, mesh.faces)
  {
    ghost var acc := Streams(positions0, texCoords0, normals0, tangents0, bitangents0);
    positions, texCoords, normals, tangents, bitangents := positions0, texCoords0, normals0, tangents0, bitangents0;
    count := start;
    var k := 0;
    while k < |mesh.faces|
      invariant 0 <= k <= |mesh.faces|
      invariant Streams(positions, texCoords, normals, tangents, bitangents) == Append(acc, MeshStreams(mesh, mesh.faces[..k]))
      invariant count == CountAfter(start, mesh.faces[..k])
    {
      ghost var before := Streams(positions, texCoords, normals, tangents, bitangents);
      ghost var countBefore := count;
      positions, texCoords, normals, tangents, bitangents, count :=
        GatherFace(mesh, mesh.faces[k], positions, texCoords, normals, tangents, bitangents, count);
      MeshStreamsStep(acc, mesh, mesh.faces, k, before);
      CountAfterStep(start, mesh.faces, k, countBefore);
      k := k + 1;
    }
    assert mesh.faces[..k] == mesh.faces;
  }

  /** One more face advances the counter by 3 exactly when it is a triangle. */
  lemma CountAfterStep(start: u32, faces: seq<seq<u32>>, k: nat, c: u32)
    requires k < |faces| && c == CountAfter(start, faces[..k])
    ensures CountAfter(start, faces[..k + 1]) == Advance(c, faces[k])
  {
    assert faces[..k + 1][..k] == faces[..k];
  }

  /** One more face extends the accumulated streams by that face's streams. */
  lemma MeshStreamsStep(acc: Streams, m: AiMesh, faces: seq<seq<u32>>, k: nat, before: Streams)
    requires k < |faces|
    requires before == Append(acc, MeshStreams(m, faces[..k]))
    ensures ExtendFace(before, m, faces[k]) == Append(acc, MeshStreams(m, faces[..k + 1]))
  {
    assert faces[..k + 1][..k] == faces[..k];
    ExtendFaceAppends(before, m, faces[k]);
    AppendAssociative(acc, MeshStreams(m, faces[..k]), FaceStreams(m, faces[k]));
  }

  /**
   * The mesh loop of `load_data`: every scene mesh the node lists, in scene
   * order, has its triangles gathered, and a material range from the
   * counter before the mesh to the counter after it is recorded.
   */
  method GatherNodeData(meshes: seq<AiMesh>, nodeMeshes: seq<u32>) returns (streams: Streams, ranges: seq<MaterialRange>)
    ensures streams == NodeStreams(Selected(meshes, nodeMeshes))
    ensures ranges == Ranges(Selected(meshes, nodeMeshes))
  {
    var positions: seq<Vec3>, texCoords: seq<Vec2>, normals: seq<Vec3>, tangents: seq<Vec3>, bitangents: seq<Vec3>
      := [], [], [], [], [];
    ranges := [];
    var start: u32 := 0;
    ghost var sel: seq<AiMesh> := [];
    var i := 0;
    while i < |meshes|
      invariant 0 <= i <= |meshes|
      invariant sel == Selected(meshes[..i], nodeMeshes)
      invariant Streams(positions, texCoords, normals, tangents, bitangents) == NodeStreams(sel)
      invariant ranges == Ranges(sel) && start == EndOf(sel)
    {
      assert meshes[..i + 1][..i] == meshes[..i];
      if Listed(nodeMeshes, i) {
        var mesh := meshes[i];
        var count;
        positions, texCoords, normals, tangents, bitangents, count :=
          GatherMeshData(mesh, positions, texCoords, normals, tangents, bitangents, start);
        ranges := ranges + [MaterialRange(mesh.materialIndex as nat, start, count)];
        start := count;
        sel := sel + [mesh];
        assert sel[..|sel| - 1] == Selected(meshes[..i], nodeMeshes);
      }
      i := i + 1;
    }
    assert meshes[..i] == meshes;
    streams := Streams(positions, texCoords, normals, tangents, bitangents);
  }
}
