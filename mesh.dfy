/**
 * Mesh data of src/asset_management/mesh.rs: vertices, optional indices and
 * the material ranges, with the default range `Mesh::new` supplies, and the
 * runtime data built from a mesh on the graphics device.
 */
module Meshes {
  import opened Wrappers
  import opened Primitives
  import opened LinearAlgebra
  import Gpu
  import Materials

  /** The compact vertex the constant tables are written in. */
  datatype SimpleVertex3D = SimpleVertex3D(position: Vec3, normal: Vec3)

  datatype Vertex3D = Vertex3D(position: Vec3, texCoord: Vec2, normal: Vec3, tangent: Vec3, bitangent: Vec3)

  /** `SimpleVertex3D::upgrade`: keeps position and normal, zeroes the rest. */
  function Upgrade(v: SimpleVertex3D): (r: Vertex3D)
    ensures r.position == v.position && r.normal == v.normal
    ensures r.texCoord == Zero2 && r.tangent == Zero3 && r.bitangent == Zero3
  {
    Vertex3D(v.position, Vec2(0.0, 0.0), v.normal, Vec3(0.0, 0.0, 0.0), Vec3(0.0, 0.0, 0.0))
  }

  /** A material id with the half-open vertex or index range `start..end` it covers. */
  datatype MaterialRange = MaterialRange(material: nat, start: u32, end: u32)

  datatype MeshVertexData = MeshVertexData(vertices: seq<Vertex3D>, indices: Option<seq<u32>>)

  datatype Mesh = Mesh(data: MeshVertexData, materialRanges: seq<MaterialRange>)

  /**
   * `Mesh::new`: absent or empty ranges become one fallback-material range
   * over all indices, or over all vertices when there are no indices (the
   * length converted with `as u32`).
   */
  function NewMesh(vertices: seq<Vertex3D>, indices: Option<seq<u32>>,
                   materialRanges: Option<seq<MaterialRange>>): (m: Mesh)
    ensures m.data.vertices == vertices && m.data.indices == indices
    ensures materialRanges.Some? && materialRanges.value != [] ==> m.materialRanges == materialRanges.value
    ensures (materialRanges.None? || materialRanges.value == []) && indices.Some? ==>
      m.materialRanges == [MaterialRange(Materials.FALLBACK_MATERIAL_ID, 0, TruncateU32(|indices.value|))]
    ensures (materialRanges.None? || materialRanges.value == []) && indices.None? ==>
      m.materialRanges == [MaterialRange(Materials.FALLBACK_MATERIAL_ID, 0, TruncateU32(|vertices|))]
    ensures m.materialRanges != []
  {
    var ranges := materialRanges.GetOr([]);
    var ranges :=
      if ranges != [] then ranges
      else if indices.Some? then [MaterialRange(Materials.FALLBACK_MATERIAL_ID, 0, |indices.value| % U32_LIMIT)]
      else [MaterialRange(Materials.FALLBACK_MATERIAL_ID, 0, |vertices| % U32_LIMIT)];
    Mesh(MeshVertexData(vertices, indices), ranges)
  }

  /** With fewer than 2^32 indices (or vertices) the default range covers exactly all of them. */
  lemma DefaultRangeCoversAll(vertices: seq<Vertex3D>, indices: Option<seq<u32>>)
    requires indices.Some? ==> |indices.value| < U32_LIMIT
    requires indices.None? ==> |vertices| < U32_LIMIT
    ensures var m := NewMesh(vertices, indices, None);
            && |m.materialRanges| == 1
            && m.materialRanges[0].start == 0
            && m.materialRanges[0].end == (if indices.Some? then |indices.value| else |vertices|)
  {
  }

  /** The runtime data of a mesh: its device buffers, element counts and model bind group. */
  datatype RuntimeMeshData = RuntimeMeshData(
    verticesBuf: Gpu.Handle,
    verticesNum: nat,
    indicesBuf: Option<Gpu.Handle>,
    indicesNum: nat,
    modelDataBuffer: Gpu.Handle,
    modelBindGroup: Gpu.Handle)

  datatype RuntimeMesh = RuntimeMesh(data: RuntimeMeshData)

  /**
   * `Mesh::init_runtime`: a vertex buffer, an index buffer exactly when the
   * mesh has indices, the vertex and index counts (0 indices without an
   * index buffer), and a model buffer bound through `modelLayout`.
   */
  function InitRuntime(mesh: Mesh, device: Gpu.Device, modelLayout: Gpu.Handle): (r: RuntimeMesh)
    ensures r.data.verticesNum == |mesh.data.vertices|
    ensures r.data.indicesBuf.Some? <==> mesh.data.indices.Some?
    ensures r.data.indicesNum == (if mesh.data.indices.Some? then |mesh.data.indices.value| else 0)
    ensures r.data.verticesBuf.device == device && r.data.modelBindGroup.device == device
  {
    var indices := mesh.data.indices;
    RuntimeMesh(RuntimeMeshData(
      Gpu.Create(device, "3D Object Vertex Buffer"),
      |mesh.data.vertices|,
      if indices.Some? then Some(Gpu.Create(device, "3D Object Index Buffer")) else None,
      if indices.Some? then |indices.value| else 0,
      Gpu.Create(device, "Model Buffer"),
      Gpu.Create(device, "Model Bind Group")))
  }
}
