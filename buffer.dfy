/**
 * The constant geometry of src/buffer.rs: a triangle, and a unit cube with
 * four vertices per face (so that each face has its own normal) and two
 * triangles per face in the index table.
 */
module Buffers {
  import opened Primitives
  import opened LinearAlgebra
  import opened Meshes

  /** A table row: a `SimpleVertex3D` upgraded to a full vertex. */
  function V(px: real, py: real, pz: real, nx: real, ny: real, nz: real): (r: Vertex3D) {
    Upgrade(SimpleVertex3D(Vec3(px, py, pz), Vec3(nx, ny, nz)))
  }

  function Triangle(): (r: seq<Vertex3D>) {
    [V(0.0, 1.0, 0.0, 0.0, 0.0, -1.0),
     V(0.5, 0.0, 0.0, 0.0, 0.0, -1.0),
     V(-0.5, 0.0, 0.0, 0.0, 0.0, -1.0)]
  }

  /** Faces in the order front (z = -0.5), back, top, bottom, right, left. */
  function Cube(): (r: seq<Vertex3D>) {
    [V(-0.5, 0.5, -0.5, 0.0, 0.0, -1.0), V(0.5, 0.5, -0.5, 0.0, 0.0, -1.0),
     V(-0.5, -0.5, -0.5, 0.0, 0.0, -1.0), V(0.5, -0.5, -0.5, 0.0, 0.0, -1.0),

     V(-0.5, 0.5, 0.5, 0.0, 0.0, 1.0), V(0.5, 0.5, 0.5, 0.0, 0.0, 1.0),
     V(-0.5, -0.5, 0.5, 0.0, 0.0, 1.0), V(0.5, -0.5, 0.5, 0.0, 0.0, 1.0),

     V(-0.5, 0.5, -0.5, 0.0, 1.0, 0.0), V(0.5, 0.5, -0.5, 0.0, 1.0, 0.0),
     V(-0.5, 0.5, 0.5, 0.0, 1.0, 0.0), V(0.5, 0.5, 0.5, 0.0, 1.0, 0.0),

     V(-0.5, -0.5, -0.5, 0.0, -1.0, 0.0), V(0.5, -0.5, -0.5, 0.0, -1.0, 0.0),
     V(-0.5, -0.5, 0.5, 0.0, -1.0, 0.0), V(0.5, -0.5, 0.5, 0.0, -1.0, 0.0),

     V(0.5, 0.5, -0.5, 1.0, 0.0, 0.0), V(0.5, 0.5, 0.5, 1.0, 0.0, 0.0),
     V(0.5, -0.5, -0.5, 1.0, 0.0, 0.0), V(0.5, -0.5, 0.5, 1.0, 0.0, 0.0),

     V(-0.5, 0.5, -0.5, -1.0, 0.0, 0.0), V(-0.5, 0.5, 0.5, -1.0, 0.0, 0.0),
     V(-0.5, -0.5, -0.5, -1.0, 0.0, 0.0), V(-0.5, -0.5, 0.5, -1.0, 0.0, 0.0)]
  }

  function CubeIndices(): (r: seq<u32>) {
    [0, 1, 2, 1, 3, 2,
     4, 5, 6, 5, 7, 6,
     8, 9, 10, 9, 11, 10,
     12, 13, 14, 13, 15, 14,
     16, 17, 18, 17, 19, 18,
     20, 21, 22, 21, 23, 22]
  }

  /** The corner order of the two triangles of a face, relative to its first vertex. */
  function FaceCorners(): (r: seq<nat>) {
    [0, 1, 2, 1, 3, 2]
  }

  function Dot(a: Vec3, b: Vec3): (r: real) {
    a.x * b.x + a.y * b.y + a.z * b.z
  }

  /** 24 vertices and 36 indices, every index naming one of the vertices. */
  lemma CubeIndicesInBounds()
    ensures |Cube()| == 24 && |CubeIndices()| == 36
    ensures forall i | 0 <= i < |CubeIndices()| :: CubeIndices()[i] < |Cube()|
  {
  }

  /** Index i belongs to face i / 6, at corner i % 6 of that face's two triangles. */
  lemma CubeFacePattern()
    ensures forall i | 0 <= i < |CubeIndices()| :: CubeIndices()[i] as int == 4 * (i / 6) + FaceCorners()[i % 6]
  {
    forall i | 0 <= i < |CubeIndices()|
      ensures CubeIndices()[i] as int == 4 * (i / 6) + FaceCorners()[i % 6]
    {
      var face := if i < 6 then 0 else if i < 12 then 1 else if i < 18 then 2
                  else if i < 24 then 3 else if i < 30 then 4 else 5;
      assert i / 6 == face && i % 6 == i - 6 * face;
    }
  }

  /**
   * Vertex i shares the normal of its face's first vertex 4 * (i / 4); that
   * normal is a unit axis vector, and the vertex lies on the face's plane,
   * half a unit out along it.
   */
  lemma CubeFacesFlat()
    ensures forall i | 0 <= i < |Cube()| :: Cube()[i].normal == Cube()[4 * (i / 4)].normal
    ensures forall i | 0 <= i < |Cube()| :: Dot(Cube()[i].normal, Cube()[i].normal) == 1.0
    ensures forall i | 0 <= i < |Cube()| :: Dot(Cube()[i].position, Cube()[i].normal) == 0.5
  {
  }

  /** Upgraded vertices carry no texture coordinate, tangent or bitangent. */
  lemma TablesHaveZeroExtras()
    ensures forall v | v in Triangle() + Cube() :: v.texCoord == Zero2 && v.tangent == Zero3 && v.bitangent == Zero3
  {
  }

  /** The triangle has three vertices, all facing -z. */
  lemma TriangleFacesMinusZ()
    ensures |Triangle()| == 3
    ensures forall v | v in Triangle() :: v.normal == Vec3(0.0, 0.0, -1.0)
  {
  }
}
