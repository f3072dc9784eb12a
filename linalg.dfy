/**
 * Vectors and 4x4 matrices over `real` (the source's `f32`), with the
 * constructors the transform uses: translation, non-uniform scale and the
 * three axis rotations. Matrices are row-major: `m[r][c]` is row r, column c.
 * Cosine, sine and tangent of an angle in degrees come from the math library
 * and are given as a `Trig` record of functions.
 */
module LinearAlgebra {

  datatype Vec2 = Vec2(x: real, y: real)

  datatype Vec3 = Vec3(x: real, y: real, z: real)

  const Zero2: Vec2 := Vec2(0.0, 0.0)
  const Zero3: Vec3 := Vec3(0.0, 0.0, 0.0)
  const One3: Vec3 := Vec3(1.0, 1.0, 1.0)

  function Add(a: Vec3, b: Vec3): (r: Vec3)
    ensures r.x == a.x + b.x && r.y == a.y + b.y && r.z == a.z + b.z
  {
    Vec3(a.x + b.x, a.y + b.y, a.z + b.z)
  }

  function Neg(a: Vec3): (r: Vec3)
    ensures Add(a, r) == Zero3
  {
    Vec3(-a.x, -a.y, -a.z)
  }

  ghost predicate IsMat4(m: seq<seq<real>>) {
    |m| == 4 && forall i | 0 <= i < 4 :: |m[i]| == 4
  }

  type Mat4 = m: seq<seq<real>> | IsMat4(m)
    witness [[1.0, 0.0, 0.0, 0.0], [0.0, 1.0, 0.0, 0.0], [0.0, 0.0, 1.0, 0.0], [0.0, 0.0, 0.0, 1.0]]

  function Identity(): (m: Mat4) {
    [[1.0, 0.0, 0.0, 0.0],
     [0.0, 1.0, 0.0, 0.0],
     [0.0, 0.0, 1.0, 0.0],
     [0.0, 0.0, 0.0, 1.0]]
  }

  /** The matrix product `a * b`. */
  function Mul(a: Mat4, b: Mat4): (m: Mat4) {
    seq(4, i requires 0 <= i < 4 =>
      seq(4, j requires 0 <= j < 4 =>
        a[i][0] * b[0][j] + a[i][1] * b[1][j] + a[i][2] * b[2][j] + a[i][3] * b[3][j]))
  }

  /** `Matrix4::from_translation(v)`. */
  function Translation(v: Vec3): (m: Mat4) {
    [[1.0, 0.0, 0.0, v.x],
     [0.0, 1.0, 0.0, v.y],
     [0.0, 0.0, 1.0, v.z],
     [0.0, 0.0, 0.0, 1.0]]
  }

  /** `Matrix4::from_nonuniform_scale(v.x, v.y, v.z)`. */
  function Scaling(v: Vec3): (m: Mat4) {
    [[v.x, 0.0, 0.0, 0.0],
     [0.0, v.y, 0.0, 0.0],
     [0.0, 0.0, v.z, 0.0],
     [0.0, 0.0, 0.0, 1.0]]
  }

  /** Trigonometry on angles in degrees, supplied by the math library. */
  datatype Trig = Trig(cosDeg: real -> real, sinDeg: real -> real, tanDeg: real -> real) {
    /** What every cosine and sine satisfies at a zero angle. */
    predicate ExactAtZero() {
      cosDeg(0.0) == 1.0 && sinDeg(0.0) == 0.0
    }
  }

  /** `Matrix4::from_angle_x(Deg(deg))`. */
  function RotationX(t: Trig, deg: real): (m: Mat4) {
    var c, s := t.cosDeg(deg), t.sinDeg(deg);
    [[1.0, 0.0, 0.0, 0.0],
     [0.0, c, -s, 0.0],
     [0.0, s, c, 0.0],
     [0.0, 0.0, 0.0, 1.0]]
  }

  /** `Matrix4::from_angle_y(Deg(deg))`. */
  function RotationY(t: Trig, deg: real): (m: Mat4) {
    var c, s := t.cosDeg(deg), t.sinDeg(deg);
    [[c, 0.0, s, 0.0],
     [0.0, 1.0, 0.0, 0.0],
     [-s, 0.0, c, 0.0],
     [0.0, 0.0, 0.0, 1.0]]
  }

  /** `Matrix4::from_angle_z(Deg(deg))`. */
  function RotationZ(t: Trig, deg: real): (m: Mat4) {
    var c, s := t.cosDeg(deg), t.sinDeg(deg);
    [[c, -s, 0.0, 0.0],
     [s, c, 0.0, 0.0],
     [0.0, 0.0, 1.0, 0.0],
     [0.0, 0.0, 0.0, 1.0]]
  }

  /** Euler rotation in degrees, applied as `Rx(r.x) * Ry(r.y) * Rz(r.z)`. */
  function EulerRotation(t: Trig, r: Vec3): (m: Mat4) {
    Mul(Mul(RotationX(t, r.x), RotationY(t, r.y)), RotationZ(t, r.z))
  }

  lemma MulIdentityLeft(m: Mat4)
    ensures Mul(Identity(), m) == m
  {
    var p := Mul(Identity(), m);
    forall i | 0 <= i < 4 ensures p[i] == m[i] {
      assert forall j | 0 <= j < 4 :: p[i][j] == m[i][j];
    }
  }

  lemma MulIdentityRight(m: Mat4)
    ensures Mul(m, Identity()) == m
  {
    var p := Mul(m, Identity());
    forall i | 0 <= i < 4 ensures p[i] == m[i] {
      assert forall j | 0 <= j < 4 :: p[i][j] == m[i][j];
    }
  }

  /** The zero translation, the unit scale and the zero rotation are all the identity. */
  lemma NeutralMatrices(t: Trig)
    requires t.ExactAtZero()
    ensures Translation(Zero3) == Identity()
    ensures Scaling(One3) == Identity()
    ensures EulerRotation(t, Zero3) == Identity()
  {
    assert RotationX(t, 0.0) == Identity();
    assert RotationY(t, 0.0) == Identity();
    assert RotationZ(t, 0.0) == Identity();
    MulIdentityLeft(Identity());
  }
}
