/**
 * The transform of src/transform.rs: position, Euler rotation (degrees) and
 * scale, with cached translation, rotation, scale and combined matrices.
 * Every setter assigns its field and recomputes the matrices it affects,
 * then the combined matrix `pos_mat * rot_mat * scale_mat`. The
 * `invert_position` flag negates the translation, but only when the
 * translation matrix is next recomputed.
 */
module Transforms {
  import opened LinearAlgebra

  /** The translation used for `pos`: negated when `inverted` holds. */
  function Oriented(pos: Vec3, inverted: bool): (r: Vec3)
    ensures inverted ==> Add(pos, r) == Zero3
    ensures !inverted ==> r == pos
  {
    if inverted then Neg(pos) else pos
  }

  class Transform {
    /** Cosine and sine in degrees, from the math library. */
    const trig: Trig

    var pos: Vec3
    var rot: Vec3
    var scale: Vec3
    var posMat: Mat4
    var rotMat: Mat4
    var scaleMat: Mat4
    var combinedMat: Mat4
    var invertPosition: bool

    /** The value `invertPosition` had when `posMat` was last recomputed. */
    ghost var posMatInverted: bool

    /** The caches agree with the stored fields (the translation with the flag as it was when last recomputed). */
    ghost predicate Valid()
      reads this
    {
      && posMat == Translation(Oriented(pos, posMatInverted))
      && rotMat == EulerRotation(trig, rot)
      && scaleMat == Scaling(scale)
      && combinedMat == Mul(Mul(posMat, rotMat), scaleMat)
    }

    /** `Transform::new`. */
    constructor (trig: Trig)
      requires trig.ExactAtZero()
      ensures this.trig == trig
      ensures pos == Zero3 && rot == Zero3 && scale == One3
      ensures posMat == Identity() && rotMat == Identity() && scaleMat == Identity()
      ensures combinedMat == Identity()
      ensures !invertPosition
      ensures Valid() && !posMatInverted
    {
      this.trig := trig;
      pos, rot, scale := Zero3, Zero3, One3;
      posMat, rotMat, scaleMat, combinedMat := Identity(), Identity(), Identity(), Identity();
      invertPosition := false;
      posMatInverted := false;
      new;
      NeutralMatrices(trig);
      MulIdentityLeft(Identity());
    }

    function Position(): (p: Vec3)
      reads this
      ensures p == pos
    {
      pos
    }

    function Rotation(): (r: Vec3)
      reads this
      ensures r == rot
    {
      rot
    }

    function Scale(): (s: Vec3)
      reads this
      ensures s == scale
    {
      scale
    }

    /** The cached combined matrix; in a valid transform it is translation, then rotation, then scale. */
    function FullMatrix(): (m: Mat4)
      reads this
      ensures Valid() ==>
        m == Mul(Mul(Translation(Oriented(pos, posMatInverted)), EulerRotation(trig, rot)), Scaling(scale))
    {
      combinedMat
    }

    method SetPosition(position: Vec3)
      requires Valid()
      modifies this
      ensures Valid()
      ensures pos == position && rot == old(rot) && scale == old(scale)
      ensures invertPosition == old(invertPosition) && posMatInverted == invertPosition
      ensures posMat == Translation(Oriented(position, invertPosition))
      ensures rotMat == old(rotMat) && scaleMat == old(scaleMat)
    {
      pos := position;
      RecalculatePosMatrix();
      RecalculateCombinedMatrix();
    }

    /** Changes the flag only; no matrix is recomputed. */
    method SetInvertPosition(invert: bool)
      requires Valid()
      modifies this`invertPosition
      ensures Valid()
      ensures invertPosition == invert
    {
      invertPosition := invert;
    }

    method Translate(other: Vec3)
      requires Valid()
      modifies this
      ensures Valid()
      ensures pos == Add(old(pos), other) && rot == old(rot) && scale == old(scale)
      ensures invertPosition == old(invertPosition) && posMatInverted == invertPosition
      ensures posMat == Translation(Oriented(pos, invertPosition))
      ensures rotMat == old(rotMat) && scaleMat == old(scaleMat)
    {
      pos := Add(pos, other);
      RecalculatePosMatrix();
      RecalculateCombinedMatrix();
    }

    method SetRotation(rotation: Vec3)
      requires Valid()
      modifies this
      ensures Valid()
      ensures rot == rotation && pos == old(pos) && scale == old(scale)
      ensures invertPosition == old(invertPosition) && posMatInverted == old(posMatInverted)
      ensures rotMat == EulerRotation(trig, rotation)
      ensures posMat == old(posMat) && scaleMat == old(scaleMat)
    {
      rot := rotation;
      RecalculateRotMatrix();
      RecalculateCombinedMatrix();
    }

    method Rotate(r: Vec3)
      requires Valid()
      modifies this
      ensures Valid()
      ensures rot == Add(old(rot), r) && pos == old(pos) && scale == old(scale)
      ensures invertPosition == old(invertPosition) && posMatInverted == old(posMatInverted)
      ensures rotMat == EulerRotation(trig, rot)
      ensures posMat == old(posMat) && scaleMat == old(scaleMat)
    {
      rot := Add(rot, r);
      RecalculateRotMatrix();
      RecalculateCombinedMatrix();
    }

    method SetNonuniformScale(s: Vec3)
      requires Valid()
      modifies this
      ensures Valid()
      ensures scale == s && pos == old(pos) && rot == old(rot)
      ensures invertPosition == old(invertPosition) && posMatInverted == old(posMatInverted)
      ensures scaleMat == Scaling(s)
      ensures posMat == old(posMat) && rotMat == old(rotMat)
    {
      scale := s;
      RecalculateScaleMatrix();
      RecalculateCombinedMatrix();
    }

    /** Has exactly the effect of `SetNonuniformScale(Vec3(factor, factor, factor))`. */
    method SetUniformScale(factor: real)
      requires Valid()
      modifies this
      ensures Valid()
      ensures scale == Vec3(factor, factor, factor) && pos == old(pos) && rot == old(rot)
      ensures invertPosition == old(invertPosition) && posMatInverted == old(posMatInverted)
      ensures scaleMat == Scaling(Vec3(factor, factor, factor))
      ensures posMat == old(posMat) && rotMat == old(rotMat)
    {
      SetNonuniformScale(Vec3(factor, factor, factor));
    }

    /** Recomputes every cache; afterwards the translation honours the current flag. */
    method RegenerateMatrices()
      modifies this
      ensures Valid()
      ensures pos == old(pos) && rot == old(rot) && scale == old(scale)
      ensures invertPosition == old(invertPosition) && posMatInverted == invertPosition
      ensures posMat == Translation(Oriented(pos, invertPosition))
      ensures rotMat == EulerRotation(trig, rot) && scaleMat == Scaling(scale)
    {
      RecalculatePosMatrix();
      RecalculateRotMatrix();
      RecalculateScaleMatrix();
      RecalculateCombinedMatrix();
    }

    method RecalculatePosMatrix()
      modifies this`posMat, this`posMatInverted
      ensures posMat == Translation(Oriented(pos, invertPosition))
      ensures posMatInverted == invertPosition
    {
      var p := if invertPosition then Neg(pos) else pos;
      posMat := Translation(p);
      posMatInverted := invertPosition;
    }

    method RecalculateRotMatrix()
      modifies this`rotMat
      ensures rotMat == Mul(Mul(RotationX(trig, rot.x), RotationY(trig, rot.y)), RotationZ(trig, rot.z))
    {
      rotMat := Mul(Mul(RotationX(trig, rot.x), RotationY(trig, rot.y)), RotationZ(trig, rot.z));
    }

    method RecalculateScaleMatrix()
      modifies this`scaleMat
      ensures scaleMat == Scaling(scale)
    {
      scaleMat := Scaling(scale);
    }

    method RecalculateCombinedMatrix()
      modifies this`combinedMat
      ensures combinedMat == Mul(Mul(posMat, rotMat), scaleMat)
    {
      combinedMat := Mul(Mul(posMat, rotMat), scaleMat);
    }
  }
}
