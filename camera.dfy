/**
 * The camera of src/components/camera.rs: a component holding a perspective
 * projection (aspect ratio, vertical field of view, near and far planes)
 * that makes its parent's transform invert its position, and the uniform
 * record `CameraData` that copies the camera transform's state and the
 * combined projection-view matrix for the shaders.
 */
module Cameras {
  import opened LinearAlgebra
  import opened Transforms

  /** Vertical field of view, in degrees (the source converts 60 degrees to radians). */
  const FOVY_DEG: real := 60.0
  const ZNEAR: real := 0.01
  const ZFAR: real := 1000.0
  /** The aspect ratio of the initial 800 x 600 window. */
  const INITIAL_ASPECT: real := 800.0 / 600.0

  /** `Perspective3`: the four parameters of a perspective projection. */
  datatype Perspective = Perspective(aspect: real, fovyDeg: real, znear: real, zfar: real)

  /**
   * The projection matrix of `Perspective3::to_homogeneous`. The library
   * rejects a zero aspect ratio and coinciding planes.
   */
  function ProjectionMatrix(trig: Trig, p: Perspective): (m: Mat4)
    requires p.aspect != 0.0 && p.znear != p.zfar
    requires trig.tanDeg(p.fovyDeg / 2.0) != 0.0
    ensures m[3] == [0.0, 0.0, -1.0, 0.0]
    ensures m[1][1] * trig.tanDeg(p.fovyDeg / 2.0) == 1.0
    ensures m[0][0] * p.aspect == m[1][1]
  {
    var f := 1.0 / trig.tanDeg(p.fovyDeg / 2.0);
    [[f / p.aspect, 0.0, 0.0, 0.0],
     [0.0, f, 0.0, 0.0],
     [0.0, 0.0, (p.zfar + p.znear) / (p.znear - p.zfar), 2.0 * p.zfar * p.znear / (p.znear - p.zfar)],
     [0.0, 0.0, -1.0, 0.0]]
  }

  /**
   * The depth mapping of the projection: a point on the near plane
   * (view-space z = -znear) lands at normalised depth -1 and a point on the
   * far plane at +1.
   */
  lemma ProjectionMapsPlanesToUnitDepth(trig: Trig, p: Perspective)
    requires p.aspect != 0.0 && p.znear != p.zfar
    requires trig.tanDeg(p.fovyDeg / 2.0) != 0.0
    requires p.znear > 0.0 && p.zfar > 0.0
    ensures var m := ProjectionMatrix(trig, p);
            && (m[2][2] * -p.znear + m[2][3]) == -1.0 * (m[3][2] * -p.znear)
            && (m[2][2] * -p.zfar + m[2][3]) == 1.0 * (m[3][2] * -p.zfar)
  {
    var m := ProjectionMatrix(trig, p);
    var n, f := p.znear, p.zfar;
    assert m[2][2] == (f + n) / (n - f) && m[2][3] == 2.0 * f * n / (n - f);
    assert (f + n) / (n - f) * -n + 2.0 * f * n / (n - f) == (f * n - n * n) / (n - f);
    assert (f * n - n * n) / (n - f) == -n by {
      assert f * n - n * n == -n * (n - f);
    }
    assert (f + n) / (n - f) * -f + 2.0 * f * n / (n - f) == (f * n - f * f) / (n - f);
    assert (f * n - f * f) / (n - f) == f by {
      assert f * n - f * f == f * (n - f);
    }
  }

  /** The standard camera projection for an aspect ratio. */
  function StandardPerspective(aspect: real): (p: Perspective)
    ensures p.fovyDeg == FOVY_DEG && p.znear == ZNEAR && p.zfar == ZFAR
    ensures p.aspect == aspect
  {
    Perspective(aspect, FOVY_DEG, ZNEAR, ZFAR)
  }

  /** The standard projection is always accepted by the library whenever its aspect ratio is not zero. */
  lemma StandardPerspectiveWellFormed(aspect: real)
    requires aspect != 0.0
    ensures var p := StandardPerspective(aspect);
            p.aspect != 0.0 && p.znear != p.zfar && 0.0 < p.znear < p.zfar
  {
  }

  class CameraComp {
    var projection: Perspective
    /** The transform of the object this component is attached to. */
    const parent: Transform

    /** `CameraComp::new`: the standard projection for an 800 x 600 window. */
    constructor (parent: Transform)
      ensures projection == StandardPerspective(INITIAL_ASPECT)
      ensures this.parent == parent
    {
      projection := StandardPerspective(INITIAL_ASPECT);
      this.parent := parent;
    }

    /**
     * `resize`: the aspect ratio becomes `width / height`; the field of
     * view and the planes stay standard, and the parent is not touched.
     * `Perspective3::new` rejects a zero aspect ratio, so a zero width is
     * not accepted either.
     */
    method Resize(width: real, height: real)
      requires height != 0.0 && width != 0.0
      modifies this`projection
      ensures projection == StandardPerspective(width / height)
      ensures projection.aspect * height == width
      ensures projection.aspect != 0.0
    {
      projection := StandardPerspective(width / height);
    }

    /** `init`: the parent transform inverts its position from now on; nothing else changes. */
    method Init()
      requires parent.Valid()
      modifies parent`invertPosition
      ensures parent.Valid()
      ensures parent.invertPosition
    {
      parent.SetInvertPosition(true);
    }

    /** `update` does nothing: the projection and the parent are left as they were. */
    method Update()
      ensures projection == old(projection) && unchanged(parent)
    {
    }
  }

  /** The camera uniform block: the transform's state, the view and projection matrices and their product. */
  class CameraData {
    var pos: Vec3
    var padding0: real
    var rot: Vec3
    var padding1: real
    var scale: Vec3
    var padding2: real
    var viewMat: Mat4
    var projectionMat: Mat4
    var projViewMat: Mat4

    /** `CameraData::empty`: zero vectors and identity matrices. */
    constructor Empty()
      ensures pos == Zero3 && rot == Zero3 && scale == Zero3
      ensures padding0 == 0.0 && padding1 == 0.0 && padding2 == 0.0
      ensures viewMat == Identity() && projectionMat == Identity() && projViewMat == Identity()
    {
      pos, rot, scale := Zero3, Zero3, Zero3;
      padding0, padding1, padding2 := 0.0, 0.0, 0.0;
      viewMat, projectionMat, projViewMat := Identity(), Identity(), Identity();
    }

    /**
     * `CameraData::update`: copies the transform's position, rotation and
     * scale, takes its combined matrix as the view, and stores the
     * projection and the projection-view product. On a consistent transform
     * the product is projection, then translation, rotation and scale.
     */
    method Update(trig: Trig, proj: Perspective, cam: Transform)
      requires proj.aspect != 0.0 && proj.znear != proj.zfar
      requires trig.tanDeg(proj.fovyDeg / 2.0) != 0.0
      modifies this`pos, this`rot, this`scale, this`viewMat, this`projectionMat, this`projViewMat
      ensures pos == cam.pos && rot == cam.rot && scale == cam.scale
      ensures viewMat == cam.FullMatrix()
      ensures projectionMat == ProjectionMatrix(trig, proj)
      ensures projViewMat == Mul(ProjectionMatrix(trig, proj), cam.FullMatrix())
      ensures cam.Valid() ==>
        projViewMat == Mul(ProjectionMatrix(trig, proj),
                           Mul(Mul(Translation(Oriented(cam.pos, cam.posMatInverted)), EulerRotation(cam.trig, cam.rot)),
                               Scaling(cam.scale)))
    {
      pos := cam.Position();
      rot := cam.Rotation();
      scale := cam.Scale();
      viewMat := cam.FullMatrix();
      projectionMat := ProjectionMatrix(trig, proj);
      projViewMat := Mul(projectionMat, cam.FullMatrix());
    }
  }
}
