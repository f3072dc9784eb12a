/**
 * The gravity component of src/components/gravity.rs: a vertical
 * acceleration that falls by 8.41 per second of frame time, clamped to
 * plus or minus a maximum, and moves the parent by that much each update.
 */
module Gravity {
  import opened LinearAlgebra
  import opened Transforms

  /** How much the acceleration falls per second of frame time. */
  const FALL_RATE: real := 8.41
  const DEFAULT_MAX_ACCELERATION: real := 100.0

  /** `f32::clamp`, which rejects `lo > hi`. */
  function Clamp(x: real, lo: real, hi: real): (r: real)
    requires lo <= hi
    ensures lo <= r <= hi
    ensures lo <= x <= hi ==> r == x
    ensures x < lo ==> r == lo
    ensures x > hi ==> r == hi
  {
    if x < lo then lo else if x > hi then hi else x
  }

  /** The acceleration after one update of `dt` seconds. */
  function NextAcceleration(acceleration: real, maxAcceleration: real, dt: real): (r: real)
    requires maxAcceleration >= 0.0
    ensures -maxAcceleration <= r <= maxAcceleration
  {
    Clamp(acceleration - FALL_RATE * dt, -maxAcceleration, maxAcceleration)
  }

  /** From a bounded acceleration, a non-negative time step never raises it. */
  lemma AccelerationNeverRises(acceleration: real, maxAcceleration: real, dt: real)
    requires maxAcceleration >= 0.0 && -maxAcceleration <= acceleration <= maxAcceleration
    requires dt >= 0.0
    ensures NextAcceleration(acceleration, maxAcceleration, dt) <= acceleration
  {
  }

  /** Updates of `dts` seconds in turn. */
  function Fall(acceleration: real, maxAcceleration: real, dts: seq<real>): (r: real)
    requires maxAcceleration >= 0.0
    decreases |dts|
  {
    if dts == [] then acceleration
    else NextAcceleration(Fall(acceleration, maxAcceleration, dts[..|dts| - 1]), maxAcceleration, dts[|dts| - 1])
  }

  /**
   * Over any run of non-negative time steps from a bounded start, the
   * acceleration stays bounded and never rises above where it began.
   */
  lemma {:induction false} FallIsMonotone(acceleration: real, maxAcceleration: real, dts: seq<real>)
    requires maxAcceleration >= 0.0 && -maxAcceleration <= acceleration <= maxAcceleration
    requires forall i | 0 <= i < |dts| :: dts[i] >= 0.0
    ensures -maxAcceleration <= Fall(acceleration, maxAcceleration, dts) <= acceleration
    decreases |dts|
  {
    if dts != [] {
      var prefix := dts[..|dts| - 1];
      FallIsMonotone(acceleration, maxAcceleration, prefix);
      AccelerationNeverRises(Fall(acceleration, maxAcceleration, prefix), maxAcceleration, dts[|dts| - 1]);
    }
  }

  class GravityComp {
    var acceleration: real
    var maxAcceleration: real

    /** The acceleration stays within the non-negative bound. */
    ghost predicate Valid()
      reads this
    {
      maxAcceleration >= 0.0 && -maxAcceleration <= acceleration <= maxAcceleration
    }

    /** `GravityComp::new`: at rest, with the default bound. */
    constructor ()
      ensures Valid()
      ensures acceleration == 0.0 && maxAcceleration == DEFAULT_MAX_ACCELERATION
    {
      acceleration := 0.0;
      maxAcceleration := DEFAULT_MAX_ACCELERATION;
    }

    /**
     * `update`: the acceleration takes its next clamped value and the parent
     * is translated vertically by the new acceleration; the bound is kept.
     */
    method Update(parent: Transform, dt: real)
      requires Valid() && parent.Valid()
      modifies this`acceleration, parent
      ensures Valid() && parent.Valid()
      ensures acceleration == NextAcceleration(old(acceleration), maxAcceleration, dt)
      ensures parent.pos == Vec3(old(parent.pos.x), old(parent.pos.y) + acceleration, old(parent.pos.z))
      ensures parent.rot == old(parent.rot) && parent.scale == old(parent.scale)
      ensures parent.invertPosition == old(parent.invertPosition)
    {
      acceleration := Clamp(acceleration - FALL_RATE * dt, -maxAcceleration, maxAcceleration);
      parent.Translate(Vec3(0.0, acceleration, 0.0));
    }
  }
}
