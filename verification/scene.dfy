/**
 * Scene values shared by the randomizers and the camera controller: uniform draws,
 * positions, rotations, poses and materials. Engine geometry is not modelled: a rotation
 * is kept as the Euler steps the scripts compose, not as a quaternion.
 */
module Scene {

  /** A uniform draw in [0, 1]. */
  type Unit = r: real | 0.0 <= r <= 1.0

  /** `new UniformSampler(lo, hi).Sample()` for the draw u. */
  function Uniform(lo: real, hi: real, u: Unit): real {
    lo + u * (hi - lo)
  }

  /** A draw stays within the sampler's range whenever the range is not empty. */
  lemma UniformBounds(lo: real, hi: real, u: Unit)
    requires lo <= hi
    ensures lo <= Uniform(lo, hi, u) <= hi
  {
    var w := hi - lo;
    ShareBounds(u, w);
    assert Uniform(lo, hi, u) == lo + u * w;
  }

  /** A share u in [0, 1] of a non-negative amount w lies between 0 and w. */
  lemma ShareBounds(u: Unit, w: real)
    ensures w >= 0.0 ==> 0.0 <= u * w <= w
  {
    if w >= 0.0 {
      assert (1.0 - u) * w >= 0.0;
      assert u * w >= 0.0;
    }
  }

  datatype Vec3 = Vec3(x: real, y: real, z: real)

  function Plus(a: Vec3, b: Vec3): Vec3 {
    Vec3(a.x + b.x, a.y + b.y, a.z + b.z)
  }

  /**
   * A rotation as the scripts build it: Euler angles in degrees, composed left to right.
   * `ZeroQuaternion` is the all-zero default value of an unassigned quaternion field.
   */
  datatype Rotation = Euler(x: real, y: real, z: real) | Compose(first: Rotation, second: Rotation) | ZeroQuaternion

  datatype Pose = Pose(position: Vec3, rotation: Rotation)

  /** A zero position and the identity rotation. */
  const NeutralPose: Pose := Pose(Vec3(0.0, 0.0, 0.0), Euler(0.0, 0.0, 0.0))

  /** A material, known by its name. */
  datatype Material = Material(name: string)
}
