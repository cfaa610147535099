/** Value types standing in for the engine's vectors, rotations and
    nullable references. Engine floats are modelled as `real`. */
module Engine {

  datatype Option<+T> = None | Some(value: T)

  /** A three-component vector (positions, scales, velocities). */
  datatype Vec3 = Vec3(x: real, y: real, z: real) {

    /** Component-wise multiplication by a scalar (`v * k`). */
    function Scaled(k: real): Vec3 {
      Vec3(x * k, y * k, z * k)
    }
  }

  const Zero: Vec3 := Vec3(0.0, 0.0, 0.0)

  /** A rotation, kept as its four quaternion components. No rotation
      arithmetic is modelled; poses are only copied and compared. */
  datatype Quat = Quat(x: real, y: real, z: real, w: real)

  const Identity: Quat := Quat(0.0, 0.0, 0.0, 1.0)

  /** Identifies a transform that another transform can be parented to. */
  type TransformId = nat
}
