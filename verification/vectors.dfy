/** Three-component vectors of the game's math helpers, with float arithmetic taken as exact. */
module Vectors {
  datatype Vector3 = Vector3(x: real, y: real, z: real)

  const ONE: Vector3 := Vector3(1.0, 1.0, 1.0)
  const ZERO: Vector3 := Vector3(0.0, 0.0, 0.0)

  /** Component-wise product, as `composedScale.x *= scale.x` and so on. */
  function Scale(a: Vector3, b: Vector3): Vector3
  {
    Vector3(a.x * b.x, a.y * b.y, a.z * b.z)
  }
}
