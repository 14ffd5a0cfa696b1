/**
 * The vector, matrix and quaternion values a transformable object stores.
 *
 * Vectors are triples of reals (the source uses doubles; rounding is not
 * modelled). The quaternion operations that need trigonometry, square roots
 * or a basis construction are not defined here: an object receives them as a
 * `QuaternionMath` record of functions, so every property proved about the
 * object holds whatever those operations compute.
 */
module Math3D {

  datatype Vector3 = Vector3(x: real, y: real, z: real)

  /** The cardinal axes (`Vector3.Axis`). */
  datatype Axis = X | Y | Z

  const Zero: Vector3 := Vector3(0.0, 0.0, 0.0)

  /** The unit vector along a cardinal axis (`Vector3.getAxisVector`). */
  function AxisVector(axis: Axis): Vector3
  {
    match axis
    case X => Vector3(1.0, 0.0, 0.0)
    case Y => Vector3(0.0, 1.0, 0.0)
    case Z => Vector3(0.0, 0.0, 1.0)
  }

  /** Component-wise `a - b` (`Vector3.subtractAndSet(a, b)`). */
  function Subtract(a: Vector3, b: Vector3): Vector3
  {
    Vector3(a.x - b.x, a.y - b.y, a.z - b.z)
  }

  /** A 4x4 matrix as its sixteen entries. */
  datatype Matrix4 = Matrix4(entries: seq<real>)

  datatype Quaternion = Quaternion(w: real, x: real, y: real, z: real)

  /** The identity rotation (`Quaternion.identity()`). */
  const Identity: Quaternion := Quaternion(1.0, 0.0, 0.0, 0.0)

  /**
   * The quaternion library's operations, left uninterpreted.
   *   multiply(q, r)            the value `q` holds after `q.multiply(r)`
   *   fromAngleAxis(axis, deg)  rotation of `deg` degrees about `axis`
   *   fromMatrix(m)             rotation part of a matrix
   *   fromEuler(yaw, pitch, roll)
   *   lookAt(direction, up, isCamera)  orientation built from a facing direction
   *   getRoll / getYaw / getPitch      Euler extraction (`getRoll(false)` etc.)
   */
  datatype QuaternionMath = QuaternionMath(
    multiply: (Quaternion, Quaternion) -> Quaternion,
    fromAngleAxis: (Vector3, real) -> Quaternion,
    fromMatrix: Matrix4 -> Quaternion,
    fromEuler: (real, real, real) -> Quaternion,
    lookAt: (Vector3, Vector3, bool) -> Quaternion,
    getRoll: Quaternion -> real,
    getYaw: Quaternion -> real,
    getPitch: Quaternion -> real)
}

/**
 * The scene graph a transformable object reports its changes to. Only the
 * identity of a node matters here: its indexing is not part of this model.
 */
module SceneGraph {

  /** A node of the scene graph (`IGraphNode`), by reference. */
  class GraphNode {
  }
}
