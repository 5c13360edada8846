/** Stand-alone vector algebra replacing the engine's Vector3/Vector2.
    Everything polynomial is defined exactly over the reals; the two
    operations that need square roots or trigonometry (normalisation and
    angle-axis rotation) are carried as function values in `Ops`, so every
    fact proved here holds whatever those operations compute. */
module Geometry {

  datatype Vec3 = Vec3(x: real, y: real, z: real)

  datatype Vec2 = Vec2(x: real, y: real)

  const Zero: Vec3 := Vec3(0.0, 0.0, 0.0)

  /** World up, (0, 1, 0). */
  const Up: Vec3 := Vec3(0.0, 1.0, 0.0)

  /** (1, 0, 0): Vector2.right widened to three components. */
  const Right: Vec3 := Vec3(1.0, 0.0, 0.0)

  function Add(a: Vec3, b: Vec3): Vec3 {
    Vec3(a.x + b.x, a.y + b.y, a.z + b.z)
  }

  function Sub(a: Vec3, b: Vec3): Vec3 {
    Vec3(a.x - b.x, a.y - b.y, a.z - b.z)
  }

  function Neg(a: Vec3): Vec3 {
    Vec3(-a.x, -a.y, -a.z)
  }

  /** `a * k` */
  function Scale(a: Vec3, k: real): Vec3 {
    Vec3(a.x * k, a.y * k, a.z * k)
  }

  /** `a / k`, component by component */
  function Div(a: Vec3, k: real): Vec3
    requires k != 0.0
  {
    Vec3(a.x / k, a.y / k, a.z / k)
  }

  function Dot(a: Vec3, b: Vec3): real {
    a.x * b.x + a.y * b.y + a.z * b.z
  }

  function Cross(a: Vec3, b: Vec3): (c: Vec3)
    ensures Dot(c, a) == 0.0 && Dot(c, b) == 0.0
  {
    Vec3(a.y * b.z - a.z * b.y, a.z * b.x - a.x * b.z, a.x * b.y - a.y * b.x)
  }

  /** Implicit Vector3 -> Vector2 conversion: drops z. */
  function ToVec2(a: Vec3): Vec2 {
    Vec2(a.x, a.y)
  }

  /** The geometry the model does not interpret: `normalize(v)` stands for
      `v.normalized` / `Vector3.Normalize(v)`, and `rotate(deg, axis, v)` for
      `Quaternion.AngleAxis(deg, axis) * v`. */
  datatype Ops = Ops(normalize: Vec3 -> Vec3, rotate: (real, Vec3, Vec3) -> Vec3)
}
