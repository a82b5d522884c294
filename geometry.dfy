/** Values shared by the whole model: three-component rows of the per-atom
    arrays, widget positions, and an optional value. Coordinates are exact
    reals; the program's float64 rounding is not modelled. */
module Geometry {

  /** One row of an n-by-3 per-atom array, a cell row, or a scene position. */
  datatype Vec3 = Vec3(x: real, y: real, z: real)

  const Zero: Vec3 := Vec3(0.0, 0.0, 0.0)

  function Add(p: Vec3, q: Vec3): Vec3
  {
    Vec3(p.x + q.x, p.y + q.y, p.z + q.z)
  }

  /** `s * row` for a scalar `s`, as numpy broadcasts it. */
  function Scale(s: real, p: Vec3): Vec3
  {
    Vec3(s * p.x, s * p.y, s * p.z)
  }

  /** A position in the widget coordinates of the rendered label. */
  datatype Point = Point(x: real, y: real)

  datatype Option<T> = None | Some(value: T)

  function Min(a: int, b: int): int
  {
    if a <= b then a else b
  }
}
