/** Point/vector primitives of the jello world: a point is an (x, y, z) triple of reals,
    used alike for positions, velocities and accelerations. Arithmetic is idealised to `real`. */
module Vectors {

  datatype Point = Point(x: real, y: real, z: real)

  const Origin := Point(0.0, 0.0, 0.0)

  /** pSUM(a, b, dest): dest = a + b, component by component. */
  function Add(a: Point, b: Point): (r: Point)
  {
    Point(a.x + b.x, a.y + b.y, a.z + b.z)
  }

  /** pMULTIPLY(src, s, dest): dest = src * s, component by component. */
  function Scale(a: Point, s: real): (r: Point)
  {
    Point(a.x * s, a.y * s, a.z * s)
  }
}
