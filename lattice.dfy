/** The 8x8x8 lattice of mass points. A C array `point p[8][8][8]` is laid out row-major in
    memory; the model keeps that layout and holds the lattice in a flat `array<Point>` of 512
    points, the point (i, j, k) at offset `Idx(i, j, k)`. `Grid` is the value such an array
    holds, written `a[..]`. */
module Lattice {
  import opened Vectors

  /** A lattice index, 0..7 in each dimension. */
  type Coord = i: int | 0 <= i < 8

  /** Number of points in the lattice. */
  const Cells := 512

  type Grid = g: seq<Point> | |g| == Cells witness seq(Cells, _ => Origin)

  /** Row-major offset of point (i, j, k): `&p[i][j][k] - &p[0][0][0]`. */
  function Idx(i: Coord, j: Coord, k: Coord): (n: nat)
    ensures n < Cells
  {
    64 * i + 8 * j + k
  }

  predicate Shaped(a: array<Point>)
  {
    a.Length == Cells
  }

  /** Point-wise G + s * H (the shape of every `pMULTIPLY` followed by `pSUM` in the integrators). */
  function Axpy(G: Grid, s: real, H: Grid): (g: Grid)
  {
    seq(Cells, (n: int) requires 0 <= n < Cells => Add(G[n], Scale(H[n], s)))
  }

  /** Point-wise H * s. */
  function Scaled(H: Grid, s: real): (g: Grid)
  {
    seq(Cells, (n: int) requires 0 <= n < Cells => Scale(H[n], s))
  }
}
