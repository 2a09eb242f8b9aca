/** The neighbour guards of `computeAcceleration`: for lattice point (i, j, k) it reads the
    face-adjacent point in each direction only behind a guard (`i != 7` before `i + 1`,
    `i != 0` before `i - 1`, and likewise for j and k), so every index it reads stays in 0..7. */
module Neighbours {
  import opened Vectors
  import opened Lattice

  datatype Cell = Cell(i: int, j: int, k: int)

  predicate InLattice(c: Cell)
  {
    0 <= c.i <= 7 && 0 <= c.j <= 7 && 0 <= c.k <= 7
  }

  function Dist(a: int, b: int): nat
  {
    if a < b then b - a else a - b
  }

  /** Independent reference: n differs from c by one step along exactly one axis. */
  predicate FaceAdjacent(c: Cell, n: Cell)
  {
    Dist(c.i, n.i) + Dist(c.j, n.j) + Dist(c.k, n.k) == 1
  }

  /** 1 when a coordinate lies on a face of the cube (0 or 7), else 0. */
  function OnFace(x: int): nat
  {
    if x == 0 || x == 7 then 1 else 0
  }

  /** The neighbours `computeAcceleration` reads for point c, in the order of its six guarded
      blocks: i+1, i-1, j-1, j+1, k-1, k+1. Each is a face-adjacent point inside the lattice:
      six for an interior point, one fewer for each face the point lies on (and, by
      `FaceNeighboursComplete`, no face-adjacent point is missed). */
  function FaceNeighbours(c: Cell): (ns: seq<Cell>)
    requires InLattice(c)
    ensures forall n :: n in ns ==> InLattice(n) && FaceAdjacent(c, n)
    ensures |ns| == 6 - OnFace(c.i) - OnFace(c.j) - OnFace(c.k)
  {
    Guarded(c.i != 7, Cell(c.i + 1, c.j, c.k)) +
    Guarded(c.i != 0, Cell(c.i - 1, c.j, c.k)) +
    Guarded(c.j != 0, Cell(c.i, c.j - 1, c.k)) +
    Guarded(c.j != 7, Cell(c.i, c.j + 1, c.k)) +
    Guarded(c.k != 0, Cell(c.i, c.j, c.k - 1)) +
    Guarded(c.k != 7, Cell(c.i, c.j, c.k + 1))
  }

  /** Every face-adjacent point inside the lattice is among the neighbours read. */
  lemma FaceNeighboursComplete(c: Cell, n: Cell)
    requires InLattice(c) && InLattice(n) && FaceAdjacent(c, n)
    ensures n in FaceNeighbours(c)
  {
    var g1, g2, g3 := Guarded(c.i != 7, Cell(c.i + 1, c.j, c.k)), Guarded(c.i != 0, Cell(c.i - 1, c.j, c.k)), Guarded(c.j != 0, Cell(c.i, c.j - 1, c.k));
    var g4, g5, g6 := Guarded(c.j != 7, Cell(c.i, c.j + 1, c.k)), Guarded(c.k != 0, Cell(c.i, c.j, c.k - 1)), Guarded(c.k != 7, Cell(c.i, c.j, c.k + 1));
    assert FaceNeighbours(c) == g1 + g2 + g3 + g4 + g5 + g6;
    if n.i == c.i + 1 {
      assert n in g1;
    } else if n.i == c.i - 1 {
      assert n in g2;
    } else if n.j == c.j - 1 {
      assert n in g3;
    } else if n.j == c.j + 1 {
      assert n in g4;
    } else if n.k == c.k - 1 {
      assert n in g5;
    } else {
      assert n in g6;
    }
  }

  /** The cell n when its guard holds, nothing otherwise. */
  function Guarded(guard: bool, n: Cell): seq<Cell>
  {
    if guard then [n] else []
  }

  /** ns[m] is the position of cells[m], for every m. */
  ghost predicate PositionsOf(p: array<Point>, cells: seq<Cell>, ns: seq<Point>)
    requires Shaped(p)
    reads p
  {
    |ns| == |cells| &&
    forall m :: 0 <= m < |ns| ==>
      InLattice(cells[m]) && ns[m] == p[Idx(cells[m].i, cells[m].j, cells[m].k)]
  }

  lemma PositionsExtend(p: array<Point>, cells: seq<Cell>, ns: seq<Point>, guard: bool, n: Cell)
    requires Shaped(p) && PositionsOf(p, cells, ns)
    requires guard ==> InLattice(n)
    ensures PositionsOf(p, cells + Guarded(guard, n), if guard then ns + [p[Idx(n.i, n.j, n.k)]] else ns)
  {
    if !guard {
      assert cells + Guarded(guard, n) == cells;
    }
  }

  /** The neighbour positions read for point (i, j, k), each behind its guard. `Idx` takes
      indices in 0..7 only, so the guards are what keeps every index in range; in the flat
      layout an unguarded k + 1 at k = 7 would silently read the next row. */
  method ReadFaceNeighbours(p: array<Point>, i: int, j: int, k: int) returns (ns: seq<Point>)
    requires Shaped(p)
    requires InLattice(Cell(i, j, k))
    ensures PositionsOf(p, FaceNeighbours(Cell(i, j, k)), ns)
  {
    ghost var g1, g2, g3 := Guarded(i != 7, Cell(i + 1, j, k)), Guarded(i != 0, Cell(i - 1, j, k)), Guarded(j != 0, Cell(i, j - 1, k));
    ghost var g4, g5, g6 := Guarded(j != 7, Cell(i, j + 1, k)), Guarded(k != 0, Cell(i, j, k - 1)), Guarded(k != 7, Cell(i, j, k + 1));
    assert FaceNeighbours(Cell(i, j, k)) == g1 + g2 + g3 + g4 + g5 + g6;
    ns := [];
    if i != 7 {
      ns := ns + [p[Idx(i + 1, j, k)]];
    }
    assert PositionsOf(p, g1, ns);
    PositionsExtend(p, g1, ns, i != 0, Cell(i - 1, j, k));
    if i != 0 {
      ns := ns + [p[Idx(i - 1, j, k)]];
    }
    PositionsExtend(p, g1 + g2, ns, j != 0, Cell(i, j - 1, k));
    if j != 0 {
      ns := ns + [p[Idx(i, j - 1, k)]];
    }
    PositionsExtend(p, g1 + g2 + g3, ns, j != 7, Cell(i, j + 1, k));
    if j != 7 {
      ns := ns + [p[Idx(i, j + 1, k)]];
    }
    PositionsExtend(p, g1 + g2 + g3 + g4, ns, k != 0, Cell(i, j, k - 1));
    if k != 0 {
      ns := ns + [p[Idx(i, j, k - 1)]];
    }
    PositionsExtend(p, g1 + g2 + g3 + g4 + g5, ns, k != 7, Cell(i, j, k + 1));
    if k != 7 {
      ns := ns + [p[Idx(i, j, k + 1)]];
    }
  }
}
