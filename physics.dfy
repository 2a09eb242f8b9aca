/** The time-step integrators of the jello cube. `Euler` and `RK4` advance the 8x8x8 lattice of
    positions `p` and velocities `v` in place by one step of length `dt`. The acceleration that
    `computeAcceleration` is meant to produce is a parameter: an arbitrary function of the
    world's coefficients and of the positions and velocities it is evaluated at. */
module Physics {
  import opened Vectors
  import opened Lattice

  /** The coefficients of a world that an acceleration may depend on. */
  datatype Coefficients = Coefficients(kElastic: real, dElastic: real, kCollision: real, dCollision: real, mass: real)

  /** Positions and velocities of the whole lattice. */
  datatype State = State(p: Grid, v: Grid)

  /** What `computeAcceleration(jello, a)` leaves in `a`, given the world it is called on. */
  type Acceleration = (Coefficients, Grid, Grid) -> Grid

  /** The simulated world (`struct world`). The inclined plane and the force field are not part
      of this model. */
  class World {
    var integrator: string
    var dt: real
    var n: int
    var kElastic: real
    var dElastic: real
    var kCollision: real
    var dCollision: real
    var mass: real
    var p: array<Point>
    var v: array<Point>

    ghost predicate Valid()
      reads this
    {
      Shaped(p) && Shaped(v) && p != v
    }

    function Coeffs(): Coefficients
      reads this
    {
      Coefficients(kElastic, dElastic, kCollision, dCollision, mass)
    }

    /** The positions and velocities held in `p` and `v`. */
    function Phase(): State
      requires Valid()
      reads this, p, v
    {
      State(p[..], v[..])
    }

    /** The `struct world` that jello.cpp:39 declares, holding the values `readWorld` fills in:
        the integrator's name, the time step, `n`, the coefficients and the positions P and
        velocities V of the lattice. */
    constructor(integrator: string, dt: real, n: int, c: Coefficients, P: Grid, V: Grid)
      ensures Valid() && fresh(p) && fresh(v)
      ensures this.integrator == integrator && this.dt == dt && this.n == n && Coeffs() == c
      ensures Phase() == State(P, V)
    {
      this.integrator, this.dt, this.n := integrator, dt, n;
      kElastic, dElastic, kCollision, dCollision, mass := c.kElastic, c.dElastic, c.kCollision, c.dCollision, c.mass;
      p := new Point[Cells](m requires 0 <= m < Cells => P[m]);
      v := new Point[Cells](m requires 0 <= m < Cells => V[m]);
    }

    /** `buffer = *jello`: a copy of every field, with arrays of its own. */
    constructor Copy(w: World)
      requires w.Valid()
      ensures Valid() && fresh(p) && fresh(v)
      ensures integrator == w.integrator && dt == w.dt && n == w.n && Coeffs() == w.Coeffs()
      ensures Phase() == w.Phase()
    {
      integrator, dt, n := w.integrator, w.dt, w.n;
      kElastic, dElastic, kCollision, dCollision, mass := w.kElastic, w.dElastic, w.kCollision, w.dCollision, w.mass;
      var wp, wv := w.p, w.v;
      p := new Point[Cells](n requires 0 <= n < Cells reads wp => wp[n]);
      v := new Point[Cells](n requires 0 <= n < Cells reads wv => wv[n]);
    }
  }

  // ---------------------------------------------------------------------------------------
  // Specification of one step, on values
  // ---------------------------------------------------------------------------------------

  /** One Euler step: every position moves by dt times its pre-step velocity, every velocity by
      dt times the acceleration evaluated once at the pre-step state. */
  function EulerStep(c: Coefficients, accel: Acceleration, dt: real, s: State): State
  {
    State(Axpy(s.p, dt, s.v), Axpy(s.v, dt, accel(c, s.p, s.v)))
  }

  /** A stage derivative of RK4: (dt * velocity, dt * acceleration) at state t. */
  function Derivative(c: Coefficients, accel: Acceleration, dt: real, t: State): State
  {
    State(Scaled(t.v, dt), Scaled(accel(c, t.p, t.v), dt))
  }

  /** The trial state s + h * F, in both channels. */
  function Trial(s: State, h: real, F: State): State
  {
    State(Axpy(s.p, h, F.p), Axpy(s.v, h, F.v))
  }

  /** The weighted combination of four stage derivatives, in the order the code sums them:
      ((2 * f2 + 2 * f3) + f1 + f4) * (1/6). It is the RK4 average with weights 1, 2, 2, 1. */
  function Weighted(f1: Point, f2: Point, f3: Point, f4: Point): (r: Point)
    ensures r == Point((f1.x + 2.0 * f2.x + 2.0 * f3.x + f4.x) / 6.0,
                       (f1.y + 2.0 * f2.y + 2.0 * f3.y + f4.y) / 6.0,
                       (f1.z + 2.0 * f2.z + 2.0 * f3.z + f4.z) / 6.0)
  {
    Scale(Add(Add(Add(Scale(f2, 2.0), Scale(f3, 2.0)), f1), f4), 1.0 / 6.0)
  }

  /** X + Weighted(F1, F2, F3, F4), point by point. */
  function Combination(X: Grid, F1: Grid, F2: Grid, F3: Grid, F4: Grid): (g: Grid)
  {
    seq(Cells, (n: int) requires 0 <= n < Cells => Add(Weighted(F1[n], F2[n], F3[n], F4[n]), X[n]))
  }

  /** The four stage derivatives of the Runge-Kutta scheme in this code. The first two trial
      states are half steps; `h3` is the step of the third trial state. */
  function Stages(c: Coefficients, accel: Acceleration, dt: real, s: State, h3: real): seq<State>
  {
    var d1 := Derivative(c, accel, dt, s);
    var d2 := Derivative(c, accel, dt, Trial(s, 0.5, d1));
    var d3 := Derivative(c, accel, dt, Trial(s, 0.5, d2));
    var d4 := Derivative(c, accel, dt, Trial(s, h3, d3));
    [d1, d2, d3, d4]
  }

  function Rk4Scheme(c: Coefficients, accel: Acceleration, dt: real, s: State, h3: real): State
  {
    var d := Stages(c, accel, dt, s, h3);
    State(Combination(s.p, d[0].p, d[1].p, d[2].p, d[3].p),
          Combination(s.v, d[0].v, d[1].v, d[2].v, d[3].v))
  }

  /** The step `RK4` takes as written: its third trial state is also a half step. */
  function Rk4Step(c: Coefficients, accel: Acceleration, dt: real, s: State): State
  {
    Rk4Scheme(c, accel, dt, s, 0.5)
  }

  /** Classical fourth-order Runge-Kutta, whose third trial state is a full step. */
  function ClassicalRk4Step(c: Coefficients, accel: Acceleration, dt: real, s: State): State
  {
    Rk4Scheme(c, accel, dt, s, 1.0)
  }

  // ---------------------------------------------------------------------------------------
  // The integrators, in place
  // ---------------------------------------------------------------------------------------

  /** One Euler step on the world (physics.cpp `Euler`). The acceleration is computed once, from
      the state before the step; then each point's position is advanced with its old velocity
      before that point's velocity is advanced. Only the contents of `p` and `v` change. */
  method Euler(jello: World, accel: Acceleration)
    requires jello.Valid()
    modifies jello.p, jello.v
    ensures unchanged(jello)
    ensures jello.Phase() == EulerStep(jello.Coeffs(), accel, jello.dt, old(jello.Phase()))
  {
    var p, v, dt := jello.p, jello.v, jello.dt;
    var a := accel(jello.Coeffs(), p[..], v[..]);
    ghost var P, V := p[..], v[..];
    for i := 0 to 8
      invariant forall n :: 0 <= n < 64 * i ==>
        p[n] == Add(P[n], Scale(V[n], dt)) && v[n] == Add(V[n], Scale(a[n], dt))
      invariant forall n :: 64 * i <= n < Cells ==> p[n] == P[n] && v[n] == V[n]
    {
      for j := 0 to 8
        invariant forall n :: 0 <= n < 64 * i + 8 * j ==>
          p[n] == Add(P[n], Scale(V[n], dt)) && v[n] == Add(V[n], Scale(a[n], dt))
        invariant forall n :: 64 * i + 8 * j <= n < Cells ==> p[n] == P[n] && v[n] == V[n]
      {
        for k := 0 to 8
          invariant forall n :: 0 <= n < 64 * i + 8 * j + k ==>
            p[n] == Add(P[n], Scale(V[n], dt)) && v[n] == Add(V[n], Scale(a[n], dt))
          invariant forall n :: 64 * i + 8 * j + k <= n < Cells ==> p[n] == P[n] && v[n] == V[n]
        {
          var c := Idx(i, j, k);
          p[c] := Add(p[c], Scale(v[c], dt));
          v[c] := Add(v[c], Scale(a[c], dt));
        }
      }
    }
  }

  /** Loop state of a stage loop: the points before offset m hold their stage derivative and
      their trial state. */
  ghost predicate StageDone(m: int, p: array<Point>, v: array<Point>, Fp: array<Point>, Fv: array<Point>,
                            bp: array<Point>, bv: array<Point>, V0: Grid, a: Grid, dt: real, h: real)
    requires Shaped(p) && Shaped(v) && Shaped(Fp) && Shaped(Fv) && Shaped(bp) && Shaped(bv)
    reads p, v, Fp, Fv, bp, bv
  {
    forall n :: 0 <= n < m && n < Cells ==>
      Fp[n] == Scale(V0[n], dt) && Fv[n] == Scale(a[n], dt) &&
      bp[n] == Add(p[n], Scale(Fp[n], h)) && bv[n] == Add(v[n], Scale(Fv[n], h))
  }

  /** The points of `vel` from offset m on still hold V0. */
  ghost predicate Untouched(m: int, vel: array<Point>, V0: Grid)
    requires Shaped(vel)
    reads vel
  {
    forall n :: 0 <= m <= n < Cells ==> vel[n] == V0[n]
  }

  /** The body of a stage loop at one point c, in the source's statement order: the point's
      velocity is read before that point of `bv` is overwritten, and no other point of the
      written arrays changes. */
  method StageCell(p: array<Point>, v: array<Point>, vel: array<Point>, a: Grid, dt: real, h: real,
                   Fp: array<Point>, Fv: array<Point>, bp: array<Point>, bv: array<Point>, c: nat)
    requires Shaped(p) && Shaped(v) && Shaped(vel) && Shaped(Fp) && Shaped(Fv) && Shaped(bp) && Shaped(bv)
    requires {p, v} !! {Fp, Fv, bp, bv} && {Fp, Fv} !! {bp, bv} && Fp != Fv && bp != bv
    requires vel !in {Fp, Fv, bp}
    requires c < Cells
    modifies Fp, Fv, bp, bv
    ensures Fp[c] == Scale(old(vel[c]), dt) && Fv[c] == Scale(a[c], dt)
    ensures bp[c] == Add(p[c], Scale(Fp[c], h)) && bv[c] == Add(v[c], Scale(Fv[c], h))
    ensures forall n :: 0 <= n < Cells && n != c ==>
      Fp[n] == old(Fp[n]) && Fv[n] == old(Fv[n]) && bp[n] == old(bp[n]) && bv[n] == old(bv[n])
  {
    Fp[c] := Scale(vel[c], dt);
    Fv[c] := Scale(a[c], dt);
    bp[c] := Scale(Fp[c], h);
    bv[c] := Scale(Fv[c], h);
    bp[c] := Add(p[c], bp[c]);
    bv[c] := Add(v[c], bv[c]);
  }

  /** The innermost loop of a stage (over k) at row (i, j). */
  method StageRow(p: array<Point>, v: array<Point>, vel: array<Point>, a: Grid, dt: real, h: real,
                  Fp: array<Point>, Fv: array<Point>, bp: array<Point>, bv: array<Point>,
                  ghost V0: Grid, i: Coord, j: Coord)
    requires Shaped(p) && Shaped(v) && Shaped(Fp) && Shaped(Fv) && Shaped(bp) && Shaped(bv)
    requires vel == v || vel == bv
    requires {p, v} !! {Fp, Fv, bp, bv} && {Fp, Fv} !! {bp, bv} && Fp != Fv && bp != bv
    requires StageDone(64 * i + 8 * j, p, v, Fp, Fv, bp, bv, V0, a, dt, h) && Untouched(64 * i + 8 * j, vel, V0)
    modifies Fp, Fv, bp, bv
    ensures StageDone(64 * i + 8 * j + 8, p, v, Fp, Fv, bp, bv, V0, a, dt, h) && Untouched(64 * i + 8 * j + 8, vel, V0)
  {
    for k := 0 to 8
      invariant StageDone(64 * i + 8 * j + k, p, v, Fp, Fv, bp, bv, V0, a, dt, h)
      invariant Untouched(64 * i + 8 * j + k, vel, V0)
    {
      StageCell(p, v, vel, a, dt, h, Fp, Fv, bp, bv, Idx(i, j, k));
    }
  }

  /** One of the first three stage loops of `RK4` (physics.cpp:165-179, 183-195, 199-211):
      Fp = dt * vel and Fv = dt * a, then the trial state buffer = (p, v) + h * (Fp, Fv), where
      the code writes h = 0.5 in all three loops.
      `vel` is `jello->v` in the first loop and `buffer.v` in the other two. */
  method Stage(p: array<Point>, v: array<Point>, vel: array<Point>, a: Grid, dt: real, h: real,
               Fp: array<Point>, Fv: array<Point>, bp: array<Point>, bv: array<Point>)
    requires Shaped(p) && Shaped(v) && Shaped(Fp) && Shaped(Fv) && Shaped(bp) && Shaped(bv)
    requires vel == v || vel == bv
    requires {p, v} !! {Fp, Fv, bp, bv} && {Fp, Fv} !! {bp, bv} && Fp != Fv && bp != bv
    modifies Fp, Fv, bp, bv
    ensures Fp[..] == Scaled(old(vel[..]), dt) && Fv[..] == Scaled(a, dt)
    ensures bp[..] == Axpy(p[..], h, Fp[..])
    ensures bv[..] == Axpy(v[..], h, Fv[..])
  {
    ghost var V0 := vel[..];
    for i := 0 to 8
      invariant StageDone(64 * i, p, v, Fp, Fv, bp, bv, V0, a, dt, h) && Untouched(64 * i, vel, V0)
    {
      for j := 0 to 8
        invariant StageDone(64 * i + 8 * j, p, v, Fp, Fv, bp, bv, V0, a, dt, h) && Untouched(64 * i + 8 * j, vel, V0)
      {
        StageRow(p, v, vel, a, dt, h, Fp, Fv, bp, bv, V0, i, j);
      }
    }
  }

  /** The body of the last `RK4` loop at one point c, in the source's statement order. `bp` and
      `bv` serve as scratch space; no other point of the written arrays changes. */
  method CombineCell(p: array<Point>, v: array<Point>, a: Grid, dt: real,
                     F1p: array<Point>, F1v: array<Point>, F2p: array<Point>, F2v: array<Point>,
                     F3p: array<Point>, F3v: array<Point>, F4p: array<Point>, F4v: array<Point>,
                     bp: array<Point>, bv: array<Point>, c: nat)
    requires Shaped(p) && Shaped(v) && Shaped(F1p) && Shaped(F1v) && Shaped(F2p) && Shaped(F2v)
    requires Shaped(F3p) && Shaped(F3v) && Shaped(F4p) && Shaped(F4v) && Shaped(bp) && Shaped(bv)
    requires {F1p, F1v, F2p, F2v, F3p, F3v} !! {p, v, F4p, F4v, bp, bv}
    requires {p, v} !! {F4p, F4v, bp, bv} && {F4p, F4v} !! {bp, bv} && p != v && F4p != F4v && bp != bv
    requires c < Cells
    modifies p, v, F4p, F4v, bp, bv
    ensures F4p[c] == Scale(old(bv[c]), dt) && F4v[c] == Scale(a[c], dt)
    ensures p[c] == Add(Weighted(F1p[c], F2p[c], F3p[c], F4p[c]), old(p[c]))
    ensures v[c] == Add(Weighted(F1v[c], F2v[c], F3v[c], F4v[c]), old(v[c]))
    ensures forall n :: 0 <= n < Cells && n != c ==>
      p[n] == old(p[n]) && v[n] == old(v[n]) && F4p[n] == old(F4p[n]) && F4v[n] == old(F4v[n]) &&
      bp[n] == old(bp[n]) && bv[n] == old(bv[n])
  {
    F4p[c] := Scale(bv[c], dt);
    F4v[c] := Scale(a[c], dt);

    bp[c] := Scale(F2p[c], 2.0);
    bv[c] := Scale(F3p[c], 2.0);
    bp[c] := Add(bp[c], bv[c]);
    bp[c] := Add(bp[c], F1p[c]);
    bp[c] := Add(bp[c], F4p[c]);
    bp[c] := Scale(bp[c], 1.0 / 6.0);
    p[c] := Add(bp[c], p[c]);

    bp[c] := Scale(F2v[c], 2.0);
    bv[c] := Scale(F3v[c], 2.0);
    bp[c] := Add(bp[c], bv[c]);
    bp[c] := Add(bp[c], F1v[c]);
    bp[c] := Add(bp[c], F4v[c]);
    bp[c] := Scale(bp[c], 1.0 / 6.0);
    v[c] := Add(bp[c], v[c]);
  }

  /** Loop state of the last `RK4` loop: the points before offset m hold the fourth derivative
      and their new position and velocity; the others still hold the old position, velocity
      and trial velocity (P, V and T). */
  ghost predicate CombineProgress(m: int, p: array<Point>, v: array<Point>,
                                  F1p: array<Point>, F1v: array<Point>, F2p: array<Point>, F2v: array<Point>,
                                  F3p: array<Point>, F3v: array<Point>, F4p: array<Point>, F4v: array<Point>,
                                  bv: array<Point>, P: Grid, V: Grid, T: Grid, a: Grid, dt: real)
    requires Shaped(p) && Shaped(v) && Shaped(F1p) && Shaped(F1v) && Shaped(F2p) && Shaped(F2v)
    requires Shaped(F3p) && Shaped(F3v) && Shaped(F4p) && Shaped(F4v) && Shaped(bv)
    reads p, v, F1p, F1v, F2p, F2v, F3p, F3v, F4p, F4v, bv
  {
    forall n :: 0 <= n < Cells ==>
      if n < m then
        F4p[n] == Scale(T[n], dt) && F4v[n] == Scale(a[n], dt) &&
        p[n] == Add(Weighted(F1p[n], F2p[n], F3p[n], F4p[n]), P[n]) &&
        v[n] == Add(Weighted(F1v[n], F2v[n], F3v[n], F4v[n]), V[n])
      else
        p[n] == P[n] && v[n] == V[n] && bv[n] == T[n]
  }

  /** The innermost loop of the last `RK4` loop (over k) at row (i, j). */
  method CombineRow(p: array<Point>, v: array<Point>, a: Grid, dt: real,
                    F1p: array<Point>, F1v: array<Point>, F2p: array<Point>, F2v: array<Point>,
                    F3p: array<Point>, F3v: array<Point>, F4p: array<Point>, F4v: array<Point>,
                    bp: array<Point>, bv: array<Point>, ghost P: Grid, ghost V: Grid, ghost T: Grid,
                    i: Coord, j: Coord)
    requires Shaped(p) && Shaped(v) && Shaped(F1p) && Shaped(F1v) && Shaped(F2p) && Shaped(F2v)
    requires Shaped(F3p) && Shaped(F3v) && Shaped(F4p) && Shaped(F4v) && Shaped(bp) && Shaped(bv)
    requires {F1p, F1v, F2p, F2v, F3p, F3v} !! {p, v, F4p, F4v, bp, bv}
    requires {p, v} !! {F4p, F4v, bp, bv} && {F4p, F4v} !! {bp, bv} && p != v && F4p != F4v && bp != bv
    requires CombineProgress(64 * i + 8 * j, p, v, F1p, F1v, F2p, F2v, F3p, F3v, F4p, F4v, bv, P, V, T, a, dt)
    modifies p, v, F4p, F4v, bp, bv
    ensures CombineProgress(64 * i + 8 * j + 8, p, v, F1p, F1v, F2p, F2v, F3p, F3v, F4p, F4v, bv, P, V, T, a, dt)
  {
    for k := 0 to 8
      invariant CombineProgress(64 * i + 8 * j + k, p, v, F1p, F1v, F2p, F2v, F3p, F3v, F4p, F4v, bv, P, V, T, a, dt)
    {
      CombineCell(p, v, a, dt, F1p, F1v, F2p, F2v, F3p, F3v, F4p, F4v, bp, bv, Idx(i, j, k));
    }
  }

  /** The last loop of `RK4` (physics.cpp:216-240): F4p = dt * buffer.v and F4v = dt * a, then
      p += (2 F2p + 2 F3p + F1p + F4p) / 6 and v += (2 F2v + 2 F3v + F1v + F4v) / 6, using the
      buffer arrays as scratch space. */
  method Combine(p: array<Point>, v: array<Point>, a: Grid, dt: real,
                 F1p: array<Point>, F1v: array<Point>, F2p: array<Point>, F2v: array<Point>,
                 F3p: array<Point>, F3v: array<Point>, F4p: array<Point>, F4v: array<Point>,
                 bp: array<Point>, bv: array<Point>)
    requires Shaped(p) && Shaped(v) && Shaped(F1p) && Shaped(F1v) && Shaped(F2p) && Shaped(F2v)
    requires Shaped(F3p) && Shaped(F3v) && Shaped(F4p) && Shaped(F4v) && Shaped(bp) && Shaped(bv)
    requires {F1p, F1v, F2p, F2v, F3p, F3v} !! {p, v, F4p, F4v, bp, bv}
    requires {p, v} !! {F4p, F4v, bp, bv} && {F4p, F4v} !! {bp, bv} && p != v && F4p != F4v && bp != bv
    modifies p, v, F4p, F4v, bp, bv
    ensures F4p[..] == Scaled(old(bv[..]), dt) && F4v[..] == Scaled(a, dt)
    ensures p[..] == Combination(old(p[..]), old(F1p[..]), old(F2p[..]), old(F3p[..]), F4p[..])
    ensures v[..] == Combination(old(v[..]), old(F1v[..]), old(F2v[..]), old(F3v[..]), F4v[..])
  {
    ghost var P, V, T := p[..], v[..], bv[..];
    for i := 0 to 8
      invariant CombineProgress(64 * i, p, v, F1p, F1v, F2p, F2v, F3p, F3v, F4p, F4v, bv, P, V, T, a, dt)
    {
      for j := 0 to 8
        invariant CombineProgress(64 * i + 8 * j, p, v, F1p, F1v, F2p, F2v, F3p, F3v, F4p, F4v, bv, P, V, T, a, dt)
      {
        CombineRow(p, v, a, dt, F1p, F1v, F2p, F2v, F3p, F3v, F4p, F4v, bp, bv, P, V, T, i, j);
      }
    }
  }

  /** A call `computeAcceleration` at the trial state (tp, tv) followed by one stage loop: the
      stage derivative at that trial state, and the next trial state from (p, v). (tp, tv) is
      the world itself in the first stage and the buffer in the others. */
  method DerivativeStage(c: Coefficients, accel: Acceleration, dt: real, h: real,
                         p: array<Point>, v: array<Point>, tp: array<Point>, tv: array<Point>,
                         Fp: array<Point>, Fv: array<Point>, bp: array<Point>, bv: array<Point>)
    requires Shaped(p) && Shaped(v) && Shaped(Fp) && Shaped(Fv) && Shaped(bp) && Shaped(bv)
    requires (tp == p && tv == v) || (tp == bp && tv == bv)
    requires {p, v} !! {Fp, Fv, bp, bv} && {Fp, Fv} !! {bp, bv} && Fp != Fv && bp != bv
    modifies Fp, Fv, bp, bv
    ensures State(Fp[..], Fv[..]) == Derivative(c, accel, dt, old(State(tp[..], tv[..])))
    ensures State(bp[..], bv[..]) == Trial(State(p[..], v[..]), h, State(Fp[..], Fv[..]))
  {
    var a := accel(c, tp[..], tv[..]);
    Stage(p, v, tv, a, dt, h, Fp, Fv, bp, bv);
  }

  /** A call of `computeAcceleration` at the third trial state followed by the last loop of
      `RK4`: the fourth stage derivative, and the new state. */
  method FinalStage(c: Coefficients, accel: Acceleration, dt: real, p: array<Point>, v: array<Point>,
                    F1p: array<Point>, F1v: array<Point>, F2p: array<Point>, F2v: array<Point>,
                    F3p: array<Point>, F3v: array<Point>, F4p: array<Point>, F4v: array<Point>,
                    bp: array<Point>, bv: array<Point>)
    requires Shaped(p) && Shaped(v) && Shaped(F1p) && Shaped(F1v) && Shaped(F2p) && Shaped(F2v)
    requires Shaped(F3p) && Shaped(F3v) && Shaped(F4p) && Shaped(F4v) && Shaped(bp) && Shaped(bv)
    requires {F1p, F1v, F2p, F2v, F3p, F3v} !! {p, v, F4p, F4v, bp, bv}
    requires {p, v} !! {F4p, F4v, bp, bv} && {F4p, F4v} !! {bp, bv} && p != v && F4p != F4v && bp != bv
    modifies p, v, F4p, F4v, bp, bv
    ensures State(F4p[..], F4v[..]) == Derivative(c, accel, dt, old(State(bp[..], bv[..])))
    ensures p[..] == Combination(old(p[..]), old(F1p[..]), old(F2p[..]), old(F3p[..]), F4p[..])
    ensures v[..] == Combination(old(v[..]), old(F1v[..]), old(F2v[..]), old(F3v[..]), F4v[..])
  {
    var a := accel(c, bp[..], bv[..]);
    Combine(p, v, a, dt, F1p, F1v, F2p, F2v, F3p, F3v, F4p, F4v, bp, bv);
  }

  /** The first three stages of `RK4` (physics.cpp:163-211): the stage derivatives d1, d2 and
      d3 of the scheme at (p, v), and the third trial state left in (bp, bv). */
  method TrialStages(c: Coefficients, accel: Acceleration, dt: real, h3: real,
                     p: array<Point>, v: array<Point>, bp: array<Point>, bv: array<Point>,
                     F1p: array<Point>, F1v: array<Point>, F2p: array<Point>, F2v: array<Point>,
                     F3p: array<Point>, F3v: array<Point>)
    requires Shaped(p) && Shaped(v) && Shaped(bp) && Shaped(bv)
    requires Shaped(F1p) && Shaped(F1v) && Shaped(F2p) && Shaped(F2v) && Shaped(F3p) && Shaped(F3v)
    requires {p, v} !! {bp, bv} && p != v && bp != bv
    requires {F1p, F1v, F2p, F2v, F3p, F3v} !! {p, v, bp, bv}
    requires F1p != F1v && F2p != F2v && F3p != F3v
    requires {F1p, F1v} !! {F2p, F2v, F3p, F3v} && {F2p, F2v} !! {F3p, F3v}
    modifies bp, bv, F1p, F1v, F2p, F2v, F3p, F3v
    ensures var d := Stages(c, accel, dt, State(p[..], v[..]), h3);
      State(F1p[..], F1v[..]) == d[0] && State(F2p[..], F2v[..]) == d[1] && State(F3p[..], F3v[..]) == d[2] &&
      State(bp[..], bv[..]) == Trial(State(p[..], v[..]), h3, d[2])
  {
    ghost var d := Stages(c, accel, dt, State(p[..], v[..]), h3);
    DerivativeStage(c, accel, dt, 0.5, p, v, p, v, F1p, F1v, bp, bv);
    assert State(F1p[..], F1v[..]) == d[0];
    DerivativeStage(c, accel, dt, 0.5, p, v, bp, bv, F2p, F2v, bp, bv);
    assert State(F2p[..], F2v[..]) == d[1];
    DerivativeStage(c, accel, dt, h3, p, v, bp, bv, F3p, F3v, bp, bv);
  }

  /** The body of `RK4` after the copy into `buffer` (physics.cpp:163-240), with (bp, bv) the
      arrays of `buffer`: the stage derivatives live in arrays of their own, and the result is
      one step of the scheme whose third trial step is h3 (0.5 as written). */
  method Rk4Stages(c: Coefficients, accel: Acceleration, dt: real, h3: real,
                   p: array<Point>, v: array<Point>, bp: array<Point>, bv: array<Point>)
    requires Shaped(p) && Shaped(v) && Shaped(bp) && Shaped(bv)
    requires {p, v} !! {bp, bv} && p != v && bp != bv
    modifies p, v, bp, bv
    ensures State(p[..], v[..]) == Rk4Scheme(c, accel, dt, old(State(p[..], v[..])), h3)
  {
    var F1p, F1v, F2p, F2v, F3p, F3v, F4p, F4v :=
      new Point[Cells], new Point[Cells], new Point[Cells], new Point[Cells],
      new Point[Cells], new Point[Cells], new Point[Cells], new Point[Cells];
    ghost var d := Stages(c, accel, dt, State(p[..], v[..]), h3);
    TrialStages(c, accel, dt, h3, p, v, bp, bv, F1p, F1v, F2p, F2v, F3p, F3v);
    FinalStage(c, accel, dt, p, v, F1p, F1v, F2p, F2v, F3p, F3v, F4p, F4v, bp, bv);
    assert State(F4p[..], F4v[..]) == d[3];
  }

  /** One RK4 step on the world (physics.cpp `RK4`). `buffer` is a copy of the world whose
      arrays hold each trial state in turn; the acceleration is evaluated at the world and then
      at each trial state, always with the world's coefficients. The result is `Rk4Step`, the
      scheme as written, whose third trial state is a half step. Only the contents of `p` and
      `v` change. */
  method RK4(jello: World, accel: Acceleration)
    requires jello.Valid()
    modifies jello.p, jello.v
    ensures unchanged(jello)
    ensures jello.Phase() == Rk4Step(jello.Coeffs(), accel, jello.dt, old(jello.Phase()))
  {
    var buffer := new World.Copy(jello);
    Rk4Stages(buffer.Coeffs(), accel, buffer.dt, 0.5, jello.p, jello.v, buffer.p, buffer.v);
  }

  /** `RK4` with its third trial state a full step, as classical fourth-order Runge-Kutta
      prescribes (physics.cpp:207-208 with 1.0 in place of 0.5): one step of
      `ClassicalRk4Step`. */
  method ClassicalRK4(jello: World, accel: Acceleration)
    requires jello.Valid()
    modifies jello.p, jello.v
    ensures unchanged(jello)
    ensures jello.Phase() == ClassicalRk4Step(jello.Coeffs(), accel, jello.dt, old(jello.Phase()))
  {
    var buffer := new World.Copy(jello);
    Rk4Stages(buffer.Coeffs(), accel, buffer.dt, 1.0, jello.p, jello.v, buffer.p, buffer.v);
  }
}
