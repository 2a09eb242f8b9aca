/** What the step functions of `Physics` do, stated against independent references: a step of
    length zero changes nothing, the Euler step is the first trial state taken a whole step,
    and under a constant acceleration each Runge-Kutta scheme moves every point along a
    parabola whose curvature depends on the third trial step. Uniformly accelerated motion is
    p + t v + (t^2 / 2) a, which the classical scheme reproduces exactly and the scheme as
    written in `RK4` does not. */
module Consistency {
  import opened Vectors
  import opened Lattice
  import opened Physics

  /** The acceleration that is A whatever the state. */
  function Constant(A: Grid): Acceleration
  {
    (c: Coefficients, P: Grid, V: Grid) => A
  }

  /** Positions P + dt V + (w dt^2) A and velocities V + dt A: for w = 1/2 this is exactly where
      uniformly accelerated motion takes the state s after time dt. */
  function Motion(s: State, A: Grid, dt: real, w: real): State
  {
    State(Axpy(Axpy(s.p, dt, s.v), w * dt * dt, A), Axpy(s.v, dt, A))
  }

  /** X + 0 * H is X. */
  lemma AxpyZero(X: Grid, H: Grid)
    ensures Axpy(X, 0.0, H) == X
  {
    assert forall n :: 0 <= n < Cells ==> Axpy(X, 0.0, H)[n] == X[n];
  }

  /** An Euler step of length zero leaves the state as it is. */
  lemma EulerZeroStep(c: Coefficients, accel: Acceleration, s: State)
    ensures EulerStep(c, accel, 0.0, s) == s
  {
    AxpyZero(s.p, s.v);
    AxpyZero(s.v, accel(c, s.p, s.v));
  }

  /** The Euler step is the trial state of the first RK4 derivative taken a whole step. */
  lemma EulerIsFirstTrial(c: Coefficients, accel: Acceleration, dt: real, s: State)
    ensures EulerStep(c, accel, dt, s) == Trial(s, 1.0, Derivative(c, accel, dt, s))
  {
    var d := Derivative(c, accel, dt, s);
    assert forall n :: 0 <= n < Cells ==> Axpy(s.p, dt, s.v)[n] == Axpy(s.p, 1.0, d.p)[n];
    assert forall n :: 0 <= n < Cells ==> Axpy(s.v, dt, accel(c, s.p, s.v))[n] == Axpy(s.v, 1.0, d.v)[n];
  }

  /** The lattice with every point at the origin. */
  const Still: Grid := seq(Cells, _ => Origin)

  /** A stage derivative over a step of length zero is zero everywhere, and so the trial state
      built from it is the state itself. */
  lemma ZeroDerivative(c: Coefficients, accel: Acceleration, s: State, h: real)
    ensures Derivative(c, accel, 0.0, s) == State(Still, Still)
    ensures Trial(s, h, Derivative(c, accel, 0.0, s)) == s
  {
    assert forall n :: 0 <= n < Cells ==> Scaled(s.v, 0.0)[n] == Still[n];
    assert forall n :: 0 <= n < Cells ==> Scaled(accel(c, s.p, s.v), 0.0)[n] == Still[n];
    assert forall n :: 0 <= n < Cells ==> Axpy(s.p, h, Still)[n] == s.p[n];
    assert forall n :: 0 <= n < Cells ==> Axpy(s.v, h, Still)[n] == s.v[n];
  }

  /** Adding the weighted combination of four zero derivatives changes nothing. */
  lemma CombinationOfStill(X: Grid)
    ensures Combination(X, Still, Still, Still, Still) == X
  {
    assert forall n :: 0 <= n < Cells ==> Combination(X, Still, Still, Still, Still)[n] == X[n];
  }

  /** Over a step of length zero every trial state is the state itself, so every stage
      derivative is zero. */
  lemma ZeroStages(c: Coefficients, accel: Acceleration, s: State, h3: real)
    ensures Stages(c, accel, 0.0, s, h3) == [State(Still, Still), State(Still, Still), State(Still, Still), State(Still, Still)]
  {
    ZeroDerivative(c, accel, s, 0.5);
    ZeroDerivative(c, accel, s, h3);
  }

  /** A Runge-Kutta step of length zero leaves the state as it is, whatever the third trial
      step. */
  lemma Rk4ZeroStep(c: Coefficients, accel: Acceleration, s: State, h3: real)
    ensures Rk4Scheme(c, accel, 0.0, s, h3) == s
  {
    ZeroStages(c, accel, s, h3);
    CombinationOfStill(s.p);
    CombinationOfStill(s.v);
  }

  /** One coordinate of the scheme under a constant acceleration a: the four position
      derivatives are dt times the velocity at the trial states, and their weighted sum adds
      dt v + ((2 + h3) / 6) dt^2 a to the position. */
  lemma CoordinateUnderConstantAcceleration(p: real, v: real, a: real, dt: real, h3: real)
    ensures var f1 := v * dt;
            var f2 := (v + (a * dt) * 0.5) * dt;
            var f4 := (v + (a * dt) * h3) * dt;
            ((f2 * 2.0 + f2 * 2.0 + f1 + f4) * (1.0 / 6.0) + p ==
             (p + v * dt) + a * ((2.0 + h3) / 6.0 * dt * dt))
  {
  }

  /** The same at one lattice point, in terms of `Weighted`. */
  lemma PointUnderConstantAcceleration(P: Point, V: Point, A: Point, dt: real, h3: real)
    ensures var half := Add(V, Scale(Scale(A, dt), 0.5));
            var last := Add(V, Scale(Scale(A, dt), h3));
            Add(Weighted(Scale(V, dt), Scale(half, dt), Scale(half, dt), Scale(last, dt)), P) ==
            Add(Add(P, Scale(V, dt)), Scale(A, (2.0 + h3) / 6.0 * dt * dt))
  {
    CoordinateUnderConstantAcceleration(P.x, V.x, A.x, dt, h3);
    CoordinateUnderConstantAcceleration(P.y, V.y, A.y, dt, h3);
    CoordinateUnderConstantAcceleration(P.z, V.z, A.z, dt, h3);
  }

  /** Under a constant acceleration A the velocities of the scheme advance by dt A, and the
      positions by dt v + ((2 + h3) / 6) dt^2 A. */
  lemma SchemeUnderConstantAcceleration(c: Coefficients, A: Grid, dt: real, s: State, h3: real)
    ensures Rk4Scheme(c, Constant(A), dt, s, h3) == Motion(s, A, dt, (2.0 + h3) / 6.0)
  {
    var d := Stages(c, Constant(A), dt, s, h3);
    var F := Scaled(A, dt);
    var half := Axpy(s.v, 0.5, F);
    assert d[0] == State(Scaled(s.v, dt), F);
    assert d[1] == State(Scaled(half, dt), F);
    assert d[2] == State(Scaled(half, dt), F);
    assert d[3] == State(Scaled(Axpy(s.v, h3, F), dt), F);
    var r := Rk4Scheme(c, Constant(A), dt, s, h3);
    var m := Motion(s, A, dt, (2.0 + h3) / 6.0);
    forall n | 0 <= n < Cells
      ensures r.p[n] == m.p[n] && r.v[n] == m.v[n]
    {
      PointUnderConstantAcceleration(s.p[n], s.v[n], A[n], dt, h3);
    }
    assert r.p == m.p && r.v == m.v;
  }

  /** The classical scheme moves every point exactly as uniform acceleration does. */
  lemma ClassicalRk4UnderConstantAcceleration(c: Coefficients, A: Grid, dt: real, s: State)
    ensures ClassicalRk4Step(c, Constant(A), dt, s) == Motion(s, A, dt, 0.5)
  {
    SchemeUnderConstantAcceleration(c, A, dt, s, 1.0);
  }

  /** The step `RK4` takes as written moves positions by only 5/12 dt^2 A. */
  lemma Rk4StepUnderConstantAcceleration(c: Coefficients, A: Grid, dt: real, s: State)
    ensures Rk4Step(c, Constant(A), dt, s) == Motion(s, A, dt, 5.0 / 12.0)
  {
    SchemeUnderConstantAcceleration(c, A, dt, s, 0.5);
  }

  /** A unit acceleration along x at every point. */
  const Pull: Grid := seq(Cells, _ => Point(1.0, 0.0, 0.0))

  /** From rest at the origin under `Pull` for one unit of time, `Motion` puts point 0 at x = w. */
  lemma MotionFromRest(w: real)
    ensures Motion(State(Still, Still), Pull, 1.0, w).p[0] == Point(w, 0.0, 0.0)
  {
    assert Still[0] == Origin && Pull[0] == Point(1.0, 0.0, 0.0);
  }

  /** A lattice at rest at the origin under a unit acceleration along x for one unit of time:
      the step `RK4` takes moves point 0 to x = 5/12, short of the 1/2 of uniform acceleration. */
  lemma Rk4StepMissesUniformAcceleration(c: Coefficients)
    ensures Rk4Step(c, Constant(Pull), 1.0, State(Still, Still)).p[0] == Point(5.0 / 12.0, 0.0, 0.0)
    ensures Motion(State(Still, Still), Pull, 1.0, 0.5).p[0] == Point(0.5, 0.0, 0.0)
  {
    Rk4StepUnderConstantAcceleration(c, Pull, 1.0, State(Still, Still));
    MotionFromRest(5.0 / 12.0);
    MotionFromRest(0.5);
  }
}
