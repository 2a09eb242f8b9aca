# Jello cube: integrators and frame driver

This project models the simulation core of the jello cube: an 8x8x8 lattice of mass points. Each
frame, the `idle` callback (`jello.cpp`) may save a numbered screenshot. It stops the program
after 300 snapshots. Unless paused, it advances the world by one time step of the integrator
named in the world file: `Euler` or `RK4` (`physics.cpp`). The neighbour guards of
`computeAcceleration` are modelled too. These guards keep every lattice index it reads within
0..7.

Modules:

- `Vectors`: a point is a triple of reals. `Add` and `Scale` are `pSUM` and `pMULTIPLY`.
- `Lattice`: a C array `point p[8][8][8]` is held as a flat `array<Point>` of 512 points in the
  same row-major order. Point (i, j, k) sits at offset `Idx(i, j, k) = 64 i + 8 j + k`. A `Grid`
  is the 512-point value such an array holds.
- `Neighbours`: the six guarded face-neighbour reads of `computeAcceleration`.
- `Physics`: the world (`class World`) and the two integrators as in-place methods. Each method
  is proved against a step function on values (`EulerStep`, `Rk4Step`). The acceleration that
  `computeAcceleration` should produce is a parameter of type `Acceleration`: an arbitrary
  function of the world's coefficients and of the positions and velocities it is evaluated at.
- `Consistency`: properties of the step functions against independent references. A step of
  length zero changes nothing. Euler is the first Runge-Kutta trial state taken a whole step.
  Under a constant acceleration, each scheme follows a closed-form parabola.
- `Jello`: the snapshot name `picNNNN.ppm` and `class Simulation`, which holds the globals
  `sprite`, `saveScreenToFile` and `pause`, and whose `Idle` method is one call of `idle`.
  Saved screenshots are recorded by file name in the field `screenshots`.

Arithmetic is on `real`; `double` rounding is not modelled.

The RK4 step is modelled exactly as written:

- The first three loops each build their trial state with the factor 0.5. The third trial
  state is therefore a half step, where classical fourth-order Runge-Kutta takes a whole
  step.
- `Rk4Step` is that scheme.
- `Consistency.Rk4StepUnderConstantAcceleration` shows what it does: under a constant
  acceleration A, positions advance by dt v + (5/12) dt² A. Exact motion, like the classical
  scheme, gives dt v + (1/2) dt² A.

## Model

| member | source | states |
|---|---|---|
| Lattice.Idx | physics.cpp:146-151 | every in-range (i, j, k) has a row-major offset inside the 512-point array |
| Physics.World.constructor | jello.cpp:39 | the `struct world` that `readWorld` fills in: a world with the given integrator name, time step, `n`, coefficients, positions and velocities, held in two fresh, distinct 512-point arrays |
| Physics.World.Copy | physics.cpp:154-160 | `buffer = *jello` copies every field of the world, coefficients and time step included, into arrays of its own that hold the same positions and velocities |
| Physics.Euler | physics.cpp:114-140 | one Euler step in place. The acceleration is evaluated once at the pre-step state. Each position advances by dt times its old velocity, each velocity by dt times its acceleration. The world's other fields and arrays are unchanged |
| Physics.Weighted | physics.cpp:225-230 | the sum (2 f2 + 2 f3 + f1 + f4) * (1/6) that the code builds is the Runge-Kutta average with weights 1, 2, 2, 1 over 6 in every coordinate |
| Physics.StageCell | physics.cpp:171-176 | one point of a stage loop: F = dt (vel, a), trial = (p, v) + h F. The point's velocity is read before it is overwritten in the buffer, and no other point changes |
| Physics.StageRow | physics.cpp:169-177 | the innermost `k` loop of a stage at row (i, j) extends the finished prefix of derivative and trial points by the 8 points of that row, and leaves the velocities still to be read untouched |
| Physics.Stage | physics.cpp:165-179 | a whole stage loop: Fp = dt * vel, Fv = dt * a and buffer = (p, v) + h * (Fp, Fv) at all 512 points. `vel` may be the buffer's own velocity array, which the loop overwrites |
| Physics.DerivativeStage | physics.cpp:181-195 | `computeAcceleration` at a trial state, then one stage loop, gives the stage derivative at that state and the next trial state |
| Physics.TrialStages | physics.cpp:163-211 | the first three stages leave d1, d2 and d3 of the scheme in F1-F3 and the third trial state in the buffer |
| Physics.CombineCell | physics.cpp:221-239 | one point of the last loop, in statement order: F4 = dt (buffer.v, a), and p and v each gain the weighted average. The buffer is used as scratch space |
| Physics.CombineRow | physics.cpp:218-240 | the innermost `k` loop of the last loop at row (i, j) extends the finished prefix of F4 and new positions and velocities by the 8 points of that row, and leaves the later points as they were |
| Physics.Combine | physics.cpp:216-240 | the last loop at all 512 points: F4 = dt (buffer.v, a), and (p, v) become the old values plus the weighted average of F1-F4 |
| Physics.FinalStage | physics.cpp:213-240 | the fourth `computeAcceleration` call and the last loop give d4 at the third trial state and the new state |
| Physics.Rk4Stages | physics.cpp:163-240 | the stages after the copy give exactly one step of the scheme with the given third trial step |
| Physics.RK4 | physics.cpp:144-243 | one step of `Rk4Step`, the scheme as written, in place. The world's other fields and arrays are unchanged |
| Physics.ClassicalRK4 | physics.cpp:207-208 | the same procedure with a whole third trial step gives one step of classical Runge-Kutta |
| Neighbours.FaceNeighbours | physics.cpp:45-103 | every neighbour the six guards admit is inside the lattice and differs from (i, j, k) by one in one coordinate. A point has 6 neighbours minus one per face of the cube it lies on |
| Neighbours.FaceNeighboursComplete | physics.cpp:45-103 | every face-adjacent lattice point is admitted by one of the guards |
| Neighbours.ReadFaceNeighbours | physics.cpp:45-103 | the guarded reads `p[i±1][j][k]`, `p[i][j±1][k]` and `p[i][j][k±1]` stay in bounds and return the positions of exactly the admitted neighbours, in source order |
| Consistency.EulerZeroStep | physics.cpp:124-139 | an Euler step with dt = 0 leaves the state unchanged |
| Consistency.EulerIsFirstTrial | physics.cpp:124-139 | the Euler step is the state plus one whole first Runge-Kutta derivative |
| Consistency.ZeroDerivative | physics.cpp:171-176 | with dt = 0 a stage derivative is zero and its trial state is the state itself |
| Consistency.CombinationOfStill | physics.cpp:225-239 | adding the average of four zero derivatives changes nothing |
| Consistency.ZeroStages | physics.cpp:163-213 | with dt = 0 all four stage derivatives are zero |
| Consistency.Rk4ZeroStep | physics.cpp:144-243 | a Runge-Kutta step with dt = 0 leaves the state unchanged, whatever the third trial step |
| Consistency.CoordinateUnderConstantAcceleration | physics.cpp:171-238 | in one coordinate, the weighted sum of the position derivatives under a constant acceleration a is dt v + ((2 + h3) / 6) dt² a |
| Consistency.PointUnderConstantAcceleration | physics.cpp:225-231 | the same for one lattice point, in terms of `Weighted` |
| Consistency.SchemeUnderConstantAcceleration | physics.cpp:163-240 | under a constant acceleration A, velocities advance by dt A and positions by dt v + ((2 + h3) / 6) dt² A |
| Consistency.ClassicalRk4UnderConstantAcceleration | physics.cpp:207-208 | with a whole third trial step, the scheme reproduces uniformly accelerated motion exactly: dt v + (1/2) dt² A |
| Consistency.Rk4StepUnderConstantAcceleration | physics.cpp:207-208 | the scheme as written moves positions by dt v + (5/12) dt² A |
| Consistency.MotionFromRest | physics.cpp:207-208 | from rest at the origin under a unit pull along x for unit time, the reference motion with coefficient w puts point 0 at x = w |
| Consistency.Rk4StepMissesUniformAcceleration | physics.cpp:207-208 | from rest under a unit pull for unit time, `RK4` as written puts point 0 at x = 5/12 where uniform acceleration gives 1/2 |
| Jello.SnapshotName | jello.cpp:233-240 | the name is 11 characters, "pic", four characters computed from `sprite`, then ".ppm" |
| Jello.FourDigits | jello.cpp:237-240 | the thousands, hundreds, tens and units that `idle` extracts from a number below 10000 are digits and recompose the number |
| Jello.DigitRoundTrip | jello.cpp:237-240 | a digit stored as `48 + x` is a character '0'..'9' and reads back as x |
| Jello.SnapshotNameDigits | jello.cpp:233-240 | for sprite < 10000, characters 3-6 are decimal digits spelling sprite, zero-padded to four places |
| Jello.SnapshotNameInjective | jello.cpp:233-246 | snapshots 0..9999 get pairwise different file names, so no screenshot overwrites another |
| Jello.LeadingDigitBelowCap | jello.cpp:249-254 | below the 300-snapshot cap, the thousands digit of every name is '0' |
| Jello.NamesBelowCap | jello.cpp:233-254 | while fewer than 300 snapshots exist, every name pic0000.ppm, pic0001.ppm, ... begins "pic0" |
| Jello.FormatSnapshotName | jello.cpp:233-240 | `char s[20] = "picxxxx.ppm"` with the four digits written in place: the first 11 characters are the snapshot name, followed by 9 zero bytes |
| Jello.Simulation.constructor | jello.cpp:28-37 | the globals start at `sprite = 0`, `saveScreenToFile = 0` and `pause = 0`, with no screenshots saved |
| Jello.Simulation.Idle | jello.cpp:231-280 | see below |

`Jello.Simulation.Idle` states the following:

- When the flag is 1, `idle` saves exactly one screenshot under the current name, clears the
  flag and increments `sprite`. Otherwise nothing of that changes.
- It exits iff `sprite >= 300` after that.
- Unless it exited or is paused, it takes one `Euler` step for "EULER", one `RK4` step for
  "RK4", and no step for any other name.
- `pause` and the world's fields are never changed.
- The invariant that the i-th screenshot is named `pic` followed by i as four digits is kept.
- When it does not exit, every screenshot saved so far has a name beginning "pic0".

## Left out

- `input.cpp` (reading and writing world files) is not part of this model. The values
  `readWorld` would read are the arguments of the `World` constructor, and `integrator` is a
  `string` field.
- `init`, `reshape`, `display`, `main` and every OpenGL call (`glutPostRedisplay`) are not
  part of this model. The same goes for the mouse and keyboard handlers that set `pause` and
  `saveScreenToFile`.
- The force computation of `computeAcceleration` is not modelled: the spring and damping
  arithmetic at physics.cpp:20-57 and the empty `calcDampingForce`. As written, the function
  never stores into `a`, so the acceleration is a parameter. Only its neighbour guards are
  modelled.
- `forceField`, `resolution`, the inclined plane and the coefficient `n` take part in no
  modelled computation. `n` is carried as a field and copied; the others are not modelled.
- `saveScreenshot` writes pixels to a file. Only the file name it is given is recorded.
- `exit(0)` is modelled as `Idle` returning `exited = true`. Nothing after an exit is
  modelled.
- Floating point: `double` arithmetic is modelled as exact `real` arithmetic. Rounding,
  overflow and NaN are not modelled.
- Jello.DigitChar: a C `char` receiving `48 + x` is modelled as the low byte of the sum. Whether
  `char` is signed is not modelled; it does not matter for the digits 0-9 that arise below 10000.
- Jello.Simulation.Idle: `sprite` is an unbounded integer. The 32-bit `int` cannot overflow,
  because `idle` exits at 300.
- The arrays of a world and the stage arrays of `RK4` are required to be distinct objects. In the
  source they are distinct fields and locals, so no aliasing between them occurs.

## Findings

| source | as written | input that shows it | evidently intended | confidence | as-written member | corrected member |
|---|---|---|---|---|---|---|
| physics.cpp:207-208 | the third trial state is `p + 0.5 * F3`, a half step, so `RK4` is not fourth-order Runge-Kutta: under constant acceleration it moves positions by dt v + (5/12) dt² a | lattice at rest at the origin, acceleration (1, 0, 0) at every point, dt = 1: `RK4` moves every point to x = 5/12, uniform acceleration to x = 1/2 | `p + 1.0 * F3` (a whole step), after which one step reproduces uniformly accelerated motion exactly | not executed | Consistency.Rk4StepMissesUniformAcceleration | Consistency.ClassicalRk4UnderConstantAcceleration |

`Physics.ClassicalRK4` is the corrected integrator. It runs the same stages with a whole third
trial step and is proved to compute `ClassicalRk4Step`. `Jello.Simulation.Idle` still dispatches
"RK4" to `Physics.RK4`, because that is the step the program takes.
