# gravity-field simulation core in Dafny

This project models the simulation core of the gravity-field visualisation: a
globe at the origin that pulls a cubic lattice of particles ("vectors") toward
it. The browser script `js/scripts.js` wraps the core in Three.js scene building
and DOM wiring. The core has four parts:

- **Reset policy** (`resetParticle`): particle index `i` is split into a column
  `i % n`, a row `(i / n) % n` and a layer `i / n²`. Each of these becomes one
  coordinate `k / n * spread - spread / 2`. Velocity and the life counter are
  set to zero.
- **Per-particle step** (the body of the `forEach` in `animate`):
  - A particle closer than 0.5 to the origin is reset.
  - Any other particle gains velocity `pos * g / |pos|²`, moves by minus
    its new velocity, and ages by 0.1.
  - Its cone is drawn with scale `(min(1, life), min(1, life), speed * 200 - 0.5)`.
- **Orientation smoother**: each of six scene groups moves its rotation 40% of
  the way toward a target taken from the pointer. The globe's yaw target is
  shifted by -0.8.
- **Frame gate**: `animate(now, then)` does a frame's work only when
  `now - then >= 16`. It hands `now` to the next callback after a tick, and
  the old `then` after a skip.

All quantities are exact `real`s. The distance guard is stated on the squared
distance (`|pos|² < 0.25`), so the model never takes a square root. The speed
that stretches the cone is passed in as a parameter. The caller must
guarantee it is the non-negative length of the particle's velocity before
the step (`IsMagnitude`).

Modules, one per component:

- `Vectors`: `vec3` arithmetic.
- `SimConfig`: the constants 23, 11 and 9.8/120/60.
- `Grid`: index ↔ lattice cell, and lattice coordinates.
- `Particles`: the particle record, reset and the initial pool.
- `Physics`: the per-particle step.
- `Smoother`: the rotation easing.
- `FrameGate`: the 16 ms gate.
- `Animation`: one whole `animate` call over the state.

The script stores three lattice counts (`rowCount`, `colCount`, `layerCount`)
but sets them all to `gridDensity`, so the model has a single `density`.

Behaviour of the script that the model makes explicit:

- The stored life counter is not clamped; only the drawn scale is
  (`Math.min(1, …)`), so the counter keeps growing past 1
  (`Physics.StoredLifeExceedsOne`).
- The cone's length comes from the velocity before this frame's update:
  `speed` is computed before `vX += aX`.
- On the default 23-wide lattice with spread 11, eight cells reset to
  squared distance 363/2116 < 0.25: those whose column, row and layer are
  all 11 or 12. These eight particles are reset again on every frame and
  never move (`Physics.DefaultStuckCells`, `Physics.DefaultCentreIsFixed`).
  A particle inside the guard is never integrated
  (`Animation.TickResetsInside`).
- The lattice is half-open: a 2-wide lattice of spread 2 has its eight
  particles on eight distinct corners at -1 and 0 on every axis, a unit cube
  not centred on the origin (`Particles.TwoWideLattice`).

## Model

| member | source | states |
|---|---|---|
| SimConfig.DefaultIsValid | js/scripts.js:46-52 | The script's constants give a valid configuration with a pool of 12167 = 23³ particles and a per-frame pull below 0.5 |
| Grid.Decompose | js/scripts.js:245-247 | Column and row lie below n; the cell composes back to the index (column + n·row + n²·layer); the layer lies below n exactly when the index is below the pool size n³ |
| Grid.DecomposeCompose | js/scripts.js:245-247 | Decomposition inverts composition for every cell of the lattice, so every cell is reached |
| Grid.DecomposeInjective | js/scripts.js:245-247 | Distinct indices get distinct cells |
| Grid.Coord | js/scripts.js:248-250 | Measured from the low face -spread/2, a coordinate is k n-ths of the spread; steps below n stay in [-spread/2, spread/2) |
| Grid.CoordBounds | js/scripts.js:248-250 | Every lattice coordinate lies in [-spread/2, spread/2) |
| Grid.CoordInjective | js/scripts.js:248-250 | Distinct lattice steps give distinct coordinates |
| Particles.CellPosition | js/scripts.js:248-250 | Column, row and layer give x, y and z, each k n-ths of the spread above -spread/2; a cell of the lattice lies inside the spread box |
| Particles.Reset | js/scripts.js:244-259 | A reset particle is at rest, with life 0 and a zero drawn scale; for an index inside the pool its position is inside the spread box; the result depends only on the index and the constants, so resetting is idempotent |
| Particles.ResetCoversLattice | js/scripts.js:244-250 | Each lattice cell is the reset position of exactly the index that composes it, and that index is inside the pool |
| Particles.ResetInjective | js/scripts.js:244-250 | Two different indices never reset to the same position |
| Particles.InitialPool | js/scripts.js:222-227 | The pool has density³ particles, all at rest with no life, all inside the spread box |
| Particles.InitialPoolDistinct | js/scripts.js:222-227 | No two particles of the initial pool share a position |
| Particles.TwoWideLattice | js/scripts.js:248-250 | With density 2 and spread 2 the eight positions have every coordinate equal to -1 or 0, and no two indices share a position: they are the eight corners |
| Physics.Min1 | js/scripts.js:389 | `Math.min(1, x)` is at most 1 and at most x, and equals one of them |
| Physics.Inside | js/scripts.js:373-378 | The guard on the squared distance agrees with `earthDist < 0.5` for the distance, whichever non-negative root of the squared distance it is |
| Physics.Accel | js/scripts.js:375-377 | The pull times the squared distance is gravity times the position: an inverse-square law applied per axis |
| Physics.Step | js/scripts.js:372-394 | Inside the 0.5 guard the particle becomes its reset state; otherwise |pos|² times the velocity change equals g·pos, the position drops by the new velocity, life grows by exactly 0.1, and the drawn scale is (min(1, life), min(1, life), speed·200 − 0.5); the drawn x/y scale never exceeds 1 |
| Physics.StepReversible | js/scripts.js:382-388 | The integration step loses no information: `Unstep` recovers the old position, velocity and life |
| Physics.UnstepThenStep | js/scripts.js:382-388 | Conversely, stepping the predecessor that `Unstep` computes reproduces the given position, velocity and life |
| Physics.FromRestMovesInward | js/scripts.js:375-387 | A particle at rest outside the guard ends the step strictly closer to the centre when the pull is below 0.5 |
| Physics.UnitParticleStep | js/scripts.js:375-387 | A particle at (1,0,0) at rest gets velocity (g,0,0) and moves to (1−g,0,0) |
| Physics.StoredLifeExceedsOne | js/scripts.js:388-389 | The stored life counter is not clamped: from 1 it becomes 1.1 while the drawn scale stays 1 |
| Physics.DefaultCoordSquare | js/scripts.js:248-250 | On the default lattice a coordinate squared is 121/2116 on steps 11 and 12 and at least 1089/2116 on every other step |
| Physics.DefaultStuckCells | js/scripts.js:373-379 | On the default lattice a particle's reset position is inside the guard exactly when its column, row and layer all lie in {11, 12} |
| Physics.DefaultCentreIsFixed | js/scripts.js:378-379 | Index 6083 is cell (11,11,11), and stepping its reset state gives that reset state again |
| Smoother.Smooth | js/scripts.js:396-407 | One easing update leaves 0.6 of the gap to the target, never overshoots it, and strictly shrinks a non-zero gap |
| Smoother.Iterate | js/scripts.js:396-407 | Any number of updates toward a fixed target never increases the gap and stays between the start and the target |
| Smoother.IterateClosedForm | js/scripts.js:396-407 | After k updates the gap to the target is 0.6^k times the starting gap |
| Smoother.Converges | js/scripts.js:396-407 | For every tolerance there is a frame count after which the rotation stays within that tolerance of a fixed target |
| Smoother.YawOffset | js/scripts.js:397 | The yaw offset is 0.8 exactly for the globe and 0 for every other group |
| Smoother.Target | js/scripts.js:396-407 | Every group's pitch target is `mouseY * π`; the globe's yaw target is `mouseX * π - 0.8` and every other group's is `mouseX * π` |
| Smoother.TargetsAgree | js/scripts.js:396-407 | All groups share the pitch target; all groups but the globe share the yaw target, and the globe's is 0.8 below it |
| Smoother.SmoothRotation | js/scripts.js:396-397 | Both angles of a group keep 0.6 of their gap to the group's pointer target |
| Smoother.SmoothAll | js/scripts.js:396-407 | The list of groups is unchanged, and each group's two angles keep 0.6 of their gap to that group's own target |
| FrameGate.FrameInterval | js/scripts.js:368 | The frame interval is 16 whether or not the page is scrolling |
| FrameGate.Gate | js/scripts.js:366-369 | A callback ticks exactly when at least 16 ms have passed; the next `then` is `now` after a tick and the old `then` after a skip |
| FrameGate.FirstCallTicks | js/scripts.js:90 | The start-up call `animate(100, 0)` ticks and hands 100 on |
| FrameGate.TicksSpaced | js/scripts.js:366-369 | Over any sequence of callbacks the first tick is at least 16 ms after the starting `then`, and consecutive ticks are at least 16 ms apart |
| FrameGate.LastThenIsLastTick | js/scripts.js:412-416 | The `then` carried forward is the timestamp of the most recent tick, or the starting `then` if nothing ticked |
| FrameGate.Drive | js/scripts.js:412-416 | Running callbacks one by one yields the reference tick sequence and final `then`, with ticks at least 16 ms apart |
| Animation.Tick | js/scripts.js:372-395 | A frame keeps the pool size, and particle i becomes the step of its own old state with its own index |
| Animation.TickIsLocal | js/scripts.js:372-395 | Two pools that agree on particle i (and its speed) still agree on it after a frame: nothing else influences it |
| Animation.TickResetsInside | js/scripts.js:378-379 | A particle that starts a frame inside the guard ends it at its reset state with zero velocity |
| Animation.TickPool | js/scripts.js:372-395 | The loop over the pool produces, element by element, the step of each particle with its own index |
| Animation.Frame | js/scripts.js:366-416 | A frame keeps the pool size and the group list; when 16 ms have passed it steps the pool, eases the groups and records `now`; otherwise the state is unchanged |
| Animation.InitialGroups | js/scripts.js:149-152 | Six distinct groups are tracked; the first is the globe with pitch 0 and yaw −π, the other five start unrotated |
| Animation.Initial | js/scripts.js:77-90 | The state `init` hands to `animate(100, 0)`: density³ particles, particle i at its reset state, the groups as built and `then` equal to 0 |
| Animation.TickFromNoLife | js/scripts.js:381-388 | After one frame from a pool with no life, every particle has life 0 (reset) or 0.1 (first step) |
| Animation.FirstFrameRuns | js/scripts.js:90 | The first frame of the initial state runs, records 100 as `then`, keeps all density³ particles and gives every particle life 0 or 0.1 |

## Left out

- Scene, mesh, material, texture, camera, light and renderer construction
  (`createScene`, `createRenderer`, `createCamera`, `createLights`,
  `createEarth`, `createParticles` apart from the pool layout): these are
  calls into Three.js with no behaviour of their own to state.
- The `lookAt` calls and the initial `(1, 1, (5/vDist)²)` cone scale set in
  `createParticles` (js/scripts.js:232-234): they depend on the library's
  geometry and on floating-point `sqrt`/`pow`. The model's initial pool keeps
  the zero drawn scale the reset gives.
- `renderer.render` and `requestAnimationFrame`: the host's frame clock is
  modelled as a sequence of `Callback` timestamps.
- Viewport and DOM glue (`setWindowState`, `setContentState`,
  `setCanvasState`, `handleResize`, `handleMouseMove`): they read the
  browser window. The normalised pointer is an input (`Pointer`).
- Resizing: the model describes the script between resizes, and its `State`
  never loses its pool. In the script, `handleResize` calls
  `setCanvasState()` (js/scripts.js:267), which rebuilds `canvasState` with
  `particles: []` (js/scripts.js:54). The only early return
  (js/scripts.js:263) needs a small screen and an unchanged width, so any
  resize of a window at least 1000 px wide leaves the `forEach` at
  js/scripts.js:372 with nothing to step, and the cones stop updating.
  `setWindowState()` (js/scripts.js:265, 284-285) also sets the pointer back
  to 0.
- Key and mouse-button handlers and the start-up timer: the flags they set
  are never read by the core, and the timer is host scheduling.
- The scroll debounce: it maintains `windowState.isScrolling`, which the
  frame gate reads (js/scripts.js:368) without effect, since both branches
  give 16. The model takes the flag as `Callback.scrolling` rather than
  modelling the 300 ms debounce timer that sets it.
- The moon's gravity term: it is commented out in the script, and
  `moonDist` is computed but never used.
- The `earthDist > particleSpread / 2` branch: its body is empty, so it has
  no effect to model.
- IEEE-754 rounding: all arithmetic is exact. `9.8 / 120 / 60` and `Math.PI`
  (written as 3.141592653589793) are exact reals, so results are idealised.
- Physics.Step: the cone length `speed * 200 - 0.5` takes `speed` as a
  parameter constrained to be the velocity's length, because the model has
  no square root; it does not compute the square root itself.
