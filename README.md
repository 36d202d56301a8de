# Boids flocking update, modelled in Dafny

The program is a macroquad boids simulation. Every frame, the render loop in
`src/main.rs` updates a vector of boids in place. Each boid has a position and
a velocity. The update has six passes, in this order:

1. **Separation** pushes every boid away from the neighbours inside
   `protected_range`.
2. **Alignment** pulls every velocity toward the mean velocity of the
   neighbours inside `visible_range`.
3. **Cohesion** pulls every velocity toward the mean position of those
   neighbours.
4. **Edge steering** nudges a velocity by `turnfactor` near the screen
   edges.
5. **Speed clamp** rescales velocities that are too fast or too slow, with an
   asymmetric formula.
6. **Integration** moves every boid by `vel * dt`.

Separation, alignment and cohesion each scan a clone of the flock that is
taken when the pass starts. The Spawn button pushes one random boid.

The model has four modules:

- `Vectors` (`vectors.dfy`) defines `Vec2` over the reals, with the few
  operations the update uses.
- `Flocking` (`flocking.dfy`) specifies the update as functions:
  - the `Boid` and `Params` records;
  - the neighbour set;
  - the three accumulators;
  - the per-boid rules;
  - each pass as a function from the snapshot it reads to the new flock;
  - the whole tick, `Step`.

  The lemmas that state what the source promises are also in this module.
- `Simulation` (`simulation.dfy`) is the code as it runs:
  - the inner scans are loops with running accumulators, proved equal to the
    accumulators of `Flocking`;
  - `class Flock` holds the boid vector as a field, and its methods update
    it one boid at a time, each proved equal to its pass function.
    `Separate`, `Align` and `Cohere` read a clone taken when the pass
    starts; `SteerFromEdges`, `ClampSpeeds` and `Integrate` read only the
    boid they update, as the source does;
  - `Tick` runs the six passes in the source's order;
  - `Spawn` appends a boid.
- `SeparationBalance` (`balance.dfy`) proves that separation leaves the
  flock's total velocity unchanged. The reason is that each pair of
  neighbours is pushed apart by opposite amounts.

`RealArith` (`realarith.dfy`) holds small lemmas about products and
quotients of reals that the clamp proofs need.

Modelling choices:

- **Neighbour test.** `other.pos.distance(boid.pos) < range` is stated on
  squares: `0 < range && DistSq < range * range`. This is exact for every
  `range`, including one that is not positive, which admits no neighbour.
- **Vector length.** `length()` is a function the caller supplies.
  Statements about the clamp's result assume only that `speed` is a
  non-negative number whose square is `NormSq(v)`.

## Model

| member | source | states |
|---|---|---|
| Flocking.IsNeighbour | src/main.rs:71-72 | defines the scan's test: another position, strictly closer than the range; its properties are stated by NeighboursExactly, NeighboursExcludeSelf and NeighbourSymmetric |
| Flocking.Neighbours | src/main.rs:70-76 | the boids the scan accumulates, in scan order, never more than the snapshot holds; NeighboursExactly and NeighboursCount say which and how many |
| Flocking.NeighboursCount | src/main.rs:102-108 | the neighbour count is the number of snapshot entries that pass the test, so boids with equal position and velocity each count |
| Flocking.NeighboursExactly | src/main.rs:70-76 | a boid is a neighbour exactly when it is in the snapshot, at a different position, and strictly closer than the range |
| Flocking.NoNeighbours | src/main.rs:102-109 | a scan that meets no boid within range finds no neighbour |
| Flocking.NeighboursExcludeSelf | src/main.rs:71-72 | a boid never counts itself or any boid at its own position, and every neighbour is strictly inside the range |
| Flocking.NeighbourSymmetric | src/main.rs:71-72 | being neighbours does not depend on which of the two boids scans |
| Flocking.Average | src/main.rs:110-112 | with at least one neighbour, the count times the average is the sum; with none, the average stays zero |
| Flocking.SumAway | src/main.rs:69-76 | defines `close_d` as the sum of `pos - other.pos` over the neighbours; RowIsCloseD ties it to the pairwise pushes |
| Flocking.MeanVelocity | src/main.rs:100-112 | defines the neighbours' mean velocity, zero without neighbours; Average states both cases and NeighboursCount the divisor |
| Flocking.MeanPosition | src/main.rs:118-130 | defines the neighbours' mean position, zero without neighbours; Average states both cases and CohesionTargetIsCentreOfMass the centre of mass |
| Simulation.ScanSeparation | src/main.rs:69-76 | the `close_d` loop returns the sum of `pos - other.pos` over exactly the neighbours inside `protected_range` |
| Simulation.ScanAlignment | src/main.rs:100-112 | the `vel_avg` loop returns the mean velocity of the neighbours inside `visible_range`, or zero without any |
| Simulation.ScanCohesion | src/main.rs:118-130 | the `pos_avg` loop returns the mean position of the neighbours inside `visible_range`, or zero without any |
| Flocking.Separated | src/main.rs:69-77 | one boid's separation keeps its position; its velocity gains `close_d * avoid_factor` (SeparationOfTwo, SeparationConservesVelocity) |
| Flocking.Cohered | src/main.rs:118-131 | one boid's cohesion keeps its position; its velocity gains `(pos_avg - pos) * centring_factor` (CohesionWithoutNeighbours, CohesionTargetIsCentreOfMass) |
| Flocking.SteerAxis | src/main.rs:135-146 | the two sequential nudges along one axis; EdgeNudge states all four cases |
| Flocking.Steered | src/main.rs:134-147 | edge steering of one boid keeps its position and steers each axis by SteerAxis; EdgeAxesIndependent states the axes do not interact |
| Flocking.Rescale | src/main.rs:151-159 | the formula both clamp branches apply, x by `max_speed` and y by `min_speed`; RescaledSpeedInBounds bounds its length |
| Flocking.ClampVelocity | src/main.rs:148-162 | the clamp with the speed measured once and the two tests in sequence; ClampShape, ClampKeepsZero and ClampedSpeedInBounds state its shape and bounds |
| Flocking.Clamped | src/main.rs:148-162 | the clamp of one boid keeps its position and clamps its velocity by its own length |
| Flocking.Moved | src/main.rs:165 | integration of one boid keeps its velocity and adds `vel * dt` to its position |
| Flocking.Step | src/main.rs:63-166 | one frame as the six passes in order; StepMovesAlongNewVelocity states its length and positions, and Simulation.Flock.Tick is proved equal to it |
| Flocking.Spawned | src/main.rs:198-207 | the boid the Spawn button builds from four samples; SpawnedInBounds bounds it |
| Flocking.SeparationPass | src/main.rs:67-77 | separation keeps the number of boids and every position |
| Flocking.AlignmentPass | src/main.rs:98-114 | alignment keeps the number of boids and every position |
| Flocking.CohesionPass | src/main.rs:116-132 | cohesion keeps the number of boids and every position |
| Flocking.EdgePass | src/main.rs:134-147 | edge steering keeps the number of boids and every position |
| Flocking.ClampPass | src/main.rs:148-162 | the clamp keeps the number of boids and every position |
| Flocking.IntegrationPass | src/main.rs:164-166 | integration keeps the number of boids and every velocity |
| Simulation.Flock.Separate | src/main.rs:67-77 | the in-place loop over the flock, reading a clone taken first, leaves exactly the separation pass of the old flock |
| Simulation.Flock.Align | src/main.rs:98-114 | the in-place loop, reading a clone of the separated flock, leaves exactly the alignment pass of it |
| Simulation.Flock.Cohere | src/main.rs:116-132 | the in-place loop, reading a clone of the aligned flock, leaves exactly the cohesion pass of it |
| Simulation.Flock.SteerFromEdges | src/main.rs:134-147 | the in-place loop leaves every boid steered by its own position alone |
| Simulation.Flock.ClampSpeeds | src/main.rs:148-162 | the in-place loop leaves every velocity clamped, with the speed measured once before both tests |
| Simulation.Flock.Integrate | src/main.rs:164-166 | the in-place loop moves every boid by `vel * dt` |
| Simulation.Flock.Tick | src/main.rs:63-166 | one frame is the six passes in order, each reading the flock the previous one committed |
| Flocking.StepMovesAlongNewVelocity | src/main.rs:164-166 | a tick keeps the number of boids, and each boid ends at its old position plus its final velocity times `dt` |
| Flocking.SeparationOfTwo | src/main.rs:69-77 | of two boids inside each other's protected range, a gains `(a.pos - b.pos) * avoid_factor` and b gains `(b.pos - a.pos) * avoid_factor`; outside it, neither changes |
| SeparationBalance.RowIsCloseD | src/main.rs:69-76 | a boid's `close_d` is its row of the square of pairwise pushes |
| SeparationBalance.ColIsNegRow | src/main.rs:71-74 | what one boid gives the others is the opposite of what it takes from them |
| SeparationBalance.SquareCancels | src/main.rs:69-76 | the pairwise pushes of the whole flock add up to zero |
| SeparationBalance.PushedPrefix | src/main.rs:77 | when every velocity gains its own push, the total velocity gains the total push |
| SeparationBalance.SeparationConservesVelocity | src/main.rs:67-77 | separation leaves the sum of all velocities unchanged |
| Flocking.Aligned | src/main.rs:113 | alignment keeps the position and shrinks the gap between the velocity and the neighbours' mean velocity by the factor `1 - matching_factor` |
| Flocking.AlignmentWithoutNeighbours | src/main.rs:100-113 | with no neighbour in `visible_range`, the velocity is scaled by `1 - matching_factor` |
| Flocking.CohesionWithoutNeighbours | src/main.rs:118-131 | with no neighbour in `visible_range`, the velocity gains `-pos * centring_factor`, a pull toward the origin |
| Flocking.CohesionTargetIsCentreOfMass | src/main.rs:118-130 | with a neighbour in range, the count is positive and the target times the count is the sum of the neighbours' positions |
| Flocking.EdgeNudge | src/main.rs:135-146 | along one axis: `+turnfactor` below the margin, `-turnfactor` beyond `extent - margin`, no change between them; both fire and cancel only when the extent is narrower than two margins |
| Flocking.EdgeAxesIndependent | src/main.rs:134-147 | the new x velocity depends only on `pos.x` and `vel.x`, and the new y velocity only on `pos.y` and `vel.y` |
| Flocking.ClampShape | src/main.rs:148-162 | inside `[min_speed, max_speed]` nothing changes; when exactly one test fires, the result is `(vx/speed*max_speed, vy/speed*min_speed)`; when both fire, each factor is applied twice |
| Flocking.ClampKeepsZero | src/main.rs:148-162 | a zero velocity is left as it is |
| Flocking.ClampedSpeedInBounds | src/main.rs:148-162 | when `0 < min_speed <= max_speed` and the velocity is not zero, the clamped speed lies in `[min_speed, max_speed]`, despite the asymmetric formula |
| Flocking.RescaledSpeedInBounds | src/main.rs:151-159 | the rescaled squared speed lies between `min_speed^2` and `max_speed^2` |
| Flocking.UnitDirection | src/main.rs:152-153 | dividing a non-zero velocity by its length gives a unit vector |
| Simulation.Flock.Spawn | src/main.rs:197-208 | Spawn appends exactly the boid built from the four samples and leaves the earlier boids unchanged |
| Flocking.SpawnedInBounds | src/main.rs:198-207 | with samples in `[0, 1)`, the spawned position lies in `[0, width) x [0, height)` and each velocity component in `[0, 20 * max_speed)` |

## Left out

- Window set-up, camera, clearing, drawing and the debug overlays (src/main.rs:14-20, 61-62, 78-94, 167-181): presentation only. This includes the `normalize()` used for the heading lines.
- The UI panel (src/main.rs:182-212): its sliders become a `Params` value that is an arbitrary input to every tick.
- Escape handling and `next_frame().await` (src/main.rs:58-60, 213): event-loop plumbing.
- The random initial population of 600 boids (src/main.rs:45-56): it draws `pos.x` from `[10, w - 10)`, `pos.y` from `[10, h - 10)` and both velocity components from `[-min_speed, max_speed)` with the thread RNG. It is not modelled; a `Flock` starts from any given sequence.
- The `println!` of the spawned boid (src/main.rs:208): output only.
- `screen_width()`, `screen_height()` and `get_frame_time()` become the parameters `width`, `height` and `dt`. The four `random::<f32>()` calls of Spawn become four samples that the caller supplies.
- `Vec2::length()` becomes a function that the caller supplies, because the reals have no square root here.
- IEEE `f32` rounding, infinities and NaN are not modelled: the arithmetic is exact over the reals.
- The `u32` neighbour counter is a `nat`: overflow would need more than 2^32 - 1 neighbours of one boid, far beyond what the quadratic scan can process in one frame.
- Flocking.ClampVelocity: a zero speed leaves the velocity as it is. The source divides by zero there, which gives NaN components when `min_speed > 0`. The same guard is in Simulation.Flock.ClampSpeeds and Flocking.ClampPass.
