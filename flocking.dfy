/** The per-frame flocking update of src/main.rs, stated as functions over a
    snapshot of the flock. Every pass of the frame loop reads a clone of the
    flock taken after the previous pass committed, so each pass is a function
    from that clone to the new flock; the in-place loops of module Simulation
    are proved equal to these functions. */
module Flocking {
  import opened Vectors
  import opened RealArith

  /** One flock member: a position and a velocity in screen units. */
  datatype Boid = Boid(pos: Vec2, vel: Vec2)

  /** The values the frame loop reads on every tick. The panel may change any
      of them between two ticks, independently of the others. */
  datatype Params = Params(
    minSpeed: real,
    maxSpeed: real,
    protectedRange: real,
    visibleRange: real,
    avoidFactor: real,
    turnFactor: real,
    matchingFactor: real,
    centringFactor: real,
    margin: real)

  // ---------------------------------------------------------------------------
  // Neighbours
  // ---------------------------------------------------------------------------

  /** A boid at `q` is a neighbour of a boid at `p` when the positions differ
      and the distance is strictly below `range`. `distance < range` is stated
      on squares; a range that is not positive admits no distance at all. */
  predicate IsNeighbour(p: Vec2, q: Vec2, range: real) {
    p != q && 0.0 < range && DistSq(q, p) < range * range
  }

  /** The boids of `snapshot` that the scan at `p` accumulates, in scan order. */
  function Neighbours(snapshot: seq<Boid>, p: Vec2, range: real): (ns: seq<Boid>)
    ensures |ns| <= |snapshot|
  {
    if snapshot == [] then []
    else
      var last := snapshot[|snapshot| - 1];
      var ns := Neighbours(snapshot[..|snapshot| - 1], p, range);
      if IsNeighbour(p, last.pos, range) then ns + [last] else ns
  }

  /** Exactly the boids of the snapshot within range and at another position
      are neighbours. */
  lemma {:induction false} NeighboursExactly(snapshot: seq<Boid>, p: Vec2, range: real)
    ensures forall o :: o in Neighbours(snapshot, p, range) <==>
                        o in snapshot && IsNeighbour(p, o.pos, range)
  {
    if snapshot != [] {
      var init := snapshot[..|snapshot| - 1];
      NeighboursExactly(init, p, range);
      assert snapshot == init + [snapshot[|snapshot| - 1]];
    }
  }

  /** The indices of the snapshot whose boid passes the neighbour test. */
  function NeighbourIndices(snapshot: seq<Boid>, p: Vec2, range: real): set<int> {
    set j | 0 <= j < |snapshot| && IsNeighbour(p, snapshot[j].pos, range)
  }

  /** Every boid of the snapshot that passes the test counts once, however
      many other boids share its position and velocity, so the neighbour
      count is the number of snapshot entries that pass. */
  lemma {:induction false} NeighboursCount(snapshot: seq<Boid>, p: Vec2, range: real)
    ensures |Neighbours(snapshot, p, range)| == |NeighbourIndices(snapshot, p, range)|
  {
    if snapshot != [] {
      var n := |snapshot| - 1;
      var init := snapshot[..n];
      NeighboursCount(init, p, range);
      var before, after := NeighbourIndices(init, p, range), NeighbourIndices(snapshot, p, range);
      assert forall j :: 0 <= j < n ==> init[j] == snapshot[j];
      if IsNeighbour(p, snapshot[n].pos, range) {
        assert after == before + {n};
        assert n !in before;
      } else {
        assert after == before;
      }
    }
  }

  /** A scan that meets no boid within range finds no neighbour. */
  lemma {:induction false} NoNeighbours(snapshot: seq<Boid>, p: Vec2, range: real)
    requires forall o :: o in snapshot ==> !IsNeighbour(p, o.pos, range)
    ensures Neighbours(snapshot, p, range) == []
  {
    if snapshot != [] {
      var init := snapshot[..|snapshot| - 1];
      assert forall o :: o in init ==> o in snapshot;
      NoNeighbours(init, p, range);
    }
  }

  /** A boid is never its own neighbour, nor is any boid at its exact
      position, and every neighbour is strictly inside the range. */
  lemma NeighboursExcludeSelf(snapshot: seq<Boid>, i: nat, range: real)
    requires i < |snapshot|
    ensures snapshot[i] !in Neighbours(snapshot, snapshot[i].pos, range)
    ensures forall o :: o in Neighbours(snapshot, snapshot[i].pos, range) ==>
                        o.pos != snapshot[i].pos && 0.0 < range &&
                        DistSq(o.pos, snapshot[i].pos) < range * range
  {
    NeighboursExactly(snapshot, snapshot[i].pos, range);
  }

  /** Being neighbours is symmetric: the distance test does not depend on
      which of the two boids is scanning. */
  lemma NeighbourSymmetric(p: Vec2, q: Vec2, range: real)
    ensures IsNeighbour(p, q, range) <==> IsNeighbour(q, p, range)
  {
    DistSqSymmetric(p, q);
  }

  // ---------------------------------------------------------------------------
  // Accumulators of the three rules
  // ---------------------------------------------------------------------------

  /** `close_d`: the sum of `p - o.pos` over the neighbours `ns`. */
  function SumAway(p: Vec2, ns: seq<Boid>): Vec2 {
    if ns == [] then Zero
    else Add(SumAway(p, ns[..|ns| - 1]), Sub(p, ns[|ns| - 1].pos))
  }

  /** The sum of the neighbours' velocities. */
  function SumVel(ns: seq<Boid>): Vec2 {
    if ns == [] then Zero
    else Add(SumVel(ns[..|ns| - 1]), ns[|ns| - 1].vel)
  }

  /** The sum of the neighbours' positions. */
  function SumPos(ns: seq<Boid>): Vec2 {
    if ns == [] then Zero
    else Add(SumPos(ns[..|ns| - 1]), ns[|ns| - 1].pos)
  }

  /** The accumulator divided by the neighbour count; with no neighbour the
      accumulator keeps its initial zero. */
  function Average(sum: Vec2, count: nat): (avg: Vec2)
    ensures count > 0 ==> Scale(avg, count as real) == sum
    ensures count == 0 ==> avg == Zero
  {
    if count > 0 then Div(sum, count as real) else Zero
  }

  function MeanVelocity(snapshot: seq<Boid>, p: Vec2, range: real): Vec2 {
    var ns := Neighbours(snapshot, p, range);
    Average(SumVel(ns), |ns|)
  }

  function MeanPosition(snapshot: seq<Boid>, p: Vec2, range: real): Vec2 {
    var ns := Neighbours(snapshot, p, range);
    Average(SumPos(ns), |ns|)
  }

  // ---------------------------------------------------------------------------
  // One boid, one step
  // ---------------------------------------------------------------------------

  /** Separation: the velocity gains `close_d * avoid_factor`. */
  function Separated(snapshot: seq<Boid>, b: Boid, p: Params): (r: Boid)
    ensures r.pos == b.pos
  {
    var closeD := SumAway(b.pos, Neighbours(snapshot, b.pos, p.protectedRange));
    Boid(b.pos, Add(b.vel, Scale(closeD, p.avoidFactor)))
  }

  /** Alignment: the velocity moves toward the mean velocity of the visible
      neighbours, closing the fraction `matching_factor` of the gap. */
  function Aligned(snapshot: seq<Boid>, b: Boid, p: Params): (r: Boid)
    ensures r.pos == b.pos
    ensures var mean := MeanVelocity(snapshot, b.pos, p.visibleRange);
            Sub(r.vel, mean) == Scale(Sub(b.vel, mean), 1.0 - p.matchingFactor)
  {
    var velAvg := MeanVelocity(snapshot, b.pos, p.visibleRange);
    Boid(b.pos, Add(b.vel, Scale(Sub(velAvg, b.vel), p.matchingFactor)))
  }

  /** Cohesion: the velocity gains the gap from the boid's position to the
      mean position of the visible neighbours, scaled by `centring_factor`. */
  function Cohered(snapshot: seq<Boid>, b: Boid, p: Params): (r: Boid)
    ensures r.pos == b.pos
  {
    var posAvg := MeanPosition(snapshot, b.pos, p.visibleRange);
    Boid(b.pos, Add(b.vel, Scale(Sub(posAvg, b.pos), p.centringFactor)))
  }

  /** Edge steering along one axis: `+turnfactor` below the margin,
      `-turnfactor` beyond `extent - margin`, the two tests made one after
      the other. */
  function SteerAxis(coord: real, v: real, extent: real, margin: real, turnFactor: real): real {
    var v1 := if coord < margin then v + turnFactor else v;
    if coord > extent - margin then v1 - turnFactor else v1
  }

  function Steered(b: Boid, p: Params, width: real, height: real): (r: Boid)
    ensures r.pos == b.pos
  {
    Boid(b.pos, Vec2(SteerAxis(b.pos.x, b.vel.x, width, p.margin, p.turnFactor),
                     SteerAxis(b.pos.y, b.vel.y, height, p.margin, p.turnFactor)))
  }

  /** The rescaling both clamp branches apply: x by `max_speed`, y by
      `min_speed`. */
  function Rescale(v: Vec2, speed: real, minSpeed: real, maxSpeed: real): Vec2
    requires speed != 0.0
  {
    Vec2(v.x / speed * maxSpeed, v.y / speed * minSpeed)
  }

  /** The speed clamp, with `speed` computed once before both tests. A zero
      speed leaves the velocity as it is (the frame loop would divide by
      zero there). */
  function ClampVelocity(v: Vec2, speed: real, minSpeed: real, maxSpeed: real): Vec2 {
    if speed == 0.0 then v
    else
      var v1 := if speed > maxSpeed then Rescale(v, speed, minSpeed, maxSpeed) else v;
      if speed < minSpeed then Rescale(v1, speed, minSpeed, maxSpeed) else v1
  }

  /** `length` is the vector length the caller measures velocities with. */
  function Clamped(b: Boid, p: Params, length: Vec2 -> real): (r: Boid)
    ensures r.pos == b.pos
  {
    Boid(b.pos, ClampVelocity(b.vel, length(b.vel), p.minSpeed, p.maxSpeed))
  }

  /** Integration: `pos += vel * dt`. */
  function Moved(b: Boid, dt: real): (r: Boid)
    ensures r.vel == b.vel
  {
    Boid(Add(b.pos, Scale(b.vel, dt)), b.vel)
  }

  // ---------------------------------------------------------------------------
  // Whole-flock passes and the tick
  // ---------------------------------------------------------------------------

  /** Every boid is separated against the same snapshot. */
  function SeparationPass(flock: seq<Boid>, p: Params): (r: seq<Boid>)
    ensures |r| == |flock|
    ensures forall i :: 0 <= i < |flock| ==> r[i].pos == flock[i].pos
  {
    seq(|flock|, i requires 0 <= i < |flock| => Separated(flock, flock[i], p))
  }

  function AlignmentPass(flock: seq<Boid>, p: Params): (r: seq<Boid>)
    ensures |r| == |flock|
    ensures forall i :: 0 <= i < |flock| ==> r[i].pos == flock[i].pos
  {
    seq(|flock|, i requires 0 <= i < |flock| => Aligned(flock, flock[i], p))
  }

  function CohesionPass(flock: seq<Boid>, p: Params): (r: seq<Boid>)
    ensures |r| == |flock|
    ensures forall i :: 0 <= i < |flock| ==> r[i].pos == flock[i].pos
  {
    seq(|flock|, i requires 0 <= i < |flock| => Cohered(flock, flock[i], p))
  }

  function EdgePass(flock: seq<Boid>, p: Params, width: real, height: real): (r: seq<Boid>)
    ensures |r| == |flock|
    ensures forall i :: 0 <= i < |flock| ==> r[i].pos == flock[i].pos
  {
    seq(|flock|, i requires 0 <= i < |flock| => Steered(flock[i], p, width, height))
  }

  function ClampPass(flock: seq<Boid>, p: Params, length: Vec2 -> real): (r: seq<Boid>)
    ensures |r| == |flock|
    ensures forall i :: 0 <= i < |flock| ==> r[i].pos == flock[i].pos
  {
    seq(|flock|, i requires 0 <= i < |flock| => Clamped(flock[i], p, length))
  }

  function IntegrationPass(flock: seq<Boid>, dt: real): (r: seq<Boid>)
    ensures |r| == |flock|
    ensures forall i :: 0 <= i < |flock| ==> r[i].vel == flock[i].vel
  {
    seq(|flock|, i requires 0 <= i < |flock| => Moved(flock[i], dt))
  }

  /** One tick: six passes, each reading the flock the previous one left. */
  function Step(flock: seq<Boid>, p: Params, width: real, height: real, dt: real,
                length: Vec2 -> real): seq<Boid>
  {
    var separated := SeparationPass(flock, p);
    var aligned := AlignmentPass(separated, p);
    var cohered := CohesionPass(aligned, p);
    var steered := EdgePass(cohered, p, width, height);
    var clamped := ClampPass(steered, p, length);
    IntegrationPass(clamped, dt)
  }

  /** A tick keeps the number of boids, and every boid ends one time step
      along its new velocity from where it started. */
  lemma StepMovesAlongNewVelocity(flock: seq<Boid>, p: Params, width: real, height: real,
                                  dt: real, length: Vec2 -> real)
    ensures var r := Step(flock, p, width, height, dt, length);
            |r| == |flock| &&
            forall i :: 0 <= i < |flock| ==> r[i].pos == Add(flock[i].pos, Scale(r[i].vel, dt))
  {
  }

  // ---------------------------------------------------------------------------
  // Properties of the rules
  // ---------------------------------------------------------------------------

  /** In a flock of two, separation pushes the boids apart by opposite
      amounts when they are inside the protected range, and leaves both
      velocities alone otherwise. */
  lemma SeparationOfTwo(a: Boid, b: Boid, p: Params)
    ensures var r := SeparationPass([a, b], p);
            if IsNeighbour(a.pos, b.pos, p.protectedRange) then
              r[0].vel == Add(a.vel, Scale(Sub(a.pos, b.pos), p.avoidFactor)) &&
              r[1].vel == Add(b.vel, Scale(Sub(b.pos, a.pos), p.avoidFactor))
            else
              r[0].vel == a.vel && r[1].vel == b.vel
  {
    var s := [a, b];
    assert s[..1] == [a];
    assert [a][..0] == [];
    NeighbourSymmetric(a.pos, b.pos, p.protectedRange);
    var r := SeparationPass(s, p);
    assert r[0] == Separated(s, a, p) && r[1] == Separated(s, b, p);
    if IsNeighbour(a.pos, b.pos, p.protectedRange) {
      assert Neighbours(s, a.pos, p.protectedRange) == [b];
      assert Neighbours(s, b.pos, p.protectedRange) == [a];
      assert [b][..0] == [];
      assert SumAway(a.pos, [b]) == Sub(a.pos, b.pos);
      assert SumAway(b.pos, [a]) == Sub(b.pos, a.pos);
    } else {
      assert Neighbours(s, a.pos, p.protectedRange) == [];
      assert Neighbours(s, b.pos, p.protectedRange) == [];
    }
  }

  /** With no visible neighbour the mean velocity stays zero, so alignment
      scales the velocity by `1 - matching_factor`. */
  lemma AlignmentWithoutNeighbours(snapshot: seq<Boid>, b: Boid, p: Params)
    requires forall o :: o in snapshot ==> !IsNeighbour(b.pos, o.pos, p.visibleRange)
    ensures Aligned(snapshot, b, p).vel == Scale(b.vel, 1.0 - p.matchingFactor)
  {
    NoNeighbours(snapshot, b.pos, p.visibleRange);
  }

  /** With no visible neighbour the mean position stays zero, so cohesion
      pulls toward the origin: the velocity gains `-pos * centring_factor`. */
  lemma CohesionWithoutNeighbours(snapshot: seq<Boid>, b: Boid, p: Params)
    requires forall o :: o in snapshot ==> !IsNeighbour(b.pos, o.pos, p.visibleRange)
    ensures Cohered(snapshot, b, p).vel == Add(b.vel, Scale(Neg(b.pos), p.centringFactor))
  {
    NoNeighbours(snapshot, b.pos, p.visibleRange);
  }

  /** With at least one visible neighbour, cohesion steers toward their
      centre of mass: the count times the target is the sum of their
      positions. */
  lemma CohesionTargetIsCentreOfMass(snapshot: seq<Boid>, b: Boid, p: Params, o: Boid)
    requires o in snapshot && IsNeighbour(b.pos, o.pos, p.visibleRange)
    ensures var ns := Neighbours(snapshot, b.pos, p.visibleRange);
            |ns| > 0 &&
            Scale(MeanPosition(snapshot, b.pos, p.visibleRange), |ns| as real) == SumPos(ns)
  {
    NeighboursExactly(snapshot, b.pos, p.visibleRange);
    assert o in Neighbours(snapshot, b.pos, p.visibleRange);
  }

  /** Edge steering treats the axes separately: the new x velocity depends
      on `pos.x` and `vel.x` alone, and the new y velocity on `pos.y` and
      `vel.y` alone. */
  lemma EdgeAxesIndependent(b: Boid, c: Boid, p: Params, width: real, height: real)
    ensures b.pos.x == c.pos.x && b.vel.x == c.vel.x ==>
            Steered(b, p, width, height).vel.x == Steered(c, p, width, height).vel.x
    ensures b.pos.y == c.pos.y && b.vel.y == c.vel.y ==>
            Steered(b, p, width, height).vel.y == Steered(c, p, width, height).vel.y
  {
  }

  /** The nudge along one axis: `+turnfactor` when only the low edge is
      near, `-turnfactor` when only the high edge is near, nothing between
      the margins, and the two cancel when both fire, which happens only on
      an extent narrower than two margins. */
  lemma EdgeNudge(coord: real, v: real, extent: real, margin: real, turnFactor: real)
    ensures margin <= coord <= extent - margin ==>
            SteerAxis(coord, v, extent, margin, turnFactor) == v
    ensures coord < margin && coord <= extent - margin ==>
            SteerAxis(coord, v, extent, margin, turnFactor) == v + turnFactor
    ensures margin <= coord && coord > extent - margin ==>
            SteerAxis(coord, v, extent, margin, turnFactor) == v - turnFactor
    ensures coord < margin && coord > extent - margin ==>
            extent < 2.0 * margin && SteerAxis(coord, v, extent, margin, turnFactor) == v
  {
  }

  /** The shape of the clamp. Within `[min_speed, max_speed]` nothing
      changes; above or below, x is rescaled to `max_speed` and y to
      `min_speed`; when the speed is both above `max_speed` and below
      `min_speed` the second branch rescales the first one's result by the
      same old speed, so each factor is applied twice. */
  lemma ClampShape(v: Vec2, speed: real, minSpeed: real, maxSpeed: real)
    requires speed != 0.0
    ensures minSpeed <= speed <= maxSpeed ==> ClampVelocity(v, speed, minSpeed, maxSpeed) == v
    ensures (speed > maxSpeed) != (speed < minSpeed) ==>
            ClampVelocity(v, speed, minSpeed, maxSpeed) ==
              Vec2(v.x / speed * maxSpeed, v.y / speed * minSpeed)
    ensures speed > maxSpeed && speed < minSpeed ==>
            ClampVelocity(v, speed, minSpeed, maxSpeed) ==
              Vec2(v.x * (maxSpeed / speed) * (maxSpeed / speed),
                   v.y * (minSpeed / speed) * (minSpeed / speed))
  {
  }

  /** A zero velocity is left as it is by the clamp. */
  lemma ClampKeepsZero(minSpeed: real, maxSpeed: real)
    ensures ClampVelocity(Zero, 0.0, minSpeed, maxSpeed) == Zero
  {
  }

  /** `speed` is the Euclidean length of `v`. */
  predicate IsLength(speed: real, v: Vec2) {
    0.0 <= speed && speed * speed == NormSq(v)
  }

  /** Whenever `min_speed <= max_speed` and the velocity is not zero, the
      clamped speed lies in `[min_speed, max_speed]`, despite the mixed
      factors: the rescaled squared speed is a weighted mean of
      `max_speed^2` and `min_speed^2`. */
  lemma ClampedSpeedInBounds(v: Vec2, speed: real, minSpeed: real, maxSpeed: real)
    requires IsLength(speed, v) && speed != 0.0
    requires 0.0 < minSpeed <= maxSpeed
    ensures var r := ClampVelocity(v, speed, minSpeed, maxSpeed);
            minSpeed * minSpeed <= NormSq(r) <= maxSpeed * maxSpeed
  {
    if minSpeed <= speed <= maxSpeed {
      assert ClampVelocity(v, speed, minSpeed, maxSpeed) == v;
      SquareMonotone(minSpeed, speed);
      SquareMonotone(speed, maxSpeed);
    } else {
      assert ClampVelocity(v, speed, minSpeed, maxSpeed) == Rescale(v, speed, minSpeed, maxSpeed);
      RescaledSpeedInBounds(v, speed, minSpeed, maxSpeed);
    }
  }

  /** The squared length of `Rescale(v, speed, ..)` for a non-zero `v` lies
      between `min_speed^2` and `max_speed^2`. */
  lemma RescaledSpeedInBounds(v: Vec2, speed: real, minSpeed: real, maxSpeed: real)
    requires IsLength(speed, v) && speed != 0.0
    requires 0.0 < minSpeed <= maxSpeed
    ensures var r := Rescale(v, speed, minSpeed, maxSpeed);
            minSpeed * minSpeed <= NormSq(r) <= maxSpeed * maxSpeed
  {
    UnitDirection(v, speed);
    MixBounds(v.x / speed, v.y / speed, minSpeed, maxSpeed);
  }

  /** Dividing a non-zero vector by its length gives a unit vector. */
  lemma UnitDirection(v: Vec2, speed: real)
    requires IsLength(speed, v) && speed != 0.0
    ensures (v.x / speed) * (v.x / speed) + (v.y / speed) * (v.y / speed) == 1.0
  {
    DivThenMul(v.x, speed);
    DivThenMul(v.y, speed);
    UnitProducts(v.x / speed, v.y / speed, v.x, v.y, speed);
  }

  /** Scaling a unit vector's x by `n` and its y by `m <= n` gives a squared
      length between `m^2` and `n^2`. */
  lemma MixBounds(a: real, b: real, m: real, n: real)
    requires a * a + b * b == 1.0 && 0.0 < m <= n
    ensures m * m <= (a * n) * (a * n) + (b * m) * (b * m) <= n * n
  {
    SquareMonotone(m, n);
    SquareNonneg(a);
    SquareNonneg(b);
    ScaledSquares(a, b, m, n);
    ConvexBounds(a * a, b * b, m * m, n * n);
  }

  // ---------------------------------------------------------------------------
  // Spawn
  // ---------------------------------------------------------------------------

  /** A sample of the uniform random generator, in `[0, 1)`. */
  predicate IsSample(r: real) {
    0.0 <= r < 1.0
  }

  /** The boid the Spawn button pushes, built from four samples. */
  function Spawned(width: real, height: real, maxSpeed: real,
                   rx: real, ry: real, rvx: real, rvy: real): Boid
  {
    Boid(Vec2(rx * width, ry * height), Vec2(rvx * maxSpeed * 20.0, rvy * maxSpeed * 20.0))
  }

  /** A spawned boid lies on the screen, `[0, width) x [0, height)`, and each
      velocity component lies in `[0, 20 * max_speed)`. */
  lemma SpawnedInBounds(width: real, height: real, maxSpeed: real,
                        rx: real, ry: real, rvx: real, rvy: real)
    requires 0.0 < width && 0.0 < height && 0.0 < maxSpeed
    requires IsSample(rx) && IsSample(ry) && IsSample(rvx) && IsSample(rvy)
    ensures var b := Spawned(width, height, maxSpeed, rx, ry, rvx, rvy);
            0.0 <= b.pos.x < width && 0.0 <= b.pos.y < height &&
            0.0 <= b.vel.x < 20.0 * maxSpeed && 0.0 <= b.vel.y < 20.0 * maxSpeed
  {
    SampleScaled(rx, width);
    SampleScaled(ry, height);
    SampleScaled(rvx, maxSpeed * 20.0);
    SampleScaled(rvy, maxSpeed * 20.0);
  }

  lemma SampleScaled(r: real, k: real)
    requires IsSample(r) && 0.0 < k
    ensures 0.0 <= r * k < k
  {
    assert r * k < 1.0 * k;
  }
}
