/** The frame loop's flocking update as it runs: a flock whose boids are
    updated in place, pass after pass, each pass that looks at other boids
    reading a clone taken when the pass begins. Every method is proved equal
    to the matching pass of module Flocking. */
module Simulation {
  import opened Vectors
  import opened Flocking

  // ---------------------------------------------------------------------------
  // The inner scans: one boid against the whole clone
  // ---------------------------------------------------------------------------

  /** Separation's scan: `close_d` summed over the clone. */
  method ScanSeparation(snapshot: seq<Boid>, pos: Vec2, protectedRange: real)
    returns (closeD: Vec2)
    ensures closeD == SumAway(pos, Neighbours(snapshot, pos, protectedRange))
  {
    closeD := Zero;
    var j := 0;
    while j < |snapshot|
      invariant 0 <= j <= |snapshot|
      invariant closeD == SumAway(pos, Neighbours(snapshot[..j], pos, protectedRange))
    {
      var other := snapshot[j];
      ghost var before := Neighbours(snapshot[..j], pos, protectedRange);
      assert snapshot[..j + 1][..j] == snapshot[..j];
      if IsNeighbour(pos, other.pos, protectedRange) {
        closeD := Add(closeD, Sub(pos, other.pos));
        assert (before + [other])[..|before|] == before;
      }
      j := j + 1;
    }
    assert snapshot[..j] == snapshot;
  }

  /** Alignment's scan: the mean velocity of the visible neighbours, or zero
      when there is none. */
  method ScanAlignment(snapshot: seq<Boid>, pos: Vec2, visibleRange: real)
    returns (velAvg: Vec2)
    ensures velAvg == MeanVelocity(snapshot, pos, visibleRange)
  {
    velAvg := Zero;
    var neighbouringBoids: nat := 0;
    var j := 0;
    while j < |snapshot|
      invariant 0 <= j <= |snapshot|
      invariant velAvg == SumVel(Neighbours(snapshot[..j], pos, visibleRange))
      invariant neighbouringBoids == |Neighbours(snapshot[..j], pos, visibleRange)|
    {
      var other := snapshot[j];
      ghost var before := Neighbours(snapshot[..j], pos, visibleRange);
      assert snapshot[..j + 1][..j] == snapshot[..j];
      if IsNeighbour(pos, other.pos, visibleRange) {
        velAvg := Add(velAvg, other.vel);
        neighbouringBoids := neighbouringBoids + 1;
        assert (before + [other])[..|before|] == before;
      }
      j := j + 1;
    }
    assert snapshot[..j] == snapshot;
    if neighbouringBoids > 0 {
      velAvg := Div(velAvg, neighbouringBoids as real);
    }
  }

  /** Cohesion's scan: the mean position of the visible neighbours, or zero
      when there is none. */
  method ScanCohesion(snapshot: seq<Boid>, pos: Vec2, visibleRange: real)
    returns (posAvg: Vec2)
    ensures posAvg == MeanPosition(snapshot, pos, visibleRange)
  {
    posAvg := Zero;
    var neighbouringBoids: nat := 0;
    var j := 0;
    while j < |snapshot|
      invariant 0 <= j <= |snapshot|
      invariant posAvg == SumPos(Neighbours(snapshot[..j], pos, visibleRange))
      invariant neighbouringBoids == |Neighbours(snapshot[..j], pos, visibleRange)|
    {
      var other := snapshot[j];
      ghost var before := Neighbours(snapshot[..j], pos, visibleRange);
      assert snapshot[..j + 1][..j] == snapshot[..j];
      if IsNeighbour(pos, other.pos, visibleRange) {
        posAvg := Add(posAvg, other.pos);
        neighbouringBoids := neighbouringBoids + 1;
        assert (before + [other])[..|before|] == before;
      }
      j := j + 1;
    }
    assert snapshot[..j] == snapshot;
    if neighbouringBoids > 0 {
      posAvg := Div(posAvg, neighbouringBoids as real);
    }
  }

  // ---------------------------------------------------------------------------
  // The flock
  // ---------------------------------------------------------------------------

  class Flock {
    var boids: seq<Boid>

    constructor (initial: seq<Boid>)
      ensures boids == initial
    {
      boids := initial;
    }

    /** Separation over the whole flock, against a clone taken first. */
    method Separate(p: Params)
      modifies this
      ensures boids == SeparationPass(old(boids), p)
    {
      var snapshot := boids;
      var i := 0;
      while i < |boids|
        invariant 0 <= i <= |boids| == |snapshot|
        invariant forall k :: 0 <= k < i ==> boids[k] == Separated(snapshot, snapshot[k], p)
        invariant forall k :: i <= k < |boids| ==> boids[k] == snapshot[k]
      {
        var boid := boids[i];
        var closeD := ScanSeparation(snapshot, boid.pos, p.protectedRange);
        boids := boids[i := Boid(boid.pos, Add(boid.vel, Scale(closeD, p.avoidFactor)))];
        i := i + 1;
      }
    }

    /** Alignment over the whole flock, against a clone of the separated
        flock. */
    method Align(p: Params)
      modifies this
      ensures boids == AlignmentPass(old(boids), p)
    {
      var snapshot := boids;
      var i := 0;
      while i < |boids|
        invariant 0 <= i <= |boids| == |snapshot|
        invariant forall k :: 0 <= k < i ==> boids[k] == Aligned(snapshot, snapshot[k], p)
        invariant forall k :: i <= k < |boids| ==> boids[k] == snapshot[k]
      {
        var boid := boids[i];
        var velAvg := ScanAlignment(snapshot, boid.pos, p.visibleRange);
        boids := boids[i := Boid(boid.pos, Add(boid.vel, Scale(Sub(velAvg, boid.vel), p.matchingFactor)))];
        i := i + 1;
      }
    }

    /** Cohesion over the whole flock, against a clone of the aligned
        flock. */
    method Cohere(p: Params)
      modifies this
      ensures boids == CohesionPass(old(boids), p)
    {
      var snapshot := boids;
      var i := 0;
      while i < |boids|
        invariant 0 <= i <= |boids| == |snapshot|
        invariant forall k :: 0 <= k < i ==> boids[k] == Cohered(snapshot, snapshot[k], p)
        invariant forall k :: i <= k < |boids| ==> boids[k] == snapshot[k]
      {
        var boid := boids[i];
        var posAvg := ScanCohesion(snapshot, boid.pos, p.visibleRange);
        boids := boids[i := Boid(boid.pos, Add(boid.vel, Scale(Sub(posAvg, boid.pos), p.centringFactor)))];
        i := i + 1;
      }
    }

    /** Screen-edge steering; each boid looks only at itself. */
    method SteerFromEdges(p: Params, width: real, height: real)
      modifies this
      ensures boids == EdgePass(old(boids), p, width, height)
    {
      var i := 0;
      while i < |boids|
        invariant 0 <= i <= |boids| == |old(boids)|
        invariant forall k :: 0 <= k < i ==> boids[k] == Steered(old(boids)[k], p, width, height)
        invariant forall k :: i <= k < |boids| ==> boids[k] == old(boids)[k]
      {
        var boid := boids[i];
        var vx, vy := boid.vel.x, boid.vel.y;
        if boid.pos.x < p.margin {
          vx := vx + p.turnFactor;
        }
        if boid.pos.x > width - p.margin {
          vx := vx - p.turnFactor;
        }
        if boid.pos.y < p.margin {
          vy := vy + p.turnFactor;
        }
        if boid.pos.y > height - p.margin {
          vy := vy - p.turnFactor;
        }
        boids := boids[i := Boid(boid.pos, Vec2(vx, vy))];
        i := i + 1;
      }
    }

    /** The speed clamp; `length` measures each velocity once, before both
        tests. */
    method ClampSpeeds(p: Params, length: Vec2 -> real)
      modifies this
      ensures boids == ClampPass(old(boids), p, length)
    {
      var i := 0;
      while i < |boids|
        invariant 0 <= i <= |boids| == |old(boids)|
        invariant forall k :: 0 <= k < i ==> boids[k] == Clamped(old(boids)[k], p, length)
        invariant forall k :: i <= k < |boids| ==> boids[k] == old(boids)[k]
      {
        var boid := boids[i];
        var speed := length(boid.vel);
        var vel := boid.vel;
        if speed != 0.0 {
          if speed > p.maxSpeed {
            vel := Rescale(vel, speed, p.minSpeed, p.maxSpeed);
          }
          if speed < p.minSpeed {
            vel := Rescale(vel, speed, p.minSpeed, p.maxSpeed);
          }
        }
        boids := boids[i := Boid(boid.pos, vel)];
        i := i + 1;
      }
    }

    /** `pos += vel * dt` for every boid. */
    method Integrate(dt: real)
      modifies this
      ensures boids == IntegrationPass(old(boids), dt)
    {
      var i := 0;
      while i < |boids|
        invariant 0 <= i <= |boids| == |old(boids)|
        invariant forall k :: 0 <= k < i ==> boids[k] == Moved(old(boids)[k], dt)
        invariant forall k :: i <= k < |boids| ==> boids[k] == old(boids)[k]
      {
        var boid := boids[i];
        boids := boids[i := Boid(Add(boid.pos, Scale(boid.vel, dt)), boid.vel)];
        i := i + 1;
      }
    }

    /** One frame of the simulation, the six passes in the frame loop's
        order. */
    method Tick(p: Params, width: real, height: real, dt: real, length: Vec2 -> real)
      modifies this
      ensures boids == Step(old(boids), p, width, height, dt, length)
    {
      Separate(p);
      Align(p);
      Cohere(p);
      SteerFromEdges(p, width, height);
      ClampSpeeds(p, length);
      Integrate(dt);
    }

    /** The Spawn button: push one boid built from four samples of the
        random generator, and hand it back for the log line. */
    method Spawn(width: real, height: real, maxSpeed: real,
                 rx: real, ry: real, rvx: real, rvy: real)
      returns (spawned: Boid)
      modifies this
      ensures spawned == Spawned(width, height, maxSpeed, rx, ry, rvx, rvy)
      ensures boids == old(boids) + [spawned]
    {
      spawned := Boid(Vec2(rx * width, ry * height),
                      Vec2(rvx * maxSpeed * 20.0, rvy * maxSpeed * 20.0));
      boids := boids + [spawned];
    }
  }
}
