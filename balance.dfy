/** Separation pushes every pair of neighbours apart by opposite amounts:
    if b is within a's protected range, a gains `a.pos - b.pos` and b gains
    `b.pos - a.pos`. Summed over the flock, the pushes cancel, so the
    separation pass leaves the flock's total velocity unchanged. The sums
    below lay the pushes out as a square, row i holding what boid i gains
    from every boid j of the snapshot. */
module SeparationBalance {
  import opened Vectors
  import opened Flocking

  /** What boid `j` of the snapshot adds to boid `i`'s `close_d`. */
  function Push(s: seq<Boid>, i: nat, j: nat, range: real): Vec2
    requires i < |s| && j < |s|
  {
    if IsNeighbour(s[i].pos, s[j].pos, range) then Sub(s[i].pos, s[j].pos) else Zero
  }

  /** Row `i` of the square, over the columns `j < m`. */
  function RowSum(s: seq<Boid>, i: nat, m: nat, range: real): Vec2
    requires i < |s| && m <= |s|
  {
    if m == 0 then Zero else Add(RowSum(s, i, m - 1, range), Push(s, i, m - 1, range))
  }

  /** Column `j` of the square, over the rows `i < m`. */
  function ColSum(s: seq<Boid>, j: nat, m: nat, range: real): Vec2
    requires j < |s| && m <= |s|
  {
    if m == 0 then Zero else Add(ColSum(s, j, m - 1, range), Push(s, m - 1, j, range))
  }

  /** The rows `i < k` of the square, each over the columns `j < m`. */
  function RowsSum(s: seq<Boid>, k: nat, m: nat, range: real): Vec2
    requires k <= |s| && m <= |s|
  {
    if k == 0 then Zero else Add(RowsSum(s, k - 1, m, range), RowSum(s, k - 1, m, range))
  }

  /** Row `i` is the `close_d` that boid `i`'s scan accumulates. */
  lemma {:induction false} RowIsCloseD(s: seq<Boid>, i: nat, m: nat, range: real)
    requires i < |s| && m <= |s|
    ensures SumAway(s[i].pos, Neighbours(s[..m], s[i].pos, range)) == RowSum(s, i, m, range)
  {
    if m > 0 {
      RowIsCloseD(s, i, m - 1, range);
      assert s[..m][..m - 1] == s[..m - 1];
      var ns := Neighbours(s[..m - 1], s[i].pos, range);
      if IsNeighbour(s[i].pos, s[m - 1].pos, range) {
        assert (ns + [s[m - 1]])[..|ns|] == ns;
      }
    }
  }

  /** Column `n` is the opposite of row `n`: what `n` gives the others is
      what it takes from them, reversed. */
  lemma {:induction false} ColIsNegRow(s: seq<Boid>, n: nat, m: nat, range: real)
    requires n < |s| && m <= |s|
    ensures ColSum(s, n, m, range) == Neg(RowSum(s, n, m, range))
  {
    if m > 0 {
      ColIsNegRow(s, n, m - 1, range);
      NeighbourSymmetric(s[m - 1].pos, s[n].pos, range);
    }
  }

  /** Widening the rows by one column adds that column. */
  lemma {:induction false} RowsGrow(s: seq<Boid>, k: nat, m: nat, range: real)
    requires k <= |s| && m < |s|
    ensures RowsSum(s, k, m + 1, range) == Add(RowsSum(s, k, m, range), ColSum(s, m, k, range))
  {
    if k > 0 {
      RowsGrow(s, k - 1, m, range);
    }
  }

  /** The pushes among the first `n` boids cancel. */
  lemma {:induction false} SquareCancels(s: seq<Boid>, n: nat, range: real)
    requires n <= |s|
    ensures RowsSum(s, n, n, range) == Zero
  {
    if n > 0 {
      SquareCancels(s, n - 1, range);
      RowsGrow(s, n - 1, n - 1, range);
      ColIsNegRow(s, n - 1, n - 1, range);
    }
  }

  /** The pushes `d[i]` for `i < k`, added up. */
  function PushTotal(d: seq<Vec2>, k: nat): Vec2
    requires k <= |d|
  {
    if k == 0 then Zero else Add(PushTotal(d, k - 1), d[k - 1])
  }

  /** Boid `i` of `r` is boid `i` of `flock` with `d[i]` added to its
      velocity. */
  predicate Pushed(flock: seq<Boid>, r: seq<Boid>, d: seq<Vec2>) {
    |r| == |flock| == |d| &&
    forall i {:trigger r[i]} :: 0 <= i < |flock| ==> r[i].vel == Add(flock[i].vel, d[i])
  }

  /** The first `k` pushed boids carry the first `k` velocities plus the
      first `k` pushes. */
  lemma {:induction false} PushedPrefix(flock: seq<Boid>, r: seq<Boid>, d: seq<Vec2>, k: nat)
    requires Pushed(flock, r, d) && k <= |flock|
    ensures SumVel(r[..k]) == Add(SumVel(flock[..k]), PushTotal(d, k))
  {
    if k > 0 {
      PushedPrefix(flock, r, d, k - 1);
      SumVelSnoc(r, k);
      SumVelSnoc(flock, k);
      assert r[k - 1].vel == Add(flock[k - 1].vel, d[k - 1]);
    } else {
      assert r[..0] == [] && flock[..0] == [];
    }
  }

  /** The separation pushes: row `i` scaled by `avoid_factor`. */
  function SeparationPushes(flock: seq<Boid>, p: Params): (d: seq<Vec2>)
    ensures |d| == |flock|
  {
    seq(|flock|, i requires 0 <= i < |flock| =>
      Scale(RowSum(flock, i, |flock|, p.protectedRange), p.avoidFactor))
  }

  /** The separation pass pushes every boid by its scaled row. */
  lemma SeparationPassPushes(flock: seq<Boid>, p: Params)
    ensures Pushed(flock, SeparationPass(flock, p), SeparationPushes(flock, p))
  {
    var r := SeparationPass(flock, p);
    var d := SeparationPushes(flock, p);
    assert flock[..|flock|] == flock;
    forall i | 0 <= i < |flock|
      ensures r[i].vel == Add(flock[i].vel, d[i])
    {
      RowIsCloseD(flock, i, |flock|, p.protectedRange);
    }
  }

  /** Adding the scaled rows is scaling the total of the rows. */
  lemma {:induction false} PushTotalIsScaledRows(flock: seq<Boid>, p: Params, k: nat)
    requires k <= |flock|
    ensures PushTotal(SeparationPushes(flock, p), k) ==
            Scale(RowsSum(flock, k, |flock|, p.protectedRange), p.avoidFactor)
  {
    if k > 0 {
      PushTotalIsScaledRows(flock, p, k - 1);
      ScaleDistributes(RowsSum(flock, k - 1, |flock|, p.protectedRange),
                       RowSum(flock, k - 1, |flock|, p.protectedRange), p.avoidFactor);
    }
  }

  lemma SumVelSnoc(s: seq<Boid>, k: nat)
    requires 0 < k <= |s|
    ensures SumVel(s[..k]) == Add(SumVel(s[..k - 1]), s[k - 1].vel)
  {
    assert s[..k][..k - 1] == s[..k - 1];
  }

  /** Separation leaves the flock's total velocity unchanged. */
  lemma SeparationConservesVelocity(flock: seq<Boid>, p: Params)
    ensures SumVel(SeparationPass(flock, p)) == SumVel(flock)
  {
    var r := SeparationPass(flock, p);
    SeparationPassPushes(flock, p);
    PushedPrefix(flock, r, SeparationPushes(flock, p), |flock|);
    PushTotalIsScaledRows(flock, p, |flock|);
    SquareCancels(flock, |flock|, p.protectedRange);
    assert r[..|flock|] == r;
    assert flock[..|flock|] == flock;
  }
}
