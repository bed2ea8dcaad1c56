/**
 * Weighted choice of one candidate, standing in for `random.choices(domains,
 * weights=..., k=1)`. The uniform random source becomes an explicit integer
 * draw `r` with `0 <= r < TotalWeight(c)`; candidate `i` is chosen exactly
 * for the draws in `[WeightBefore(c, i), WeightBefore(c, i + 1))`, an
 * interval of length `c[i].weight`, as a cumulative-weight search does.
 */
module WeightedChoice {
  import opened PoolConfig

  /** Sum of the weights of the first `n` candidates (the cumulative weight). */
  function WeightBefore(c: seq<Candidate>, n: nat): nat
    requires n <= |c|
  {
    if n == 0 then 0 else WeightBefore(c, n - 1) + c[n - 1].weight
  }

  /**
   * The cumulative weight of the first `n` candidates is at least each of
   * their weights, and it is zero exactly when all of them weigh zero.
   */
  lemma {:induction false} WeightBeforeBounds(c: seq<Candidate>, n: nat)
    requires n <= |c|
    ensures forall k :: 0 <= k < n ==> c[k].weight <= WeightBefore(c, n)
    ensures WeightBefore(c, n) == 0 <==> forall k :: 0 <= k < n ==> c[k].weight == 0
  {
    if n > 0 {
      WeightBeforeBounds(c, n - 1);
    }
  }

  /**
   * Sum of all the weights of a candidate list: positive exactly when some
   * candidate has a positive weight (otherwise `random.choices` raises).
   */
  function TotalWeight(c: seq<Candidate>): (w: nat)
    ensures forall k :: 0 <= k < |c| ==> c[k].weight <= w
    ensures w > 0 <==> exists k :: 0 <= k < |c| && c[k].weight > 0
  {
    WeightBeforeBounds(c, |c|);
    WeightBefore(c, |c|)
  }

  /** Draw `r` falls into the interval that candidate `i` owns. */
  predicate Owns(c: seq<Candidate>, i: nat, r: nat) {
    i < |c| && WeightBefore(c, i) <= r < WeightBefore(c, i + 1)
  }

  lemma {:induction false} WeightBeforeMonotone(c: seq<Candidate>, m: nat, n: nat)
    requires m <= n <= |c|
    ensures WeightBefore(c, m) <= WeightBefore(c, n)
  {
    if m < n {
      WeightBeforeMonotone(c, m, n - 1);
    }
  }

  /** Every draw is owned by at most one candidate: the intervals do not overlap. */
  lemma OwnerIsUnique(c: seq<Candidate>, i: nat, j: nat, r: nat)
    requires Owns(c, i, r) && Owns(c, j, r)
    ensures i == j
  {
    if i < j {
      WeightBeforeMonotone(c, i + 1, j);
    } else if j < i {
      WeightBeforeMonotone(c, j + 1, i);
    }
  }

  /**
   * The candidate chosen for draw `r`, searching from index `k` on; a zero
   * weight owns an empty interval and is never chosen.
   */
  function PickFrom(c: seq<Candidate>, r: nat, k: nat): (i: nat)
    requires k <= |c| && WeightBefore(c, k) <= r < TotalWeight(c)
    ensures k <= i && Owns(c, i, r) && c[i].weight > 0
    decreases |c| - k
  {
    if r < WeightBefore(c, k + 1) then k else PickFrom(c, r, k + 1)
  }

  /** The candidate chosen for draw `r`. */
  function Pick(c: seq<Candidate>, r: nat): (i: nat)
    requires r < TotalWeight(c)
    ensures Owns(c, i, r) && c[i].weight > 0
  {
    PickFrom(c, r, 0)
  }

  /**
   * The cumulative-weight linear scan: the first index whose cumulative
   * weight exceeds the draw (what `bisect_right` over the cumulative weights
   * returns).
   */
  method ChooseIndex(c: seq<Candidate>, r: nat) returns (i: nat)
    requires r < TotalWeight(c)
    ensures Owns(c, i, r)
  {
    i := 0;
    var cumulative := c[0].weight;
    while cumulative <= r
      invariant i < |c|
      invariant cumulative == WeightBefore(c, i + 1)
      invariant WeightBefore(c, i) <= r
      decreases |c| - i
    {
      i := i + 1;
      cumulative := cumulative + c[i].weight;
    }
  }

  /** The equally likely draws `lo, lo + 1, ..., hi - 1`. */
  function DrawRange(lo: nat, hi: nat): (s: set<nat>)
    requires lo <= hi
    ensures |s| == hi - lo
    ensures forall r :: r in s <==> lo <= r < hi
    decreases hi - lo
  {
    if lo == hi then {} else DrawRange(lo, hi - 1) + {hi - 1}
  }

  /** Candidate `i` is picked for draw `r` exactly when it owns `r`. */
  lemma PickIffOwns(c: seq<Candidate>, i: nat, r: nat)
    requires r < TotalWeight(c)
    ensures Pick(c, r) == i <==> Owns(c, i, r)
  {
    if Owns(c, i, r) {
      OwnerIsUnique(c, i, Pick(c, r), r);
    }
  }

  /**
   * Candidate `i` is picked for exactly `c[i].weight` of the `TotalWeight(c)`
   * equally likely draws, so its probability is `weight / total`.
   */
  lemma DrawsOwnedByCandidate(c: seq<Candidate>, i: nat)
    requires i < |c|
    ensures |set r | r in DrawRange(0, TotalWeight(c)) && Pick(c, r) == i| == c[i].weight
  {
    WeightBeforeMonotone(c, i + 1, |c|);
    var lo, hi := WeightBefore(c, i), WeightBefore(c, i + 1);
    var owned := set r | r in DrawRange(0, TotalWeight(c)) && Owns(c, i, r);
    assert owned == DrawRange(lo, hi);
    forall r | r in DrawRange(0, TotalWeight(c))
      ensures Pick(c, r) == i <==> Owns(c, i, r)
    {
      PickIffOwns(c, i, r);
    }
    assert (set r | r in DrawRange(0, TotalWeight(c)) && Pick(c, r) == i) == owned;
  }

  /** Every candidate with a positive weight is chosen for some draw. */
  lemma PositiveWeightIsReachable(c: seq<Candidate>, i: nat)
    requires i < |c| && c[i].weight > 0
    ensures WeightBefore(c, i) < TotalWeight(c) && Pick(c, WeightBefore(c, i)) == i
  {
    WeightBeforeMonotone(c, i + 1, |c|);
    OwnerIsUnique(c, i, Pick(c, WeightBefore(c, i)), WeightBefore(c, i));
  }
}
