/** The loop that rebuilds the funding transaction until its fee matches its weight. */
module FeeLoop {
  import opened Types

  /** One funding to be paid for: weight of the unsigned transaction as a function of the fee
      it is built with, whether the builder manages with that fee if the inputs cover it, weight
      of one input's witness, number and worth of the inputs. */
  datatype Job = Job(
    weight: nat -> nat, builds: nat -> bool, satisfaction: nat, inputs: nat, total: nat, amount: nat, feerate: U32)

  /** How the loop ends: with a transaction paying `fee` after some constructions, with a
      construction that fails, or not at all. */
  datatype Ending = Settled(fee: nat, constructions: nat) | Failed(fee: nat) | Endless

  function FirstEstimate(feerate: U32): nat { 2 * feerate }

  /** Weight of the transaction with all its witnesses. */
  function FullWeight(job: Job, fee: nat): nat {
    job.weight(fee) + job.satisfaction * job.inputs
  }

  function FeeFor(weight: nat, feerate: U32): nat { weight * feerate / 1000 }

  function PreciseFee(job: Job, fee: nat): nat { FeeFor(FullWeight(job, fee), job.feerate) }

  predicate Covered(job: Job, fee: nat) { job.amount + fee <= job.total }

  /** A construction fails if the inputs do not cover the fee, and may fail for other reasons. */
  predicate Constructs(job: Job, fee: nat) { Covered(job, fee) && job.builds(fee) }

  /** The fee of the k-th construction. */
  function Estimate(job: Job, k: nat): nat {
    if k == 0 then FirstEstimate(job.feerate) else PreciseFee(job, Estimate(job, k - 1))
  }

  /** The construction at which the loop leaves: it fails, or its fee is exact. */
  predicate Leaves(job: Job, k: nat) {
    !Constructs(job, Estimate(job, k)) || Estimate(job, k + 1) == Estimate(job, k)
  }

  /** The ending reached from the k-th construction; Endless if there is none in the rounds given. */
  function EndingFrom(job: Job, k: nat, rounds: nat): Ending
    decreases rounds
  {
    if rounds == 0 then Endless
    else if !Constructs(job, Estimate(job, k)) then Failed(Estimate(job, k))
    else if Estimate(job, k + 1) == Estimate(job, k) then Settled(Estimate(job, k), k + 1)
    else EndingFrom(job, k + 1, rounds - 1)
  }

  /** The loop has ended after this many constructions, or it never does. */
  function Bound(job: Job): nat {
    if job.total < job.amount then 1 else job.total - job.amount + 2
  }

  function EndingOf(job: Job): Ending { EndingFrom(job, 0, Bound(job)) }

  // ---------- When the loop ends ----------

  lemma {:induction false} EndsExactlyWhenLeaving(job: Job, k: nat, rounds: nat)
    ensures EndingFrom(job, k, rounds).Endless? <==> forall j | k <= j < k + rounds :: !Leaves(job, j)
    decreases rounds
  {
    if rounds > 0 {
      EndsExactlyWhenLeaving(job, k + 1, rounds - 1);
      assert !Leaves(job, k) ==> EndingFrom(job, k, rounds) == EndingFrom(job, k + 1, rounds - 1);
    }
  }

  /** An ending stays what it is when more rounds are given. */
  lemma {:induction false} MoreRounds(job: Job, k: nat, rounds: nat, more: nat)
    requires rounds <= more && !EndingFrom(job, k, rounds).Endless?
    ensures EndingFrom(job, k, more) == EndingFrom(job, k, rounds)
    decreases rounds
  {
    if Constructs(job, Estimate(job, k)) && Estimate(job, k + 1) != Estimate(job, k) {
      MoreRounds(job, k + 1, rounds - 1, more - 1);
    }
  }

  function Numbers(n: nat): set<nat> { if n == 0 then {} else Numbers(n - 1) + {n - 1} }

  lemma {:induction false} NumbersCount(n: nat)
    ensures |Numbers(n)| == n && forall x: nat :: x in Numbers(n) <==> x < n
  {
    if n > 0 {
      NumbersCount(n - 1);
    }
  }

  function Elements(xs: seq<nat>): set<nat> { set x | x in xs }

  lemma {:induction false} DistinctCount(xs: seq<nat>)
    requires forall i, j | 0 <= i < j < |xs| :: xs[i] != xs[j]
    ensures |Elements(xs)| == |xs|
    decreases |xs|
  {
    if xs != [] {
      var init, last := xs[..|xs| - 1], xs[|xs| - 1];
      DistinctCount(init);
      assert xs == init + [last] && last !in init;
      assert Elements(xs) == Elements(init) + {last};
    }
  }

  lemma SubsetCount(xs: set<nat>, ys: set<nat>)
    requires xs <= ys
    ensures |xs| <= |ys|
  {
    assert ys == xs + (ys - xs);
  }

  /** Pigeonhole: among more numbers than there are values, one comes back. */
  lemma Pigeonhole(xs: seq<nat>, n: nat) returns (i: nat, j: nat)
    requires |xs| > n && forall k | 0 <= k < |xs| :: xs[k] < n
    ensures i < j < |xs| && xs[i] == xs[j]
  {
    if forall i, j | 0 <= i < j < |xs| :: xs[i] != xs[j] {
      DistinctCount(xs);
      NumbersCount(n);
      assert Elements(xs) <= Numbers(n);
      SubsetCount(Elements(xs), Numbers(n));
      assert false;
    }
    i, j :| 0 <= i < j < |xs| && xs[i] == xs[j];
  }

  predicate Same(e: nat -> nat, a: nat, b: nat) { e(a) == e(b) }

  /** Numbers each determined by the one before: after a repetition nothing new comes. */
  lemma {:induction false} NothingNew(e: nat -> nat, i: nat, j: nat, k: nat) returns (m: nat)
    requires i < j && e(i) == e(j)
    requires forall a: nat, b: nat | Same(e, a, b) :: e(a + 1) == e(b + 1)
    ensures m < j && e(m) == e(k)
  {
    if k < j {
      m := k;
    } else {
      m := NothingNew(e, i, j, k - 1);
      assert Same(e, m, k - 1);
      m := if m + 1 == j then i else m + 1;
    }
  }

  lemma SameFeeSameNext(job: Job, a: nat, b: nat)
    requires Estimate(job, a) == Estimate(job, b)
    ensures Estimate(job, a + 1) == Estimate(job, b + 1)
  {
  }

  /** While the fees are covered, one of them comes back within the bound. */
  lemma FeeComesBack(job: Job) returns (i: nat, j: nat)
    requires forall k | 0 <= k < Bound(job) :: !Leaves(job, k)
    ensures i < j < Bound(job) && Estimate(job, i) == Estimate(job, j)
  {
    assert !Leaves(job, 0);
    var n := Bound(job);
    var fees := seq(n, i requires 0 <= i < n => Estimate(job, i));
    forall i | 0 <= i < n
      ensures fees[i] < n - 1
    {
      assert !Leaves(job, i);
    }
    i, j := Pigeonhole(fees, n - 1);
  }

  /** So what did not leave by then never does. */
  lemma NeverLeavesLater(job: Job, k: nat)
    requires forall j | 0 <= j < Bound(job) :: !Leaves(job, j)
    ensures !Leaves(job, k)
  {
    var i, j := FeeComesBack(job);
    var e := (i: nat) => Estimate(job, i);
    forall a: nat, b: nat | Same(e, a, b)
      ensures e(a + 1) == e(b + 1)
    {
      SameFeeSameNext(job, a, b);
    }
    var m := NothingNew(e, i, j, k);
    LeavesAlike(job, m, k);
  }

  lemma LeavesAlike(job: Job, a: nat, b: nat)
    requires Estimate(job, a) == Estimate(job, b)
    ensures Leaves(job, a) <==> Leaves(job, b)
  {
    SameFeeSameNext(job, a, b);
  }

  /** The loop ends if and only if it does within the bound: `total - amount + 2` constructions. */
  lemma EndsWithinBound(job: Job)
    ensures EndingOf(job).Endless? <==> forall k: nat :: !Leaves(job, k)
  {
    var n := Bound(job);
    EndsExactlyWhenLeaving(job, 0, n);
    if EndingOf(job).Endless? {
      forall k: nat
        ensures !Leaves(job, k)
      {
        NeverLeavesLater(job, k);
      }
    }
  }

  /** What more rounds than the bound would show. */
  lemma BoundIsEnough(job: Job, rounds: nat)
    ensures !EndingFrom(job, 0, rounds).Endless? ==> EndingFrom(job, 0, rounds) == EndingOf(job)
  {
    if !EndingFrom(job, 0, rounds).Endless? {
      EndsWithinBound(job);
      EndsExactlyWhenLeaving(job, 0, rounds);
      if rounds <= Bound(job) {
        MoreRounds(job, 0, rounds, Bound(job));
      } else {
        MoreRounds(job, 0, Bound(job), rounds);
      }
    }
  }

  /** The wallet's loop. A fee it settles for is the exact fee of the transaction built with it
      and is covered by the inputs. The loop is left after `Bound(job)` constructions, when it
      would go on for ever. */
  method SettleFee(job: Job) returns (r: Ending)
    ensures r == EndingOf(job)
    ensures r.Settled? ==> r.fee == PreciseFee(job, r.fee) && Constructs(job, r.fee) && r.constructions <= Bound(job)
    ensures r.Endless? <==> forall k: nat :: !Leaves(job, k)
  {
    EndsWithinBound(job);
    var fee, k := FirstEstimate(job.feerate), 0;
    while k < Bound(job)
      invariant k <= Bound(job) && fee == Estimate(job, k)
      invariant EndingFrom(job, 0, Bound(job)) == EndingFrom(job, k, Bound(job) - k)
    {
      if job.amount + fee > job.total || !job.builds(fee) {
        return Failed(fee);
      }
      var precise := (job.weight(fee) + job.satisfaction * job.inputs) * job.feerate / 1000;
      assert precise == Estimate(job, k + 1);
      if precise == fee {
        return Settled(fee, k + 1);
      }
      fee, k := precise, k + 1;
    }
    r := Endless;
  }

  // ---------- What it ends with ----------

  /** A settled fee is exact and covered by the inputs. */
  lemma {:induction false} SettledIsExact(job: Job, k: nat, rounds: nat)
    ensures
      var r := EndingFrom(job, k, rounds);
      && (r.Settled? ==> r.fee == PreciseFee(job, r.fee) && Constructs(job, r.fee) && k < r.constructions <= k + rounds)
      && (r.Failed? ==> !Constructs(job, r.fee))
    decreases rounds
  {
    if rounds > 0 {
      SettledIsExact(job, k + 1, rounds - 1);
    }
  }

  function FullFee(job: Job, weight: nat): nat { FeeFor(weight + job.satisfaction * job.inputs, job.feerate) }

  /** Weight independent of the fee: two constructions are enough, and the loop fails exactly if
      the one with the first estimate or the one with the fee for that weight does. */
  lemma SteadyWeightSettles(job: Job, weight: nat)
    requires forall fee :: job.weight(fee) == weight
    ensures
      var first, fee := FirstEstimate(job.feerate), FullFee(job, weight);
      EndingOf(job) ==
        if !Constructs(job, first) then Failed(first)
        else if !Constructs(job, fee) then Failed(fee)
        else Settled(fee, if fee == first then 1 else 2)
  {
    assert Estimate(job, 1) == FullFee(job, weight);
    assert Estimate(job, 2) == Estimate(job, 1);
    assert EndingFrom(job, 0, 2) ==
           if !Constructs(job, Estimate(job, 0)) then Failed(Estimate(job, 0))
           else if Estimate(job, 1) == Estimate(job, 0) then Settled(Estimate(job, 0), 1) else EndingFrom(job, 1, 1);
    BoundIsEnough(job, 2);
  }

  lemma FeeWithinEstimate(weight: nat, feerate: U32)
    requires weight <= 2000
    ensures FeeFor(weight, feerate) <= FirstEstimate(feerate)
  {
    assert weight * feerate <= 2000 * feerate;
  }

  /** Two kilo-weight units are what the first estimate pays for: transactions no heavier are
      covered in every construction. */
  lemma {:induction false} LightIsCovered(job: Job, k: nat)
    requires forall fee :: FullWeight(job, fee) <= 2000
    requires Covered(job, FirstEstimate(job.feerate))
    ensures Estimate(job, k) <= FirstEstimate(job.feerate) && Covered(job, Estimate(job, k))
  {
    if k > 0 {
      FeeWithinEstimate(FullWeight(job, Estimate(job, k - 1)), job.feerate);
    }
  }

  lemma {:induction false} LightNeverOverspends(job: Job, k: nat, rounds: nat)
    requires forall fee :: FullWeight(job, fee) <= 2000
    requires Covered(job, FirstEstimate(job.feerate))
    ensures
      var r := EndingFrom(job, k, rounds);
      r.Failed? ==> r.fee <= FirstEstimate(job.feerate) && Covered(job, r.fee) && !job.builds(r.fee)
    decreases rounds
  {
    if rounds > 0 {
      LightIsCovered(job, k);
      LightNeverOverspends(job, k + 1, rounds - 1);
    }
  }

  /** A heavier transaction can overspend inputs that covered the estimate. */
  lemma HeavyOverspends(weight: nat, feerate: U32)
    requires FeeFor(weight, feerate) > FirstEstimate(feerate)
    ensures
      var job := Job(_ => weight, _ => true, 0, 1, FirstEstimate(feerate), 0, feerate);
      Covered(job, FirstEstimate(feerate)) && EndingOf(job).Failed? && !Covered(job, EndingOf(job).fee)
  {
    var job := Job(_ => weight, _ => true, 0, 1, FirstEstimate(feerate), 0, feerate);
    SteadyWeightSettles(job, weight);
  }

  // ---------- A builder that leaves out empty change ----------

  /** The transaction has a change output, and weighs `heavy`, unless nothing is left for change;
      then it weighs `light`. */
  ghost predicate DropsChange(job: Job, light: nat, heavy: nat) {
    && FullFee(job, light) <= FullFee(job, heavy)
    && forall fee :: job.weight(fee) == if job.amount + fee == job.total then light else heavy
  }

  /** Something a caller can work out beforehand: the inputs pay for amount, fee and change
      output with nothing left, and for less without the change output. */
  predicate Wavers(job: Job, light: nat, heavy: nat) {
    && Constructs(job, FirstEstimate(job.feerate))
    && job.amount + FullFee(job, heavy) == job.total && FullFee(job, light) != FullFee(job, heavy)
    && job.builds(FullFee(job, light)) && job.builds(FullFee(job, heavy))
  }

  lemma {:induction false} Wavering(job: Job, light: nat, heavy: nat, k: nat)
    requires DropsChange(job, light, heavy) && Wavers(job, light, heavy)
    ensures k > 0 ==> Estimate(job, k) == FullFee(job, light) || Estimate(job, k) == FullFee(job, heavy)
    ensures !Leaves(job, k)
  {
    if k > 0 {
      Wavering(job, light, heavy, k - 1);
    }
  }

  lemma Steadies(job: Job, light: nat, heavy: nat)
    requires DropsChange(job, light, heavy) && !Wavers(job, light, heavy)
    ensures Leaves(job, 0) || Leaves(job, 1) || Leaves(job, 2)
  {
    var f0, f1 := FullFee(job, light), FullFee(job, heavy);
    assert forall fee :: PreciseFee(job, fee) == if job.amount + fee == job.total then f0 else f1;
    assert Estimate(job, 1) == PreciseFee(job, Estimate(job, 0));
    assert Estimate(job, 2) == PreciseFee(job, Estimate(job, 1));
    assert Estimate(job, 3) == PreciseFee(job, Estimate(job, 2));
  }

  /** With such a builder the loop runs for ever exactly if it wavers between the two fees. */
  lemma SpinsExactlyWhenWavering(job: Job, light: nat, heavy: nat)
    requires DropsChange(job, light, heavy)
    ensures EndingOf(job).Endless? <==> Wavers(job, light, heavy)
  {
    EndsWithinBound(job);
    if Wavers(job, light, heavy) {
      forall k: nat
        ensures !Leaves(job, k)
      {
        Wavering(job, light, heavy, k);
      }
    } else {
      Steadies(job, light, heavy);
    }
  }

  lemma FeeBelowEstimate(weight: nat, feerate: U32)
    requires weight < 2000 && feerate > 0
    ensures FeeFor(weight, feerate) < FirstEstimate(feerate)
  {
    assert weight * feerate <= 1999 * feerate;
  }

  /** Wavering takes a transaction heavier than the first estimate pays for. */
  lemma LightNeverWavers(job: Job, light: nat, heavy: nat)
    requires DropsChange(job, light, heavy) && heavy + job.satisfaction * job.inputs < 2000 && job.feerate > 0
    ensures !EndingOf(job).Endless?
  {
    SpinsExactlyWhenWavering(job, light, heavy);
    FeeBelowEstimate(heavy + job.satisfaction * job.inputs, job.feerate);
  }

  /** A channel of 100000 paid from inputs worth 102500 at a rate of 1000: with a change output
      the fee is 2500, which leaves no change; without it the fee is 2300, which leaves some. */
  lemma LoopCanSpin()
    ensures EndingOf(Job(fee => if 100000 + fee == 102500 then 2300 else 2500, _ => true, 0, 1, 102500, 100000, 1000)).Endless?
  {
    var job := Job(fee => if 100000 + fee == 102500 then 2300 else 2500, _ => true, 0, 1, 102500, 100000, 1000);
    SpinsExactlyWhenWavering(job, 2300, 2500);
  }
}
