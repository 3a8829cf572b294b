/**
 The overload scheduler of `process_mono_chunk`: five slow inferences in a row
 switch the engine to passthrough for a hundred chunks.  Whether the inference
 of chunk `k` is slow is an oracle `slow(k)`; chunks are numbered from a reset.
 */
module Scheduler {

  const TRIGGER: nat := 5
  const COOLDOWN: nat := 100

  datatype Overload = Overload(count: nat, cooldown: nat, engaged: bool)

  const CALM := Overload(0, 0, false)

  predicate PassesThrough(o: Overload) {
    o.engaged && o.cooldown > 0
  }

  function Step(o: Overload, slow: bool): Overload {
    if PassesThrough(o) then
      o.(cooldown := o.cooldown - 1)
    else
      var resumed := if o.engaged then o.(engaged := false, count := 0) else o;
      if !slow then resumed.(count := 0)
      else if resumed.count + 1 >= TRIGGER then Overload(resumed.count + 1, COOLDOWN, true)
      else resumed.(count := resumed.count + 1)
  }

  function StateAt(slow: nat -> bool, k: nat): Overload {
    if k == 0 then CALM else Step(StateAt(slow, k - 1), slow(k - 1))
  }

  /** Chunk `k` is copied through without inference. */
  predicate Passes(slow: nat -> bool, k: nat) {
    PassesThrough(StateAt(slow, k))
  }

  function Passing(slow: nat -> bool): nat -> bool {
    (k: nat) => Passes(slow, k)
  }

  // What the scheduler is meant to do, in terms of the trace alone.

  ghost predicate SlowInference(pass: nat -> bool, slow: nat -> bool, j: nat) {
    !pass(j) && slow(j)
  }

  /** Chunks `k - 4` to `k` were all inferred and all slow. */
  ghost predicate FiveSlow(pass: nat -> bool, slow: nat -> bool, k: nat) {
    k + 1 >= 5 && forall j :: k + 1 - 5 <= j <= k ==> SlowInference(pass, slow, j)
  }

  ghost predicate EntersRightly(pass: nat -> bool, slow: nat -> bool, k: nat) {
    !pass(k) ==> (pass(k + 1) <==> FiveSlow(pass, slow, k))
  }

  /** Passthrough that starts at chunk `k` covers exactly a hundred chunks. */
  ghost predicate RunIsExact(pass: nat -> bool, k: nat) {
    pass(k) && (k == 0 || !pass(k - 1)) ==>
      !pass(k + 100) && forall j :: k <= j < k + 100 ==> pass(j)
  }

  ghost predicate IsSchedule(pass: nat -> bool, slow: nat -> bool) {
    && !pass(0)
    && (forall k: nat :: EntersRightly(pass, slow, k))
    && (forall k: nat :: RunIsExact(pass, k))
  }

  // The state remembers just enough of the trace.

  ghost predicate Remembers(slow: nat -> bool, k: nat) {
    var o := StateAt(slow, k);
    if o.engaged then
      && o.cooldown <= 100
      && k + o.cooldown >= 105
      && (forall j :: k + o.cooldown - 100 <= j < k ==> Passes(slow, j))
      && FiveSlow(Passing(slow), slow, k + o.cooldown - 100 - 1)
    else
      && o.count < 5
      && o.cooldown == 0
      && o.count <= k
      && (forall j :: k - o.count <= j < k ==> SlowInference(Passing(slow), slow, j))
      && (o.count < k ==> !SlowInference(Passing(slow), slow, k - o.count - 1))
  }

  lemma RemembersPass(slow: nat -> bool, k: nat)
    requires Remembers(slow, k) && Passes(slow, k)
    ensures Remembers(slow, k + 1)
  {
    var o := StateAt(slow, k);
    assert StateAt(slow, k + 1) == o.(cooldown := o.cooldown - 1);
    assert forall j :: k + o.cooldown - 100 <= j < k + 1 ==> Passes(slow, j);
  }

  lemma RemembersFast(slow: nat -> bool, k: nat)
    requires Remembers(slow, k) && !Passes(slow, k) && !slow(k)
    ensures Remembers(slow, k + 1)
  {
    assert StateAt(slow, k + 1).count == 0 && !StateAt(slow, k + 1).engaged;
  }

  lemma RemembersSlow(slow: nat -> bool, k: nat)
    requires Remembers(slow, k) && !Passes(slow, k) && slow(k)
    ensures Remembers(slow, k + 1)
  {
    var o := StateAt(slow, k);
    var streak := if o.engaged then 0 else o.count;
    assert forall j :: k - streak <= j < k + 1 ==> SlowInference(Passing(slow), slow, j);
    if o.engaged {
      assert Passes(slow, k - 1);
    }
    if streak + 1 == 5 {
      assert StateAt(slow, k + 1) == Overload(5, 100, true);
      assert FiveSlow(Passing(slow), slow, k);
    } else {
      assert StateAt(slow, k + 1).count == streak + 1 && !StateAt(slow, k + 1).engaged;
    }
  }

  lemma {:induction false} StateRemembers(slow: nat -> bool, k: nat)
    ensures Remembers(slow, k)
  {
    if k > 0 {
      StateRemembers(slow, k - 1);
      if Passes(slow, k - 1) {
        RemembersPass(slow, k - 1);
      } else if !slow(k - 1) {
        RemembersFast(slow, k - 1);
      } else {
        RemembersSlow(slow, k - 1);
      }
    }
  }

  /** Outside overload the counters are at rest: below the trigger, no cooldown left. */
  lemma {:induction false} AtRest(slow: nat -> bool, k: nat)
    ensures !StateAt(slow, k).engaged ==> StateAt(slow, k).count < 5 && StateAt(slow, k).cooldown == 0
    ensures StateAt(slow, k).cooldown <= 100
  {
    StateRemembers(slow, k);
  }

  lemma {:induction false} CooldownRuns(slow: nat -> bool, k: nat, i: nat)
    requires StateAt(slow, k).engaged && i <= StateAt(slow, k).cooldown
    ensures StateAt(slow, k + i).engaged && StateAt(slow, k + i).cooldown == StateAt(slow, k).cooldown - i
  {
    if i > 0 {
      CooldownRuns(slow, k, i - 1);
    }
  }

  /** How many chunks right before chunk `k` were inferred, slow, and not yet answered by passthrough. */
  function Streak(o: Overload): nat {
    if o.engaged then 0 else o.count
  }

  lemma StreakIsMaximal(slow: nat -> bool, k: nat)
    requires !Passes(slow, k)
    ensures var n := Streak(StateAt(slow, k));
            && n < 5 && n <= k
            && (forall j :: k - n <= j < k ==> SlowInference(Passing(slow), slow, j))
            && (n < k ==> !SlowInference(Passing(slow), slow, k - n - 1))
    ensures Passes(slow, k + 1) <==> slow(k) && Streak(StateAt(slow, k)) + 1 == 5
  {
    StateRemembers(slow, k);
  }

  lemma EntersExactly(slow: nat -> bool, k: nat)
    ensures EntersRightly(Passing(slow), slow, k)
  {
    if !Passes(slow, k) {
      StreakIsMaximal(slow, k);
      var n := Streak(StateAt(slow, k));
      assert SlowInference(Passing(slow), slow, k) == slow(k);
      if n + 1 < 5 && n < k {
        assert !SlowInference(Passing(slow), slow, k - n - 1);
      }
    }
  }

  lemma RunsExactly(slow: nat -> bool, k: nat)
    ensures RunIsExact(Passing(slow), k)
  {
    if Passes(slow, k) && (k == 0 || !Passes(slow, k - 1)) {
      assert k > 0;
      assert StateAt(slow, k).cooldown == 100;
      forall j | k <= j < k + 100
        ensures Passes(slow, j)
      {
        CooldownRuns(slow, k, j - k);
      }
      CooldownRuns(slow, k, 100);
    }
  }

  /** The scheduler's counters implement the intended schedule, whatever the timing. */
  lemma SchedulerMeetsSpec(slow: nat -> bool)
    ensures IsSchedule(Passing(slow), slow)
  {
    forall k: nat
      ensures EntersRightly(Passing(slow), slow, k)
    {
      EntersExactly(slow, k);
    }
    forall k: nat
      ensures RunIsExact(Passing(slow), k)
    {
      RunsExactly(slow, k);
    }
  }

  lemma {:induction false} StartOfRun(pass: nat -> bool, k: nat) returns (s: nat)
    requires pass(k) && !pass(0)
    ensures 0 < s <= k && !pass(s - 1) && forall j :: s <= j <= k ==> pass(j)
  {
    s := k;
    while pass(s - 1)
      invariant 0 < s <= k
      invariant forall j :: s <= j <= k ==> pass(j)
      decreases s
    {
      s := s - 1;
    }
  }

  /** There is only one such schedule for a timing trace, so the specification leaves nothing open. */
  lemma {:induction false} ScheduleIsUnique(p: nat -> bool, q: nat -> bool, slow: nat -> bool, k: nat)
    requires IsSchedule(p, slow) && IsSchedule(q, slow)
    ensures forall j :: 0 <= j <= k ==> p(j) == q(j)
  {
    if k > 0 {
      ScheduleIsUnique(p, q, slow, k - 1);
      assert EntersRightly(p, slow, k - 1) && EntersRightly(q, slow, k - 1);
      if p(k - 1) {
        var s := StartOfRun(p, k - 1);
        assert RunIsExact(p, s) && RunIsExact(q, s);
      } else {
        assert forall j :: 0 <= j < k ==> SlowInference(p, slow, j) == SlowInference(q, slow, j);
      }
    }
  }

  /** A passthrough run is followed by at least five inferred chunks. */
  lemma FiveInferredAfterRun(slow: nat -> bool, k: nat, i: nat)
    requires Passes(slow, k) && !Passes(slow, k + 1) && i < 5
    ensures !Passes(slow, k + 1 + i)
    decreases i
  {
    if i > 0 {
      FiveInferredAfterRun(slow, k, i - 1);
      EntersExactly(slow, k + i);
      assert !FiveSlow(Passing(slow), slow, k + i) by {
        assert !SlowInference(Passing(slow), slow, k);
      }
    }
  }

  // How much of any stretch of time is passed through.

  function CountPasses(slow: nat -> bool, k: nat, n: nat): nat
    decreases n
  {
    if n == 0 then 0 else (if Passes(slow, k) then 1 else 0) + CountPasses(slow, k + 1, n - 1)
  }

  /** The most chunks among the next `n` that can pass through, given the state. */
  function Budget(o: Overload, n: nat): int {
    if o.engaged then
      if n <= o.cooldown then n else if n <= o.cooldown + 5 then o.cooldown else n - 5
    else
      if n + o.count <= 5 then 0 else if n + o.count <= 105 then n + o.count - 5 else 100
  }

  lemma BudgetStep(o: Overload, slow: bool, n: nat)
    requires o.cooldown <= 100 && (!o.engaged ==> o.count < 5 && o.cooldown == 0)
    requires 0 < n <= 105
    ensures (if PassesThrough(o) then 1 else 0) + Budget(Step(o, slow), n - 1) <= Budget(o, n)
  {
  }

  lemma {:induction false} BudgetHolds(slow: nat -> bool, k: nat, n: nat)
    requires n <= 105
    ensures CountPasses(slow, k, n) <= Budget(StateAt(slow, k), n)
    decreases n
  {
    AtRest(slow, k);
    if n > 0 {
      BudgetHolds(slow, k + 1, n - 1);
      BudgetStep(StateAt(slow, k), slow(k), n);
    }
  }

  /** Of any 105 consecutive chunks at most 100 escape the denoiser. */
  lemma AtMostHundredOf105(slow: nat -> bool, k: nat)
    ensures CountPasses(slow, k, 105) <= 100
  {
    AtRest(slow, k);
    BudgetHolds(slow, k, 105);
  }
}
