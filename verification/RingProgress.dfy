/**
 When a producer that writes `n` samples at a time and a consumer that reads
 `m` samples at a time can block each other for good, each attempt being all
 or nothing.
 */
module RingProgress {
  import opened Arith
  import opened Divisors
  import opened RingSpec

  datatype Op = WriteBlock | ReadBlock | FlushAll

  function Perform(s: Ring, op: Op, m: nat, block: seq<real>): (t: Ring)
    requires s.Ok()
    ensures t.Ok() && t.capacity == s.capacity
  {
    match op
    case WriteBlock => Write(s, block)
    case ReadBlock => Read(s, m)
    case FlushAll => Flush(s)
  }

  function PerformAll(s: Ring, ops: seq<Op>, m: nat, block: seq<real>): (t: Ring)
    requires s.Ok()
    ensures t.Ok() && t.capacity == s.capacity
    decreases |ops|
  {
    if ops == [] then s else Perform(PerformAll(s, ops[..|ops| - 1], m, block), ops[|ops| - 1], m, block)
  }

  // The fill level alone decides what is refused.

  function LevelAfter(cap: nat, m: nat, n: nat, u: nat, op: Op): nat {
    match op
    case WriteBlock => if u + n <= cap then u + n else u
    case ReadBlock => if m <= u then u - m else u
    case FlushAll => 0
  }

  function Level(cap: nat, m: nat, n: nat, ops: seq<Op>): nat
    decreases |ops|
  {
    if ops == [] then 0 else LevelAfter(cap, m, n, Level(cap, m, n, ops[..|ops| - 1]), ops[|ops| - 1])
  }

  ghost predicate Blocked(cap: nat, m: nat, n: nat, u: nat) {
    u < m && cap < u + n
  }

  lemma PerformLevel(s: Ring, op: Op, m: nat, block: seq<real>)
    requires s.Ok()
    ensures Perform(s, op, m, block).Fill() == LevelAfter(s.capacity, m, |block|, s.Fill(), op)
  {
  }

  lemma {:induction false} LevelIsFill(cap: nat, ops: seq<Op>, m: nat, block: seq<real>)
    requires cap > 0
    ensures PerformAll(NewRing(cap), ops, m, block).Fill() == Level(cap, m, |block|, ops) <= cap
    ensures PerformAll(NewRing(cap), ops, m, block).capacity == cap
    decreases |ops|
  {
    if ops != [] {
      LevelIsFill(cap, ops[..|ops| - 1], m, block);
      PerformLevel(PerformAll(NewRing(cap), ops[..|ops| - 1], m, block), ops[|ops| - 1], m, block);
    }
  }

  lemma {:induction false} LevelIsMultiple(cap: nat, m: nat, n: nat, ops: seq<Op>)
    requires m > 0
    ensures Level(cap, m, n, ops) % Gcd(m, n) == 0
    decreases |ops|
  {
    var g := Gcd(m, n);
    MultipleIffMod(0, 0, g);
    if ops != [] {
      LevelIsMultiple(cap, m, n, ops[..|ops| - 1]);
      GcdDivides(m, n);
      var u := Level(cap, m, n, ops[..|ops| - 1]);
      SumOfMultiples(u, n, g);
      SumOfMultiples(u, m, g);
    }
  }

  /** With `m + n` at most capacity + gcd, one of the two can always move. */
  lemma NeverStuck(cap: nat, ops: seq<Op>, m: nat, block: seq<real>)
    requires cap > 0 && m > 0 && |block| > 0
    requires m + |block| <= cap + Gcd(m, |block|)
    ensures !Stuck(PerformAll(NewRing(cap), ops, m, block), m, |block|)
  {
    var g, u := Gcd(m, |block|), Level(cap, m, |block|, ops);
    LevelIsFill(cap, ops, m, block);
    LevelIsMultiple(cap, m, |block|, ops);
    GcdDivides(m, |block|);
    if u < m {
      MultiplesApart(u, m, g);
    }
  }

  // Otherwise a deadlock is reachable: write while there is room, else read.

  function Greedy(cap: nat, m: nat, n: nat, k: nat): (ops: seq<Op>)
    ensures |ops| == k
  {
    if k == 0 then []
    else
      var ops := Greedy(cap, m, n, k - 1);
      ops + [if Level(cap, m, n, ops) + n <= cap then WriteBlock else ReadBlock]
  }

  lemma GreedyStep(cap: nat, m: nat, n: nat, k: nat, u: nat)
    requires u == Level(cap, m, n, Greedy(cap, m, n, k)) && !Blocked(cap, m, n, u)
    ensures Level(cap, m, n, Greedy(cap, m, n, k + 1)) == if u + n <= cap then u + n else u - m
  {
    assert Greedy(cap, m, n, k + 1)[..k] == Greedy(cap, m, n, k);
  }

  /** As long as the greedy run is not blocked its level walks through the multiples of `n` modulo `m + n`. */
  lemma {:induction false} GreedyLevel(cap: nat, m: nat, n: nat, k: nat)
    requires m > 0 && n > 0 && cap < m + n
    requires forall i :: 0 <= i < k ==> !Blocked(cap, m, n, Level(cap, m, n, Greedy(cap, m, n, i)))
    ensures Level(cap, m, n, Greedy(cap, m, n, k)) == (k * n) % (m + n) <= cap
  {
    hide Level, Greedy;
    if k == 0 {
      NothingYet(cap, m, n);
      ModUnique(0, 0, 0, m + n);
    } else {
      GreedyLevel(cap, m, n, k - 1);
      GreedyStep(cap, m, n, k - 1, Level(cap, m, n, Greedy(cap, m, n, k - 1)));
      assert k * n == (k - 1) * n + n;
      ModChunk((k - 1) * n, n, m + n);
    }
  }

  lemma NothingYet(cap: nat, m: nat, n: nat)
    ensures Level(cap, m, n, Greedy(cap, m, n, 0)) == 0
  {
  }

  /** Some multiple of `n` is `m - gcd(m, n)` modulo `m + n`. */
  lemma HitsGap(m: nat, n: nat) returns (k: nat)
    requires m > 0 && n > 0
    ensures (k * n) % (m + n) == m - Gcd(m, n)
  {
    var g, period := Gcd(m, n), m + n;
    GcdDivides(m, n);
    MultiplesApart(0, m, g) by { MultipleIffMod(0, 0, g); }
    var x, y := Bezout(m, n);
    var z := x - y - 1;
    assert z * n == (x - 1) * period + (m - g);
    ModOf(z, period);
    k := z % period;
    var t := z / period;
    assert k * n == z * n - (t * n) * period;
    assert k * n == (x - 1 - t * n) * period + (m - g);
    ModUnique(k * n, x - 1 - t * n, m - g, period);
  }

  lemma FirstBlocked(cap: nat, m: nat, n: nat, k: nat) returns (j: nat)
    requires m > 0 && n > 0 && m + n > cap + Gcd(m, n)
    requires (k * n) % (m + n) == m - Gcd(m, n)
    ensures Blocked(cap, m, n, Level(cap, m, n, Greedy(cap, m, n, j)))
  {
    if i: nat :| i < k && Blocked(cap, m, n, Level(cap, m, n, Greedy(cap, m, n, i))) {
      j := i;
    } else {
      GreedyLevel(cap, m, n, k);
      j := k;
    }
  }

  ghost predicate CanDeadlock(cap: nat, m: nat, block: seq<real>)
    requires cap > 0
  {
    exists ops: seq<Op> :: Stuck(PerformAll(NewRing(cap), ops, m, block), m, |block|)
  }

  /**
   Exactly when the two sides can block each other: some sequence of writes of
   `n`, reads of `m` and flushes reaches a state in which both are refused if
   and only if `m + n > capacity + gcd(m, n)`.
   */
  lemma DeadlockReachableExactly(cap: nat, m: nat, block: seq<real>)
    requires cap > 0 && m > 0 && |block| > 0
    ensures CanDeadlock(cap, m, block) <==> m + |block| > cap + Gcd(m, |block|)
  {
    if m + |block| > cap + Gcd(m, |block|) {
      var k := HitsGap(m, |block|);
      var j := FirstBlocked(cap, m, |block|, k);
      var ops := Greedy(cap, m, |block|, j);
      LevelIsFill(cap, ops, m, block);
      assert Stuck(PerformAll(NewRing(cap), ops, m, block), m, |block|);
    } else if CanDeadlock(cap, m, block) {
      var ops: seq<Op> :| Stuck(PerformAll(NewRing(cap), ops, m, block), m, |block|);
      NeverStuck(cap, ops, m, block);
      assert false;
    }
  }

  /** Any sizes with `m + n <= capacity + 1` are safe, and even sizes on an even capacity gain one sample. */
  lemma SafeSizes(cap: nat, ops: seq<Op>, m: nat, block: seq<real>)
    requires cap > 0 && m > 0 && |block| > 0
    requires m + |block| <= cap + 1 || (m % 2 == 0 && |block| % 2 == 0 && m + |block| <= cap + 2)
    ensures !Stuck(PerformAll(NewRing(cap), ops, m, block), m, |block|)
  {
    if m % 2 == 0 && |block| % 2 == 0 {
      GcdOfEvens(m, |block|);
    }
    NeverStuck(cap, ops, m, block);
  }

  lemma GcdOfEvens(a: nat, b: nat)
    requires (a > 0 || b > 0) && a % 2 == 0 && b % 2 == 0
    ensures Gcd(a, b) >= 2
  {
    var x, y := Bezout(a, b);
    if Gcd(a, b) == 1 {
      EvenCombination(a / 2, b / 2, x, y);
    }
  }

  lemma EvenCombination(p: int, q: int, x: int, y: int)
    ensures x * (2 * p) + y * (2 * q) == 2 * (x * p + y * q)
  {
  }
}
