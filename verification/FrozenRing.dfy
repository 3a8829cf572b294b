/**
 A ring that is too full for the producer's next block and too empty for the
 client's next read moves no more by itself.  The driver gets it going again:
 the heartbeat stands still, so the driver drops the connection, and the flush
 of the next connection empties the ring.
 */
module FrozenRing {
  import opened DriverSpec
  import opened DriverTheorems
  import opened RingSpec
  import opened Wrappers

  datatype Pair = Pair(driver: Driver<nat>, ring: Ring)

  /** One driver callback that wants `m` samples from segment `seg`, the one the name leads to. */
  function Hear(p: Pair, seg: nat, m: nat): (q: Pair)
    requires p.ring.Ok()
    ensures q.ring.Ok() && q.ring.capacity == p.ring.capacity
  {
    var d := EnsureConnected(p.driver, Some(seg));
    if d.conn.None? then Pair(d.(wasConnected := false), p.ring)
    else
      var ring := if p.driver.conn.None? then Flush(p.ring) else p.ring;
      var e := Serve(d, ring.active, ring.heartbeat, CanRead(ring, m));
      Pair(e, if e.conn.Some? then RingSpec.Read(ring, m) else ring)
  }

  /** The producer's attempts to write `blocks`, one after the other. */
  function Attempt(ring: Ring, blocks: seq<seq<real>>): (r: Ring)
    requires ring.Ok()
    ensures r.Ok() && r.capacity == ring.capacity
    decreases |blocks|
  {
    if blocks == [] then ring else Write(Attempt(ring, blocks[..|blocks| - 1]), blocks[|blocks| - 1])
  }

  /** `k` rounds of a callback and any number of write attempts; `tries(k)` is what the producer tries in round `k`. */
  function Rounds(p: Pair, seg: nat, m: nat, tries: nat -> seq<seq<real>>, k: nat): (q: Pair)
    requires p.ring.Ok()
    ensures q.ring.Ok() && q.ring.capacity == p.ring.capacity
  {
    if k == 0 then p
    else
      var q := Hear(Rounds(p, seg, m, tries, k - 1), seg, m);
      Pair(q.driver, Attempt(q.ring, tries(k - 1)))
  }

  ghost predicate AllOfSize(blocks: seq<seq<real>>, n: nat) {
    forall i :: 0 <= i < |blocks| ==> |blocks[i]| == n
  }

  ghost predicate TriesOfSize(tries: nat -> seq<seq<real>>, n: nat) {
    forall k: nat :: AllOfSize(tries(k), n)
  }

  lemma {:induction false} AttemptsFail(ring: Ring, blocks: seq<seq<real>>, n: nat)
    requires ring.Ok() && !CanWrite(ring, n) && AllOfSize(blocks, n)
    ensures Attempt(ring, blocks) == ring
    decreases |blocks|
  {
    if blocks != [] {
      AttemptsFail(ring, blocks[..|blocks| - 1], n);
    }
  }

  /** Attempts only ever append whole blocks; the first of them succeeds if there is room for it. */
  lemma {:induction false} AttemptsAppend(ring: Ring, blocks: seq<seq<real>>)
    requires ring.Ok() && blocks != [] && CanWrite(ring, |blocks[0]|)
    ensures ring.Unread() + blocks[0] <= Attempt(ring, blocks).Unread()
    ensures Attempt(ring, blocks).heartbeat > ring.heartbeat
    decreases |blocks|
  {
    hide Stored;
    var before, block := blocks[..|blocks| - 1], blocks[|blocks| - 1];
    if before == [] {
      WriteUnread(ring, block);
    } else {
      AttemptsAppend(ring, before);
      if CanWrite(Attempt(ring, before), |block|) {
        WriteUnread(Attempt(ring, before), block);
      }
    }
  }

  /** What every callback finds while the ring stands still. */
  function Still(seg: nat, heartbeat: nat): World<nat> {
    World(Some(seg), _ => true, _ => heartbeat, false)
  }

  function Forever(w: World<nat>): nat -> World<nat> {
    (i: nat) => w
  }

  lemma HearsStill(p: Pair, seg: nat, m: nat)
    requires p.ring.Ok() && !CanRead(p.ring, m) && p.ring.active && p.driver.conn == Some(seg)
    ensures Hear(p, seg, m) == Pair(Callback(p.driver, Still(seg, p.ring.heartbeat)), p.ring)
  {
  }

  lemma {:induction false} StaysStill(p: Pair, seg: nat, m: nat, n: nat, tries: nat -> seq<seq<real>>, k: nat)
    requires p.ring.Ok() && Stuck(p.ring, m, n) && p.ring.active && TriesOfSize(tries, n)
    requires forall i :: 0 <= i < k ==> After(p.driver, Forever(Still(seg, p.ring.heartbeat)), i).conn == Some(seg)
    ensures Rounds(p, seg, m, tries, k) == Pair(After(p.driver, Forever(Still(seg, p.ring.heartbeat)), k), p.ring)
  {
    hide Callback, Hear, Attempt;
    if k > 0 {
      StaysStill(p, seg, m, n, tries, k - 1);
      var w := Forever(Still(seg, p.ring.heartbeat));
      assert After(p.driver, w, k - 1).conn == Some(seg);
      HearsStill(Pair(After(p.driver, w, k - 1), p.ring), seg, m);
      AfterNext(p.driver, w, k - 1);
      AttemptsFail(p.ring, tries(k - 1), n);
    }
  }

  /** The callback after the drop connects, flushes, and leaves an empty ring. */
  lemma HearsFlushed(p: Pair, seg: nat, m: nat)
    requires p.ring.Ok() && !CanRead(p.ring, m) && p.ring.active && Attempts(p.driver) && Between(p.driver)
    ensures Hear(p, seg, m).ring == Flush(p.ring) && Hear(p, seg, m).driver.conn == Some(seg)
  {
  }

  /**
   However the two sides came to block each other, and however often the
   producer tries between callbacks: callback number `k`, one of the next 52,
   finds the connection dropped before, comes back and flushes, so that the
   ring is empty and the next attempt to write a block that fits the ring at
   all succeeds.  Until then nothing in the ring changes.
   */
  lemma BlockedRingRecovers(p: Pair, seg: nat, m: nat, n: nat, tries: nat -> seq<seq<real>>) returns (k: nat)
    requires p.ring.Ok() && Stuck(p.ring, m, n) && p.ring.active && n <= p.ring.capacity && TriesOfSize(tries, n)
    requires Between(p.driver) && p.driver.conn == Some(seg)
    ensures 2 <= k <= 52
    ensures forall i :: 0 <= i < k ==> Rounds(p, seg, m, tries, i).ring == p.ring
    ensures var q := Hear(Rounds(p, seg, m, tries, k - 1), seg, m);
            q.driver.conn == Some(seg) && q.ring.Unread() == [] && CanWrite(q.ring, n)
    ensures tries(k - 1) != [] ==>
      var q := Rounds(p, seg, m, tries, k);
      && q.driver.conn == Some(seg)
      && tries(k - 1)[0] <= q.ring.Unread() && q.ring.heartbeat > p.ring.heartbeat
  {
    hide Callback, Hear, Rounds, After, Attempt;
    var w := Forever(Still(seg, p.ring.heartbeat));
    var j := FrozenIsDropped(p.driver, w, seg);
    forall i | 0 <= i <= j
      ensures Rounds(p, seg, m, tries, i) == Pair(After(p.driver, w, i), p.ring)
    {
      StaysStill(p, seg, m, n, tries, i);
    }
    HearsFlushed(Rounds(p, seg, m, tries, j), seg, m);
    OneMoreRound(p, seg, m, tries, j);
    k := j + 1;
    if tries(j) != [] {
      assert |tries(j)[0]| == n;
      AttemptsAppend(Flush(p.ring), tries(j));
      assert Flush(p.ring).Unread() + tries(j)[0] == tries(j)[0];
    }
  }

  lemma OneMoreRound(p: Pair, seg: nat, m: nat, tries: nat -> seq<seq<real>>, k: nat)
    requires p.ring.Ok()
    ensures var q := Hear(Rounds(p, seg, m, tries, k), seg, m);
            Rounds(p, seg, m, tries, k + 1) == Pair(q.driver, Attempt(q.ring, tries(k)))
  {
    hide Hear, Attempt;
  }
}
