/** Throttled reconnects, exact stale detection and recovery, over whole runs of driver callbacks. */
module DriverTheorems {
  import opened Arith
  import opened Wrappers
  import opened DriverSpec

  // What holds between callbacks, in every run.

  datatype Event = Begun(open: Option<nat>) | Ended | Called(world: World<nat>)

  const FIRST: Driver<nat> := Driver(None, 0, false, false, false, 0, 0)

  function Handle(d: Driver<nat>, e: Event): Driver<nat> {
    match e
    case Begun(open) => OnStartIO(d, open)
    case Ended => OnStopIO(d)
    case Called(w) => Callback(d, w)
  }

  function HandleAll(es: seq<Event>): Driver<nat>
    decreases |es|
  {
    if es == [] then FIRST else Handle(HandleAll(es[..|es| - 1]), es[|es| - 1])
  }

  ghost predicate Between(d: Driver<nat>) {
    && (d.conn.Some? ==> d.countdown == 0 && d.wasEverConnected)
    && d.countdown <= Pause(d)
    && d.stale < 50
    && (d.conn.None? ==> d.lastHeartbeat == 0 && d.stale == 0 && !d.wasConnected)
  }

  /**
   In every run of starts, stops and callbacks: a connected handler has no
   countdown, the countdown never exceeds 47 (5 before the first connection),
   the stale count stays in 0..49, and after a callback `was_connected_` says
   whether a buffer is held.
   */
  lemma {:induction false} EveryRun(es: seq<Event>)
    ensures Between(HandleAll(es)) && HandleAll(es).countdown <= 47
    ensures es != [] && es[|es| - 1].Called? ==> HandleAll(es).wasConnected == HandleAll(es).conn.Some?
    decreases |es|
  {
    hide Callback;
    if es != [] {
      EveryRun(es[..|es| - 1]);
      if es[|es| - 1].Called? {
        CallbackKeeps(HandleAll(es[..|es| - 1]), es[|es| - 1].world);
      }
    }
  }

  // Callbacks number 0, 1, 2, ... find the worlds w(0), w(1), ...

  function After(d: Driver<nat>, w: nat -> World<nat>, k: nat): Driver<nat> {
    if k == 0 then d else Callback(After(d, w, k - 1), w(k - 1))
  }

  lemma CallbackKeeps(d: Driver<nat>, w: World<nat>)
    requires Between(d)
    ensures Between(Callback(d, w))
    ensures Callback(d, w).wasConnected == Callback(d, w).conn.Some?
  {
  }

  lemma {:induction false} AfterBetween(d: Driver<nat>, w: nat -> World<nat>, k: nat)
    requires Between(d)
    ensures Between(After(d, w, k))
  {
    hide Callback;
    if k > 0 {
      AfterBetween(d, w, k - 1);
      CallbackKeeps(After(d, w, k - 1), w(k - 1));
    }
  }

  function Shifted(w: nat -> World<nat>, j: nat): nat -> World<nat> {
    (i: nat) => w(j + i)
  }

  lemma {:induction false} AfterShift(d: Driver<nat>, w: nat -> World<nat>, j: nat, k: nat)
    ensures After(d, w, j + k) == After(After(d, w, j), Shifted(w, j), k)
  {
    hide Callback;
    if k > 0 {
      AfterShift(d, w, j, k - 1);
      assert Shifted(w, j)(k - 1) == w(j + k - 1);
      assert After(d, w, j + k) == Callback(After(d, w, j + k - 1), w(j + k - 1));
    }
  }

  // Reconnect throttle.

  function Period(d: Driver<nat>): nat { Pause(d) + 1 }

  /** The countdown of a driver that has seen nothing to open for `k` callbacks. */
  function CountdownAt(d: Driver<nat>, k: nat): int {
    if k <= d.countdown then d.countdown - k else Period(d) - 1 - (k - d.countdown - 1) % Period(d)
  }

  lemma {:induction false} ThrottleState(d: Driver<nat>, w: nat -> World<nat>, k: nat)
    requires Between(d) && d.conn.None?
    requires forall i :: 0 <= i < k ==> w(i).open == None
    ensures After(d, w, k) == d.(countdown := After(d, w, k).countdown)
    ensures After(d, w, k).countdown == CountdownAt(d, k)
  {
    hide Check;
    if k > 0 {
      ThrottleState(d, w, k - 1);
      assert w(k - 1).open == None;
      if k - 1 > d.countdown {
        ModNext(k - 1 - d.countdown - 1, Period(d));
      } else if k - 1 == d.countdown {
        ModUnique(0, 0, 0, Period(d));
      }
    }
  }

  /**
   While nothing can be opened, attempts come exactly every 6 callbacks before
   the first connection of a session and every 48 after it.
   */
  lemma AttemptsExactly(d: Driver<nat>, w: nat -> World<nat>, k: nat)
    requires Between(d) && d.conn.None?
    requires forall i :: 0 <= i < k ==> w(i).open == None
    ensures Attempts(After(d, w, k)) <==> k >= d.countdown && (k - d.countdown) % Period(d) == 0
    ensures Period(d) == if d.wasEverConnected then 48 else 6
  {
    ThrottleState(d, w, k);
    if k > d.countdown {
      ModNext(k - d.countdown - 1, Period(d));
    } else {
      ModUnique(0, 0, 0, Period(d));
    }
  }

  /** Until its countdown is over a disconnected driver does nothing but count. */
  lemma {:induction false} CountsDown(d: Driver<nat>, w: nat -> World<nat>, k: nat)
    requires Between(d) && d.conn.None? && k <= d.countdown
    ensures After(d, w, k) == d.(countdown := d.countdown - k)
  {
    hide Check;
    if k > 0 {
      CountsDown(d, w, k - 1);
    }
  }

  // Stale detection, against the trace of heartbeats that a connection observes.

  /** Observation `i` equals the last recorded one; nothing recorded counts as 0. */
  ghost predicate Frozen(h: nat -> nat, i: nat) {
    h(i) == if i == 0 then 0 else h(i - 1)
  }

  /** Fifty observations in a row, up to number `i`, were frozen. */
  ghost predicate Dead(h: nat -> nat, i: nat) {
    i + 1 >= 50 && forall j :: i + 1 - 50 <= j <= i ==> Frozen(h, j)
  }

  ghost predicate JustConnected(d: Driver<nat>, s: nat) {
    d.conn == Some(s) && d.lastHeartbeat == 0 && d.stale == 0
  }

  ghost predicate ActiveFor(w: nat -> World<nat>, s: nat, n: nat) {
    forall i :: 0 <= i < n ==> w(i).active(s)
  }

  function Beats(w: nat -> World<nat>, s: nat): nat -> nat {
    (i: nat) => w(i).heartbeat(s)
  }

  /** The state of a connection that has not been dropped: the stale count is the length of the frozen stretch. */
  ghost predicate Counting(d: Driver<nat>, h: nat -> nat, s: nat, k: nat) {
    && d.conn == Some(s)
    && d.lastHeartbeat == (if k == 0 then 0 else h(k - 1))
    && d.stale <= k
    && d.stale < 50
    && (forall j :: k - d.stale <= j < k ==> Frozen(h, j))
    && (d.stale < k ==> !Frozen(h, k - d.stale - 1))
  }

  lemma CountingStep(d: Driver<nat>, h: nat -> nat, s: nat, k: nat, w: World<nat>)
    requires Counting(d, h, s, k) && w.active(s) && w.heartbeat(s) == h(k)
    ensures if Dead(h, k) then Callback(d, w).conn == None else Counting(Callback(d, w), h, s, k + 1)
  {
    if Frozen(h, k) {
      if d.stale + 1 < 50 {
        assert !Dead(h, k) by {
          if d.stale < k {
            assert !Frozen(h, k - d.stale - 1);
          }
        }
        assert Callback(d, w).stale == d.stale + 1;
      }
    } else {
      assert Callback(d, w).stale == 0;
    }
  }

  lemma {:induction false} StillCounting(d: Driver<nat>, w: nat -> World<nat>, s: nat, k: nat)
    requires JustConnected(d, s) && ActiveFor(w, s, k)
    requires forall i :: 0 <= i < k ==> !Dead(Beats(w, s), i)
    ensures Counting(After(d, w, k), Beats(w, s), s, k)
  {
    hide Callback;
    if k > 0 {
      StillCounting(d, w, s, k - 1);
      assert !Dead(Beats(w, s), k - 1) && Beats(w, s)(k - 1) == w(k - 1).heartbeat(s) && w(k - 1).active(s);
      CountingStep(After(d, w, k - 1), Beats(w, s), s, k - 1, w(k - 1));
    }
  }

  /**
   A producer seen inactive is dropped at once, whatever its heartbeat does: the
   callback ends without a connection and with nothing remembered of it, and the
   next one opens the name again.
   */
  lemma InactiveIsDropped(d: Driver<nat>, w: World<nat>, s: nat, next: World<nat>)
    requires Between(d) && d.conn == Some(s) && !w.active(s)
    ensures var e := Callback(d, w);
            && e == Driver(None, 0, false, e.wasUnderrun, true, 0, 0)
            && (next.open == None ==> Callback(e, next).conn == None && Callback(e, next).countdown == 47)
            && (next.open.Some? && next.active(next.open.value) ==> Callback(e, next).conn == next.open)
  {
  }

  /** The connection to `s` ends in callback `i`: the flag is down, or fifty observations in a row were frozen. */
  ghost predicate Ends(w: nat -> World<nat>, s: nat, i: nat) {
    !w(i).active(s) || Dead(Beats(w, s), i)
  }

  /**
   Exactly: a connection lasts until the first callback that sees the flag down
   or completes fifty consecutive observations equal to the last recorded
   heartbeat, and is dropped in that callback.
   */
  lemma DroppedExactlyWhenDead(d: Driver<nat>, w: nat -> World<nat>, s: nat, k: nat)
    requires JustConnected(d, s)
    requires forall i :: 0 <= i < k ==> !Ends(w, s, i)
    ensures After(d, w, k).conn == Some(s)
    ensures After(d, w, k + 1).conn == if Ends(w, s, k) then None else Some(s)
  {
    forall i | 0 <= i < k
      ensures w(i).active(s) && !Dead(Beats(w, s), i)
    {
      assert !Ends(w, s, i);
    }
    StillCounting(d, w, s, k);
    hide Callback, After, Counting, Dead;
    AfterNext(d, w, k);
    LastsOneMore(After(d, w, k), w, s, k);
  }

  lemma LastsOneMore(now: Driver<nat>, w: nat -> World<nat>, s: nat, k: nat)
    requires Counting(now, Beats(w, s), s, k)
    ensures now.conn == Some(s)
    ensures Callback(now, w(k)).conn == if Ends(w, s, k) then None else Some(s)
  {
    hide Dead;
    if w(k).active(s) {
      CountingStep(now, Beats(w, s), s, k, w(k));
    }
  }

  /** What the flags for the log say after a callback: connected, and short of audio or not. */
  lemma UnderrunFlag(d: Driver<nat>, w: World<nat>)
    requires Between(d) && Callback(d, w).conn.Some?
    ensures Callback(d, w).wasConnected && Callback(d, w).wasUnderrun == !w.enough
  {
  }

  /** `OnStartIO` forgets the session: with nothing to open, the attempts come in callbacks number 5, 11, 17, ... after it. */
  lemma StartsAnew(d: Driver<nat>, w: nat -> World<nat>, k: nat)
    requires forall i :: 0 <= i < k ==> w(i).open == None
    ensures var e := OnStartIO(d, None);
            Between(e) && e.conn == None && (Attempts(After(e, w, k)) <==> k % 6 == 5)
  {
    hide Callback, After;
    var e := OnStartIO(d, None);
    AttemptsExactly(e, w, k);
  }

  /** `OnStartIO` with something to open gives up any old mapping for the new one. */
  lemma StartsOnNew(d: Driver<nat>, s: nat)
    ensures OnStartIO(d, Some(s)) == Driver(Some(s), 0, false, false, true, 0, 0)
  {
  }

  /** `OnStopIO` leaves no mapping; the first callback after it tries to open again, and then every 48th if it had ever connected. */
  lemma StopsIdle(d: Driver<nat>, w: nat -> World<nat>, k: nat)
    requires forall i :: 0 <= i < k ==> w(i).open == None
    ensures var e := OnStopIO(d);
            && Between(e) && e.conn == None && e.wasEverConnected == d.wasEverConnected
            && (Attempts(After(e, w, k)) <==> k % (if d.wasEverConnected then 48 else 6) == 0)
  {
    hide Callback, After;
    AttemptsExactly(OnStopIO(d), w, k);
  }

  /** Among the first `n` observations the heartbeat visibly changes within any fifty consecutive ones. */
  ghost predicate Lively(h: nat -> nat, n: nat) {
    forall i: nat :: i + 50 <= n ==> ChangesWithin(h, i)
  }

  ghost predicate Moves(h: nat -> nat, j: nat) {
    j > 0 && h(j) != h(j - 1)
  }

  ghost predicate ChangesWithin(h: nat -> nat, i: nat) {
    exists j :: i < j < i + 50 && Moves(h, j)
  }

  lemma LivelyIsNeverDead(h: nat -> nat, n: nat, i: nat)
    requires Lively(h, n) && i < n
    ensures !Dead(h, i)
  {
    if i + 1 >= 50 {
      var a: nat := i + 1 - 50;
      assert ChangesWithin(h, a);
      var j :| a < j < a + 50 && Moves(h, j);
      assert !Frozen(h, j);
    }
  }

  /** A producer that stays active and lively is never dropped. */
  lemma LiveProducerIsKept(d: Driver<nat>, w: nat -> World<nat>, s: nat, k: nat)
    requires JustConnected(d, s) && ActiveFor(w, s, k) && Lively(Beats(w, s), k)
    ensures After(d, w, k).conn == Some(s)
  {
    forall i | 0 <= i < k
      ensures !Dead(Beats(w, s), i)
    {
      LivelyIsNeverDead(Beats(w, s), k, i);
    }
    StillCounting(d, w, s, k);
  }

  ghost predicate FrozenFor(w: nat -> World<nat>, s: nat, n: nat) {
    forall i :: 0 <= i < n ==> w(i).heartbeat(s) == w(0).heartbeat(s)
  }

  /** Callbacks left until a connection with a frozen heartbeat is dropped. */
  function Patience(d: Driver<nat>, heartbeat: nat): int {
    if d.lastHeartbeat == heartbeat then 50 - d.stale else 51
  }

  lemma PatienceShrinks(d: Driver<nat>, w: World<nat>, s: nat)
    requires Between(d) && d.conn == Some(s)
    ensures Patience(d, w.heartbeat(s)) >= 1
    ensures if Callback(d, w).conn == Some(s) then Patience(Callback(d, w), w.heartbeat(s)) < Patience(d, w.heartbeat(s))
            else Attempts(Callback(d, w))
  {
  }

  lemma AfterNext(d: Driver<nat>, w: nat -> World<nat>, k: nat)
    ensures After(d, w, k + 1) == Callback(After(d, w, k), w(k))
  {
  }

  lemma OneFrozenCallback(now: Driver<nat>, w: World<nat>, s: nat, heartbeat: nat, budget: nat)
    requires Between(now) && now.conn == Some(s) && w.heartbeat(s) == heartbeat && Patience(now, heartbeat) <= budget
    ensures Between(Callback(now, w)) && budget >= 1
    ensures if Callback(now, w).conn == Some(s) then Patience(Callback(now, w), heartbeat) <= budget - 1
            else Attempts(Callback(now, w))
  {
    CallbackKeeps(now, w);
    PatienceShrinks(now, w, s);
  }

  lemma {:induction false} FrozenIsDroppedFrom(d: Driver<nat>, w: nat -> World<nat>, s: nat, i: nat, now: Driver<nat>, budget: nat) returns (k: nat)
    requires now == After(d, w, i) && Between(now) && now.conn == Some(s) && FrozenFor(w, s, 51)
    requires Patience(now, w(0).heartbeat(s)) <= budget && i + budget == 51
    ensures i < k <= 51 && Attempts(After(d, w, k)) && Between(After(d, w, k))
    ensures forall j :: i <= j < k ==> After(d, w, j).conn == Some(s)
    decreases budget
  {
    hide Callback, After;
    var next := Callback(now, w(i));
    AfterNext(d, w, i);
    assert budget > 0;
    OneFrozenCallback(now, w(i), s, w(0).heartbeat(s), budget);
    if next.conn == Some(s) {
      k := FrozenIsDroppedFrom(d, w, s, i + 1, next, budget - 1);
    } else {
      k := i + 1;
    }
  }

  /** Whatever it counted before, the driver drops a segment whose heartbeat stands still, within 51 callbacks. */
  lemma FrozenIsDropped(d: Driver<nat>, w: nat -> World<nat>, s: nat) returns (k: nat)
    requires Between(d) && d.conn == Some(s) && FrozenFor(w, s, 51)
    ensures 1 <= k <= 51 && Attempts(After(d, w, k)) && Between(After(d, w, k))
    ensures forall i :: 0 <= i < k ==> After(d, w, i).conn == Some(s)
  {
    k := FrozenIsDroppedFrom(d, w, s, 0, d, 51);
  }

  /** A connection to a segment whose heartbeat never moves ends within 51 callbacks of connecting: 50 if it stands at 0. */
  lemma DeadProducerIsDropped(d: Driver<nat>, w: nat -> World<nat>, s: nat) returns (k: nat)
    requires Between(d) && JustConnected(d, s) && FrozenFor(w, s, 51) && ActiveFor(w, s, 51)
    ensures k == (if w(0).heartbeat(s) == 0 then 50 else 51)
    ensures After(d, w, k).conn == None && forall i :: 0 <= i < k ==> After(d, w, i).conn == Some(s)
  {
    var h := Beats(w, s);
    k := if h(0) == 0 then 50 else 51;
    forall i | 0 <= i < k - 1
      ensures !Dead(h, i)
    {
      assert i + 1 < 50 || !Frozen(h, 0);
    }
    assert forall j :: k - 50 <= j < k ==> Frozen(h, j);
    forall i | 0 <= i < k
      ensures After(d, w, i).conn == Some(s)
    {
      StillCounting(d, w, s, i);
    }
    assert Ends(w, s, k - 1);
    DroppedExactlyWhenDead(d, w, s, k - 1);
  }

  // Recovery.

  /** For the first `n` callbacks the name leads to segment `live`, which is active and whose producer keeps writing. */
  ghost predicate Serves(w: nat -> World<nat>, live: nat, n: nat) {
    && (forall i: nat :: i < n ==> w(i).open == Some(live) && w(i).active(live))
    && Lively(Beats(w, live), n)
  }

  lemma ConnectsNow(d: Driver<nat>, w: nat -> World<nat>, live: nat, k: nat)
    requires Between(d) && Attempts(d) && Serves(w, live, k) && k > 0
    ensures After(d, w, k).conn == Some(live)
  {
    var d0 := d.(conn := Some(live), wasEverConnected := true);
    assert w(0).open == Some(live);
    assert Callback(d, w(0)) == Callback(d0, w(0));
    LiveProducerIsKept(d0, w, live, k);
    SameFromFirstCallback(d, d0, w, k);
  }

  lemma ConnectsThen(d: Driver<nat>, w: nat -> World<nat>, live: nat, c: nat, e: Driver<nat>, k: nat)
    requires e == After(d, w, c) && Between(e) && Attempts(e) && Serves(w, live, k) && k > c
    ensures After(d, w, k).conn == Some(live)
  {
    hide Callback, After;
    ServesShift(w, live, c, k - c);
    AfterShift(d, w, c, k - c);
    ConnectsNow(e, Shifted(w, c), live, k - c);
  }

  /** A disconnected driver connects as soon as its countdown is over. */
  lemma ConnectsAfterCountdown(d: Driver<nat>, w: nat -> World<nat>, live: nat, k: nat)
    requires Between(d) && d.conn.None? && Serves(w, live, k) && k > d.countdown
    ensures After(d, w, k).conn == Some(live)
  {
    CountsDown(d, w, d.countdown);
    ConnectsThen(d, w, live, d.countdown, d.(countdown := 0), k);
  }

  lemma {:induction false} SameFromFirstCallback(d: Driver<nat>, e: Driver<nat>, w: nat -> World<nat>, k: nat)
    requires Callback(d, w(0)) == Callback(e, w(0)) && k > 0
    ensures After(d, w, k) == After(e, w, k)
  {
    if k > 1 {
      SameFromFirstCallback(d, e, w, k - 1);
    } else {
      assert After(d, w, 0) == d && After(e, w, 0) == e;
    }
  }

  lemma ServesShift(w: nat -> World<nat>, s: nat, c: nat, n: nat)
    requires Serves(w, s, c + n)
    ensures Serves(Shifted(w, c), s, n)
  {
    var h, g := Beats(w, s), Beats(Shifted(w, c), s);
    forall i: nat | i + 50 <= n
      ensures ChangesWithin(g, i)
    {
      assert ChangesWithin(h, c + i);
      var j :| c + i < j < c + i + 50 && Moves(h, j);
      assert Moves(g, j - c);
    }
  }

  /**
   Crash and restart: a driver in any state, connected to a dead segment or to
   none, is connected to the new segment from the 52nd callback on.
   */
  lemma RecoversWithin52(d: Driver<nat>, w: nat -> World<nat>, live: nat, k: nat)
    requires Between(d) && Serves(w, live, k) && d.conn != Some(live)
    requires d.conn.Some? ==> FrozenFor(w, d.conn.value, 51)
    requires k >= 52
    ensures After(d, w, k).conn == Some(live)
  {
    if d.conn.None? {
      ConnectsAfterCountdown(d, w, live, k);
    } else {
      var j := FrozenIsDropped(d, w, d.conn.value);
      ServesShift(w, live, j, k - j);
      ConnectsAfterCountdown(After(d, w, j), Shifted(w, j), live, k - j);
      AfterShift(d, w, j, k - j);
    }
  }

  /** 52 is tight: a driver that just recorded nothing yet from a dead segment needs all of them. */
  lemma RecoveryBoundIsTight(d: Driver<nat>, w: nat -> World<nat>, dead: nat)
    requires JustConnected(d, dead) && ActiveFor(w, dead, 51) && w(0).heartbeat(dead) != 0
    requires FrozenFor(w, dead, 51) && Between(d)
    ensures After(d, w, 50).conn == Some(dead) && After(d, w, 51).conn == None
  {
    var k := DeadProducerIsDropped(d, w, dead);
  }
}
