/**
 Crash and restart in the whole system: the app dies, a new one makes a new
 segment under the name, and the driver, whatever it was doing, finds it.
 Nothing is assumed about the dead segment: that its heartbeat stands still
 follows from nobody holding it.
 */
module Recovery {
  import opened ClientTheorems
  import opened DriverSpec
  import opened DriverTheorems
  import opened EndToEnd
  import opened EngineSpec
  import opened RingSpec
  import opened SegmentLog
  import opened Wrappers
  import Lifecycle

  /** The app holds segment `live`, which is active, and the name leads there. */
  ghost predicate AppOn(s: System, live: nat) {
    && live < |s.shm.segs|
    && s.shm.name == Some(live)
    && s.shm.held == Lifecycle.Holds(live)
    && s.shm.segs[live].active
  }

  /**
   What happens while the app stays on its segment: captures, settings, and the
   parts of driver callbacks, in any order.  Opening the name succeeds, and the
   checks see the current flag and heartbeat.
   */
  ghost predicate Ordinary(s: System, a: Action)
    requires s.driver.conn.Some? ==> s.driver.conn.value < |s.shm.segs|
  {
    match a
    case Capture(_, _) => true
    case Tune(_) => true
    case Open(works) => works
    case StoreFlush(_) => true
    case CheckProducer(active, heartbeat) =>
      s.phase == Connected && s.driver.conn.Some? ==>
        active == s.shm.segs[s.driver.conn.value].active && heartbeat == s.shm.segs[s.driver.conn.value].heartbeat
    case ReadAudio(_, _) => true
    case _ => false
  }

  predicate StartsCallback(s: System, a: Action) {
    s.phase == Idle && a.Open?
  }

  /** An upper bound on the callbacks that must still start before the driver is connected to `live`. */
  function Left(s: System, live: nat): int
    requires s.driver.conn.Some? ==> s.driver.conn.value < |s.shm.segs|
  {
    match s.driver.conn
    case None => s.driver.countdown + 1
    case Some(i) =>
      if i == live then 0
      else Patience(s.driver, s.shm.segs[i].heartbeat) + if s.phase == Connected then 0 else 1
  }

  lemma LeftBounds(s: System, live: nat)
    requires ShmOk(s) && DriverOk(s)
    ensures Left(s, live) <= 52
    ensures s.driver.conn != Some(live) ==> Left(s, live) >= 1
  {
    hide BooksOk;
  }

  // Away from the live segment every callback that starts brings it nearer.

  lemma CheckNears(d: Driver<nat>, active: bool, heartbeat: nat)
    requires Between(d) && d.conn.Some?
    ensures var e := Check(d, active, heartbeat);
            if e.conn.None? then e.countdown + 1 <= Patience(d, heartbeat)
            else e.conn == d.conn && Patience(e, heartbeat) + 1 <= Patience(d, heartbeat)
  {
  }

  lemma OpenNears(d: Driver<nat>, live: nat)
    requires Between(d)
    ensures var e := EnsureConnected(d, Some(live));
            && (d.conn.Some? ==> e == d)
            && (d.conn.None? && d.countdown > 0 ==> e == d.(countdown := d.countdown - 1))
            && (d.conn.None? && d.countdown == 0 ==> e.conn == Some(live))
  {
  }

  lemma DriverPartNears(m: Models, s: System, a: Action, live: nat)
    requires Inv(m, s) && AppOn(s, live) && Ordinary(s, a) && s.driver.conn != Some(live)
    requires a.Open? || a.CheckProducer?
    ensures var t := Next(m, s, a);
            && t.shm == s.shm && (t.driver.conn.Some? ==> t.driver.conn.value < |t.shm.segs|)
            && Left(t, live) + (if StartsCallback(s, a) then 1 else 0) <= Left(s, live)
  {
    hide ShmOk, OffersOk, SessionOk, EngineOk, EnsureConnected, Check, Patience, Between;
    if a.Open? {
      OpenNears(s.driver, live);
    } else if s.phase == Connected {
      CheckNears(s.driver, a.active, a.heartbeat);
    }
  }

  lemma OtherPartNears(m: Models, s: System, a: Action, live: nat)
    requires Inv(m, s) && AppOn(s, live) && Ordinary(s, a) && s.driver.conn != Some(live)
    requires !a.Open? && !a.CheckProducer?
    ensures var t := Next(m, s, a);
            && AppOn(t, live) && t.driver.conn == s.driver.conn && |t.shm.segs| == |s.shm.segs|
            && Left(t, live) <= Left(s, live)
  {
    hide BooksOk, OffersOk, SessionOk, EngineOk, Between, Process, Mono, Rendered, CanWrite, CanRead, Stored, Taken, Tuned;
  }

  // On the live segment a producer that keeps writing keeps the connection.

  /** Since its last accepted block at most `quiet` checks have looked at the live segment. */
  ghost predicate Watchful(s: System, live: nat, quiet: nat)
    requires live < |s.shm.segs|
  {
    s.driver.conn == Some(live) ==>
      && s.driver.lastHeartbeat <= s.shm.segs[live].heartbeat
      && (s.driver.lastHeartbeat < s.shm.segs[live].heartbeat || s.driver.stale <= quiet)
  }

  /** Checks of the live segment since its heartbeat last moved. */
  function QuietAfter(s: System, t: System, a: Action, live: nat, quiet: nat): nat
    requires live < |s.shm.segs| && live < |t.shm.segs|
  {
    if t.shm.segs[live].heartbeat != s.shm.segs[live].heartbeat then 0
    else if a.CheckProducer? && s.phase == Connected && s.driver.conn == Some(live) then quiet + 1
    else quiet
  }

  lemma StaysLive(m: Models, s: System, a: Action, live: nat, quiet: nat)
    requires Inv(m, s) && AppOn(s, live) && Ordinary(s, a) && Watchful(s, live, quiet)
    requires s.driver.conn == Some(live)
    ensures var t := Next(m, s, a);
            && AppOn(t, live)
            && (QuietAfter(s, t, a, live, quiet) < 50 ==>
                  t.driver.conn == Some(live) && Watchful(t, live, QuietAfter(s, t, a, live, quiet)))
  {
    hide BooksOk, OffersOk, SessionOk, EngineOk, Between, Process, Mono, Rendered, CanWrite, CanRead, Stored, Taken, Tuned;
  }

  lemma StaysAway(m: Models, s: System, a: Action, live: nat, quiet: nat)
    requires Inv(m, s) && AppOn(s, live) && Ordinary(s, a) && s.driver.conn != Some(live)
    ensures var t := Next(m, s, a);
            && AppOn(t, live) && (t.driver.conn.Some? ==> t.driver.conn.value < |t.shm.segs|)
            && Left(t, live) + (if StartsCallback(s, a) then 1 else 0) <= Left(s, live)
            && Watchful(t, live, quiet)
  {
    hide ShmOk, OffersOk, SessionOk, EngineOk, Left, Next;
    NextKeeps(m, s, a);
    if a.Open? || a.CheckProducer? {
      DriverPartNears(m, s, a, live);
      ConnectsFresh(m, s, a, live);
    } else {
      OtherPartNears(m, s, a, live);
    }
  }

  lemma ConnectsFresh(m: Models, s: System, a: Action, live: nat)
    requires Inv(m, s) && s.driver.conn != Some(live) && (a.Open? || a.CheckProducer?)
    ensures var t := Next(m, s, a);
            t.driver.conn == Some(live) ==> t.driver.lastHeartbeat == 0 && t.driver.stale == 0
  {
    hide ShmOk, OffersOk, SessionOk, EngineOk;
  }

  // Whole runs.

  datatype Watch = Watch(s: System, starts: nat, quiet: nat)

  /** The run of `acts` from `s`, with the callbacks that started and the quiet checks on the way. */
  ghost function Follow(m: Models, s: System, acts: seq<Action>, live: nat): (w: Watch)
    requires Inv(m, s) && live < |s.shm.segs|
    ensures Inv(m, w.s) && live < |w.s.shm.segs|
    ensures w.s.driver.conn.Some? ==> w.s.driver.conn.value < |w.s.shm.segs|
    decreases |acts|
  {
    if acts == [] then
      ConnInBounds(m, s);
      Watch(s, 0, 0)
    else
      var w, a := Follow(m, s, acts[..|acts| - 1], live), acts[|acts| - 1];
      NextKeeps(m, w.s, a);
      SegmentsStay(m, w.s, a);
      var t := Next(m, w.s, a);
      ConnInBounds(m, t);
      Watch(t, w.starts + (if StartsCallback(w.s, a) then 1 else 0), QuietAfter(w.s, t, a, live, w.quiet))
  }

  lemma SegmentsStay(m: Models, s: System, a: Action)
    requires Inv(m, s)
    ensures |s.shm.segs| <= |Next(m, s, a).shm.segs|
  {
    hide BooksOk, OffersOk, SessionOk, EngineOk, Between, NewRing, Process, Mono, Rendered, Stored, Taken, Tuned;
  }

  /** Only ordinary steps, and the app never lets fifty checks of its segment pass without a block that gets in. */
  ghost predicate KeepsWriting(m: Models, s: System, acts: seq<Action>, live: nat)
    requires Inv(m, s) && live < |s.shm.segs|
    decreases |acts|
  {
    acts != [] ==>
      var before := acts[..|acts| - 1];
      && KeepsWriting(m, s, before, live)
      && Ordinary(Follow(m, s, before, live).s, acts[|acts| - 1])
      && Follow(m, s, acts, live).quiet < 50
  }

  lemma ConnInBounds(m: Models, s: System)
    requires Inv(m, s)
    ensures s.driver.conn.Some? ==> s.driver.conn.value < |s.shm.segs|
  {
    hide ShmOk, OffersOk, SessionOk, EngineOk;
  }

  lemma {:induction false} NearerOrLive(m: Models, s: System, acts: seq<Action>, live: nat)
    requires Inv(m, s) && AppOn(s, live) && s.driver.conn != Some(live) && KeepsWriting(m, s, acts, live)
    ensures s.driver.conn.Some? ==> s.driver.conn.value < |s.shm.segs|
    ensures var w := Follow(m, s, acts, live);
            && AppOn(w.s, live) && Watchful(w.s, live, w.quiet)
            && (w.s.driver.conn != Some(live) ==> w.starts + Left(w.s, live) <= Left(s, live))
    decreases |acts|
  {
    hide Inv, Next, Left, Watchful, Ordinary, QuietAfter, StartsCallback;
    ConnInBounds(m, s);
    if acts == [] {
      AwayIsWatchful(s, live);
    } else {
      var before, a := acts[..|acts| - 1], acts[|acts| - 1];
      NearerOrLive(m, s, before, live);
      var w := Follow(m, s, before, live);
      if w.s.driver.conn == Some(live) {
        StaysLive(m, w.s, a, live, w.quiet);
      } else {
        StaysAway(m, w.s, a, live, w.quiet);
        QuietStays(m, w.s, a, live, w.quiet);
      }
    }
  }

  lemma AwayIsWatchful(s: System, live: nat)
    requires AppOn(s, live) && s.driver.conn != Some(live)
    ensures Watchful(s, live, 0)
  {
  }

  lemma QuietStays(m: Models, s: System, a: Action, live: nat, quiet: nat)
    requires Inv(m, s) && AppOn(s, live) && s.driver.conn != Some(live) && AppOn(Next(m, s, a), live)
    requires Watchful(Next(m, s, a), live, quiet) && Ordinary(s, a)
    ensures Watchful(Next(m, s, a), live, QuietAfter(s, Next(m, s, a), a, live, quiet))
  {
    hide Inv;
    if a.Open? || a.CheckProducer? {
      ConnectsFresh(m, s, a, live);
    } else {
      OtherPartNears(m, s, a, live);
    }
    hide Next;
  }

  /**
   Recovery: from any state of the whole system in which the app is on segment
   `live` and the driver is not, once 52 callbacks have started the driver is
   connected to `live`, as long as the app stays and keeps writing.
   */
  lemma FiftyTwoCallbacksSuffice(m: Models, s: System, acts: seq<Action>, live: nat)
    requires Inv(m, s) && AppOn(s, live) && s.driver.conn != Some(live) && KeepsWriting(m, s, acts, live)
    requires Follow(m, s, acts, live).starts >= 52
    ensures Follow(m, s, acts, live).s.driver.conn == Some(live)
  {
    hide ShmOk, OffersOk, SessionOk, EngineOk, Left, KeepsWriting, Watchful, Follow;
    NearerOrLive(m, s, acts, live);
    LeftBounds(s, live);
    LeftBounds(Follow(m, s, acts, live).s, live);
  }

  /** And such a state is what a crash and the next launch leave, wherever they strike. */
  lemma CrashAndRelaunch(m: Models, s: System, capacity: nat)
    requires Inv(m, s) && capacity > 0
    ensures Inv(m, Next(m, s, CrashApp))
    ensures var t := Next(m, Next(m, s, CrashApp), CreateSegment(capacity, true));
            && Inv(m, t) && AppOn(t, |s.shm.segs|) && t.driver == s.driver && t.driver.conn != Some(|s.shm.segs|)
            && (s.shm.held.Holds? ==> t.shm.segs[s.shm.held.seg] == s.shm.segs[s.shm.held.seg])
  {
    hide BooksOk, OffersOk, SessionOk, EngineOk, Between;
    NextKeeps(m, s, CrashApp);
    NextKeeps(m, Next(m, s, CrashApp), CreateSegment(capacity, true));
  }

  // A clean stop and a new start.

  /** An uninterrupted callback that finds the flag of its connection down: the client gets nothing, the rings stay as they are. */
  lemma StoppedProducerIsDropped(m: Models, s: System, frames: nat, i: nat)
    requires Inv(m, s) && s.phase == Idle && s.driver.conn == Some(i) && i < |s.shm.segs| && !s.shm.segs[i].active
    ensures var t := WholeCallback(m, s, true, frames);
            && t == s.(driver := t.driver)
            && t.driver.conn == None && t.driver.countdown == 0 && t.driver.lastHeartbeat == 0 && t.driver.stale == 0
  {
    hide OffersOk, SessionOk, EngineOk, BooksOk, WholeCallback, CanRead, Read, Taken;
    PartsMakeCallback(m, s, true, frames);
    assert s.shm.segs[i := s.shm.segs[i]] == s.shm.segs;
  }

  /** An uninterrupted callback that may open the name connects to the active segment there, and stays. */
  lemma CallbackConnects(m: Models, s: System, frames: nat, live: nat)
    requires Inv(m, s) && s.phase == Idle && s.driver.conn == None && s.driver.countdown == 0
    requires live < |s.shm.segs| && s.shm.name == Some(live) && s.shm.segs[live].active
    ensures WholeCallback(m, s, true, frames).driver.conn == Some(live)
  {
    hide OffersOk, SessionOk, EngineOk, BooksOk, WholeCallback, CanRead, Read, Taken;
    PartsMakeCallback(m, s, true, frames);
  }

  /**
   The app stops cleanly and starts again: of the callbacks after that, the
   first drops the old segment without another sample from it, and the second
   is on the new one.
   */
  lemma CleanRestart(m: Models, s: System, capacity: nat, frames1: nat, frames2: nat, s1: System, s2: System)
    requires Inv(m, s) && capacity > 0 && s.phase == Idle
    requires s.shm.held.Holds? && s.driver.conn == Some(s.shm.held.seg)
    requires s1 == Next(m, s, DestroySegment) && Inv(m, s1)
    requires s2 == Next(m, s1, CreateSegment(capacity, true)) && Inv(m, s2)
    ensures var t1 := WholeCallback(m, s2, true, frames1);
            && t1.driver.conn == None && t1.log == s.log && t1.shm == s2.shm
            && WholeCallback(m, t1, true, frames2).driver.conn == Some(|s.shm.segs|)
  {
    RestartShape(m, s, capacity, s1, s2);
    hide Next, Inv, WholeCallback;
    StoppedProducerIsDropped(m, s2, frames1, s.shm.held.seg);
    CallbackConnects(m, WholeCallback(m, s2, true, frames1), frames2, |s.shm.segs|);
  }

  lemma RestartShape(m: Models, s: System, capacity: nat, s1: System, s2: System)
    requires Inv(m, s) && capacity > 0 && s.shm.held.Holds?
    requires s1 == Next(m, s, DestroySegment) && Inv(m, s1)
    requires s2 == Next(m, s1, CreateSegment(capacity, true))
    ensures var i := s.shm.held.seg;
            && i < |s2.shm.segs| && !s2.shm.segs[i].active
            && AppOn(s2, |s.shm.segs|)
            && s2.driver == s.driver && s2.phase == s.phase && s2.log == s.log
  {
    hide BooksOk, OffersOk, SessionOk, EngineOk, Between;
  }
}
