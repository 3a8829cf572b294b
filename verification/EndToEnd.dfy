/**
 The whole path from the microphone callback to the client: the app's engine
 and its shared segments, crashes and restarts included, and the driver's
 connection, whose callbacks the producer may interleave with at any point.
 The operations on a ring are those of the queue that `RingTheorems` shows the
 interleaved accesses to refine: a write or a read may be refused on a stale
 index, a flush may store any position it loaded earlier, and the flag and the
 heartbeat may be any values.
 */
module EndToEnd {
  import opened DriverSpec
  import opened DriverTheorems
  import opened EngineSpec
  import opened RingSpec
  import opened SegmentLog
  import opened Samples
  import opened Wrappers
  import Averaging
  import D = Deliveries
  import EngineTheorems
  import Lifecycle
  import ModeChange
  import RingTheorems

  /** A block that the engine answered and the bridge offered to a segment. */
  datatype Offer = Offer(seg: nat, block: Block, accepted: bool)

  /**
   The mono inputs since the engine was last reset, and the interleaved left and
   right samples they were taken from; no setting was changed since.  `since`
   counts the offers before.
   */
  datatype Session = Session(start: Engine, since: nat, calls: seq<seq<real>>, captured: seq<real>)

  /** The app process.  `slow` times the chunks until the next reset. */
  datatype App = App(engine: Engine, slow: nat -> bool, offers: seq<Offer>, session: Option<Session>)

  /** Where the driver is: between callbacks, about to store the flush of a new mapping, connected, or past the checks. */
  datatype Phase = Idle | Mapped(inCallback: bool) | Connected | Checked

  datatype System = System(app: App, shm: Lifecycle.Shm, streams: seq<seq<real>>, log: D.Log, driver: Driver<nat>, phase: Phase)

  datatype Control =
    | InitEngine(rnnoiseOk: bool, loads: bool, timing: nat -> bool)
    | ShutdownEngine
    | ChangeMode(mode: Mode, timing: nat -> bool)
    | ChangeDryMix(x: real)
    | ChangeAttenuation(x: real)
    | Load(loads: bool)

  datatype Action =
    | Capture(input: seq<real>, refused: bool)            // process_and_write of interleaved stereo
    | Tune(control: Control)
    | CreateSegment(capacity: nat, works: bool)
    | DestroySegment
    | CrashApp
    | StartIO(works: bool)
    | StopIO
    | Open(works: bool)                                   // first part of OnReadClientInput
    | StoreFlush(from: nat)                               // the store of a new connection's flush
    | CheckProducer(active: bool, heartbeat: nat)         // the checks, on the values that were loaded
    | ReadAudio(frames: nat, refused: bool)               // last part of OnReadClientInput

  // The steps.

  /** All that a segment accepted. */
  function Accepted(offers: seq<Offer>, seg: nat): seq<real>
    decreases |offers|
  {
    if offers == [] then []
    else
      var o := offers[|offers| - 1];
      Accepted(offers[..|offers| - 1], seg) + if o.seg == seg && o.accepted then Rendered(o.block, 2) else []
  }

  function Blocks(offers: seq<Offer>): (r: seq<Block>)
    ensures |r| == |offers|
  {
    seq(|offers|, k requires 0 <= k < |offers| => offers[k].block)
  }

  ghost predicate ShmOk(s: System) {
    && Lifecycle.Ok(s.shm)
    && |s.streams| == |s.shm.segs|
    && BooksOk(s.shm.segs, s.streams, s.log)
  }

  ghost predicate EngineOk(e: Engine) {
    && (e.status == Running ==> Ready(e) && e.channels == 2)
    && ModeChange.Settled(e)
  }

  ghost predicate DriverOk(s: System) {
    && Between(s.driver)
    && (s.driver.conn.Some? ==> s.driver.conn.value < |s.shm.segs|)
    && (s.driver.conn.Some? && !s.phase.Mapped? ==>
          s.log.conns != [] && s.log.conns[|s.log.conns| - 1].segment == s.driver.conn.value)
    && (s.phase != Idle ==> s.driver.conn.Some?)
  }

  /** Each segment's stream is the concatenation of the blocks it accepted. */
  ghost predicate OffersOk(offers: seq<Offer>, streams: seq<seq<real>>) {
    && (forall k :: 0 <= k < |offers| ==> offers[k].seg < |streams|)
    && (forall i :: 0 <= i < |streams| ==> streams[i] == Accepted(offers, i))
  }

  /** Each mono sample is half of left plus right. */
  ghost predicate Halved(mono: seq<real>, stereo: seq<real>) {
    && |stereo| == 2 * |mono|
    && forall i :: 0 <= i < |mono| ==> 2.0 * mono[i] == stereo[2 * i] + stereo[2 * i + 1]
  }

  /** Since the reset the engine answered exactly the offered blocks. */
  ghost predicate SessionOk(m: Models, a: App) {
    a.session.Some? ==>
      var s := a.session.value;
      && EngineTheorems.Fresh(s.start) && s.start.core.chunks == 0
      && s.since <= |a.offers|
      && Halved(EngineTheorems.Joined(s.calls), s.captured)
      && EngineTheorems.Run(m, s.start, s.calls, a.slow) == (a.engine, Blocks(a.offers[s.since..]))
  }

  ghost predicate Inv(m: Models, s: System) {
    && ShmOk(s)
    && EngineOk(s.app.engine)
    && DriverOk(s)
    && OffersOk(s.app.offers, s.streams)
    && SessionOk(m, s.app)
  }

  function Reset(a: App, e: Engine, timing: nat -> bool): App {
    App(e, timing, a.offers, if e.status == Running then Some(Session(e, |a.offers|, [], [])) else None)
  }

  function Retuned(a: App, e: Engine): App {
    a.(engine := e, session := None)
  }

  function Tuned(a: App, c: Control): App {
    match c
    case InitEngine(rnnoiseOk, loads, timing) => Reset(a, Init(a.engine, 2, rnnoiseOk, loads).0, timing)
    case ShutdownEngine => Retuned(a, Shutdown(a.engine))
    case ChangeMode(mode, timing) => if a.engine.core.mode == mode then a else Reset(a, SetMode(a.engine, mode), timing)
    case ChangeDryMix(x) => Retuned(a, SetDryMix(a.engine, x))
    case ChangeAttenuation(x) => Retuned(a, SetAttenuationLimit(a.engine, x))
    case Load(loads) => Retuned(a, LoadModel(a.engine, loads))
  }

  predicate Captures(s: System, input: seq<real>) {
    s.shm.held.Holds? && s.app.engine.status == Running && |input| % 2 == 0
  }

  ghost function Captured(m: Models, s: System, input: seq<real>, refused: bool): System
    requires Inv(m, s)
  {
    if !Captures(s, input) then s
    else
      var i, xs := s.shm.held.seg, Mono(input, 2, |input| / 2);
      var (e, block) := Process(m, s.app.engine, xs, s.app.slow);
      var ring, samples := s.shm.segs[i], Rendered(block, 2);
      var accepted := !refused && CanWrite(ring, |samples|);
      s.(
        app := Answered(s.app, e, input, xs, Offer(i, block, accepted)),
        shm := if accepted then s.shm.(segs := s.shm.segs[i := Write(ring, samples)]) else s.shm,
        streams := if accepted then s.streams[i := s.streams[i] + samples] else s.streams)
  }

  function Answered(a: App, e: Engine, input: seq<real>, xs: seq<real>, o: Offer): App {
    a.(engine := e, offers := a.offers + [o],
       session := if a.session.None? then None
                  else Some(a.session.value.(calls := a.session.value.calls + [xs], captured := a.session.value.captured + input)))
  }

  ghost function WithShm(s: System, t: Lifecycle.Shm): System {
    s.(shm := t, streams := s.streams + seq(if |t.segs| > |s.streams| then |t.segs| - |s.streams| else 0, _ => []))
  }

  function Leads(s: System, works: bool): Option<nat> {
    if works then s.shm.name else None
  }

  /** `OnStartIO` up to the store of the flush, if there is one. */
  function Restarted(s: System, works: bool): System {
    var d := OnStartIO(s.driver, Leads(s, works));
    s.(driver := d, phase := if d.conn.Some? then Mapped(false) else Idle)
  }

  /** `ensureConnected` within a callback, up to the store of the flush. */
  function Opened(s: System, works: bool): System {
    var d := EnsureConnected(s.driver, Leads(s, works));
    if d.conn.None? then s.(driver := d.(wasConnected := false))
    else s.(driver := d, phase := if s.driver.conn.None? then Mapped(true) else Connected)
  }

  /** A position that the flush may have loaded: not behind the reader, at most the write position now. */
  ghost predicate CanFlush(s: System, from: nat)
    requires ShmOk(s) && DriverOk(s)
  {
    && s.phase.Mapped?
    && s.shm.segs[s.driver.conn.value].readPos <= from <= s.shm.segs[s.driver.conn.value].writePos
    && from % 2 == 0
  }

  ghost function Flushed(s: System, from: nat): System
    requires ShmOk(s) && DriverOk(s) && CanFlush(s, from)
  {
    var i := s.driver.conn.value;
    s.(shm := s.shm.(segs := s.shm.segs[i := s.shm.segs[i].(readPos := from)]),
       log := D.Connect(s.log, i, from),
       phase := if s.phase.inCallback then Connected else Idle)
  }

  function Verified(s: System, active: bool, heartbeat: nat): System {
    var d := Check(s.driver, active, heartbeat);
    s.(driver := d, phase := if d.conn.Some? then Checked else Idle)
  }

  ghost function ReadOut(s: System, frames: nat, refused: bool): System
    requires ShmOk(s) && DriverOk(s) && s.phase == Checked
  {
    var i, n := s.driver.conn.value, frames * 2;
    var ring := s.shm.segs[i];
    var given := !refused && CanRead(ring, n);
    s.(phase := Idle,
       driver := s.driver.(wasUnderrun := !given),
       shm := if given then s.shm.(segs := s.shm.segs[i := Read(ring, n)]) else s.shm,
       log := if given then D.Deliver(s.log, ring.readPos, Taken(ring, n)) else s.log)
  }

  /** One step; an action that is not possible now changes nothing. */
  ghost function Next(m: Models, s: System, a: Action): System
    requires Inv(m, s)
  {
    match a
    case Capture(input, refused) => Captured(m, s, input, refused)
    case Tune(control) => s.(app := Tuned(s.app, control))
    case CreateSegment(capacity, works) => if capacity > 0 then WithShm(s, Lifecycle.Create(s.shm, capacity, works)) else s
    case DestroySegment => WithShm(s, Lifecycle.Destroy(s.shm))
    case CrashApp => WithShm(s, Lifecycle.Crash(s.shm)).(app := Retuned(s.app, NEWBORN))
    case StartIO(works) => if s.phase == Idle then Restarted(s, works) else s
    case StopIO => if s.phase == Idle then s.(driver := OnStopIO(s.driver)) else s
    case Open(works) => if s.phase == Idle then Opened(s, works) else s
    case StoreFlush(from) => if CanFlush(s, from) then Flushed(s, from) else s
    case CheckProducer(active, heartbeat) => if s.phase == Connected then Verified(s, active, heartbeat) else s
    case ReadAudio(frames, refused) => if s.phase == Checked then ReadOut(s, frames, refused) else s
  }

  ghost function Start(slow: nat -> bool): System {
    System(App(NEWBORN, slow, [], None), Lifecycle.EMPTY, [], D.Log([], []), Driver(None, 0, false, false, false, 0, 0), Idle)
  }

  // Every step keeps the invariant.

  lemma StartOk(m: Models, slow: nat -> bool, s: System)
    requires s == Start(slow)
    ensures Inv(m, s)
  {
    hide EngineTheorems.Run;
    EmptyBooks(s.shm.segs, s.streams, s.log);
  }

  lemma {:induction false} AcceptedNone(offers: seq<Offer>, seg: nat)
    requires forall k :: 0 <= k < |offers| && offers[k].seg == seg ==> !offers[k].accepted
    ensures Accepted(offers, seg) == []
    decreases |offers|
  {
    if offers != [] {
      AcceptedNone(offers[..|offers| - 1], seg);
    }
  }

  lemma AcceptedSnoc(offers: seq<Offer>, o: Offer, seg: nat)
    ensures Accepted(offers + [o], seg) == Accepted(offers, seg) + if o.seg == seg && o.accepted then Rendered(o.block, 2) else []
  {
    hide Rendered;
    assert (offers + [o])[..|offers|] == offers;
  }

  /** What the engine renders is two equal channels. */
  lemma RenderedIsStereo(b: Block)
    ensures IsStereo(Rendered(b, 2))
  {
    hide Interleaved;
    if b.Audio? {
      forall i | 0 <= i < |b.samples|
        ensures Interleaved(b.samples, 2)[2 * i] == Interleaved(b.samples, 2)[2 * i + 1]
      {
        EveryChannelAlike(b.samples, 2, i, 0);
        EveryChannelAlike(b.samples, 2, i, 1);
      }
    }
  }

  lemma HalvedJoin(mono: seq<real>, stereo: seq<real>, input: seq<real>)
    requires Halved(mono, stereo) && |input| % 2 == 0
    ensures Halved(mono + Mono(input, 2, |input| / 2), stereo + input)
  {
    hide Mono;
    var n, xs := |input| / 2, Mono(input, 2, |input| / 2);
    forall i | 0 <= i < |mono + xs|
      ensures 2.0 * (mono + xs)[i] == (stereo + input)[2 * i] + (stereo + input)[2 * i + 1]
    {
      if i >= |mono| {
        Averaging.StereoIsHalved(input, n, i - |mono|);
      }
    }
  }

  lemma AnsweredOk(m: Models, a: App, input: seq<real>, seg: nat, accepted: bool)
    requires SessionOk(m, a) && Ready(a.engine) && |input| % 2 == 0
    ensures var xs := Mono(input, 2, |input| / 2);
            var (e, block) := Process(m, a.engine, xs, a.slow);
            SessionOk(m, Answered(a, e, input, xs, Offer(seg, block, accepted)))
  {
    hide EngineTheorems.Run, EngineTheorems.Joined, Process, Mono, Halved, EngineTheorems.Fresh;
    if a.session.Some? {
      var s, xs := a.session.value, Mono(input, 2, |input| / 2);
      var (e, block) := Process(m, a.engine, xs, a.slow);
      var o := Offer(seg, block, accepted);
      FreshIsReady(s.start);
      EngineTheorems.RunSnoc(m, s.start, s.calls, xs, a.slow);
      EngineTheorems.JoinedSnoc(s.calls, xs);
      HalvedJoin(EngineTheorems.Joined(s.calls), s.captured, input);
      assert (a.offers + [o])[s.since..] == a.offers[s.since..] + [o];
      assert Blocks(a.offers[s.since..] + [o]) == Blocks(a.offers[s.since..]) + [block];
    }
  }

  lemma FreshIsReady(e: Engine)
    requires EngineTheorems.Fresh(e)
    ensures Ready(e)
  {
  }

  lemma OfferedOk(offers: seq<Offer>, streams: seq<seq<real>>, o: Offer)
    requires OffersOk(offers, streams) && o.seg < |streams|
    ensures OffersOk(offers + [o], if o.accepted then streams[o.seg := streams[o.seg] + Rendered(o.block, 2)] else streams)
  {
    hide Rendered, Accepted;
    var more := if o.accepted then streams[o.seg := streams[o.seg] + Rendered(o.block, 2)] else streams;
    forall i | 0 <= i < |more|
      ensures more[i] == Accepted(offers + [o], i)
    {
      AcceptedSnoc(offers, o, i);
    }
  }

  lemma CapturedOk(m: Models, s: System, input: seq<real>, refused: bool)
    requires Inv(m, s) && Captures(s, input)
    ensures Inv(m, Captured(m, s, input, refused))
  {
    hide BooksOk, OffersOk, SessionOk, Process, Mono, Rendered, Write, CanWrite, Ready, ModeChange.Settled, Between;
    var i, xs := s.shm.held.seg, Mono(input, 2, |input| / 2);
    var (e, block) := Process(m, s.app.engine, xs, s.app.slow);
    var samples := Rendered(block, 2);
    var accepted := !refused && CanWrite(s.shm.segs[i], |samples|);
    ProcessKeepsChannels(m, s.app.engine, xs, s.app.slow);
    ModeChange.ProcessKeepsSettled(m, s.app.engine, xs, s.app.slow);
    RenderedIsStereo(block);
    if accepted {
      WriteKeeps(s.shm.segs, s.streams, s.log, i, samples);
    }
    OfferedOk(s.app.offers, s.streams, Offer(i, block, accepted));
    AnsweredOk(m, s.app, input, i, accepted);
  }

  lemma ProcessKeepsChannels(m: Models, e: Engine, xs: seq<real>, slow: nat -> bool)
    requires Ready(e)
    ensures var e' := Process(m, e, xs, slow).0; Ready(e') && e'.channels == e.channels && e'.status == e.status
  {
    hide Drain;
    DrainShape(m, e.(input := e.input + xs), slow);
  }

  lemma TunedOk(m: Models, a: App, c: Control)
    requires EngineOk(a.engine) && SessionOk(m, a)
    ensures EngineOk(Tuned(a, c).engine) && SessionOk(m, Tuned(a, c)) && Tuned(a, c).offers == a.offers
  {
    hide EngineTheorems.Run, Prepared, Rezeroed, Limited, ModeChange.Settled;
    ControlSettles(a.engine, c);
    if c.InitEngine? {
      FreshSession(m, Tuned(a, c));
    } else if c.ChangeMode? && a.engine.core.mode != c.mode {
      FreshSession(m, Tuned(a, c));
    }
  }

  lemma ControlSettles(e: Engine, c: Control)
    requires ModeChange.Settled(e)
    ensures match c
            case InitEngine(ok, loads, _) => ModeChange.Settled(Init(e, 2, ok, loads).0)
            case ShutdownEngine => ModeChange.Settled(Shutdown(e))
            case ChangeMode(mode, _) => ModeChange.Settled(SetMode(e, mode))
            case ChangeDryMix(x) => ModeChange.Settled(SetDryMix(e, x))
            case ChangeAttenuation(x) => ModeChange.Settled(SetAttenuationLimit(e, x))
            case Load(loads) => ModeChange.Settled(LoadModel(e, loads))
  {
    hide ModeChange.Settled, Prepared, Rezeroed, Limited;
    var ok, loads := c.InitEngine? && c.rnnoiseOk, if c.InitEngine? then c.loads else c.Load? && c.loads;
    var mode := if c.ChangeMode? then c.mode else Balanced;
    var x := if c.ChangeDryMix? then c.x else if c.ChangeAttenuation? then c.x else 0.0;
    ModeChange.ControlsKeepSettled(e, 2, ok, loads, mode, x);
  }

  lemma FreshSession(m: Models, a: App)
    requires a.engine.status == Running ==> EngineTheorems.Fresh(a.engine) && a.engine.core.chunks == 0
    requires a.session == if a.engine.status == Running then Some(Session(a.engine, |a.offers|, [], [])) else None
    ensures SessionOk(m, a)
  {
    if a.session.Some? {
      RunNone(m, a.engine, a.session.value.calls, a.slow);
      assert Blocks(a.offers[|a.offers|..]) == [];
      assert EngineTheorems.Joined(a.session.value.calls) == [];
    }
  }

  lemma RunNone(m: Models, e: Engine, calls: seq<seq<real>>, slow: nat -> bool)
    requires Ready(e) && calls == []
    ensures EngineTheorems.Run(m, e, calls, slow) == (e, [])
  {
  }

  /** Making and destroying segments. */
  lemma WithShmOk(s: System, a: Action, t: Lifecycle.Shm)
    requires ShmOk(s) && DriverOk(s) && OffersOk(s.app.offers, s.streams)
    requires match a
             case CreateSegment(capacity, works) => capacity > 0 && t == Lifecycle.Create(s.shm, capacity, works)
             case DestroySegment => t == Lifecycle.Destroy(s.shm)
             case CrashApp => t == Lifecycle.Crash(s.shm)
             case _ => false
    ensures var u := WithShm(s, t); ShmOk(u) && DriverOk(u) && OffersOk(u.app.offers, u.streams)
  {
    hide BooksOk, Accepted, NewRing;
    match a
    case CreateSegment(capacity, works) =>
      if works {
        var ring := NewRing(capacity);
        var empty: seq<real> := [];
        NewSegment(s, ring, empty);
        var segs := s.shm.segs + [ring];
        if s.shm.held.Holds? {
          FlagKeeps(segs, s.streams + [empty], s.log, s.shm.held.seg, false);
        }
        assert WithShm(s, t).streams == s.streams + [empty];
      } else {
        if s.shm.held.Holds? {
          FlagKeeps(s.shm.segs, s.streams, s.log, s.shm.held.seg, false);
        }
        assert WithShm(s, t).streams == s.streams;
      }
    case DestroySegment =>
      if s.shm.held.Holds? {
        FlagKeeps(s.shm.segs, s.streams, s.log, s.shm.held.seg, false);
      }
      assert WithShm(s, t).streams == s.streams;
    case CrashApp =>
      assert WithShm(s, t).streams == s.streams;
  }

  lemma NewSegment(s: System, ring: Ring, empty: seq<real>)
    requires ShmOk(s) && OffersOk(s.app.offers, s.streams) && ring.Ok() && ring.writePos == 0 && empty == []
    ensures BooksOk(s.shm.segs + [ring], s.streams + [empty], s.log)
    ensures OffersOk(s.app.offers, s.streams + [empty])
  {
    hide BooksOk, Accepted;
    NewKeeps(s.shm.segs, s.streams, s.log, ring, empty);
    AcceptedNone(s.app.offers, |s.streams|);
  }

  lemma FlushedOk(s: System, from: nat)
    requires ShmOk(s) && DriverOk(s) && CanFlush(s, from)
    ensures ShmOk(Flushed(s, from)) && DriverOk(Flushed(s, from))
    ensures Flushed(s, from).app == s.app && Flushed(s, from).streams == s.streams
  {
    hide BooksOk, Between;
    ConnectKeeps(s.shm.segs, s.streams, s.log, s.driver.conn.value, from);
  }

  lemma ReadOutOk(s: System, frames: nat, refused: bool)
    requires ShmOk(s) && DriverOk(s) && s.phase == Checked
    ensures ShmOk(ReadOut(s, frames, refused)) && DriverOk(ReadOut(s, frames, refused))
    ensures ReadOut(s, frames, refused).app == s.app && ReadOut(s, frames, refused).streams == s.streams
  {
    hide BooksOk, CanRead, Read, Taken;
    ReadKeeps(s.shm.segs, s.streams, s.log, s.driver.conn.value, frames * 2);
  }

  /** The driver's own fields stay in order through every part of a callback. */
  lemma FieldsOk(d: Driver<nat>, open: Option<nat>, active: bool, heartbeat: nat)
    requires Between(d)
    ensures Between(OnStartIO(d, open)) && Between(OnStopIO(d))
    ensures var e := EnsureConnected(d, open);
            Between(e) && (e.conn.None? ==> Between(e.(wasConnected := false))) && (d.conn.Some? ==> e == d)
            && (e.conn.Some? ==> e.conn == d.conn || (d.conn.None? && e.conn == open))
    ensures d.conn.Some? ==>
      Between(Check(d, active, heartbeat)) && (Check(d, active, heartbeat).conn.Some? ==> Check(d, active, heartbeat).conn == d.conn)
    ensures OnStartIO(d, open).conn.Some? ==> OnStartIO(d, open).conn == open
  {
  }

  lemma DriverStepOk(s: System, a: Action)
    requires ShmOk(s) && DriverOk(s)
    ensures a.StartIO? && s.phase == Idle ==> ShmOk(Restarted(s, a.works)) && DriverOk(Restarted(s, a.works))
    ensures a.StopIO? && s.phase == Idle ==> DriverOk(s.(driver := OnStopIO(s.driver)))
    ensures a.Open? && s.phase == Idle ==> ShmOk(Opened(s, a.works)) && DriverOk(Opened(s, a.works))
    ensures a.CheckProducer? && s.phase == Connected ==>
      ShmOk(Verified(s, a.active, a.heartbeat)) && DriverOk(Verified(s, a.active, a.heartbeat))
  {
    hide BooksOk, Between, EnsureConnected, Check, OnStartIO;
    if a.StartIO? || a.Open? {
      FieldsOk(s.driver, Leads(s, a.works), false, 0);
    } else if a.CheckProducer? {
      FieldsOk(s.driver, None, a.active, a.heartbeat);
    } else {
      FieldsOk(s.driver, None, false, 0);
    }
  }

  lemma NextKeeps(m: Models, s: System, a: Action)
    requires Inv(m, s)
    ensures Inv(m, Next(m, s, a))
  {
    if a.Capture? || a.Tune? {
      EngineSideKeeps(m, s, a);
    } else if a.CreateSegment? || a.DestroySegment? || a.CrashApp? {
      SegmentSideKeeps(m, s, a);
    } else {
      DriverSideKeeps(m, s, a);
    }
  }

  lemma EngineSideKeeps(m: Models, s: System, a: Action)
    requires Inv(m, s) && (a.Capture? || a.Tune?)
    ensures Inv(m, Next(m, s, a))
  {
    hide BooksOk, OffersOk, SessionOk, EngineOk, Between, Tuned, Process, Mono, Rendered, Write, CanWrite;
    if a.Capture? {
      if Captures(s, a.input) {
        CapturedOk(m, s, a.input, a.refused);
      }
    } else {
      TunedOk(m, s.app, a.control);
    }
  }

  lemma SegmentSideKeeps(m: Models, s: System, a: Action)
    requires Inv(m, s) && (a.CreateSegment? || a.DestroySegment? || a.CrashApp?)
    ensures Inv(m, Next(m, s, a))
  {
    hide BooksOk, OffersOk, EngineTheorems.Run, Lifecycle.Create, Lifecycle.Destroy, Lifecycle.Crash, Lifecycle.Ok;
    if a.CreateSegment? {
      if a.capacity > 0 {
        WithShmOk(s, a, Lifecycle.Create(s.shm, a.capacity, a.works));
      }
    } else if a.DestroySegment? {
      WithShmOk(s, a, Lifecycle.Destroy(s.shm));
    } else {
      WithShmOk(s, a, Lifecycle.Crash(s.shm));
    }
  }

  lemma DriverSideKeeps(m: Models, s: System, a: Action)
    requires Inv(m, s)
    requires a.StartIO? || a.StopIO? || a.Open? || a.StoreFlush? || a.CheckProducer? || a.ReadAudio?
    ensures Inv(m, Next(m, s, a))
  {
    hide BooksOk, OffersOk, SessionOk, EngineOk, Between, Flushed, ReadOut, EnsureConnected, Check, OnStartIO;
    DriverStepOk(s, a);
    if a.ReadAudio? && s.phase == Checked {
      ReadOutOk(s, a.frames, a.refused);
    } else if a.StoreFlush? && CanFlush(s, a.from) {
      FlushedOk(s, a.from);
    }
  }

  ghost function Run(m: Models, slow: nat -> bool, acts: seq<Action>): (s: System)
    ensures Inv(m, s)
    decreases |acts|
  {
    if acts == [] then
      StartOk(m, slow, Start(slow));
      Start(slow)
    else
      var before := Run(m, slow, acts[..|acts| - 1]);
      NextKeeps(m, before, acts[|acts| - 1]);
      Next(m, before, acts[|acts| - 1])
  }

  // The steps on a segment are those of the queue that the interleaved accesses refine, no more and no fewer.

  function QueueOf(s: System, i: nat): RingTheorems.Queue
    requires i < |s.streams| && i < |s.shm.segs|
  {
    RingTheorems.Queue(s.streams[i], s.shm.segs[i].readPos, s.log)
  }

  /** A capture enqueues its block, or is refused, with room only if the index it saw was stale. */
  lemma CaptureIsEnqueue(m: Models, s: System, input: seq<real>, refused: bool)
    requires Inv(m, s) && Captures(s, input)
    ensures var i, t := s.shm.held.seg, Next(m, s, Capture(input, refused));
            var block := Rendered(Process(m, s.app.engine, Mono(input, 2, |input| / 2), s.app.slow).1, 2);
            && i < |t.streams| && i < |t.shm.segs|
            && if !refused && |s.streams[i]| + |block| <= s.shm.segs[i].readPos + s.shm.segs[i].capacity
               then RingTheorems.Enqueues(QueueOf(s, i), QueueOf(t, i), s.shm.segs[i].capacity, block)
               else QueueOf(t, i) == QueueOf(s, i)
  {
    hide Process, Mono, Rendered, OffersOk, SessionOk, D.WellFormed, WholeFrames, Stored;
    var i := s.shm.held.seg;
    assert Represents(s.shm.segs[i], s.streams[i]);
  }

  /** A read dequeues what was asked for, or is refused, with enough there only if the index it saw was stale. */
  lemma ReadIsDequeue(m: Models, s: System, frames: nat, refused: bool)
    requires Inv(m, s) && s.phase == Checked
    ensures var i, n, t := s.driver.conn.value, frames * 2, Next(m, s, ReadAudio(frames, refused));
            && i < |t.streams| && i < |t.shm.segs|
            && if !refused && s.shm.segs[i].readPos + n <= |s.streams[i]|
               then RingTheorems.Dequeues(QueueOf(s, i), QueueOf(t, i), n)
               else QueueOf(t, i) == QueueOf(s, i)
  {
    hide OffersOk, SessionOk, EngineOk, D.WellFormed, WholeFrames, Taken;
    var i := s.driver.conn.value;
    assert Represents(s.shm.segs[i], s.streams[i]);
    ReadRepresents(s.shm.segs[i], s.streams[i], frames * 2);
  }

  /** The flush of a new connection discards up to any even position between reader and writer. */
  lemma FlushIsDiscard(m: Models, s: System, from: nat)
    requires Inv(m, s) && s.phase.Mapped? && from % 2 == 0
    requires s.shm.segs[s.driver.conn.value].readPos <= from <= |s.streams[s.driver.conn.value]|
    ensures var i, t := s.driver.conn.value, Next(m, s, StoreFlush(from));
            i < |t.streams| && i < |t.shm.segs| && RingTheorems.Discards(QueueOf(s, i), QueueOf(t, i), i, from)
  {
    hide OffersOk, SessionOk, EngineOk, D.WellFormed, WholeFrames;
    var i := s.driver.conn.value;
    assert Represents(s.shm.segs[i], s.streams[i]);
  }

  /** Every other step leaves the queue of every segment alone. */
  lemma OtherStepsKeepQueues(m: Models, s: System, a: Action, i: nat)
    requires Inv(m, s) && i < |s.streams| && !a.Capture? && !a.ReadAudio? && !a.StoreFlush?
    ensures var t := Next(m, s, a);
            i < |t.streams| && i < |t.shm.segs| && QueueOf(t, i) == QueueOf(s, i)
  {
    hide OffersOk, SessionOk, EngineOk, BooksOk, Tuned, NewRing, EnsureConnected, Check, OnStartIO;
  }
}
