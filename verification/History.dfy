/** What the state of the system is in terms of what was done, in every run: settings, status, headers. */
module History {
  import opened DriverSpec
  import opened EndToEnd
  import opened EngineSpec
  import opened RingSpec
  import opened Wrappers
  import EngineTheorems
  import Lifecycle
  import ModeChange
  import SegmentLog

  // The engine: each setting is the one last asked for since the app was last launched.

  function Before(acts: seq<Action>): seq<Action>
    requires acts != []
  {
    acts[..|acts| - 1]
  }

  function Last(acts: seq<Action>): Action
    requires acts != []
  {
    acts[|acts| - 1]
  }

  function AskedMode(acts: seq<Action>): Mode
    decreases |acts|
  {
    if acts == [] || Last(acts) == CrashApp then Balanced
    else if Last(acts).Tune? && Last(acts).control.ChangeMode? then Last(acts).control.mode
    else AskedMode(Before(acts))
  }

  function AskedDryMix(acts: seq<Action>): real
    decreases |acts|
  {
    if acts == [] || Last(acts) == CrashApp then -1.0
    else if Last(acts).Tune? && Last(acts).control.ChangeDryMix? then Last(acts).control.x
    else AskedDryMix(Before(acts))
  }

  function AskedLimit(acts: seq<Action>): real
    decreases |acts|
  {
    if acts == [] || Last(acts) == CrashApp then -1.0
    else if Last(acts).Tune? && Last(acts).control.ChangeAttenuation? then Last(acts).control.x
    else AskedLimit(Before(acts))
  }

  /** Running exactly if the last start or stop since the launch was a start that worked. */
  function AskedStatus(acts: seq<Action>): Status
    decreases |acts|
  {
    if acts == [] || Last(acts) == CrashApp then Stopped
    else if Last(acts).Tune? && Last(acts).control.InitEngine? then (if Last(acts).control.rnnoiseOk then Running else Error)
    else if Last(acts).Tune? && Last(acts).control.ShutdownEngine? then Stopped
    else AskedStatus(Before(acts))
  }

  /** Whether a model is loaded: a start looks for one only if there is none, and loading one by path may lose the old one. */
  predicate ModelThere(acts: seq<Action>)
    decreases |acts|
  {
    if acts == [] || Last(acts) == CrashApp then false
    else if Last(acts).Tune? && Last(acts).control.InitEngine? then
      ModelThere(Before(acts)) || (Last(acts).control.rnnoiseOk && Last(acts).control.loads)
    else if Last(acts).Tune? && Last(acts).control.Load? then Last(acts).control.loads
    else ModelThere(Before(acts))
  }

  ghost predicate Follows(e: Engine, mode: Mode, dryMix: real, limit: real, status: Status, model: bool) {
    && e.core.mode == mode
    && e.core.dryMixOverride == dryMix
    && e.attenLimOverride == limit
    && e.status == status
    && e.channels == 2
    && e.core.rnnoise.Some? == (status == Running)
    && (e.core.deepfilter.Some? && e.core.deepfilter.value.loaded) == model
    && (model ==> e.core.deepfilter.value.attenuation == if limit >= 0.0 then limit else 0.0)
  }

  lemma ControlFollows(a: App, c: Control, mode: Mode, dryMix: real, limit: real, status: Status, model: bool)
    requires Follows(a.engine, mode, dryMix, limit, status, model) && EngineOk(a.engine)
    ensures var e := Tuned(a, c).engine;
            match c
            case InitEngine(ok, loads, _) =>
              Follows(e, mode, dryMix, limit, if ok then Running else Error, model || (ok && loads))
            case ShutdownEngine => Follows(e, mode, dryMix, limit, Stopped, model)
            case ChangeMode(to, _) => Follows(e, to, dryMix, limit, status, model)
            case ChangeDryMix(x) => Follows(e, mode, x, limit, status, model)
            case ChangeAttenuation(x) => Follows(e, mode, dryMix, x, status, model)
            case Load(loads) => Follows(e, mode, dryMix, limit, status, loads)
  {
    hide EngineOk, ZeroStates;
  }

  lemma CaptureFollows(m: Models, s: System, input: seq<real>, refused: bool,
                       mode: Mode, dryMix: real, limit: real, status: Status, model: bool)
    requires Inv(m, s) && Follows(s.app.engine, mode, dryMix, limit, status, model)
    ensures Follows(Next(m, s, Capture(input, refused)).app.engine, mode, dryMix, limit, status, model)
  {
    hide ShmOk, DriverOk, OffersOk, SessionOk, Process, Mono, Rendered, CanWrite, ModeChange.Settled;
    if Captures(s, input) {
      var xs := Mono(input, 2, |input| / 2);
      EngineTheorems.ProcessKeepsSettings(m, s.app.engine, xs, s.app.slow);
      ProcessKeepsChannels(m, s.app.engine, xs, s.app.slow);
      LimitKept(m, s.app.engine, xs, s.app.slow);
    }
  }

  lemma LimitKept(m: Models, e: Engine, xs: seq<real>, slow: nat -> bool)
    requires Ready(e) && ModeChange.Settled(e)
    ensures EngineTheorems.AttenuationOk(Process(m, e, xs, slow).0)
  {
    hide Process;
    EngineTheorems.ProcessKeepsAttenuation(m, e, xs, slow);
  }

  /**
   In every run of the system: mode, dry mix, attenuation limit and status are
   those last asked for since the latest launch, or Balanced, none, none and
   stopped; the engine works on two channels; a model is there exactly if one
   was loaded, and works under the limit in force.
   */
  lemma {:induction false} EngineFollowsHistory(m: Models, slow: nat -> bool, acts: seq<Action>)
    ensures Follows(Run(m, slow, acts).app.engine, AskedMode(acts), AskedDryMix(acts), AskedLimit(acts), AskedStatus(acts), ModelThere(acts))
    decreases |acts|
  {
    hide Inv, Next, Follows;
    if acts == [] {
      StartFollows(slow);
    } else {
      var before, a := Before(acts), Last(acts);
      EngineFollowsHistory(m, slow, before);
      var s := Run(m, slow, before);
      EngineStep(m, s, a, AskedMode(before), AskedDryMix(before), AskedLimit(before), AskedStatus(before), ModelThere(before));
    }
  }

  lemma StartFollows(slow: nat -> bool)
    ensures Follows(Start(slow).app.engine, Balanced, -1.0, -1.0, Stopped, false)
  {
  }

  lemma EngineStep(m: Models, s: System, a: Action, mode: Mode, dryMix: real, limit: real, status: Status, model: bool)
    requires Inv(m, s) && Follows(s.app.engine, mode, dryMix, limit, status, model)
    ensures var e := Next(m, s, a).app.engine;
            match a
            case Tune(InitEngine(ok, loads, _)) =>
              Follows(e, mode, dryMix, limit, if ok then Running else Error, model || (ok && loads))
            case Tune(ShutdownEngine) => Follows(e, mode, dryMix, limit, Stopped, model)
            case Tune(ChangeMode(to, _)) => Follows(e, to, dryMix, limit, status, model)
            case Tune(ChangeDryMix(x)) => Follows(e, mode, x, limit, status, model)
            case Tune(ChangeAttenuation(x)) => Follows(e, mode, dryMix, x, status, model)
            case Tune(Load(loads)) => Follows(e, mode, dryMix, limit, status, loads)
            case CrashApp => Follows(e, Balanced, -1.0, -1.0, Stopped, false)
            case _ => Follows(e, mode, dryMix, limit, status, model)
  {
    hide ShmOk, DriverOk, OffersOk, SessionOk, EngineOk, Follows, Tuned, Captured;
    if a.Tune? {
      ControlFollows(s.app, a.control, mode, dryMix, limit, status, model);
    } else if a.Capture? {
      CaptureFollows(m, s, a.input, a.refused, mode, dryMix, limit, status, model);
    } else if a == CrashApp {
      StartFollows(s.app.slow);
    } else {
      DriverLeavesApp(m, s, a);
    }
  }

  lemma DriverLeavesApp(m: Models, s: System, a: Action)
    requires Inv(m, s) && !a.Tune? && !a.Capture? && a != CrashApp
    ensures Next(m, s, a).app == s.app
  {
    hide ShmOk, DriverOk, OffersOk, SessionOk, EngineOk;
  }

  // Starts and stops wipe what they should.

  ghost predicate Blank(states: seq<real>) {
    |states| == 45304 && forall i :: 0 <= i < |states| ==> states[i] == 0.0
  }

  ghost predicate NothingBuffered(e: Engine) {
    e.input == [] && e.output == [] && e.readPos == 0 && !e.started
  }

  /** `init`: new denoiser states, empty buffers, the scheduler at rest, and the engine runs. */
  lemma InitStartsClean(e: Engine, channels: nat, loads: bool)
    ensures var f := Init(e, channels, true, loads).0;
            && f.status == Running && f.channels == channels && NothingBuffered(f)
            && f.core.rnnoise == Some([])
            && f.core.deepfilter.Some? && (EngineTheorems.HasModel(e) || loads ==> Blank(f.core.deepfilter.value.states))
            && f.core.overload.count == 0 && f.core.overload.cooldown == 0 && !f.core.overload.engaged
  {
  }

  /** `shutdown`: nothing is left to hear and no frame is taken any more, but the model stays loaded with its state wiped. */
  lemma ShutdownIsQuiet(e: Engine)
    ensures var f := Shutdown(e);
            && f.status == Stopped && f.core.rnnoise == None && NothingBuffered(f)
            && f.core.deepfilter.Some? == e.core.deepfilter.Some?
            && (f.core.deepfilter.Some? ==>
                  && f.core.deepfilter.value.loaded == e.core.deepfilter.value.loaded
                  && f.core.deepfilter.value.attenuation == e.core.deepfilter.value.attenuation
                  && Blank(f.core.deepfilter.value.states))
            && f.core.overload.count == 0 && f.core.overload.cooldown == 0 && !f.core.overload.engaged
            && (f.core.mode, f.core.dryMixOverride, f.attenLimOverride, f.channels) ==
               (e.core.mode, e.core.dryMixOverride, e.attenLimOverride, e.channels)
  {
  }

  /** A change of mode empties the buffers and wipes the model's state; asking for the mode it is in does nothing. */
  lemma SetModeStartsClean(e: Engine, mode: Mode)
    ensures var f := SetMode(e, mode);
            && f.core.mode == mode && f.status == e.status
            && (mode == e.core.mode ==> f == e)
            && (mode != e.core.mode ==>
                  NothingBuffered(f) && (f.core.deepfilter.Some? ==> Blank(f.core.deepfilter.value.states)))
  {
  }

  /** A failed `init` leaves the engine in error without RNNoise; buffers, settings and model stay. */
  lemma FailedInitKeepsRest(e: Engine, channels: nat, loads: bool)
    ensures var (f, ok) := Init(e, channels, false, loads);
            && !ok && f.status == Error && f.core.rnnoise == None && f.channels == channels
            && (f.input, f.output, f.readPos, f.started, f.attenLimOverride) == (e.input, e.output, e.readPos, e.started, e.attenLimOverride)
            && f.core.(rnnoise := e.core.rnnoise) == e.core
  {
  }

  /** What the buffers hold, which denoiser state RNNoise is in and where the scheduler stands. */
  ghost predicate SameAudio(e: Engine, f: Engine) {
    && (f.input, f.output, f.readPos, f.started) == (e.input, e.output, e.readPos, e.started)
    && f.core.rnnoise == e.core.rnnoise && f.core.overload == e.core.overload
    && f.core.mode == e.core.mode && f.status == e.status && f.channels == e.channels
  }

  /** The settings take effect without touching the audio; the model keeps its recurrent state. */
  lemma SettingsKeepAudio(e: Engine, x: real)
    ensures SameAudio(e, SetDryMix(e, x)) && SetDryMix(e, x).core.deepfilter == e.core.deepfilter
    ensures SameAudio(e, SetAttenuationLimit(e, x))
    ensures EngineTheorems.HasModel(e) ==>
      var d := SetAttenuationLimit(e, x).core.deepfilter;
      && d.Some? && d.value.loaded && d.value.states == e.core.deepfilter.value.states
      && d.value.attenuation == if x >= 0.0 then x else 0.0
  {
  }

  /** A model that loads starts with its state wiped and under the limit in force; the buffers keep what they hold. */
  lemma LoadStartsClean(e: Engine, loads: bool)
    ensures var f := LoadModel(e, loads);
            && SameAudio(e, f) && f.core.deepfilter.Some? && f.core.deepfilter.value.loaded == loads
            && (loads ==>
                  && Blank(f.core.deepfilter.value.states)
                  && f.core.deepfilter.value.attenuation == if e.attenLimOverride >= 0.0 then e.attenLimOverride else 0.0)
  {
  }

  // The headers: the heartbeat counts accepted blocks, the flag says who was let go cleanly.

  function AcceptedBlocks(offers: seq<Offer>, seg: nat): nat
    decreases |offers|
  {
    if offers == [] then 0
    else
      var o := offers[|offers| - 1];
      AcceptedBlocks(offers[..|offers| - 1], seg) + if o.seg == seg && o.accepted then 1 else 0
  }

  lemma AcceptedBlocksSnoc(offers: seq<Offer>, o: Offer, seg: nat)
    ensures AcceptedBlocks(offers + [o], seg) == AcceptedBlocks(offers, seg) + if o.seg == seg && o.accepted then 1 else 0
  {
    assert (offers + [o])[..|offers|] == offers;
  }

  lemma {:induction false} NoneAccepted(offers: seq<Offer>, seg: nat)
    requires forall k :: 0 <= k < |offers| ==> offers[k].seg < seg
    ensures AcceptedBlocks(offers, seg) == 0
    decreases |offers|
  {
    if offers != [] {
      NoneAccepted(offers[..|offers| - 1], seg);
    }
  }

  ghost predicate BeatsCount(segs: seq<Ring>, offers: seq<Offer>) {
    forall i :: 0 <= i < |segs| ==> segs[i].heartbeat == AcceptedBlocks(offers, i)
  }

  ghost predicate FlagsTell(s: Lifecycle.Shm) {
    && (forall i :: i in s.orphans ==> i < |s.segs|)
    && (s.held.Holds? ==> s.held.seg !in s.orphans)
    && (forall i :: 0 <= i < |s.segs| ==> (s.segs[i].active <==> s.held == Lifecycle.Holds(i) || i in s.orphans))
  }

  /** Settings and the driver leave heartbeats and flags alone. */
  lemma DriverLeavesHeaders(m: Models, s: System, a: Action)
    requires Inv(m, s) && !a.Capture? && !a.CreateSegment? && !a.DestroySegment? && !a.CrashApp?
    ensures var t := Next(m, s, a);
            && t.app.offers == s.app.offers
            && t.shm.held == s.shm.held && t.shm.orphans == s.shm.orphans && |t.shm.segs| == |s.shm.segs|
            && forall i :: 0 <= i < |s.shm.segs| ==>
                 t.shm.segs[i].heartbeat == s.shm.segs[i].heartbeat && t.shm.segs[i].active == s.shm.segs[i].active
  {
    hide SegmentLog.BooksOk, OffersOk, SessionOk, EngineOk, Tuned, CanRead, Taken, EnsureConnected, Check, OnStartIO;
    if a.Tune? {
      TunedOk(m, s.app, a.control);
    }
  }

  lemma CaptureHeaders(m: Models, s: System, input: seq<real>, refused: bool)
    requires Inv(m, s) && BeatsCount(s.shm.segs, s.app.offers) && FlagsTell(s.shm)
    ensures var t := Next(m, s, Capture(input, refused)); BeatsCount(t.shm.segs, t.app.offers) && FlagsTell(t.shm)
  {
    hide SegmentLog.BooksOk, DriverOk, SessionOk, Process, Mono, Rendered, CanWrite, Stored, AcceptedBlocks, Accepted;
    var t := Next(m, s, Capture(input, refused));
    if Captures(s, input) {
      forall i | 0 <= i < |t.shm.segs|
        ensures t.shm.segs[i].heartbeat == AcceptedBlocks(t.app.offers, i)
      {
        AcceptedBlocksSnoc(s.app.offers, t.app.offers[|s.app.offers|], i);
      }
    }
  }

  lemma ProducerHeaders(m: Models, s: System, a: Action)
    requires Inv(m, s) && (a.CreateSegment? || a.DestroySegment? || a.CrashApp?)
    requires BeatsCount(s.shm.segs, s.app.offers) && FlagsTell(s.shm)
    ensures var t := Next(m, s, a); BeatsCount(t.shm.segs, t.app.offers) && FlagsTell(t.shm)
  {
    hide SegmentLog.BooksOk, DriverOk, SessionOk, EngineOk, AcceptedBlocks, Accepted, NewRing;
    NoneAccepted(s.app.offers, |s.shm.segs|);
  }

  lemma HeaderStep(m: Models, s: System, a: Action)
    requires Inv(m, s) && BeatsCount(s.shm.segs, s.app.offers) && FlagsTell(s.shm)
    ensures var t := Next(m, s, a); BeatsCount(t.shm.segs, t.app.offers) && FlagsTell(t.shm)
  {
    hide Inv, Next, AcceptedBlocks;
    if a.Capture? {
      CaptureHeaders(m, s, a.input, a.refused);
    } else if a.CreateSegment? || a.DestroySegment? || a.CrashApp? {
      ProducerHeaders(m, s, a);
    } else {
      DriverLeavesHeaders(m, s, a);
    }
  }

  /**
   In every run, disciplined or not: a segment's heartbeat is the number of
   blocks it accepted, and its flag is up exactly while the producer holds it or
   if a producer died holding it.
   */
  lemma {:induction false} HeadersFollowHistory(m: Models, slow: nat -> bool, acts: seq<Action>)
    ensures var s := Run(m, slow, acts); BeatsCount(s.shm.segs, s.app.offers) && FlagsTell(s.shm)
    decreases |acts|
  {
    hide Inv, Next;
    if acts != [] {
      var before, a := Before(acts), Last(acts);
      HeadersFollowHistory(m, slow, before);
      HeaderStep(m, Run(m, slow, before), a);
    }
  }
}
