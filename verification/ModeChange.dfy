/**
 What a change of mode forgets.  `set_mode` clears the buffers and the model's
 state but neither the overload counters nor RNNoise's state, so two engines
 with equal settings may answer differently afterwards.  Exactly when they
 never do is settled here.
 */
module ModeChange {
  import opened EngineSpec
  import opened EngineTheorems
  import opened Framing
  import opened Samples
  import opened Scheduler
  import opened Wrappers

  // Answers follow from the batch transform.

  ghost predicate SameBatches(m: Models, c1: Core, c2: Core, slow: nat -> bool)
    requires c1.rnnoise.Some? && c2.rnnoise.Some?
  {
    forall xs: seq<real> :: Batch(m, c1, xs, slow).1 == Batch(m, c2, xs, slow).1
  }

  lemma HeardSoFar(m: Models, e0: Engine, calls: seq<seq<real>>, slow: nat -> bool)
    requires Fresh(e0)
    ensures var l, out := Calls(FRAME, RESET, Sizes(calls)), Batch(m, e0.core, Joined(calls), slow).1;
            l.given <= |out| && Heard(Run(m, e0, calls, slow).1) == Clamped(out[..l.given])
  {
    hide Batch, Run, Calls, Heard;
    RunTracks(m, e0, calls, slow);
  }

  lemma {:induction false} SameAnswers(m: Models, e1: Engine, e2: Engine, calls: seq<seq<real>>, slow: nat -> bool)
    requires Fresh(e1) && Fresh(e2) && SameBatches(m, e1.core, e2.core, slow)
    ensures Run(m, e1, calls, slow).1 == Run(m, e2, calls, slow).1
    decreases |calls|
  {
    hide Process, Batch, Calls, Sounds, Fresh;
    if calls != [] {
      var before, xs := calls[..|calls| - 1], calls[|calls| - 1];
      SameAnswers(m, e1, e2, before, slow);
      LastAnswer(m, e1, e2, before, slow, xs);
      assert before + [xs] == calls;
    }
  }

  lemma LastAnswer(m: Models, e1: Engine, e2: Engine, before: seq<seq<real>>, slow: nat -> bool, xs: seq<real>)
    requires Fresh(e1) && Fresh(e2) && SameBatches(m, e1.core, e2.core, slow)
    requires Run(m, e1, before, slow).1 == Run(m, e2, before, slow).1
    ensures Run(m, e1, before + [xs], slow).1 == Run(m, e2, before + [xs], slow).1
  {
    var f1, f2 := Run(m, e1, before, slow).0, Run(m, e2, before, slow).0;
    hide Process, Batch, Calls, Sounds, Ready, Run, Heard;
    var b1, b2 := Process(m, f1, xs, slow).1, Process(m, f2, xs, slow).1;
    var blocks := Run(m, e1, before, slow).1;
    RunSnoc(m, e1, before, xs, slow);
    RunSnoc(m, e2, before, xs, slow);
    AllAudioOrAllSilence(m, e1, before, slow, xs);
    AllAudioOrAllSilence(m, e2, before, slow, xs);
    HeardSoFar(m, e1, before + [xs], slow);
    HeardSoFar(m, e2, before + [xs], slow);
    HeardSnoc(blocks, b1);
    HeardSnoc(blocks, b2);
    SameBlocks(Heard(blocks), b1, b2);
  }

  lemma SameBlocks(heard: seq<real>, b1: Block, b2: Block)
    requires b1.Size() == b2.Size() && b1.Audio? == b2.Audio?
    requires heard + (if b1.Audio? then b1.samples else []) == heard + if b2.Audio? then b2.samples else []
    ensures b1 == b2
  {
    if b1.Audio? {
      assert (heard + b1.samples)[|heard|..] == b1.samples;
      assert (heard + b2.samples)[|heard|..] == b2.samples;
    }
  }

  /** A single callback of whole frames, long enough to complete the prefill, is answered with all of its batch. */
  lemma OneLongCall(m: Models, e0: Engine, calls: seq<seq<real>>, xs: seq<real>, slow: nat -> bool)
    requires Fresh(e0) && calls == [xs] && |xs| % FRAME == 0 && |xs| >= PREFILL
    ensures Heard(Run(m, e0, calls, slow).1) == Clamped(Batch(m, e0.core, xs, slow).1)
  {
    hide Batch, Run, Heard;
    HeardSoFar(m, e0, calls, slow);
    assert Sizes(calls) == [|xs|];
    CallOnce(RESET, |xs|);
    var none := calls[..0];
    assert Joined(none) == [] && Joined(calls) == Joined(none) + xs == xs;
    var out := Batch(m, e0.core, xs, slow).1;
    assert out[..|xs|] == out;
  }

  // Cores that can never be told apart.

  /** Chunks still to be passed through, and slow inferences counted so far: all that matters of the overload counters. */
  function Outlook(o: Overload): (nat, nat) {
    if PassesThrough(o) then (o.cooldown, 0) else (0, if o.engaged then 0 else o.count)
  }

  lemma OutlookSteps(o1: Overload, o2: Overload, slow: bool)
    requires Outlook(o1) == Outlook(o2)
    ensures PassesThrough(o1) == PassesThrough(o2) && Outlook(Step(o1, slow)) == Outlook(Step(o2, slow))
  {
  }

  /** What holds of every engine that the code can reach: the model's limit is current, fewer than five slow inferences on count. */
  ghost predicate Settled(e: Engine) {
    AttenuationOk(e) && Outlook(e.core.overload).1 < 5
  }

  lemma NewbornSettled()
    ensures Settled(NEWBORN)
  {
  }

  lemma ControlsKeepSettled(e: Engine, channels: nat, ok: bool, loads: bool, mode: Mode, x: real)
    requires Settled(e)
    ensures Settled(Init(e, channels, ok, loads).0)
    ensures Settled(Shutdown(e)) && Settled(SetMode(e, mode)) && Settled(LoadModel(e, loads))
    ensures Settled(SetDryMix(e, x)) && Settled(SetAttenuationLimit(e, x))
  {
    ControlsKeepAttenuation(e, channels, ok, loads, mode, x);
    hide AttenuationOk, Prepared, Limited, Rezeroed;
  }

  lemma StepKeepsOutlook(o: Overload, slow: bool)
    requires Outlook(o).1 < 5
    ensures Outlook(Step(o, slow)).1 < 5
  {
  }

  lemma {:induction false} DrainKeepsOutlook(m: Models, e: Engine, slow: nat -> bool)
    requires e.core.rnnoise.Some? && Outlook(e.core.overload).1 < 5
    ensures Outlook(Drain(m, e, slow).core.overload).1 < 5
    decreases |e.input|
  {
    hide Infer, Outlook, Step;
    if |e.input| >= FRAME {
      StepKeepsOutlook(e.core.overload, slow(e.core.chunks));
      DrainKeepsOutlook(m, MonoChunk(m, e, slow(e.core.chunks)), slow);
    }
  }

  lemma ProcessKeepsSettled(m: Models, e: Engine, xs: seq<real>, slow: nat -> bool)
    requires Ready(e) && Settled(e)
    ensures Settled(Process(m, e, xs, slow).0)
  {
    hide Outlook, AttenuationOk, Drain;
    ProcessKeepsAttenuation(m, e, xs, slow);
    DrainKeepsOutlook(m, e.(input := e.input + xs), slow);
  }

  ghost predicate Alike(c1: Core, c2: Core) {
    && c1 == c2.(overload := c1.overload, rnnoise := c1.rnnoise)
    && c1.rnnoise.Some? && c2.rnnoise.Some?
    && Outlook(c1.overload) == Outlook(c2.overload)
    && (UsesDeepFilter(c1) || c1.rnnoise == c2.rnnoise)
  }

  lemma ChunkAlike(m: Models, c1: Core, c2: Core, x: Frame, slow: bool)
    requires Alike(c1, c2)
    ensures Alike(ChunkStep(m, c1, x, slow).0, ChunkStep(m, c2, x, slow).0)
    ensures ChunkStep(m, c1, x, slow).1 == ChunkStep(m, c2, x, slow).1
  {
    hide Mixed, Scaled, Unscaled, Outlook, Step;
    OutlookSteps(c1.overload, c2.overload, slow);
  }

  lemma {:induction false} BatchAlike(m: Models, c1: Core, c2: Core, xs: seq<real>, slow: nat -> bool)
    requires Alike(c1, c2)
    ensures Batch(m, c1, xs, slow).1 == Batch(m, c2, xs, slow).1
    decreases |xs|
  {
    hide ChunkStep;
    if |xs| >= FRAME {
      ChunkAlike(m, c1, c2, xs[..FRAME], slow(c1.chunks));
      BatchAlike(m, ChunkStep(m, c1, xs[..FRAME], slow(c1.chunks)).0, ChunkStep(m, c2, xs[..FRAME], slow(c2.chunks)).0,
        xs[FRAME..], slow);
    }
  }

  /** With a dry mix of 1 the model is not heard at all. */
  ghost predicate Transparent(c: Core) {
    c.rnnoise.Some? && UsesDeepFilter(c) && DryMix(c) == 1.0
  }

  lemma AllDry(y: Frame, x: Frame)
    ensures Mixed(1.0, y, x) == x
  {
  }

  lemma ChunkTransparent(m: Models, c: Core, x: Frame, slow: bool)
    requires Transparent(c)
    ensures ChunkStep(m, c, x, slow).1 == x && Transparent(ChunkStep(m, c, x, slow).0)
  {
    hide Mixed;
    var d := c.deepfilter.value;
    AllDry(ZeroFrame(), x);
    match m.deepfilter(d.states, x, d.attenuation)
    case Some((states, y)) => AllDry(y, x);
    case None =>
  }

  lemma {:induction false} BatchTransparent(m: Models, c: Core, xs: seq<real>, slow: nat -> bool)
    requires Transparent(c)
    ensures Batch(m, c, xs, slow).1 == xs[..|xs| - |xs| % FRAME]
    decreases |xs|
  {
    hide ChunkStep;
    if |xs| >= FRAME {
      ChunkTransparent(m, c, xs[..FRAME], slow(c.chunks));
      var tail := xs[FRAME..];
      BatchTransparent(m, ChunkStep(m, c, xs[..FRAME], slow(c.chunks)).0, tail, slow);
      assert |tail| % FRAME == |xs| % FRAME;
      assert xs[..FRAME] + tail[..|tail| - |tail| % FRAME] == xs[..|xs| - |xs| % FRAME];
    }
  }

  // Cores that some denoiser, timing and input tell apart.

  function Flat(v: real): Frame {
    seq(FRAME, _ => v)
  }

  /** Denoisers that keep their states and answer loudly; RNNoise only in the states that `loud` picks. */
  function Telling(loud: seq<real> -> bool): Models {
    Models(
      (s: seq<real>, x: Frame) => (s, if loud(s) then Flat(32768.0) else Flat(0.0)),
      (s: seq<real>, x: Frame, a: real) => Some((s, Flat(1.0))))
  }

  /** What becomes of a silent sample. */
  function Sound(loud: seq<real> -> bool, c: Core): real
    requires c.rnnoise.Some?
  {
    if PassesThrough(c.overload) then 0.0
    else if UsesDeepFilter(c) then (if DryMix(c) > 0.0 then 1.0 - DryMix(c) else 1.0)
    else if loud(c.rnnoise.value) then 1.0
    else 0.0
  }

  lemma MixedFlat(dry: real, j: nat)
    requires j < FRAME
    ensures Mixed(dry, Flat(1.0), Flat(0.0))[j] == if dry > 0.0 then 1.0 - dry else 1.0
  {
  }

  lemma ChunkTells(loud: seq<real> -> bool, c: Core, slow: bool)
    requires c.rnnoise.Some?
    ensures var (c', y) := ChunkStep(Telling(loud), c, Flat(0.0), slow);
            && y[0] == Sound(loud, c)
            && c' == c.(overload := Step(c.overload, slow), chunks := c.chunks + 1)
  {
    hide Mixed, Step, Scaled;
    MixedFlat(DryMix(c), 0);
  }

  function OverloadAfter(o: Overload, slow: bool, k: nat): Overload
    decreases k
  {
    if k == 0 then o else OverloadAfter(Step(o, slow), slow, k - 1)
  }

  function Always(slow: bool): nat -> bool {
    (i: nat) => slow
  }

  lemma {:induction false} BatchTells(loud: seq<real> -> bool, c: Core, slow: bool, k: nat, frames: nat)
    requires c.rnnoise.Some? && k < frames
    ensures Batch(Telling(loud), c, Zeros(frames * FRAME), Always(slow)).1[k * FRAME] ==
            Sound(loud, c.(overload := OverloadAfter(c.overload, slow, k)))
    decreases k
  {
    hide ChunkStep, Step, Sound;
    var m, xs, tail := Telling(loud), Zeros(frames * FRAME), Zeros((frames - 1) * FRAME);
    assert xs == Flat(0.0) + tail;
    BatchUnfold(m, c, xs, Always(slow), Flat(0.0), tail);
    ChunkTells(loud, c, slow);
    var (c1, y) := ChunkStep(m, c, Flat(0.0), slow);
    if k > 0 {
      BatchTells(loud, c1, slow, k - 1, frames - 1);
      SoundIgnoresChunks(loud, c, c1.chunks, OverloadAfter(c.overload, slow, k));
    }
  }

  lemma SoundIgnoresChunks(loud: seq<real> -> bool, c: Core, chunks: nat, o: Overload)
    requires c.rnnoise.Some?
    ensures Sound(loud, c.(chunks := chunks, overload := o)) == Sound(loud, c.(overload := o))
  {
  }

  lemma {:induction false} CooldownPasses(o: Overload, slow: bool, k: nat)
    requires o.engaged && k <= o.cooldown
    ensures OverloadAfter(o, slow, k) == o.(cooldown := o.cooldown - k)
    decreases k
  {
    if k > 0 {
      CooldownPasses(Step(o, slow), slow, k - 1);
    }
  }

  lemma {:induction false} SlowCounts(o: Overload, k: nat)
    requires !PassesThrough(o) && Outlook(o).1 + k <= 5 && Outlook(o).1 < 5
    ensures PassesThrough(OverloadAfter(o, true, k)) <==> Outlook(o).1 + k == 5
    decreases k
  {
    if k > 0 {
      var next := Step(o, true);
      if Outlook(o).1 + 1 < 5 {
        SlowCounts(next, k - 1);
      } else {
        assert PassesThrough(next);
      }
    }
  }

  /** Counters with different outlooks pass different chunks through when everything is slow. */
  lemma OutlooksSeparate(o1: Overload, o2: Overload) returns (k: nat)
    requires Outlook(o1) != Outlook(o2) && Outlook(o1).1 < 5 && Outlook(o2).1 < 5
    ensures PassesThrough(OverloadAfter(o1, true, k)) != PassesThrough(OverloadAfter(o2, true, k))
  {
    if PassesThrough(o1) && PassesThrough(o2) {
      k := if o1.cooldown < o2.cooldown then o1.cooldown else o2.cooldown;
      CooldownPasses(o1, true, k);
      CooldownPasses(o2, true, k);
    } else if PassesThrough(o1) || PassesThrough(o2) {
      k := 0;
    } else {
      k := 5 - if Outlook(o1).1 < Outlook(o2).1 then Outlook(o2).1 else Outlook(o1).1;
      SlowCounts(o1, k);
      SlowCounts(o2, k);
    }
  }

  /** With fast inferences both counters stop passing chunks through when their cooldown is over. */
  lemma BothInfer(o1: Overload, o2: Overload) returns (k: nat)
    requires Outlook(o1) == Outlook(o2)
    ensures !PassesThrough(OverloadAfter(o1, false, k)) && !PassesThrough(OverloadAfter(o2, false, k))
  {
    k := if PassesThrough(o1) then o1.cooldown else 0;
    if k > 0 {
      CooldownPasses(o1, false, k);
      CooldownPasses(o2, false, k);
    }
  }

  ghost predicate SameRun(m: Models, e1: Engine, e2: Engine, calls: seq<seq<real>>, slow: nat -> bool)
    requires Ready(e1) && Ready(e2)
  {
    Run(m, e1, calls, slow).1 == Run(m, e2, calls, slow).1
  }

  /** Whatever the denoisers, the inputs and the timings: the answers are equal. */
  ghost predicate AlwaysAgree(e1: Engine, e2: Engine)
    requires Ready(e1) && Ready(e2)
  {
    forall m: Models, calls: seq<seq<real>>, slow: nat -> bool :: SameRun(m, e1, e2, calls, slow)
  }

  /** A chunk that sounds different gives the two engines away. */
  lemma Disagree(loud: seq<real> -> bool, e1: Engine, e2: Engine, slow: bool, k: nat)
    requires Fresh(e1) && Fresh(e2)
    requires Clamp(Sound(loud, e1.core.(overload := OverloadAfter(e1.core.overload, slow, k)))) !=
             Clamp(Sound(loud, e2.core.(overload := OverloadAfter(e2.core.overload, slow, k))))
    ensures !AlwaysAgree(e1, e2)
  {
    hide Run, Batch, Sound, OverloadAfter, Heard;
    var m, xs := Telling(loud), Zeros((k + 2) * FRAME);
    var calls := [xs];
    OneLongCall(m, e1, calls, xs, Always(slow));
    OneLongCall(m, e2, calls, xs, Always(slow));
    BatchTells(loud, e1.core, slow, k, k + 2);
    BatchTells(loud, e2.core, slow, k, k + 2);
    var out1, out2 := Batch(m, e1.core, xs, Always(slow)).1, Batch(m, e2.core, xs, Always(slow)).1;
    assert |out1| == |out2| == (k + 2) * FRAME;
    assert Clamped(out1)[k * FRAME] != Clamped(out2)[k * FRAME];
    assert !SameRun(m, e1, e2, calls, Always(slow));
  }

  /** The same settings, model and buffers; only RNNoise's state and the overload counters may differ. */
  ghost predicate SameButMemory(e1: Engine, e2: Engine) {
    && Fresh(e1) && Fresh(e2)
    && e1.core == e2.core.(rnnoise := e1.core.rnnoise, overload := e1.core.overload)
    && Outlook(e1.core.overload).1 < 5
    && Outlook(e2.core.overload).1 < 5
  }

  /** What must agree: the overload outlook, and RNNoise's state where RNNoise is used; with a model at dry mix 1, nothing. */
  ghost predicate MemoryAgrees(c1: Core, c2: Core) {
    if UsesDeepFilter(c1) then DryMix(c1) == 1.0 || Outlook(c1.overload) == Outlook(c2.overload)
    else Outlook(c1.overload) == Outlook(c2.overload) && c1.rnnoise == c2.rnnoise
  }

  lemma AgreeingMemory(e1: Engine, e2: Engine)
    requires SameButMemory(e1, e2) && MemoryAgrees(e1.core, e2.core)
    ensures AlwaysAgree(e1, e2)
  {
    hide Batch, Run;
    forall m: Models, calls: seq<seq<real>>, slow: nat -> bool
      ensures SameRun(m, e1, e2, calls, slow)
    {
      forall xs: seq<real>
        ensures Batch(m, e1.core, xs, slow).1 == Batch(m, e2.core, xs, slow).1
      {
        if Outlook(e1.core.overload) == Outlook(e2.core.overload) {
          BatchAlike(m, e1.core, e2.core, xs, slow);
        } else {
          BatchTransparent(m, e1.core, xs, slow);
          BatchTransparent(m, e2.core, xs, slow);
        }
      }
      SameAnswers(m, e1, e2, calls, slow);
    }
  }

  lemma DisagreeingMemory(e1: Engine, e2: Engine)
    requires SameButMemory(e1, e2) && !MemoryAgrees(e1.core, e2.core)
    ensures !AlwaysAgree(e1, e2)
  {
    hide Run, AlwaysAgree, OverloadAfter, Outlook;
    if Outlook(e1.core.overload) != Outlook(e2.core.overload) {
      var k := OutlooksSeparate(e1.core.overload, e2.core.overload);
      Disagree(_ => true, e1, e2, true, k);
    } else {
      var state := e1.core.rnnoise.value;
      var k := BothInfer(e1.core.overload, e2.core.overload);
      Disagree(s => s == state, e1, e2, false, k);
    }
  }

  /**
   Exactly what a change of mode fails to forget.  Two engines with equal
   settings and a loaded model that are switched to the same other mode give
   equal answers from then on, for all denoisers, inputs and timings, if and
   only if their overload counters have the same outlook and, for the mode that
   uses RNNoise, its state is the same; a dry mix of exactly 1 hides the rest.
   */
  lemma SetModeForgetsExactly(e1: Engine, e2: Engine, mode: Mode)
    requires Ready(e1) && Ready(e2) && SameSettings(e1, e2) && HasModel(e1) && Settled(e1) && Settled(e2)
    requires mode != e1.core.mode
    ensures Fresh(SetMode(e1, mode)) && Fresh(SetMode(e2, mode))
    ensures AlwaysAgree(SetMode(e1, mode), SetMode(e2, mode)) <==> MemoryAgrees(SetMode(e1, mode).core, SetMode(e2, mode).core)
    ensures UsesDeepFilter(SetMode(e1, mode).core) <==> mode != CpuSaver
    ensures SetMode(e1, mode).core.overload == e1.core.overload && SetMode(e1, mode).core.rnnoise == e1.core.rnnoise
  {
    hide AlwaysAgree, MemoryAgrees, Outlook;
    var f1, f2 := SetMode(e1, mode), SetMode(e2, mode);
    assert SameButMemory(f1, f2);
    if MemoryAgrees(f1.core, f2.core) {
      AgreeingMemory(f1, f2);
    } else {
      DisagreeingMemory(f1, f2);
    }
  }

  // The shortest history that gives it away.

  /** `init` on a new engine that finds a model, then one callback of 480 samples of silence, whose inference is slow or fast. */
  ghost function AfterOneChunk(m: Models, slow: bool): (e: Engine)
    ensures Ready(e)
  {
    Process(m, Init(NEWBORN, 2, true, true).0, Zeros(FRAME), Always(slow)).0
  }

  lemma OneChunkCounts(m: Models, slow: bool)
    ensures var e, f := Init(NEWBORN, 2, true, true).0, AfterOneChunk(m, slow);
            && Settled(f) && SameSettings(e, f) && HasModel(f)
            && f.core.overload == Step(CALM, slow) && f.core.dryMixOverride == -1.0
  {
    hide Drain, Batch, Prepared, AttenuationOk, Step;
    var e := Init(NEWBORN, 2, true, true).0;
    var d := e.(input := e.input + Zeros(FRAME));
    NewbornSettled();
    ControlsKeepSettled(NEWBORN, 2, true, true, Balanced, 0.0);
    InitLoads(NEWBORN);
    ProcessKeepsSettled(m, e, Zeros(FRAME), Always(slow));
    ProcessKeepsSettings(m, e, Zeros(FRAME), Always(slow));
    DrainIsBatch(m, d, Always(slow));
    BatchInStep(m, e.core, d.input, Always(slow));
    assert StateAt(Always(slow), 1) == Step(CALM, slow);
  }

  lemma InitLoads(e: Engine)
    requires e.core.deepfilter == None
    ensures HasModel(Init(e, 2, true, true).0)
  {
  }

  /**
   Two new engines, the same calls and the same silence; only one chunk before
   the change of mode was slow in one of them.  Afterwards some denoiser,
   input and timing make them answer differently.
   */
  lemma EarlierTimingIsHeard(m: Models)
    ensures var f1, f2 := SetMode(AfterOneChunk(m, true), MaxQuality), SetMode(AfterOneChunk(m, false), MaxQuality);
            Ready(f1) && Ready(f2) && !AlwaysAgree(f1, f2)
  {
    hide AfterOneChunk, AlwaysAgree, Settled;
    OneChunkCounts(m, true);
    OneChunkCounts(m, false);
    SetModeForgetsExactly(AfterOneChunk(m, true), AfterOneChunk(m, false), MaxQuality);
  }
}
