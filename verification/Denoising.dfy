/**
 What the audio is, sample by sample, told by the two denoisers alone: their
 recurrent states folded over the chunks they were given, the dry share mixed
 in, chunks that the overload schedule passes through left out of the fold.
 */
module Denoising {
  import opened EngineSpec
  import opened EngineTheorems
  import opened Samples
  import opened Scheduler
  import opened Wrappers

  // The schedule from any counters on.

  function OverloadAt(o: Overload, slow: nat -> bool, k: nat): Overload
    decreases k
  {
    if k == 0 then o else Step(OverloadAt(o, slow, k - 1), slow(k - 1))
  }

  function PassedFrom(o: Overload, slow: nat -> bool): nat -> bool {
    (k: nat) => PassesThrough(OverloadAt(o, slow, k))
  }

  /** From `init` on this is the schedule that `Scheduler` characterises. */
  lemma {:induction false} PassedFromCalm(slow: nat -> bool, k: nat)
    ensures OverloadAt(CALM, slow, k) == StateAt(slow, k)
    ensures PassedFrom(CALM, slow)(k) == Passes(slow, k)
  {
    if k > 0 {
      PassedFromCalm(slow, k - 1);
    }
  }

  // The reference.

  /** RNNoise works on samples in the range of 16-bit integers. */
  function Amplified(x: Frame): Frame {
    seq(FRAME, j requires 0 <= j < FRAME => 32768.0 * x[j])
  }

  /** RNNoise's state before chunk `k`. */
  function RnnoiseAfter(m: Models, start: seq<real>, xs: seq<real>, pass: nat -> bool, k: nat): seq<real>
    requires k <= |xs| / FRAME
    decreases k
  {
    if k == 0 then start
    else
      var before := RnnoiseAfter(m, start, xs, pass, k - 1);
      if pass(k - 1) then before else m.rnnoise(before, Amplified(ChunkOf(xs, k - 1))).0
  }

  /** The model's state before chunk `k`; a run that fails leaves it alone. */
  function ModelAfter(m: Models, start: seq<real>, limit: real, xs: seq<real>, pass: nat -> bool, k: nat): seq<real>
    requires k <= |xs| / FRAME
    decreases k
  {
    if k == 0 then start
    else
      var before := ModelAfter(m, start, limit, xs, pass, k - 1);
      if pass(k - 1) then before
      else
        match m.deepfilter(before, ChunkOf(xs, k - 1), limit)
        case Some((after, _)) => after
        case None => before
  }

  /** What the model answers; a run that fails answers silence. */
  function Wet(m: Models, state: seq<real>, x: Frame, limit: real): Frame {
    match m.deepfilter(state, x, limit)
    case Some((_, y)) => y
    case None => Zeros(FRAME)
  }

  predicate ModelRuns(c: Core) {
    (c.mode == Balanced || c.mode == MaxQuality) && c.deepfilter.Some? && c.deepfilter.value.loaded
  }

  /** The share of the original: the override if there is one, else 2% or 1%. */
  function DryShare(c: Core): real {
    if c.dryMixOverride >= 0.0 then c.dryMixOverride else if c.mode == Balanced then 0.02 else 0.01
  }

  /** Sample `j` of chunk `k` as it should come out of an engine that was reset with core `c` and then given `xs`. */
  function Intended(m: Models, c: Core, xs: seq<real>, slow: nat -> bool, k: nat, j: nat): real
    requires c.rnnoise.Some? && k < |xs| / FRAME && j < FRAME
  {
    var pass, x := PassedFrom(c.overload, slow), ChunkOf(xs, k);
    if pass(k) then x[j]
    else if ModelRuns(c) then
      var d := c.deepfilter.value;
      var wet := Wet(m, ModelAfter(m, d.states, d.attenuation, xs, pass, k), x, d.attenuation);
      (1.0 - DryShare(c)) * wet[j] + DryShare(c) * x[j]
    else
      m.rnnoise(RnnoiseAfter(m, c.rnnoise.value, xs, pass, k), Amplified(x)).1[j] / 32768.0
  }

  // One chunk.

  lemma ScaledIsAmplified(x: Frame)
    ensures Scaled(x, 32768.0) == Amplified(x)
  {
  }

  lemma MixedIsShared(dry: real, wet: Frame, x: Frame, j: nat)
    requires j < FRAME && dry >= 0.0
    ensures Mixed(dry, wet, x)[j] == (1.0 - dry) * wet[j] + dry * x[j]
  {
  }

  lemma RunsAsUsed(c: Core)
    ensures UsesDeepFilter(c) == ModelRuns(c)
    ensures ModelRuns(c) ==> DryMix(c) == DryShare(c) && DryShare(c) >= 0.0
  {
  }

  /** One inference: state and answer of the denoiser that runs, nothing else touched. */
  lemma InferOne(m: Models, c: Core, x: Frame, j: nat)
    requires c.rnnoise.Some? && j < FRAME
    ensures var (after, y) := Infer(m, c, x);
            if ModelRuns(c) then
              var d := c.deepfilter.value;
              && after == c.(deepfilter := Some(d.(states :=
                   match m.deepfilter(d.states, x, d.attenuation) case Some((t, _)) => t case None => d.states)))
              && y[j] == (1.0 - DryShare(c)) * Wet(m, d.states, x, d.attenuation)[j] + DryShare(c) * x[j]
            else
              && after == c.(rnnoise := Some(m.rnnoise(c.rnnoise.value, Amplified(x)).0))
              && y[j] == m.rnnoise(c.rnnoise.value, Amplified(x)).1[j] / 32768.0
  {
    hide Mixed, Scaled, Amplified, DryMix, DryShare;
    RunsAsUsed(c);
    ScaledIsAmplified(x);
    if ModelRuns(c) {
      var d := c.deepfilter.value;
      MixedIsShared(DryShare(c), Wet(m, d.states, x, d.attenuation), x, j);
    }
  }

  // Chunk after chunk.

  lemma CoreNext(m: Models, c: Core, xs: seq<real>, slow: nat -> bool, k: nat)
    requires c.rnnoise.Some? && k < |xs| / FRAME
    ensures var now := CoreBefore(m, c, xs, slow, k);
            CoreBefore(m, c, xs, slow, k + 1) == ChunkStep(m, now, ChunkOf(xs, k), slow(now.chunks)).0
  {
    hide ChunkStep, Batch;
    var before, chunk := xs[..k * FRAME], ChunkOf(xs, k);
    assert before + chunk == xs[..(k + 1) * FRAME];
    var (now, out) := Batch(m, c, before, slow);
    assert |out| == |before| && before[|out|..] + chunk == chunk;
    BatchInTwo(m, c, before, chunk, slow);
    OneChunkBatch(m, now, chunk, slow);
  }

  lemma OneChunkBatch(m: Models, c: Core, x: Frame, slow: nat -> bool)
    requires c.rnnoise.Some?
    ensures Batch(m, c, x, slow).0 == ChunkStep(m, c, x, slow(c.chunks)).0
  {
    hide ChunkStep;
    assert x[..FRAME] == x && x[FRAME..] == [];
  }

  /** The core before chunk `k`, in terms of the folds. */
  function CoreAt(m: Models, c: Core, xs: seq<real>, slow: nat -> bool, k: nat): Core
    requires c.rnnoise.Some? && k <= |xs| / FRAME
  {
    var pass := PassedFrom(c.overload, slow);
    var there := c.(overload := OverloadAt(c.overload, slow, k), chunks := k);
    if ModelRuns(c) then
      var d := c.deepfilter.value;
      there.(deepfilter := Some(d.(states := ModelAfter(m, d.states, d.attenuation, xs, pass, k))))
    else
      there.(rnnoise := Some(RnnoiseAfter(m, c.rnnoise.value, xs, pass, k)))
  }

  lemma CoreAtNext(m: Models, c: Core, xs: seq<real>, slow: nat -> bool, k: nat)
    requires c.rnnoise.Some? && k < |xs| / FRAME
    ensures CoreAt(m, c, xs, slow, k + 1) == ChunkStep(m, CoreAt(m, c, xs, slow, k), ChunkOf(xs, k), slow(k)).0
  {
    hide Infer, Step, Amplified;
    InferOne(m, CoreAt(m, c, xs, slow, k), ChunkOf(xs, k), 0);
  }

  lemma {:induction false} CoreFollowsFolds(m: Models, c: Core, xs: seq<real>, slow: nat -> bool, k: nat)
    requires c.rnnoise.Some? && c.chunks == 0 && k <= |xs| / FRAME
    ensures CoreBefore(m, c, xs, slow, k) == CoreAt(m, c, xs, slow, k)
    decreases k
  {
    hide ChunkStep, CoreBefore, CoreAt;
    if k == 0 {
      NothingBefore(m, c, xs, slow);
    } else {
      CoreFollowsFolds(m, c, xs, slow, k - 1);
      CoreNext(m, c, xs, slow, k - 1);
      CoreAtNext(m, c, xs, slow, k - 1);
      AtChunk(m, c, xs, slow, k - 1);
    }
  }

  lemma NothingBefore(m: Models, c: Core, xs: seq<real>, slow: nat -> bool)
    requires c.rnnoise.Some? && c.chunks == 0
    ensures CoreBefore(m, c, xs, slow, 0) == CoreAt(m, c, xs, slow, 0)
  {
    assert xs[..0] == [];
  }

  lemma AtChunk(m: Models, c: Core, xs: seq<real>, slow: nat -> bool, k: nat)
    requires c.rnnoise.Some? && k <= |xs| / FRAME
    ensures CoreAt(m, c, xs, slow, k).chunks == k && CoreAt(m, c, xs, slow, k).rnnoise.Some?
  {
  }

  lemma ChunkIsIntended(m: Models, c: Core, xs: seq<real>, slow: nat -> bool, k: nat, j: nat)
    requires c.rnnoise.Some? && k < |xs| / FRAME && j < FRAME
    ensures ChunkStep(m, CoreAt(m, c, xs, slow, k), ChunkOf(xs, k), slow(k)).1[j] == Intended(m, c, xs, slow, k, j)
  {
    hide Infer, Step, Amplified, Wet, ModelAfter, RnnoiseAfter, OverloadAt, ChunkOf;
    InferOne(m, CoreAt(m, c, xs, slow, k), ChunkOf(xs, k), j);
  }

  /** Every sample of the batch transform is the intended one. */
  lemma BatchIsIntended(m: Models, c: Core, xs: seq<real>, slow: nat -> bool, k: nat, j: nat)
    requires c.rnnoise.Some? && c.chunks == 0 && k < |xs| / FRAME && j < FRAME
    ensures k * FRAME + j < |Batch(m, c, xs, slow).1|
    ensures Batch(m, c, xs, slow).1[k * FRAME + j] == Intended(m, c, xs, slow, k, j)
  {
    hide ChunkStep, Batch, CoreBefore, CoreAt, Intended;
    CoreFollowsFolds(m, c, xs, slow, k);
    AtChunk(m, c, xs, slow, k);
    ChunkOfBatch(m, c, xs, slow, k);
    ChunkIsIntended(m, c, xs, slow, k, j);
    assert ChunkOf(Batch(m, c, xs, slow).1, k)[j] == Batch(m, c, xs, slow).1[k * FRAME + j];
  }

  // Runs.

  /** `h` is `y`, or the nearer bound where `y` lies outside -1 .. 1. */
  ghost predicate Bounded(h: real, y: real) {
    && -1.0 <= h <= 1.0
    && (-1.0 <= y <= 1.0 ==> h == y)
    && (y > 1.0 ==> h == 1.0)
    && (y < -1.0 ==> h == -1.0)
  }

  lemma ClampBounds(y: real)
    ensures Bounded(Clamp(y), y)
  {
  }

  /** Clipping, and only clipping, lies between the batch transform and what a run gives out. */
  lemma HeardIsBounded(m: Models, e0: Engine, calls: seq<seq<real>>, slow: nat -> bool, i: nat)
    requires Fresh(e0) && i < |Heard(Run(m, e0, calls, slow).1)|
    ensures i < |Batch(m, e0.core, Joined(calls), slow).1|
    ensures Bounded(Heard(Run(m, e0, calls, slow).1)[i], Batch(m, e0.core, Joined(calls), slow).1[i])
  {
    hide Batch, Run, Heard, Joined, Clamp;
    AudioIsPrefixOfBatch(m, e0, calls, slow);
    ClampBounds(Batch(m, e0.core, Joined(calls), slow).1[i]);
  }

  /**
   Every sample that any run of callbacks gives out after a reset, whatever the
   callback sizes: the intended one, clipped to -1 .. 1.
   */
  lemma HeardIsIntended(m: Models, e0: Engine, calls: seq<seq<real>>, slow: nat -> bool, i: nat)
    requires Fresh(e0) && e0.core.chunks == 0 && i < |Heard(Run(m, e0, calls, slow).1)|
    ensures i / 480 < |Joined(calls)| / FRAME
    ensures Bounded(Heard(Run(m, e0, calls, slow).1)[i], Intended(m, e0.core, Joined(calls), slow, i / 480, i % 480))
  {
    hide Batch, Run, Heard, Joined, Intended, Bounded;
    HeardIsBounded(m, e0, calls, slow, i);
    BatchIsIntended(m, e0.core, Joined(calls), slow, i / 480, i % 480);
  }
}
