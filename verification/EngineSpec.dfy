/**
 The engine as a value: its fields, and what one chunk, one callback and each
 control call do to them.  `EngineClass` proves the in-place code against these
 functions.  The two denoisers are uninterpreted stateful functions on frames.
 */
module EngineSpec {
  import opened Arith
  import opened Samples
  import opened Scheduler
  import opened Wrappers

  const FRAME: nat := 480
  const PREFILL: nat := FRAME * 2

  type Frame = s: seq<real> | |s| == FRAME witness seq(FRAME, _ => 0.0)

  /** RNNoise maps its state and a frame to a new state and frame; DeepFilterNet also takes the attenuation limit and can fail. */
  datatype Models = Models(
    rnnoise: (seq<real>, Frame) -> (seq<real>, Frame),
    deepfilter: (seq<real>, Frame, real) -> Option<(seq<real>, Frame)>)

  datatype Mode = CpuSaver | Balanced | MaxQuality

  datatype Status = Stopped | Running | Error

  datatype DeepFilter = DeepFilter(loaded: bool, states: seq<real>, attenuation: real)

  /** All that decides what a chunk is turned into.  `chunks` counts chunks since the reset; it indexes the timing oracle. */
  datatype Core = Core(mode: Mode, dryMixOverride: real, rnnoise: Option<seq<real>>, deepfilter: Option<DeepFilter>,
                       overload: Overload, chunks: nat)

  datatype Engine = Engine(core: Core, status: Status, attenLimOverride: real, channels: nat,
                           input: seq<real>, output: seq<real>, readPos: nat, started: bool)

  /** An engine as constructed: no denoiser yet, stopped. */
  const NEWBORN := Engine(Core(Balanced, -1.0, None, None, CALM, 0), Stopped, -1.0, 2, [], [], 0, false)

  /** What one callback is answered with. */
  datatype Block = Audio(samples: seq<real>) | Silence(count: nat)
  {
    function Size(): nat { if Audio? then |samples| else count }
  }

  // One chunk.

  function DryMixForMode(mode: Mode): real {
    match mode
    case Balanced => 0.02
    case MaxQuality => 0.01
    case CpuSaver => 0.0
  }

  function DryMix(c: Core): real {
    if c.dryMixOverride >= 0.0 then c.dryMixOverride else DryMixForMode(c.mode)
  }

  function MixedSample(dry: real, wetSample: real, drySample: real): real {
    (1.0 - dry) * wetSample + dry * drySample
  }

  function Mixed(dry: real, wetFrame: Frame, dryFrame: Frame): Frame {
    if dry > 0.0 then seq(FRAME, j requires 0 <= j < FRAME => MixedSample(dry, wetFrame[j], dryFrame[j])) else wetFrame
  }

  function Scaled(x: Frame, factor: real): Frame {
    seq(FRAME, j requires 0 <= j < FRAME => x[j] * factor)
  }

  function Unscaled(x: Frame, factor: real): Frame
    requires factor != 0.0
  {
    seq(FRAME, j requires 0 <= j < FRAME => x[j] / factor)
  }

  function ZeroFrame(): Frame {
    Zeros(FRAME)
  }

  predicate UsesDeepFilter(c: Core) {
    c.mode != CpuSaver && c.deepfilter.Some? && c.deepfilter.value.loaded
  }

  /** The inference part: a failed DeepFilter run counts as a zero frame and keeps the recurrent state. */
  function Infer(m: Models, c: Core, x: Frame): (Core, Frame)
    requires c.rnnoise.Some?
  {
    if UsesDeepFilter(c) then
      var d := c.deepfilter.value;
      match m.deepfilter(d.states, x, d.attenuation)
      case Some((states, y)) => (c.(deepfilter := Some(d.(states := states))), Mixed(DryMix(c), y, x))
      case None => (c, Mixed(DryMix(c), ZeroFrame(), x))
    else
      var (state, y) := m.rnnoise(c.rnnoise.value, Scaled(x, 32768.0));
      (c.(rnnoise := Some(state)), Unscaled(y, 32768.0))
  }

  function ChunkStep(m: Models, c: Core, x: Frame, slow: bool): (r: (Core, Frame))
    requires c.rnnoise.Some?
    ensures r.0.rnnoise.Some? && r.0.chunks == c.chunks + 1
  {
    var (c', y) := if PassesThrough(c.overload) then (c, x) else Infer(m, c, x);
    (c'.(overload := Step(c.overload, slow), chunks := c.chunks + 1), y)
  }

  /** `process_mono_chunk`. */
  function MonoChunk(m: Models, e: Engine, slow: bool): (r: Engine)
    requires e.core.rnnoise.Some? && |e.input| >= FRAME
    ensures r.core.rnnoise.Some?
  {
    var (core, y) := ChunkStep(m, e.core, e.input[..FRAME], slow);
    e.(core := core, input := e.input[FRAME..], output := e.output + y)
  }

  function Drain(m: Models, e: Engine, slow: nat -> bool): (r: Engine)
    requires e.core.rnnoise.Some?
    ensures r.core.rnnoise.Some?
    decreases |e.input|
  {
    if |e.input| < FRAME then e else Drain(m, MonoChunk(m, e, slow(e.core.chunks)), slow)
  }

  // One callback.

  function Clamp(x: real): real {
    var low := if x < 1.0 then x else 1.0;
    if low > -1.0 then low else -1.0
  }

  function Clamped(xs: seq<real>): seq<real> {
    seq(|xs|, i requires 0 <= i < |xs| => Clamp(xs[i]))
  }

  /** Step 3 of `process_frame`: all of the callback or silence; what was read is dropped once it exceeds two frames. */
  function Emit(e: Engine, n: nat): (r: (Engine, Block))
    requires e.readPos <= |e.output|
    ensures r.1.Size() == n
    ensures r.0.readPos <= |r.0.output|
  {
    var available := |e.output| - e.readPos;
    var started := e.started || available >= PREFILL;
    if started && available >= n then
      var block := Audio(Clamped(e.output[e.readPos..e.readPos + n]));
      var pos := e.readPos + n;
      if pos > PREFILL then (e.(started := started, output := e.output[pos..], readPos := 0), block)
      else (e.(started := started, readPos := pos), block)
    else
      (e.(started := started), Silence(n))
  }

  /** `process_frame` on mono samples, for a running engine. */
  function Process(m: Models, e: Engine, xs: seq<real>, slow: nat -> bool): (r: (Engine, Block))
    requires Ready(e)
    ensures r.1.Size() == |xs|
    ensures Ready(r.0)
  {
    DrainShape(m, e.(input := e.input + xs), slow);
    Emit(Drain(m, e.(input := e.input + xs), slow), |xs|)
  }

  ghost predicate Ready(e: Engine) {
    && e.status == Running
    && e.core.rnnoise.Some?
    && e.channels > 0
    && |e.input| < FRAME
    && e.readPos <= |e.output|
  }

  lemma {:induction false} DrainShape(m: Models, e: Engine, slow: nat -> bool)
    requires e.core.rnnoise.Some?
    ensures var d := Drain(m, e, slow);
            && d == e.(core := d.core, input := d.input, output := d.output)
            && |d.input| < FRAME && e.output <= d.output
    decreases |e.input|
  {
    if |e.input| >= FRAME {
      DrainShape(m, MonoChunk(m, e, slow(e.core.chunks)), slow);
    }
  }

  /** Sum of the samples of one interleaved frame. */
  function Sum(xs: seq<real>): real {
    if xs == [] then 0.0 else Sum(xs[..|xs| - 1]) + xs[|xs| - 1]
  }

  /** Interleaved input to mono, by averaging the channels. */
  function Mono(xs: seq<real>, channels: nat, n: nat): (r: seq<real>)
    requires channels > 0 && |xs| == n * channels
    ensures |r| == n
  {
    seq(n, i requires 0 <= i < n =>
      FrameFits(i, n, channels); Sum(xs[i * channels..i * channels + channels]) / channels as real)
  }

  lemma FrameFits(i: nat, n: nat, channels: nat)
    requires i < n
    ensures 0 <= i * channels && i * channels + channels <= n * channels
  {
    assert n * channels == i * channels + channels + (n - i - 1) * channels;
  }

  /** A sample repeated on every channel. */
  function Interleaved(xs: seq<real>, channels: nat): (r: seq<real>)
    requires channels > 0
    ensures |r| == |xs| * channels
  {
    seq(|xs| * channels, k requires 0 <= k < |xs| * channels => FrameOf(k, |xs|, channels); xs[k / channels])
  }

  lemma FrameOf(k: nat, n: nat, channels: nat)
    requires channels > 0 && k < n * channels
    ensures k / channels < n
  {
    ModOf(k, channels);
    MulSign(k / channels - n, channels);
  }

  /** Every channel of an output frame carries the same sample. */
  lemma EveryChannelAlike(xs: seq<real>, channels: nat, i: nat, ch: nat)
    requires i < |xs| && ch < channels
    ensures i * channels + ch < |xs| * channels
    ensures Interleaved(xs, channels)[i * channels + ch] == xs[i]
  {
    FrameFits(i, |xs|, channels);
    ModUnique(i * channels + ch, i, ch, channels);
  }

  /** The samples of output frame `i`, which starts at `pos`. */
  lemma WholeFrameAlike(xs: seq<real>, channels: nat, i: nat, pos: nat)
    requires channels > 0 && i < |xs| && pos == i * channels
    ensures pos + channels == (i + 1) * channels <= |xs| * channels
    ensures forall k :: pos <= k < pos + channels ==> Interleaved(xs, channels)[k] == xs[i]
  {
    hide Interleaved;
    FrameFits(i, |xs|, channels);
    forall k | pos <= k < pos + channels
      ensures Interleaved(xs, channels)[k] == xs[i]
    {
      EveryChannelAlike(xs, channels, i, k - pos);
    }
  }

  function Rendered(b: Block, channels: nat): (r: seq<real>)
    requires channels > 0
    ensures |r| == b.Size() * channels
  {
    match b
    case Audio(samples) => Interleaved(samples, channels)
    case Silence(count) => Zeros(count * channels)
  }

  // Control calls.

  /** RNNoise and DeepFilterNet start from these recurrent states. */
  const RNNOISE_FRESH: seq<real> := []

  function ZeroStates(): seq<real> { Zeros(45304) }

  function Attenuation(e: Engine): real {
    if e.attenLimOverride >= 0.0 then e.attenLimOverride else 0.0
  }

  /** A loaded model with its attenuation limit set; without a loaded model nothing happens. */
  function Limited(d: Option<DeepFilter>, attenuation: real): Option<DeepFilter> {
    if d.Some? && d.value.loaded then Some(d.value.(attenuation := attenuation)) else d
  }

  /** `reset_state`: recurrent state back to zero. */
  function Rezeroed(d: Option<DeepFilter>): Option<DeepFilter> {
    if d.Some? then Some(d.value.(states := ZeroStates())) else d
  }

  /** What `init` makes of the model: reset if loaded, else a new instance for which a model is searched. */
  function Prepared(d: Option<DeepFilter>, attenuation: real, loads: bool): Option<DeepFilter> {
    if d.Some? && d.value.loaded then Rezeroed(d)
    else Limited(Some(DeepFilter(loads, ZeroStates(), 0.0)), attenuation)
  }

  /** `init`; `rnnoiseOk` says whether RNNoise could be created, `loads` whether a model search would succeed. */
  function Init(e: Engine, channels: nat, rnnoiseOk: bool, loads: bool): (Engine, bool) {
    if !rnnoiseOk then (e.(core := e.core.(rnnoise := None), channels := channels, status := Error), false)
    else
      var d := Prepared(e.core.deepfilter, Attenuation(e), loads);
      (Engine(Core(e.core.mode, e.core.dryMixOverride, Some(RNNOISE_FRESH), d, CALM, 0), Running, e.attenLimOverride, channels,
              [], [], 0, false),
       true)
  }

  function Shutdown(e: Engine): Engine {
    Engine(Core(e.core.mode, e.core.dryMixOverride, None, Rezeroed(e.core.deepfilter), CALM, 0), Stopped, e.attenLimOverride, e.channels,
           [], [], 0, false)
  }

  /** A new mode clears the buffers and the model's state, but neither RNNoise's state nor the overload counters. */
  function SetMode(e: Engine, mode: Mode): Engine {
    if e.core.mode == mode then e
    else
      var d := Limited(Rezeroed(e.core.deepfilter), Attenuation(e));
      Engine(Core(mode, e.core.dryMixOverride, e.core.rnnoise, d, e.core.overload, 0), e.status, e.attenLimOverride, e.channels,
             [], [], 0, false)
  }

  function SetDryMix(e: Engine, mix: real): Engine {
    e.(core := e.core.(dryMixOverride := mix))
  }

  function SetAttenuationLimit(e: Engine, db: real): Engine {
    var e1 := e.(attenLimOverride := db);
    e1.(core := e.core.(deepfilter := Limited(e.core.deepfilter, Attenuation(e1))))
  }

  /** `load_deepfilter_model(path)` for a path that names a file; `loads` says whether loading it succeeds. */
  function LoadModel(e: Engine, loads: bool): Engine {
    var d := if e.core.deepfilter.Some? then e.core.deepfilter.value else DeepFilter(false, ZeroStates(), 0.0);
    var d' := if loads then Limited(Some(d.(loaded := true, states := ZeroStates())), Attenuation(e)) else Some(d.(loaded := false));
    e.(core := e.core.(deepfilter := d'))
  }
}
