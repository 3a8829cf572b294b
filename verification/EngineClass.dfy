/** The engine's code: fields updated in place, loops over samples, proved against `EngineSpec`. */
module EngineClass {
  import opened Scheduler
  import opened EngineSpec
  import opened Samples
  import opened Wrappers

  class NoiseEngine {
    const models: Models
    var mode: Mode
    var status: Status
    var dryMixOverride: real
    var attenLimOverride: real
    var channels: nat
    var rnnoiseState: Option<seq<real>>
    var deepfilter: Option<DeepFilter>
    var inputBuffer: seq<real>
    var outputBuffer: seq<real>
    var outputReadPos: nat
    var outputStarted: bool
    var overload: Overload
    var chunkCount: nat

    function State(): Engine
      reads this
    {
      Engine(
        Core(mode, dryMixOverride, rnnoiseState, deepfilter, overload, chunkCount),
        status, attenLimOverride, channels, inputBuffer, outputBuffer, outputReadPos, outputStarted)
    }

    ghost predicate Valid()
      reads this
    {
      && |inputBuffer| < FRAME
      && outputReadPos <= |outputBuffer|
      && (status == Running ==> rnnoiseState.Some?)
    }

    constructor (models: Models)
      ensures Valid() && this.models == models && State() == NEWBORN
    {
      this.models := models;
      mode, status := Balanced, Stopped;
      dryMixOverride, attenLimOverride := -1.0, -1.0;
      channels, rnnoiseState, deepfilter := 2, None, None;
      inputBuffer, outputBuffer, outputReadPos, outputStarted := [], [], 0, false;
      overload, chunkCount := CALM, 0;
    }

    static method Mix(dry: real, wetFrame: Frame, dryFrame: Frame) returns (y: Frame)
      requires dry > 0.0
      ensures y == Mixed(dry, wetFrame, dryFrame)
    {
      var mixed: seq<real> := [];
      var target: Frame := Mixed(dry, wetFrame, dryFrame);
      for j := 0 to FRAME
        invariant mixed == target[..j]
      {
        mixed := mixed + [MixedSample(dry, wetFrame[j], dryFrame[j])];
      }
      assert target[..FRAME] == target;
      y := mixed;
    }

    /** Denoises one frame with whichever denoiser the mode selects. */
    method Denoise(x: Frame) returns (y: Frame)
      requires rnnoiseState.Some?
      modifies this`rnnoiseState, this`deepfilter
      ensures var (core, frame) := Infer(models, old(State()).core, x);
              y == frame && State() == old(State()).(core := core)
    {
      if mode != CpuSaver && deepfilter.Some? && deepfilter.value.loaded {
        var d := deepfilter.value;
        var result := models.deepfilter(d.states, x, d.attenuation);
        var wetFrame := ZeroFrame();
        if result.Some? {
          deepfilter := Some(d.(states := result.value.0));
          wetFrame := result.value.1;
        }
        var dry := if dryMixOverride >= 0.0 then dryMixOverride else DryMixForMode(mode);
        y := wetFrame;
        if dry > 0.0 {
          y := Mix(dry, wetFrame, x);
        }
      } else {
        var scaled: seq<real> := [];
        for j := 0 to FRAME
          invariant |scaled| == j && forall i :: 0 <= i < j ==> scaled[i] == x[i] * 32768.0
        {
          scaled := scaled + [x[j] * 32768.0];
        }
        var rnnInput: Frame := scaled;
        assert rnnInput == Scaled(x, 32768.0);
        var result := models.rnnoise(rnnoiseState.value, rnnInput);
        rnnoiseState := Some(result.0);
        var out: seq<real> := [];
        for j := 0 to FRAME
          invariant |out| == j && forall i :: 0 <= i < j ==> out[i] == result.1[i] / 32768.0
        {
          out := out + [result.1[j] / 32768.0];
        }
        y := out;
        assert y == Unscaled(result.1, 32768.0);
      }
    }

    /** Appends a processed frame, sample by sample. */
    method Push(y: Frame)
      modifies this`outputBuffer
      ensures outputBuffer == old(outputBuffer) + y
    {
      for j := 0 to FRAME
        invariant outputBuffer == old(outputBuffer) + y[..j]
      {
        outputBuffer := outputBuffer + [y[j]];
      }
      assert y[..FRAME] == y;
    }

    /** The overload counters after an inference, fast or slow. */
    method CountInference(slow: bool)
      requires !overload.engaged
      modifies this`overload
      ensures overload == Step(old(overload), slow)
    {
      if slow {
        overload := overload.(count := overload.count + 1);
        if overload.count >= TRIGGER {
          overload := overload.(engaged := true, cooldown := COOLDOWN);
        }
      } else {
        overload := overload.(count := 0);
      }
    }

    /** The branch of an overloaded engine that is still cooling down. */
    method PassThrough(frame: Frame)
      requires PassesThrough(overload)
      modifies this`overload, this`outputBuffer
      ensures outputBuffer == old(outputBuffer) + frame && overload == old(overload).(cooldown := old(overload).cooldown - 1)
    {
      overload := overload.(cooldown := overload.cooldown - 1);
      Push(frame);
    }

    /** The branch that runs and times an inference. */
    method InferAndTime(frame: Frame, slow: bool)
      requires rnnoiseState.Some? && !PassesThrough(overload)
      modifies this`rnnoiseState, this`deepfilter, this`outputBuffer, this`overload
      ensures outputBuffer == old(outputBuffer) + Infer(models, old(State()).core, frame).1
      ensures (rnnoiseState, deepfilter) ==
        var core := Infer(models, old(State()).core, frame).0; (core.rnnoise, core.deepfilter)
      ensures overload == Step(old(overload), slow)
    {
      var y := Denoise(frame);
      if overload.engaged {
        overload := overload.(engaged := false, count := 0);
      }
      Push(y);
      CountInference(slow);
    }

    /** `process_mono_chunk`; `slow` is the verdict of the timer around the inference. */
    method ProcessMonoChunk(slow: bool)
      requires rnnoiseState.Some? && |inputBuffer| >= FRAME
      modifies this
      ensures State() == MonoChunk(models, old(State()), slow)
    {
      var frame: Frame := inputBuffer[..FRAME];
      ghost var c := State().core;
      if overload.engaged && overload.cooldown > 0 {
        PassThrough(frame);
      } else {
        InferAndTime(frame, slow);
      }
      inputBuffer := inputBuffer[FRAME..];
      chunkCount := chunkCount + 1;
      assert (State().core, outputBuffer) == (ChunkStep(models, c, frame, slow).0, old(outputBuffer) + ChunkStep(models, c, frame, slow).1);
    }

    /** Step 1 of `process_frame`: average the channels and append. */
    method TakeIn(input: seq<real>, numFrames: nat)
      requires channels > 0 && |input| == numFrames * channels
      modifies this`inputBuffer
      ensures State() == old(State()).(input := old(inputBuffer) + Mono(input, channels, numFrames))
    {
      for i := 0 to numFrames
        invariant inputBuffer == old(inputBuffer) + Mono(input, channels, numFrames)[..i]
      {
        FrameFits(i, numFrames, channels);
        var frame := input[i * channels..i * channels + channels];
        var monoSample := 0.0;
        for ch := 0 to channels
          invariant monoSample == Sum(frame[..ch])
        {
          assert frame[..ch + 1][..ch] == frame[..ch];
          monoSample := monoSample + input[i * channels + ch];
        }
        assert frame[..channels] == frame;
        inputBuffer := inputBuffer + [monoSample / channels as real];
      }
    }

    /** Step 2: every complete frame goes through the denoiser. */
    method ProcessCompleteFrames(slow: nat -> bool)
      requires rnnoiseState.Some?
      modifies this
      ensures State() == Drain(models, old(State()), slow)
    {
      while |inputBuffer| >= FRAME
        invariant rnnoiseState.Some?
        invariant Drain(models, State(), slow) == Drain(models, old(State()), slow)
        decreases |inputBuffer|
      {
        ProcessMonoChunk(slow(chunkCount));
      }
    }

    /** Step 3: audio on all channels if all of it is there, else silence. */
    method GiveOut(output: array<real>, numFrames: nat)
      requires channels > 0 && outputReadPos <= |outputBuffer| && numFrames * channels <= output.Length
      modifies this, output
      ensures var (e, block) := Emit(old(State()), numFrames);
              && State() == e
              && output[..numFrames * channels] == Rendered(block, channels)
              && output[numFrames * channels..] == old(output[numFrames * channels..])
    {
      var available := |outputBuffer| - outputReadPos;
      if !outputStarted {
        if available >= PREFILL {
          outputStarted := true;
        }
      }
      if outputStarted && available >= numFrames {
        CopyOut(output, numFrames);
        outputReadPos := outputReadPos + numFrames;
        if outputReadPos > FRAME * 2 {
          outputBuffer := outputBuffer[outputReadPos..];
          outputReadPos := 0;
        }
      } else {
        ClearOutput(output, numFrames * channels);
      }
    }

    static method ClearOutput(output: array<real>, n: nat)
      requires n <= output.Length
      modifies output
      ensures output[..n] == Zeros(n) && output[n..] == old(output[n..])
    {
      for k := 0 to n
        invariant forall j :: 0 <= j < k ==> output[j] == 0.0
        invariant output[n..] == old(output[n..])
      {
        output[k] := 0.0;
      }
    }

    static method FillFrame(output: array<real>, start: nat, n: nat, sample: real)
      requires start + n <= output.Length
      modifies output
      ensures forall k :: 0 <= k < output.Length ==> output[k] == if start <= k < start + n then sample else old(output[k])
    {
      for ch := 0 to n
        invariant forall k :: 0 <= k < output.Length ==> output[k] == if start <= k < start + ch then sample else old(output[k])
      {
        output[start + ch] := sample;
      }
    }

    method CopyOut(output: array<real>, numFrames: nat)
      requires channels > 0 && outputReadPos + numFrames <= |outputBuffer| && numFrames * channels <= output.Length
      modifies output
      ensures output[..numFrames * channels] ==
              Interleaved(Clamped(outputBuffer[outputReadPos..outputReadPos + numFrames]), channels)
      ensures output[numFrames * channels..] == old(output[numFrames * channels..])
    {
      ghost var xs := Clamped(outputBuffer[outputReadPos..outputReadPos + numFrames]);
      assert |xs| == numFrames && forall i :: 0 <= i < numFrames ==> xs[i] == Clamp(outputBuffer[outputReadPos + i]);
      ghost var want := Interleaved(xs, channels);
      ghost var was := output[..];
      hide Interleaved, Clamped;
      var pos := 0;
      for i := 0 to numFrames
        invariant pos == i * channels <= |want| == numFrames * channels
        invariant forall k :: 0 <= k < output.Length ==> output[k] == if k < pos then want[k] else was[k]
      {
        WholeFrameAlike(xs, channels, i, pos);
        FillFrame(output, pos, channels, Clamp(outputBuffer[outputReadPos + i]));
        pos := pos + channels;
      }
    }

    /**
     `process_frame`.  A running engine always has RNNoise, so the branch for an
     engine without any denoiser is dead.
     */
    method ProcessFrame(input: seq<real>, output: array<real>, numFrames: nat, slow: nat -> bool) returns (ok: bool)
      requires Valid() && (status == Running ==> channels > 0 && |input| == numFrames * channels <= output.Length)
      modifies this, output
      ensures Valid() && channels == old(channels)
      ensures ok == (old(status) == Running)
      ensures !ok ==> State() == old(State()) && output[..] == old(output[..])
      ensures ok ==>
        var (e, block) := Process(models, old(State()), Mono(input, channels, numFrames), slow);
        && State() == e
        && output[..numFrames * channels] == Rendered(block, channels)
        && output[numFrames * channels..] == old(output[numFrames * channels..])
    {
      if status != Running {
        return false;
      }
      if rnnoiseState.None? {
        assert false;
      }
      TakeIn(input, numFrames);
      DrainShape(models, State(), slow);
      ProcessCompleteFrames(slow);
      GiveOut(output, numFrames);
      ok := true;
    }

    // Control calls.

    method PrepareModel(loads: bool)
      modifies this`deepfilter
      ensures deepfilter == Prepared(old(deepfilter), Attenuation(old(State())), loads)
    {
      if deepfilter.None? || !deepfilter.value.loaded {
        deepfilter := Some(DeepFilter(loads, ZeroStates(), 0.0));
        deepfilter := Limited(deepfilter, Attenuation(State()));
      } else {
        deepfilter := Rezeroed(deepfilter);
      }
    }

    /** Buffers, cursor and overload counters as after construction. */
    method ClearBuffers()
      modifies this`inputBuffer, this`outputBuffer, this`outputReadPos, this`outputStarted, this`overload, this`chunkCount
      ensures inputBuffer == [] && outputBuffer == [] && outputReadPos == 0 && !outputStarted && overload == CALM && chunkCount == 0
    {
      inputBuffer, outputBuffer := [], [];
      outputReadPos, outputStarted, chunkCount := 0, false, 0;
      overload := CALM;
    }

    /** The part of `init` after RNNoise was created. */
    method StartRunning(loads: bool)
      requires rnnoiseState == Some(RNNOISE_FRESH)
      modifies this
      ensures Valid()
      ensures State() == EngineSpec.Init(old(State()), old(channels), true, loads).0
    {
      hide Prepared;
      PrepareModel(loads);
      ClearBuffers();
      status := Running;
    }

    method Init(format: nat, rnnoiseOk: bool, loads: bool) returns (ok: bool)
      requires Valid()
      modifies this
      ensures Valid()
      ensures (State(), ok) == EngineSpec.Init(old(State()), format, rnnoiseOk, loads)
    {
      hide Prepared;
      rnnoiseState := None;
      channels := format;
      if !rnnoiseOk {
        status := Error;
        return false;
      }
      rnnoiseState := Some(RNNOISE_FRESH);
      StartRunning(loads);
      ok := true;
    }

    method Shutdown()
      requires Valid()
      modifies this
      ensures Valid()
      ensures State() == EngineSpec.Shutdown(old(State()))
    {
      hide Rezeroed;
      rnnoiseState := None;
      deepfilter := Rezeroed(deepfilter);
      ClearBuffers();
      status := Stopped;
    }

    method SetMode(newMode: Mode)
      requires Valid()
      modifies this
      ensures Valid()
      ensures State() == EngineSpec.SetMode(old(State()), newMode) && mode == newMode
    {
      if mode != newMode {
        mode := newMode;
        inputBuffer, outputBuffer := [], [];
        outputReadPos, outputStarted, chunkCount := 0, false, 0;
        deepfilter := Rezeroed(deepfilter);
        deepfilter := Limited(deepfilter, Attenuation(State()));
      }
    }

    method SetDryMix(mix: real)
      requires Valid()
      modifies this`dryMixOverride
      ensures Valid() && State() == EngineSpec.SetDryMix(old(State()), mix) && dryMixOverride == mix
    {
      dryMixOverride := mix;
    }

    /** `load_deepfilter_model(path)` for a path that names a file. */
    method LoadModel(loads: bool) returns (ok: bool)
      requires Valid()
      modifies this`deepfilter
      ensures Valid() && State() == EngineSpec.LoadModel(old(State()), loads) && ok == loads
    {
      if deepfilter.None? {
        deepfilter := Some(DeepFilter(false, ZeroStates(), 0.0));
      }
      if !loads {
        deepfilter := Some(deepfilter.value.(loaded := false));
        return false;
      }
      deepfilter := Some(deepfilter.value.(loaded := true, states := ZeroStates()));
      deepfilter := Limited(deepfilter, Attenuation(State()));
      ok := true;
    }

    method SetAttenuationLimit(db: real)
      requires Valid()
      modifies this
      ensures Valid() && State() == EngineSpec.SetAttenuationLimit(old(State()), db) && attenLimOverride == db
    {
      attenLimOverride := db;
      deepfilter := Limited(deepfilter, Attenuation(State()));
    }
  }
}
