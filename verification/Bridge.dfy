/** The C bridge and the part of the app that drives it: one engine, one owned shared buffer, calls in the app's order. */
module Bridge {
  import opened EngineSpec
  import opened EngineClass
  import opened RingSpec
  import opened SharedRing
  import opened Wrappers

  const MAX_FRAMES: nat := 4096

  class NoiseEngineContext {
    const engine: NoiseEngine
    const name: Name
    var sharedBuffer: SharedRingBuffer?
    var outputBuf: array<real>

    /** The producer's buffer object and what it maps. */
    ghost function Owned(): set<object>
      reads this, sharedBuffer
    {
      if sharedBuffer == null then {} else {sharedBuffer} + sharedBuffer.Memory()
    }

    ghost predicate Valid()
      reads this, engine, sharedBuffer, Owned()
    {
      && engine.Valid()
      && (engine.status == Running ==> engine.channels == 2)
      && outputBuf !in Owned()
      && (sharedBuffer != null ==> sharedBuffer.isCreator && sharedBuffer.name == name && sharedBuffer.Valid())
    }

    /** The segment the producer writes to, if there is one. */
    function Mapped(): Segment?
      reads this, sharedBuffer
    {
      if sharedBuffer == null then null else sharedBuffer.segment
    }

    constructor (models: Models, name: Name, rnnoiseOk: bool, loads: bool)
      ensures Valid() && fresh(engine) && fresh(outputBuf) && this.name == name && sharedBuffer == null
      ensures engine.models == models && engine.State() == EngineSpec.Init(NEWBORN, 2, rnnoiseOk, loads).0
    {
      var e := new NoiseEngine(models);
      var ok := e.Init(2, rnnoiseOk, loads);
      engine, this.name, sharedBuffer, outputBuf := e, name, null, new real[0];
    }

    method EngineStart(rnnoiseOk: bool, loads: bool) returns (ok: bool)
      requires Valid()
      modifies engine
      ensures Valid() && (engine.State(), ok) == EngineSpec.Init(old(engine.State()), 2, rnnoiseOk, loads)
    {
      ok := engine.Init(2, rnnoiseOk, loads);
    }

    method EngineStop()
      requires Valid()
      modifies engine
      ensures Valid() && engine.State() == EngineSpec.Shutdown(old(engine.State()))
    {
      engine.Shutdown();
    }

    /**
     `noise_engine_process_and_write`: without a mapped buffer the engine does not
     even run; otherwise the whole answered block goes into the ring or is dropped.
     */
    method ProcessAndWrite(input: seq<real>, numFrames: nat, slow: nat -> bool) returns (ok: bool)
      requires Valid() && |input| == numFrames * 2
      modifies this`outputBuf, outputBuf, engine, Owned()
      ensures Valid() && sharedBuffer == old(sharedBuffer) && Mapped() == old(Mapped())
      ensures Mapped() == null || old(engine.status) != Running ==> !ok && engine.State() == old(engine.State())
      ensures Mapped() != null && old(engine.status) != Running ==> Mapped().Value() == old(Mapped().Value())
      ensures Mapped() != null && old(engine.status) == Running ==>
        var (e, block) := Process(engine.models, old(engine.State()), Mono(input, 2, numFrames), slow);
        && engine.State() == e
        && Mapped().Value() == RingSpec.Write(old(Mapped().Value()), Rendered(block, 2))
        && ok == CanWrite(old(Mapped().Value()), numFrames * 2)
    {
      hide Process, Mono, Rendered, RingSpec.Write, CanWrite;
      if sharedBuffer == null || !sharedBuffer.IsValid() {
        return false;
      }
      var totalSamples := numFrames * 2;
      if outputBuf.Length < totalSamples {
        outputBuf := new real[totalSamples];
      }
      var done := engine.ProcessFrame(input, outputBuf, numFrames, slow);
      if !done {
        return false;
      }
      ok := sharedBuffer.Write(outputBuf[..totalSamples]);
    }

    /** Assigning the owned pointer: the new object exists before the old one's destructor runs. */
    method Replace(next: SharedRingBuffer?)
      requires Valid()
      modifies this`sharedBuffer, sharedBuffer, Owned(), if sharedBuffer == null then {} else {name}
      ensures sharedBuffer == next
      ensures old(Mapped()) != null ==> old(Mapped()).Value() == old(Mapped().Value()).(active := false)
      ensures name.entry == if old(sharedBuffer) == null then old(name.entry) else null
    {
      var old1 := sharedBuffer;
      sharedBuffer := next;
      if old1 != null {
        old1.Destroy();
      }
    }

    /**
     `noise_shm_create`.  The name leads to the new segment exactly when the
     system calls worked and no buffer object, not even a failed one, was held.
     */
    method ShmCreate(sampleRate: nat, channels: nat, works: bool) returns (ok: bool)
      requires Valid() && (sampleRate * channels) % 0x1_0000_0000 / 10 > 0
      modifies this`sharedBuffer, sharedBuffer, Owned(), name
      ensures Valid() && sharedBuffer != null && ok == works
      ensures works <==> Mapped() != null
      ensures works ==> fresh(Mapped()) && Mapped().Value().Unread() == [] && Mapped().active
      ensures works ==> Mapped().capacity == (sampleRate * channels) % 0x1_0000_0000 / 10
      ensures name.entry == if works && old(sharedBuffer) == null then Mapped() else null
      ensures old(Mapped()) != null ==> !old(Mapped()).active
    {
      var capacity := (sampleRate * channels) % 0x1_0000_0000 / 10;
      var next := new SharedRingBuffer.Create(name, capacity, channels, sampleRate, works);
      Replace(next);
      ok := sharedBuffer.IsValid();
    }

    method ShmDestroy()
      requires Valid()
      modifies this`sharedBuffer, sharedBuffer, Owned(), name
      ensures Valid() && sharedBuffer == null
      ensures name.entry == if old(sharedBuffer) == null then old(name.entry) else null
      ensures old(Mapped()) != null ==> old(Mapped()).Value() == old(Mapped().Value()).(active := false)
    {
      Replace(null);
    }
  }

  /** The app's manager, without the set-up of the audio unit. */
  class AudioManager {
    const ctx: NoiseEngineContext
    var isProcessing: bool
    var currentDeviceID: Option<nat>

    ghost predicate Valid()
      reads this, ctx, ctx.engine, ctx.sharedBuffer, ctx.Owned()
    {
      ctx.Valid() && (isProcessing ==> ctx.Mapped() != null)
    }

    constructor (ctx: NoiseEngineContext)
      requires ctx.Valid()
      ensures Valid() && this.ctx == ctx && !isProcessing && currentDeviceID == None
    {
      this.ctx, isProcessing, currentDeviceID := ctx, false, None;
    }

    /** The outcome of starting the engine is ignored; only a failed segment keeps the manager from processing. */
    method Start(deviceID: Option<nat>, works: bool, rnnoiseOk: bool, loads: bool)
      requires Valid()
      modifies this, ctx`sharedBuffer, ctx.engine, ctx.sharedBuffer, ctx.Owned(), ctx.name
      ensures Valid() && isProcessing == works && ctx.sharedBuffer != null
      ensures currentDeviceID == if works then deviceID else old(currentDeviceID)
      ensures ctx.engine.State() ==
              if works then EngineSpec.Init(old(ctx.engine.State()), 2, rnnoiseOk, loads).0 else old(ctx.engine.State())
      ensures works <==> ctx.Mapped() != null
      ensures works ==> fresh(ctx.Mapped()) && ctx.Mapped().capacity == 9600 && ctx.Mapped().active
      ensures ctx.name.entry == if works && old(ctx.sharedBuffer) == null then ctx.Mapped() else null
      ensures old(ctx.Mapped()) != null ==> !old(ctx.Mapped()).active
    {
      hide EngineSpec.Init;
      var created := ctx.ShmCreate(48000, 2, works);
      if !created {
        isProcessing := false;
        return;
      }
      var started := ctx.EngineStart(rnnoiseOk, loads);
      currentDeviceID := deviceID;
      isProcessing := true;
    }

    method Stop()
      requires Valid()
      modifies this`isProcessing, ctx`sharedBuffer, ctx.engine, ctx.sharedBuffer, ctx.Owned(), ctx.name
      ensures Valid() && !isProcessing && ctx.sharedBuffer == null
      ensures ctx.engine.State() == EngineSpec.Shutdown(old(ctx.engine.State()))
      ensures ctx.name.entry == if old(ctx.sharedBuffer) == null then old(ctx.name.entry) else null
      ensures old(ctx.Mapped()) != null ==> !old(ctx.Mapped()).active
    {
      hide EngineSpec.Shutdown;
      ctx.EngineStop();
      ctx.ShmDestroy();
      isProcessing := false;
    }

    /** After a switch of a recording manager the name leads to what it holds, whether or not the new segment could be made. */
    method SwitchDevice(deviceID: Option<nat>, works: bool, rnnoiseOk: bool, loads: bool)
      requires Valid()
      modifies this, ctx`sharedBuffer, ctx.engine, ctx.sharedBuffer, ctx.Owned(), ctx.name
      ensures Valid() && isProcessing == (old(isProcessing) && works) && currentDeviceID == deviceID
      ensures old(isProcessing) ==> ctx.name.entry == ctx.Mapped() && (works <==> ctx.Mapped() != null)
      ensures old(isProcessing) ==> ctx.Mapped() != old(ctx.Mapped()) && !old(ctx.Mapped()).active
      ensures !old(isProcessing) ==>
        && ctx.engine.State() == old(ctx.engine.State()) && ctx.sharedBuffer == old(ctx.sharedBuffer)
        && ctx.name.entry == old(ctx.name.entry)
    {
      currentDeviceID := deviceID;
      if isProcessing {
        Stop();
        Start(deviceID, works, rnnoiseOk, loads);
      }
    }

    /** The capture callback: at most 4096 frames go through the bridge; `rendered` is what the audio unit delivered for them. */
    method InputCallback(inNumberFrames: nat, rendered: seq<real>, slow: nat -> bool) returns (ok: bool)
      requires Valid() && |rendered| == (if inNumberFrames < 4096 then inNumberFrames else 4096) * 2
      modifies ctx`outputBuf, ctx.outputBuf, ctx.engine, ctx.Owned()
      ensures Valid() && ctx.Mapped() == old(ctx.Mapped())
      ensures ctx.Mapped() != null && old(ctx.engine.status) == Running ==>
        var n := |rendered| / 2;
        var (e, block) := Process(ctx.engine.models, old(ctx.engine.State()), Mono(rendered, 2, n), slow);
        && n <= 4096 && block.Size() == n
        && ctx.engine.State() == e
        && ctx.Mapped().Value() == RingSpec.Write(old(ctx.Mapped().Value()), Rendered(block, 2))
        && ok == CanWrite(old(ctx.Mapped().Value()), n * 2)
    {
      hide Process, Mono, Rendered, RingSpec.Write, CanWrite;
      var framesToRender := if inNumberFrames < MAX_FRAMES then inNumberFrames else MAX_FRAMES;
      ok := ctx.ProcessAndWrite(rendered, framesToRender, slow);
    }
  }
}
