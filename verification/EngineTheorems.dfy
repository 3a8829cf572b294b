/** What the engine guarantees over whole runs of callbacks of arbitrary sizes. */
module EngineTheorems {
  import opened Scheduler
  import opened EngineSpec
  import opened Framing
  import opened Samples

  // The batch transform: cut the whole input into frames and denoise them one after the other.

  function Batch(m: Models, c: Core, xs: seq<real>, slow: nat -> bool): (r: (Core, seq<real>))
    requires c.rnnoise.Some?
    ensures r.0.rnnoise.Some?
    ensures |r.1| == |xs| - |xs| % FRAME
    decreases |xs|
  {
    if |xs| < FRAME then (c, [])
    else
      var (c1, y) := ChunkStep(m, c, xs[..FRAME], slow(c.chunks));
      var (c2, ys) := Batch(m, c1, xs[FRAME..], slow);
      (c2, y + ys)
  }

  /** Batch processing in two goes: what the first left over is put in front of the second part. */
  lemma {:induction false} BatchInTwo(m: Models, c: Core, xs: seq<real>, ys: seq<real>, slow: nat -> bool)
    requires c.rnnoise.Some?
    ensures var (c1, out1) := Batch(m, c, xs, slow);
            var (c2, out2) := Batch(m, c1, xs[|out1|..] + ys, slow);
            Batch(m, c, xs + ys, slow) == (c2, out1 + out2)
    decreases |xs|
  {
    hide ChunkStep;
    if |xs| < FRAME {
      assert xs[0..] + ys == xs + ys;
      assert [] + Batch(m, c, xs + ys, slow).1 == Batch(m, c, xs + ys, slow).1;
    } else {
      var (c1, y) := ChunkStep(m, c, xs[..FRAME], slow(c.chunks));
      var tail := xs[FRAME..];
      BatchInTwo(m, c1, tail, ys, slow);
      var (c2, out) := Batch(m, c1, tail, slow);
      var (c3, rest) := Batch(m, c2, tail[|out|..] + ys, slow);
      assert Batch(m, c1, tail + ys, slow) == (c3, out + rest);
      assert Batch(m, c, xs, slow) == (c2, y + out);
      assert xs[|y + out|..] == tail[|out|..];
      BatchUnfold(m, c, xs + ys, slow, xs[..FRAME], tail + ys);
      assert y + (out + rest) == (y + out) + rest;
    }
  }

  lemma BatchUnfold(m: Models, c: Core, xs: seq<real>, slow: nat -> bool, x: Frame, tail: seq<real>)
    requires c.rnnoise.Some? && xs == x + tail
    ensures var (c1, y) := ChunkStep(m, c, x, slow(c.chunks));
            var (c2, ys) := Batch(m, c1, tail, slow);
            Batch(m, c, xs, slow) == (c2, y + ys)
  {
    hide ChunkStep;
    assert xs[..FRAME] == x && xs[FRAME..] == tail;
  }

  /** The processing loop of a callback is the batch transform of what is in the input buffer. */
  lemma {:induction false} DrainIsBatch(m: Models, e: Engine, slow: nat -> bool)
    requires e.core.rnnoise.Some?
    ensures var (c, out) := Batch(m, e.core, e.input, slow);
            Drain(m, e, slow) == e.(core := c, input := e.input[|out|..], output := e.output + out)
    decreases |e.input|
  {
    hide ChunkStep;
    if |e.input| < FRAME {
      assert e.output + [] == e.output;
    } else {
      var e1 := MonoChunk(m, e, slow(e.core.chunks));
      DrainIsBatch(m, e1, slow);
      var out := Batch(m, e1.core, e1.input, slow).1;
      var y := ChunkStep(m, e.core, e.input[..FRAME], slow(e.core.chunks)).1;
      assert e.output + y + out == e.output + (y + out);
      assert e.input[FRAME..][|out|..] == e.input[FRAME + |out|..];
    }
  }

  // Runs of callbacks.

  function Run(m: Models, e: Engine, calls: seq<seq<real>>, slow: nat -> bool): (r: (Engine, seq<Block>))
    requires Ready(e)
    ensures Ready(r.0) && |r.1| == |calls|
    decreases |calls|
  {
    if calls == [] then (e, [])
    else
      var n := |calls| - 1;
      var (e1, blocks) := Run(m, e, calls[..n], slow);
      var (e2, block) := Process(m, e1, calls[n], slow);
      (e2, blocks + [block])
  }

  function Joined(parts: seq<seq<real>>): seq<real>
    decreases |parts|
  {
    if parts == [] then [] else Joined(parts[..|parts| - 1]) + parts[|parts| - 1]
  }

  function Sizes(parts: seq<seq<real>>): (r: seq<nat>)
    ensures |r| == |parts|
  {
    seq(|parts|, i requires 0 <= i < |parts| => |parts[i]|)
  }

  /** The audio of a run: the answers that were not silence, joined together. */
  function Heard(blocks: seq<Block>): seq<real>
    decreases |blocks|
  {
    if blocks == [] then []
    else Heard(blocks[..|blocks| - 1]) + if blocks[|blocks| - 1].Audio? then blocks[|blocks| - 1].samples else []
  }

  /** A running engine right after `init` or a change of mode. */
  ghost predicate Fresh(e: Engine) {
    Ready(e) && e.input == [] && e.output == [] && e.readPos == 0 && !e.started
  }

  /** An engine's buffers together with the audio given out so far. */
  datatype Books = Books(core: Core, input: seq<real>, waiting: seq<real>, heard: seq<real>, readPos: nat, started: bool)

  function BooksOf(e: Engine, heard: seq<real>): Books
    requires e.readPos <= |e.output|
  {
    Books(e.core, e.input, e.output[e.readPos..], heard, e.readPos, e.started)
  }

  /** What the books must say after `xs` was taken in: all of it follows from the batch transform and the counting model. */
  function Expected(m: Models, c: Core, slow: nat -> bool, xs: seq<real>, l: Level): Books
    requires c.rnnoise.Some? && l.taken == |xs| && Ok(FRAME, l)
  {
    var (core, out) := Batch(m, c, xs, slow);
    Books(core, xs[|out|..], out[l.given..], Clamped(out[..l.given]), l.readPos, l.started)
  }

  ghost predicate Tracks(m: Models, c: Core, slow: nat -> bool, e: Engine, xs: seq<real>, l: Level, heard: seq<real>)
    requires c.rnnoise.Some? && Ready(e)
  {
    && l.taken == |xs|
    && Ok(FRAME, l)
    && BooksOf(e, heard) == Expected(m, c, slow, xs, l)
  }

  lemma SameTails(output: seq<real>, pos: nat, out: seq<real>, given: nat, more: seq<real>)
    requires pos <= |output| && given <= |out| && output[pos..] == out[given..]
    ensures (output + more)[pos..] == (out + more)[given..]
    ensures (out + more)[..given] == out[..given]
  {
    assert (output + more)[pos..] == output[pos..] + more;
    assert (out + more)[given..] == out[given..] + more;
  }

  lemma DropTwice(xs: seq<real>, ys: seq<real>, i: nat, j: nat)
    requires i <= |xs| && i + j <= |xs| + |ys|
    ensures (xs + ys)[i + j..] == (xs[i..] + ys)[j..]
  {
  }

  /** Steps 1 and 2 of a callback, seen from the batch transform. */
  lemma TakeInTracks(m: Models, c: Core, slow: nat -> bool, e: Engine, xs: seq<real>, l: Level, heard: seq<real>, ys: seq<real>)
    requires c.rnnoise.Some? && Ready(e) && Tracks(m, c, slow, e, xs, l, heard)
    ensures var d, (core, out) := Drain(m, e.(input := e.input + ys), slow), Batch(m, c, xs + ys, slow);
            && d == e.(core := core, input := (xs + ys)[|out|..], output := d.output)
            && |e.output| <= |d.output| && l.given <= |out|
            && d.output[l.readPos..] == out[l.given..]
            && heard == Clamped(out[..l.given])
  {
    hide Batch, Drain;
    var (c1, out1) := Batch(m, c, xs, slow);
    var out2 := Batch(m, c1, e.input + ys, slow).1;
    BatchInTwo(m, c, xs, ys, slow);
    DrainIsBatch(m, e.(input := e.input + ys), slow);
    SameTails(e.output, l.readPos, out1, l.given, out2);
    DropTwice(xs, ys, |out1|, |out2|);
  }

  /** Step 3: the answer and the buffers after it, when `out[given..]` is what waits in the output buffer. */
  lemma EmitTracks(d: Engine, out: seq<real>, given: nat, n: nat)
    requires d.readPos <= |d.output| && given <= |out| && d.output[d.readPos..] == out[given..]
    ensures var (e, block) := Emit(d, n);
            var started := d.started || |out| - given >= PREFILL;
            && block.Audio? == (started && |out| - given >= n)
            && e == d.(started := started, output := e.output, readPos := e.readPos)
            && if block.Audio? then
                 && block.samples == Clamped(out[given..given + n])
                 && e.readPos == (if d.readPos + n > PREFILL then 0 else d.readPos + n)
                 && e.output[e.readPos..] == out[given + n..]
               else e.readPos == d.readPos && e.output == d.output
  {
    assert |d.output[d.readPos..]| == |out[given..]|;
    if n <= |out| - given {
      assert d.output[d.readPos..][..n] == d.output[d.readPos..d.readPos + n];
      assert out[given..][..n] == out[given..given + n];
      assert d.output[d.readPos..][n..] == d.output[d.readPos + n..];
      assert out[given..][n..] == out[given + n..];
    }
  }

  lemma ClampedJoin(out: seq<real>, given: nat, n: nat)
    requires given + n <= |out|
    ensures Clamped(out[..given]) + Clamped(out[given..given + n]) == Clamped(out[..given + n])
  {
  }

  lemma CallTracks(m: Models, c: Core, slow: nat -> bool, e: Engine, xs: seq<real>, l: Level, heard: seq<real>, ys: seq<real>)
    requires c.rnnoise.Some? && Ready(e) && Tracks(m, c, slow, e, xs, l, heard)
    ensures var (e', block) := Process(m, e, ys, slow);
            Tracks(m, c, slow, e', xs + ys, Call(FRAME, l, |ys|), heard + if block.Audio? then block.samples else [])
    ensures Process(m, e, ys, slow).1.Audio? == Sounds(FRAME, l, |ys|)
  {
    hide Batch, Drain, Emit, Sounds, Call;
    TakeInTracks(m, c, slow, e, xs, l, heard, ys);
    CallKeeps(FRAME, l, |ys|);
    GivesLevel(Drain(m, e.(input := e.input + ys), slow), Batch(m, c, xs + ys, slow).1, l, heard, |ys|);
  }

  /** Step 3 keeps the books: positions as in the counting model, audio as in the batch transform. */
  lemma GivesLevel(d: Engine, out: seq<real>, l: Level, heard: seq<real>, n: nat)
    requires d.readPos == l.readPos && d.started == l.started && d.readPos <= |d.output|
    requires l.given <= |out| && d.output[d.readPos..] == out[l.given..] && Ok(FRAME, l)
    requires heard == Clamped(out[..l.given])
    requires |out| == Processed(FRAME, l.taken + n)
    ensures var (e, block) := Emit(d, n);
            var k := Call(FRAME, l, n);
            && block.Audio? == Sounds(FRAME, l, n)
            && e == d.(started := k.started, output := e.output, readPos := k.readPos)
            && k.taken == l.taken + n && k.given <= |out| && k.readPos <= |e.output|
            && e.output[k.readPos..] == out[k.given..]
            && heard + (if block.Audio? then block.samples else []) == Clamped(out[..k.given])
  {
    EmitTracks(d, out, l.given, n);
    if Sounds(FRAME, l, n) {
      ClampedJoin(out, l.given, n);
    }
  }

  lemma HeardSnoc(blocks: seq<Block>, block: Block)
    ensures Heard(blocks + [block]) == Heard(blocks) + if block.Audio? then block.samples else []
  {
    assert (blocks + [block])[..|blocks|] == blocks;
  }

  lemma CallsSnoc(calls: seq<seq<real>>, l: Level)
    requires calls != []
    ensures Calls(FRAME, l, Sizes(calls)) == Call(FRAME, Calls(FRAME, l, Sizes(calls[..|calls| - 1])), |calls[|calls| - 1]|)
  {
    assert Sizes(calls)[..|calls| - 1] == Sizes(calls[..|calls| - 1]);
  }

  lemma BatchOfLess(m: Models, c: Core, xs: seq<real>, slow: nat -> bool)
    requires c.rnnoise.Some? && |xs| < FRAME
    ensures Batch(m, c, xs, slow) == (c, [])
  {
  }

  lemma FreshTracks(m: Models, e0: Engine, slow: nat -> bool, xs: seq<real>, l: Level, heard: seq<real>)
    requires Fresh(e0) && xs == [] && l == RESET && heard == []
    ensures Tracks(m, e0.core, slow, e0, xs, l, heard)
  {
    hide Batch, Framing.Ok, Processed;
    ResetOk(FRAME);
    BatchOfLess(m, e0.core, xs, slow);
    assert xs[0..] == xs && xs[..0] == xs;
    assert Clamped(xs) == heard;
  }

  lemma {:induction false} RunTracks(m: Models, e0: Engine, calls: seq<seq<real>>, slow: nat -> bool)
    requires Fresh(e0)
    ensures var (e, blocks) := Run(m, e0, calls, slow);
            Tracks(m, e0.core, slow, e, Joined(calls), Calls(FRAME, RESET, Sizes(calls)), Heard(blocks))
    decreases |calls|
  {
    hide Tracks, Process, Call;
    if calls == [] {
      FreshTracks(m, e0, slow, Joined(calls), Calls(FRAME, RESET, Sizes(calls)), Heard(Run(m, e0, calls, slow).1));
    } else {
      var before, ys := calls[..|calls| - 1], calls[|calls| - 1];
      RunTracks(m, e0, before, slow);
      var (e, blocks) := Run(m, e0, before, slow);
      CallTracks(m, e0.core, slow, e, Joined(before), Calls(FRAME, RESET, Sizes(before)), Heard(blocks), ys);
      HeardSnoc(blocks, Process(m, e, ys, slow).1);
      CallsSnoc(calls, RESET);
    }
  }

  /**
   Re-blocking preserves meaning: whatever the callback sizes, the audio that
   comes out is a prefix of the clamped batch transform of all that went in.
   */
  lemma AudioIsPrefixOfBatch(m: Models, e0: Engine, calls: seq<seq<real>>, slow: nat -> bool)
    requires Fresh(e0)
    ensures Heard(Run(m, e0, calls, slow).1) <= Clamped(Batch(m, e0.core, Joined(calls), slow).1)
  {
    hide ChunkStep, Process;
    RunTracks(m, e0, calls, slow);
    var out := Batch(m, e0.core, Joined(calls), slow).1;
    var l := Calls(FRAME, RESET, Sizes(calls));
    assert Clamped(out[..l.given]) == Clamped(out)[..l.given];
  }

  /** How the input is split into callbacks does not matter: two splittings of inputs that share a prefix agree on it. */
  lemma SplittingIsIrrelevant(m: Models, e0: Engine, calls1: seq<seq<real>>, calls2: seq<seq<real>>, slow: nat -> bool)
    requires Fresh(e0) && Joined(calls1) <= Joined(calls2)
    ensures var heard1, heard2 := Heard(Run(m, e0, calls1, slow).1), Heard(Run(m, e0, calls2, slow).1);
            heard1 <= heard2 || heard2 <= heard1
  {
    hide Batch, Run, Heard;
    AudioIsPrefixOfBatch(m, e0, calls1, slow);
    AudioIsPrefixOfBatch(m, e0, calls2, slow);
    var xs1, xs2 := Joined(calls1), Joined(calls2);
    BatchInTwo(m, e0.core, xs1, xs2[|xs1|..], slow);
    assert xs1 + xs2[|xs1|..] == xs2;
    var out1, out2 := Batch(m, e0.core, xs1, slow).1, Batch(m, e0.core, xs2, slow).1;
    assert out1 <= out2;
    assert Clamped(out1) <= Clamped(out2);
  }

  /** At every call boundary nothing is lost and nothing is made up, and the buffers have exactly these sizes. */
  lemma Conservation(m: Models, e0: Engine, calls: seq<seq<real>>, slow: nat -> bool)
    requires Fresh(e0)
    ensures var (e, blocks) := Run(m, e0, calls, slow);
            && |Joined(calls)| == |Heard(blocks)| + (|e.output| - e.readPos) + |e.input|
            && |e.input| == |Joined(calls)| % FRAME
            && e.readPos <= PREFILL && e.readPos <= |e.output|
  {
    hide ChunkStep, Process;
    RunTracks(m, e0, calls, slow);
    var (e, blocks) := Run(m, e0, calls, slow);
    var l, out := Calls(FRAME, RESET, Sizes(calls)), Batch(m, e0.core, Joined(calls), slow).1;
    assert |e.output[l.readPos..]| == |out[l.given..]|;
  }

  lemma {:induction false} TakenIsSum(calls: seq<seq<real>>, l: Level)
    ensures Calls(FRAME, l, Sizes(calls)).taken == l.taken + |Joined(calls)|
    decreases |calls|
  {
    if calls != [] {
      assert Sizes(calls)[..|calls| - 1] == Sizes(calls[..|calls| - 1]);
      TakenIsSum(calls[..|calls| - 1], l);
    }
  }

  /** Every callback is answered as a whole: `n` samples of audio or `n` of silence, as the counting model says. */
  lemma AllAudioOrAllSilence(m: Models, e0: Engine, calls: seq<seq<real>>, slow: nat -> bool, xs: seq<real>)
    requires Fresh(e0)
    ensures var block := Process(m, Run(m, e0, calls, slow).0, xs, slow).1;
            && block.Size() == |xs|
            && (block.Audio? <==> Sounds(FRAME, Calls(FRAME, RESET, Sizes(calls)), |xs|))
  {
    hide Batch, Process;
    RunTracks(m, e0, calls, slow);
    var (e, blocks) := Run(m, e0, calls, slow);
    CallTracks(m, e0.core, slow, e, Joined(calls), Calls(FRAME, RESET, Sizes(calls)), Heard(blocks), xs);
  }

  // The counting theorems, for the engine itself.

  lemma {:induction false} CallsAppend(f: nat, l: Level, a: seq<nat>, b: seq<nat>)
    requires f > 0
    ensures Calls(f, l, a + b) == Calls(f, Calls(f, l, a), b)
    decreases |b|
  {
    if b == [] {
      assert a + b == a;
    } else {
      assert (a + b)[..|a + b| - 1] == a + b[..|b| - 1];
      CallsAppend(f, l, a, b[..|b| - 1]);
    }
  }

  /**
   If the callback that completes the prefill has at most 481 frames, it and
   every later callback of any size get audio, and the delay is one constant
   between 479 and 959 frames: the number of silent frames before.
   */
  lemma NoUnderrun(m: Models, e0: Engine, before: seq<seq<real>>, first: seq<real>, later: seq<seq<real>>, slow: nat -> bool, xs: seq<real>)
    requires Fresh(e0) && |first| <= FRAME + 1
    requires Completes(FRAME, Calls(FRAME, RESET, Sizes(before)), |first|)
    ensures var (e, blocks) := Run(m, e0, before + [first] + later, slow);
            && Process(m, e, xs, slow).1.Audio?
            && var delay := |Joined(before + [first] + later)| - |Heard(blocks)|;
               479 <= delay <= 959 && delay == |Joined(before)|
    ensures Process(m, Run(m, e0, before, slow).0, first, slow).1.Audio?
  {
    hide ChunkStep, Process;
    var calls := before + [first] + later;
    var l := Calls(FRAME, RESET, Sizes(before));
    NoUnderrunAfterPrefill(FRAME, Sizes(before), |first|, Sizes(later), |xs|, l);
    assert Sizes(calls) == Sizes(before) + ([|first|] + Sizes(later));
    CallsAppend(FRAME, RESET, Sizes(before), [|first|] + Sizes(later));
    CallsAppend(FRAME, l, [|first|], Sizes(later));
    CallOnce(l, |first|);
    AllAudioOrAllSilence(m, e0, calls, slow, xs);
    AllAudioOrAllSilence(m, e0, before, slow, first);
    RunTracks(m, e0, calls, slow);
    TakenIsSum(before, RESET);
  }

  lemma CallOnce(l: Level, n: nat)
    ensures Calls(FRAME, l, [n]) == Call(FRAME, l, n)
  {
    assert [n][..0] == [];
  }

  /** With callbacks of 1 to `max` samples the output buffer never holds more than 1919 + `max` samples between callbacks. */
  lemma OutputStaysBounded(m: Models, e0: Engine, calls: seq<seq<real>>, slow: nat -> bool, max: nat)
    requires Fresh(e0) && AllBetween(Sizes(calls), 1, max)
    ensures |Run(m, e0, calls, slow).0.output| <= 1919 + max && |Run(m, e0, calls, slow).0.input| < 480
  {
    hide ChunkStep, Process;
    RunTracks(m, e0, calls, slow);
    BoundedMemory(FRAME, Sizes(calls), max);
    var l, out := Calls(FRAME, RESET, Sizes(calls)), Batch(m, e0.core, Joined(calls), slow).1;
    assert |Run(m, e0, calls, slow).0.output[l.readPos..]| == |out[l.given..]|;
  }

  /** Callbacks of 128 frames: neither buffer outgrows its reserved 1920 samples at any point of a callback. */
  lemma NoReallocation(m: Models, e0: Engine, calls: seq<seq<real>>, slow: nat -> bool, xs: seq<real>)
    requires Fresh(e0) && AllBetween(Sizes(calls), 128, 128) && |xs| == 128
    ensures var e := Run(m, e0, calls, slow).0;
            && |e.input + xs| <= 1920
            && |Drain(m, e.(input := e.input + xs), slow).output| <= 1920
  {
    hide ChunkStep, Process, Drain, Batch, Run, Joined, Heard, Call, Calls, Steady;
    RunTracks(m, e0, calls, slow);
    var (e, blocks) := Run(m, e0, calls, slow);
    var l := Calls(FRAME, RESET, Sizes(calls));
    AllSame(Sizes(calls), 128);
    ReservedIsEnough(|calls|);
    TakeInTracks(m, e0.core, slow, e, Joined(calls), l, Heard(blocks), xs);
    var out := Batch(m, e0.core, Joined(calls) + xs, slow).1;
    var d := Drain(m, e.(input := e.input + xs), slow);
    assert |d.output[l.readPos..]| == |out[l.given..]|;
  }

  lemma {:induction false} AllSame(ns: seq<nat>, n: nat)
    requires AllBetween(ns, n, n)
    ensures Calls(FRAME, RESET, ns) == Steady(FRAME, n, |ns|)
    decreases |ns|
  {
    if ns != [] {
      AllSame(ns[..|ns| - 1], n);
    }
  }

  // The overload schedule of a run.

  /** The counters are those that the timing trace gives after as many chunks. */
  ghost predicate InStep(c: Core, slow: nat -> bool) {
    c.overload == StateAt(slow, c.chunks)
  }

  lemma ChunkInStep(m: Models, c: Core, x: Frame, slow: nat -> bool)
    requires c.rnnoise.Some? && InStep(c, slow)
    ensures InStep(ChunkStep(m, c, x, slow(c.chunks)).0, slow)
  {
    hide Step, Infer;
  }

  lemma {:induction false} BatchInStep(m: Models, c: Core, xs: seq<real>, slow: nat -> bool)
    requires c.rnnoise.Some? && InStep(c, slow)
    ensures InStep(Batch(m, c, xs, slow).0, slow)
    ensures Batch(m, c, xs, slow).0.chunks == c.chunks + |xs| / FRAME
    decreases |xs|
  {
    hide ChunkStep, InStep;
    if |xs| >= FRAME {
      ChunkInStep(m, c, xs[..FRAME], slow);
      BatchInStep(m, ChunkStep(m, c, xs[..FRAME], slow(c.chunks)).0, xs[FRAME..], slow);
    }
  }

  /** The core that finds chunk `k` of the input. */
  function CoreBefore(m: Models, c: Core, xs: seq<real>, slow: nat -> bool, k: nat): (r: Core)
    requires c.rnnoise.Some? && k <= |xs| / FRAME
    ensures r.rnnoise.Some?
  {
    Batch(m, c, xs[..k * FRAME], slow).0
  }

  function ChunkOf(xs: seq<real>, k: nat): Frame
    requires k < |xs| / FRAME
  {
    xs[k * FRAME..(k + 1) * FRAME]
  }

  lemma FirstChunk(m: Models, c: Core, xs: seq<real>, slow: nat -> bool)
    requires c.rnnoise.Some? && |xs| >= FRAME
    ensures Batch(m, c, xs, slow).1[..FRAME] == ChunkStep(m, c, xs[..FRAME], slow(c.chunks)).1
  {
    hide ChunkStep;
  }

  /** Chunk by chunk: each one of the output is what the core before it makes of the same one of the input. */
  lemma ChunkOfBatch(m: Models, c: Core, xs: seq<real>, slow: nat -> bool, k: nat)
    requires c.rnnoise.Some? && k < |xs| / FRAME
    ensures k < |Batch(m, c, xs, slow).1| / FRAME
    ensures var now := CoreBefore(m, c, xs, slow, k);
            ChunkOf(Batch(m, c, xs, slow).1, k) == ChunkStep(m, now, ChunkOf(xs, k), slow(now.chunks)).1
  {
    hide ChunkStep, Batch;
    var before, rest := xs[..k * FRAME], xs[k * FRAME..];
    assert before + rest == xs && rest[..FRAME] == ChunkOf(xs, k);
    var (now, out) := Batch(m, c, before, slow);
    assert |out| == |before| && before[|out|..] + rest == rest;
    BatchInTwo(m, c, before, rest, slow);
    FirstChunk(m, now, rest, slow);
    assert (out + Batch(m, now, rest, slow).1)[k * FRAME..(k + 1) * FRAME] == Batch(m, now, rest, slow).1[..FRAME];
  }

  /**
   The schedule governs the audio: from `init` on, chunk `k` of the output is
   chunk `k` of the input when the schedule passes it through, and what the
   denoiser makes of it otherwise.
   */
  lemma ScheduleGovernsAudio(m: Models, c: Core, xs: seq<real>, slow: nat -> bool, k: nat)
    requires c.rnnoise.Some? && c.overload == CALM && c.chunks == 0 && k < |xs| / FRAME
    ensures var now := CoreBefore(m, c, xs, slow, k);
            && now.overload == StateAt(slow, k)
            && k < |Batch(m, c, xs, slow).1| / FRAME
            && ChunkOf(Batch(m, c, xs, slow).1, k) == if Passes(slow, k) then ChunkOf(xs, k) else Infer(m, now, ChunkOf(xs, k)).1
  {
    hide Batch, StateAt, Infer;
    assert StateAt(slow, 0) == CALM by { StartsCalm(slow); }
    BatchInStep(m, c, xs[..k * FRAME], slow);
    ChunkOfBatch(m, c, xs, slow, k);
  }

  lemma StartsCalm(slow: nat -> bool)
    ensures StateAt(slow, 0) == CALM
  {
  }

  lemma RunCore(m: Models, e0: Engine, calls: seq<seq<real>>, slow: nat -> bool)
    requires Fresh(e0)
    ensures Run(m, e0, calls, slow).0.core == Batch(m, e0.core, Joined(calls), slow).0
  {
    hide Batch, Run, Joined, Heard, Calls, Call;
    RunTracks(m, e0, calls, slow);
  }

  /** After any run since `init` the engine's counters are where the timing trace puts them. */
  lemma RunFollowsSchedule(m: Models, e0: Engine, calls: seq<seq<real>>, slow: nat -> bool)
    requires Fresh(e0) && e0.core.overload == CALM && e0.core.chunks == 0
    ensures Run(m, e0, calls, slow).0.core.overload == StateAt(slow, |Joined(calls)| / FRAME)
  {
    hide Batch, Run, Joined, StateAt;
    StartsCalm(slow);
    RunCore(m, e0, calls, slow);
    BatchInStep(m, e0.core, Joined(calls), slow);
  }

  /** How many of the chunks `k` to `k + n - 1` the engine copies through without inference. */
  function Escapes(m: Models, c: Core, xs: seq<real>, slow: nat -> bool, k: nat, n: nat): nat
    requires c.rnnoise.Some? && k + n <= |xs| / FRAME
    decreases n
  {
    if n == 0 then 0
    else (if PassesThrough(CoreBefore(m, c, xs, slow, k).overload) then 1 else 0) + Escapes(m, c, xs, slow, k + 1, n - 1)
  }

  lemma {:induction false} EscapesCounted(m: Models, c: Core, xs: seq<real>, slow: nat -> bool, k: nat, n: nat)
    requires c.rnnoise.Some? && c.overload == CALM && c.chunks == 0 && k + n <= |xs| / FRAME
    ensures Escapes(m, c, xs, slow, k, n) == CountPasses(slow, k, n)
    decreases n
  {
    hide CoreBefore, Batch, StateAt;
    if n > 0 {
      ScheduleGovernsAudio(m, c, xs, slow, k);
      EscapesCounted(m, c, xs, slow, k + 1, n - 1);
    }
  }

  /** Of any 105 consecutive chunks that a run since `init` was given, at most 100 escape the denoiser. */
  lemma AtMostHundredEscape(m: Models, e0: Engine, calls: seq<seq<real>>, slow: nat -> bool, k: nat)
    requires Fresh(e0) && e0.core.overload == CALM && e0.core.chunks == 0
    requires k + 105 <= |Joined(calls)| / FRAME
    ensures Escapes(m, e0.core, Joined(calls), slow, k, 105) <= 100
  {
    EscapesCounted(m, e0.core, Joined(calls), slow, k, 105);
    AtMostHundredOf105(slow, k);
  }

  // One callback size throughout.

  /** All that was given out, silence included. */
  function Answers(blocks: seq<Block>): seq<real>
    decreases |blocks|
  {
    if blocks == [] then []
    else
      Answers(blocks[..|blocks| - 1]) +
      match blocks[|blocks| - 1]
      case Audio(samples) => samples
      case Silence(count) => Zeros(count)
  }

  lemma AnswersSnoc(blocks: seq<Block>, block: Block)
    ensures Answers(blocks + [block]) ==
            Answers(blocks) + match block case Audio(samples) => samples case Silence(count) => Zeros(count)
  {
    assert (blocks + [block])[..|blocks|] == blocks;
  }

  lemma {:induction false} AnswersLength(m: Models, e0: Engine, calls: seq<seq<real>>, slow: nat -> bool)
    requires Ready(e0)
    ensures |Answers(Run(m, e0, calls, slow).1)| == |Joined(calls)|
    decreases |calls|
  {
    hide Process;
    if calls != [] {
      var n := |calls| - 1;
      AnswersLength(m, e0, calls[..n], slow);
      var (e, blocks) := Run(m, e0, calls[..n], slow);
      AnswersSnoc(blocks, Process(m, e, calls[n], slow).1);
    }
  }

  /** `total` samples of answers: silence, then `heard`. */
  ghost predicate Delays(answers: seq<real>, heard: seq<real>, total: nat) {
    |heard| <= total && answers == Zeros(total - |heard|) + heard
  }

  lemma DelaysOn(answers: seq<real>, heard: seq<real>, total: nat, block: Block)
    requires Delays(answers, heard, total) && (block.Silence? ==> heard == [])
    ensures match block
            case Audio(samples) => Delays(answers + samples, heard + samples, total + block.Size())
            case Silence(count) => Delays(answers + Zeros(count), heard, total + block.Size())
  {
    match block
    case Audio(samples) =>
      assert Zeros(total - |heard|) + heard + samples == Zeros(total - |heard|) + (heard + samples);
    case Silence(count) =>
      assert Zeros(total) + Zeros(count) == Zeros(total + count);
      assert Zeros(total) + heard == Zeros(total) && Zeros(total + count) + heard == Zeros(total + count);
  }

  /** Whether the next callback of the one size gets audio; once it does, it stays so. */
  lemma SoundsOn(before: seq<seq<real>>, xs: seq<real>, n: nat)
    requires n > 0 && AllBetween(Sizes(before), n, n) && |xs| == n
    ensures AllBetween(Sizes(before + [xs]), n, n)
    ensures Sounds(FRAME, Calls(FRAME, RESET, Sizes(before)), n) ==> Sounds(FRAME, Calls(FRAME, RESET, Sizes(before + [xs])), n)
  {
    hide Sounds, Call;
    AllSame(Sizes(before), n);
    assert Sizes(before + [xs]) == Sizes(before) + [n];
    AllSame(Sizes(before + [xs]), n);
    if Sounds(FRAME, Calls(FRAME, RESET, Sizes(before)), n) {
      ConstantSizeStaysSound(FRAME, n, |before|, |before| + 1);
    }
  }

  lemma JoinedSnoc(parts: seq<seq<real>>, xs: seq<real>)
    ensures Joined(parts + [xs]) == Joined(parts) + xs
  {
    assert (parts + [xs])[..|parts|] == parts;
  }

  lemma RunSnoc(m: Models, e0: Engine, calls: seq<seq<real>>, xs: seq<real>, slow: nat -> bool)
    requires Ready(e0)
    ensures var (e, blocks) := Run(m, e0, calls, slow);
            var (e', block) := Process(m, e, xs, slow);
            Run(m, e0, calls + [xs], slow) == (e', blocks + [block])
  {
    hide Process;
    assert (calls + [xs])[..|calls|] == calls;
  }

  /**
   With one callback size, all that comes out is first silence, then audio
   without a gap: the batch transform of the input, late by a fixed delay.
   */
  lemma {:induction false} SilenceThenAudio(m: Models, e0: Engine, calls: seq<seq<real>>, slow: nat -> bool, n: nat)
    requires Fresh(e0) && n > 0 && AllBetween(Sizes(calls), n, n)
    ensures var heard := Heard(Run(m, e0, calls, slow).1);
            && Delays(Answers(Run(m, e0, calls, slow).1), heard, |Joined(calls)|)
            && (heard != [] ==> Sounds(FRAME, Calls(FRAME, RESET, Sizes(calls)), n))
    decreases |calls|
  {
    hide Process, Sounds, Call;
    if calls == [] {
      assert Zeros(0) == [];
    } else {
      var before, xs := calls[..|calls| - 1], calls[|calls| - 1];
      assert Sizes(calls)[|before|] == n && Sizes(calls)[..|before|] == Sizes(before);
      SilenceThenAudio(m, e0, before, slow, n);
      OneMoreAnswer(m, e0, before, slow, n, xs);
      assert calls == before + [xs];
    }
  }

  lemma OneMoreAnswer(m: Models, e0: Engine, before: seq<seq<real>>, slow: nat -> bool, n: nat, xs: seq<real>)
    requires Fresh(e0) && n > 0 && AllBetween(Sizes(before), n, n) && |xs| == n
    requires var heard := Heard(Run(m, e0, before, slow).1);
             && Delays(Answers(Run(m, e0, before, slow).1), heard, |Joined(before)|)
             && (heard != [] ==> Sounds(FRAME, Calls(FRAME, RESET, Sizes(before)), n))
    ensures var heard := Heard(Run(m, e0, before + [xs], slow).1);
            && Delays(Answers(Run(m, e0, before + [xs], slow).1), heard, |Joined(before + [xs])|)
            && (heard != [] ==> Sounds(FRAME, Calls(FRAME, RESET, Sizes(before + [xs])), n))
  {
    hide Process, Sounds, Calls, Run, Ready, Answers, Heard, Joined, Delays;
    var (e, blocks) := Run(m, e0, before, slow);
    var block := Process(m, e, xs, slow).1;
    AllAudioOrAllSilence(m, e0, before, slow, xs);
    RunSnoc(m, e0, before, xs, slow);
    AnswersSnoc(blocks, block);
    HeardSnoc(blocks, block);
    JoinedSnoc(before, xs);
    DelaysOn(Answers(blocks), Heard(blocks), |Joined(before)|, block);
    SoundsOn(before, xs, n);
  }

  // Resets.

  /** Everything `init` leaves as it was. */
  ghost predicate SameSettings(e1: Engine, e2: Engine) {
    && e1.core.mode == e2.core.mode
    && e1.core.dryMixOverride == e2.core.dryMixOverride
    && e1.attenLimOverride == e2.attenLimOverride
    && HasModel(e1) == HasModel(e2)
  }

  predicate HasModel(e: Engine) {
    e.core.deepfilter.Some? && e.core.deepfilter.value.loaded
  }

  /** A loaded model always carries the attenuation limit that the settings ask for. */
  ghost predicate AttenuationOk(e: Engine) {
    HasModel(e) ==> e.core.deepfilter.value.attenuation == Attenuation(e)
  }

  lemma ControlsKeepAttenuation(e: Engine, channels: nat, ok: bool, loads: bool, mode: Mode, x: real)
    requires AttenuationOk(e)
    ensures AttenuationOk(Init(e, channels, ok, loads).0)
    ensures AttenuationOk(Shutdown(e)) && AttenuationOk(SetMode(e, mode)) && AttenuationOk(LoadModel(e, loads))
    ensures AttenuationOk(SetDryMix(e, x)) && AttenuationOk(SetAttenuationLimit(e, x))
  {
    hide ZeroStates;
  }

  lemma {:induction false} ProcessKeepsAttenuation(m: Models, e: Engine, xs: seq<real>, slow: nat -> bool)
    requires Ready(e) && AttenuationOk(e)
    ensures AttenuationOk(Process(m, e, xs, slow).0)
  {
    DrainKeepsAttenuation(m, e.(input := e.input + xs), slow);
  }

  lemma {:induction false} DrainKeepsAttenuation(m: Models, e: Engine, slow: nat -> bool)
    requires e.core.rnnoise.Some? && AttenuationOk(e)
    ensures AttenuationOk(Drain(m, e, slow))
    decreases |e.input|
  {
    if |e.input| >= FRAME {
      DrainKeepsAttenuation(m, MonoChunk(m, e, slow(e.core.chunks)), slow);
    }
  }

  lemma {:induction false} DrainKeepsSettings(m: Models, e: Engine, slow: nat -> bool)
    requires e.core.rnnoise.Some?
    ensures SameSettings(e, Drain(m, e, slow))
    decreases |e.input|
  {
    hide Mixed, Scaled, Unscaled;
    if |e.input| >= FRAME {
      DrainKeepsSettings(m, MonoChunk(m, e, slow(e.core.chunks)), slow);
    }
  }

  lemma ProcessKeepsSettings(m: Models, e: Engine, xs: seq<real>, slow: nat -> bool)
    requires Ready(e)
    ensures SameSettings(e, Process(m, e, xs, slow).0)
  {
    hide Drain;
    DrainKeepsSettings(m, e.(input := e.input + xs), slow);
  }

  /** `init` forgets all earlier audio: with equal settings the two engines are equal in every field from then on. */
  lemma InitForgets(e1: Engine, e2: Engine, channels: nat, loads: bool)
    requires SameSettings(e1, e2) && AttenuationOk(e1) && AttenuationOk(e2)
    ensures Init(e1, channels, true, loads) == Init(e2, channels, true, loads)
    ensures Init(e1, channels, true, loads).1
    ensures channels > 0 ==> Fresh(Init(e1, channels, true, loads).0)
  {
  }
}
