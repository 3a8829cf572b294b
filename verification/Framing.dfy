/**
 The arithmetic of re-blocking, apart from the audio: callbacks of any size are
 cut into frames of `f` samples, output starts once `2 * f` processed samples
 wait, and a callback is answered with audio only if all of it is there.
 `EngineTheorems` shows that the engine moves exactly like this with f = 480.
 */
module Framing {
  import opened Arith

  /** Samples taken in and given out since the reset, and where the output buffer is read. */
  datatype Level = Level(taken: nat, given: nat, started: bool, readPos: nat)

  const RESET := Level(0, 0, false, 0)

  /** Samples processed so far: all whole frames. */
  function Processed(f: nat, taken: nat): nat
    requires f > 0
  {
    taken - taken % f
  }

  /** Samples taken in but not given out: the delay, and also the number of silent samples so far. */
  function Lag(l: Level): int { l.taken - l.given }

  /** Processed samples waiting in the output buffer. */
  function Waiting(f: nat, l: Level): int
    requires f > 0
  {
    Processed(f, l.taken) - l.given
  }

  /** Does a callback of `n` samples get audio? */
  predicate Sounds(f: nat, l: Level, n: nat)
    requires f > 0
  {
    var waiting := Processed(f, l.taken + n) - l.given;
    (l.started || waiting >= 2 * f) && waiting >= n
  }

  function Call(f: nat, l: Level, n: nat): Level
    requires f > 0
  {
    var waiting := Processed(f, l.taken + n) - l.given;
    var started := l.started || waiting >= 2 * f;
    if Sounds(f, l, n) then
      var pos := l.readPos + n;
      Level(l.taken + n, l.given + n, started, if pos > 2 * f then 0 else pos)
    else
      Level(l.taken + n, l.given, started, l.readPos)
  }

  function Calls(f: nat, l: Level, ns: seq<nat>): Level
    requires f > 0
    decreases |ns|
  {
    if ns == [] then l else Call(f, Calls(f, l, ns[..|ns| - 1]), ns[|ns| - 1])
  }

  ghost predicate Ok(f: nat, l: Level)
    requires f > 0
  {
    && l.given <= Processed(f, l.taken)
    && l.readPos <= 2 * f
    && (!l.started ==> l.given == 0 && l.readPos == 0 && Processed(f, l.taken) < 2 * f)
  }

  lemma ResetOk(f: nat)
    requires f > 0
    ensures Ok(f, RESET)
  {
    ModUnique(0, 0, 0, f);
  }

  lemma CallKeeps(f: nat, l: Level, n: nat)
    requires f > 0 && Ok(f, l)
    ensures Ok(f, Call(f, l, n))
  {
    ProcessedGrows(f, l.taken, n);
  }

  lemma ProcessedGrows(f: nat, taken: nat, n: nat)
    requires f > 0
    ensures Processed(f, taken) <= Processed(f, taken + n)
  {
    ModOf(taken, f);
    ModOf(taken + n, f);
    MulSign((taken + n) / f - taken / f, f);
    MulSign((taken + n) / f - taken / f + 1, f);
  }

  lemma {:induction false} CallsKeep(f: nat, ns: seq<nat>)
    requires f > 0
    ensures Ok(f, Calls(f, RESET, ns))
    decreases |ns|
  {
    if ns != [] {
      CallsKeep(f, ns[..|ns| - 1]);
      CallKeeps(f, Calls(f, RESET, ns[..|ns| - 1]), ns[|ns| - 1]);
    } else {
      ResetOk(f);
    }
  }

  // The key to everything below: a call is answered exactly when the lag covers the incomplete frame.

  lemma SoundsExactly(f: nat, l: Level, n: nat)
    requires f > 0 && l.started && l.given <= l.taken
    ensures Sounds(f, l, n) <==> Lag(l) >= (l.taken + n) % f
    ensures Lag(Call(f, l, n)) == if Sounds(f, l, n) then Lag(l) else Lag(l) + n
    ensures Call(f, l, n).started
  {
  }

  /** A started engine whose lag is at least `f - 1` answers every later callback of any size, at a constant lag. */
  lemma {:induction false} NeverUnderrunsAgain(f: nat, l: Level, ns: seq<nat>, n: nat)
    requires f > 0 && l.started && l.given <= l.taken && Lag(l) >= f - 1
    ensures var k := Calls(f, l, ns);
            k.started && k.given <= k.taken && Lag(k) == Lag(l) && Sounds(f, k, n)
    decreases |ns|
  {
    var k := Calls(f, l, ns);
    if ns != [] {
      NeverUnderrunsAgain(f, l, ns[..|ns| - 1], ns[|ns| - 1]);
      SoundsExactly(f, Calls(f, l, ns[..|ns| - 1]), ns[|ns| - 1]);
    }
    SoundsExactly(f, k, n);
    ModOf(k.taken + n, f);
  }

  ghost predicate SafeForAllSizes(f: nat, l: Level)
    requires f > 0
  {
    forall ns: seq<nat>, n: nat :: Sounds(f, Calls(f, l, ns), n)
  }

  lemma SomeSizeUnderruns(f: nat, l: Level) returns (n: nat)
    requires f > 0 && l.started && l.given <= l.taken && Lag(l) < f - 1
    ensures !Sounds(f, l, n)
  {
    n := f - 1 - l.taken % f;
    ModUnique(l.taken + n, l.taken / f, f - 1, f);
    SoundsExactly(f, l, n);
  }

  lemma SafeNow(f: nat, l: Level, n: nat)
    requires f > 0 && SafeForAllSizes(f, l)
    ensures Sounds(f, l, n)
  {
    var none: seq<nat> := [];
    assert Sounds(f, Calls(f, l, none), n);
  }

  /** Exactly then: with a smaller lag there is a callback size that underruns at once. */
  lemma SafeForAllSizesExactly(f: nat, l: Level)
    requires f > 0 && l.started && l.given <= l.taken
    ensures SafeForAllSizes(f, l) <==> Lag(l) >= f - 1
  {
    if Lag(l) >= f - 1 {
      forall ns: seq<nat>, n: nat
        ensures Sounds(f, Calls(f, l, ns), n)
      {
        NeverUnderrunsAgain(f, l, ns, n);
      }
    } else if SafeForAllSizes(f, l) {
      var n := SomeSizeUnderruns(f, l);
      SafeNow(f, l, n);
      assert false;
    }
  }

  /** The call that completes the prefill. */
  ghost predicate Completes(f: nat, l: Level, n: nat)
    requires f > 0
  {
    !l.started && Call(f, l, n).started
  }

  /**
   No underrun after prefill: if the call that completes it has at most `f + 1`
   samples, it and every later call of any size get audio, with one constant
   delay between `f - 1` and `2 * f - 1`, the number of silent samples before.
   */
  lemma NoUnderrunAfterPrefill(f: nat, before: seq<nat>, n: nat, later: seq<nat>, last: nat, l: Level)
    requires f > 0 && n <= f + 1 && l == Calls(f, RESET, before) && Completes(f, l, n)
    ensures Sounds(f, l, n)
    ensures Sounds(f, Calls(f, Call(f, l, n), later), last)
    ensures f - 1 <= Lag(Calls(f, Call(f, l, n), later)) == l.taken <= 2 * f - 1
  {
    CallsKeep(f, before);
    ModOf(l.taken, f);
    ModOf(l.taken + n, f);
    PrefillSpan(f, l, n);
    NeverUnderrunsAgain(f, Call(f, l, n), later, last);
  }

  /** Before the prefill everything taken in is still there, and it is less than two frames. */
  lemma PrefillSpan(f: nat, l: Level, n: nat)
    requires f > 0 && Ok(f, l) && Completes(f, l, n)
    ensures l.given == 0 && l.taken < 2 * f <= l.taken + n
    ensures Sounds(f, l, n) <==> l.taken >= (l.taken + n) % f
    ensures Lag(Call(f, l, n)) == if Sounds(f, l, n) then l.taken else l.taken + n
  {
    ModOf(l.taken, f);
    MulSign(l.taken / f - 1, f);
    MulSign(l.taken / f - 2, f);
    ModMultiple(2, f);
  }

  /** `f + 1` is tight: two frames short of two, then `f + 2`, then `f - 1` samples underrun (478, 482, 479 for f = 480). */
  lemma PrefillBoundIsTight(f: nat)
    requires f >= 2
    ensures var l := Calls(f, RESET, [f - 2]);
            && Completes(f, l, f + 2) && Sounds(f, l, f + 2)
            && !Sounds(f, Call(f, l, f + 2), f - 1)
  {
    var l := Calls(f, RESET, [f - 2]);
    var none: seq<nat> := [];
    assert [f - 2][..0] == none;
    ModUnique(f - 2, 0, f - 2, f);
    assert Calls(f, RESET, none) == RESET;
    assert l == Level(f - 2, 0, false, 0);
    ModUnique(2 * f, 2, 0, f);
    ModUnique(2 * f + (f - 1), 2, f - 1, f);
  }

  // One callback size throughout.

  /** The level before call number `k` when every callback has `n` samples. */
  function Steady(f: nat, n: nat, k: nat): Level
    requires f > 0
  {
    if k == 0 then RESET else Call(f, Steady(f, n, k - 1), n)
  }

  lemma {:induction false} SteadyTaken(f: nat, n: nat, k: nat)
    requires f > 0
    ensures Steady(f, n, k).taken == k * n && Ok(f, Steady(f, n, k))
  {
    if k == 0 {
      ModUnique(0, 0, 0, f);
    } else {
      SteadyTaken(f, n, k - 1);
      CallKeeps(f, Steady(f, n, k - 1), n);
      assert k * n == (k - 1) * n + n;
    }
  }

  function MultipleMod(f: nat, n: nat, k: nat): nat
    requires f > 0
  {
    (k * n) % f
  }

  /** Whether the lag covers the incomplete frame at every multiple of `n`. */
  ghost predicate EnoughFor(f: nat, n: nat, l: Level)
    requires f > 0
  {
    forall k: nat :: MultipleMod(f, n, k) <= Lag(l)
  }

  lemma MultiplesOfWholeFrames(f: nat, n: nat, k: nat)
    requires f > 0 && n % f == 0
    ensures MultipleMod(f, n, k) == 0
  {
    var q := n / f;
    ModOf(n, f);
    assert k * n == (k * q) * f;
    ModUnique(k * n, k * q, 0, f);
  }

  lemma CompletedIsEnough(f: nat, n: nat, k: nat)
    requires f > 0 && n > 0 && Completes(f, Steady(f, n, k), n)
    ensures EnoughFor(f, n, Call(f, Steady(f, n, k), n))
  {
    var l := Steady(f, n, k);
    SteadyTaken(f, n, k);
    PrefillSpan(f, l, n);
    forall j: nat
      ensures MultipleMod(f, n, j) <= Lag(Call(f, l, n))
    {
      ModOf(j * n, f);
      if k == 0 && Sounds(f, l, n) {
        ModOf(n, f);
        MultiplesOfWholeFrames(f, n, j);
      } else if k > 0 && n > f + 1 {
        MulSign(k, n);
      }
    }
  }

  /**
   With one callback size throughout, whatever it is, every call after the one
   that completes the prefill gets audio.
   */
  lemma {:induction false} ConstantSizeNeverUnderruns(f: nat, n: nat, k: nat)
    requires f > 0 && n > 0 && Steady(f, n, k).started
    ensures EnoughFor(f, n, Steady(f, n, k)) && Sounds(f, Steady(f, n, k), n)
  {
    var l := Steady(f, n, k);
    SteadyTaken(f, n, k);
    assert k > 0;
    var b := Steady(f, n, k - 1);
    if b.started {
      SteadyTaken(f, n, k - 1);
      ConstantSizeNeverUnderruns(f, n, k - 1);
      SoundsExactly(f, b, n);
    } else {
      CompletedIsEnough(f, n, k - 1);
    }
    EnoughSounds(f, n, k, l);
  }

  lemma EnoughSounds(f: nat, n: nat, k: nat, l: Level)
    requires f > 0 && l.started && Ok(f, l) && l.taken == k * n && EnoughFor(f, n, l)
    ensures Sounds(f, l, n)
  {
    ModOf(l.taken, f);
    assert MultipleMod(f, n, k + 1) <= Lag(l);
    assert (k + 1) * n == l.taken + n;
    SoundsExactly(f, l, n);
  }

  /** So once one call gets audio all later ones do. */
  lemma ConstantSizeStaysSound(f: nat, n: nat, k: nat, m: nat)
    requires f > 0 && n > 0 && k <= m && Sounds(f, Steady(f, n, k), n)
    ensures Sounds(f, Steady(f, n, m), n)
  {
    if k < m {
      StaysStarted(f, n, k + 1, m);
      ConstantSizeNeverUnderruns(f, n, m);
    }
  }

  lemma {:induction false} StaysStarted(f: nat, n: nat, k: nat, m: nat)
    requires f > 0 && k <= m && Steady(f, n, k).started
    ensures Steady(f, n, m).started
    decreases m
  {
    if k < m {
      StaysStarted(f, n, k, m - 1);
    }
  }

  /** A silent call of `n` samples at or after prefill only happens to large callbacks, and mends the lag if `n >= f - 1`. */
  lemma SilentAfterPrefill(f: nat, l: Level, n: nat)
    requires f > 0 && Ok(f, l) && Call(f, l, n).started && !Sounds(f, l, n)
    ensures Lag(l) <= f - 2 && Lag(Call(f, l, n)) == Lag(l) + n
    ensures !l.started ==> n > f + 1
  {
    ModOf(l.taken, f);
    ModOf(l.taken + n, f);
    if l.started {
      SoundsExactly(f, l, n);
    } else {
      PrefillSpan(f, l, n);
    }
  }

  // Bounded glitches and bounded memory.

  /** Silent calls among `ns`, counted from the call that completes the prefill on. */
  function Glitches(f: nat, l: Level, ns: seq<nat>): nat
    requires f > 0
    decreases |ns|
  {
    if ns == [] then 0
    else
      var k, n := Calls(f, l, ns[..|ns| - 1]), ns[|ns| - 1];
      Glitches(f, l, ns[..|ns| - 1]) + if Call(f, k, n).started && !Sounds(f, k, n) then 1 else 0
  }

  ghost predicate AllBetween(ns: seq<nat>, lo: nat, hi: nat) {
    forall i :: 0 <= i < |ns| ==> lo <= ns[i] <= hi
  }

  /** The largest lag a started engine can have with callbacks of at most `m` samples. */
  function MaxLag(f: nat, m: nat): int {
    if 2 * f - 1 >= f - 2 + m then 2 * f - 1 else f - 2 + m
  }

  /** What a call does to the lag and to the number of glitches so far. */
  lemma LagStep(f: nat, l: Level, n: nat, m: nat, glitches: nat)
    requires f > 0 && 1 <= n <= m && LagOk(f, l, m, glitches)
    ensures LagOk(f, Call(f, l, n), m, glitches + if Call(f, l, n).started && !Sounds(f, l, n) then 1 else 0)
  {
    CallKeeps(f, l, n);
    if Call(f, l, n).started {
      if !Sounds(f, l, n) {
        SilentAfterPrefill(f, l, n);
      } else if !l.started {
        PrefillSpan(f, l, n);
      }
    } else {
      UnstartedSpan(f, Call(f, l, n));
    }
  }

  ghost predicate LagOk(f: nat, l: Level, m: nat, glitches: nat)
    requires f > 0
  {
    && Ok(f, l)
    && 0 <= Lag(l) <= MaxLag(f, m)
    && glitches <= f - 1
    && if l.started then glitches <= Lag(l) else glitches == 0
  }

  lemma {:induction false} LagBound(f: nat, ns: seq<nat>, m: nat)
    requires f > 0 && AllBetween(ns, 1, m)
    ensures LagOk(f, Calls(f, RESET, ns), m, Glitches(f, RESET, ns))
    decreases |ns|
  {
    if ns == [] {
      ResetOk(f);
    } else {
      hide Call, Sounds, LagOk;
      var before := ns[..|ns| - 1];
      LagBound(f, before, m);
      LagStep(f, Calls(f, RESET, before), ns[|ns| - 1], m, Glitches(f, RESET, before));
    }
  }

  lemma UnstartedSpan(f: nat, l: Level)
    requires f > 0 && Ok(f, l) && !l.started
    ensures Lag(l) == l.taken <= 2 * f - 1
  {
    ModOf(l.taken, f);
    MulSign(l.taken / f - 1, f);
    MulSign(l.taken / f - 2, f);
  }

  /** At most `f - 1` calls are silent from the completion of the prefill on (479 for f = 480). */
  lemma BoundedGlitches(f: nat, ns: seq<nat>, m: nat)
    requires f > 0 && AllBetween(ns, 1, m)
    ensures Glitches(f, RESET, ns) <= f - 1
  {
    LagBound(f, ns, m);
  }

  /** What the output buffer holds: the part already read plus what is waiting. */
  function OutputSize(f: nat, l: Level): int
    requires f > 0
  {
    l.readPos + Waiting(f, l)
  }

  /** With callbacks of at most `m` samples the output buffer stays below `4 * f + m` (1919 + m for f = 480). */
  lemma BoundedMemory(f: nat, ns: seq<nat>, m: nat)
    requires f > 0 && AllBetween(ns, 1, m)
    ensures var l := Calls(f, RESET, ns); l.readPos <= OutputSize(f, l) <= 2 * f + MaxLag(f, m) <= 4 * f - 1 + m
  {
    hide Calls;
    LagBound(f, ns, m);
    ModOf(Calls(f, RESET, ns).taken, f);
  }

  /** The output buffer after the frames of a call were pushed and before any of it was read. */
  function PeakOutput(f: nat, l: Level, n: nat): int
    requires f > 0
  {
    l.readPos + Processed(f, l.taken + n) - l.given
  }

  /** The input buffer after a call's samples were appended and before any frame was processed. */
  function PeakInput(f: nat, l: Level, n: nat): int
    requires f > 0
  {
    l.taken % f + n
  }

  /** Callbacks of 128 samples, as configured: neither buffer outgrows the 1920 samples reserved for it, even within a call. */
  lemma {:induction false} ReservedIsEnough(k: nat)
    ensures PeakInput(480, Steady(480, 128, k), 128) <= 1920
    ensures PeakOutput(480, Steady(480, 128, k), 128) <= 1920
  {
    var l := Steady(480, 128, k);
    Steady128(k);
    SteadyTaken(480, 128, k);
  }

  lemma {:induction false} Steady128(k: nat)
    ensures var l := Steady(480, 128, k);
            && l.readPos % 128 == 0 && l.readPos <= 960
            && (l.started <==> k >= 8)
            && (if k >= 8 then Lag(l) == 896 else l.given == 0 && l.readPos == 0)
  {
    hide Call, Sounds;
    SteadyTaken(480, 128, k);
    if k > 0 {
      Steady128(k - 1);
      SteadyTaken(480, 128, k - 1);
      if k > 8 {
        ConstantSizeNeverUnderruns(480, 128, k - 1);
      }
      Step128(Steady(480, 128, k - 1), k - 1);
    }
  }

  lemma Step128(l: Level, k: nat)
    requires l.taken == k * 128 && l.readPos % 128 == 0 && l.readPos <= 960 && (l.started <==> k >= 8)
    requires if k >= 8 then Lag(l) == 896 && Sounds(480, l, 128) else l.given == 0 && l.readPos == 0
    ensures var l' := Call(480, l, 128);
            && l'.readPos % 128 == 0 && l'.readPos <= 960
            && (l'.started <==> k + 1 >= 8)
            && (if k + 1 >= 8 then Lag(l') == 896 else l'.given == 0 && l'.readPos == 0)
  {
  }
}
