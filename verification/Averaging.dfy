/** What the engine's first step makes of interleaved channels, without naming the sum it computes. */
module Averaging {
  import opened EngineSpec

  // Sums.

  lemma SumSnoc(xs: seq<real>, x: real)
    ensures Sum(xs + [x]) == Sum(xs) + x
  {
    assert (xs + [x])[..|xs|] == xs;
  }

  lemma {:induction false} SumAppend(xs: seq<real>, ys: seq<real>)
    ensures Sum(xs + ys) == Sum(xs) + Sum(ys)
    decreases |ys|
  {
    if ys == [] {
      assert xs + ys == xs;
    } else {
      var n := |ys| - 1;
      SumAppend(xs, ys[..n]);
      SumSnoc(xs + ys[..n], ys[n]);
      assert xs + ys[..n] + [ys[n]] == xs + ys;
    }
  }

  lemma SumWithout(xs: seq<real>, i: nat)
    requires i < |xs|
    ensures Sum(xs) == Sum(xs[..i] + xs[i + 1..]) + xs[i]
  {
    hide Sum;
    SumAppend(xs[..i], xs[i + 1..]);
    SumSnoc(xs[..i], xs[i]);
    SumAppend(xs[..i] + [xs[i]], xs[i + 1..]);
    assert xs[..i] + [xs[i]] + xs[i + 1..] == xs;
  }

  lemma MultisetWithout(xs: seq<real>, i: nat)
    requires i < |xs|
    ensures multiset(xs[..i] + xs[i + 1..]) == multiset(xs) - multiset{xs[i]}
  {
    assert xs == xs[..i] + [xs[i]] + xs[i + 1..];
  }

  lemma {:induction false} SumPermutes(xs: seq<real>, ys: seq<real>)
    requires multiset(xs) == multiset(ys)
    ensures Sum(xs) == Sum(ys)
    decreases |xs|
  {
    hide Sum;
    assert |multiset(xs)| == |xs| && |multiset(ys)| == |ys|;
    if xs == [] {
      assert ys == [];
    } else {
      var n := |xs| - 1;
      assert xs[n] in multiset(ys);
      var i :| 0 <= i < |ys| && ys[i] == xs[n];
      MultisetWithout(xs, n);
      MultisetWithout(ys, i);
      SumPermutes(xs[..n] + xs[n + 1..], ys[..i] + ys[i + 1..]);
      SumWithout(xs, n);
      SumWithout(ys, i);
    }
  }

  lemma {:induction false} SumAdds(xs: seq<real>, ys: seq<real>, zs: seq<real>)
    requires |xs| == |ys| == |zs| && forall i :: 0 <= i < |zs| ==> zs[i] == xs[i] + ys[i]
    ensures Sum(zs) == Sum(xs) + Sum(ys)
    decreases |xs|
  {
    if xs != [] {
      var n := |xs| - 1;
      SumAdds(xs[..n], ys[..n], zs[..n]);
    }
  }

  lemma {:induction false} SumOfEqual(xs: seq<real>, v: real)
    requires forall i :: 0 <= i < |xs| ==> xs[i] == v
    ensures Sum(xs) == |xs| as real * v
    decreases |xs|
  {
    if xs != [] {
      SumOfEqual(xs[..|xs| - 1], v);
    }
  }

  lemma SumOfTwo(xs: seq<real>)
    requires |xs| == 2
    ensures Sum(xs) == xs[0] + xs[1]
  {
    var none := xs[..0];
    SumSnoc(none, xs[0]);
    SumSnoc(none + [xs[0]], xs[1]);
    assert xs == none + [xs[0]] + [xs[1]];
  }

  // Frames.

  /** The samples of frame `i` on all channels. */
  function FrameAt(xs: seq<real>, channels: nat, n: nat, i: nat): (frame: seq<real>)
    requires |xs| == n * channels && i < n
    ensures |frame| == channels
  {
    FrameFits(i, n, channels);
    xs[i * channels..i * channels + channels]
  }

  /** Stereo: the mono sample is half of left plus right. */
  lemma StereoIsHalved(xs: seq<real>, n: nat, i: nat)
    requires |xs| == n * 2 && i < n
    ensures 2.0 * Mono(xs, 2, n)[i] == xs[2 * i] + xs[2 * i + 1]
  {
    SumOfTwo(FrameAt(xs, 2, n, i));
  }

  /** No channel is preferred: rearranging samples within their frames changes nothing. */
  lemma ChannelsCommute(xs: seq<real>, ys: seq<real>, channels: nat, n: nat)
    requires channels > 0 && |xs| == |ys| == n * channels
    requires forall i :: 0 <= i < n ==> multiset(FrameAt(xs, channels, n, i)) == multiset(FrameAt(ys, channels, n, i))
    ensures Mono(xs, channels, n) == Mono(ys, channels, n)
  {
    forall i | 0 <= i < n
      ensures Mono(xs, channels, n)[i] == Mono(ys, channels, n)[i]
    {
      SumPermutes(FrameAt(xs, channels, n, i), FrameAt(ys, channels, n, i));
    }
  }

  /** Mixing two inputs before or after the average is the same. */
  lemma MonoAdds(xs: seq<real>, ys: seq<real>, zs: seq<real>, channels: nat, n: nat, i: nat)
    requires channels > 0 && |xs| == |ys| == |zs| == n * channels && i < n
    requires forall k :: 0 <= k < |zs| ==> zs[k] == xs[k] + ys[k]
    ensures Mono(zs, channels, n)[i] == Mono(xs, channels, n)[i] + Mono(ys, channels, n)[i]
  {
    FrameFits(i, n, channels);
    SumAdds(FrameAt(xs, channels, n, i), FrameAt(ys, channels, n, i), FrameAt(zs, channels, n, i));
    Distributes(Sum(FrameAt(xs, channels, n, i)), Sum(FrameAt(ys, channels, n, i)), channels as real);
  }

  lemma Distributes(a: real, b: real, c: real)
    requires c != 0.0
    ensures (a + b) / c == a / c + b / c
  {
  }

  /** A frame of equal samples averages to that sample. */
  lemma EqualFrame(xs: seq<real>, channels: nat, n: nat, i: nat, v: real)
    requires channels > 0 && |xs| == n * channels && i < n
    requires forall k :: 0 <= k < channels ==> FrameAt(xs, channels, n, i)[k] == v
    ensures Mono(xs, channels, n)[i] == v
  {
    hide Sum;
    SumOfEqual(FrameAt(xs, channels, n, i), v);
    TimesThenOver(channels as real, v);
  }

  lemma TimesThenOver(c: real, v: real)
    requires c != 0.0
    ensures c * v / c == v
  {
  }

  /** What the engine's last step spreads over the channels its first step takes back. */
  lemma MonoOfInterleaved(xs: seq<real>, channels: nat)
    requires channels > 0
    ensures Mono(Interleaved(xs, channels), channels, |xs|) == xs
  {
    hide Mono, Interleaved, FrameAt;
    var all := Interleaved(xs, channels);
    forall i | 0 <= i < |xs|
      ensures Mono(all, channels, |xs|)[i] == xs[i]
    {
      SameInFrame(xs, channels, i);
      EqualFrame(all, channels, |xs|, i, xs[i]);
    }
  }

  lemma SameInFrame(xs: seq<real>, channels: nat, i: nat)
    requires channels > 0 && i < |xs|
    ensures forall k :: 0 <= k < channels ==> FrameAt(Interleaved(xs, channels), channels, |xs|, i)[k] == xs[i]
  {
    WholeFrameAlike(xs, channels, i, i * channels);
    hide Interleaved;
    var frame := FrameAt(Interleaved(xs, channels), channels, |xs|, i);
    forall k | 0 <= k < channels
      ensures frame[k] == xs[i]
    {
      assert frame[k] == Interleaved(xs, channels)[i * channels + k];
    }
  }
}
