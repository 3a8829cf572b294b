/** Stretches of samples: silence, and two-channel audio that carries the same sample on both channels. */
module Samples {

  function Zeros(n: nat): (r: seq<real>)
    ensures |r| == n && forall k :: 0 <= k < n ==> r[k] == 0.0
  {
    seq(n, _ => 0.0)
  }

  /** Interleaved two-channel audio with the same sample on both channels. */
  ghost predicate IsStereo(xs: seq<real>) {
    |xs| % 2 == 0 && forall i :: 0 <= i < |xs| / 2 ==> xs[2 * i] == xs[2 * i + 1]
  }

  lemma StereoJoin(xs: seq<real>, ys: seq<real>)
    requires IsStereo(xs) && IsStereo(ys)
    ensures IsStereo(xs + ys)
  {
    var zs := xs + ys;
    forall i | 0 <= i < |zs| / 2
      ensures zs[2 * i] == zs[2 * i + 1]
    {
      if 2 * i >= |xs| {
        var k := i - |xs| / 2;
        assert ys[2 * k] == ys[2 * k + 1];
      }
    }
  }

  lemma StereoSlice(xs: seq<real>, a: nat, b: nat)
    requires IsStereo(xs) && a <= b <= |xs| && a % 2 == 0 && b % 2 == 0
    ensures IsStereo(xs[a..b])
  {
    forall i | 0 <= i < |xs[a..b]| / 2
      ensures xs[a..b][2 * i] == xs[a..b][2 * i + 1]
    {
      assert xs[2 * (a / 2 + i)] == xs[2 * (a / 2 + i) + 1];
    }
  }
}
