/** Arithmetic of indices taken modulo a capacity or a frame size. */
module Arith {

  lemma MulSign(d: int, m: int)
    requires m > 0
    ensures d >= 1 ==> d * m >= m
    ensures d <= -1 ==> d * m <= -m
  {
  }

  lemma ModUnique(x: int, q: int, r: int, m: int)
    requires m > 0 && 0 <= r < m && x == q * m + r
    ensures x % m == r && x / m == q
  {
    var d := x / m - q;
    assert x == (x / m) * m + x % m;
    assert d * m == r - x % m;
    MulSign(d, m);
  }

  lemma ModOf(x: int, m: int)
    requires m > 0
    ensures x == (x / m) * m + x % m && 0 <= x % m < m
  {
  }

  /** Two positions less than one capacity apart never share a slot. */
  lemma ModInjective(i: int, j: int, m: int)
    requires m > 0 && i <= j < i + m && i % m == j % m
    ensures i == j
  {
    ModOf(i, m);
    ModOf(j, m);
    var d := j / m - i / m;
    assert d * m == j - i;
    MulSign(d, m);
  }

  /** One position further on: the next slot, or slot 0 after the last one. */
  lemma ModNext(i: int, m: int)
    requires m > 0
    ensures (i + 1) % m == if i % m + 1 == m then 0 else i % m + 1
  {
    ModOf(i, m);
    if i % m + 1 == m {
      ModUnique(i + 1, i / m + 1, 0, m);
    } else {
      ModUnique(i + 1, i / m, i % m + 1, m);
    }
  }

  /** Position `p + k` falls in the first or in the second chunk of a copy that starts at slot `p % m`. */
  lemma ModChunk(p: int, k: int, m: int)
    requires m > 0 && 0 <= k < m
    ensures (p + k) % m == if p % m + k < m then p % m + k else p % m + k - m
  {
    ModOf(p, m);
    if p % m + k < m {
      ModUnique(p + k, p / m, p % m + k, m);
    } else {
      ModUnique(p + k, p / m + 1, p % m + k - m, m);
    }
  }

  /** How far slot `j` lies ahead of position `p`. */
  lemma ModOffset(p: int, j: int, k: int, m: int)
    requires m > 0 && 0 <= j < m && 0 <= k < m
    ensures (j - p) % m == k <==> (p + k) % m == j
  {
    if (j - p) % m == k {
      ModOf(j - p, m);
      ModUnique(p + k, -((j - p) / m), j, m);
    }
    if (p + k) % m == j {
      ModOf(p + k, m);
      ModUnique(j - p, -((p + k) / m), k, m);
    }
  }

  lemma ModMultiple(q: int, m: int)
    requires m > 0
    ensures (q * m) % m == 0 && (q * m) / m == q
  {
    ModUnique(q * m, q, 0, m);
  }
}
