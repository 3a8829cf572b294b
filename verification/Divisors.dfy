/** Greatest common divisors, as far as ring progress needs them. */
module Divisors {
  import opened Arith

  function Gcd(a: nat, b: nat): (g: nat)
    requires a > 0 || b > 0
    ensures g > 0
    decreases b
  {
    if b == 0 then a else Gcd(b, a % b)
  }

  lemma MultipleIffMod(x: int, q: int, g: int)
    requires g > 0 && x == q * g
    ensures x % g == 0
  {
    ModUnique(x, q, 0, g);
  }

  lemma DividesCombination(b: nat, c: nat, d: nat, g: nat)
    requires g > 0 && b % g == 0 && c % g == 0
    ensures (d * b + c) % g == 0
  {
    ModOf(b, g);
    ModOf(c, g);
    var p, q := b / g, c / g;
    assert d * b + c == (d * p + q) * g by {
      assert d * (p * g) == (d * p) * g;
    }
    MultipleIffMod(d * b + c, d * p + q, g);
  }

  lemma {:induction false} GcdDivides(a: nat, b: nat)
    requires a > 0 || b > 0
    ensures a % Gcd(a, b) == 0 && b % Gcd(a, b) == 0
    decreases b
  {
    if b == 0 {
      MultipleIffMod(a, 1, a);
      MultipleIffMod(0, 0, a);
    } else {
      GcdDivides(b, a % b);
      DividesCombination(b, a % b, a / b, Gcd(b, a % b));
    }
  }

  lemma {:induction false} Bezout(a: nat, b: nat) returns (x: int, y: int)
    requires a > 0 || b > 0
    ensures x * a + y * b == Gcd(a, b)
    decreases b
  {
    if b == 0 {
      x, y := 1, 0;
    } else {
      var u, v := Bezout(b, a % b);
      ModOf(a, b);
      x, y := v, u - v * (a / b);
      assert x * a + y * b == v * (a - (a / b) * b) + u * b;
    }
  }

  /** Two multiples of `g`, one below the other, are at least `g` apart. */
  lemma MultiplesApart(u: int, m: int, g: int)
    requires g > 0 && u % g == 0 && m % g == 0 && u < m
    ensures u <= m - g
  {
    ModOf(u, g);
    ModOf(m, g);
    MulSign(u / g - m / g + 1, g);
    MulSign(u / g - m / g, g);
  }

  lemma SumOfMultiples(a: int, b: int, g: int)
    requires g > 0 && a % g == 0 && b % g == 0
    ensures (a + b) % g == 0 && (a - b) % g == 0
  {
    ModOf(a, g);
    ModOf(b, g);
    MultipleIffMod(a + b, a / g + b / g, g);
    MultipleIffMod(a - b, a / g - b / g, g);
  }
}
