/** Division by a variable, which the solver does not do by itself. */
module Arithmetic {
  lemma ModUnique(v: nat, m: nat, q: int, r: nat)
    requires m > 0 && v == q * m + r && r < m
    ensures v % m == r && v / m == q
  {
    var d := v / m - q;
    assert d * m == v / m * m - q * m;
    AtLeast(d, m);
  }

  lemma {:induction false} AtLeast(d: int, m: nat)
    ensures d > 0 ==> d * m >= m
    ensures d < 0 ==> d * m + m <= 0
    decreases if d < 0 then -d else d
  {
    if d > 1 { AtLeast(d - 1, m); } else if d < -1 { AtLeast(d + 1, m); }
  }

  lemma DivMod(v: nat, p: nat)
    requires p > 0
    ensures v / p >= 0 && v == v / p * p + v % p && 0 <= v % p < p
  {
  }

  lemma Distribute(a: int, b: int, c: int)
    ensures (a + b) * c == a * c + b * c
  {
  }

  lemma Associate(a: int, b: int, c: int)
    ensures a * b * c == a * (b * c)
  {
  }
}
