/** Remainders. */
module Modular {

  lemma MultipleBounds(m: nat, d: int)
    ensures d >= 1 ==> m * d >= m
    ensures d <= -1 ==> m * d <= -(m as int)
  {
    if d >= 1 {
      assert m * d == m + m * (d - 1);
    } else if d <= -1 {
      assert m * d == -(m as int) + m * (d + 1);
    }
  }

  lemma ModUnique(a: int, q: int, r: nat, m: nat)
    requires r < m && a == q * m + r
    ensures a % m == r
  {
    var d := a / m - q;
    assert m * d == r - a % m;
    MultipleBounds(m, d);
  }

  lemma ModPlus(a: int, b: int, m: nat)
    requires m > 0
    ensures (a % m + b) % m == (a + b) % m
  {
    var c := a % m + b;
    var q, p := a / m, c / m;
    assert a + b == (q + p) * m + c % m by {
      assert a + b == q * m + c;
      assert c == p * m + c % m;
      assert (q + p) * m == q * m + p * m;
    }
    ModUnique(a + b, q + p, c % m, m);
  }
}
