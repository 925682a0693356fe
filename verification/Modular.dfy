/** Facts about remainders that rings and hash tables need. */
module Modular {

  lemma Multiple(d: int, n: int)
    requires n >= 0
    ensures d >= 1 ==> n * d >= n
    ensures d <= -1 ==> n * d <= -n
    ensures d * n == n * d
  {
  }

  lemma ModSame(a: int, b: int, k: int, n: nat)
    requires n > 0 && a == b + k * n
    ensures a % n == b % n
  {
    var qa, qb := a / n, b / n;
    assert a - b == n * (qa - qb) + (a % n - b % n);
    var d := k - qa + qb;
    assert n * k == k * n;
    assert n * d == a % n - b % n by {
      assert n * d == n * k - n * (qa - qb);
    }
    Multiple(d, n);
  }

  lemma ModShift(a: int, d: int, n: nat)
    requires n > 0
    ensures (a % n + d) % n == (a + d) % n
  {
    var k := a / n;
    assert a + d == (a % n + d) + k * n;
    ModSame(a + d, a % n + d, k, n);
  }

  lemma ModSmall(p: nat, n: nat)
    requires p < n
    ensures p % n == p
  {
  }

  lemma ModInjective(a: int, b: int, n: nat)
    requires n > 0 && a <= b < a + n && a % n == b % n
    ensures a == b
  {
    var ka, kb := a / n, b / n;
    assert a == ka * n + a % n && b == kb * n + b % n;
    var d := kb - ka;
    assert b - a == d * n by { assert kb * n - ka * n == d * n; }
    Multiple(d, n);
  }
}
