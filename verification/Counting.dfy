/** The smaller of two numbers, sums over sequences, and the pigeonhole principle. */
module Counting {

  function Min(a: int, b: int): int {
    if a < b then a else b
  }

  ghost function Sum<T>(s: seq<T>, f: T -> nat): nat {
    if s == [] then 0 else Sum(s[..|s| - 1], f) + f(s[|s| - 1])
  }

  lemma {:induction false} SumUpdate<T>(s: seq<T>, f: T -> nat, i: nat, x: T)
    requires i < |s|
    ensures Sum(s[i := x], f) == Sum(s, f) - f(s[i]) + f(x)
  {
    var n := |s| - 1;
    if i == n {
      assert s[i := x][..n] == s[..n];
    } else {
      assert s[i := x][..n] == s[..n][i := x];
      SumUpdate(s[..n], f, i, x);
    }
  }

  lemma {:induction false} SumAtLeast<T>(s: seq<T>, f: T -> nat, i: nat)
    requires i < |s|
    ensures f(s[i]) <= Sum(s, f)
  {
    if i < |s| - 1 { SumAtLeast(s[..|s| - 1], f, i); }
  }

  lemma {:induction false} SumZero<T>(s: seq<T>, f: T -> nat)
    requires forall i :: 0 <= i < |s| ==> f(s[i]) == 0
    ensures Sum(s, f) == 0
  {
    if s != [] { SumZero(s[..|s| - 1], f); }
  }

  lemma {:induction false} Pigeonhole(f: seq<nat>, n: nat)
    requires forall i, j :: 0 <= i < j < |f| ==> f[i] != f[j]
    requires forall i :: 0 <= i < |f| ==> f[i] < n
    ensures |f| <= n
    decreases n
  {
    if f != [] {
      assert f[0] < n;
      if i :| 0 <= i < |f| && f[i] == n - 1 {
        Pigeonhole(f[..i] + f[i + 1..], n - 1);
      } else {
        Pigeonhole(f, n - 1);
      }
    }
  }

  lemma AllTaken(f: seq<nat>, n: nat, w: nat)
    requires forall i, j :: 0 <= i < j < |f| ==> f[i] != f[j]
    requires forall i :: 0 <= i < |f| ==> f[i] < n
    requires |f| == n && w < n
    ensures w in f
  {
    if w !in f {
      Pigeonhole(f + [w], n);
    }
  }
}
