/**
 Sums of integer-valued functions over the rows of a table, and the laws the
 ledgers rely on: appending, updating one row, permuting rows, and summing a
 two-way table by rows or by columns.

 A summand that depends on a parameter (a cashbox, an account) is always a named
 function returning a lambda, so that two mentions of it are the same function.
 */
module Sums {

  function Sum<T>(f: T -> int, s: seq<T>): int {
    if |s| == 0 then 0 else Sum(f, s[..|s| - 1]) + f(s[|s| - 1])
  }

  lemma SumSnoc<T>(f: T -> int, s: seq<T>, x: T)
    ensures Sum(f, s + [x]) == Sum(f, s) + f(x)
  {
    assert (s + [x])[..|s|] == s;
  }

  lemma {:induction false} SumCat<T>(f: T -> int, s: seq<T>, t: seq<T>)
    ensures Sum(f, s + t) == Sum(f, s) + Sum(f, t)
  {
    if |t| == 0 {
      assert s + t == s;
    } else {
      var front := t[..|t| - 1];
      assert s + t == (s + front) + [t[|t| - 1]];
      SumSnoc(f, s + front, t[|t| - 1]);
      SumCat(f, s, front);
    }
  }

  lemma {:induction false} SumSet<T>(f: T -> int, s: seq<T>, i: nat, x: T)
    requires i < |s|
    ensures Sum(f, s[i := x]) == Sum(f, s) - f(s[i]) + f(x)
  {
    var n := |s| - 1;
    if i == n {
      assert s[i := x][..n] == s[..n];
    } else {
      assert s[i := x][..n] == s[..n][i := x];
      SumSet(f, s[..n], i, x);
    }
  }

  lemma {:induction false} SumSame<T>(f: T -> int, g: T -> int, s: seq<T>)
    requires forall i :: 0 <= i < |s| ==> f(s[i]) == g(s[i])
    ensures Sum(f, s) == Sum(g, s)
  {
    if |s| > 0 {
      SumSame(f, g, s[..|s| - 1]);
    }
  }

  /** Summands may be added pointwise. */
  lemma {:induction false} SumAdd<T>(f: T -> int, g: T -> int, h: T -> int, s: seq<T>)
    requires forall i :: 0 <= i < |s| ==> f(s[i]) == g(s[i]) + h(s[i])
    ensures Sum(f, s) == Sum(g, s) + Sum(h, s)
  {
    if |s| > 0 {
      SumAdd(f, g, h, s[..|s| - 1]);
    }
  }

  lemma {:induction false} SumZero<T>(f: T -> int, s: seq<T>)
    requires forall i :: 0 <= i < |s| ==> f(s[i]) == 0
    ensures Sum(f, s) == 0
  {
    if |s| > 0 {
      SumZero(f, s[..|s| - 1]);
    }
  }

  /** Only row `k` has a nonzero summand. */
  lemma {:induction false} SumOnly<T>(f: T -> int, s: seq<T>, k: nat)
    requires k < |s|
    requires forall i :: 0 <= i < |s| && i != k ==> f(s[i]) == 0
    ensures Sum(f, s) == f(s[k])
  {
    var n := |s| - 1;
    if k == n {
      SumZero(f, s[..n]);
    } else {
      SumOnly(f, s[..n], k);
    }
  }

  lemma {:induction false} SumRemove<T>(f: T -> int, s: seq<T>, i: nat)
    requires i < |s|
    ensures Sum(f, s) == Sum(f, s[..i] + s[i + 1..]) + f(s[i])
  {
    assert s == s[..i] + ([s[i]] + s[i + 1..]);
    SumCat(f, s[..i], [s[i]] + s[i + 1..]);
    SumCat(f, [s[i]], s[i + 1..]);
    SumCat(f, s[..i], s[i + 1..]);
    SumSnoc(f, [], s[i]);
    assert [] + [s[i]] == [s[i]];
  }

  /** A sum depends on the rows as a bag, not on their order. */
  lemma {:induction false} SumPermuted<T>(f: T -> int, s: seq<T>, t: seq<T>)
    requires multiset(s) == multiset(t)
    ensures Sum(f, s) == Sum(f, t)
    decreases |s|
  {
    if |s| == 0 {
      assert |multiset(t)| == 0;
    } else {
      var n := |s| - 1;
      assert s == s[..n] + [s[n]];
      assert s[n] in multiset(t);
      var i :| 0 <= i < |t| && t[i] == s[n];
      assert t == t[..i] + [t[i]] + t[i + 1..];
      assert multiset(t[..i] + t[i + 1..]) == multiset(t) - multiset{t[i]};
      assert multiset(s[..n]) == multiset(s) - multiset{s[n]};
      SumPermuted(f, s[..n], t[..i] + t[i + 1..]);
      SumRemove(f, t, i);
    }
  }

  // A two-way table h, summed along its rows and along its columns.

  function Along<A, B>(h: (A, B) -> int, a: A): B -> int { b => h(a, b) }

  function Across<A, B>(h: (A, B) -> int, b: B): A -> int { a => h(a, b) }

  function RowSums<A, B>(h: (A, B) -> int, bs: seq<B>): A -> int { a => Sum(Along(h, a), bs) }

  function ColumnSums<A, B>(h: (A, B) -> int, as_: seq<A>): B -> int { b => Sum(Across(h, b), as_) }

  lemma {:induction false} SumExchange<A, B>(h: (A, B) -> int, as_: seq<A>, bs: seq<B>)
    ensures Sum(RowSums(h, bs), as_) == Sum(ColumnSums(h, as_), bs)
  {
    if |as_| == 0 {
      SumZero(ColumnSums(h, as_), bs);
    } else {
      var n := |as_| - 1;
      SumExchange(h, as_[..n], bs);
      SumAdd(ColumnSums(h, as_), ColumnSums(h, as_[..n]), Along(h, as_[n]), bs);
    }
  }

  /** Dropping rows whose summand is zero does not change a sum. */
  function Keep<T>(p: T -> bool, s: seq<T>): (r: seq<T>)
    ensures forall x :: x in r ==> x in s && p(x)
  {
    if |s| == 0 then []
    else Keep(p, s[..|s| - 1]) + if p(s[|s| - 1]) then [s[|s| - 1]] else []
  }

  lemma {:induction false} SumKeep<T>(f: T -> int, p: T -> bool, s: seq<T>)
    requires forall i :: 0 <= i < |s| && !p(s[i]) ==> f(s[i]) == 0
    ensures Sum(f, Keep(p, s)) == Sum(f, s)
  {
    if |s| > 0 {
      var n := |s| - 1;
      SumKeep(f, p, s[..n]);
      if p(s[n]) {
        SumSnoc(f, Keep(p, s[..n]), s[n]);
      } else {
        assert Keep(p, s) == Keep(p, s[..n]);
      }
    }
  }

  lemma {:induction false} SumBounded<T>(f: T -> int, g: T -> int, s: seq<T>)
    requires forall i :: 0 <= i < |s| ==> -g(s[i]) <= f(s[i]) <= g(s[i])
    ensures -Sum(g, s) <= Sum(f, s) <= Sum(g, s)
  {
    if |s| > 0 {
      SumBounded(f, g, s[..|s| - 1]);
    }
  }

  lemma SumTwo<T>(f: T -> int, a: T, b: T)
    ensures Sum(f, [a, b]) == f(a) + f(b)
  {
    SumSnoc(f, [], a);
    SumSnoc(f, [a], b);
    assert [] + [a] == [a] && [a] + [b] == [a, b];
  }

  lemma KeepSnoc<T>(p: T -> bool, s: seq<T>, x: T)
    ensures Keep(p, s + [x]) == Keep(p, s) + if p(x) then [x] else []
  {
    assert (s + [x])[..|s|] == s;
  }

  lemma KeepTwo<T>(p: T -> bool, a: T, b: T)
    ensures Keep(p, [a, b]) == (if p(a) then [a] else []) + (if p(b) then [b] else [])
  {
    KeepSnoc(p, [], a);
    KeepSnoc(p, [a], b);
    assert [] + [a] == [a] && [a] + [b] == [a, b];
  }

  lemma {:induction false} SumPairs<T>(a: T -> int, b: T -> int, c: T -> int, d: T -> int, s: seq<T>)
    requires forall i :: 0 <= i < |s| ==> a(s[i]) + b(s[i]) == c(s[i]) + d(s[i])
    ensures Sum(a, s) + Sum(b, s) == Sum(c, s) + Sum(d, s)
  {
    if |s| > 0 {
      SumPairs(a, b, c, d, s[..|s| - 1]);
    }
  }

  /** Filtering a bag. */
  lemma {:induction false} KeepPermuted<T>(p: T -> bool, s: seq<T>)
    ensures forall x :: multiset(Keep(p, s))[x] == if p(x) then multiset(s)[x] else 0
  {
    if |s| > 0 {
      var n := |s| - 1;
      assert s == s[..n] + [s[n]];
      KeepPermuted(p, s[..n]);
    }
  }

  lemma {:induction false} KeepCat<T>(p: T -> bool, s: seq<T>, t: seq<T>)
    ensures Keep(p, s + t) == Keep(p, s) + Keep(p, t)
  {
    if |t| == 0 {
      assert s + t == s;
    } else {
      var n := |t| - 1;
      assert s + t == (s + t[..n]) + [t[n]] && t == t[..n] + [t[n]];
      KeepSnoc(p, s + t[..n], t[n]);
      KeepSnoc(p, t[..n], t[n]);
      KeepCat(p, s, t[..n]);
    }
  }

  lemma {:induction false} SumPointwise<T, U>(f: T -> int, g: U -> int, s: seq<T>, r: seq<U>)
    requires |s| == |r| && forall i :: 0 <= i < |s| ==> f(s[i]) == g(r[i])
    ensures Sum(f, s) == Sum(g, r)
  {
    if |s| > 0 {
      SumPointwise(f, g, s[..|s| - 1], r[..|r| - 1]);
    }
  }
}
