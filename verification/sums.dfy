/** Weighted sums over sequences.  The pool's counters are sums of this form
    over the phases of its workers and of the submissions in flight. */
module Sums {

  ghost function Sum<T>(s: seq<T>, f: T -> int): int {
    if s == [] then 0 else Sum(s[..|s| - 1], f) + f(s[|s| - 1])
  }

  lemma SumAppend<T>(s: seq<T>, x: T, f: T -> int)
    ensures Sum(s + [x], f) == Sum(s, f) + f(x)
  {
    assert (s + [x])[..|s|] == s;
  }

  lemma {:induction false} SumUpdate<T>(s: seq<T>, i: nat, x: T, f: T -> int)
    requires i < |s|
    ensures Sum(s[i := x], f) == Sum(s, f) - f(s[i]) + f(x)
  {
    var n := |s| - 1;
    if i == n {
      assert s[i := x][..n] == s[..n];
    } else {
      assert s[i := x][..n] == s[..n][i := x];
      SumUpdate(s[..n], i, x, f);
    }
  }

  /** A non-negative weight is bounded by the sum. */
  lemma {:induction false} SumBounds<T>(s: seq<T>, f: T -> int)
    requires forall x :: 0 <= f(x)
    ensures 0 <= Sum(s, f)
    ensures forall i | 0 <= i < |s| :: f(s[i]) <= Sum(s, f)
  {
    if s != [] {
      SumBounds(s[..|s| - 1], f);
    }
  }

  lemma {:induction false} SumMonotone<T>(s: seq<T>, f: T -> int, g: T -> int)
    requires forall i | 0 <= i < |s| :: f(s[i]) <= g(s[i])
    ensures Sum(s, f) <= Sum(s, g)
  {
    if s != [] {
      SumMonotone(s[..|s| - 1], f, g);
    }
  }

  /** A positive sum has a positive term. */
  lemma {:induction false} SumPositive<T>(s: seq<T>, f: T -> int) returns (i: nat)
    requires 0 < Sum(s, f)
    ensures i < |s| && 0 < f(s[i])
  {
    var n := |s| - 1;
    if 0 < f(s[n]) {
      i := n;
    } else {
      i := SumPositive(s[..n], f);
    }
  }

  lemma {:induction false} SumZero<T>(s: seq<T>, f: T -> int)
    requires forall i | 0 <= i < |s| :: f(s[i]) == 0
    ensures Sum(s, f) == 0
  {
    if s != [] {
      SumZero(s[..|s| - 1], f);
    }
  }

  lemma {:induction false} SumTwo<T>(s: seq<T>, v: nat, w: nat, f: T -> int)
    requires v < w < |s| && forall x :: 0 <= f(x)
    ensures f(s[v]) + f(s[w]) <= Sum(s, f)
  {
    var n := |s| - 1;
    if w == n {
      SumBounds(s[..n], f);
      assert s[..n][v] == s[v];
    } else {
      SumTwo(s[..n], v, w, f);
    }
  }

  lemma {:induction false} SumConcat<T>(s: seq<T>, t: seq<T>, f: T -> int)
    ensures Sum(s + t, f) == Sum(s, f) + Sum(t, f)
  {
    if t == [] {
      assert s + t == s;
    } else {
      var n := |t| - 1;
      assert s + t == s + t[..n] + [t[n]];
      SumConcat(s, t[..n], f);
      SumAppend(s + t[..n], t[n], f);
    }
  }

  /** Sequences with the same weights, but for elements of no weight at the end of
      one of them. */
  lemma {:induction false} SumPadded<T>(s: seq<T>, t: seq<T>, f: T -> int)
    requires |s| <= |t|
    requires forall i | 0 <= i < |s| :: f(t[i]) == f(s[i])
    requires forall i | |s| <= i < |t| :: f(t[i]) == 0
    ensures Sum(t, f) == Sum(s, f)
  {
    if t != [] {
      SumPadded(if |s| == |t| then s[..|s| - 1] else s, t[..|t| - 1], f);
    }
  }
}
