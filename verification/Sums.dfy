/** Sums of a weight over a sequence, for counting records by what they are doing. */
module Sums {

  function Sum<T>(s: seq<T>, w: T -> nat): nat {
    if s == [] then 0 else Sum(s[..|s| - 1], w) + w(s[|s| - 1])
  }

  lemma SumAppend<T>(s: seq<T>, x: T, w: T -> nat)
    ensures Sum(s + [x], w) == Sum(s, w) + w(x)
  {
    assert (s + [x])[..|s|] == s;
  }

  lemma {:induction false} SumUpdate<T>(s: seq<T>, i: nat, x: T, w: T -> nat)
    requires i < |s|
    ensures Sum(s[i := x], w) == Sum(s, w) - w(s[i]) + w(x)
    ensures Sum(s, w) >= w(s[i])
  {
    var n := |s| - 1;
    if i < n {
      SumUpdate(s[..n], i, x, w);
      assert s[i := x][..n] == s[..n][i := x];
    } else {
      assert s[i := x][..n] == s[..n];
    }
  }

  /** A sum dominated term by term is dominated. */
  lemma {:induction false} SumMonotone<T>(s: seq<T>, w: T -> nat, v: T -> nat)
    requires forall i :: 0 <= i < |s| ==> w(s[i]) <= v(s[i])
    ensures Sum(s, w) <= Sum(s, v)
  {
    if s != [] {
      SumMonotone(s[..|s| - 1], w, v);
    }
  }

  lemma {:induction false} SumZero<T>(s: seq<T>, w: T -> nat)
    requires forall i :: 0 <= i < |s| ==> w(s[i]) == 0
    ensures Sum(s, w) == 0
  {
    if s != [] {
      SumZero(s[..|s| - 1], w);
    }
  }
}
