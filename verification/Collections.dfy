/** Sequences used as the collections of pending objects. */
module Collections {
  /** `pending::remove`: the first occurrence goes. */
  function Without<T(==)>(s: seq<T>, x: T): seq<T> {
    if s == [] then []
    else if s[0] == x then s[1..]
    else [s[0]] + Without(s[1..], x)
  }

  predicate NoDup<T(==)>(s: seq<T>) {
    forall i, j :: 0 <= i < j < |s| ==> s[i] != s[j]
  }

  lemma {:induction false} WithoutHas<T>(s: seq<T>, x: T, y: T)
    ensures y != x ==> (y in Without(s, x) <==> y in s)
    ensures x !in s ==> Without(s, x) == s
  {
    if s != [] && s[0] != x {
      WithoutHas(s[1..], x, y);
    }
  }

  lemma {:induction false} WithoutNoDup<T>(s: seq<T>, x: T)
    requires NoDup(s)
    ensures NoDup(Without(s, x)) && x !in Without(s, x)
  {
    if s != [] {
      if s[0] != x {
        WithoutNoDup(s[1..], x);
        WithoutHas(s[1..], x, s[0]);
        assert s[0] !in s[1..];
      }
    }
  }

  /** Removal from where the first occurrence is. */
  lemma {:induction false} WithoutAt<T>(s: seq<T>, x: T, i: nat)
    requires i < |s| && s[i] == x && x !in s[..i]
    ensures Without(s, x) == s[..i] + s[i + 1..]
  {
    if i > 0 {
      assert s[0] == s[..i][0];
      assert s[1..][..i - 1] == s[..i][1..];
      WithoutAt(s[1..], x, i - 1);
    }
  }
}
