/** The sorts that the block layout calls, on any total preorder. */
module Sorting {
  import opened Lists

  ghost predicate TotalPreorder<T(!new)>(before: (T, T) -> bool) {
    && (forall a, b :: before(a, b) || before(b, a))
    && (forall a, b, c :: before(a, b) && before(b, c) ==> before(a, c))
  }

  ghost predicate Sorted<T>(s: seq<T>, before: (T, T) -> bool) {
    forall i, j :: 0 <= i < j < |s| ==> before(s[i], s[j])
  }

  /** x goes in before the first element it may come before. */
  method Insert<T(!new)>(s: seq<T>, x: T, before: (T, T) -> bool) returns (r: seq<T>)
    requires TotalPreorder(before) && Sorted(s, before)
    ensures Sorted(r, before) && multiset(r) == multiset(s) + multiset{x}
  {
    var p := 0;
    while p < |s| && !before(x, s[p])
      invariant p <= |s| && forall i :: 0 <= i < p ==> before(s[i], x)
    {
      p := p + 1;
    }
    r := s[..p] + [x] + s[p..];
    assert s == s[..p] + s[p..];
    InsertedSorted(s, x, p, before);
  }

  lemma InsertedSorted<T(!new)>(s: seq<T>, x: T, p: nat, before: (T, T) -> bool)
    requires TotalPreorder(before) && Sorted(s, before) && p <= |s|
    requires (forall i :: 0 <= i < p ==> before(s[i], x)) && (p < |s| ==> before(x, s[p]))
    ensures Sorted(s[..p] + [x] + s[p..], before)
  {
    var r := s[..p] + [x] + s[p..];
    forall k | p <= k < |s| ensures before(x, s[k]) {
      if k > p {
        assert before(s[p], s[k]);
      }
    }
    forall i, j | 0 <= i < j < |r| ensures before(r[i], r[j]) {
      var a, b := if i <= p then i else i - 1, if j <= p then j else j - 1;
      assert r[i] == if i == p then x else s[a];
      assert r[j] == if j == p then x else s[b];
    }
  }

  method Sort<T(!new)>(s: seq<T>, before: (T, T) -> bool) returns (r: seq<T>)
    requires TotalPreorder(before)
    ensures Sorted(r, before) && multiset(r) == multiset(s)
  {
    r := [];
    for i := 0 to |s|
      invariant Sorted(r, before) && multiset(r) == multiset(s[..i])
    {
      assert s[..i + 1] == s[..i] + [s[i]];
      r := Insert(r, s[i], before);
    }
    assert s[..|s|] == s;
  }

  lemma SameMembers<T>(a: seq<T>, b: seq<T>)
    requires multiset(a) == multiset(b)
    ensures |a| == |b| && forall x :: x in a <==> x in b
  {
    assert |a| == |multiset(a)| == |multiset(b)| == |b|;
    forall x ensures x in a <==> x in b {
      assert x in a <==> x in multiset(a);
      assert x in b <==> x in multiset(b);
    }
  }

  lemma {:induction false} NoDupCount<T>(s: seq<T>, x: T)
    requires NoDup(s)
    ensures multiset(s)[x] <= 1
  {
    if |s| > 0 {
      NoDupCount(s[1..], x);
      assert s == [s[0]] + s[1..];
      assert multiset(s) == multiset{s[0]} + multiset(s[1..]);
    }
  }

  /** A permutation of a list without duplicates has none. */
  lemma PermutedNoDup<T>(a: seq<T>, b: seq<T>)
    requires NoDup(a) && multiset(a) == multiset(b)
    ensures NoDup(b)
  {
    forall i, j | 0 <= i < j < |b| ensures b[i] != b[j] {
      NoDupCount(a, b[i]);
      assert b == b[..j] + b[j..];
      assert multiset(b) == multiset(b[..j]) + multiset(b[j..]);
      assert b[i] in b[..j] && b[j] in b[j..];
    }
  }
}
