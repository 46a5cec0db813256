/** Facts about permutations and duplicates that the evaluation proofs share. */
module Sequences {

  function MapSeq<A, B>(f: A -> B, s: seq<A>): (r: seq<B>)
    ensures |r| == |s|
    ensures forall i | 0 <= i < |s| :: r[i] == f(s[i])
  {
    seq(|s|, i requires 0 <= i < |s| => f(s[i]))
  }

  ghost predicate NoDuplicates<T>(s: seq<T>) {
    forall i, j | 0 <= i < j < |s| :: s[i] != s[j]
  }

  lemma RemoveAt<T>(s: seq<T>, j: nat)
    requires j < |s|
    ensures multiset(s[..j] + s[j + 1..]) == multiset(s) - multiset{s[j]}
    ensures multiset(s) == multiset(s[..j] + s[j + 1..]) + multiset{s[j]}
  {
    assert s == s[..j] + [s[j]] + s[j + 1..];
  }

  lemma MapRemoveAt<A, B>(f: A -> B, s: seq<A>, j: nat)
    requires j < |s|
    ensures multiset(MapSeq(f, s)) == multiset(MapSeq(f, s[..j] + s[j + 1..])) + multiset{f(s[j])}
  {
    RemoveAt(MapSeq(f, s), j);
    assert MapSeq(f, s)[..j] + MapSeq(f, s)[j + 1..] == MapSeq(f, s[..j] + s[j + 1..]);
  }

  lemma FirstIn<T>(s: seq<T>, t: seq<T>) returns (j: nat)
    requires s != [] && multiset(s) == multiset(t)
    ensures j < |t| && t[j] == s[0]
    ensures multiset(s[..0] + s[1..]) == multiset(t[..j] + t[j + 1..])
  {
    assert s[0] in multiset(t);
    j :| 0 <= j < |t| && t[j] == s[0];
    RemoveAt(s, 0);
    RemoveAt(t, j);
  }

  lemma {:induction false} MapPermutation<A, B>(f: A -> B, s: seq<A>, t: seq<A>)
    requires multiset(s) == multiset(t)
    ensures multiset(MapSeq(f, s)) == multiset(MapSeq(f, t))
  {
    if s == [] {
      assert |multiset(t)| == 0;
    } else {
      var j := FirstIn(s, t);
      MapPermutation(f, s[..0] + s[1..], t[..j] + t[j + 1..]);
      MapRemoveAt(f, s, 0);
      MapRemoveAt(f, t, j);
    }
  }

  lemma {:induction false} NoDuplicatesCount<T>(s: seq<T>)
    ensures NoDuplicates(s) <==> forall x :: multiset(s)[x] <= 1
  {
    if s != [] {
      var front, last := s[..|s| - 1], s[|s| - 1];
      assert s == front + [last];
      NoDuplicatesCount(front);
      assert last in multiset(front) <==> last in front;
      if NoDuplicates(s) {
        assert NoDuplicates(front);
        forall x ensures multiset(s)[x] <= 1 {}
      } else if last in front {
        assert multiset(s)[last] > 1;
      } else {
        assert !NoDuplicates(front);
        var x :| multiset(front)[x] > 1;
        assert multiset(s)[x] > 1;
      }
    }
  }

  // Two duplicate-free listings of the same elements differ only in order.
  lemma SameElements<T>(s: seq<T>, t: seq<T>)
    requires NoDuplicates(s) && NoDuplicates(t)
    requires forall x :: x in s <==> x in t
    ensures multiset(s) == multiset(t)
  {
    NoDuplicatesCount(s);
    NoDuplicatesCount(t);
    forall x ensures multiset(s)[x] == multiset(t)[x] {
      assert x in s <==> x in multiset(s);
      assert x in t <==> x in multiset(t);
    }
  }

  lemma PermutationKeepsDistinct<T>(s: seq<T>, t: seq<T>)
    requires multiset(s) == multiset(t)
    requires NoDuplicates(s)
    ensures NoDuplicates(t)
  {
    NoDuplicatesCount(s);
    NoDuplicatesCount(t);
  }
}
