/** Go's `sort.Slice` and `sort.Strings`, seen only through what they promise:
    some permutation of the input in which no element is less than an earlier one.
    Neither is stable, so callers may rely on nothing else. The result is
    nevertheless determined as soon as `less` tells distinct elements apart. */
module Ordering {

  ghost predicate StrictOrder<T(!new)>(less: (T, T) -> bool) {
    && (forall a :: !less(a, a))
    && (forall a, b, c :: less(a, b) && less(b, c) ==> less(a, c))
  }

  ghost predicate TellsApart<T>(less: (T, T) -> bool, s: seq<T>) {
    forall a, b | a in s && b in s && a != b :: less(a, b) || less(b, a)
  }

  ghost predicate Sorted<T>(less: (T, T) -> bool, s: seq<T>) {
    forall i, j | 0 <= i < j < |s| :: !less(s[j], s[i])
  }

  lemma MultisetMembers<T>(s: seq<T>, t: seq<T>)
    requires multiset(s) == multiset(t)
    ensures |s| == |t|
    ensures forall x :: x in s <==> x in t
  {
    assert |multiset(s)| == |s| && |multiset(t)| == |t|;
    forall x ensures x in s <==> x in t {
      assert x in s <==> x in multiset(s);
      assert x in t <==> x in multiset(t);
    }
  }

  lemma HeadsAgree<T>(less: (T, T) -> bool, r: seq<T>, t: seq<T>)
    requires r != [] && multiset(r) == multiset(t)
    requires Sorted(less, r) && Sorted(less, t)
    requires TellsApart(less, r)
    ensures t != [] && r[0] == t[0]
  {
    MultisetMembers(r, t);
    assert r[0] in t && t[0] in r;
  }

  lemma TailsAgree<T>(r: seq<T>, t: seq<T>)
    requires r != [] && t != [] && r[0] == t[0]
    requires multiset(r) == multiset(t)
    ensures multiset(r[1..]) == multiset(t[1..])
  {
    assert r == [r[0]] + r[1..] && t == [t[0]] + t[1..];
    assert multiset(r[1..]) == multiset(r) - multiset{r[0]};
    assert multiset(t[1..]) == multiset(t) - multiset{t[0]};
  }

  // Whatever an unstable sort does, its output is the same.
  lemma {:induction false} SortedUnique<T>(less: (T, T) -> bool, r: seq<T>, t: seq<T>)
    requires multiset(r) == multiset(t)
    requires Sorted(less, r) && Sorted(less, t)
    requires TellsApart(less, r)
    ensures r == t
  {
    assert |multiset(r)| == |multiset(t)|;
    if r != [] {
      HeadsAgree(less, r, t);
      TailsAgree(r, t);
      SortedUnique(less, r[1..], t[1..]);
      assert r == [r[0]] + r[1..] && t == [t[0]] + t[1..];
    }
  }

  function Insert<T>(less: (T, T) -> bool, x: T, s: seq<T>): (r: seq<T>)
    ensures multiset(r) == multiset(s) + multiset{x}
  {
    if s == [] then [x]
    else if less(x, s[0]) then [x] + s
    else
      assert s == [s[0]] + s[1..];
      [s[0]] + Insert(less, x, s[1..])
  }

  lemma {:induction false} InsertSorted<T(!new)>(less: (T, T) -> bool, x: T, s: seq<T>)
    requires StrictOrder(less)
    requires Sorted(less, s)
    ensures Sorted(less, Insert(less, x, s))
  {
    if s != [] && !less(x, s[0]) {
      InsertSorted(less, x, s[1..]);
      var rest := Insert(less, x, s[1..]);
      forall y | y in rest ensures !less(y, s[0]) {
        assert y in multiset(rest);
      }
    } else if s != [] {
      forall y | y in s ensures !less(y, x) {
        assert !less(y, s[0]);
      }
    }
  }

  /** The specification of a sort: the elements of `s`, in order. */
  function SortBy<T(!new)>(less: (T, T) -> bool, s: seq<T>): (r: seq<T>)
    requires StrictOrder(less)
    ensures multiset(r) == multiset(s)
    ensures Sorted(less, r)
  {
    if s == [] then []
    else
      assert s == [s[0]] + s[1..];
      var rest := SortBy(less, s[1..]);
      InsertSorted(less, s[0], rest);
      Insert(less, s[0], rest)
  }

  lemma SortByPermutation<T(!new)>(less: (T, T) -> bool, s: seq<T>, t: seq<T>)
    requires StrictOrder(less)
    requires multiset(s) == multiset(t)
    requires TellsApart(less, s)
    ensures SortBy(less, s) == SortBy(less, t)
  {
    MultisetMembers(s, SortBy(less, s));
    SortedUnique(less, SortBy(less, s), SortBy(less, t));
  }

  /** `sort.Slice`: the contract promises a sorted permutation and nothing about
      the order of elements `less` does not separate. */
  method SortSlice<T(!new)>(less: (T, T) -> bool, s: seq<T>) returns (r: seq<T>)
    requires StrictOrder(less)
    ensures multiset(r) == multiset(s)
    ensures Sorted(less, r)
  {
    r := [];
    for i := 0 to |s|
      invariant multiset(r) == multiset(s[..i])
      invariant Sorted(less, r)
    {
      assert s[..i + 1] == s[..i] + [s[i]];
      InsertSorted(less, s[i], r);
      r := Insert(less, s[i], r);
    }
    assert s[..|s|] == s;
  }

  // ----- Go's string order (bytewise on UTF-8, which is the order of code points)

  predicate StringLess(a: string, b: string) {
    if b == "" then false
    else if a == "" then true
    else a[0] < b[0] || (a[0] == b[0] && StringLess(a[1..], b[1..]))
  }

  lemma StringLessIrreflexive(a: string)
    ensures !StringLess(a, a)
  {
  }

  lemma {:induction false} StringLessTransitive(a: string, b: string, c: string)
    requires StringLess(a, b) && StringLess(b, c)
    ensures StringLess(a, c)
  {
    if a != "" && a[0] == b[0] == c[0] {
      StringLessTransitive(a[1..], b[1..], c[1..]);
    }
  }

  lemma {:induction false} StringLessTotal(a: string, b: string)
    requires a != b
    ensures StringLess(a, b) || StringLess(b, a)
  {
    if a != "" && b != "" && a[0] == b[0] {
      assert a == [a[0]] + a[1..] && b == [b[0]] + b[1..];
      StringLessTotal(a[1..], b[1..]);
    }
  }

  lemma StringLessStrict()
    ensures StrictOrder(StringLess)
  {
    forall a, b, c | StringLess(a, b) && StringLess(b, c) ensures StringLess(a, c) {
      StringLessTransitive(a, b, c);
    }
    forall a ensures !StringLess(a, a) { StringLessIrreflexive(a); }
  }

  lemma StringLessTellsApart(s: seq<string>)
    ensures TellsApart(StringLess, s)
  {
    forall a, b | a != b ensures StringLess(a, b) || StringLess(b, a) { StringLessTotal(a, b); }
  }

  // a comes before b in a dictionary: they part at position n, where a ends or is smaller.
  ghost predicate PartAt(a: string, b: string, n: nat) {
    && n < |b| && n <= |a| && a[..n] == b[..n]
    && (n == |a| || a[n] < b[n])
  }

  ghost predicate DictionaryBefore(a: string, b: string) { exists n :: PartAt(a, b, n) }

  lemma {:induction false} StringLessParts(a: string, b: string) returns (n: nat)
    requires StringLess(a, b)
    ensures PartAt(a, b, n)
  {
    if a == "" || a[0] < b[0] {
      n := 0;
    } else {
      var m := StringLessParts(a[1..], b[1..]);
      n := m + 1;
      assert a == [a[0]] + a[1..] && b == [b[0]] + b[1..];
      assert a[..n] == [a[0]] + a[1..][..m] && b[..n] == [b[0]] + b[1..][..m];
    }
  }

  lemma {:induction false} PartsStringLess(a: string, b: string, n: nat)
    requires PartAt(a, b, n)
    ensures StringLess(a, b)
  {
    if n > 0 {
      assert a[..n][0] == a[0] && b[..n][0] == b[0];
      assert a[1..][..n - 1] == a[..n][1..] && b[1..][..n - 1] == b[..n][1..];
      PartsStringLess(a[1..], b[1..], n - 1);
    }
  }

  /** Go's order of strings is the dictionary order. */
  lemma StringLessIsDictionary(a: string, b: string)
    ensures StringLess(a, b) <==> DictionaryBefore(a, b)
  {
    if StringLess(a, b) { var n := StringLessParts(a, b); }
    if DictionaryBefore(a, b) {
      var n :| PartAt(a, b, n);
      PartsStringLess(a, b, n);
    }
  }
}
