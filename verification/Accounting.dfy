/** Every safeguard is accounted for exactly once, and resolving again changes nothing. */
module Accounting {
  import opened Ordering
  import opened Sequences
  import opened Independence
  import opened Protection

  function IgnoredIds(d: seq<Deduplication>): seq<nat> {
    if d == [] then [] else IgnoredIds(d[..|d| - 1]) + d[|d| - 1].ignoredIds
  }

  function RejectedIds(r: seq<Rejection>): seq<nat> { MapSeq((x: Rejection) => x.id, r) }

  // The IDs of the groups named by keys, with multiplicity.
  ghost function GroupIds(a: Assessment, s: seq<Layer>, keys: seq<string>): multiset<nat> {
    if keys == [] then multiset{}
    else GroupIds(a, s, keys[..|keys| - 1]) + multiset(Ids(a.Group(s, keys[|keys| - 1])))
  }

  lemma IdsAppend(s: seq<Layer>, t: seq<Layer>)
    ensures Ids(s + t) == Ids(s) + Ids(t)
  {
  }

  lemma RejectedIdsAppend(s: seq<Rejection>, t: seq<Rejection>)
    ensures RejectedIds(s + t) == RejectedIds(s) + RejectedIds(t)
  {
  }

  lemma RankedIds(a: Assessment, s: seq<Layer>, k: string)
    ensures multiset(Ids(a.Ranked(s, k))) == multiset(Ids(a.Group(s, k)))
  {
    BetterStrict();
    MapPermutation((g: Layer) => g.id, a.Ranked(s, k), a.Group(s, k));
  }

  lemma RankedSplit(a: Assessment, s: seq<Layer>, k: string)
    requires a.Group(s, k) != []
    ensures var r := a.Ranked(s, k);
      multiset(Ids(a.Group(s, k))) == multiset{r[0].id} + multiset(Ids(r[1..]))
  {
    var r := a.Ranked(s, k);
    RankedIds(a, s, k);
    assert r == [r[0]] + r[1..];
    IdsAppend([r[0]], r[1..]);
    assert Ids([r[0]]) == [r[0].id];
  }

  // One more key: its group splits into the layer retained and those ignored.
  lemma RetainedStep(a: Assessment, s: seq<Layer>, keys: seq<string>)
    requires keys != [] && forall k | k in keys :: a.Group(s, k) != []
    ensures var n := |keys| - 1;
      forall k | k in keys[..n] :: a.Group(s, k) != []
    ensures var n := |keys| - 1;
      multiset(Ids(a.Retained(s, keys))) + multiset(IgnoredIds(a.Deduplicated(s, keys)))
      == multiset(Ids(a.Retained(s, keys[..n]))) + multiset(IgnoredIds(a.Deduplicated(s, keys[..n])))
         + multiset(Ids(a.Group(s, keys[n])))
  {
    hide Ids, IgnoredIds, Assessment.Ranked, Assessment.Group;
    var n := |keys| - 1;
    assert keys[n] in keys;
    var r := a.Ranked(s, keys[n]);
    RankedSplit(a, s, keys[n]);
    IdsStep(a.Retained(s, keys));
    assert a.Retained(s, keys)[..n] == a.Retained(s, keys[..n]);
    IgnoredStep(a.Deduplicated(s, keys[..n]), keys[n], r);
  }

  lemma {:induction false} RetainedPlusIgnored(a: Assessment, s: seq<Layer>, keys: seq<string>)
    requires forall k | k in keys :: a.Group(s, k) != []
    ensures multiset(Ids(a.Retained(s, keys))) + multiset(IgnoredIds(a.Deduplicated(s, keys)))
         == GroupIds(a, s, keys)
  {
    if keys != [] {
      hide Ids, IgnoredIds, Assessment.Retained, Assessment.Deduplicated, Assessment.Group;
      RetainedStep(a, s, keys);
      RetainedPlusIgnored(a, s, keys[..|keys| - 1]);
    }
  }

  lemma IgnoredStep(d: seq<Deduplication>, k: string, r: seq<Layer>)
    requires r != []
    ensures IgnoredIds(if |r| > 1 then d + [Deduplication(k, r[0].id, Ids(r[1..]))] else d)
         == IgnoredIds(d) + Ids(r[1..])
  {
    if |r| > 1 {
      var e := Deduplication(k, r[0].id, Ids(r[1..]));
      assert (d + [e])[..|d|] == d;
    } else {
      assert Ids(r[1..]) == [];
    }
  }

  lemma IdsStep(s: seq<Layer>)
    requires s != []
    ensures multiset(Ids(s)) == multiset(Ids(s[..|s| - 1])) + multiset{s[|s| - 1].id}
  {
    assert s == s[..|s| - 1] + [s[|s| - 1]];
    IdsAppend(s[..|s| - 1], [s[|s| - 1]]);
    assert Ids([s[|s| - 1]]) == [s[|s| - 1].id];
  }

  lemma GroupStep(a: Assessment, s: seq<Layer>, k: string)
    requires s != []
    ensures var g := s[|s| - 1];
      multiset(Ids(a.Group(s, k))) == multiset(Ids(a.Group(s[..|s| - 1], k)))
        + if a.Eligible(g) && a.Key(g) == k then multiset{g.id} else multiset{}
  {
    var g := s[|s| - 1];
    if a.Eligible(g) && a.Key(g) == k {
      var group := a.Group(s, k);
      assert group == a.Group(s[..|s| - 1], k) + [g];
      IdsStep(group);
      assert group[..|group| - 1] == a.Group(s[..|s| - 1], k);
    }
  }

  lemma RejectedStep(a: Assessment, s: seq<Layer>)
    requires s != []
    ensures var g := s[|s| - 1];
      multiset(RejectedIds(a.RejectedOf(s))) == multiset(RejectedIds(a.RejectedOf(s[..|s| - 1])))
        + if a.Eligible(g) then multiset{} else multiset{g.id}
  {
    var g := s[|s| - 1];
    if !a.Eligible(g) {
      var r := Rejection(g.id, a.RejectionReason(g).value);
      RejectedIdsAppend(a.RejectedOf(s[..|s| - 1]), [r]);
      assert RejectedIds([r]) == [g.id];
    }
  }

  lemma {:induction false} GroupIdsStep(a: Assessment, s: seq<Layer>, keys: seq<string>)
    requires s != [] && NoDuplicates(keys)
    ensures var g := s[|s| - 1];
      GroupIds(a, s, keys) == GroupIds(a, s[..|s| - 1], keys)
        + if a.Eligible(g) && a.Key(g) in keys then multiset{g.id} else multiset{}
  {
    if keys != [] {
      var n, k := |keys| - 1, a.Key(s[|s| - 1]);
      GroupIdsStep(a, s, keys[..n]);
      GroupStep(a, s, keys[n]);
      assert k in keys <==> k in keys[..n] || k == keys[n];
    }
  }

  lemma {:induction false} GroupsAndRejections(a: Assessment, s: seq<Layer>, keys: seq<string>)
    requires NoDuplicates(keys)
    requires forall g | g in s && a.Eligible(g) :: a.Key(g) in keys
    ensures GroupIds(a, s, keys) + multiset(RejectedIds(a.RejectedOf(s))) == multiset(Ids(s))
  {
    if s == [] {
      NoGroups(a, keys);
    } else {
      var n := |s| - 1;
      assert s[n] in s;
      GroupsAndRejections(a, s[..n], keys);
      GroupIdsStep(a, s, keys);
      IdsStep(s);
      RejectedStep(a, s);
    }
  }

  lemma {:induction false} NoGroups(a: Assessment, keys: seq<string>)
    ensures GroupIds(a, [], keys) == multiset{}
  {
    if keys != [] { NoGroups(a, keys[..|keys| - 1]); }
  }

  /** Conservation: retained, ignored and rejected IDs together are the input IDs,
      each as often as it came in. */
  lemma EachSafeguardCountedOnce(a: Assessment, s: seq<Layer>)
    ensures var r := a.Resolve(s);
      multiset(Ids(r.retained)) + multiset(IgnoredIds(r.deduplicated)) + multiset(RejectedIds(r.rejected))
      == multiset(Ids(s))
  {
    var keys := a.SortedKeys(s);
    ResolveBestPerKey(a, s);
    RetainedPlusIgnored(a, s, keys);
    GroupsAndRejections(a, s, keys);
    LowerIdStrict();
    MapPermutation((x: Rejection) => x.id, a.Resolve(s).rejected, a.RejectedOf(s));
  }

  // ----- idempotence

  lemma {:induction false} NothingRejected(a: Assessment, s: seq<Layer>)
    requires forall g | g in s :: a.Eligible(g)
    ensures a.RejectedOf(s) == []
  {
    if s != [] {
      assert s[|s| - 1] in s;
      NothingRejected(a, s[..|s| - 1]);
    }
  }

  lemma {:induction false} NoGroup(a: Assessment, s: seq<Layer>, k: string)
    requires forall g | g in s :: a.Key(g) != k
    ensures a.Group(s, k) == []
  {
    if s != [] {
      assert s[|s| - 1] in s;
      NoGroup(a, s[..|s| - 1], k);
    }
  }

  lemma {:induction false} LoneGroup(a: Assessment, s: seq<Layer>, i: nat)
    requires i < |s| && OnePerKey(a, s)
    requires forall g | g in s :: a.Eligible(g)
    ensures a.Group(s, a.Key(s[i])) == [s[i]]
  {
    var n := |s| - 1;
    assert s[n] in s;
    if i == n {
      NoGroup(a, s[..n], a.Key(s[n]));
    } else {
      LoneGroup(a, s[..n], i);
    }
  }

  lemma {:induction false} NothingDeduplicated(a: Assessment, s: seq<Layer>, keys: seq<string>)
    requires forall k | k in keys :: a.Group(s, k) != []
    requires forall i | 0 <= i < |keys| :: |a.Group(s, keys[i])| == 1
    ensures a.Deduplicated(s, keys) == []
  {
    if keys != [] { NothingDeduplicated(a, s, keys[..|keys| - 1]); }
  }

  lemma LoneKeys(a: Assessment, keys: seq<string>, r: seq<Layer>)
    requires NoDuplicates(keys) && Sorted(StringLess, keys) && |r| == |keys|
    requires forall i | 0 <= i < |r| :: a.Eligible(r[i]) && a.Key(r[i]) == keys[i]
    ensures keys == a.SortedKeys(r)
    ensures forall i | 0 <= i < |r| :: a.Group(r, keys[i]) == [r[i]]
  {
    forall i | 0 <= i < |r| ensures a.Group(r, keys[i]) == [r[i]] {
      LoneGroup(a, r, i);
    }
    forall k ensures k in keys <==> a.Group(r, k) != [] {
      if a.Group(r, k) != [] {
        assert a.Group(r, k)[0] in a.Group(r, k);
      }
    }
    SortedKeysDetermined(a, r, keys, keys);
  }

  lemma LoneRetained(a: Assessment, keys: seq<string>, r: seq<Layer>)
    requires forall k | k in keys :: a.Group(r, k) != []
    requires |r| == |keys|
    requires forall i | 0 <= i < |r| :: a.Group(r, keys[i]) == [r[i]]
    ensures a.Retained(r, keys) == r
  {
    var again := a.Retained(r, keys);
    forall i | 0 <= i < |keys| ensures again[i] == r[i] {
      var ranked := a.Ranked(r, keys[i]);
      assert ranked[0] in ranked;
    }
  }

  lemma ResolveLone(a: Assessment, keys: seq<string>, r: seq<Layer>)
    requires NoDuplicates(keys) && Sorted(StringLess, keys) && |r| == |keys|
    requires forall i | 0 <= i < |r| :: a.Eligible(r[i]) && a.Key(r[i]) == keys[i]
    ensures a.Resolve(r) == Resolution(r, [], [])
  {
    LoneKeys(a, keys, r);
    NothingRejected(a, r);
    NothingDeduplicated(a, r, keys);
    LoneRetained(a, keys, r);
  }

  lemma ResolvingAgainChangesNothing(a: Assessment, s: seq<Layer>)
    ensures var r := a.Resolve(s).retained; a.Resolve(r) == Resolution(r, [], [])
  {
    ResolveBestPerKey(a, s);
    var keys, r := a.SortedKeys(s), a.Resolve(s).retained;
    assert forall i | 0 <= i < |keys| :: IsBest(a, s, keys[i], r[i]);
    ResolveLone(a, keys, r);
  }

  // ----- which layer is retained, and what the report says about the others

  /** The layers retained stand in the order of their keys, and each has the highest
      effectiveness of its key and, among equals, the lowest ID. */
  lemma RetainedAreWinners(a: Assessment, s: seq<Layer>, i: nat, j: nat)
    requires i < |a.Resolve(s).retained| && j < |a.Resolve(s).retained|
    ensures var r := a.Resolve(s).retained;
      && Winner(a, s, a.Key(r[i]), r[i])
      && (i < j ==> DictionaryBefore(a.Key(r[i]), a.Key(r[j])))
  {
    var keys := a.SortedKeys(s);
    RankedFirstWins(a, s, keys[i]);
    assert a.Ranked(s, keys[j])[0] in a.Group(s, keys[j]);
    PermutationKeepsDistinct(a.GroupKeys(s), keys);
    if i < j {
      assert keys[i] != keys[j] && !StringLess(keys[j], keys[i]);
      StringLessTotal(keys[i], keys[j]);
      StringLessIsDictionary(keys[i], keys[j]);
    }
  }

  // The report names a group of at least two, its winner, and only members of the group.
  ghost predicate Truthful(a: Assessment, s: seq<Layer>, d: Deduplication) {
    && d.ignoredIds != []
    && (exists g :: Winner(a, s, d.independenceKey, g) && g.id == d.keptId)
    && (forall i | i in d.ignoredIds :: exists g :: g in s && a.Eligible(g) && a.Key(g) == d.independenceKey && g.id == i)
  }

  // The record that a key with several eligible safeguards calls for.
  function RecordFor(a: Assessment, s: seq<Layer>, k: string): Deduplication
    requires a.Group(s, k) != []
  {
    Deduplication(k, a.Ranked(s, k)[0].id, Ids(a.Ranked(s, k)[1..]))
  }

  lemma RankedTruthful(a: Assessment, s: seq<Layer>, k: string)
    requires |a.Group(s, k)| > 1
    ensures Truthful(a, s, RecordFor(a, s, k))
  {
    RankedFirstWins(a, s, k);
    var ranked := a.Ranked(s, k);
    forall i | i in Ids(ranked[1..]) ensures exists g :: g in s && a.Eligible(g) && a.Key(g) == k && g.id == i {
      var n :| 0 <= n < |ranked[1..]| && Ids(ranked[1..])[n] == i;
      assert ranked[n + 1] in ranked && ranked[n + 1].id == i;
    }
  }

  lemma {:induction false} GroupDistinct(a: Assessment, s: seq<Layer>, k: string)
    requires DistinctIds(s)
    ensures NoDuplicates(a.Group(s, k))
  {
    if s != [] {
      var n := |s| - 1;
      var rest := a.Group(s[..n], k);
      assert Ids(s[..n]) == Ids(s)[..n];
      GroupDistinct(a, s[..n], k);
      forall i | 0 <= i < |rest| ensures rest[i] != s[n] {
        assert rest[i] in rest && rest[i] in s[..n];
        var j :| 0 <= j < n && s[j] == rest[i];
        assert Ids(s)[j] != Ids(s)[n];
      }
    }
  }

  lemma WinnerIsNotIgnored(a: Assessment, s: seq<Layer>, k: string)
    requires DistinctIds(s) && a.Group(s, k) != []
    ensures a.Ranked(s, k)[0].id !in Ids(a.Ranked(s, k)[1..])
  {
    BetterStrict();
    var ranked := a.Ranked(s, k);
    GroupDistinct(a, s, k);
    PermutationKeepsDistinct(a.Group(s, k), ranked);
    hide NoDuplicates, DistinctIds, Assessment.Group, Assessment.Ranked;
    forall i | 1 <= i < |ranked| ensures ranked[i].id != ranked[0].id {
      assert ranked[i] in ranked && ranked[0] in ranked;
      RankedApart(ranked, i);
      if ranked[i].id == ranked[0].id { DistinctElements(s, ranked[i], ranked[0]); }
    }
    forall i | 0 <= i < |ranked[1..]| ensures Ids(ranked[1..])[i] != ranked[0].id {
      assert ranked[1..][i] == ranked[i + 1];
    }
  }

  lemma RankedApart(ranked: seq<Layer>, i: nat)
    requires NoDuplicates(ranked) && 1 <= i < |ranked|
    ensures ranked[i] != ranked[0]
  {
  }

  // Where a record comes from.
  lemma {:induction false} RecordOf(a: Assessment, s: seq<Layer>, keys: seq<string>, d: Deduplication)
    requires forall k | k in keys :: a.Group(s, k) != []
    requires d in a.Deduplicated(s, keys)
    ensures var k := d.independenceKey;
      |a.Group(s, k)| > 1 && d == RecordFor(a, s, k)
  {
    var n := |keys| - 1;
    assert keys[n] in keys;
    hide Assessment.Group, Ids;
    if d in a.Deduplicated(s, keys[..n]) { RecordOf(a, s, keys[..n], d); }
  }

  /** Every deduplication record names the winner of its key as kept and only other eligible
      safeguards of the same key as ignored. */
  lemma ReportIsTruthful(a: Assessment, s: seq<Layer>, d: Deduplication)
    requires d in a.Resolve(s).deduplicated
    ensures Truthful(a, s, d)
    ensures DistinctIds(s) ==> d.keptId !in d.ignoredIds
  {
    RecordOf(a, s, a.SortedKeys(s), d);
    hide DistinctIds, Truthful;
    RankedTruthful(a, s, d.independenceKey);
    if DistinctIds(s) { WinnerIsNotIgnored(a, s, d.independenceKey); }
  }

  lemma LastRecord(a: Assessment, s: seq<Layer>, keys: seq<string>)
    requires keys != [] && forall l | l in keys :: a.Group(s, l) != []
    ensures var n := |keys| - 1;
      forall l | l in keys[..n] :: a.Group(s, l) != []
    ensures var n := |keys| - 1;
      a.Deduplicated(s, keys)
      == if |a.Group(s, keys[n])| > 1 then a.Deduplicated(s, keys[..n]) + [RecordFor(a, s, keys[n])] else a.Deduplicated(s, keys[..n])
  {
    hide Assessment.Group, Assessment.Ranked, Ids;
  }

  lemma {:induction false} GroupsReported(a: Assessment, s: seq<Layer>, keys: seq<string>, k: string)
    requires forall l | l in keys :: a.Group(s, l) != []
    requires k in keys && |a.Group(s, k)| > 1
    ensures RecordFor(a, s, k) in a.Deduplicated(s, keys)
  {
    hide Assessment.Group, Assessment.Deduplicated, RecordFor;
    var n := |keys| - 1;
    LastRecord(a, s, keys);
    if k != keys[n] {
      assert k in keys[..n];
      GroupsReported(a, s, keys[..n], k);
    }
  }

  // A record that lists the whole group of its key.
  ghost predicate Lists(a: Assessment, s: seq<Layer>, d: Deduplication) {
    multiset{d.keptId} + multiset(d.ignoredIds) == multiset(Ids(a.Group(s, d.independenceKey)))
  }

  /** And every key with at least two eligible safeguards has a record, which lists its whole
      group. */
  lemma EveryGroupIsReported(a: Assessment, s: seq<Layer>, k: string)
    requires |a.Group(s, k)| > 1
    ensures exists d :: d in a.Resolve(s).deduplicated && d.independenceKey == k && Lists(a, s, d)
  {
    assert k in a.SortedKeys(s);
    GroupsReported(a, s, a.SortedKeys(s), k);
    RankedSplit(a, s, k);
    assert Lists(a, s, RecordFor(a, s, k));
  }
}
