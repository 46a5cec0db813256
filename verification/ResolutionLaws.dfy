/** What the resolution of safeguards means, in the terms of the safeguards themselves. */
module ResolutionLaws {
  import opened Wrappers
  import opened Records
  import opened Ordering
  import opened Sequences
  import opened Independence
  import opened Protection
  import opened Accounting
  import Statements

  // ----- which safeguards count

  function FoldedKey(a: Assessment, g: Layer): string { a.fold.upper(Statements.TrimSpace(g.independenceKey)) }

  ghost predicate Evidenced(g: Layer, at: Time) {
    g.lastVerifiedAt.Some? && g.testIntervalDays >= 1 && at <= g.lastVerifiedAt.value + g.testIntervalDays * 86_400_000_000_000
  }

  /** A safeguard counts exactly when it has a key, is active, has an effectiveness in (0, 1]
      and evidence that has not run out at the reference time. */
  lemma EligibleExactly(a: Assessment, g: Layer)
    ensures a.Eligible(g) <==>
      FoldedKey(a, g) != "" && g.lifecycle == Active && 0.0 < g.effectiveness <= 1.0 && Evidenced(g, a.at)
  {
  }

  /** And otherwise the reason given is the first that applies. */
  lemma FirstReason(a: Assessment, g: Layer)
    ensures match a.RejectionReason(g)
      case Some(MissingKey) => FoldedKey(a, g) == ""
      case Some(NotActive(l)) => FoldedKey(a, g) != "" && l == g.lifecycle != Active
      case Some(EffectivenessOutOfRange) => FoldedKey(a, g) != "" && g.lifecycle == Active && !(0.0 < g.effectiveness <= 1.0)
      case Some(NoEvidence) =>
        FoldedKey(a, g) != "" && g.lifecycle == Active && 0.0 < g.effectiveness <= 1.0 && g.lastVerifiedAt.None?
      case Some(InvalidInterval) =>
        && FoldedKey(a, g) != "" && g.lifecycle == Active && 0.0 < g.effectiveness <= 1.0 && g.lastVerifiedAt.Some?
        && g.testIntervalDays <= 0
      case Some(VerificationExpired(t)) =>
        && FoldedKey(a, g) != "" && g.lifecycle == Active && 0.0 < g.effectiveness <= 1.0 && g.lastVerifiedAt.Some?
        && g.testIntervalDays >= 1 && t == g.lastVerifiedAt.value + g.testIntervalDays * 86_400_000_000_000 < a.at
      case None => true
  {
  }

  /** Two safeguards compete exactly when their keys agree up to case and surrounding blanks. */
  lemma CompeteExactly(a: Assessment, g: Layer, h: Layer)
    ensures a.Key(g) == a.Key(h) <==> FoldedKey(a, g) == FoldedKey(a, h)
    ensures a.Key(g) == FoldedKey(a, g)
  {
  }

  // ----- which of them are retained

  lemma RankedOrder(a: Assessment, s: seq<Layer>, k: string, i: nat, j: nat)
    requires i < j < |a.Ranked(s, k)|
    ensures NotAfter(a.Ranked(s, k)[i], a.Ranked(s, k)[j])
  {
    BetterStrict();
    assert !Better(a.Ranked(s, k)[j], a.Ranked(s, k)[i]);
  }

  /** For every eligible safeguard exactly one of its key is retained: the strongest, and of
      equally strong ones that with the lowest ID. */
  lemma StrongestThenLowestId(a: Assessment, s: seq<Layer>, h: Layer)
    requires h in s && a.Eligible(h)
    ensures exists i :: 0 <= i < |a.Resolve(s).retained| && Represents(a, s, h, a.Resolve(s).retained[i])
    ensures forall i, j | 0 <= i < j < |a.Resolve(s).retained| ::
        FoldedKey(a, a.Resolve(s).retained[i]) != FoldedKey(a, a.Resolve(s).retained[j])
  {
    var keys, r := a.SortedKeys(s), a.Resolve(s).retained;
    assert h in a.Group(s, a.Key(h));
    var i :| 0 <= i < |keys| && keys[i] == a.Key(h);
    RankedFirst(a, s, a.Key(h), h);
    assert Represents(a, s, h, r[i]);
    RetainedIsSelection(a, s);
  }

  ghost predicate Represents(a: Assessment, s: seq<Layer>, h: Layer, g: Layer) {
    g in s && a.Eligible(g) && FoldedKey(a, g) == FoldedKey(a, h) && NotAfter(g, h)
  }

  lemma RankedFirst(a: Assessment, s: seq<Layer>, k: string, h: Layer)
    requires h in a.Group(s, k)
    ensures a.Ranked(s, k) != [] && NotAfter(a.Ranked(s, k)[0], h) && a.Ranked(s, k)[0] in a.Group(s, k)
  {
    var ranked := a.Ranked(s, k);
    assert h in ranked && ranked[0] in ranked;
    var n :| 0 <= n < |ranked| && ranked[n] == h;
    if n > 0 { RankedOrder(a, s, k, 0, n); }
  }

  ghost predicate Ascending(keys: seq<string>) { forall i, j | 0 <= i < j < |keys| :: DictionaryBefore(keys[i], keys[j]) }

  ghost predicate RecordsAscend(d: seq<Deduplication>, keys: seq<string>) {
    && (forall i | 0 <= i < |d| :: d[i].independenceKey in keys)
    && (forall i, j | 0 <= i < j < |d| :: DictionaryBefore(d[i].independenceKey, d[j].independenceKey))
  }

  lemma OneMoreRecord(d: seq<Deduplication>, keys: seq<string>, last: Deduplication)
    requires keys != [] && Ascending(keys) && RecordsAscend(d, keys[..|keys| - 1])
    ensures RecordsAscend(d, keys)
    ensures last.independenceKey == keys[|keys| - 1] ==> RecordsAscend(d + [last], keys)
  {
    hide DictionaryBefore;
    var n := |keys| - 1;
    forall i | 0 <= i < |d| ensures d[i].independenceKey in keys && DictionaryBefore(d[i].independenceKey, keys[n]) {
      var p :| 0 <= p < n && keys[..n][p] == d[i].independenceKey;
      assert keys[p] == d[i].independenceKey;
    }
  }

  lemma {:induction false} RecordsFollowKeys(a: Assessment, s: seq<Layer>, keys: seq<string>)
    requires forall k | k in keys :: a.Group(s, k) != []
    requires Ascending(keys)
    ensures RecordsAscend(a.Deduplicated(s, keys), keys)
  {
    hide DictionaryBefore, RecordFor, Assessment.Group;
    if keys != [] {
      hide Assessment.Deduplicated, RecordsAscend;
      var n := |keys| - 1;
      LastRecord(a, s, keys);
      RecordsFollowKeys(a, s, keys[..n]);
      RecordNamed(a, s, keys[n]);
      OneMoreRecord(a.Deduplicated(s, keys[..n]), keys, RecordFor(a, s, keys[n]));
    }
  }

  lemma RecordNamed(a: Assessment, s: seq<Layer>, k: string)
    requires a.Group(s, k) != []
    ensures RecordFor(a, s, k).independenceKey == k
  {
  }

  /** The deduplication records come in the dictionary order of their keys too. */
  lemma RecordsInKeyOrder(a: Assessment, s: seq<Layer>)
    ensures forall i, j | 0 <= i < j < |a.Resolve(s).deduplicated| ::
        DictionaryBefore(a.Resolve(s).deduplicated[i].independenceKey, a.Resolve(s).deduplicated[j].independenceKey)
  {
    var keys := a.SortedKeys(s);
    PermutationKeepsDistinct(a.GroupKeys(s), keys);
    forall i, j | 0 <= i < j < |keys| ensures DictionaryBefore(keys[i], keys[j]) {
      assert keys[i] != keys[j] && !StringLess(keys[j], keys[i]);
      StringLessTotal(keys[i], keys[j]);
      StringLessIsDictionary(keys[i], keys[j]);
    }
    hide DictionaryBefore;
    RecordsFollowKeys(a, s, keys);
  }

  /** The ignored safeguards of a record are ranked the same way, and all after the one kept. */
  lemma IgnoredAreRanked(a: Assessment, s: seq<Layer>, d: Deduplication)
    requires d in a.Resolve(s).deduplicated
    ensures exists ranked: seq<Layer> :: RecordRanks(a, s, d, ranked)
  {
    RecordOf(a, s, a.SortedKeys(s), d);
    var k := d.independenceKey;
    var ranked := a.Ranked(s, k);
    forall i, j | 0 <= i < j < |ranked| ensures NotAfter(ranked[i], ranked[j]) { RankedOrder(a, s, k, i, j); }
    BetterStrict();
    assert multiset(ranked) == multiset(a.Group(s, k));
    forall g ensures g in ranked <==> g in s && a.Eligible(g) && FoldedKey(a, g) == k { }
    assert RecordRanks(a, s, d, ranked);
  }

  ghost predicate RecordRanks(a: Assessment, s: seq<Layer>, d: Deduplication, ranked: seq<Layer>) {
    && |ranked| >= 2 && d.keptId == ranked[0].id && d.ignoredIds == Ids(ranked[1..])
    && (forall g :: g in ranked <==> g in s && a.Eligible(g) && FoldedKey(a, g) == d.independenceKey)
    && (forall i, j | 0 <= i < j < |ranked| :: NotAfter(ranked[i], ranked[j]))
  }

  // ----- the others

  lemma {:induction false} RejectedOfExactly(a: Assessment, s: seq<Layer>, r: Rejection)
    ensures r in a.RejectedOf(s) <==> exists g :: g in s && a.RejectionReason(g) == Some(r.reason) && r.id == g.id
  {
    if s != [] {
      var n := |s| - 1;
      RejectedOfExactly(a, s[..n], r);
      assert s == s[..n] + [s[n]];
    }
  }

  /** Exactly the other safeguards are rejected, each with its reason, in ascending ID order. */
  lemma RejectedExactly(a: Assessment, s: seq<Layer>, r: Rejection)
    ensures r in a.Resolve(s).rejected <==> exists g :: g in s && a.RejectionReason(g) == Some(r.reason) && r.id == g.id
    ensures forall i, j | 0 <= i < j < |a.Resolve(s).rejected| :: a.Resolve(s).rejected[i].id <= a.Resolve(s).rejected[j].id
  {
    LowerIdStrict();
    RejectedOfExactly(a, s, r);
    MultisetMembers(a.Resolve(s).rejected, a.RejectedOf(s));
    var x := a.Resolve(s).rejected;
    forall i, j | 0 <= i < j < |x| ensures x[i].id <= x[j].id { assert !LowerId(x[j], x[i]); }
  }
}
