/** Which safeguards of a frozen snapshot count: the eligibility filter and the
    choice of one layer per independence key. */
module Independence {
  import opened Wrappers
  import opened Records
  import opened Ordering
  import opened Sequences
  import Statements

  type Layer = SnapshotSafeguard

  datatype Reason =
    | MissingKey
    | NotActive(lifecycle: Lifecycle)
    | EffectivenessOutOfRange
    | NoEvidence
    | InvalidInterval
    | VerificationExpired(at: Time)

  datatype Rejection = Rejection(id: nat, reason: Reason)

  datatype Deduplication = Deduplication(independenceKey: string, keptId: nat, ignoredIds: seq<nat>)

  datatype Resolution = Resolution(
    retained: seq<Layer>, deduplicated: seq<Deduplication>, rejected: seq<Rejection>)

  function Ids(s: seq<Layer>): seq<nat> { MapSeq((g: Layer) => g.id, s) }

  ghost predicate DistinctIds(s: seq<Layer>) { NoDuplicates(Ids(s)) }

  // Higher effectiveness first, then the lower ID.
  predicate Better(a: Layer, b: Layer) {
    if a.effectiveness == b.effectiveness then a.id < b.id else a.effectiveness > b.effectiveness
  }

  predicate LowerId(a: Rejection, b: Rejection) { a.id < b.id }

  function IneligibleReason(g: Layer, at: Time): Option<Reason> {
    if g.lifecycle != Active then Some(NotActive(g.lifecycle))
    else if g.effectiveness <= 0.0 || g.effectiveness > 1.0 then Some(EffectivenessOutOfRange)
    else if g.lastVerifiedAt.None? then Some(NoEvidence)
    else if g.testIntervalDays <= 0 then Some(InvalidInterval)
    else
      var expires := AddDays(g.lastVerifiedAt.value, g.testIntervalDays);
      if at > expires then Some(VerificationExpired(expires)) else None
  }

  /** An assessment fixes how keys are folded and the reference time. */
  datatype Assessment = Assessment(fold: Statements.Folding, at: Time) {

    function Key(g: Layer): string { fold.Key(g.independenceKey) }

    function RejectionReason(g: Layer): Option<Reason> {
      if Key(g) == "" then Some(MissingKey) else IneligibleReason(g, at)
    }

    predicate Eligible(g: Layer) { RejectionReason(g).None? }

    function RejectedOf(s: seq<Layer>): seq<Rejection> {
      if s == [] then []
      else
        var rest, g := RejectedOf(s[..|s| - 1]), s[|s| - 1];
        if Eligible(g) then rest else rest + [Rejection(g.id, RejectionReason(g).value)]
    }

    // The eligible safeguards with the normalised key k, in input order.
    function Group(s: seq<Layer>, k: string): (r: seq<Layer>)
      ensures forall g :: g in r <==> g in s && Eligible(g) && Key(g) == k
    {
      if s == [] then []
      else
        var rest, g := Group(s[..|s| - 1], k), s[|s| - 1];
        assert s == s[..|s| - 1] + [g];
        if Eligible(g) && Key(g) == k then rest + [g] else rest
    }

    // The normalised keys of the eligible safeguards, each once.
    function GroupKeys(s: seq<Layer>): (r: seq<string>)
      ensures NoDuplicates(r)
      ensures forall k :: k in r <==> Group(s, k) != []
    {
      if s == [] then []
      else
        var g := s[|s| - 1];
        var keys := GroupKeys(s[..|s| - 1]);
        if Eligible(g) && Key(g) !in keys then keys + [Key(g)] else keys
    }

    // A group, best layer first.
    function Ranked(s: seq<Layer>, k: string): (r: seq<Layer>)
      ensures |r| == |Group(s, k)|
      ensures forall g :: g in r <==> g in Group(s, k)
    {
      BetterStrict();
      var r := SortBy(Better, Group(s, k));
      MultisetMembers(r, Group(s, k));
      r
    }

    // One layer per key, in key order.
    function Retained(s: seq<Layer>, keys: seq<string>): (r: seq<Layer>)
      requires forall k | k in keys :: Group(s, k) != []
      ensures |r| == |keys|
      ensures forall i | 0 <= i < |r| :: r[i] == Ranked(s, keys[i])[0]
    {
      seq(|keys|, i requires 0 <= i < |keys| => assert keys[i] in keys; Ranked(s, keys[i])[0])
    }

    function Deduplicated(s: seq<Layer>, keys: seq<string>): seq<Deduplication>
      requires forall k | k in keys :: Group(s, k) != []
    {
      if keys == [] then []
      else
        var n := |keys| - 1;
        assert keys[n] in keys;
        var rest, ranked := Deduplicated(s, keys[..n]), Ranked(s, keys[n]);
        if |ranked| > 1 then rest + [Deduplication(keys[n], ranked[0].id, Ids(ranked[1..]))] else rest
    }

    function SortedKeys(s: seq<Layer>): (r: seq<string>)
      ensures multiset(r) == multiset(GroupKeys(s)) && Sorted(StringLess, r)
      ensures forall k :: k in r <==> Group(s, k) != []
    {
      StringLessStrict();
      var r := SortBy(StringLess, GroupKeys(s));
      MultisetMembers(r, GroupKeys(s));
      r
    }

    /** What ResolveIndependence computes, free of its map iteration and its sorts. */
    function Resolve(s: seq<Layer>): Resolution {
      LowerIdStrict();
      var keys := SortedKeys(s);
      Resolution(Retained(s, keys), Deduplicated(s, keys), SortBy(LowerId, RejectedOf(s)))
    }
  }

  lemma BetterStrict()
    ensures StrictOrder(Better)
  {
  }

  lemma LowerIdStrict()
    ensures StrictOrder(LowerId)
  {
  }

  // ----- the imperative form

  lemma DistinctElements(s: seq<Layer>, a: Layer, b: Layer)
    requires DistinctIds(s)
    requires a in s && b in s && a.id == b.id
    ensures a == b
  {
    var i :| 0 <= i < |s| && s[i] == a;
    var j :| 0 <= j < |s| && s[j] == b;
    assert Ids(s)[i] == Ids(s)[j];
  }

  lemma BetterTellsApart(a: Assessment, s: seq<Layer>, k: string)
    requires DistinctIds(s)
    ensures TellsApart(Better, a.Group(s, k))
  {
    forall x, y | x in a.Group(s, k) && y in a.Group(s, k) && x != y
      ensures Better(x, y) || Better(y, x)
    {
      if x.id == y.id { DistinctElements(s, x, y); }
    }
  }

  lemma {:induction false} RejectedFrom(a: Assessment, s: seq<Layer>, r: Rejection)
    requires r in a.RejectedOf(s)
    ensures exists g :: g in s && !a.Eligible(g) && r == Rejection(g.id, a.RejectionReason(g).value)
  {
    var n := |s| - 1;
    assert s == s[..n] + [s[n]];
    if r in a.RejectedOf(s[..n]) { RejectedFrom(a, s[..n], r); }
  }

  lemma RejectionsTellApart(a: Assessment, s: seq<Layer>)
    requires DistinctIds(s)
    ensures TellsApart(LowerId, a.RejectedOf(s))
  {
    forall x, y | x in a.RejectedOf(s) && y in a.RejectedOf(s) && x != y
      ensures LowerId(x, y) || LowerId(y, x)
    {
      RejectedFrom(a, s, x);
      RejectedFrom(a, s, y);
      if x.id == y.id {
        var g :| g in s && !a.Eligible(g) && x == Rejection(g.id, a.RejectionReason(g).value);
        var h :| h in s && !a.Eligible(h) && y == Rejection(h.id, a.RejectionReason(h).value);
        DistinctElements(s, g, h);
      }
    }
  }

  /** The filtering loop: rejections in input order, survivors grouped by key. */
  method GroupByKey(a: Assessment, safeguards: seq<Layer>)
    returns (groups: map<string, seq<Layer>>, rejected: seq<Rejection>)
    ensures rejected == a.RejectedOf(safeguards)
    ensures forall k :: k in groups <==> a.Group(safeguards, k) != []
    ensures forall k | k in groups :: groups[k] == a.Group(safeguards, k)
  {
    groups, rejected := map[], [];
    for i := 0 to |safeguards|
      invariant rejected == a.RejectedOf(safeguards[..i])
      invariant forall k :: k in groups <==> a.Group(safeguards[..i], k) != []
      invariant forall k | k in groups :: groups[k] == a.Group(safeguards[..i], k)
    {
      var g := safeguards[i];
      assert safeguards[..i + 1][..i] == safeguards[..i];
      assert safeguards[..i + 1] != [] && safeguards[..i + 1][i] == g;
      var reason := a.RejectionReason(g);
      if reason.Some? {
        rejected := rejected + [Rejection(g.id, reason.value)];
      } else {
        var key := a.Key(g);
        groups := groups[key := (if key in groups then groups[key] else []) + [g]];
      }
    }
    assert safeguards[..|safeguards|] == safeguards;
  }

  // Any sort of a group ranks it.
  lemma RankedDetermined(a: Assessment, s: seq<Layer>, k: string, items: seq<Layer>)
    requires DistinctIds(s)
    requires multiset(items) == multiset(a.Group(s, k)) && Sorted(Better, items)
    ensures items == a.Ranked(s, k)
  {
    BetterStrict();
    BetterTellsApart(a, s, k);
    MultisetMembers(items, a.Group(s, k));
    SortedUnique(Better, items, a.Ranked(s, k));
  }

  // What one more key adds to the two results.
  lemma OneMoreKey(a: Assessment, s: seq<Layer>, keys: seq<string>, i: nat)
    requires i < |keys| && forall k | k in keys :: a.Group(s, k) != []
    ensures var ranked := a.Ranked(s, keys[i]);
      && ranked != []
      && a.Retained(s, keys[..i + 1]) == a.Retained(s, keys[..i]) + [ranked[0]]
      && a.Deduplicated(s, keys[..i + 1]) == a.Deduplicated(s, keys[..i])
           + if |ranked| > 1 then [Deduplication(keys[i], ranked[0].id, Ids(ranked[1..]))] else []
  {
    hide Assessment.Ranked, Assessment.Group, Ids;
    assert keys[..i + 1][..i] == keys[..i] && keys[..i + 1][i] == keys[i] && keys[i] in keys;
  }

  /** The choice loop: the best layer of each group is kept, the others are reported. */
  method ChooseLayers(a: Assessment, ghost s: seq<Layer>, groups: map<string, seq<Layer>>, keys: seq<string>)
    returns (retained: seq<Layer>, deduplicated: seq<Deduplication>)
    requires DistinctIds(s)
    requires forall k | k in keys :: a.Group(s, k) != [] && k in groups && groups[k] == a.Group(s, k)
    ensures retained == a.Retained(s, keys)
    ensures deduplicated == a.Deduplicated(s, keys)
  {
    hide Sorted, Better, Assessment.Ranked, Assessment.Group, Ids, DistinctIds;
    retained, deduplicated := [], [];
    for i := 0 to |keys|
      invariant retained == a.Retained(s, keys[..i])
      invariant deduplicated == a.Deduplicated(s, keys[..i])
    {
      assert keys[i] in keys;
      BetterStrict();
      var items := SortSlice(Better, groups[keys[i]]);
      RankedDetermined(a, s, keys[i], items);
      OneMoreKey(a, s, keys, i);
      retained := retained + [items[0]];
      if |items| > 1 {
        deduplicated := deduplicated + [Deduplication(keys[i], items[0].id, Ids(items[1..]))];
      }
    }
    assert keys[..|keys|] == keys;
  }

  lemma SortedKeysDetermined(a: Assessment, s: seq<Layer>, listed: seq<string>, keys: seq<string>)
    requires NoDuplicates(listed)
    requires forall k :: k in listed <==> a.Group(s, k) != []
    requires multiset(keys) == multiset(listed) && Sorted(StringLess, keys)
    ensures keys == a.SortedKeys(s)
  {
    SameElements(listed, a.GroupKeys(s));
    StringLessTellsApart(keys);
    SortedUnique(StringLess, keys, a.SortedKeys(s));
  }

  lemma SortedRejectionsDetermined(a: Assessment, s: seq<Layer>, r: seq<Rejection>)
    requires DistinctIds(s)
    requires multiset(r) == multiset(a.RejectedOf(s)) && Sorted(LowerId, r)
    ensures r == a.Resolve(s).rejected
  {
    LowerIdStrict();
    RejectionsTellApart(a, s);
    MultisetMembers(r, a.RejectedOf(s));
    SortedUnique(LowerId, r, SortBy(LowerId, a.RejectedOf(s)));
  }

  /** Groups in a map, ranges over the map in whatever order it comes, and sorts
      three times with an unstable sort. */
  method ResolveIndependence(a: Assessment, safeguards: seq<Layer>) returns (result: Resolution)
    requires DistinctIds(safeguards)
    ensures result == a.Resolve(safeguards)
  {
    var groups, rejected := GroupByKey(a, safeguards);
    var listed := MapKeys(groups);
    StringLessStrict();
    var keys := SortSlice(StringLess, listed);
    SortedKeysDetermined(a, safeguards, listed, keys);
    var retained, deduplicated := ChooseLayers(a, safeguards, groups, keys);
    LowerIdStrict();
    rejected := SortSlice(LowerId, rejected);
    SortedRejectionsDetermined(a, safeguards, rejected);
    result := Resolution(retained, deduplicated, rejected);
  }

  /** `for key := range groups`: the keys of a map, in an arbitrary order. */
  method MapKeys<V>(m: map<string, V>) returns (keys: seq<string>)
    ensures NoDuplicates(keys)
    ensures forall k :: k in keys <==> k in m
  {
    var todo := m.Keys;
    keys := [];
    while todo != {}
      invariant NoDuplicates(keys)
      invariant forall k :: k in keys <==> k in m && k !in todo
      invariant todo <= m.Keys
    {
      var k :| k in todo;
      keys := keys + [k];
      todo := todo - {k};
    }
  }
}
