/** Freezing the input of an evaluation: NewSnapshot. */
module Freezing {
  import opened Wrappers
  import opened Records
  import opened Ordering
  import opened Sequences
  import opened Independence
  import Statements

  // The order of both snapshots and score steps: raw independence key, then ID.
  predicate KeyThenIdLess(k: string, i: nat, l: string, j: nat) {
    if k == l then i < j else StringLess(k, l)
  }

  predicate StoredBefore(a: Safeguard, b: Safeguard) {
    KeyThenIdLess(a.independenceKey, a.id, b.independenceKey, b.id)
  }

  predicate LayerBefore(a: Layer, b: Layer) {
    KeyThenIdLess(a.independenceKey, a.id, b.independenceKey, b.id)
  }

  lemma KeyThenIdTransitive(k: string, i: nat, l: string, j: nat, m: string, n: nat)
    requires KeyThenIdLess(k, i, l, j) && KeyThenIdLess(l, j, m, n)
    ensures KeyThenIdLess(k, i, m, n)
  {
    if k != l && l != m {
      StringLessTransitive(k, l, m);
      if k == m { StringLessIrreflexive(k); }
    }
  }

  lemma StoredBeforeStrict()
    ensures StrictOrder(StoredBefore)
  {
    forall a, b, c | StoredBefore(a, b) && StoredBefore(b, c) ensures StoredBefore(a, c) {
      KeyThenIdTransitive(a.independenceKey, a.id, b.independenceKey, b.id, c.independenceKey, c.id);
    }
  }

  lemma LayerBeforeStrict()
    ensures StrictOrder(LayerBefore)
  {
    forall a, b, c | LayerBefore(a, b) && LayerBefore(b, c) ensures LayerBefore(a, c) {
      KeyThenIdTransitive(a.independenceKey, a.id, b.independenceKey, b.id, c.independenceKey, c.id);
    }
  }

  lemma KeyThenIdTotal(k: string, i: nat, l: string, j: nat)
    requires i != j
    ensures KeyThenIdLess(k, i, l, j) || KeyThenIdLess(l, j, k, i)
  {
    if k != l { StringLessTotal(k, l); }
  }

  function StoredIds(s: seq<Safeguard>): seq<nat> { MapSeq((g: Safeguard) => g.id, s) }

  ghost predicate DistinctStoredIds(s: seq<Safeguard>) { NoDuplicates(StoredIds(s)) }

  lemma StoredTellsApart(s: seq<Safeguard>)
    requires DistinctStoredIds(s)
    ensures TellsApart(StoredBefore, s)
  {
    forall a, b | a in s && b in s && a != b ensures StoredBefore(a, b) || StoredBefore(b, a) {
      var i :| 0 <= i < |s| && s[i] == a;
      var j :| 0 <= j < |s| && s[j] == b;
      assert StoredIds(s)[i] != StoredIds(s)[j];
      KeyThenIdTotal(a.independenceKey, a.id, b.independenceKey, b.id);
    }
  }

  lemma LayersTellApart(s: seq<Layer>)
    requires DistinctIds(s)
    ensures TellsApart(LayerBefore, s)
  {
    forall a, b | a in s && b in s && a != b ensures LayerBefore(a, b) || LayerBefore(b, a) {
      if a.id == b.id { DistinctElements(s, a, b); }
      KeyThenIdTotal(a.independenceKey, a.id, b.independenceKey, b.id);
    }
  }

  // One safeguard, with its verification time cut to whole seconds.
  function Freeze(g: Safeguard): Layer {
    SnapshotSafeguard(g.id, g.name, g.kind, g.independenceKey, g.effectiveness, g.testIntervalDays,
      if g.lastVerifiedAt.None? then None else Some(TruncateToSecond(g.lastVerifiedAt.value)),
      g.lifecycle, g.evidenceNote)
  }

  function FrozenNode(n: ProcessNode): SnapshotNode {
    SnapshotNode(n.id, n.nodeCode, n.name, n.unitName, n.medium, n.designPressure, n.designTemperature)
  }

  function FrozenScenario(s: DeviationScenario): SnapshotScenario {
    SnapshotScenario(s.id, s.guideword, s.parameter, s.cause, s.consequence, s.likelihood, s.severity, s.state, s.version)
  }

  function SnapshotOf(node: ProcessNode, scenario: DeviationScenario, safeguards: seq<Safeguard>, reference: Time): Snapshot {
    StoredBeforeStrict();
    Snapshot(VERSION, TruncateToSecond(reference), FrozenNode(node), FrozenScenario(scenario),
      MapSeq(Freeze, SortBy(StoredBefore, safeguards)))
  }

  method NewSnapshot(node: ProcessNode, scenario: DeviationScenario, safeguards: seq<Safeguard>, reference: Time)
    returns (snapshot: Snapshot)
    requires DistinctStoredIds(safeguards)
    ensures snapshot == SnapshotOf(node, scenario, safeguards, reference)
    ensures DistinctIds(snapshot.safeguards)
  {
    StoredBeforeStrict();
    var ordered := SortSlice(StoredBefore, safeguards);
    FrozenOrderDetermined(safeguards, ordered);
    var frozen := FreezeAll(ordered);
    snapshot := Snapshot(VERSION, TruncateToSecond(reference),
      SnapshotNode(node.id, node.nodeCode, node.name, node.unitName, node.medium, node.designPressure, node.designTemperature),
      SnapshotScenario(scenario.id, scenario.guideword, scenario.parameter, scenario.cause, scenario.consequence,
        scenario.likelihood, scenario.severity, scenario.state, scenario.version),
      frozen);
    SnapshotIdsDistinct(node, scenario, safeguards, reference);
  }

  method FreezeAll(ordered: seq<Safeguard>) returns (frozen: seq<Layer>)
    ensures frozen == MapSeq(Freeze, ordered)
  {
    frozen := [];
    for i := 0 to |ordered|
      invariant frozen == MapSeq(Freeze, ordered[..i])
    {
      var item := ordered[i];
      var verified := None;
      if item.lastVerifiedAt.Some? {
        verified := Some(TruncateToSecond(item.lastVerifiedAt.value));
      }
      frozen := frozen + [SnapshotSafeguard(item.id, item.name, item.kind, item.independenceKey, item.effectiveness,
        item.testIntervalDays, verified, item.lifecycle, item.evidenceNote)];
    }
    assert ordered[..|ordered|] == ordered;
  }

  lemma FrozenOrderDetermined(safeguards: seq<Safeguard>, ordered: seq<Safeguard>)
    requires StrictOrder(StoredBefore)
    requires DistinctStoredIds(safeguards)
    requires multiset(ordered) == multiset(safeguards) && Sorted(StoredBefore, ordered)
    ensures ordered == SortBy(StoredBefore, safeguards)
  {
    StoredTellsApart(safeguards);
    MultisetMembers(safeguards, ordered);
    SortedUnique(StoredBefore, ordered, SortBy(StoredBefore, safeguards));
  }

  // However the database lists the safeguards, the same input is frozen.
  lemma SnapshotIgnoresListing(node: ProcessNode, scenario: DeviationScenario, s: seq<Safeguard>, t: seq<Safeguard>, reference: Time)
    requires DistinctStoredIds(s)
    requires multiset(s) == multiset(t)
    ensures SnapshotOf(node, scenario, s, reference) == SnapshotOf(node, scenario, t, reference)
  {
    StoredBeforeStrict();
    StoredTellsApart(s);
    SortByPermutation(StoredBefore, s, t);
  }

  lemma SnapshotMembers(node: ProcessNode, scenario: DeviationScenario, s: seq<Safeguard>, reference: Time, g: Layer)
    ensures g in SnapshotOf(node, scenario, s, reference).safeguards <==> exists h :: h in s && g == Freeze(h)
  {
    StoredBeforeStrict();
    var ordered := SortBy(StoredBefore, s);
    MultisetMembers(ordered, s);
    hide Sorted, StrictOrder, StoredBefore, Freeze;
    assert SnapshotOf(node, scenario, s, reference).safeguards == MapSeq(Freeze, ordered);
    FrozenMembers(ordered, g);
  }

  lemma FrozenMembers(s: seq<Safeguard>, g: Layer)
    ensures g in MapSeq(Freeze, s) <==> exists h :: h in s && g == Freeze(h)
  {
    hide Freeze;
    var frozen := MapSeq(Freeze, s);
    assert forall i | 0 <= i < |s| :: s[i] in s && frozen[i] in frozen;
    if h :| h in s && g == Freeze(h) {
      var i :| 0 <= i < |s| && s[i] == h;
      assert frozen[i] == g;
    }
  }

  lemma SnapshotIdsDistinct(node: ProcessNode, scenario: DeviationScenario, s: seq<Safeguard>, reference: Time)
    requires DistinctStoredIds(s)
    ensures DistinctIds(SnapshotOf(node, scenario, s, reference).safeguards)
  {
    StoredBeforeStrict();
    var ordered := SortBy(StoredBefore, s);
    MapPermutation((g: Safeguard) => g.id, s, ordered);
    PermutationKeepsDistinct(StoredIds(s), StoredIds(ordered));
    assert Ids(MapSeq(Freeze, ordered)) == StoredIds(ordered);
  }

  // ----- cutting times to whole seconds errs on one side only

  lemma TruncationKeepsOrder(t: Time, u: Time, days: int)
    ensures t <= AddDays(u, days) ==> TruncateToSecond(t) <= AddDays(TruncateToSecond(u), days)
    ensures TruncateToSecond(t) <= AddDays(TruncateToSecond(u), days) ==> t < AddDays(u, days) + SECOND
  {
    assert AddDays(TruncateToSecond(u), days) == TruncateToSecond(AddDays(u, days)) by {
      assert DAY == 86_400 * SECOND;
      assert (u + days * DAY) % SECOND == (u + (days * 86_400) * SECOND) % SECOND == u % SECOND;
    }
    if t <= AddDays(u, days) { FloorMonotone(t, AddDays(u, days)); }
    if AddDays(u, days) + SECOND <= t { FloorMonotone(AddDays(u, days) + SECOND, t); }
    assert (AddDays(u, days) + SECOND) % SECOND == AddDays(u, days) % SECOND;
  }

  lemma FloorMonotone(t: Time, u: Time)
    requires t <= u
    ensures TruncateToSecond(t) <= TruncateToSecond(u)
  {
  }

  lemma FreezingIsOneSided(fold: Statements.Folding, g: Safeguard, t: Time)
    requires g.effectiveness <= 1.0 && fold.Key(g.independenceKey) != ""
    ensures var a := Assessment(fold, TruncateToSecond(t));
      && (g.IsEffectiveAt(t) ==> a.Eligible(Freeze(g)))
      && (a.Eligible(Freeze(g)) ==>
            g.VerificationExpiresAt().Some? && g.lifecycle == Active && g.effectiveness > 0.0
            && t < g.VerificationExpiresAt().value + SECOND)
  {
    if g.lastVerifiedAt.Some? {
      TruncationKeepsOrder(t, g.lastVerifiedAt.value, g.testIntervalDays);
    }
  }

  // ----- what is frozen

  // t is u without its fraction of a second.
  predicate WholeSecond(t: Time, u: Time) { t % 1_000_000_000 == 0 && t <= u < t + 1_000_000_000 }

  /** A snapshot takes over what the evaluation needs of the node and of the scenario. */
  lemma SnapshotCopies(node: ProcessNode, scenario: DeviationScenario, s: seq<Safeguard>, reference: Time)
    ensures var r := SnapshotOf(node, scenario, s, reference);
      && r.algorithmVersion == "hazop-cover-v1.0.0" && WholeSecond(r.referenceTime, reference)
      && r.node.id == node.id && r.node.nodeCode == node.nodeCode && r.node.name == node.name
      && r.node.unitName == node.unitName && r.node.medium == node.medium
      && r.node.designPressure == node.designPressure && r.node.designTemperature == node.designTemperature
      && r.scenario.id == scenario.id && r.scenario.guideword == scenario.guideword && r.scenario.parameter == scenario.parameter
      && r.scenario.cause == scenario.cause && r.scenario.consequence == scenario.consequence
      && r.scenario.likelihood == scenario.likelihood && r.scenario.severity == scenario.severity
      && r.scenario.state == scenario.state && r.scenario.version == scenario.version
      && |r.safeguards| == |s|
  {
    StoredBeforeStrict();
    MultisetMembers(SortBy(StoredBefore, s), s);
    hide StoredBefore, Freeze;
  }

  // And of a safeguard everything but its target and verifier.
  lemma FreezeCopies(g: Safeguard)
    ensures var r := Freeze(g);
      && r.id == g.id && r.name == g.name && r.kind == g.kind && r.independenceKey == g.independenceKey
      && r.effectiveness == g.effectiveness && r.testIntervalDays == g.testIntervalDays
      && r.lifecycle == g.lifecycle && r.evidenceNote == g.evidenceNote
      && (r.lastVerifiedAt.Some? <==> g.lastVerifiedAt.Some?)
      && (g.lastVerifiedAt.Some? ==> WholeSecond(r.lastVerifiedAt.value, g.lastVerifiedAt.value))
  {
  }

  /** The safeguards stand in the dictionary order of their raw keys, lower IDs first. */
  lemma SnapshotOrder(node: ProcessNode, scenario: DeviationScenario, s: seq<Safeguard>, reference: Time, i: nat, j: nat)
    requires DistinctStoredIds(s)
    requires i < j < |SnapshotOf(node, scenario, s, reference).safeguards|
    ensures var g, h := SnapshotOf(node, scenario, s, reference).safeguards[i], SnapshotOf(node, scenario, s, reference).safeguards[j];
      if g.independenceKey == h.independenceKey then g.id < h.id else DictionaryBefore(g.independenceKey, h.independenceKey)
  {
    StoredBeforeStrict();
    SnapshotIdsDistinct(node, scenario, s, reference);
    var ordered := SortBy(StoredBefore, s);
    var r := SnapshotOf(node, scenario, s, reference).safeguards;
    assert Ids(r)[i] != Ids(r)[j];
    assert r[i] == Freeze(ordered[i]) && r[j] == Freeze(ordered[j]);
    assert !StoredBefore(ordered[j], ordered[i]);
    hide Sorted, StrictOrder;
    KeyThenIdTotal(r[i].independenceKey, r[i].id, r[j].independenceKey, r[j].id);
    StringLessIsDictionary(r[i].independenceKey, r[j].independenceKey);
  }

  /** A stored safeguard is effective exactly while it is active, does protect and its
      evidence has not run out. */
  lemma EffectiveExactly(g: Safeguard, at: Time)
    ensures g.IsEffectiveAt(at) <==>
      && g.lifecycle == Active && g.effectiveness > 0.0 && g.lastVerifiedAt.Some? && g.testIntervalDays >= 1
      && at <= g.lastVerifiedAt.value + g.testIntervalDays * 86_400_000_000_000
  {
  }
}
