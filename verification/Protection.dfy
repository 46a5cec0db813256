/** The combined protection 1 - product(1 - e) of a choice of layers, and why the
    greedy choice of ResolveIndependence is the best one. */
module Protection {
  import opened Sequences
  import opened Independence

  // A demand that got this far with probability p gets past layer g as well.
  function Past(p: real, g: Layer): real { p * (1.0 - g.effectiveness) }

  // The probability that every layer of s fails.
  function Remaining(s: seq<Layer>): real {
    if s == [] then 1.0 else Past(Remaining(s[..|s| - 1]), s[|s| - 1])
  }

  function Combined(s: seq<Layer>): real { 1.0 - Remaining(s) }

  ghost predicate InRange(s: seq<Layer>) {
    forall g | g in s :: 0.0 < g.effectiveness <= 1.0
  }

  lemma ProductMonotone(a: real, b: real, c: real, d: real)
    requires 0.0 <= a <= b && 0.0 <= c <= d
    ensures 0.0 <= a * c <= b * d
  {
    assert a * c <= b * c;
    assert b * c <= b * d;
  }

  lemma PastMonotone(p: real, g: Layer, q: real, h: Layer)
    requires 0.0 <= p <= q && h.effectiveness <= g.effectiveness <= 1.0
    ensures 0.0 <= Past(p, g) <= Past(q, h)
  {
    ProductMonotone(p, q, 1.0 - g.effectiveness, 1.0 - h.effectiveness);
  }

  lemma PastCommutes(p: real, g: Layer, h: Layer)
    ensures Past(Past(p, g), h) == Past(Past(p, h), g)
  {
    var x, y := 1.0 - g.effectiveness, 1.0 - h.effectiveness;
    assert (p * x) * y == (p * y) * x;
  }

  lemma {:induction false} RemainingBounds(s: seq<Layer>)
    requires InRange(s)
    ensures 0.0 <= Remaining(s) <= 1.0
  {
    if s != [] {
      var g := s[|s| - 1];
      RemainingBounds(s[..|s| - 1]);
      PastMonotone(Remaining(s[..|s| - 1]), g, 1.0, g);
    }
  }

  lemma RemainingAppend(t: seq<Layer>, s: seq<Layer>, g: Layer)
    requires t == s + [g]
    ensures Remaining(t) == Past(Remaining(s), g)
  {
    assert t[..|s|] == s;
  }

  lemma {:induction false} RemainingInsert(t: seq<Layer>, x: seq<Layer>, g: Layer, y: seq<Layer>)
    requires t == x + [g] + y
    ensures Remaining(t) == Past(Remaining(x + y), g)
  {
    if y == [] {
      assert x + y == x;
      RemainingAppend(t, x, g);
    } else {
      var n := |y| - 1;
      var front, last := y[..n], y[n];
      RemainingAppend(t, x + [g] + front, last);
      RemainingAppend(x + y, x + front, last);
      RemainingInsert(x + [g] + front, x, g, front);
      PastCommutes(Remaining(x + front), g, last);
    }
  }

  lemma RemainingRemoveAt(s: seq<Layer>, j: nat)
    requires j < |s|
    ensures Remaining(s) == Past(Remaining(s[..j] + s[j + 1..]), s[j])
  {
    hide Past, Remaining;
    var x, y := s[..j], s[j + 1..];
    assert s == x + [s[j]] + y;
    RemainingInsert(s, x, s[j], y);
  }

  // The order in which layers are multiplied does not matter.
  lemma {:induction false} RemainingPermutation(s: seq<Layer>, t: seq<Layer>)
    requires multiset(s) == multiset(t)
    ensures Remaining(s) == Remaining(t)
  {
    hide Past;
    assert |multiset(s)| == |multiset(t)|;
    if s != [] {
      var n := |s| - 1;
      assert s[n] in multiset(t);
      var j :| 0 <= j < |t| && t[j] == s[n];
      RemoveAt(t, j);
      RemoveAt(s, n);
      assert s[..n] + s[n + 1..] == s[..n];
      RemainingPermutation(s[..n], t[..j] + t[j + 1..]);
      RemainingRemoveAt(t, j);
    }
  }

  lemma RemainingBoth(s: seq<Layer>, t: seq<Layer>)
    ensures Remaining(s + t) == Remaining(s) * Remaining(t)
  {
    if t == [] {
      assert s + t == s;
    } else {
      var n := |t| - 1;
      assert (s + t)[..|s| + n] == s + t[..n];
      RemainingBoth(s, t[..n]);
      var a, b, c := Remaining(s), Remaining(t[..n]), 1.0 - t[n].effectiveness;
      assert (a * b) * c == a * (b * c);
    }
  }

  /** What combined protection is: nothing protects nothing, one layer protects as it says,
      and independent choices fail together with the product of their probabilities. These
      three laws determine it for every list of layers. */
  lemma CombinedProtection(s: seq<Layer>, t: seq<Layer>, g: Layer)
    ensures Combined([]) == 0.0
    ensures Combined([g]) == g.effectiveness
    ensures Combined(s + t) == Combined(s) + Combined(t) - Combined(s) * Combined(t)
  {
    assert [g][..0] == [];
    RemainingBoth(s, t);
    var a, b := Remaining(s), Remaining(t);
    assert 1.0 - a * b == (1.0 - a) + (1.0 - b) - (1.0 - a) * (1.0 - b);
  }

  // ----- optimality

  ghost predicate OnePerKey(a: Assessment, s: seq<Layer>) {
    forall i, j | 0 <= i < j < |s| :: a.Key(s[i]) != a.Key(s[j])
  }

  /** A way of crediting protection: eligible safeguards of s, at most one per normalised key. */
  ghost predicate Selection(a: Assessment, s: seq<Layer>, choice: seq<Layer>) {
    && (forall g | g in choice :: g in s && a.Eligible(g))
    && OnePerKey(a, choice)
  }

  ghost predicate Outdone(a: Assessment, g: Layer, best: seq<Layer>) {
    exists r :: r in best && a.Key(r) == a.Key(g) && r.effectiveness >= g.effectiveness
  }

  lemma SelectionInRange(a: Assessment, s: seq<Layer>, choice: seq<Layer>)
    requires Selection(a, s, choice)
    ensures InRange(choice)
  {
  }

  // Dropping g from the choice leaves the rest outdone by the layers of other keys.
  lemma OutdoneByOthers(a: Assessment, choice: seq<Layer>, best: seq<Layer>) returns (j: nat)
    requires choice != [] && OnePerKey(a, choice)
    requires forall g | g in choice :: Outdone(a, g, best)
    ensures j < |best| && best[j].effectiveness >= choice[|choice| - 1].effectiveness
    ensures var others := best[..j] + best[j + 1..];
      forall h | h in choice[..|choice| - 1] :: Outdone(a, h, others)
  {
    var g := choice[|choice| - 1];
    assert g in choice;
    var r :| r in best && a.Key(r) == a.Key(g) && r.effectiveness >= g.effectiveness;
    j :| 0 <= j < |best| && best[j] == r;
    var others := best[..j] + best[j + 1..];
    forall h | h in choice[..|choice| - 1] ensures Outdone(a, h, others) {
      assert h in choice;
      var q :| q in best && a.Key(q) == a.Key(h) && q.effectiveness >= h.effectiveness;
      assert a.Key(h) != a.Key(g);
      assert q in others;
    }
  }

  lemma {:induction false} OutdoneCombined(a: Assessment, choice: seq<Layer>, best: seq<Layer>)
    requires InRange(choice) && InRange(best)
    requires OnePerKey(a, choice)
    requires forall g | g in choice :: Outdone(a, g, best)
    ensures Remaining(choice) >= Remaining(best)
  {
    if choice == [] {
      RemainingBounds(best);
    } else {
      var n := |choice| - 1;
      var j := OutdoneByOthers(a, choice, best);
      var others := best[..j] + best[j + 1..];
      OutdoneCombined(a, choice[..n], others);
      RemainingBounds(others);
      RemainingRemoveAt(best, j);
      assert best[j] in best && choice[n] in choice;
      PastMonotone(Remaining(others), best[j], Remaining(choice[..n]), choice[n]);
    }
  }

  // r is an eligible layer of key k that no other eligible layer of that key beats.
  ghost predicate IsBest(a: Assessment, s: seq<Layer>, k: string, r: Layer) {
    && r in s && a.Eligible(r) && a.Key(r) == k
    && forall g | g in s && a.Eligible(g) && a.Key(g) == k :: g.effectiveness <= r.effectiveness
  }

  ghost predicate BestPerKey(a: Assessment, s: seq<Layer>, keys: seq<string>, retained: seq<Layer>) {
    && NoDuplicates(keys)
    && |retained| == |keys|
    && (forall i | 0 <= i < |keys| :: IsBest(a, s, keys[i], retained[i]))
    && (forall g | g in s && a.Eligible(g) :: a.Key(g) in keys)
  }

  // g is at least as strong as h, and not registered later if they are equally strong.
  predicate NotAfter(g: Layer, h: Layer) {
    h.effectiveness < g.effectiveness || (h.effectiveness == g.effectiveness && g.id <= h.id)
  }

  // g is eligible under key k, and comes before every eligible safeguard of that key.
  ghost predicate Winner(a: Assessment, s: seq<Layer>, k: string, g: Layer) {
    && g in s && a.Eligible(g) && a.Key(g) == k
    && forall h | h in s && a.Eligible(h) && a.Key(h) == k :: NotAfter(g, h)
  }

  lemma RankedFirstWins(a: Assessment, s: seq<Layer>, k: string)
    requires a.Group(s, k) != []
    ensures Winner(a, s, k, a.Ranked(s, k)[0])
  {
    BetterStrict();
    var ranked := a.Ranked(s, k);
    assert ranked[0] in ranked;
    assert ranked[0] in a.Group(s, k);
    forall h | h in s && a.Eligible(h) && a.Key(h) == k ensures NotAfter(ranked[0], h) {
      assert h in a.Group(s, k);
      assert h in ranked;
      var i :| 0 <= i < |ranked| && ranked[i] == h;
      assert i == 0 || !Better(ranked[i], ranked[0]);
    }
  }

  lemma RankedHead(a: Assessment, s: seq<Layer>, k: string)
    requires a.Group(s, k) != []
    ensures IsBest(a, s, k, a.Ranked(s, k)[0])
  {
    RankedFirstWins(a, s, k);
  }

  lemma RetainedBest(a: Assessment, s: seq<Layer>, keys: seq<string>, i: nat)
    requires forall k | k in keys :: a.Group(s, k) != []
    requires i < |keys|
    ensures IsBest(a, s, keys[i], a.Retained(s, keys)[i])
  {
    assert keys[i] in keys;
    RankedHead(a, s, keys[i]);
  }

  lemma ResolveBestPerKey(a: Assessment, s: seq<Layer>)
    ensures BestPerKey(a, s, a.SortedKeys(s), a.Resolve(s).retained)
  {
    var keys := a.SortedKeys(s);
    var retained := a.Retained(s, keys);
    PermutationKeepsDistinct(a.GroupKeys(s), keys);
    forall i | 0 <= i < |keys| ensures IsBest(a, s, keys[i], retained[i]) {
      RetainedBest(a, s, keys, i);
    }
    forall g | g in s && a.Eligible(g) ensures a.Key(g) in keys {
      assert g in a.Group(s, a.Key(g));
    }
  }

  lemma BestPerKeyIsSelection(a: Assessment, s: seq<Layer>, keys: seq<string>, retained: seq<Layer>)
    requires BestPerKey(a, s, keys, retained)
    ensures Selection(a, s, retained)
    ensures InRange(retained)
  {
    forall g | g in retained ensures g in s && a.Eligible(g) {
      var i :| 0 <= i < |retained| && retained[i] == g;
      assert IsBest(a, s, keys[i], retained[i]);
    }
    forall i, j | 0 <= i < j < |retained| ensures a.Key(retained[i]) != a.Key(retained[j]) {
      assert IsBest(a, s, keys[i], retained[i]) && IsBest(a, s, keys[j], retained[j]);
    }
    forall g | g in retained ensures 0.0 < g.effectiveness <= 1.0 {
      assert a.Eligible(g);
    }
  }

  lemma BestPerKeyOutdoes(a: Assessment, s: seq<Layer>, keys: seq<string>, retained: seq<Layer>, g: Layer)
    requires BestPerKey(a, s, keys, retained)
    requires g in s && a.Eligible(g)
    ensures Outdone(a, g, retained)
  {
    hide Assessment.Eligible, Assessment.Key;
    var i :| 0 <= i < |keys| && keys[i] == a.Key(g);
    assert IsBest(a, s, keys[i], retained[i]) && retained[i] in retained;
  }

  lemma BestPerKeyIsOptimal(a: Assessment, s: seq<Layer>, keys: seq<string>, retained: seq<Layer>, choice: seq<Layer>)
    requires BestPerKey(a, s, keys, retained)
    requires Selection(a, s, choice)
    ensures Combined(choice) <= Combined(retained)
  {
    BestPerKeyIsSelection(a, s, keys, retained);
    forall g | g in choice ensures Outdone(a, g, retained) { BestPerKeyOutdoes(a, s, keys, retained, g); }
    SelectionInRange(a, s, choice);
    hide BestPerKey, Assessment.Eligible, Outdone, InRange;
    OutdoneCombined(a, choice, retained);
  }

  // The retained layers are themselves such a selection ...
  lemma RetainedIsSelection(a: Assessment, s: seq<Layer>)
    ensures Selection(a, s, a.Resolve(s).retained)
    ensures InRange(a.Resolve(s).retained)
  {
    ResolveBestPerKey(a, s);
    BestPerKeyIsSelection(a, s, a.SortedKeys(s), a.Resolve(s).retained);
  }

  // ... and no selection protects more.
  lemma GreedyChoiceIsOptimal(a: Assessment, s: seq<Layer>, choice: seq<Layer>)
    requires Selection(a, s, choice)
    ensures Combined(choice) <= Combined(a.Resolve(s).retained)
  {
    ResolveBestPerKey(a, s);
    BestPerKeyIsOptimal(a, s, a.SortedKeys(s), a.Resolve(s).retained, choice);
  }

  /** Whatever makes more safeguards eligible cannot lower the combined protection. */
  lemma EligibilityMonotone(a: Assessment, s: seq<Layer>, b: Assessment, t: seq<Layer>)
    requires a.fold == b.fold
    requires forall g | g in s && a.Eligible(g) :: g in t && b.Eligible(g)
    ensures Combined(a.Resolve(s).retained) <= Combined(b.Resolve(t).retained)
  {
    RetainedIsSelection(a, s);
    assert Selection(b, t, a.Resolve(s).retained);
    GreedyChoiceIsOptimal(b, t, a.Resolve(s).retained);
  }
}
