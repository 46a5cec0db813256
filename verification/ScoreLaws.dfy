/** What a score means, in the terms of the layers, rejections and paths it is made of. */
module ScoreLaws {
  import opened Records
  import opened Ordering
  import opened Sequences
  import opened Independence
  import opened Protection
  import opened Freezing
  import opened Graph
  import opened Scoring
  import opened ScoreProperties

  // ----- rounding

  // n is the integer nearest to x; halves are rounded away from zero.
  predicate Nearest(n: int, x: real) {
    if x >= 0.0 then x - 0.5 < n as real <= x + 0.5 else x - 0.5 <= n as real < x + 0.5
  }

  // r is x to four decimals.
  ghost predicate FourDecimals(r: real, x: real) { exists n :: TenThousandths(r, n) && Nearest(n, x * 10000.0) }

  predicate TenThousandths(r: real, n: int) { r * 10000.0 == n as real }

  lemma Round4IsFourDecimals(x: real)
    ensures FourDecimals(Round4(x), x)
  {
    assert Nearest(Round(x * 10000.0), x * 10000.0);
    assert TenThousandths(Round4(x), Round(x * 10000.0));
  }

  lemma PercentIsFourDecimals(x: real)
    ensures FourDecimals(Percent(x), 100.0 * x)
  {
    Round4IsFourDecimals(x * 100.0);
  }

  // ----- the score

  /** The printed score is the combined protection of the layers in per cent, to four
      decimals, in whatever order they come. */
  lemma ScoreIsProtection(graph: Graph, scenario: SnapshotScenario, s: seq<Layer>, rejected: seq<Rejection>)
    ensures FourDecimals(ScoreOf(graph, scenario, s, rejected).coverageScore, 100.0 * Combined(s))
  {
    SameProtection(s);
    PercentIsFourDecimals(Combined(s));
  }

  lemma SameProtection(s: seq<Layer>)
    ensures multiset(ScoreOrder(s)) == multiset(s) && Combined(ScoreOrder(s)) == Combined(s)
  {
    LayerBeforeStrict();
    RemainingPermutation(ScoreOrder(s), s);
  }

  lemma CombinedOfTwo(g: Layer, h: Layer)
    ensures Combined([g, h]) == g.effectiveness + h.effectiveness - g.effectiveness * h.effectiveness
  {
    CombinedProtection([g], [h], g);
    CombinedProtection([g], [h], h);
    assert [g] + [h] == [g, h];
  }

  /** No layer scores 0, one layer its own effectiveness, two layers e + f - e f. */
  lemma ScoreOfFew(graph: Graph, scenario: SnapshotScenario, g: Layer, h: Layer, rejected: seq<Rejection>)
    ensures FourDecimals(ScoreOf(graph, scenario, [], rejected).coverageScore, 0.0)
    ensures FourDecimals(ScoreOf(graph, scenario, [g], rejected).coverageScore, 100.0 * g.effectiveness)
    ensures FourDecimals(ScoreOf(graph, scenario, [g, h], rejected).coverageScore,
      100.0 * (g.effectiveness + h.effectiveness - g.effectiveness * h.effectiveness))
  {
    hide ScoreOf, FourDecimals, Combined;
    ScoreIsProtection(graph, scenario, [], rejected);
    ScoreIsProtection(graph, scenario, [g], rejected);
    ScoreIsProtection(graph, scenario, [g, h], rejected);
    CombinedProtection([], [], g);
    CombinedOfTwo(g, h);
  }

  // ----- the order of the layers

  /** Layers are scored in the dictionary order of their raw keys, lower IDs first. */
  lemma ScoreOrderIs(s: seq<Layer>, i: nat, j: nat)
    requires DistinctIds(s) && i < j < |ScoreOrder(s)|
    ensures var g, h := ScoreOrder(s)[i], ScoreOrder(s)[j];
      if g.independenceKey == h.independenceKey then g.id < h.id else DictionaryBefore(g.independenceKey, h.independenceKey)
  {
    LayerBeforeStrict();
    LayersTellApart(s);
    MultisetMembers(s, ScoreOrder(s));
    var r := ScoreOrder(s);
    var g, h := r[i], r[j];
    assert g in r && h in r && !LayerBefore(h, g);
    IdsStayDistinct(s, r, i, j);
    StringLessIsDictionary(g.independenceKey, h.independenceKey);
  }

  lemma IdsStayDistinct(s: seq<Layer>, r: seq<Layer>, i: nat, j: nat)
    requires DistinctIds(s) && multiset(r) == multiset(s) && i < j < |r|
    ensures r[i] != r[j]
    ensures r[i].id != r[j].id
  {
    var f := (g: Layer) => g.id;
    MapPermutation(f, s, r);
    PermutationKeepsDistinct(Ids(s), Ids(r));
    assert Ids(r)[i] != Ids(r)[j];
  }

  // ----- the trace

  /** Step i of the trace names layer i, what it adds and what is reached with it. */
  lemma TraceOfLayer(paths: seq<GraphPath>, initial: int, ordered: seq<Layer>, rejected: seq<Rejection>, i: nat)
    requires i < |ordered|
    ensures var steps := ScoreFor(paths, initial, ordered, rejected).steps;
      && i < |steps| && steps[i].number == i + 1
      && steps[i].rule == LayerCombination(ordered[i].id, ordered[i].independenceKey, ordered[i].effectiveness)
      && FourDecimals(steps[i].contribution, Combined(ordered[..i + 1]) - Combined(ordered[..i]))
      && FourDecimals(steps[i].runningScore, 100.0 * Combined(ordered[..i + 1]))
  {
    LayerStepAt(ordered, i);
    Round4IsFourDecimals(Combined(ordered[..i + 1]) - Combined(ordered[..i]));
    PercentIsFourDecimals(Combined(ordered[..i + 1]));
    hide Combined, Percent, Round4, FourDecimals, Residual;
  }

  /** The steps after the layers name the rejections with their reasons, and the last one the
      initial and the residual risk; none of them adds to the score. */
  lemma TraceOfTheRest(paths: seq<GraphPath>, initial: int, ordered: seq<Layer>, rejected: seq<Rejection>, i: nat)
    requires i < |rejected|
    ensures var r := ScoreFor(paths, initial, ordered, rejected);
      && |r.steps| == |ordered| + |rejected| + 1
      && r.steps[|ordered| + i]
         == ScoreStep(|ordered| + i + 1, EligibilityFilter(rejected[i].id, rejected[i].reason), 0.0, r.coverageScore)
  {
  }

  lemma LastStep(paths: seq<GraphPath>, initial: int, ordered: seq<Layer>, rejected: seq<Rejection>)
    ensures var r := ScoreFor(paths, initial, ordered, rejected);
      && |r.steps| == |ordered| + |rejected| + 1
      && var last := r.steps[|ordered| + |rejected|];
         && last.rule.ResidualRisk? && last.rule.initial == initial && last.rule.protection == Combined(ordered)
         && LeastResidual(last.rule.residual, initial, Combined(ordered))
         && last.contribution == 0.0 && last.runningScore == r.coverageScore
         && RankOf(last.rule.residual) == r.riskAfter && RankOf(initial) == r.riskBefore
  {
    ResidualIsLeast(initial, Combined(ordered));
  }

  // ----- residual risk and ranks

  // r is the least index of at least 1 that is not below initial * (1 - c).
  ghost predicate LeastResidual(r: int, initial: int, c: real) {
    && r >= 1 && r as real >= initial as real * (1.0 - c)
    && (r > 1 ==> (r - 1) as real < initial as real * (1.0 - c))
  }

  lemma ResidualIsLeast(initial: int, c: real)
    ensures LeastResidual(Residual(initial, c), initial, c)
  {
    var x := initial as real * (1.0 - c);
    CeilIs(x);
    assert Scaled(initial, c) == x;
    hide Ceil;
  }

  lemma CeilIs(x: real)
    ensures x <= Ceil(x) as real < x + 1.0
  {
  }

  /** The ranks of the 5 x 5 matrix. */
  lemma RanksOfTheMatrix(scenario: SnapshotScenario, graph: Graph, s: seq<Layer>, rejected: seq<Rejection>)
    ensures var n, rank := scenario.likelihood * scenario.severity, ScoreOf(graph, scenario, s, rejected).riskBefore;
      && (rank == Critical <==> 20 <= n)
      && (rank == High <==> 12 <= n <= 19)
      && (rank == Medium <==> 6 <= n <= 11)
      && (rank == Low <==> n <= 5)
  {
  }

  // ----- the paths

  /** Path i of the result is path i of the graph, with all layers, their raw keys, the rounded
      protection and the verdict. */
  lemma PathsOfScore(paths: seq<GraphPath>, initial: int, ordered: seq<Layer>, rejected: seq<Rejection>, i: nat)
    requires i < |paths|
    ensures var r := ScoreFor(paths, initial, ordered, rejected);
      && |r.paths| == |paths|
      && r.paths[i].path == paths[i]
      && |r.paths[i].safeguardIds| == |r.paths[i].independenceKeys| == |ordered|
      && (forall j | 0 <= j < |ordered| ::
            r.paths[i].safeguardIds[j] == ordered[j].id && r.paths[i].independenceKeys[j] == ordered[j].independenceKey)
      && FourDecimals(r.paths[i].combinedProtection, Combined(ordered))
      && (r.paths[i].covered <==> Combined(ordered) >= 0.5)
  {
    Round4IsFourDecimals(Combined(ordered));
    NamesOf(ordered);
    hide Combined, Percent, Round4, FourDecimals, Residual, LayerSteps, FilterSteps, RankOf, Ids, Keys;
  }

  lemma NamesOf(s: seq<Layer>)
    ensures |Ids(s)| == |Keys(s)| == |s|
    ensures forall j | 0 <= j < |s| :: Ids(s)[j] == s[j].id && Keys(s)[j] == s[j].independenceKey
  {
  }

  /** The uncovered paths are those whose verdict is negative, in the order of the paths. */
  lemma UncoveredAreThose(paths: seq<GraphPath>, initial: int, ordered: seq<Layer>, rejected: seq<Rejection>)
    ensures var r := ScoreFor(paths, initial, ordered, rejected);
      && (forall p :: p in r.uncoveredPaths <==> p in r.paths && !p.covered)
      && r.uncoveredPaths == if Combined(ordered) >= 0.5 then [] else r.paths
  {
    hide Combined, Percent, Round4, Residual, LayerSteps, FilterSteps, RankOf, Ids, Keys;
    var results := PathResults(paths, ordered);
    forall p | p in results ensures p.covered <==> Combined(ordered) >= 0.5 {
      var i :| 0 <= i < |results| && results[i] == p;
    }
  }
}
