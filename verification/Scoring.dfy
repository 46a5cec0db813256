/** The coverage score, its explanatory trace, the covered paths and the residual risk.
    Go's float64 is taken as a real number. */
module Scoring {
  import opened Records
  import opened Ordering
  import opened Sequences
  import opened Independence
  import opened Protection
  import opened Freezing
  import opened Graph

  const COVERED_THRESHOLD := 0.5

  datatype Rule =
    | LayerCombination(id: nat, key: string, effectiveness: real)
    | EligibilityFilter(id: nat, reason: Reason)
    | ResidualRisk(initial: int, protection: real, residual: int)

  datatype ScoreStep = ScoreStep(number: nat, rule: Rule, contribution: real, runningScore: real)

  datatype PathResult = PathResult(
    path: GraphPath, safeguardIds: seq<nat>, independenceKeys: seq<string>,
    combinedProtection: real, covered: bool)

  datatype ScoreResult = ScoreResult(
    coverageScore: real, paths: seq<PathResult>, uncoveredPaths: seq<PathResult>,
    steps: seq<ScoreStep>, riskBefore: RiskRank, riskAfter: RiskRank)

  // math.Round: half away from zero.
  function Round(x: real): int {
    if x >= 0.0 then (x + 0.5).Floor else -(-x + 0.5).Floor
  }

  function Round4(x: real): real { Round(x * 10000.0) as real / 10000.0 }

  function Percent(x: real): real { Round4(x * 100.0) }

  function Ceil(x: real): int { -(-x).Floor }

  // What combined protection leaves of a risk index.
  function Scaled(initial: int, combined: real): real { initial as real * (1.0 - combined) }

  // max(1, ceil(initial * (1 - combined)))
  function Residual(initial: int, combined: real): int {
    var r := Ceil(Scaled(initial, combined));
    if r < 1 then 1 else r
  }

  // ----- the specification of CalculateScore

  // The step by which layer g raises the combined protection from `before` to `after`.
  function CombinationStep(number: nat, g: Layer, before: real, after: real): ScoreStep {
    ScoreStep(number, LayerCombination(g.id, g.independenceKey, g.effectiveness),
      Round4(after - before), Percent(after))
  }

  // One step per layer, in score order.
  function LayerSteps(s: seq<Layer>): (r: seq<ScoreStep>)
    ensures |r| == |s|
  {
    if s == [] then []
    else
      var n := |s| - 1;
      LayerSteps(s[..n]) + [CombinationStep(n + 1, s[n], Combined(s[..n]), Combined(s))]
  }

  function FilterSteps(first: nat, score: real, rejected: seq<Rejection>): seq<ScoreStep> {
    seq(|rejected|, i requires 0 <= i < |rejected| =>
      ScoreStep(first + i, EligibilityFilter(rejected[i].id, rejected[i].reason), 0.0, score))
  }

  function PathResults(paths: seq<GraphPath>, ordered: seq<Layer>): seq<PathResult> {
    var combined := Combined(ordered);
    seq(|paths|, i requires 0 <= i < |paths| =>
      PathResult(paths[i], Ids(ordered), Keys(ordered), Round4(combined), combined >= COVERED_THRESHOLD))
  }

  function Keys(s: seq<Layer>): seq<string> { MapSeq((g: Layer) => g.independenceKey, s) }

  function ScoreOrder(safeguards: seq<Layer>): seq<Layer> {
    LayerBeforeStrict();
    SortBy(LayerBefore, safeguards)
  }

  function ScoreFor(paths: seq<GraphPath>, initial: int, ordered: seq<Layer>, rejected: seq<Rejection>): ScoreResult {
    var combined := Combined(ordered);
    var score := Percent(combined);
    var residual := Residual(initial, combined);
    var results := PathResults(paths, ordered);
    ScoreResult(
      score, results, if combined >= COVERED_THRESHOLD then [] else results,
      LayerSteps(ordered) + FilterSteps(|ordered| + 1, score, rejected)
        + [ScoreStep(|ordered| + |rejected| + 1, ResidualRisk(initial, combined, residual), 0.0, score)],
      RankOf(initial), RankOf(residual))
  }

  function ScoreOf(graph: Graph, scenario: SnapshotScenario, safeguards: seq<Layer>, rejected: seq<Rejection>): ScoreResult {
    ScoreFor(graph.paths, scenario.InitialRisk(), ScoreOrder(safeguards), rejected)
  }

  // ----- the imperative form

  method CalculateScore(graph: Graph, scenario: SnapshotScenario, safeguards: seq<Layer>, rejected: seq<Rejection>)
    returns (result: ScoreResult)
    requires DistinctIds(safeguards)
    ensures result == ScoreOf(graph, scenario, safeguards, rejected)
  {
    var ordered := OrderLayers(safeguards);
    result := ScoreOrdered(graph.paths, scenario.likelihood * scenario.severity, ordered, rejected);
  }

  method ScoreOrdered(graphPaths: seq<GraphPath>, initialRisk: int, ordered: seq<Layer>, rejected: seq<Rejection>)
    returns (result: ScoreResult)
    ensures result == ScoreFor(graphPaths, initialRisk, ordered, rejected)
  {
    var combined, steps := CombineLayers(ordered);
    var filterSteps := ListRejections(|ordered| + 1, Round4(combined * 100.0), rejected);
    var paths, uncovered := JudgePaths(graphPaths, ordered, combined);
    var coverageScore := Round4(combined * 100.0);
    var residualRisk := ResidualIndex(initialRisk, combined);
    var last := ScoreStep(|ordered| + |rejected| + 1, ResidualRisk(initialRisk, combined, residualRisk), 0.0, coverageScore);
    result := ScoreResult(coverageScore, paths, uncovered, steps + filterSteps + [last], RankOf(initialRisk), RankOf(residualRisk));
  }

  method ResidualIndex(initialRisk: int, combined: real) returns (residualRisk: int)
    ensures residualRisk == Residual(initialRisk, combined)
  {
    residualRisk := Ceil(initialRisk as real * (1.0 - combined));
    if residualRisk < 1 {
      residualRisk := 1;
    }
  }

  // The copy sorted by raw key and ID, whatever the unstable sort does.
  method OrderLayers(safeguards: seq<Layer>) returns (ordered: seq<Layer>)
    requires DistinctIds(safeguards)
    ensures ordered == ScoreOrder(safeguards)
  {
    LayerBeforeStrict();
    ordered := SortSlice(LayerBefore, safeguards);
    LayersTellApart(safeguards);
    MultisetMembers(safeguards, ordered);
    SortedUnique(LayerBefore, ordered, SortBy(LayerBefore, safeguards));
  }

  // The first loop: the running product and one trace step per layer.
  method CombineLayers(ordered: seq<Layer>) returns (combined: real, steps: seq<ScoreStep>)
    ensures combined == Combined(ordered)
    ensures steps == LayerSteps(ordered)
  {
    combined := 0.0;
    var remainingProbability := 1.0;
    var stepNumber := 1;
    steps := [];
    for i := 0 to |ordered|
      invariant remainingProbability == Remaining(ordered[..i])
      invariant combined == Combined(ordered[..i])
      invariant stepNumber == i + 1
      invariant steps == LayerSteps(ordered[..i])
    {
      var g := ordered[i];
      assert ordered[..i + 1][..i] == ordered[..i];
      var before := 1.0 - remainingProbability;
      ghost var reached := Past(remainingProbability, g);
      remainingProbability := remainingProbability * (1.0 - g.effectiveness);
      assert remainingProbability == reached;
      hide Past, Round4;
      combined := 1.0 - remainingProbability;
      steps := steps + [ScoreStep(stepNumber, LayerCombination(g.id, g.independenceKey, g.effectiveness),
        Round4(combined - before), Round4(combined * 100.0))];
      stepNumber := stepNumber + 1;
    }
    assert ordered[..|ordered|] == ordered;
  }

  // The second loop: one trace step per rejected safeguard.
  method ListRejections(first: nat, score: real, rejected: seq<Rejection>) returns (steps: seq<ScoreStep>)
    ensures steps == FilterSteps(first, score, rejected)
  {
    var stepNumber := first;
    steps := [];
    for i := 0 to |rejected|
      invariant stepNumber == first + i
      invariant steps == FilterSteps(first, score, rejected)[..i]
    {
      steps := steps + [ScoreStep(stepNumber, EligibilityFilter(rejected[i].id, rejected[i].reason), 0.0, score)];
      stepNumber := stepNumber + 1;
    }
  }

  // The path loops: one verdict for every path, then the filter for uncovered ones.
  method JudgePaths(graphPaths: seq<GraphPath>, ordered: seq<Layer>, combined: real)
    returns (paths: seq<PathResult>, uncovered: seq<PathResult>)
    requires combined == Combined(ordered)
    ensures paths == PathResults(graphPaths, ordered)
    ensures uncovered == if combined >= COVERED_THRESHOLD then [] else paths
  {
    var ids: seq<nat>, keys: seq<string> := [], [];
    for i := 0 to |ordered|
      invariant ids == Ids(ordered)[..i]
      invariant keys == Keys(ordered)[..i]
    {
      ids := ids + [ordered[i].id];
      keys := keys + [ordered[i].independenceKey];
    }
    assert ids == Ids(ordered) && keys == Keys(ordered);
    var covered := combined >= COVERED_THRESHOLD;
    paths := [];
    for i := 0 to |graphPaths|
      invariant paths == PathResults(graphPaths, ordered)[..i]
    {
      paths := paths + [PathResult(graphPaths[i], ids, keys, Round4(combined), covered)];
    }
    uncovered := [];
    for i := 0 to |paths|
      invariant uncovered == if covered then [] else paths[..i]
    {
      if !paths[i].covered {
        uncovered := uncovered + [paths[i]];
      }
    }
  }
}
