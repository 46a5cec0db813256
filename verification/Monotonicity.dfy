/** More protection never looks worse, from stored safeguards to the result a caller sees. */
module Monotonicity {
  import opened Records
  import opened Independence
  import opened Protection
  import opened Freezing
  import opened Graph
  import opened Scoring
  import opened ScoreProperties
  import opened Evaluator
  import Statements

  // ----- scores

  // The residual risk index reported by the last step of a trace.
  function ReportedResidual(steps: seq<ScoreStep>): int {
    if steps != [] && steps[|steps| - 1].rule.ResidualRisk? then steps[|steps| - 1].rule.residual else 0
  }

  // Path by path, what is covered in q is covered in p.
  ghost predicate CoversNoLess(p: seq<PathResult>, q: seq<PathResult>) {
    |p| == |q| && forall i | 0 <= i < |q| :: p[i].path == q[i].path && (q[i].covered ==> p[i].covered)
  }

  ghost predicate NoLessProtected(r: ScoreResult, q: ScoreResult) {
    && 1 <= ReportedResidual(r.steps) <= ReportedResidual(q.steps)
    && r.coverageScore >= q.coverageScore
    && NoWorse(r.riskAfter, q.riskAfter)
    && CoversNoLess(r.paths, q.paths)
    && |r.uncoveredPaths| <= |q.uncoveredPaths|
  }

  lemma MoreProtectionCovers(paths: seq<GraphPath>, initial: int, s: seq<Layer>, x: seq<Rejection>, t: seq<Layer>, y: seq<Rejection>)
    requires Combined(s) <= Combined(t)
    ensures var r, q := ScoreFor(paths, initial, t, y), ScoreFor(paths, initial, s, x);
      CoversNoLess(r.paths, q.paths) && |r.uncoveredPaths| <= |q.uncoveredPaths|
  {
    hide Combined, Residual, LayerSteps, FilterSteps, Percent, Round4, Ids, Keys, RankOf;
  }

  lemma MoreProtectionScoresHigher(paths: seq<GraphPath>, initial: int, s: seq<Layer>, x: seq<Rejection>, t: seq<Layer>, y: seq<Rejection>)
    requires initial >= 0
    requires Combined(s) <= Combined(t)
    ensures NoLessProtected(ScoreFor(paths, initial, t, y), ScoreFor(paths, initial, s, x))
  {
    MoreProtectionCovers(paths, initial, s, x, t, y);
    PercentMonotone(Combined(s), Combined(t));
    ResidualAntitone(initial, Combined(s), Combined(t));
    RankMonotone(Residual(initial, Combined(t)), Residual(initial, Combined(s)));
    ResidualIsPositive(initial, Combined(t));
    hide CoversNoLess, Combined, Residual, LayerSteps, FilterSteps, PathResults, Percent, RankOf, NoWorse;
  }

  lemma ResidualIsPositive(initial: int, c: real)
    ensures Residual(initial, c) >= 1
  {
  }

  lemma RiskIsNatural(scenario: SnapshotScenario)
    requires scenario.likelihood >= 0 && scenario.severity >= 0
    ensures scenario.InitialRisk() >= 0
  {
  }

  lemma PathsIgnoreSafeguards(fold: Statements.Folding, a: Snapshot, b: Snapshot)
    requires a.node == b.node && a.scenario == b.scenario
    ensures GraphOf(fold, a).paths == GraphOf(fold, b).paths
  {
    hide Paths, CauseNodes, ConsequenceNodes, SafeguardNodes, CauseEdges, ConsequenceEdges, MitigationEdges, Statements.Split;
  }

  // What the score of a snapshot depends on.
  lemma SnapshotScoreIs(fold: Statements.Folding, a: Snapshot)
    ensures var r := ResolutionOf(fold, a);
      SnapshotScore(fold, a)
      == ScoreFor(GraphOf(fold, a).paths, a.scenario.InitialRisk(), ScoreOrder(r.retained), r.rejected)
  {
    hide GraphOf, ResolutionOf, ScoreOrder, ScoreFor;
  }

  lemma MoreEligibleCombines(fold: Statements.Folding, a: Snapshot, b: Snapshot)
    requires forall g | g in a.safeguards && Assessment(fold, a.referenceTime).Eligible(g) ::
        g in b.safeguards && Assessment(fold, b.referenceTime).Eligible(g)
    ensures Combined(ScoreOrder(ResolutionOf(fold, a).retained)) <= Combined(ScoreOrder(ResolutionOf(fold, b).retained))
  {
    var p, q := Assessment(fold, a.referenceTime), Assessment(fold, b.referenceTime);
    EligibilityMonotone(p, a.safeguards, q, b.safeguards);
    RetainedIsSelection(p, a.safeguards);
    RetainedIsSelection(q, b.safeguards);
    hide Assessment.Resolve, Assessment.Eligible, ScoreOrder, Combined, InRange, Selection;
    ScoreOrderFacts(p.Resolve(a.safeguards).retained);
    ScoreOrderFacts(q.Resolve(b.safeguards).retained);
  }

  lemma MoreEligibleScoresHigher(fold: Statements.Folding, a: Snapshot, b: Snapshot)
    requires a.node == b.node && a.scenario == b.scenario
    requires a.scenario.likelihood >= 0 && a.scenario.severity >= 0
    requires forall g | g in a.safeguards && Assessment(fold, a.referenceTime).Eligible(g) ::
        g in b.safeguards && Assessment(fold, b.referenceTime).Eligible(g)
    ensures NoLessProtected(SnapshotScore(fold, b), SnapshotScore(fold, a))
  {
    MoreEligibleCombines(fold, a, b);
    hide Assessment.Eligible, GraphOf, ResolutionOf, ScoreOrder, ScoreFor, Combined, SnapshotScore, NoLessProtected, SnapshotScenario.InitialRisk;
    SnapshotScoreIs(fold, a);
    SnapshotScoreIs(fold, b);
    PathsIgnoreSafeguards(fold, a, b);
    RiskIsNatural(a.scenario);
    MoreProtectionScoresHigher(GraphOf(fold, a).paths, a.scenario.InitialRisk(), ScoreOrder(ResolutionOf(fold, a).retained),
      ResolutionOf(fold, a).rejected, ScoreOrder(ResolutionOf(fold, b).retained), ResolutionOf(fold, b).rejected);
  }

  // ----- results

  /** What a caller sees of two evaluations: the score, the residual risk, the rank and the
      verdict on every path are no worse in r than in q. */
  ghost predicate AtLeastAsGood(r: EvaluationResult, q: EvaluationResult) {
    && 1 <= ReportedResidual(r.explanation.steps) <= ReportedResidual(q.explanation.steps)
    && r.coverageScore >= q.coverageScore
    && NoWorse(r.riskAfter, q.riskAfter)
    && CoversNoLess(r.explanation.paths, q.explanation.paths)
    && |r.uncovered| <= |q.uncovered|
  }

  ghost predicate BothEvaluated(codec: Codec, fold: Statements.Folding, a: Snapshot, b: Snapshot) {
    Evaluate(codec, fold, a).Ok? && Evaluate(codec, fold, b).Ok?
  }

  lemma ResultsCarryScores(codec: Codec, fold: Statements.Folding, a: Snapshot, b: Snapshot)
    requires NoLessProtected(SnapshotScore(fold, b), SnapshotScore(fold, a)) && BothEvaluated(codec, fold, a, b)
    ensures AtLeastAsGood(Evaluate(codec, fold, b).value, Evaluate(codec, fold, a).value)
  {
    hide SnapshotScore, ResolutionOf, InputError, NoWorse, CoversNoLess, ReportedResidual;
  }

  /** Registering one more safeguard never lowers the score, raises the residual risk or
      uncovers a path, wherever it sorts and whatever group it joins. */
  lemma AddingASafeguardNeverHurts(codec: Codec, fold: Statements.Folding, node: ProcessNode, scenario: DeviationScenario,
      s: seq<Safeguard>, g: Safeguard, reference: Time)
    requires scenario.likelihood >= 0 && scenario.severity >= 0
    ensures var a, b := SnapshotOf(node, scenario, s, reference), SnapshotOf(node, scenario, s + [g], reference);
      && NoLessProtected(SnapshotScore(fold, b), SnapshotScore(fold, a))
      && (BothEvaluated(codec, fold, a, b) ==> AtLeastAsGood(Evaluate(codec, fold, b).value, Evaluate(codec, fold, a).value))
  {
    var a, b := SnapshotOf(node, scenario, s, reference), SnapshotOf(node, scenario, s + [g], reference);
    forall h | h in a.safeguards ensures h in b.safeguards {
      SnapshotMembers(node, scenario, s, reference, h);
      SnapshotMembers(node, scenario, s + [g], reference, h);
      var x :| x in s && h == Freeze(x);
      assert x in s + [g];
    }
    MoreEligibleScoresHigher(fold, a, b);
    hide NoLessProtected, AtLeastAsGood, SnapshotOf, Evaluate, SnapshotScore;
    if BothEvaluated(codec, fold, a, b) { ResultsCarryScores(codec, fold, a, b); }
  }

  lemma EligibleEarlier(fold: Statements.Folding, g: Layer, t: Time, u: Time)
    requires t <= u
    requires Assessment(fold, u).Eligible(g)
    ensures Assessment(fold, t).Eligible(g)
  {
  }

  /** Evaluating the same safeguards later never raises the score or lowers the residual risk. */
  lemma WaitingNeverHelps(codec: Codec, fold: Statements.Folding, node: ProcessNode, scenario: DeviationScenario,
      s: seq<Safeguard>, earlier: Time, later: Time)
    requires scenario.likelihood >= 0 && scenario.severity >= 0
    requires earlier <= later
    ensures var a, b := SnapshotOf(node, scenario, s, later), SnapshotOf(node, scenario, s, earlier);
      && NoLessProtected(SnapshotScore(fold, b), SnapshotScore(fold, a))
      && (BothEvaluated(codec, fold, a, b) ==> AtLeastAsGood(Evaluate(codec, fold, b).value, Evaluate(codec, fold, a).value))
  {
    var a, b := SnapshotOf(node, scenario, s, later), SnapshotOf(node, scenario, s, earlier);
    FloorMonotone(earlier, later);
    forall g | g in a.safeguards && Assessment(fold, a.referenceTime).Eligible(g)
      ensures Assessment(fold, b.referenceTime).Eligible(g)
    {
      EligibleEarlier(fold, g, b.referenceTime, a.referenceTime);
    }
    MoreEligibleScoresHigher(fold, a, b);
    hide NoLessProtected, AtLeastAsGood, SnapshotOf, Evaluate, SnapshotScore;
    if BothEvaluated(codec, fold, a, b) { ResultsCarryScores(codec, fold, a, b); }
  }
}
