/** What an evaluation and its replay mean, in the terms of the snapshot that goes in. */
module ResultLaws {
  import opened Wrappers
  import opened Records
  import opened Independence
  import opened Protection
  import opened Graph
  import opened Scoring
  import opened ScoreProperties
  import opened ScoreLaws
  import opened Evaluator
  import Statements

  // ----- the result

  // The score, verdicts and risks of r are those of the retained layers.
  ghost predicate ScoresLayers(r: EvaluationResult, paths: seq<GraphPath>, initial: int, retained: seq<Layer>, rejected: seq<Rejection>) {
    && FourDecimals(r.coverageScore, 100.0 * Combined(retained))
    && |r.explanation.paths| == |paths|
    && (forall i | 0 <= i < |paths| :: r.explanation.paths[i].path == paths[i])
    && (forall p | p in r.explanation.paths :: p.covered <==> Combined(retained) >= 0.5)
    && r.uncovered == (if Combined(retained) >= 0.5 then [] else r.explanation.paths)
    && (forall p :: p in r.uncovered <==> p in r.explanation.paths && !p.covered)
    && |r.explanation.steps| == |retained| + |rejected| + 1
    && r.riskBefore == RankOf(initial)
    && var last := r.explanation.steps[|retained| + |rejected|].rule;
       last.ResidualRisk? && LeastResidual(last.residual, initial, Combined(retained)) && r.riskAfter == RankOf(last.residual)
  }

  /** Every result carries the text and hash of its snapshot, the resolution of its safeguards,
      and the score, verdicts and risks of the layers retained on the paths of its graph. */
  lemma ResultMeans(codec: Codec, fold: Statements.Folding, snapshot: Snapshot)
    requires Evaluate(codec, fold, snapshot).Ok?
    ensures var r := Evaluate(codec, fold, snapshot).value;
      var resolution := Assessment(fold, snapshot.referenceTime).Resolve(snapshot.safeguards);
      && r.snapshotText == codec.encode(snapshot) && r.inputHash == codec.hash(codec.encode(snapshot))
      && r.deduplicated == resolution.deduplicated == r.explanation.deduplicated
      && r.explanation.referenceTime == snapshot.referenceTime
      && ScoresLayers(r, GraphOf(fold, snapshot).paths, snapshot.scenario.likelihood * snapshot.scenario.severity,
           resolution.retained, resolution.rejected)
      && r.explanation.steps == ScoreOf(GraphOf(fold, snapshot), snapshot.scenario, resolution.retained, resolution.rejected).steps
  {
    var resolution := Assessment(fold, snapshot.referenceTime).Resolve(snapshot.safeguards);
    ScoreMeans(GraphOf(fold, snapshot), snapshot.scenario, resolution.retained, resolution.rejected);
    hide ScoreOf, GraphOf, Assessment.Resolve, InputError, FourDecimals, LeastResidual, Combined, RankOf;
  }

  lemma ScoreMeans(graph: Graph, scenario: SnapshotScenario, retained: seq<Layer>, rejected: seq<Rejection>)
    ensures var r, initial := ScoreOf(graph, scenario, retained, rejected), scenario.likelihood * scenario.severity;
      && FourDecimals(r.coverageScore, 100.0 * Combined(retained))
      && |r.paths| == |graph.paths|
      && (forall i | 0 <= i < |graph.paths| :: r.paths[i].path == graph.paths[i])
      && (forall p | p in r.paths :: p.covered <==> Combined(retained) >= 0.5)
      && r.uncoveredPaths == (if Combined(retained) >= 0.5 then [] else r.paths)
      && (forall p :: p in r.uncoveredPaths <==> p in r.paths && !p.covered)
      && |r.steps| == |retained| + |rejected| + 1
      && r.riskBefore == RankOf(initial)
      && var last := r.steps[|retained| + |rejected|].rule;
         last.ResidualRisk? && LeastResidual(last.residual, initial, Combined(retained)) && r.riskAfter == RankOf(last.residual)
  {
    var ordered, initial := ScoreOrder(retained), scenario.likelihood * scenario.severity;
    SameProtection(retained);
    assert |multiset(ordered)| == |multiset(retained)|;
    ScoreIsProtection(graph, scenario, retained, rejected);
    ScoreUnfolds(graph, scenario, retained, rejected);
    hide ScoreOf, ScoreOrder, Combined, FourDecimals, LeastResidual;
    UncoveredAreThose(graph.paths, initial, ordered, rejected);
    VerdictIsUniform(graph.paths, initial, ordered, rejected);
    LastStep(graph.paths, initial, ordered, rejected);
    var r := ScoreFor(graph.paths, initial, ordered, rejected);
    forall i | 0 <= i < |graph.paths| ensures r.paths[i].path == graph.paths[i] {
      PathsOfScore(graph.paths, initial, ordered, rejected, i);
    }
    hide ScoreFor, RankOf;
    assert LeastResidual(r.steps[|ordered| + |rejected|].rule.residual, initial, Combined(retained));
  }

  lemma ScoreUnfolds(graph: Graph, scenario: SnapshotScenario, s: seq<Layer>, rejected: seq<Rejection>)
    ensures ScoreOf(graph, scenario, s, rejected) == ScoreFor(graph.paths, scenario.likelihood * scenario.severity, ScoreOrder(s), rejected)
  {
    hide ScoreFor, ScoreOrder;
  }

  /** In short: the score, report, initial rank and uncovered paths of the layers retained from
      the input. */
  ghost predicate Summarises(fold: Statements.Folding, input: Snapshot, score: real, report: seq<Deduplication>,
      before: RiskRank, uncovered: seq<PathResult>)
  {
    var layers := Assessment(fold, input.referenceTime).Resolve(input.safeguards);
    && FourDecimals(score, 100.0 * Combined(layers.retained))
    && report == layers.deduplicated
    && before == RankOf(input.scenario.likelihood * input.scenario.severity)
    && (uncovered == [] <==> Combined(layers.retained) >= 0.5 || GraphOf(fold, input).paths == [])
  }

  lemma ScoresInShort(r: EvaluationResult, paths: seq<GraphPath>, initial: int, retained: seq<Layer>, rejected: seq<Rejection>)
    requires ScoresLayers(r, paths, initial, retained, rejected)
    ensures FourDecimals(r.coverageScore, 100.0 * Combined(retained)) && r.riskBefore == RankOf(initial)
    ensures r.uncovered == [] <==> Combined(retained) >= 0.5 || paths == []
  {
    hide FourDecimals, LeastResidual, RankOf, Combined;
  }

  lemma ResultSummarised(codec: Codec, fold: Statements.Folding, input: Snapshot)
    requires Evaluate(codec, fold, input).Ok?
    ensures var r := Evaluate(codec, fold, input).value;
      Summarises(fold, input, r.coverageScore, r.deduplicated, r.riskBefore, r.uncovered)
  {
    hide Evaluate, FourDecimals, ScoresLayers, Assessment.Resolve, GraphOf, ScoreOf, RankOf, Combined;
    ResultMeans(codec, fold, input);
    var layers := Assessment(fold, input.referenceTime).Resolve(input.safeguards);
    ScoresInShort(Evaluate(codec, fold, input).value, GraphOf(fold, input).paths, input.scenario.likelihood * input.scenario.severity,
      layers.retained, layers.rejected);
  }

  // ----- its errors

  predicate Versioned(s: Snapshot) { s.algorithmVersion == "hazop-cover-v1.0.0" }

  predicate Stored(s: Snapshot) { s.node.id > 0 && s.scenario.id > 0 }

  /** The first defect of the snapshot that applies is reported. */
  lemma EvaluationFailsExactly(codec: Codec, fold: Statements.Folding, snapshot: Snapshot)
    ensures match Evaluate(codec, fold, snapshot)
      case Err(VersionMismatch) => !Versioned(snapshot)
      case Err(NotPersisted) => Versioned(snapshot) && !Stored(snapshot)
      case Err(NoReferenceTime) => Versioned(snapshot) && Stored(snapshot) && snapshot.referenceTime == 0
      case Err(Unserializable) =>
        Versioned(snapshot) && Stored(snapshot) && snapshot.referenceTime != 0 && !codec.encodable(snapshot)
      case Ok(_) => Versioned(snapshot) && Stored(snapshot) && snapshot.referenceTime != 0 && codec.encodable(snapshot)
  {
    hide Assemble, SnapshotScore, ResolutionOf;
  }

  // ----- replay

  /** A replay refuses a text that does not match its hash and one that does not decode; of the
      others it passes exactly those whose snapshot evaluates to the expected hash and score. */
  lemma ReplayMeans(codec: Codec, fold: Statements.Folding, text: string, hash: string, score: real)
    ensures match Replay(codec, fold, text, hash, score)
      case Err(HashMismatch) => codec.hash(text) != hash
      case Err(Undecodable) => codec.hash(text) == hash && codec.decode(text).None?
      case Err(EvaluationFailed(e)) =>
        codec.hash(text) == hash && codec.decode(text).Some? && Evaluate(codec, fold, codec.decode(text).value) == Err(e)
      case Ok(passed) =>
        && codec.hash(text) == hash && codec.decode(text).Some?
        && var r := Evaluate(codec, fold, codec.decode(text).value);
           r.Ok? && (passed <==> r.value.inputHash == hash && r.value.coverageScore == score)
  {
    hide Evaluate;
  }
}
