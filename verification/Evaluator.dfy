/** Evaluate and Replay, and what holds of the whole path from stored safeguards to a result. */
module Evaluator {
  import opened Wrappers
  import opened Records
  import opened Independence
  import opened Protection
  import opened Freezing
  import opened Graph
  import opened GraphBuilder
  import opened Scoring
  import Statements

  // JSON text and SHA-256 are left open. Encoding fails on snapshots that are not
  // encodable (the numbers of a record are binary fractions, not all reals); on the others
  // decoding undoes it.
  datatype Codec = Codec(
    encodable: Snapshot -> bool, encode: Snapshot -> string, decode: string -> Option<Snapshot>, hash: string -> string)
  {
    ghost predicate RoundTrips() { forall s | encodable(s) :: decode(encode(s)) == Some(s) }
  }

  datatype EvaluationError = VersionMismatch | NotPersisted | NoReferenceTime | Unserializable

  datatype Explanation = Explanation(
    paths: seq<PathResult>, steps: seq<ScoreStep>, deduplicated: seq<Deduplication>, referenceTime: Time)

  datatype EvaluationResult = EvaluationResult(
    snapshotText: string, inputHash: string, coverageScore: real, uncovered: seq<PathResult>,
    deduplicated: seq<Deduplication>, explanation: Explanation, riskBefore: RiskRank, riskAfter: RiskRank)

  function InputError(snapshot: Snapshot): Option<EvaluationError> {
    if snapshot.algorithmVersion != VERSION then Some(VersionMismatch)
    else if snapshot.node.id == 0 || snapshot.scenario.id == 0 then Some(NotPersisted)
    else if snapshot.referenceTime == ZERO_TIME then Some(NoReferenceTime)
    else None
  }

  function Assemble(codec: Codec, snapshot: Snapshot, resolution: Resolution, score: ScoreResult): EvaluationResult {
    var text := codec.encode(snapshot);
    EvaluationResult(text, codec.hash(text), score.coverageScore, score.uncoveredPaths, resolution.deduplicated,
      Explanation(score.paths, score.steps, resolution.deduplicated, snapshot.referenceTime),
      score.riskBefore, score.riskAfter)
  }

  function ResolutionOf(fold: Statements.Folding, snapshot: Snapshot): Resolution {
    Assessment(fold, snapshot.referenceTime).Resolve(snapshot.safeguards)
  }

  function SnapshotScore(fold: Statements.Folding, snapshot: Snapshot): ScoreResult {
    var r := ResolutionOf(fold, snapshot);
    ScoreOf(GraphOf(fold, snapshot), snapshot.scenario, r.retained, r.rejected)
  }

  function Evaluate(codec: Codec, fold: Statements.Folding, snapshot: Snapshot): Result<EvaluationResult, EvaluationError> {
    var error := InputError(snapshot);
    if error.Some? then Err(error.value)
    else if !codec.encodable(snapshot) then Err(Unserializable)
    else Ok(Assemble(codec, snapshot, ResolutionOf(fold, snapshot), SnapshotScore(fold, snapshot)))
  }

  datatype ReplayError = HashMismatch | Undecodable | EvaluationFailed(error: EvaluationError)

  function Replay(codec: Codec, fold: Statements.Folding, text: string, expectedHash: string, expectedScore: real): Result<bool, ReplayError> {
    if codec.hash(text) != expectedHash then Err(HashMismatch)
    else
      match codec.decode(text)
      case None => Err(Undecodable)
      case Some(snapshot) =>
        match Evaluate(codec, fold, snapshot)
        case Err(e) => Err(EvaluationFailed(e))
        case Ok(r) => Ok(r.inputHash == expectedHash && r.coverageScore == expectedScore)
  }

  // ----- the straight-line calls, over the imperative stages

  lemma RetainedIdsDistinct(a: Assessment, s: seq<Layer>)
    requires DistinctIds(s)
    ensures DistinctIds(a.Resolve(s).retained)
  {
    var r := a.Resolve(s).retained;
    RetainedIsSelection(a, s);
    forall i, j | 0 <= i < j < |r| ensures r[i].id != r[j].id {
      assert r[i] in r && r[j] in r;
      if r[i].id == r[j].id { DistinctElements(s, r[i], r[j]); }
    }
  }

  method EvaluateSnapshot(codec: Codec, fold: Statements.Folding, snapshot: Snapshot)
    returns (result: Result<EvaluationResult, EvaluationError>)
    requires DistinctIds(snapshot.safeguards)
    ensures result == Evaluate(codec, fold, snapshot)
  {
    var error := InputError(snapshot);
    if error.Some? { return Err(error.value); }
    if !codec.encodable(snapshot) { return Err(Unserializable); }
    var graph := BuildGraph(fold, snapshot);
    var assessment := Assessment(fold, snapshot.referenceTime);
    var independence := ResolveIndependence(assessment, snapshot.safeguards);
    RetainedIdsDistinct(assessment, snapshot.safeguards);
    var score := CalculateScore(graph, snapshot.scenario, independence.retained, independence.rejected);
    var text := codec.encode(snapshot);
    var explanation := Explanation(score.paths, score.steps, independence.deduplicated, snapshot.referenceTime);
    return Ok(EvaluationResult(text, codec.hash(text), score.coverageScore, score.uncoveredPaths, independence.deduplicated,
      explanation, score.riskBefore, score.riskAfter));
  }

  /** Freezing and evaluating stored safeguards, exactly as Run does. */
  method FreezeAndEvaluate(codec: Codec, fold: Statements.Folding, node: ProcessNode, scenario: DeviationScenario,
      safeguards: seq<Safeguard>, reference: Time)
    returns (snapshot: Snapshot, result: Result<EvaluationResult, EvaluationError>)
    requires DistinctStoredIds(safeguards)
    ensures snapshot == SnapshotOf(node, scenario, safeguards, reference)
    ensures result == Evaluate(codec, fold, snapshot)
  {
    snapshot := NewSnapshot(node, scenario, safeguards, reference);
    result := EvaluateSnapshot(codec, fold, snapshot);
  }

  /** Determinism: any listing of the same safeguards, any map order and any outcome of
      the unstable sorts give the same text, hash, score, trace and report. (The last two
      are the contract of FreezeAndEvaluate, whose stages promise nothing about them.) */
  lemma EvaluationIgnoresListing(codec: Codec, fold: Statements.Folding, node: ProcessNode, scenario: DeviationScenario,
      s: seq<Safeguard>, t: seq<Safeguard>, reference: Time)
    requires DistinctStoredIds(s)
    requires multiset(s) == multiset(t)
    ensures Evaluate(codec, fold, SnapshotOf(node, scenario, s, reference))
         == Evaluate(codec, fold, SnapshotOf(node, scenario, t, reference))
  {
    SnapshotIgnoresListing(node, scenario, s, t, reference);
  }

  // A stored result can always be reproduced from its own text.
  lemma ReplayReproduces(codec: Codec, fold: Statements.Folding, snapshot: Snapshot)
    requires codec.RoundTrips()
    ensures match Evaluate(codec, fold, snapshot)
      case Ok(r) => r.snapshotText == codec.encode(snapshot)
                 && Replay(codec, fold, r.snapshotText, r.inputHash, r.coverageScore) == Ok(true)
      case Err(e) => codec.encodable(snapshot) ==>
                 Replay(codec, fold, codec.encode(snapshot), codec.hash(codec.encode(snapshot)), 0.0) == Err(EvaluationFailed(e))
  {
    hide ResolutionOf, SnapshotScore;
    assert codec.encodable(snapshot) ==> codec.decode(codec.encode(snapshot)) == Some(snapshot);
  }

  /** Such codecs exist for every set of snapshots that can be numbered, as all those with
      binary numbers and finite texts can. */
  lemma NumberedSnapshotsHaveACodec(domain: Snapshot -> bool, number: Snapshot -> nat, at: nat -> Snapshot) returns (codec: Codec)
    requires forall s | domain(s) :: at(number(s)) == s
    ensures codec.RoundTrips() && codec.encodable == domain
  {
    codec := Codec(domain, (s: Snapshot) => Decimal(number(s)), (text: string) => if Value(text) < 0 then None else Some(at(Value(text))), (text: string) => text);
    forall s | codec.encodable(s) ensures codec.decode(codec.encode(s)) == Some(s) {
      ValueOfDecimal(number(s));
    }
  }

  // For one: the snapshots that differ from a given one in the id of their scenario.
  lemma ACodecExists(base: Snapshot) returns (codec: Codec)
    ensures codec.RoundTrips()
    ensures forall id: nat :: codec.encodable(base.(scenario := base.scenario.(id := id)))
  {
    codec := NumberedSnapshotsHaveACodec(
      (s: Snapshot) => s == base.(scenario := base.scenario.(id := s.scenario.id)),
      (s: Snapshot) => s.scenario.id,
      (n: nat) => base.(scenario := base.scenario.(id := n)));
  }

  lemma TruncatedToZero(t: Time)
    ensures TruncateToSecond(t) == ZERO_TIME <==> 0 <= t < SECOND
  {
  }

  lemma EvaluatesUnlessInvalid(codec: Codec, fold: Statements.Folding, snapshot: Snapshot)
    ensures Evaluate(codec, fold, snapshot).Ok? <==> InputError(snapshot).None? && codec.encodable(snapshot)
  {
    hide InputError, ResolutionOf, SnapshotScore;
  }

  // Evaluation of persisted, encodable records after the first second of year 1 never fails.
  lemma PersistedInputEvaluates(codec: Codec, fold: Statements.Folding, node: ProcessNode, scenario: DeviationScenario,
      safeguards: seq<Safeguard>, reference: Time)
    ensures var snapshot := SnapshotOf(node, scenario, safeguards, reference);
      Evaluate(codec, fold, snapshot).Ok?
      <==> node.id != 0 && scenario.id != 0 && !(0 <= reference < SECOND) && codec.encodable(snapshot)
  {
    EvaluatesUnlessInvalid(codec, fold, SnapshotOf(node, scenario, safeguards, reference));
    TruncatedToZero(reference);
  }
}
