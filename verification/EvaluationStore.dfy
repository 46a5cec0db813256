/** The coverage_evaluations table: each repository call is one atomic step. */
module EvaluationStore {
  import opened Wrappers
  import opened Records
  import opened CoverageStates
  import opened Evaluator
  import opened Scoring
  import opened Independence

  // The result columns of a row.
  datatype Columns = Columns(
    coverageScore: real, uncovered: seq<PathResult>, deduplicated: seq<Deduplication>,
    explanation: Option<Explanation>, riskBefore: RiskRank, riskAfter: RiskRank)

  function InitialColumns(rank: RiskRank): Columns { Columns(0.0, [], [], None, rank, rank) }

  function ResultColumns(r: EvaluationResult): Columns {
    Columns(r.coverageScore, r.uncovered, r.deduplicated, Some(r.explanation), r.riskBefore, r.riskAfter)
  }

  datatype Row = Row(
    scenarioId: nat, snapshotText: string, inputHash: string, columns: Columns, state: CoverageState,
    evaluatedBy: nat, idempotencyKey: string, failureReason: Option<EvaluationError>,
    confirmedBy: Option<nat>, replayPassed: Option<bool>)

  // byKey is the unique index on idempotency_key.
  datatype Store = Store(rows: map<nat, Row>, byKey: map<string, nat>, nextId: nat)

  datatype Updates = NoUpdates | SetConfirmedBy(actor: nat) | SetFailure(reason: EvaluationError)

  function Apply(row: Row, to: CoverageState, updates: Updates): Row {
    match updates
    case NoUpdates => row.(state := to)
    case SetConfirmedBy(actor) => row.(state := to, confirmedBy := Some(actor))
    case SetFailure(reason) => row.(state := to, failureReason := Some(reason))
  }

  function Inserted(s: Store, row: Row): Store {
    Store(s.rows[s.nextId := row], s.byKey[row.idempotencyKey := s.nextId], s.nextId + 1)
  }

  function Written(s: Store, id: nat, row: Row): Store { s.(rows := s.rows[id := row]) }

  // UPDATE ... WHERE id = ? AND evaluation_state IN ?
  predicate Matches(s: Store, id: nat, from: set<CoverageState>) { id in s.rows && s.rows[id].state in from }

  function Transitioned(s: Store, id: nat, from: set<CoverageState>, to: CoverageState, updates: Updates): Store {
    if Matches(s, id, from) then Written(s, id, Apply(s.rows[id], to, updates)) else s
  }

  function CompletedRow(row: Row, text: string, hash: string, columns: Columns): Row {
    row.(snapshotText := text, inputHash := hash, columns := columns, state := Completed, failureReason := None)
  }

  function CompletedIn(s: Store, id: nat, expected: CoverageState, text: string, hash: string, columns: Columns): Store {
    if Matches(s, id, {expected}) then Written(s, id, CompletedRow(s.rows[id], text, hash, columns)) else s
  }

  function ReplayRecorded(s: Store, id: nat, passed: bool): Store {
    if id in s.rows then Written(s, id, s.rows[id].(replayPassed := Some(passed))) else s
  }

  class CoverageEvaluationRepository {
    var rows: map<nat, Row>
    var byKey: map<string, nat>
    var nextId: nat

    function Contents(): Store reads this { Store(rows, byKey, nextId) }

    constructor ()
      ensures Contents() == Store(map[], map[], 1)
    {
      rows, byKey, nextId := map[], map[], 1;
    }

    // Fails exactly when the unique index already holds the key.
    method Create(row: Row) returns (id: Option<nat>)
      modifies this
      ensures id.None? <==> row.idempotencyKey in old(byKey)
      ensures id.None? ==> Contents() == old(Contents())
      ensures id.Some? ==> id.value == old(nextId) && Contents() == Inserted(old(Contents()), row)
    {
      if row.idempotencyKey in byKey { return None; }
      rows := rows[nextId := row];
      byKey := byKey[row.idempotencyKey := nextId];
      id := Some(nextId);
      nextId := nextId + 1;
    }

    method GetByID(id: nat) returns (row: Option<Row>)
      ensures row == if id in rows then Some(rows[id]) else None
    {
      row := if id in rows then Some(rows[id]) else None;
    }

    method FindByIdempotencyKey(key: string) returns (id: Option<nat>)
      ensures id == if key in byKey then Some(byKey[key]) else None
    {
      id := if key in byKey then Some(byKey[key]) else None;
    }

    method Transition(id: nat, from: set<CoverageState>, to: CoverageState, updates: Updates) returns (changed: bool)
      modifies this`rows
      ensures changed == Matches(old(Contents()), id, from)
      ensures Contents() == Transitioned(old(Contents()), id, from, to, updates)
    {
      changed := id in rows && rows[id].state in from;
      if changed {
        var row := rows[id];
        match updates {
          case NoUpdates =>
          case SetConfirmedBy(actor) => row := row.(confirmedBy := Some(actor));
          case SetFailure(reason) => row := row.(failureReason := Some(reason));
        }
        rows := rows[id := row.(state := to)];
      }
    }

    method Complete(id: nat, expected: CoverageState, text: string, hash: string, columns: Columns) returns (changed: bool)
      modifies this`rows
      ensures changed == Matches(old(Contents()), id, {expected})
      ensures Contents() == CompletedIn(old(Contents()), id, expected, text, hash, columns)
    {
      changed := id in rows && rows[id].state == expected;
      if changed {
        rows := rows[id := rows[id].(snapshotText := text, inputHash := hash, columns := columns,
                                     failureReason := None, state := Completed)];
      }
    }

    method SetReplayResult(id: nat, passed: bool) returns (found: bool)
      modifies this`rows
      ensures found == (id in old(rows))
      ensures Contents() == ReplayRecorded(old(Contents()), id, passed)
    {
      found := id in rows;
      if found {
        rows := rows[id := rows[id].(replayPassed := Some(passed))];
      }
    }
  }
}
