/** Safety of the evaluation service over every run: all interleavings of any number of
    requests, each of which may stop for ever at any point. */
module EvaluationTheorems {
  import opened Wrappers
  import opened Records
  import opened CoverageStates
  import opened EvaluationStore
  import opened Evaluator
  import opened EvaluationMachine
  import opened EvaluationInvariants
  import opened EvaluationSteps
  import opened EvaluationSchedules
  import opened ResultLaws
  import Statements

  // The environment in which the evaluator is the one of the algorithm modules.
  function RealEnv(codec: Codec, fold: Statements.Folding, author: nat -> nat): Env {
    Env(codec, (s: Snapshot) => Evaluate(codec, fold, s), author)
  }

  lemma RealEnvIsValid(codec: Codec, fold: Statements.Folding, author: nat -> nat)
    requires codec.RoundTrips()
    ensures RealEnv(codec, fold, author).Valid()
    ensures forall text, hash, score ::
      RealEnv(codec, fold, author).Judge(text, hash, score) == Evaluator.Replay(codec, fold, text, hash, score)
  {
    hide InputError, ResolutionOf, SnapshotScore;
  }

  // ----- Run

  /** No Run ever meets a conflict or the fall-through after a unique violation, and one that
      finishes leaves its row completed (or reviewed since) or failed (or voided since). A row
      it has completed names its actor and scenario and has an audit record. */
  lemma RunNeverConflicts(env: Env, events: seq<Event>, rid: nat)
    requires env.Valid()
    ensures var s := Exec(env, Init, events);
      rid in s.requests && s.requests[rid].Run? && s.requests[rid].pc.RunDone? ==>
        match s.requests[rid].pc.outcome
        case InvalidKey => true
        case InputMissing => true
        case FreezeFailed => true
        case Returned(id, duplicate) =>
          && id in s.store.rows && id in s.trails && s.store.rows[id].idempotencyKey == s.requests[rid].key
          && (!duplicate ==>
                && s.store.rows[id].state in {Completed, Confirmed, Voided} && s.trails[id].creator == rid
                && s.store.rows[id].evaluatedBy == s.requests[rid].actor && s.store.rows[id].scenarioId == s.requests[rid].scenarioId
                && RunAudit(id, s.requests[rid].actor, s.store.rows[id].inputHash) in s.audits)
        case Rejected(id) =>
          id in s.store.rows && id in s.trails && s.store.rows[id].state in {Failed, Voided} && s.trails[id].creator == rid
        case _ => false
  {
    var s := Exec(env, Init, events);
    Reachable(env, events);
    if rid in s.requests && s.requests[rid].Run? && s.requests[rid].pc.RunDone? {
      RunOutcome(env, s, rid);
    }
  }

  lemma RunOutcome(env: Env, s: State, rid: nat)
    requires Inv(env, s) && rid in s.requests && s.requests[rid].Run? && s.requests[rid].pc.RunDone?
    ensures var o := s.requests[rid].pc.outcome;
      && o != InsertFailed && o != StartConflict && o != StoreConflict
      && (o.Returned? ==> o.id in s.store.rows && s.store.rows[o.id].idempotencyKey == s.requests[rid].key)
      && (o.Returned? && !o.duplicate ==>
            && s.store.rows[o.id].state in {Completed, Confirmed, Voided} && s.trails[o.id].creator == rid
            && s.store.rows[o.id].evaluatedBy == s.requests[rid].actor && s.store.rows[o.id].scenarioId == s.requests[rid].scenarioId
            && RunAudit(o.id, s.requests[rid].actor, s.store.rows[o.id].inputHash) in s.audits)
      && (o.Rejected? ==> o.id in s.store.rows && s.store.rows[o.id].state in {Failed, Voided} && s.trails[o.id].creator == rid)
  {
    hide Inv;
    var q := s.requests[rid];
    var id := if Owned(q).Some? then Owned(q).value else 0;
    Known(env, s, rid, id);
    if Owned(q).Some? { LaterStates(s.trails[id].history); }
  }

  lemma LaterStates(h: History)
    requires FollowsTable(h)
    ensures Completed in h ==> Last(h) in {Completed, Confirmed, Voided}
    ensures Failed in h ==> Last(h) in {Failed, Voided}
  {
    HistoryShape(h);
    if |h| > 3 { assert CanTransition(h[2], h[3]); }
    if |h| > 4 { assert CanTransition(h[3], h[4]); }
  }

  /** A queued or running row has one possible mover: the Run that created it. */
  lemma OnlyTheCreatorMoves(env: Env, s: State, e: Event, id: nat)
    requires env.Valid() && Inv(env, s)
    requires id in s.store.rows && s.store.rows[id].state in {Queued, Running}
    requires e.rid != s.trails[id].creator
    ensures id in Next(env, s, e).store.rows && Next(env, s, e).store.rows[id].state == s.store.rows[id].state
    ensures id in Next(env, s, e).trails && Next(env, s, e).trails[id] == s.trails[id]
  {
    hide Inv, Env.Valid;
    NextKeeps(env, s, e);
    Known(env, s, 0, id);
    Known(env, Next(env, s, e), 0, id);
    HistoryShape(s.trails[id].history);
  }

  // So when that Run has crashed, the row stays as it is for ever: nothing can even void it.
  lemma {:induction false} CrashedRowStays(env: Env, s: State, events: seq<Event>, id: nat)
    requires env.Valid() && Inv(env, s)
    requires id in s.store.rows && s.store.rows[id].state in {Queued, Running}
    requires forall e | e in events :: e.rid != s.trails[id].creator
    ensures id in Exec(env, s, events).store.rows && Exec(env, s, events).store.rows[id].state == s.store.rows[id].state
    ensures id in Exec(env, s, events).trails && Exec(env, s, events).trails[id] == s.trails[id]
  {
    hide Inv, Env.Valid;
    IndexOf(env, s);
    if events != [] {
      var n := |events| - 1;
      assert events[n] in events;
      CrashedRowStays(env, s, events[..n], id);
      EveryRunKeeps(env, s, events[..n]);
      OnlyTheCreatorMoves(env, Exec(env, s, events[..n]), events[n], id);
    }
  }

  /** Idempotency: Runs with the same trimmed key return the same row, at most one of them
      as its creator. */
  lemma SameKeySameRow(env: Env, events: seq<Event>, r1: nat, r2: nat, i1: nat, d1: bool, i2: nat, d2: bool)
    requires env.Valid()
    requires var s := Exec(env, Init, events);
      && r1 in s.requests && s.requests[r1].Run? && s.requests[r1].pc == RunDone(Returned(i1, d1))
      && r2 in s.requests && s.requests[r2].Run? && s.requests[r2].pc == RunDone(Returned(i2, d2))
      && s.requests[r1].key == s.requests[r2].key
    ensures i1 == i2
    ensures !d1 && !d2 ==> r1 == r2
  {
    var s := Exec(env, Init, events);
    Reachable(env, events);
    hide Inv;
    RunOutcome(env, s, r1);
    RunOutcome(env, s, r2);
    Known(env, s, r1, i1);
    assert Lists(s.store, i1) && Lists(s.store, i2);
  }

  // ----- frozen input, write-once results

  ghost predicate Evolved(s: State, t: State, id: nat) {
    && id in s.store.rows && id in s.trails && id in t.store.rows && id in t.trails
    && RowGrows(s.store.rows[id], t.store.rows[id])
    && s.trails[id].creator == t.trails[id].creator
    && s.trails[id].history <= t.trails[id].history
  }

  /** From its creation on, a row keeps its snapshot text, hash, scenario and key, and its
      history only grows. */
  lemma {:induction false} InputIsFrozen(env: Env, s: State, events: seq<Event>, id: nat)
    requires env.Valid() && Inv(env, s)
    requires id in s.store.rows
    ensures Evolved(s, Exec(env, s, events), id)
  {
    hide Env.Valid, Inv;
    IndexOf(env, s);
    if events != [] {
      var n := |events| - 1;
      InputIsFrozen(env, s, events[..n], id);
      EveryRunKeeps(env, s, events[..n]);
      StepEvolves(env, s, Exec(env, s, events[..n]), events[n], id);
    }
  }

  lemma StepEvolves(env: Env, s: State, t: State, e: Event, id: nat)
    requires env.Valid() && Inv(env, t) && Evolved(s, t, id)
    ensures Evolved(s, Next(env, t, e), id)
  {
    hide Env.Valid, Inv, Next;
    NextKeeps(env, t, e);
  }

  // The stored results are those of r, column by column.
  predicate ShowsResult(row: Row, r: EvaluationResult) {
    && row.columns.coverageScore == r.coverageScore && row.columns.uncovered == r.uncovered
    && row.columns.deduplicated == r.deduplicated && row.columns.explanation == Some(r.explanation)
    && row.columns.riskBefore == r.riskBefore && row.columns.riskAfter == r.riskAfter
  }

  // No results yet: the score 0, and the initial risk on both sides.
  predicate ShowsNothing(row: Row, input: Snapshot) {
    && row.columns.coverageScore == 0.0 && row.columns.uncovered == [] && row.columns.deduplicated == [] && row.columns.explanation.None?
    && row.columns.riskBefore == row.columns.riskAfter == RankOf(input.scenario.likelihood * input.scenario.severity)
  }

  /** The results of a row that has completed, confirmed or voided since, are those of its
      own frozen input, and the hash is the hash of the text; before, and in a failed row, there
      are none. A failed row, and only such, gives the reason why its input does not evaluate. */
  lemma ResultsAreThoseOfTheInput(env: Env, events: seq<Event>, id: nat)
    requires env.Valid()
    ensures var s := Exec(env, Init, events);
      id in s.store.rows ==>
        && id in s.trails
        && var row := s.store.rows[id];
           && env.codec.decode(row.snapshotText).Some?
           && var input := env.codec.decode(row.snapshotText).value;
              && row.snapshotText == env.codec.encode(input) && row.inputHash == env.codec.hash(row.snapshotText)
              && input.scenario.id == row.scenarioId
              && (if Completed in s.trails[id].history then env.evaluate(input).Ok? && ShowsResult(row, env.evaluate(input).value)
                  else ShowsNothing(row, input))
              && (if Failed in s.trails[id].history then env.evaluate(input).Err? && row.failureReason == Some(env.evaluate(input).error)
                  else row.failureReason.None?)
  {
    Reachable(env, events);
    hide Inv;
    Known(env, Exec(env, Init, events), 0, id);
  }

  // The columns of a row that shows the result of its input.
  ghost predicate ColumnsMean(codec: Codec, fold: Statements.Folding, row: Row) {
    && codec.decode(row.snapshotText).Some?
    && Summarises(fold, codec.decode(row.snapshotText).value,
         row.columns.coverageScore, row.columns.deduplicated, row.columns.riskBefore, row.columns.uncovered)
  }

  lemma ShownResultMeans(codec: Codec, fold: Statements.Folding, row: Row, input: Snapshot)
    requires codec.decode(row.snapshotText) == Some(input)
    requires Evaluate(codec, fold, input).Ok? && ShowsResult(row, Evaluate(codec, fold, input).value)
    ensures ColumnsMean(codec, fold, row)
  {
    hide Evaluate, Summarises;
    ResultSummarised(codec, fold, input);
  }

  /** In the service's own environment: a stored row that has completed carries the protection of
      the layers retained from its frozen input, to four decimals of a per cent, and the initial
      rank, the report and the uncovered paths that go with it. */
  lemma StoredResultMeans(codec: Codec, fold: Statements.Folding, author: nat -> nat, events: seq<Event>, id: nat)
    requires codec.RoundTrips()
    requires var s := Exec(RealEnv(codec, fold, author), Init, events);
      id in s.store.rows && id in s.trails && Completed in s.trails[id].history
    ensures ColumnsMean(codec, fold, Exec(RealEnv(codec, fold, author), Init, events).store.rows[id])
  {
    var env := RealEnv(codec, fold, author);
    RealEnvIsValid(codec, fold, author);
    hide Exec, Evaluate, Env.Valid, ColumnsMean, Codec.RoundTrips, ShowsResult, ShowsNothing;
    ResultsAreThoseOfTheInput(env, events, id);
    var row := Exec(env, Init, events).store.rows[id];
    var input := codec.decode(row.snapshotText).value;
    assert env.evaluate(input) == Evaluate(codec, fold, input);
    ShownResultMeans(codec, fold, row, input);
  }

  /** A Replay that reads a row which has completed always passes; one that reads it earlier
      fails or errs exactly as JudgeRow says. Its verdict is in the audit. */
  lemma ReplayOfCompletedPasses(env: Env, events: seq<Event>, rid: nat)
    requires env.Valid()
    ensures var s := Exec(env, Init, events);
      rid in s.requests && s.requests[rid].Replay? && s.requests[rid].replay.ReplayDone? ==>
        && (s.requests[rid].replay.completed ==> s.requests[rid].replay.outcome == Reproduced)
        && (s.requests[rid].replay.outcome in {Reproduced, NotReproduced} ==>
              ReplayAudit(s.requests[rid].id, s.requests[rid].actor, s.requests[rid].replay.outcome == Reproduced) in s.audits)
  {
    Reachable(env, events);
    hide Inv;
    Known(env, Exec(env, Init, events), rid, 0);
  }

  // ----- the transition table and the reviewers

  /** The service refines the table it never consults: the states committed to a row form
      a path of the table from `queued`, with at most four writes. */
  lemma TableIsRefined(env: Env, events: seq<Event>, id: nat)
    requires env.Valid()
    ensures var s := Exec(env, Init, events);
      id in s.store.rows ==>
        id in s.trails && FollowsTable(s.trails[id].history) && |s.trails[id].history| <= 5
        && Last(s.trails[id].history) == s.store.rows[id].state
  {
    var s := Exec(env, Init, events);
    Reachable(env, events);
    hide Inv;
    Known(env, s, 0, id);
    if id in s.store.rows { HistoryShape(s.trails[id].history); }
  }

  /** In every later state of the row as well, the confirmer is not the scenario's author,
      and a row has one exactly when it was confirmed. */
  lemma ConfirmerIsNotAuthor(env: Env, events: seq<Event>, id: nat)
    requires env.Valid()
    ensures var s := Exec(env, Init, events);
      id in s.store.rows ==>
        && id in s.trails
        && (s.store.rows[id].confirmedBy.Some? <==> Confirmed in s.trails[id].history)
        && s.store.rows[id].confirmedBy != Some(env.author(s.store.rows[id].scenarioId))
  {
    Reachable(env, events);
    hide Inv;
    Known(env, Exec(env, Init, events), 0, id);
  }

  /** A review audit tells the truth in order, despite its stale reads: the state before, the
      acted edge and the state after are successive positions of the row's own history. The
      row after a confirmation names its actor as confirmer; it is confirmed exactly when
      nothing was committed between the update and the re-read, and voided otherwise. */
  lemma AuditsFollowHistory(env: Env, events: seq<Event>, a: Audit)
    requires env.Valid()
    requires a in Exec(env, Init, events).audits && a.ReviewAudit?
    ensures var s := Exec(env, Init, events);
      a.id in s.trails && TruthfulReview(s.trails[a.id].history, a)
  {
    Reachable(env, events);
    hide Inv, Env.Valid, Exec;
    ReviewIsTruthful(env, Exec(env, Init, events), a);
  }

  ghost predicate TruthfulReview(h: History, a: Audit)
    requires a.ReviewAudit?
  {
    && FollowsTable(h)
    && a.readAt < a.actedAt <= a.reloadedAt < |h|
    && h[a.readAt] == a.before.state
    && h[a.actedAt - 1] in ReviewSources(a.action) && h[a.actedAt] == ReviewTarget(a.action)
    && h[a.reloadedAt] == a.after.state
    && (a.action.VoidAction? ==> a.after.state == Voided)
    && (a.action.ConfirmAction? ==>
          && a.after.confirmedBy == Some(a.actor)
          && a.after.state == (if a.reloadedAt == a.actedAt then Confirmed else Voided))
  }

  lemma ReviewIsTruthful(env: Env, s: State, a: Audit)
    requires Inv(env, s) && a in s.audits && a.ReviewAudit?
    ensures a.id in s.trails && TruthfulReview(s.trails[a.id].history, a)
  {
    hide Inv;
    AuditKnown(env, s, a);
    Known(env, s, 0, a.id);
    var h := s.trails[a.id].history;
    ReviewedStates(h, a.actedAt, a.reloadedAt);
    if a.actedAt < a.reloadedAt {
      ReviewedStates(h, a.actedAt + 1, a.reloadedAt);
      assert CanTransition(h[a.actedAt], h[a.actedAt + 1]);
    }
  }

  lemma AuditKnown(env: Env, s: State, a: Audit)
    requires Inv(env, s) && a in s.audits
    ensures AuditOk(s, a)
  {
    hide RowOk, RequestOk, OwnerOk, Lists;
  }

  lemma ReviewedStates(h: History, i: nat, j: nat)
    requires FollowsTable(h) && i <= j < |h|
    ensures h[i] == Voided ==> h[j] == Voided
    ensures h[i] == Confirmed ==> h[j] in {Confirmed, Voided}
  {
    if i < j {
      ReviewedStates(h, i, j - 1);
      assert CanTransition(h[j - 1], h[j]);
    }
  }
}
