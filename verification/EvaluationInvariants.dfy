/** The invariant of the evaluation machine, and how a change to one row affects it. */
module EvaluationInvariants {
  import opened Wrappers
  import opened Records
  import opened CoverageStates
  import opened EvaluationStore
  import opened EvaluationMachine

  // ----- rows

  // The stored text is the encoding of a snapshot of the row's scenario, under its hash.
  ghost predicate Frozen(env: Env, row: Row) {
    && env.codec.decode(row.snapshotText).Some?
    && row.snapshotText == env.codec.encode(FrozenInput(env, row))
    && row.inputHash == env.codec.hash(row.snapshotText)
    && row.scenarioId == FrozenInput(env, row).scenario.id
  }

  ghost function FrozenInput(env: Env, row: Row): Snapshot
    requires env.codec.decode(row.snapshotText).Some?
  {
    env.codec.decode(row.snapshotText).value
  }

  // The result columns are those of the frozen input once the row has completed, and
  // untouched before.
  ghost predicate ResultsOk(env: Env, row: Row, h: History)
    requires env.codec.decode(row.snapshotText).Some?
  {
    var outcome := env.evaluate(FrozenInput(env, row));
    && (Completed in h ==> outcome.Ok? && row.columns == ResultColumns(outcome.value))
    && (Completed !in h ==> row.columns == InitialColumns(RankOf(FrozenInput(env, row).scenario.InitialRisk())))
    && (Failed in h ==> outcome.Err? && row.failureReason == Some(outcome.error))
    && (Failed !in h ==> row.failureReason.None?)
  }

  ghost predicate RowOk(env: Env, row: Row, h: History) {
    && FollowsTable(h) && Last(h) == row.state
    && Frozen(env, row)
    && ResultsOk(env, row, h)
    && (row.confirmedBy.Some? <==> Confirmed in h)
    && (row.confirmedBy.Some? ==> row.confirmedBy.value != env.author(row.scenarioId))
  }

  ghost predicate SameInput(a: Row, b: Row) {
    && a.scenarioId == b.scenarioId && a.snapshotText == b.snapshotText && a.inputHash == b.inputHash
    && a.idempotencyKey == b.idempotencyKey && a.evaluatedBy == b.evaluatedBy
  }

  // A row may also gain a confirmer, once.
  ghost predicate RowGrows(a: Row, b: Row) {
    SameInput(a, b) && (a.confirmedBy.Some? ==> b.confirmedBy == a.confirmedBy)
  }

  // What a Replay finds of a row: a completed one reproduces, an earlier one only with the
  // score 0 it was created with, and not at all when its input does not evaluate.
  ghost predicate Judged(env: Env, row: Row, completed: bool, passed: bool) {
    && (passed <==> completed || ScoresZero(env, row))
    && (passed || Evaluates(env, row))
  }

  ghost predicate Evaluates(env: Env, row: Row) {
    env.codec.decode(row.snapshotText).Some? && env.evaluate(FrozenInput(env, row)).Ok?
  }

  ghost predicate ScoresZero(env: Env, row: Row) {
    Evaluates(env, row) && env.evaluate(FrozenInput(env, row)).value.coverageScore == 0.0
  }

  // ----- requests

  // The row a Run has created, from the insert on.
  ghost function Owned(q: Request): Option<nat> {
    match q
    case Run(_, _, _, Start(id, _)) => Some(id)
    case Run(_, _, _, Finish(id, _)) => Some(id)
    case Run(_, _, _, Reload(id)) => Some(id)
    case Run(_, _, _, LogRun(id, _)) => Some(id)
    case Run(_, _, _, RunDone(Returned(id, false))) => Some(id)
    case Run(_, _, _, RunDone(Rejected(id))) => Some(id)
    case _ => None
  }

  // Where the creating Run stands fixes how far its row has come.
  ghost predicate RunAgrees(env: Env, pc: RunPc, row: Row, h: History) {
    match pc
    case Start(_, snapshot) => h == [Queued] && env.codec.encodable(snapshot) && row.snapshotText == env.codec.encode(snapshot)
    case Finish(_, snapshot) => h == [Queued, Running] && env.codec.encodable(snapshot) && row.snapshotText == env.codec.encode(snapshot)
    case Reload(_) => Completed in h
    case LogRun(_, _) => Completed in h
    case RunDone(Returned(_, duplicate)) => !duplicate ==> Completed in h
    case RunDone(Rejected(_)) => Failed in h
    case _ => true
  }

  ghost predicate RunOk(env: Env, s: State, rid: nat, q: Request)
    requires q.Run?
  {
    && (Owned(q).Some? ==>
          var id := Owned(q).value;
          && id in s.store.rows && id in s.trails
          && s.trails[id].creator == rid
          && s.store.rows[id].idempotencyKey == q.key && s.store.rows[id].evaluatedBy == q.actor
          && s.store.rows[id].scenarioId == q.scenarioId
          && RunAgrees(env, q.pc, s.store.rows[id], s.trails[id].history))
    && (q.pc.FindAgain? ==> q.key in s.store.byKey)
    && (q.pc.Insert? ==> q.pc.snapshot.scenario.id == q.scenarioId && env.codec.encodable(q.pc.snapshot))
    && (q.pc.LoadNode? || q.pc.LoadSafeguards? ==> q.pc.scenario.id == q.scenarioId)
    && (q.pc.LogRun? ==> SameInput(q.pc.row, s.store.rows[q.pc.id]))
    && (q.pc.RunDone? ==> RunOutcomeOk(s, q.key, q.pc.outcome))
    && (q.pc.RunDone? && q.pc.outcome.Returned? && !q.pc.outcome.duplicate ==>
          RunAudit(q.pc.outcome.id, q.actor, s.store.rows[q.pc.outcome.id].inputHash) in s.audits)
  }

  ghost predicate RunOutcomeOk(s: State, key: string, o: RunOutcome) {
    && o != InsertFailed && o != StartConflict && o != StoreConflict
    && (o.Returned? ==> o.id in s.store.rows && s.store.rows[o.id].idempotencyKey == key)
  }

  // The audited steps as positions in the history of row id.
  ghost predicate ReadAt(s: State, id: nat, before: Row, readAt: nat) {
    && id in s.store.rows && id in s.trails
    && before.scenarioId == s.store.rows[id].scenarioId
    && readAt < |s.trails[id].history|
    && s.trails[id].history[readAt] == before.state
  }

  ghost predicate ActedAt(s: State, id: nat, actor: nat, action: Action, readAt: nat, actedAt: nat) {
    && id in s.store.rows && id in s.trails
    && readAt < actedAt < |s.trails[id].history|
    && s.trails[id].history[actedAt - 1] in ReviewSources(action)
    && s.trails[id].history[actedAt] == ReviewTarget(action)
    && (action.ConfirmAction? ==> s.store.rows[id].confirmedBy == Some(actor))
  }

  ghost predicate ReloadedAt(s: State, id: nat, actor: nat, action: Action, after: Row, actedAt: nat, reloadedAt: nat) {
    && id in s.store.rows && id in s.trails
    && actedAt <= reloadedAt < |s.trails[id].history|
    && s.trails[id].history[reloadedAt] == after.state
    && SameInput(after, s.store.rows[id])
    && (action.ConfirmAction? ==> after.confirmedBy == Some(actor))
  }

  ghost predicate ReviewOk(env: Env, s: State, id: nat, actor: nat, action: Action, pc: ReviewPc) {
    match pc
    case Read => true
    case ReadAuthor(before, readAt) => ReadAt(s, id, before, readAt)
    case Act(before, readAt) =>
      ReadAt(s, id, before, readAt) && (action.ConfirmAction? ==> env.author(before.scenarioId) != actor)
    case ReloadRow(before, readAt, actedAt) =>
      ReadAt(s, id, before, readAt) && ActedAt(s, id, actor, action, readAt, actedAt)
    case LogReview(before, after, readAt, actedAt, reloadedAt) =>
      && ReadAt(s, id, before, readAt) && ActedAt(s, id, actor, action, readAt, actedAt)
      && ReloadedAt(s, id, actor, action, after, actedAt, reloadedAt)
    case ReviewDone(Acted(row)) => exists a | a in s.audits :: LogsReview(a, id, actor, action, row)
    case ReviewDone(_) => true
  }

  predicate LogsReview(a: Audit, id: nat, actor: nat, action: Action, row: Row) {
    a.ReviewAudit? && a.id == id && a.actor == actor && a.action == action && a.after == row
  }

  ghost predicate ReplayOk(env: Env, s: State, id: nat, actor: nat, pc: ReplayPc) {
    match pc
    case ReadRow => true
    case StoreVerdict(passed, completed) => id in s.store.rows && Judged(env, s.store.rows[id], completed, passed)
    case LogReplay(passed, completed) => id in s.store.rows && Judged(env, s.store.rows[id], completed, passed)
    case ReplayDone(outcome, completed) =>
      && (completed ==> outcome == Reproduced)
      && (outcome == Reproduced || outcome == NotReproduced ==>
            && id in s.store.rows && Judged(env, s.store.rows[id], completed, outcome == Reproduced)
            && ReplayAudit(id, actor, outcome == Reproduced) in s.audits)
  }

  ghost predicate RequestOk(env: Env, s: State, rid: nat, q: Request) {
    match q
    case Run(_, _, _, _) => RunOk(env, s, rid, q)
    case Confirm(id, actor, pc) => ReviewOk(env, s, id, actor, ConfirmAction, pc)
    case Void(id, actor, pc) => ReviewOk(env, s, id, actor, VoidAction, pc)
    case Replay(id, actor, pc) => ReplayOk(env, s, id, actor, pc)
  }

  ghost predicate AuditOk(s: State, a: Audit) {
    && a.id in s.store.rows && a.id in s.trails
    && (a.RunAudit? ==>
          && a.actor == s.store.rows[a.id].evaluatedBy && a.inputHash == s.store.rows[a.id].inputHash
          && Completed in s.trails[a.id].history)
    && (a.ReviewAudit? ==> ReviewAuditOk(s, a))
  }

  ghost predicate ReviewAuditOk(s: State, a: Audit)
    requires a.ReviewAudit?
  {
      && ReadAt(s, a.id, a.before, a.readAt)
      && ActedAt(s, a.id, a.actor, a.action, a.readAt, a.actedAt)
      && ReloadedAt(s, a.id, a.actor, a.action, a.after, a.actedAt, a.reloadedAt)
  }

  // ----- the whole state

  ghost predicate Indexed(s: State) {
    && s.store.rows.Keys == s.trails.Keys
    && (forall id | id in s.store.rows :: id < s.store.nextId)
    && (forall k | k in s.store.byKey :: s.store.byKey[k] in s.store.rows && s.store.rows[s.store.byKey[k]].idempotencyKey == k)
    && (forall id | id in s.store.rows :: Lists(s.store, id))
  }

  ghost predicate Lists(store: Store, id: nat)
    requires id in store.rows
  {
    store.rows[id].idempotencyKey in store.byKey && store.byKey[store.rows[id].idempotencyKey] == id
  }

  ghost predicate RowsOk(env: Env, s: State)
    requires Indexed(s)
  {
    forall id | id in s.store.rows :: RowOk(env, s.store.rows[id], s.trails[id].history)
  }

  ghost predicate OwnersOk(s: State) {
    forall id | id in s.trails :: OwnerOk(s, id)
  }

  ghost predicate OwnerOk(s: State, id: nat)
    requires id in s.trails
  {
    s.trails[id].creator in s.requests && Owned(s.requests[s.trails[id].creator]) == Some(id)
  }

  ghost predicate RequestsOk(env: Env, s: State) {
    forall rid | rid in s.requests :: RequestOk(env, s, rid, s.requests[rid])
  }

  ghost predicate AuditsOk(s: State) { forall a | a in s.audits :: AuditOk(s, a) }

  // The stored verdict is the one of its history variable.
  ghost predicate VerdictOk(env: Env, row: Row, verdicts: map<nat, bool>, id: nat) {
    if id in verdicts then row.replayPassed.Some? && Judged(env, row, verdicts[id], row.replayPassed.value)
    else row.replayPassed.None?
  }

  ghost predicate VerdictsOk(env: Env, s: State) {
    && (forall id | id in s.verdicts :: id in s.store.rows)
    && (forall id | id in s.store.rows :: VerdictOk(env, s.store.rows[id], s.verdicts, id))
  }

  ghost predicate Inv(env: Env, s: State) {
    Indexed(s) && RowsOk(env, s) && OwnersOk(s) && RequestsOk(env, s) && AuditsOk(s) && VerdictsOk(env, s)
  }

  // ----- growth: what a step of request rid may do to the store

  ghost predicate TrailGrows(t: Trail, u: Trail, rid: nat) {
    && t.creator == u.creator
    && t.history <= u.history
    && (t.history != u.history && t.creator != rid ==> |t.history| >= 3)
  }

  ghost predicate Grows(s: State, t: State, rid: nat) {
    && (forall a | a in s.audits :: a in t.audits)
    && (forall k | k in s.store.byKey :: k in t.store.byKey)
    && (forall id | id in s.store.rows && id in s.trails :: id in t.store.rows && id in t.trails
          && RowGrows(s.store.rows[id], t.store.rows[id])
          && TrailGrows(s.trails[id], t.trails[id], rid))
  }

  lemma OtherRunsKeep(env: Env, s: State, t: State, rid: nat, r: nat, q: Request)
    requires Indexed(s)
    requires q.Run? && RunOk(env, s, r, q) && r != rid
    requires Grows(s, t, rid)
    ensures RunOk(env, t, r, q)
  {
    if Owned(q).Some? {
      var h := s.trails[Owned(q).value].history;
      assert forall x | x in h :: x in t.trails[Owned(q).value].history;
    }
  }

  lemma OtherReviewsKeep(env: Env, s: State, t: State, rid: nat, id: nat, actor: nat, action: Action, pc: ReviewPc)
    requires ReviewOk(env, s, id, actor, action, pc) && Grows(s, t, rid)
    ensures ReviewOk(env, t, id, actor, action, pc)
  {
  }

  lemma OtherReplaysKeep(env: Env, s: State, t: State, rid: nat, id: nat, actor: nat, pc: ReplayPc)
    requires Indexed(s) && ReplayOk(env, s, id, actor, pc) && Grows(s, t, rid)
    ensures ReplayOk(env, t, id, actor, pc)
  {
  }

  lemma OthersKeep(env: Env, s: State, t: State, rid: nat, r: nat, q: Request)
    requires Indexed(s)
    requires RequestOk(env, s, r, q) && r != rid
    requires Grows(s, t, rid)
    ensures RequestOk(env, t, r, q)
  {
    hide RunOk, ReviewOk, ReplayOk, Grows;
    match q
    case Run(_, _, _, _) => OtherRunsKeep(env, s, t, rid, r, q);
    case Confirm(id, actor, pc) => OtherReviewsKeep(env, s, t, rid, id, actor, ConfirmAction, pc);
    case Void(id, actor, pc) => OtherReviewsKeep(env, s, t, rid, id, actor, VoidAction, pc);
    case Replay(id, actor, pc) => OtherReplaysKeep(env, s, t, rid, id, actor, pc);
  }

  lemma AuditsKeep(s: State, t: State, rid: nat, a: Audit)
    requires Indexed(s)
    requires AuditOk(s, a) && Grows(s, t, rid)
    ensures AuditOk(t, a)
  {
  }

  // What the step of rid leaves to the other requests and to the audit records.
  lemma Preserved(env: Env, s: State, t: State, rid: nat, q: Request)
    requires Indexed(s) && RequestsOk(env, s) && AuditsOk(s)
    requires Grows(s, t, rid)
    requires t.requests == s.requests[rid := q] && RequestOk(env, t, rid, q)
    requires t.audits == s.audits
    ensures RequestsOk(env, t) && AuditsOk(t)
  {
    forall r | r in t.requests ensures RequestOk(env, t, r, t.requests[r]) {
      if r != rid { OthersKeep(env, s, t, rid, r, s.requests[r]); }
    }
    forall a | a in t.audits ensures AuditOk(t, a) { AuditsKeep(s, t, rid, a); }
  }

  lemma SameTables(s: State, t: State, rid: nat)
    requires t.store == s.store && t.trails == s.trails && s.audits <= t.audits
    requires Indexed(s)
    ensures Indexed(t) && Grows(s, t, rid)
  {
    forall id | id in s.store.rows ensures Lists(t.store, id) { assert Lists(s.store, id); }
  }

  lemma SameRows(env: Env, s: State, t: State)
    requires t.store == s.store && t.trails == s.trails
    requires Indexed(s) && Indexed(t) && RowsOk(env, s)
    ensures RowsOk(env, t)
  {
  }

  lemma OwnersStay(s: State, t: State, rid: nat, q: Request)
    requires OwnersOk(s)
    requires t.trails.Keys == s.trails.Keys && t.requests == s.requests[rid := q]
    requires forall id | id in s.trails :: t.trails[id].creator == s.trails[id].creator
    requires rid in s.requests ==> Owned(q) == Owned(s.requests[rid])
    ensures OwnersOk(t)
  {
    forall id | id in t.trails ensures OwnerOk(t, id) { assert OwnerOk(s, id); }
  }

  ghost predicate Moves(env: Env, s: State, rid: nat, q: Request) {
    && (rid in s.requests ==> Owned(q) == Owned(s.requests[rid]))
    && RequestOk(env, With(s, rid, q), rid, q)
  }

  // A step that only moves its own request.
  lemma RequestMoves(env: Env, s: State, rid: nat, q: Request)
    requires Inv(env, s) && Moves(env, s, rid, q)
    ensures Inv(env, With(s, rid, q)) && Grows(s, With(s, rid, q), rid)
  {
    hide RowOk, RequestOk, AuditOk, OwnerOk, Lists, VerdictOk;
    var t := With(s, rid, q);
    SameTables(s, t, rid);
    SameRows(env, s, t);
    OwnersStay(s, t, rid, q);
    Preserved(env, s, t, rid, q);
  }

  lemma IndexOf(env: Env, s: State)
    requires Inv(env, s)
    ensures Indexed(s)
  {
  }

  // What the invariant says about one request and one row.
  lemma Known(env: Env, s: State, rid: nat, id: nat)
    requires Inv(env, s)
    ensures Indexed(s)
    ensures rid in s.requests ==> RequestOk(env, s, rid, s.requests[rid])
    ensures id in s.store.rows ==> RowOk(env, s.store.rows[id], s.trails[id].history)
  {
    hide RowOk, RequestOk, AuditOk, OwnerOk, Lists, VerdictOk;
  }

  lemma AuditsAfter(env: Env, s: State, t: State, a: Audit)
    requires Indexed(s) && AuditsOk(s) && AuditOk(s, a)
    requires t == s.(audits := s.audits + [a])
    ensures AuditsOk(t)
  {
    SameTables(s, t, 0);
    forall b | b in t.audits ensures AuditOk(t, b) {
      assert AuditOk(s, b);
      AuditsKeep(s, t, 0, b);
    }
  }

  lemma RequestsAfter(env: Env, s: State, t: State)
    requires Indexed(s) && RequestsOk(env, s)
    requires t.store == s.store && t.trails == s.trails && t.requests == s.requests && s.audits <= t.audits
    ensures RequestsOk(env, t)
  {
    forall r | r in t.requests ensures RequestOk(env, t, r, t.requests[r]) {
      SameTables(s, t, r + 1);
      OthersKeep(env, s, t, r + 1, r, s.requests[r]);
    }
  }

  // An audit record is appended.
  lemma AuditAdded(env: Env, s: State, a: Audit)
    requires Inv(env, s) && AuditOk(s, a)
    ensures Inv(env, s.(audits := s.audits + [a]))
  {
    var t := s.(audits := s.audits + [a]);
    SameTables(s, t, 0);
    SameRows(env, s, t);
    AuditsAfter(env, s, t, a);
    RequestsAfter(env, s, t);
    forall id | id in t.trails ensures OwnerOk(t, id) { assert OwnerOk(s, id); }
  }

  // ----- steps that write one row

  ghost predicate Rewrites(s: State, t: State, id: nat, row: Row, h: History) {
    && id in s.store.rows && id in s.trails
    && t.store == Written(s.store, id, row)
    && t.trails == s.trails[id := s.trails[id].(history := h)] && t.audits == s.audits
    && RowGrows(s.store.rows[id], row)
    && s.trails[id].history <= h
  }

  // Either the verdict of the row stays, or this is the step that stores it.
  ghost predicate Rejudges(env: Env, s: State, t: State, id: nat, row: Row) {
    || (t.verdicts == s.verdicts && id in s.store.rows && row.replayPassed == s.store.rows[id].replayPassed)
    || (exists completed :: t.verdicts == s.verdicts[id := completed]
          && row.replayPassed.Some? && Judged(env, row, completed, row.replayPassed.value))
  }

  lemma VerdictStays(env: Env, s: State, t: State, id: nat, row: Row)
    requires t.verdicts == s.verdicts && id in s.store.rows && row.replayPassed == s.store.rows[id].replayPassed
    ensures Rejudges(env, s, t, id, row)
  {
  }

  lemma RewrittenVerdicts(env: Env, s: State, t: State, id: nat, row: Row, h: History)
    requires VerdictsOk(env, s) && Rewrites(s, t, id, row, h) && Rejudges(env, s, t, id, row)
    ensures VerdictsOk(env, t)
  {
    assert VerdictOk(env, s.store.rows[id], s.verdicts, id);
    assert VerdictOk(env, row, t.verdicts, id);
    hide Judged;
    forall i | i in t.store.rows ensures VerdictOk(env, t.store.rows[i], t.verdicts, i) {
      if i != id { assert VerdictOk(env, s.store.rows[i], s.verdicts, i); }
    }
  }

  lemma RewrittenIndex(s: State, t: State, id: nat, row: Row, h: History)
    requires Indexed(s) && Rewrites(s, t, id, row, h)
    ensures Indexed(t)
  {
    forall i | i in t.store.rows ensures Lists(t.store, i) { assert Lists(s.store, i); }
  }

  lemma RewrittenRows(env: Env, s: State, t: State, id: nat, row: Row, h: History)
    requires Indexed(s) && RowsOk(env, s) && Rewrites(s, t, id, row, h)
    requires Indexed(t) && RowOk(env, row, h)
    ensures RowsOk(env, t)
  {
  }

  lemma RewrittenGrows(s: State, t: State, rid: nat, id: nat, row: Row, h: History)
    requires Indexed(s) && Rewrites(s, t, id, row, h)
    requires s.trails[id].creator == rid || s.trails[id].history == h || |s.trails[id].history| >= 3
    ensures Grows(s, t, rid)
  {
  }

  /** A step of request rid that rewrites row id: everything RowRewritten needs besides the
      invariant of the state before. */
  ghost predicate RewriteStep(env: Env, s: State, t: State, rid: nat, q: Request, id: nat, row: Row, h: History) {
    && Rewrites(s, t, id, row, h)
    && (s.trails[id].creator == rid || s.trails[id].history == h || |s.trails[id].history| >= 3)
    && RowOk(env, row, h)
    && rid in s.requests && Owned(q) == Owned(s.requests[rid])
    && t.requests == s.requests[rid := q] && t.audits == s.audits
    && Rejudges(env, s, t, id, row)
    && RequestOk(env, t, rid, q)
  }

  lemma RewrittenTables(env: Env, s: State, t: State, rid: nat, id: nat, row: Row, h: History)
    requires Indexed(s) && RowsOk(env, s)
    requires Rewrites(s, t, id, row, h) && RowOk(env, row, h)
    requires s.trails[id].creator == rid || s.trails[id].history == h || |s.trails[id].history| >= 3
    ensures Indexed(t) && RowsOk(env, t) && Grows(s, t, rid)
  {
    RewrittenIndex(s, t, id, row, h);
    RewrittenGrows(s, t, rid, id, row, h);
    RewrittenRows(env, s, t, id, row, h);
  }

  lemma RowRewritten(env: Env, s: State, t: State, rid: nat, q: Request, id: nat, row: Row, h: History)
    requires Inv(env, s)
    requires RewriteStep(env, s, t, rid, q, id, row, h)
    ensures Inv(env, t) && Grows(s, t, rid)
  {
    hide RowOk, RequestOk, AuditOk, OwnerOk, Lists, VerdictsOk, Rejudges;
    RewrittenTables(env, s, t, rid, id, row, h);
    RewrittenVerdicts(env, s, t, id, row, h);
    OwnersStay(s, t, rid, q);
    Preserved(env, s, t, rid, q);
  }

  // ----- the step that creates a row

  ghost predicate Inserts(s: State, t: State, rid: nat, row: Row) {
    && row.idempotencyKey !in s.store.byKey
    && t.store == Inserted(s.store, row)
    && t.trails == s.trails[s.store.nextId := Trail(rid, [Queued])]
    && t.verdicts == s.verdicts && t.audits == s.audits && row.replayPassed.None?
  }

  lemma InsertedVerdicts(env: Env, s: State, t: State, rid: nat, row: Row)
    requires Indexed(s) && VerdictsOk(env, s) && Inserts(s, t, rid, row)
    ensures VerdictsOk(env, t)
  {
    hide Judged, Lists;
    forall i | i in t.store.rows ensures VerdictOk(env, t.store.rows[i], t.verdicts, i) {
      if i != s.store.nextId { assert VerdictOk(env, s.store.rows[i], s.verdicts, i); }
    }
  }

  lemma InsertedIndex(s: State, t: State, rid: nat, row: Row)
    requires Indexed(s) && Inserts(s, t, rid, row)
    ensures Indexed(t)
  {
    forall i | i in t.store.rows ensures Lists(t.store, i) {
      if i != s.store.nextId { assert Lists(s.store, i); }
    }
  }

  lemma InsertedGrows(s: State, t: State, rid: nat, row: Row)
    requires Indexed(s) && Inserts(s, t, rid, row)
    ensures Grows(s, t, rid)
  {
    hide Lists;
  }

  lemma InsertedRows(env: Env, s: State, t: State, rid: nat, row: Row)
    requires Indexed(s) && RowsOk(env, s) && Inserts(s, t, rid, row)
    requires Indexed(t) && RowOk(env, row, [Queued])
    ensures RowsOk(env, t)
  {
    hide RowOk, Lists;
  }

  lemma InsertedOwners(s: State, t: State, rid: nat, q: Request, row: Row)
    requires OwnersOk(s) && s.store.nextId !in s.trails && Inserts(s, t, rid, row)
    requires rid in s.requests && Owned(s.requests[rid]).None? && Owned(q) == Some(s.store.nextId)
    requires t.requests == s.requests[rid := q]
    ensures OwnersOk(t)
  {
    hide Owned;
    forall id | id in t.trails ensures OwnerOk(t, id) {
      if id != s.store.nextId { assert OwnerOk(s, id); }
    }
  }

  lemma RowInserted(env: Env, s: State, t: State, rid: nat, q: Request, row: Row)
    requires Inv(env, s) && Inserts(s, t, rid, row)
    requires RowOk(env, row, [Queued])
    requires rid in s.requests && Owned(s.requests[rid]).None? && Owned(q) == Some(s.store.nextId)
    requires t.requests == s.requests[rid := q] && t.audits == s.audits
    requires RequestOk(env, t, rid, q)
    ensures Inv(env, t) && Grows(s, t, rid)
  {
    hide RowOk, RequestOk, AuditOk, Lists, Owned, OwnerOk, Grows, VerdictsOk;
    InsertedVerdicts(env, s, t, rid, row);
    InsertedIndex(s, t, rid, row);
    InsertedGrows(s, t, rid, row);
    InsertedRows(env, s, t, rid, row);
    InsertedOwners(s, t, rid, q, row);
    Preserved(env, s, t, rid, q);
  }
}
