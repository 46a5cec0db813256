/** Every step of the evaluation machine keeps the invariant, request kind by request kind. */
module EvaluationSteps {
  import opened Wrappers
  import opened Records
  import opened CoverageStates
  import opened EvaluationStore
  import opened Evaluator
  import opened EvaluationMachine
  import opened EvaluationInvariants

  // ----- the steps of Run

  lemma NewRowOk(env: Env, q: Request, snapshot: Snapshot)
    requires env.Valid() && q.Run? && env.codec.encodable(snapshot)
    ensures RowOk(env, NewRow(env, q, snapshot), [Queued])
  {
    assert env.codec.decode(env.codec.encode(snapshot)) == Some(snapshot);
  }

  lemma StartedRowOk(env: Env, row: Row)
    requires RowOk(env, row, [Queued])
    ensures RowOk(env, Apply(row, Running, NoUpdates), [Queued, Running])
  {
  }

  lemma FailedRowOk(env: Env, row: Row, snapshot: Snapshot)
    requires env.Valid() && RowOk(env, row, [Queued, Running]) && env.codec.encodable(snapshot)
    requires row.snapshotText == env.codec.encode(snapshot) && env.evaluate(snapshot).Err?
    ensures RowOk(env, Apply(row, Failed, SetFailure(env.evaluate(snapshot).error)), [Queued, Running, Failed])
  {
    assert env.codec.decode(env.codec.encode(snapshot)) == Some(snapshot);
  }

  // Complete writes the text and hash again, but they are the ones already stored.
  lemma CompletedRowOk(env: Env, row: Row, snapshot: Snapshot)
    requires env.Valid() && RowOk(env, row, [Queued, Running]) && env.codec.encodable(snapshot)
    requires row.snapshotText == env.codec.encode(snapshot) && env.evaluate(snapshot).Ok?
    ensures var r := env.evaluate(snapshot).value;
      var done := CompletedRow(row, r.snapshotText, r.inputHash, ResultColumns(r));
      RowOk(env, done, [Queued, Running, Completed]) && SameInput(row, done)
  {
    assert env.codec.decode(env.codec.encode(snapshot)) == Some(snapshot);
  }

  lemma RunInsertsOk(env: Env, s: State, rid: nat, q: Request)
    requires env.Valid() && Indexed(s) && RequestOk(env, s, rid, q)
    requires rid in s.requests && s.requests[rid] == q && q.Run? && q.pc.Insert?
    requires q.key !in s.store.byKey
    ensures var t := AdvanceRun(env, s, rid, q);
      && rid in t.requests && t.requests == s.requests[rid := t.requests[rid]] && t.audits == s.audits
      && Inserts(s, t, rid, NewRow(env, q, q.pc.snapshot))
      && RowOk(env, NewRow(env, q, q.pc.snapshot), [Queued])
      && Owned(q).None? && Owned(t.requests[rid]) == Some(s.store.nextId)
      && RequestOk(env, t, rid, t.requests[rid])
  {
    NewRowOk(env, q, q.pc.snapshot);
    hide RowOk, Env.Valid;
  }

  lemma RunFindsDuplicate(env: Env, s: State, rid: nat, q: Request)
    requires Indexed(s) && RequestOk(env, s, rid, q)
    requires rid in s.requests && s.requests[rid] == q && q.Run? && q.pc.Insert?
    requires q.key in s.store.byKey
    ensures AdvanceRun(env, s, rid, q) == With(s, rid, q.(pc := FindAgain))
    ensures Moves(env, s, rid, q.(pc := FindAgain))
  {
  }

  lemma RunInserts(env: Env, s: State, rid: nat, q: Request)
    requires env.Valid() && Inv(env, s)
    requires rid in s.requests && s.requests[rid] == q && q.Run? && q.pc.Insert?
    ensures Inv(env, AdvanceRun(env, s, rid, q)) && Grows(s, AdvanceRun(env, s, rid, q), rid)
  {
    hide Inv, Env.Valid, RequestOk, RowOk, Indexed, Inserts, Moves, AdvanceRun;
    Known(env, s, rid, 0);
    if q.key in s.store.byKey {
      RunFindsDuplicate(env, s, rid, q);
      RequestMoves(env, s, rid, q.(pc := FindAgain));
    } else {
      RunInsertsOk(env, s, rid, q);
      var t := AdvanceRun(env, s, rid, q);
      RowInserted(env, s, t, rid, t.requests[rid], NewRow(env, q, q.pc.snapshot));
    }
  }

  // What the invariant says about a Run that owns a row.
  ghost predicate OwnsRow(env: Env, s: State, rid: nat, q: Request) {
    && Indexed(s) && rid in s.requests && s.requests[rid] == q && q.Run?
    && RunOk(env, s, rid, q)
    && Owned(q).Some? && RowOk(env, s.store.rows[Owned(q).value], s.trails[Owned(q).value].history)
  }

  lemma OwnsItsRow(env: Env, s: State, rid: nat, q: Request)
    requires Inv(env, s)
    requires rid in s.requests && s.requests[rid] == q && q.Run? && Owned(q).Some?
    ensures OwnsRow(env, s, rid, q)
  {
    assert RequestOk(env, s, rid, q);
  }

  // t is s with row id written and request rid moved to q.
  ghost predicate Puts(s: State, t: State, rid: nat, q: Request, id: nat, row: Row, h: History) {
    && id in s.store.rows && id in s.trails
    && t.store == Written(s.store, id, row)
    && t.trails == s.trails[id := s.trails[id].(history := h)]
    && t.requests == s.requests[rid := q] && t.audits == s.audits && t.verdicts == s.verdicts
  }

  lemma PutRewrites(env: Env, s: State, t: State, rid: nat, q: Request, id: nat, row: Row, h: History)
    requires Puts(s, t, rid, q, id, row, h)
    requires RowGrows(s.store.rows[id], row) && row.replayPassed == s.store.rows[id].replayPassed
    requires s.trails[id].history <= h && (s.trails[id].creator == rid || |s.trails[id].history| >= 3)
    requires rid in s.requests && Owned(q) == Owned(s.requests[rid])
    requires RowOk(env, row, h) && RequestOk(env, t, rid, q)
    ensures RewriteStep(env, s, t, rid, q, id, row, h)
  {
    VerdictStays(env, s, t, id, row);
    hide RowOk, RequestOk, RowGrows, Rejudges, Owned, Written;
  }

  // A Run that owns the row written goes on to q.
  lemma RunPuts(env: Env, s: State, t: State, rid: nat, p: Request, q: Request, row: Row, h: History)
    requires OwnsRow(env, s, rid, p) && Puts(s, t, rid, q, Owned(p).value, row, h)
    requires q.Run? && q.key == p.key && q.actor == p.actor && q.scenarioId == p.scenarioId
    requires Owned(q) == Owned(p) && !q.pc.Insert? && !q.pc.LogRun?
    requires RunAgrees(env, q.pc, row, h)
    requires q.pc.RunDone? ==> q.pc.outcome.Rejected?
    requires s.trails[Owned(p).value].history <= h
    requires RowOk(env, row, h) && SameInput(s.store.rows[Owned(p).value], row)
    requires row.replayPassed == s.store.rows[Owned(p).value].replayPassed
    requires row.confirmedBy == s.store.rows[Owned(p).value].confirmedBy
    ensures RewriteStep(env, s, t, rid, q, Owned(p).value, row, h)
  {
    assert RunOk(env, t, rid, q) by {
      hide RunAgrees, RowOk;
    }
    hide OwnsRow, RunOk, RunAgrees, RowOk;
    OwnerOf(env, s, rid, p);
    PutRewrites(env, s, t, rid, q, Owned(p).value, row, h);
  }

  lemma OwnerOf(env: Env, s: State, rid: nat, p: Request)
    requires OwnsRow(env, s, rid, p)
    ensures s.trails[Owned(p).value].creator == rid && rid in s.requests && s.requests[rid] == p
  {
  }

  // How each of the three writes looks, given that its guard holds.
  lemma RunCommits(env: Env, s: State, rid: nat, q: Request)
    requires q.Run? && (q.pc.Start? || q.pc.Finish?)
    requires q.pc.id in s.trails && Matches(s.store, q.pc.id, {if q.pc.Start? then Queued else Running})
    ensures var t, id, row, h := AdvanceRun(env, s, rid, q), q.pc.id, s.store.rows[q.pc.id], s.trails[q.pc.id].history;
      && (q.pc.Start? ==>
            Puts(s, t, rid, q.(pc := Finish(id, q.pc.snapshot)), id, Apply(row, Running, NoUpdates), h + [Running]))
      && (q.pc.Finish? ==>
            match env.evaluate(q.pc.snapshot)
            case Err(e) => Puts(s, t, rid, q.(pc := RunDone(Rejected(id))), id, Apply(row, Failed, SetFailure(e)), h + [Failed])
            case Ok(r) =>
              Puts(s, t, rid, q.(pc := Reload(id)), id, CompletedRow(row, r.snapshotText, r.inputHash, ResultColumns(r)), h + [Completed]))
  {
    hide Apply, Written, ResultColumns;
  }

  // What a Run knows of its row before it writes.
  lemma BeforeWriting(env: Env, s: State, rid: nat, q: Request)
    requires OwnsRow(env, s, rid, q) && (q.pc.Start? || q.pc.Finish?)
    ensures var id := q.pc.id;
      && id in s.store.rows && id in s.trails && Owned(q) == Some(id)
      && s.trails[id].history == (if q.pc.Start? then [Queued] else [Queued, Running])
      && Matches(s.store, id, {if q.pc.Start? then Queued else Running})
      && RowOk(env, s.store.rows[id], s.trails[id].history) && RunAgrees(env, q.pc, s.store.rows[id], s.trails[id].history)
  {
  }

  lemma StartRewrites(env: Env, s: State, rid: nat, q: Request)
    requires OwnsRow(env, s, rid, q) && q.pc.Start?
    ensures var row := s.store.rows[q.pc.id];
      RewriteStep(env, s, AdvanceRun(env, s, rid, q), rid, q.(pc := Finish(q.pc.id, q.pc.snapshot)),
        q.pc.id, Apply(row, Running, NoUpdates), [Queued, Running])
  {
    BeforeWriting(env, s, rid, q);
    hide OwnsRow;
    assert [Queued] + [Running] == [Queued, Running];
    StartedRowOk(env, s.store.rows[q.pc.id]);
    RunCommits(env, s, rid, q);
    hide RowOk, RewriteStep, AdvanceRun, Puts;
    RunPuts(env, s, AdvanceRun(env, s, rid, q), rid, q, q.(pc := Finish(q.pc.id, q.pc.snapshot)),
      Apply(s.store.rows[q.pc.id], Running, NoUpdates), [Queued, Running]);
  }

  lemma FailureRewrites(env: Env, s: State, rid: nat, q: Request)
    requires env.Valid() && OwnsRow(env, s, rid, q) && q.pc.Finish?
    requires env.evaluate(q.pc.snapshot).Err?
    ensures var row := s.store.rows[q.pc.id];
      RewriteStep(env, s, AdvanceRun(env, s, rid, q), rid, q.(pc := RunDone(Rejected(q.pc.id))),
        q.pc.id, Apply(row, Failed, SetFailure(env.evaluate(q.pc.snapshot).error)), [Queued, Running, Failed])
  {
    BeforeWriting(env, s, rid, q);
    hide OwnsRow;
    assert [Queued, Running] + [Failed] == [Queued, Running, Failed];
    var row, p := s.store.rows[q.pc.id], q.(pc := RunDone(Rejected(q.pc.id)));
    var failed := Apply(row, Failed, SetFailure(env.evaluate(q.pc.snapshot).error));
    FailedRowOk(env, row, q.pc.snapshot);
    RunCommits(env, s, rid, q);
    assert RunAgrees(env, p.pc, failed, [Queued, Running, Failed]) && Owned(p) == Owned(q);
    assert SameInput(row, failed) && failed.replayPassed == row.replayPassed && failed.confirmedBy == row.confirmedBy;
    hide RowOk, RewriteStep, Env.Valid, AdvanceRun, Puts, RunAgrees, Owned, SameInput, Apply, Matches;
    RunPuts(env, s, AdvanceRun(env, s, rid, q), rid, q, p, failed, [Queued, Running, Failed]);
  }

  lemma CompletionRewrites(env: Env, s: State, rid: nat, q: Request)
    requires env.Valid() && OwnsRow(env, s, rid, q) && q.pc.Finish?
    requires env.evaluate(q.pc.snapshot).Ok?
    ensures var row, r := s.store.rows[q.pc.id], env.evaluate(q.pc.snapshot).value;
      RewriteStep(env, s, AdvanceRun(env, s, rid, q), rid, q.(pc := Reload(q.pc.id)),
        q.pc.id, CompletedRow(row, r.snapshotText, r.inputHash, ResultColumns(r)), [Queued, Running, Completed])
  {
    BeforeWriting(env, s, rid, q);
    hide OwnsRow;
    assert [Queued, Running] + [Completed] == [Queued, Running, Completed];
    var row, r := s.store.rows[q.pc.id], env.evaluate(q.pc.snapshot).value;
    CompletedRowOk(env, row, q.pc.snapshot);
    RunCommits(env, s, rid, q);
    hide RowOk, RewriteStep, Env.Valid, ResultColumns, AdvanceRun, Puts;
    RunPuts(env, s, AdvanceRun(env, s, rid, q), rid, q, q.(pc := Reload(q.pc.id)),
      CompletedRow(row, r.snapshotText, r.inputHash, ResultColumns(r)), [Queued, Running, Completed]);
  }

  lemma RunWrites(env: Env, s: State, rid: nat, q: Request)
    requires env.Valid() && Inv(env, s)
    requires rid in s.requests && s.requests[rid] == q && q.Run? && (q.pc.Start? || q.pc.Finish?)
    ensures Inv(env, AdvanceRun(env, s, rid, q)) && Grows(s, AdvanceRun(env, s, rid, q), rid)
  {
    OwnsItsRow(env, s, rid, q);
    var id, t := q.pc.id, AdvanceRun(env, s, rid, q);
    var row := s.store.rows[id];
    if q.pc.Start? {
      StartRewrites(env, s, rid, q);
      RowRewritten(env, s, t, rid, q.(pc := Finish(id, q.pc.snapshot)), id, Apply(row, Running, NoUpdates), [Queued, Running]);
    } else {
      match env.evaluate(q.pc.snapshot)
      case Err(e) =>
        FailureRewrites(env, s, rid, q);
        RowRewritten(env, s, t, rid, q.(pc := RunDone(Rejected(id))), id, Apply(row, Failed, SetFailure(e)), [Queued, Running, Failed]);
      case Ok(r) =>
        CompletionRewrites(env, s, rid, q);
        RowRewritten(env, s, t, rid, q.(pc := Reload(id)), id,
          CompletedRow(row, r.snapshotText, r.inputHash, ResultColumns(r)), [Queued, Running, Completed]);
    }
  }

  lemma RunLooksUpOk(env: Env, s: State, rid: nat, q: Request)
    requires Indexed(s) && RequestOk(env, s, rid, q)
    requires rid in s.requests && s.requests[rid] == q && q.Run? && (q.pc.FindKey? || q.pc.FindAgain?)
    ensures var t := AdvanceRun(env, s, rid, q);
      rid in t.requests && t == With(s, rid, t.requests[rid]) && Moves(env, s, rid, t.requests[rid])
  {
  }

  // What a step that reports may do besides moving its own request.
  ghost predicate Reports(env: Env, s: State, t: State, rid: nat) {
    && rid in t.requests && t == With(s.(audits := t.audits), rid, t.requests[rid])
    && Moves(env, s.(audits := t.audits), rid, t.requests[rid])
    && (t.audits == s.audits || (|t.audits| == |s.audits| + 1 && t.audits == s.audits + [t.audits[|s.audits|]] && AuditOk(s, t.audits[|s.audits|])))
  }

  lemma RunReportsOk(env: Env, s: State, rid: nat, q: Request)
    requires Indexed(s) && RequestOk(env, s, rid, q)
    requires rid in s.requests && s.requests[rid] == q && q.Run? && (q.pc.Reload? || q.pc.LogRun?)
    ensures Reports(env, s, AdvanceRun(env, s, rid, q), rid)
  {
  }

  lemma ReportKeeps(env: Env, s: State, t: State, rid: nat)
    requires Inv(env, s) && Reports(env, s, t, rid)
    ensures Inv(env, t) && Grows(s, t, rid)
  {
    hide Inv, Moves, AuditOk, Grows;
    IndexOf(env, s);
    SameTables(s, t, rid);
    if t.audits == s.audits {
      assert s.(audits := t.audits) == s;
    } else {
      AuditAdded(env, s, t.audits[|s.audits|]);
    }
    RequestMoves(env, s.(audits := t.audits), rid, t.requests[rid]);
  }

  lemma RunLooksUp(env: Env, s: State, rid: nat, q: Request)
    requires Inv(env, s)
    requires rid in s.requests && s.requests[rid] == q && q.Run? && (q.pc.FindKey? || q.pc.FindAgain?)
    ensures Inv(env, AdvanceRun(env, s, rid, q)) && Grows(s, AdvanceRun(env, s, rid, q), rid)
  {
    hide Inv, RequestOk, Indexed, Moves, AdvanceRun;
    Known(env, s, rid, 0);
    RunLooksUpOk(env, s, rid, q);
    RequestMoves(env, s, rid, AdvanceRun(env, s, rid, q).requests[rid]);
  }

  lemma RunReports(env: Env, s: State, rid: nat, q: Request)
    requires Inv(env, s)
    requires rid in s.requests && s.requests[rid] == q && q.Run? && (q.pc.Reload? || q.pc.LogRun?)
    ensures Inv(env, AdvanceRun(env, s, rid, q)) && Grows(s, AdvanceRun(env, s, rid, q), rid)
  {
    hide Inv, RequestOk, Indexed, Reports, AdvanceRun;
    Known(env, s, rid, 0);
    RunReportsOk(env, s, rid, q);
    ReportKeeps(env, s, AdvanceRun(env, s, rid, q), rid);
  }

  lemma RunKeeps(env: Env, s: State, rid: nat, q: Request)
    requires env.Valid() && Inv(env, s)
    requires rid in s.requests && s.requests[rid] == q && q.Run?
    ensures Inv(env, AdvanceRun(env, s, rid, q)) && Grows(s, AdvanceRun(env, s, rid, q), rid)
  {
    hide Inv, Env.Valid, Grows;
    IndexOf(env, s);
    SameTables(s, s, rid);
    match q.pc
    case FindKey => RunLooksUp(env, s, rid, q);
    case LoadScenario =>
    case LoadNode(_) =>
    case LoadSafeguards(_, _) =>
    case Insert(_) => RunInserts(env, s, rid, q);
    case FindAgain => RunLooksUp(env, s, rid, q);
    case Start(_, _) => RunWrites(env, s, rid, q);
    case Finish(_, _) => RunWrites(env, s, rid, q);
    case Reload(_) => RunReports(env, s, rid, q);
    case LogRun(_, _) => RunReports(env, s, rid, q);
    case RunDone(_) =>
  }

  // ----- the steps of Confirm and Void

  ghost predicate Reviews(s: State, rid: nat, q: Request, action: Action) {
    && rid in s.requests && s.requests[rid] == q
    && ((q.Confirm? && action == ConfirmAction) || (q.Void? && action == VoidAction))
  }

  lemma ReviewReadsOk(env: Env, s: State, rid: nat, q: Request, action: Action)
    requires Indexed(s) && Reviews(s, rid, q, action) && (q.review.Read? || q.review.ReadAuthor?)
    requires RequestOk(env, s, rid, q)
    requires q.id in s.store.rows ==> RowOk(env, s.store.rows[q.id], s.trails[q.id].history)
    ensures var t := AdvanceReview(env, s, rid, q, action);
      rid in t.requests && t == With(s, rid, t.requests[rid]) && Moves(env, s, rid, t.requests[rid])
  {
    assert q.id in s.store.rows ==> Last(s.trails[q.id].history) == s.store.rows[q.id].state;
    hide RowOk, ActedAt, ReloadedAt, SameInput;
  }

  lemma ReviewReads(env: Env, s: State, rid: nat, q: Request, action: Action)
    requires Inv(env, s) && Reviews(s, rid, q, action) && (q.review.Read? || q.review.ReadAuthor?)
    ensures Inv(env, AdvanceReview(env, s, rid, q, action)) && Grows(s, AdvanceReview(env, s, rid, q, action), rid)
  {
    hide Inv, RequestOk, RowOk, Indexed, Moves, AdvanceReview;
    Known(env, s, rid, q.id);
    ReviewReadsOk(env, s, rid, q, action);
    RequestMoves(env, s, rid, AdvanceReview(env, s, rid, q, action).requests[rid]);
  }

  lemma ReviewedRowOk(env: Env, row: Row, h: History, action: Action, actor: nat)
    requires RowOk(env, row, h)
    requires row.state in ReviewSources(action)
    requires action.ConfirmAction? ==> env.author(row.scenarioId) != actor
    ensures RowOk(env, Apply(row, ReviewTarget(action), ReviewUpdates(action, actor)), h + [ReviewTarget(action)])
    ensures RowGrows(row, Apply(row, ReviewTarget(action), ReviewUpdates(action, actor)))
    ensures |h| >= 3
  {
    HistoryShape(h);
    HistoryExtended(h, ReviewTarget(action));
    var g := h + [ReviewTarget(action)];
    assert forall x :: x in g <==> x in h || x == ReviewTarget(action);
  }

  function ReviewedRow(q: Request, row: Row, action: Action): Row
    requires q.Confirm? || q.Void?
  {
    Apply(row, ReviewTarget(action), ReviewUpdates(action, q.actor))
  }

  lemma ReviewCommits(env: Env, s: State, rid: nat, q: Request, action: Action)
    requires Indexed(s) && Reviews(s, rid, q, action) && q.review.Act?
    requires Matches(s.store, q.id, ReviewSources(action))
    ensures var h := s.trails[q.id].history;
      Puts(s, AdvanceReview(env, s, rid, q, action), rid, q.(review := ReloadRow(q.review.before, q.review.readAt, |h|)),
        q.id, ReviewedRow(q, s.store.rows[q.id], action), h + [ReviewTarget(action)])
  {
    hide Apply, Written;
  }

  lemma ReviewCommitted(env: Env, s: State, t: State, rid: nat, p: Request, q: Request, action: Action)
    requires Indexed(s) && Reviews(s, rid, p, action) && p.review.Act?
    requires ReviewOk(env, s, p.id, p.actor, action, p.review)
    requires Matches(s.store, p.id, ReviewSources(action)) && Last(s.trails[p.id].history) == s.store.rows[p.id].state
    requires Puts(s, t, rid, q, p.id, ReviewedRow(p, s.store.rows[p.id], action), s.trails[p.id].history + [ReviewTarget(action)])
    ensures ReviewOk(env, t, p.id, p.actor, action, ReloadRow(p.review.before, p.review.readAt, |s.trails[p.id].history|))
  {
  }

  lemma ReviewActsOk(env: Env, s: State, rid: nat, q: Request, action: Action)
    requires Indexed(s) && Reviews(s, rid, q, action) && q.review.Act?
    requires RequestOk(env, s, rid, q)
    requires RowOk(env, s.store.rows[q.id], s.trails[q.id].history)
    requires Matches(s.store, q.id, ReviewSources(action))
    ensures var h := s.trails[q.id].history;
      RewriteStep(env, s, AdvanceReview(env, s, rid, q, action), rid,
        q.(review := ReloadRow(q.review.before, q.review.readAt, |h|)), q.id,
        ReviewedRow(q, s.store.rows[q.id], action), h + [ReviewTarget(action)])
  {
    var row, h, t := s.store.rows[q.id], s.trails[q.id].history, AdvanceReview(env, s, rid, q, action);
    var p := q.(review := ReloadRow(q.review.before, q.review.readAt, |h|));
    assert ReviewOk(env, s, q.id, q.actor, action, q.review);
    ReviewedRowOk(env, row, h, action, q.actor);
    ReviewCommits(env, s, rid, q, action);
    ReviewCommitted(env, s, t, rid, q, p, action);
    assert ReviewedRow(q, row, action).replayPassed == row.replayPassed;
    hide RowOk, RowGrows, AdvanceReview, Puts, ReviewOk, RewriteStep, Matches;
    assert RequestOk(env, t, rid, p);
    PutRewrites(env, s, t, rid, p, q.id, ReviewedRow(q, row, action), h + [ReviewTarget(action)]);
  }

  lemma ReviewRefused(env: Env, s: State, rid: nat, q: Request, action: Action)
    requires Indexed(s) && Reviews(s, rid, q, action) && q.review.Act?
    requires !Matches(s.store, q.id, ReviewSources(action))
    ensures var t := AdvanceReview(env, s, rid, q, action);
      rid in t.requests && t == With(s, rid, t.requests[rid]) && Moves(env, s, rid, t.requests[rid])
  {
  }

  lemma ReviewActs(env: Env, s: State, rid: nat, q: Request, action: Action)
    requires Inv(env, s) && Reviews(s, rid, q, action) && q.review.Act?
    ensures Inv(env, AdvanceReview(env, s, rid, q, action)) && Grows(s, AdvanceReview(env, s, rid, q, action), rid)
  {
    hide Inv, RowOk, RequestOk, Moves, RewriteStep, AdvanceReview, ReviewedRow;
    Known(env, s, rid, q.id);
    var t := AdvanceReview(env, s, rid, q, action);
    if Matches(s.store, q.id, ReviewSources(action)) {
      ReviewActsOk(env, s, rid, q, action);
      var h := s.trails[q.id].history;
      RowRewritten(env, s, t, rid, q.(review := ReloadRow(q.review.before, q.review.readAt, |h|)), q.id,
        ReviewedRow(q, s.store.rows[q.id], action), h + [ReviewTarget(action)]);
    } else {
      ReviewRefused(env, s, rid, q, action);
      RequestMoves(env, s, rid, t.requests[rid]);
    }
  }

  lemma ReviewReloadsOk(env: Env, s: State, rid: nat, q: Request, action: Action)
    requires Indexed(s) && Reviews(s, rid, q, action) && q.review.ReloadRow?
    requires ReviewOk(env, s, q.id, q.actor, action, q.review)
    requires q.id in s.store.rows ==> RowOk(env, s.store.rows[q.id], s.trails[q.id].history)
    ensures Reports(env, s, AdvanceReview(env, s, rid, q, action), rid)
  {
    assert Last(s.trails[q.id].history) == s.store.rows[q.id].state;
    hide RowOk;
    var t := AdvanceReview(env, s, rid, q, action);
    var row, n := s.store.rows[q.id], |s.trails[q.id].history| - 1;
    assert t == With(s, rid, q.(review := LogReview(q.review.before, row, q.review.readAt, q.review.actedAt, n)));
    assert ReloadedAt(s, q.id, q.actor, action, row, q.review.actedAt, n);
    hide AdvanceReview, ReadAt, ActedAt, ReloadedAt, AuditOk;
    ReloadMoves(env, s, t, rid, q, action, row, n);
  }

  lemma ReloadMoves(env: Env, s: State, t: State, rid: nat, q: Request, action: Action, row: Row, n: nat)
    requires Reviews(s, rid, q, action) && q.review.ReloadRow?
    requires t == With(s, rid, q.(review := LogReview(q.review.before, row, q.review.readAt, q.review.actedAt, n)))
    requires ReadAt(s, q.id, q.review.before, q.review.readAt) && ActedAt(s, q.id, q.actor, action, q.review.readAt, q.review.actedAt)
    requires ReloadedAt(s, q.id, q.actor, action, row, q.review.actedAt, n)
    ensures Reports(env, s, t, rid)
  {
    hide ReviewSources, ReviewTarget, SameInput;
    assert s.(audits := s.audits) == s;
  }

  lemma ReviewLogsOk(env: Env, s: State, rid: nat, q: Request, action: Action)
    requires Indexed(s) && Reviews(s, rid, q, action) && q.review.LogReview?
    requires ReviewOk(env, s, q.id, q.actor, action, q.review)
    ensures Reports(env, s, AdvanceReview(env, s, rid, q, action), rid)
  {
    var t := AdvanceReview(env, s, rid, q, action);
    var a := t.audits[|s.audits|];
    assert t.audits == s.audits + [a] && AuditOk(s, a);
    hide ReadAt, ActedAt, ReloadedAt, AuditOk;
    var u := s.(audits := t.audits);
    assert a in u.audits && LogsReview(a, q.id, q.actor, action, q.review.after);
    assert ReviewOk(env, With(u, rid, t.requests[rid]), q.id, q.actor, action, ReviewDone(Acted(q.review.after)));
  }

  lemma ReviewKnown(env: Env, s: State, rid: nat, q: Request, action: Action)
    requires Inv(env, s) && Reviews(s, rid, q, action)
    ensures ReviewOk(env, s, q.id, q.actor, action, q.review)
  {
    hide Inv;
    Known(env, s, rid, q.id);
  }

  lemma ReviewReports(env: Env, s: State, rid: nat, q: Request, action: Action)
    requires Inv(env, s) && Reviews(s, rid, q, action) && (q.review.ReloadRow? || q.review.LogReview?)
    ensures Inv(env, AdvanceReview(env, s, rid, q, action)) && Grows(s, AdvanceReview(env, s, rid, q, action), rid)
  {
    ReviewKnown(env, s, rid, q, action);
    hide Inv, RequestOk, ReviewOk, RowOk, Indexed, Reports, AdvanceReview;
    Known(env, s, rid, q.id);
    if q.review.ReloadRow? { ReviewReloadsOk(env, s, rid, q, action); } else { ReviewLogsOk(env, s, rid, q, action); }
    ReportKeeps(env, s, AdvanceReview(env, s, rid, q, action), rid);
  }

  lemma ReviewKeeps(env: Env, s: State, rid: nat, q: Request, action: Action)
    requires Inv(env, s) && Reviews(s, rid, q, action)
    ensures Inv(env, AdvanceReview(env, s, rid, q, action)) && Grows(s, AdvanceReview(env, s, rid, q, action), rid)
  {
    hide Inv, Grows;
    IndexOf(env, s);
    SameTables(s, s, rid);
    match q.review
    case Read => ReviewReads(env, s, rid, q, action);
    case ReadAuthor(_, _) => ReviewReads(env, s, rid, q, action);
    case Act(_, _) => ReviewActs(env, s, rid, q, action);
    case ReloadRow(_, _, _) => ReviewReports(env, s, rid, q, action);
    case LogReview(_, _, _, _, _) => ReviewReports(env, s, rid, q, action);
    case ReviewDone(_) =>
  }

  // ----- the steps of Replay

  // A completed row always replays, and a row that has not completed replays exactly when
  // its input evaluates to the score 0 it was created with.
  lemma JudgeRow(env: Env, row: Row, h: History)
    requires env.Valid() && RowOk(env, row, h)
    ensures match env.Judge(row.snapshotText, row.inputHash, row.columns.coverageScore)
      case Ok(passed) => Judged(env, row, Completed in h, passed)
      case Err(e) => Completed !in h && !Evaluates(env, row) && e == EvaluationFailed(env.evaluate(FrozenInput(env, row)).error)
  {
    assert env.codec.decode(row.snapshotText) == Some(FrozenInput(env, row));
  }

  lemma ReplayReadsOk(env: Env, s: State, rid: nat, q: Request)
    requires env.Valid() && Indexed(s)
    requires rid in s.requests && s.requests[rid] == q && q.Replay? && q.replay.ReadRow?
    requires q.id in s.store.rows ==> RowOk(env, s.store.rows[q.id], s.trails[q.id].history)
    ensures var t := AdvanceReplay(env, s, rid, q);
      rid in t.requests && t == With(s, rid, t.requests[rid]) && Moves(env, s, rid, t.requests[rid])
  {
    if q.id in s.store.rows { JudgeRow(env, s.store.rows[q.id], s.trails[q.id].history); }
    hide RowOk, Env.Valid, Env.Judge;
  }

  lemma ReplayReads(env: Env, s: State, rid: nat, q: Request)
    requires env.Valid() && Inv(env, s)
    requires rid in s.requests && s.requests[rid] == q && q.Replay? && q.replay.ReadRow?
    ensures Inv(env, AdvanceReplay(env, s, rid, q)) && Grows(s, AdvanceReplay(env, s, rid, q), rid)
  {
    hide Inv, RequestOk, RowOk, Indexed, Moves, AdvanceReplay, Env.Valid;
    Known(env, s, rid, q.id);
    ReplayReadsOk(env, s, rid, q);
    RequestMoves(env, s, rid, AdvanceReplay(env, s, rid, q).requests[rid]);
  }

  lemma ReplayStoresOk(env: Env, s: State, rid: nat, q: Request)
    requires Indexed(s) && RequestOk(env, s, rid, q)
    requires rid in s.requests && s.requests[rid] == q && q.Replay? && q.replay.StoreVerdict?
    requires q.id in s.store.rows ==> RowOk(env, s.store.rows[q.id], s.trails[q.id].history)
    ensures q.id in s.store.rows
    ensures var t := AdvanceReplay(env, s, rid, q);
      && rid in t.requests
      && RewriteStep(env, s, t, rid, t.requests[rid], q.id,
           s.store.rows[q.id].(replayPassed := Some(q.replay.passed)), s.trails[q.id].history)
  {
    var h, row := s.trails[q.id].history, s.store.rows[q.id].(replayPassed := Some(q.replay.passed));
    assert RowOk(env, row, h);
    assert s.trails[q.id := s.trails[q.id].(history := h)] == s.trails;
    assert Judged(env, row, q.replay.completed, q.replay.passed);
    assert Rejudges(env, s, AdvanceReplay(env, s, rid, q), q.id, row);
    hide RowOk, Judged, Rejudges;
  }

  lemma ReplayStores(env: Env, s: State, rid: nat, q: Request)
    requires Inv(env, s)
    requires rid in s.requests && s.requests[rid] == q && q.Replay? && q.replay.StoreVerdict?
    ensures Inv(env, AdvanceReplay(env, s, rid, q)) && Grows(s, AdvanceReplay(env, s, rid, q), rid)
  {
    hide Inv, RequestOk, RowOk, RewriteStep, AdvanceReplay;
    Known(env, s, rid, q.id);
    ReplayStoresOk(env, s, rid, q);
    var t := AdvanceReplay(env, s, rid, q);
    RowRewritten(env, s, t, rid, t.requests[rid], q.id,
      s.store.rows[q.id].(replayPassed := Some(q.replay.passed)), s.trails[q.id].history);
  }

  lemma ReplayReportsOk(env: Env, s: State, rid: nat, q: Request)
    requires Indexed(s) && RequestOk(env, s, rid, q)
    requires rid in s.requests && s.requests[rid] == q && q.Replay? && q.replay.LogReplay?
    ensures Reports(env, s, AdvanceReplay(env, s, rid, q), rid)
  {
    var t := AdvanceReplay(env, s, rid, q);
    var a := t.audits[|s.audits|];
    assert t.audits == s.audits + [a] && a in t.audits && AuditOk(s, a);
    var u := s.(audits := t.audits);
    assert t == With(u, rid, t.requests[rid]);
    hide Judged, AuditOk;
    assert ReplayOk(env, With(u, rid, t.requests[rid]), q.id, q.actor, t.requests[rid].replay);
  }

  lemma ReplayReports(env: Env, s: State, rid: nat, q: Request)
    requires Inv(env, s)
    requires rid in s.requests && s.requests[rid] == q && q.Replay? && q.replay.LogReplay?
    ensures Inv(env, AdvanceReplay(env, s, rid, q)) && Grows(s, AdvanceReplay(env, s, rid, q), rid)
  {
    hide Inv, RequestOk, Indexed, Reports, AdvanceReplay;
    Known(env, s, rid, q.id);
    ReplayReportsOk(env, s, rid, q);
    ReportKeeps(env, s, AdvanceReplay(env, s, rid, q), rid);
  }

  lemma ReplayKeeps(env: Env, s: State, rid: nat, q: Request)
    requires env.Valid() && Inv(env, s)
    requires rid in s.requests && s.requests[rid] == q && q.Replay?
    ensures Inv(env, AdvanceReplay(env, s, rid, q)) && Grows(s, AdvanceReplay(env, s, rid, q), rid)
  {
    hide Inv, Env.Valid, Grows;
    IndexOf(env, s);
    SameTables(s, s, rid);
    match q.replay
    case ReadRow => ReplayReads(env, s, rid, q);
    case StoreVerdict(_, _) => ReplayStores(env, s, rid, q);
    case LogReplay(_, _) => ReplayReports(env, s, rid, q);
    case ReplayDone(_, _) =>
  }

  // ----- every step

  lemma ArrivalMoves(env: Env, s: State, rid: nat, call: Call)
    requires rid !in s.requests
    ensures Moves(env, s, rid, Accept(call))
  {
    hide ValidKey;
  }

  lemma ArrivalKeeps(env: Env, s: State, rid: nat, call: Call)
    requires Inv(env, s) && rid !in s.requests
    ensures Inv(env, With(s, rid, Accept(call))) && Grows(s, With(s, rid, Accept(call)), rid)
  {
    hide Inv, Moves, Accept, Grows;
    ArrivalMoves(env, s, rid, call);
    RequestMoves(env, s, rid, Accept(call));
  }

  lemma LoadKeeps(env: Env, s: State, rid: nat, found: Found)
    requires Inv(env, s)
    ensures Inv(env, Next(env, s, Load(rid, found))) && Grows(s, Next(env, s, Load(rid, found)), rid)
  {
    IndexOf(env, s);
    SameTables(s, s, rid);
    if rid in s.requests && s.requests[rid].Run? {
      var q := s.requests[rid];
      Known(env, s, rid, 0);
      var p := q.(pc := AfterLoad(env, q, found));
      hide Inv;
      LoadMoves(env, s, rid, q, found);
      RequestMoves(env, s, rid, p);
    }
  }

  lemma LoadMoves(env: Env, s: State, rid: nat, q: Request, found: Found)
    requires rid in s.requests && s.requests[rid] == q && q.Run? && RunOk(env, s, rid, q)
    ensures Moves(env, s, rid, q.(pc := AfterLoad(env, q, found)))
  {
    hide RunAgrees;
    var p := q.(pc := AfterLoad(env, q, found));
    assert p.pc == q.pc ==> p == q;
    assert RunOk(env, With(s, rid, q), rid, q);
  }

  lemma InitHolds(env: Env)
    ensures Inv(env, Init)
  {
  }

  lemma NextKeeps(env: Env, s: State, e: Event)
    requires env.Valid() && Inv(env, s)
    ensures Inv(env, Next(env, s, e)) && Grows(s, Next(env, s, e), e.rid)
  {
    hide Inv, Env.Valid, Grows;
    IndexOf(env, s);
    SameTables(s, s, e.rid);
    match e
    case Arrive(rid, call) => if rid !in s.requests { ArrivalKeeps(env, s, rid, call); }
    case Load(rid, found) => LoadKeeps(env, s, rid, found);
    case Step(rid) =>
      if rid in s.requests {
        var q := s.requests[rid];
        match q {
          case Run(_, _, _, _) => RunKeeps(env, s, rid, q);
          case Confirm(_, _, _) => ReviewKeeps(env, s, rid, q, ConfirmAction);
          case Void(_, _, _) => ReviewKeeps(env, s, rid, q, VoidAction);
          case Replay(_, _, _) => ReplayKeeps(env, s, rid, q);
        }
      }
  }
}
