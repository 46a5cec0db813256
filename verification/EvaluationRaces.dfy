/** Races in the evaluation service: what its audit records and stored replay verdicts can be
    made to show, and exactly when they do. */
module EvaluationRaces {
  import opened Wrappers
  import opened CoverageStates
  import opened EvaluationStore
  import opened EvaluationMachine
  import opened EvaluationInvariants
  import opened EvaluationSteps
  import opened EvaluationSchedules

  // ----- the row in a confirm audit

  // The step commits a void of row id.
  predicate VoidCommits(s: State, e: Event, id: nat) {
    && e.Step? && e.rid in s.requests && s.requests[e.rid].Void? && s.requests[e.rid].id == id
    && s.requests[e.rid].review.Act? && Matches(s.store, id, ReviewSources(VoidAction))
  }

  // No void of row id is committed on the way.
  predicate Unvoided(env: Env, s: State, events: seq<Event>, id: nat) {
    if events == [] then true
    else
      var before := events[..|events| - 1];
      Unvoided(env, s, before, id) && !VoidCommits(Exec(env, s, before), events[|events| - 1], id)
  }

  predicate Reviewed(s: State, id: nat) { StateOf(s, id) in {Some(Confirmed), Some(Voided)} }

  function StateOf(s: State, id: nat): Option<CoverageState> {
    if id in s.store.rows then Some(s.store.rows[id].state) else None
  }

  lemma RunLeavesReviewed(env: Env, s: State, rid: nat, q: Request, id: nat)
    requires Indexed(s) && Reviewed(s, id) && q.Run?
    ensures StateOf(AdvanceRun(env, s, rid, q), id) == StateOf(s, id)
  {
    ReviewedIsSettled(s, id);
    if (q.pc.Start? || q.pc.Finish?) && Matches(s.store, q.pc.id, {if q.pc.Start? then Queued else Running}) {
      RunCommits(env, s, rid, q);
      hide AdvanceRun, CompletedRow, Apply, ResultColumns, Reviewed, Lists;
    } else {
      hide NewRow, Transitioned, CompletedIn, TrailOf, ResultColumns, Reviewed, Lists;
    }
  }

  lemma ReviewedIsSettled(s: State, id: nat)
    requires Reviewed(s, id)
    ensures id in s.store.rows && !Matches(s.store, id, {Queued}) && !Matches(s.store, id, {Running})
  {
  }

  lemma ReviewOfReviewed(env: Env, s: State, rid: nat, q: Request, action: Action, id: nat)
    requires Indexed(s) && Reviewed(s, id) && (q.Confirm? || q.Void?)
    ensures StateOf(AdvanceReview(env, s, rid, q, action), id)
      == if action.VoidAction? && q.id == id && q.review.Act? && Matches(s.store, id, ReviewSources(VoidAction)) then Some(Voided)
         else StateOf(s, id)
  {
    hide Indexed;
  }

  lemma ReplayLeavesReviewed(env: Env, s: State, rid: nat, q: Request, id: nat)
    requires Reviewed(s, id) && q.Replay?
    ensures StateOf(AdvanceReplay(env, s, rid, q), id) == StateOf(s, id)
  {
    hide Env.Judge;
  }

  lemma StepOfReviewed(env: Env, s: State, e: Event, id: nat)
    requires Indexed(s) && Reviewed(s, id)
    ensures StateOf(Next(env, s, e), id) == if VoidCommits(s, e, id) then Some(Voided) else StateOf(s, id)
  {
    hide AdvanceRun, AdvanceReview, AdvanceReplay, AfterLoad, Accept, Indexed, Matches, ReviewSources;
    if e.Step? && e.rid in s.requests {
      var q := s.requests[e.rid];
      match q
      case Run(_, _, _, _) => RunLeavesReviewed(env, s, e.rid, q, id);
      case Confirm(_, _, _) => ReviewOfReviewed(env, s, e.rid, q, ConfirmAction, id);
      case Void(_, _, _) => ReviewOfReviewed(env, s, e.rid, q, VoidAction, id);
      case Replay(_, _, _) => ReplayLeavesReviewed(env, s, e.rid, q, id);
    }
  }

  lemma {:induction false} ConfirmedUntilVoided(env: Env, s: State, events: seq<Event>, id: nat)
    requires env.Valid() && Inv(env, s) && StateOf(s, id) == Some(Confirmed)
    ensures StateOf(Exec(env, s, events), id) == Some(if Unvoided(env, s, events, id) then Confirmed else Voided)
  {
    hide Env.Valid, Inv, Next, VoidCommits;
    if events != [] {
      var n := |events| - 1;
      var t := Exec(env, s, events[..n]);
      ConfirmedUntilVoided(env, s, events[..n], id);
      EveryRunKeeps(env, s, events[..n]);
      IndexOf(env, t);
      hide Indexed;
      StepOfReviewed(env, t, events[n], id);
      VoidedIsFinal(t, events[n], id);
    }
  }

  lemma VoidedIsFinal(s: State, e: Event, id: nat)
    ensures StateOf(s, id) == Some(Voided) ==> !VoidCommits(s, e, id)
  {
  }

  // The update, the re-read and the audit record of a Confirm, with what runs in between.
  lemma ConfirmActs(env: Env, s: State, c: nat)
    requires c in s.requests && s.requests[c].Confirm? && s.requests[c].review.Act?
    requires Matches(s.store, s.requests[c].id, {Completed})
    ensures var q, t := s.requests[c], Next(env, s, Step(c));
      && StateOf(t, q.id) == Some(Confirmed)
      && c in t.requests && t.requests[c].Confirm? && t.requests[c].id == q.id && t.requests[c].actor == q.actor
      && t.requests[c].review.ReloadRow?
  {
    hide TrailOf;
  }

  lemma ConfirmReloads(env: Env, s: State, c: nat)
    requires c in s.requests && s.requests[c].Confirm? && s.requests[c].review.ReloadRow? && s.requests[c].id in s.store.rows
    ensures var q, t := s.requests[c], Next(env, s, Step(c));
      && c in t.requests && t.requests[c].Confirm? && t.requests[c].id == q.id && t.requests[c].actor == q.actor
      && t.requests[c].review.LogReview? && t.requests[c].review.after == s.store.rows[q.id]
  {
    hide TrailOf;
  }

  lemma ConfirmLogs(env: Env, s: State, c: nat)
    requires c in s.requests && s.requests[c].Confirm? && s.requests[c].review.LogReview?
    ensures var q, t := s.requests[c], Next(env, s, Step(c));
      && |t.audits| == |s.audits| + 1
      && var a := t.audits[|s.audits|];
         a.ReviewAudit? && a.action == ConfirmAction && a.id == q.id && a.actor == q.actor && a.after == q.review.after
  {
  }

  // The state in which a Confirm appends its audit record.
  ghost function Reread(env: Env, s: State, c: nat, meanwhile: seq<Event>): State {
    Exec(env, Next(env, s, Step(c)), meanwhile)
  }

  ghost function Logged(env: Env, s: State, c: nat, meanwhile: seq<Event>, later: seq<Event>): State {
    Exec(env, Next(env, Reread(env, s, c, meanwhile), Step(c)), later)
  }

  /** The exact condition: a Confirm that is about to update a completed row leaves an audit
      record showing `confirmed` if and only if no Void of that row is committed between its
      update and its re-read, whatever else runs then or later; otherwise it shows `voided`. */
  lemma ConfirmAuditShowsConfirmed(env: Env, s: State, c: nat, meanwhile: seq<Event>, later: seq<Event>)
    requires env.Valid() && Inv(env, s)
    requires c in s.requests && s.requests[c].Confirm? && s.requests[c].review.Act?
    requires Matches(s.store, s.requests[c].id, {Completed})
    requires ByOthers(meanwhile, c) && ByOthers(later, c)
    ensures var q, before := s.requests[c], Logged(env, s, c, meanwhile, later);
      var t := Next(env, before, Step(c));
      && |t.audits| == |before.audits| + 1
      && var a := t.audits[|before.audits|];
         && a.ReviewAudit? && a.action == ConfirmAction && a.id == q.id && a.actor == q.actor
         && a.after.state == if Unvoided(env, Next(env, s, Step(c)), meanwhile, q.id) then Confirmed else Voided
  {
    hide Next, Env.Valid, Inv, Exec;
    var id, u := s.requests[c].id, Next(env, s, Step(c));
    ConfirmActs(env, s, c);
    NextKeeps(env, s, Step(c));
    ConfirmedUntilVoided(env, u, meanwhile, id);
    OthersLeaveRequest(env, u, meanwhile, c);
    var v := Reread(env, s, c, meanwhile);
    ConfirmReloads(env, v, c);
    OthersLeaveRequest(env, Next(env, v, Step(c)), later, c);
    ConfirmLogs(env, Logged(env, s, c, meanwhile, later), c);
  }

  lemma ConfirmRuns(env: Env, s: State, c: nat, id: nat, actor: nat)
    requires c !in s.requests && id in s.store.rows && s.store.rows[id].state == Completed
    requires env.author(s.store.rows[id].scenarioId) != actor
    ensures var t := Next(env, Next(env, Next(env, Next(env, s, Arrive(c, CallConfirm(id, actor))), Step(c)), Step(c)), Step(c));
      && t.requests.Keys == s.requests.Keys + {c} && t.audits == s.audits
      && t.requests[c].Confirm? && t.requests[c].id == id && t.requests[c].review.ReloadRow?
      && id in t.store.rows && t.store.rows[id].state == Confirmed
  {
    hide TrailOf;
    var s1 := Next(env, s, Arrive(c, CallConfirm(id, actor)));
    assert s1 == With(s, c, Request.Confirm(id, actor, Read));
    var s2 := Next(env, s1, Step(c));
    assert s2.store == s.store && s2.audits == s.audits && s2.requests.Keys == s.requests.Keys + {c};
    assert s2.requests[c].Confirm? && s2.requests[c].id == id && s2.requests[c].actor == actor
      && s2.requests[c].review.ReadAuthor? && s2.requests[c].review.before == s.store.rows[id];
    var s3 := Next(env, s2, Step(c));
    assert s3.store == s.store && s3.audits == s.audits && s3.requests.Keys == s2.requests.Keys;
    assert s3.requests[c].Confirm? && s3.requests[c].id == id && s3.requests[c].review.Act?;
  }

  lemma VoidReads(env: Env, s: State, v: nat, id: nat, actor: nat)
    requires v !in s.requests && id in s.store.rows
    ensures var t := Next(env, Next(env, s, Arrive(v, CallVoid(id, actor))), Step(v));
      && t.requests == s.requests[v := t.requests[v]] && t.audits == s.audits && t.store == s.store
      && t.requests[v].Void? && t.requests[v].id == id && t.requests[v].review.Act?
  {
  }

  lemma VoidSlipsIn(env: Env, s: State, c: nat, v: nat)
    requires c in s.requests && s.requests[c].Confirm? && s.requests[c].review.ReloadRow?
    requires v in s.requests && s.requests[v].Void? && s.requests[v].review.Act? && s.requests[v].id == s.requests[c].id
    requires s.requests[c].id in s.store.rows && s.store.rows[s.requests[c].id].state == Confirmed
    ensures var t := Next(env, Next(env, Next(env, s, Step(v)), Step(c)), Step(c));
      |t.audits| == |s.audits| + 1 && ShowsVoided(t.audits[|s.audits|])
  {
  }

  ghost predicate ShowsVoided(a: Audit) { a.ReviewAudit? && a.action == ConfirmAction && a.after.state == Voided }

  function SlipSchedule(c: nat, v: nat, id: nat, actor: nat): seq<Event> {
    [Arrive(c, CallConfirm(id, actor)), Step(c)] + [Step(c), Step(c)]
    + [Arrive(v, CallVoid(id, actor)), Step(v)]
    + [Step(v), Step(c), Step(c)]
  }

  /** And such a Void is possible from any state with a completed row. */
  lemma ConfirmAuditMayShowVoided(env: Env, s: State, id: nat, actor: nat, c: nat, v: nat)
    requires c !in s.requests && v !in s.requests && c != v
    requires id in s.store.rows && s.store.rows[id].state == Completed
    requires env.author(s.store.rows[id].scenarioId) != actor
    ensures var t := Exec(env, s, SlipSchedule(c, v, id, actor));
      |t.audits| == |s.audits| + 1 && ShowsVoided(t.audits[|s.audits|])
  {
    hide Next, ShowsVoided;
    var first, second := [Arrive(c, CallConfirm(id, actor)), Step(c)], [Step(c), Step(c)];
    var third := [Arrive(v, CallVoid(id, actor)), Step(v)];
    ExecTwo(env, s, [], Arrive(c, CallConfirm(id, actor)), Step(c));
    assert [] + first == first;
    ExecTwo(env, s, first, Step(c), Step(c));
    ConfirmRuns(env, s, c, id, actor);
    var t := Exec(env, s, first + second);
    ExecTwo(env, s, first + second, Arrive(v, CallVoid(id, actor)), Step(v));
    VoidReads(env, t, v, id, actor);
    var u := Exec(env, s, first + second + third);
    ExecThree(env, s, first + second + third, Step(v), Step(c), Step(c));
    VoidSlipsIn(env, u, c, v);
  }

  // ----- the stored replay verdict

  lemma ReplayJudges(env: Env, s: State, r: nat, q: Request)
    requires env.Valid() && q.Replay? && q.replay == ReadRow
    requires q.id in s.store.rows && q.id in s.trails && Completed !in s.trails[q.id].history
    requires var row := s.store.rows[q.id];
      env.Judge(row.snapshotText, row.inputHash, row.columns.coverageScore) == Ok(false)
    ensures AdvanceReplay(env, s, r, q) == With(s, r, Request.Replay(q.id, q.actor, StoreVerdict(false, false)))
  {
    hide Env.Valid, Env.Judge;
  }

  lemma FailsItsReplay(env: Env, s: State, id: nat)
    requires env.Valid() && Inv(env, s)
    requires id in s.store.rows && id in s.trails && Completed !in s.trails[id].history
    requires Evaluates(env, s.store.rows[id]) && !ScoresZero(env, s.store.rows[id])
    ensures var row := s.store.rows[id];
      env.Judge(row.snapshotText, row.inputHash, row.columns.coverageScore) == Ok(false)
  {
    hide Inv, Env.Valid, RowOk, Env.Judge, Evaluates, ScoresZero;
    Known(env, s, 0, id);
    JudgeRow(env, s.store.rows[id], s.trails[id].history);
  }

  // What a new Replay does on its first step.
  lemma ReplayReadsRow(env: Env, s: State, r: nat, id: nat, actor: nat)
    requires env.Valid() && Inv(env, s) && r !in s.requests
    requires id in s.store.rows && id in s.trails && Completed !in s.trails[id].history
    requires Evaluates(env, s.store.rows[id]) && !ScoresZero(env, s.store.rows[id])
    ensures var t := Next(env, Next(env, s, Arrive(r, CallReplay(id, actor))), Step(r));
      t == With(s, r, Request.Replay(id, actor, StoreVerdict(false, false)))
  {
    hide Inv, Env.Valid, Env.Judge, Evaluates, ScoresZero, AdvanceReplay;
    FailsItsReplay(env, s, id);
    var q := Request.Replay(id, actor, ReadRow);
    assert Next(env, s, Arrive(r, CallReplay(id, actor))) == With(s, r, q);
    ReplayJudges(env, With(s, r, q), r, q);
  }

  lemma ReplayStoresFailure(env: Env, s: State, r: nat, id: nat)
    requires r in s.requests && s.requests[r].Replay? && s.requests[r].id == id && id in s.store.rows
    requires s.requests[r].replay == StoreVerdict(false, false)
    ensures var t := Next(env, s, Step(r));
      id in t.store.rows && t.store.rows[id] == s.store.rows[id].(replayPassed := Some(false))
  {
  }

  /** Replay does not look at the state: on a running row whose input does not score 0 it
      stores "not reproduced". */
  lemma ReplayOfRunningRowFails(env: Env, s: State, r: nat, id: nat, actor: nat)
    requires env.Valid() && Inv(env, s) && r !in s.requests
    requires id in s.store.rows && s.store.rows[id].state == Running
    requires Evaluates(env, s.store.rows[id]) && !ScoresZero(env, s.store.rows[id])
    ensures var t := Exec(env, s, [Arrive(r, CallReplay(id, actor)), Step(r), Step(r)]);
      id in t.store.rows && t.store.rows[id] == s.store.rows[id].(replayPassed := Some(false))
  {
    NotCompleted(env, s, id);
    hide Inv, Env.Valid, Evaluates, ScoresZero, Next;
    ExecThree(env, s, [], Arrive(r, CallReplay(id, actor)), Step(r), Step(r));
    assert [] + [Arrive(r, CallReplay(id, actor)), Step(r), Step(r)] == [Arrive(r, CallReplay(id, actor)), Step(r), Step(r)];
    ReplayReadsRow(env, s, r, id, actor);
    ReplayStoresFailure(env, With(s, r, Request.Replay(id, actor, StoreVerdict(false, false))), r, id);
  }

  lemma NotCompleted(env: Env, s: State, id: nat)
    requires Inv(env, s) && id in s.store.rows && s.store.rows[id].state == Running
    ensures id in s.trails && Completed !in s.trails[id].history
  {
    hide Inv;
    Known(env, s, 0, id);
    HistoryShape(s.trails[id].history);
  }

  lemma OwnedBy(env: Env, s: State, run: nat, q: Request)
    requires Inv(env, s) && run in s.requests && s.requests[run] == q && q.Run? && q.pc.Finish?
    ensures OwnsRow(env, s, run, q)
  {
    hide Inv, OwnsRow;
    OwnsItsRow(env, s, run, q);
  }

  // The step that completes the row, beside a Replay that has already judged it.
  lemma RunCompletes(env: Env, s: State, run: nat)
    requires env.Valid() && Inv(env, s) && run in s.requests && s.requests[run].Run? && s.requests[run].pc.Finish?
    requires env.evaluate(s.requests[run].pc.snapshot).Ok?
    ensures var id, t := s.requests[run].pc.id, Next(env, s, Step(run));
      && id in t.store.rows && t.store.rows[id].state == Completed
      && (forall r | r in s.requests && r != run :: r in t.requests && t.requests[r] == s.requests[r])
  {
    hide Inv, Env.Valid, OwnsRow, RowOk, RunAgrees, AdvanceRun, ResultColumns, Matches, Owned;
    var q := s.requests[run];
    OwnedBy(env, s, run, q);
    BeforeWriting(env, s, run, q);
    RunCommits(env, s, run, q);
    assert Next(env, s, Step(run)) == AdvanceRun(env, s, run, q);
  }

  // What the input of a Run that is about to store its result evaluates to.
  lemma InputOfRun(env: Env, s: State, run: nat)
    requires env.Valid() && Inv(env, s) && run in s.requests && s.requests[run].Run? && s.requests[run].pc.Finish?
    requires env.evaluate(s.requests[run].pc.snapshot).Ok?
    ensures var q := s.requests[run];
      && q.pc.id in s.store.rows && s.store.rows[q.pc.id].state == Running
      && Evaluates(env, s.store.rows[q.pc.id])
      && (ScoresZero(env, s.store.rows[q.pc.id]) <==> env.evaluate(q.pc.snapshot).value.coverageScore == 0.0)
  {
    var q := s.requests[run];
    OwnsItsRow(env, s, run, q);
    BeforeWriting(env, s, run, q);
    assert env.codec.decode(env.codec.encode(q.pc.snapshot)) == Some(q.pc.snapshot);
  }

  /** Worse, the verdict can be formed before the row completes and stored afterwards: from any
      state in which a Run is about to store a score other than 0 there is a schedule that
      leaves the row completed and marked "not reproduced". */
  lemma CompletedRowMayBeMarkedFailed(env: Env, s: State, run: nat, r: nat, actor: nat)
    requires env.Valid() && Inv(env, s) && r !in s.requests
    requires run in s.requests && s.requests[run].Run? && s.requests[run].pc.Finish?
    requires env.evaluate(s.requests[run].pc.snapshot).Ok? && env.evaluate(s.requests[run].pc.snapshot).value.coverageScore != 0.0
    ensures var id := s.requests[run].pc.id;
      var t := Exec(env, s, [Arrive(r, CallReplay(id, actor)), Step(r)] + [Step(run), Step(r)]);
      id in t.store.rows && t.store.rows[id].state == Completed && t.store.rows[id].replayPassed == Some(false)
  {
    var id := s.requests[run].pc.id;
    InputOfRun(env, s, run);
    NotCompleted(env, s, id);
    hide Inv, Env.Valid, Evaluates, ScoresZero, Next, With;
    var first := [Arrive(r, CallReplay(id, actor)), Step(r)];
    ExecTwo(env, s, [], Arrive(r, CallReplay(id, actor)), Step(r));
    assert [] + first == first;
    ExecTwo(env, s, first, Step(run), Step(r));
    ReplayReadsRow(env, s, r, id, actor);
    EveryRunKeeps(env, s, first);
    var t := Exec(env, s, first);
    Arrived(s, t, r, Request.Replay(id, actor, StoreVerdict(false, false)));
    RunCompletes(env, t, run);
    ReplayStoresFailure(env, Next(env, t, Step(run)), r, id);
  }

  lemma Arrived(s: State, t: State, r: nat, q: Request)
    requires t == With(s, r, q)
    ensures r in t.requests && t.requests[r] == q
    ensures forall o | o in s.requests && o != r :: o in t.requests && t.requests[o] == s.requests[o]
  {
  }

  /** The exact condition on the stored column, in every run: a row is marked "not reproduced"
      if and only if the last verdict stored for it was formed before the row had completed
      and its input does not score 0. */
  lemma MarkedFailedExactly(env: Env, events: seq<Event>, id: nat)
    requires env.Valid() && id in Exec(env, Init, events).store.rows
    ensures var s := Exec(env, Init, events);
      var row := s.store.rows[id];
      && (row.replayPassed.Some? <==> id in s.verdicts)
      && (row.replayPassed == Some(false) <==> id in s.verdicts && !s.verdicts[id] && !ScoresZero(env, row))
      && (id in s.verdicts && !s.verdicts[id] ==> Evaluates(env, row))
  {
    Reachable(env, events);
    var s := Exec(env, Init, events);
    VerdictKnown(env, s, id);
    hide Inv, Env.Valid, Exec, Evaluates, ScoresZero;
  }

  lemma VerdictKnown(env: Env, s: State, id: nat)
    requires Inv(env, s) && id in s.store.rows
    ensures VerdictOk(env, s.store.rows[id], s.verdicts, id)
  {
    hide RowOk, RequestOk, AuditOk, OwnerOk, Lists, VerdictOk;
  }
}
