/** The evaluation service in its own form: straight-line methods over the repository,
    between whose calls any other request may run. Each is proved to be a schedule of the
    step machine, so the theorems about all schedules are theorems about this code. */
module EvaluationService {
  import opened Wrappers
  import opened Records
  import opened CoverageStates
  import opened EvaluationStore
  import opened Evaluator
  import opened EvaluationMachine
  import opened EvaluationInvariants
  import opened EvaluationSchedules
  import opened EvaluationTheorems
  import opened Freezing
  import Independence
  import Statements

  // What the three reads of a Run find in the scenario, node and safeguard tables.
  datatype Tables = Tables(scenario: Option<DeviationScenario>, node: Option<ProcessNode>, safeguards: seq<Safeguard>)
  {
    ghost predicate Of(scenarioId: nat) {
      && (scenario.Some? ==> scenario.value.id == scenarioId)
      && (scenario.Some? && node.Some? ==> node.value.id == scenario.value.processNodeId)
      && DistinctStoredIds(safeguards)
    }

    predicate Complete() { scenario.Some? && node.Some? }

    function Snapshot(now: Time): Snapshot
      requires Complete()
    {
      SnapshotOf(node.value, scenario.value, safeguards, TruncateToSecond(now))
    }
  }

  class CoverageEvaluationService {
    const codec: Codec
    const fold: Statements.Folding
    const author: nat -> nat
    const evaluations: CoverageEvaluationRepository
    // The machine state reached so far and the schedule that led to it.
    var world: State
    var schedule: seq<Event>

    function Environment(): Env { RealEnv(codec, fold, author) }

    ghost predicate Scheduled() reads this { codec.RoundTrips() && world == Exec(Environment(), Init, schedule) }

    ghost predicate Valid() reads this, evaluations {
      Scheduled() && evaluations.Contents() == world.store
    }

    ghost predicate At(rid: nat, q: Request) reads this { rid in world.requests && world.requests[rid] == q }

    constructor (codec: Codec, fold: Statements.Folding, author: nat -> nat)
      requires codec.RoundTrips()
      ensures Valid() && fresh(evaluations)
    {
      this.codec, this.fold, this.author := codec, fold, author;
      evaluations := new CoverageEvaluationRepository();
      world, schedule := Init, [];
    }

    // The step the code has just taken, in the machine's terms.
    method Record(e: Event)
      requires Scheduled()
      modifies this`world, this`schedule
      ensures Scheduled() && world == Next(Environment(), old(world), e)
      ensures schedule == old(schedule) + [e]
    {
      ExecStep(Environment(), Init, schedule, e);
      world := Next(Environment(), world, e);
      schedule := schedule + [e];
    }

    // Any number of steps of any other requests, old or new.
    method Interleave(rid: nat)
      requires Valid() && rid in world.requests
      modifies this`world, this`schedule, evaluations
      ensures Valid() && At(rid, old(world.requests[rid]))
      ensures old(schedule) <= schedule
    {
      var events: seq<Event> := *;
      if ByOthers(events, rid) {
        OthersLeaveRequest(Environment(), world, events, rid);
        ExecAppend(Environment(), Init, schedule, events);
        world := Exec(Environment(), world, events);
        schedule := schedule + events;
        evaluations.rows, evaluations.byKey, evaluations.nextId := world.store.rows, world.store.byKey, world.store.nextId;
      }
    }

    // ----- Run

    method FindExisting(rid: nat, q: Request) returns (existing: Option<nat>)
      requires Valid() && At(rid, q) && q.Run? && (q.pc.FindKey? || q.pc.FindAgain?)
      modifies this`world, this`schedule, evaluations
      ensures Valid() && old(schedule) <= schedule
      ensures existing.Some? ==> At(rid, q.(pc := RunDone(Returned(existing.value, true))))
      ensures existing.None? ==> At(rid, q.(pc := if q.pc.FindKey? then LoadScenario else RunDone(InsertFailed)))
    {
      Interleave(rid);
      existing := evaluations.FindByIdempotencyKey(q.key);
      Record(Step(rid));
    }

    method ReadScenario(rid: nat, q: Request, tables: Tables)
      requires Valid() && At(rid, q) && q.Run? && q.pc.LoadScenario? && tables.Of(q.scenarioId)
      modifies this`world, this`schedule, evaluations
      ensures Valid() && old(schedule) <= schedule
      ensures At(rid, q.(pc := if tables.scenario.None? then RunDone(InputMissing) else LoadNode(tables.scenario.value)))
    {
      Interleave(rid);
      Record(Load(rid, FoundScenario(tables.scenario)));
    }

    method ReadNode(rid: nat, q: Request, tables: Tables)
      requires Valid() && At(rid, q) && q.Run? && tables.Of(q.scenarioId)
      requires q.pc.LoadNode? && tables.scenario == Some(q.pc.scenario)
      modifies this`world, this`schedule, evaluations
      ensures Valid() && old(schedule) <= schedule
      ensures At(rid, q.(pc :=
        if tables.node.None? then RunDone(InputMissing) else LoadSafeguards(q.pc.scenario, tables.node.value)))
    {
      Interleave(rid);
      Record(Load(rid, FoundNode(tables.node)));
    }

    method ReadSafeguards(rid: nat, q: Request, tables: Tables, now: Time) returns (snapshot: Option<Snapshot>)
      requires Valid() && At(rid, q) && q.Run? && tables.Of(q.scenarioId)
      requires q.pc.LoadSafeguards? && tables.scenario == Some(q.pc.scenario) && tables.node == Some(q.pc.node)
      modifies this`world, this`schedule, evaluations
      ensures Valid() && old(schedule) <= schedule
      ensures snapshot == if codec.encodable(tables.Snapshot(now)) then Some(tables.Snapshot(now)) else None
      ensures snapshot.Some? ==> Independence.DistinctIds(snapshot.value.safeguards)
      ensures At(rid, q.(pc := if snapshot.Some? then Insert(snapshot.value) else RunDone(FreezeFailed)))
    {
      Interleave(rid);
      var frozen := NewSnapshot(q.pc.node, q.pc.scenario, tables.safeguards, TruncateToSecond(now));
      snapshot := if codec.encodable(frozen) then Some(frozen) else None;
      hide SnapshotOf, Independence.DistinctIds;
      Record(Load(rid, FoundSafeguards(tables.safeguards, now)));
    }

    // Reads and freezes the input, or says why it cannot.
    method FreezeInput(rid: nat, q: Request, tables: Tables, now: Time) returns (frozen: Result<Snapshot, RunOutcome>)
      requires Valid() && At(rid, q) && q.Run? && q.pc.LoadScenario? && tables.Of(q.scenarioId)
      modifies this`world, this`schedule, evaluations
      ensures Valid() && old(schedule) <= schedule
      ensures frozen.Ok? <==> tables.Complete() && codec.encodable(tables.Snapshot(now))
      ensures match frozen
        case Ok(snapshot) => At(rid, q.(pc := Insert(snapshot))) && Independence.DistinctIds(snapshot.safeguards)
        case Err(outcome) =>
          At(rid, q.(pc := RunDone(outcome))) && outcome == if tables.Complete() then FreezeFailed else InputMissing
    {
      hide Valid, SnapshotOf, Independence.DistinctIds;
      ReadScenario(rid, q, tables);
      if tables.scenario.None? { return Err(InputMissing); }
      ReadNode(rid, q.(pc := LoadNode(tables.scenario.value)), tables);
      if tables.node.None? { return Err(InputMissing); }
      var snapshot := ReadSafeguards(rid, q.(pc := LoadSafeguards(tables.scenario.value, tables.node.value)), tables, now);
      return if snapshot.None? then Err(FreezeFailed) else Ok(snapshot.value);
    }

    method Queue(rid: nat, q: Request) returns (id: Option<nat>)
      requires Valid() && At(rid, q) && q.Run? && q.pc.Insert?
      modifies this`world, this`schedule, evaluations
      ensures Valid() && old(schedule) <= schedule
      ensures id.Some? ==> At(rid, q.(pc := Start(id.value, q.pc.snapshot)))
      ensures id.None? ==> At(rid, q.(pc := FindAgain))
    {
      Interleave(rid);
      var text := codec.encode(q.pc.snapshot);
      var rank := RankOf(q.pc.snapshot.scenario.InitialRisk());
      id := evaluations.Create(EvaluationStore.Row(q.pc.snapshot.scenario.id, text, codec.hash(text), InitialColumns(rank), Queued,
        q.actor, q.key, None, None, None));
      Record(Step(rid));
    }

    method StartEvaluation(rid: nat, q: Request) returns (changed: bool)
      requires Valid() && At(rid, q) && q.Run? && q.pc.Start?
      modifies this`world, this`schedule, evaluations
      ensures Valid() && old(schedule) <= schedule
      ensures At(rid, q.(pc := if changed then Finish(q.pc.id, q.pc.snapshot) else RunDone(StartConflict)))
    {
      Interleave(rid);
      changed := evaluations.Transition(q.pc.id, {Queued}, Running, NoUpdates);
      Record(Step(rid));
    }

    method StoreFailure(rid: nat, q: Request, error: EvaluationError)
      requires Valid() && At(rid, q) && q.Run? && q.pc.Finish?
      requires Evaluate(codec, fold, q.pc.snapshot) == Err(error)
      modifies this`world, this`schedule, evaluations
      ensures Valid() && old(schedule) <= schedule
      ensures At(rid, q.(pc := RunDone(Rejected(q.pc.id))))
    {
      hide Evaluate;
      Interleave(rid);
      var _ := evaluations.Transition(q.pc.id, {Running}, Failed, SetFailure(error));
      Record(Step(rid));
    }

    method StoreResult(rid: nat, q: Request, result: EvaluationResult) returns (changed: bool)
      requires Valid() && At(rid, q) && q.Run? && q.pc.Finish?
      requires Evaluate(codec, fold, q.pc.snapshot) == Ok(result)
      modifies this`world, this`schedule, evaluations
      ensures Valid() && old(schedule) <= schedule
      ensures At(rid, q.(pc := if changed then Reload(q.pc.id) else RunDone(StoreConflict)))
    {
      hide Evaluate;
      Interleave(rid);
      changed := evaluations.Complete(q.pc.id, Running, result.snapshotText, result.inputHash, ResultColumns(result));
      Record(Step(rid));
    }

    // The re-read of a row that this service has just written: it is always there.
    method ReloadRun(rid: nat, q: Request) returns (row: Row)
      requires Valid() && At(rid, q) && q.Run? && q.pc.Reload?
      modifies this`world, this`schedule, evaluations
      ensures Valid() && old(schedule) <= schedule
      ensures At(rid, q.(pc := LogRun(q.pc.id, row)))
    {
      Interleave(rid);
      RowIsThere(rid, q);
      var found := evaluations.GetByID(q.pc.id);
      row := found.value;
      Record(Step(rid));
    }

    lemma RowIsThere(rid: nat, q: Request)
      requires Scheduled() && At(rid, q) && q.Run? && q.pc.Reload?
      ensures q.pc.id in world.store.rows
    {
      RealEnvIsValid(codec, fold, author);
      Reachable(Environment(), schedule);
      hide Inv;
      Known(Environment(), world, rid, 0);
    }

    method RecordRun(rid: nat, q: Request)
      requires Valid() && At(rid, q) && q.Run? && q.pc.LogRun?
      modifies this`world, this`schedule, evaluations
      ensures Valid() && old(schedule) <= schedule
      ensures At(rid, q.(pc := RunDone(Returned(q.pc.id, false))))
    {
      Interleave(rid);
      Record(Step(rid));
    }

    // Evaluates the frozen input and stores what came of it.
    method EvaluateAndStore(rid: nat, q: Request) returns (outcome: RunOutcome)
      requires Valid() && At(rid, q) && q.Run? && q.pc.Finish?
      requires Independence.DistinctIds(q.pc.snapshot.safeguards)
      modifies this`world, this`schedule, evaluations
      ensures Valid() && old(schedule) <= schedule
      ensures At(rid, q.(pc := RunDone(outcome))) && outcome != InvalidKey && outcome != InputMissing && outcome != FreezeFailed
    {
      hide Valid, At, Evaluate;
      var id := q.pc.id;
      var result := EvaluateSnapshot(codec, fold, q.pc.snapshot);
      match result
      case Err(error) =>
        StoreFailure(rid, q, error);
        return Rejected(id);
      case Ok(r) =>
        var changed := StoreResult(rid, q, r);
        if !changed { return StoreConflict; }
        var row := ReloadRun(rid, q.(pc := Reload(id)));
        RecordRun(rid, q.(pc := LogRun(id, row)));
        return Returned(id, false);
    }

    method RunBody(rid: nat, scenarioId: nat, rawKey: string, actor: nat, tables: Tables, now: Time)
      returns (outcome: RunOutcome)
      requires Valid() && rid !in world.requests
      requires tables.Of(scenarioId)
      modifies this`world, this`schedule, evaluations
      ensures Valid() && old(schedule) <= schedule
      ensures At(rid, Request.Run(Statements.TrimSpace(rawKey), scenarioId, actor, RunDone(outcome)))
      ensures outcome == InvalidKey <==> !(8 <= Statements.ByteLength(Statements.TrimSpace(rawKey)) <= 128)
      ensures outcome == InputMissing ==> !tables.Complete()
      ensures outcome == FreezeFailed ==> tables.Complete() && !codec.encodable(tables.Snapshot(now))
    {
      Record(Arrive(rid, CallRun(rawKey, scenarioId, actor)));
      var key := Statements.TrimSpace(rawKey);
      var length := Statements.ByteLength(key);
      if length < 8 || length > 128 { return InvalidKey; }
      hide Valid;
      var q := Request.Run(key, scenarioId, actor, FindKey);
      var existing := FindExisting(rid, q);
      if existing.Some? { return Returned(existing.value, true); }
      var frozen := FreezeInput(rid, q.(pc := LoadScenario), tables, now);
      match frozen
      case Err(reason) => return reason;
      case Ok(snapshot) => outcome := QueueAndEvaluate(rid, q.(pc := Insert(snapshot)));
    }

    method QueueAndEvaluate(rid: nat, q: Request) returns (outcome: RunOutcome)
      requires Valid() && At(rid, q) && q.Run? && q.pc.Insert?
      requires Independence.DistinctIds(q.pc.snapshot.safeguards)
      modifies this`world, this`schedule, evaluations
      ensures Valid() && old(schedule) <= schedule
      ensures At(rid, q.(pc := RunDone(outcome))) && outcome != InvalidKey && outcome != InputMissing && outcome != FreezeFailed
    {
      hide Valid;
      var id := Queue(rid, q);
      if id.None? {
        var existing := FindExisting(rid, q.(pc := FindAgain));
        return if existing.Some? then Returned(existing.value, true) else InsertFailed;
      }
      var changed := StartEvaluation(rid, q.(pc := Start(id.value, q.pc.snapshot)));
      if !changed { return StartConflict; }
      outcome := EvaluateAndStore(rid, q.(pc := Finish(id.value, q.pc.snapshot)));
    }

    /** Run, with any other requests in between its calls: no conflict branch and no failed
        insert is ever returned, an equal key has returned this row, and the row of an
        evaluation this Run created is completed or beyond. */
    method Run(rid: nat, scenarioId: nat, rawKey: string, actor: nat, tables: Tables, now: Time)
      returns (outcome: RunOutcome)
      requires Valid() && rid !in world.requests
      requires tables.Of(scenarioId)
      modifies this`world, this`schedule, evaluations
      ensures Valid() && old(schedule) <= schedule
      ensures At(rid, Request.Run(Statements.TrimSpace(rawKey), scenarioId, actor, RunDone(outcome)))
      ensures outcome == InvalidKey <==> !(8 <= Statements.ByteLength(Statements.TrimSpace(rawKey)) <= 128)
      ensures outcome == InputMissing ==> !tables.Complete()
      ensures outcome == FreezeFailed ==> tables.Complete() && !codec.encodable(tables.Snapshot(now))
      ensures match outcome
        case InvalidKey => true
        case InputMissing => true
        case FreezeFailed => true
        case Returned(id, duplicate) =>
          && id in evaluations.rows && evaluations.rows[id].idempotencyKey == Statements.TrimSpace(rawKey)
          && (!duplicate ==> evaluations.rows[id].state in {Completed, Confirmed, Voided})
        case Rejected(id) => id in evaluations.rows && evaluations.rows[id].state in {Failed, Voided}
        case _ => false
    {
      outcome := RunBody(rid, scenarioId, rawKey, actor, tables, now);
      RealEnvIsValid(codec, fold, author);
      hide Inv, Env.Valid, Codec.RoundTrips;
      RunNeverConflicts(Environment(), schedule, rid);
    }

    // ----- Confirm and Void

    method ReadForReview(rid: nat, q: Request, action: Action) returns (outcome: Option<ReviewOutcome>, before: Option<Row>)
      requires Valid() && At(rid, q) && IsReview(q, action) && q.review.Read?
      modifies this`world, this`schedule, evaluations
      ensures Valid() && old(schedule) <= schedule
      ensures outcome.Some? ==> At(rid, q.(review := ReviewDone(outcome.value))) && !outcome.value.Acted?
      ensures outcome.None? ==> before.Some? && exists readAt :: At(rid, q.(review := Act(before.value, readAt)))
    {
      Interleave(rid);
      before := evaluations.GetByID(q.id);
      outcome := None;
      Record(Step(rid));
      if before.None? { return Some(RowMissing), None; }
      if action.ConfirmAction? {
        Interleave(rid);
        if author(before.value.scenarioId) == q.actor { outcome := Some(SameAuthor); }
        Record(Step(rid));
      }
      if outcome.None? {
        assert At(rid, q.(review := Act(before.value, world.requests[rid].review.readAt)));
      }
    }

    method WriteReview(rid: nat, q: Request, action: Action) returns (changed: bool)
      requires Valid() && At(rid, q) && IsReview(q, action) && q.review.Act?
      modifies this`world, this`schedule, evaluations
      ensures Valid() && old(schedule) <= schedule
      ensures changed ==> exists actedAt :: At(rid, q.(review := ReloadRow(q.review.before, q.review.readAt, actedAt)))
      ensures !changed ==> At(rid, q.(review := ReviewDone(Refused)))
    {
      Interleave(rid);
      if action.ConfirmAction? {
        changed := evaluations.Transition(q.id, {Completed}, Confirmed, SetConfirmedBy(q.actor));
      } else {
        changed := evaluations.Transition(q.id, {Completed, Failed, Confirmed}, Voided, NoUpdates);
      }
      Record(Step(rid));
      if changed {
        assert At(rid, q.(review := ReloadRow(q.review.before, q.review.readAt, world.requests[rid].review.actedAt)));
      }
    }

    lemma ReviewedRowIsThere(rid: nat, q: Request, action: Action)
      requires Scheduled() && At(rid, q) && IsReview(q, action) && q.review.ReloadRow?
      ensures q.id in world.store.rows
    {
      RealEnvIsValid(codec, fold, author);
      Reachable(Environment(), schedule);
      hide Inv;
      Known(Environment(), world, rid, 0);
    }

    method ReloadReviewed(rid: nat, q: Request, action: Action) returns (after: Row)
      requires Valid() && At(rid, q) && IsReview(q, action) && q.review.ReloadRow?
      modifies this`world, this`schedule, evaluations
      ensures Valid() && old(schedule) <= schedule
      ensures exists reloadedAt :: At(rid, q.(review := LogReview(q.review.before, after, q.review.readAt, q.review.actedAt, reloadedAt)))
    {
      Interleave(rid);
      ReviewedRowIsThere(rid, q, action);
      var found := evaluations.GetByID(q.id);
      after := found.value;
      Record(Step(rid));
      assert At(rid, q.(review := LogReview(q.review.before, after, q.review.readAt, q.review.actedAt, world.requests[rid].review.reloadedAt)));
    }

    method RecordStateAudit(rid: nat, q: Request, action: Action)
      requires Valid() && At(rid, q) && IsReview(q, action) && q.review.LogReview?
      modifies this`world, this`schedule, evaluations
      ensures Valid() && old(schedule) <= schedule
      ensures At(rid, q.(review := ReviewDone(Acted(q.review.after))))
      ensures world.audits != []
      ensures var a := world.audits[|world.audits| - 1];
        a == ReviewAudit(q.id, q.actor, action, q.review.before, q.review.after, q.review.readAt, q.review.actedAt, q.review.reloadedAt)
    {
      Interleave(rid);
      Record(Step(rid));
    }

    /** The body Confirm and Void share. */
    method Review(rid: nat, q: Request, action: Action) returns (outcome: ReviewOutcome)
      requires Valid() && At(rid, q) && IsReview(q, action) && q.review.Read?
      modifies this`world, this`schedule, evaluations
      ensures Valid() && old(schedule) <= schedule
      ensures At(rid, q.(review := ReviewDone(outcome)))
      ensures outcome.Acted? ==> Audited(q.id, q.actor, action, outcome.row)
    {
      hide Valid;
      var refused, before := ReadForReview(rid, q, action);
      if refused.Some? { return refused.value; }
      var p := world.requests[rid];
      var changed := WriteReview(rid, p, action);
      if !changed { return Refused; }
      p := world.requests[rid];
      var after := ReloadReviewed(rid, p, action);
      p := world.requests[rid];
      RecordStateAudit(rid, p, action);
      outcome := Acted(after);
    }

    // The last audit record is this one.
    ghost predicate Audited(id: nat, actor: nat, action: Action, after: Row) reads this {
      && world.audits != []
      && var a := world.audits[|world.audits| - 1];
         a.ReviewAudit? && a.id == id && a.actor == actor && a.action == action && a.after == after
    }

    // What any review audit of a schedule certifies.
    lemma AuditIsTruthful(id: nat, actor: nat, action: Action, after: Row)
      requires Scheduled() && Audited(id, actor, action, after)
      ensures id in world.trails && TruthfulReview(world.trails[id].history, world.audits[|world.audits| - 1])
    {
      RealEnvIsValid(codec, fold, author);
      AuditsFollowHistory(Environment(), schedule, world.audits[|world.audits| - 1]);
    }

    method Confirm(rid: nat, id: nat, actor: nat) returns (outcome: ReviewOutcome)
      requires Valid() && rid !in world.requests
      modifies this`world, this`schedule, evaluations
      ensures Valid() && old(schedule) <= schedule
      ensures At(rid, Request.Confirm(id, actor, ReviewDone(outcome)))
      ensures outcome.Acted? ==>
        && Audited(id, actor, ConfirmAction, outcome.row)
        && id in world.trails && TruthfulReview(world.trails[id].history, world.audits[|world.audits| - 1])
        && outcome.row.state in {Confirmed, Voided} && outcome.row.confirmedBy == Some(actor)
    {
      Record(Arrive(rid, CallConfirm(id, actor)));
      outcome := Review(rid, Request.Confirm(id, actor, Read), ConfirmAction);
      if outcome.Acted? { AuditIsTruthful(id, actor, ConfirmAction, outcome.row); }
    }

    method Void(rid: nat, id: nat, actor: nat) returns (outcome: ReviewOutcome)
      requires Valid() && rid !in world.requests
      modifies this`world, this`schedule, evaluations
      ensures Valid() && old(schedule) <= schedule
      ensures At(rid, Request.Void(id, actor, ReviewDone(outcome)))
      ensures outcome.Acted? ==>
        && Audited(id, actor, VoidAction, outcome.row)
        && id in world.trails && TruthfulReview(world.trails[id].history, world.audits[|world.audits| - 1])
        && outcome.row.state == Voided
    {
      Record(Arrive(rid, CallVoid(id, actor)));
      outcome := Review(rid, Request.Void(id, actor, Read), VoidAction);
      if outcome.Acted? { AuditIsTruthful(id, actor, VoidAction, outcome.row); }
    }

    // ----- Replay

    method ReadForReplay(rid: nat, q: Request) returns (outcome: Option<ReplayOutcome>, passed: bool)
      requires Valid() && At(rid, q) && q.Replay? && q.replay.ReadRow?
      modifies this`world, this`schedule, evaluations
      ensures Valid() && old(schedule) <= schedule
      ensures outcome.Some? ==> exists c :: At(rid, q.(replay := ReplayDone(outcome.value, c)))
      ensures outcome.None? ==> exists c :: At(rid, q.(replay := StoreVerdict(passed, c)))
    {
      Interleave(rid);
      var found := evaluations.GetByID(q.id);
      outcome, passed := None, false;
      if found.None? {
        outcome := Some(ReplayRowMissing);
      } else {
        RealEnvIsValid(codec, fold, author);
        match Evaluator.Replay(codec, fold, found.value.snapshotText, found.value.inputHash, found.value.columns.coverageScore)
        case Err(e) => outcome := Some(Unreplayable(e));
        case Ok(p) => passed := p;
      }
      hide Evaluator.Replay, Env.Judge;
      Record(Step(rid));
      ghost var r := world.requests[rid].replay;
      assert At(rid, q.(replay := if r.ReplayDone? then ReplayDone(r.outcome, r.completed) else StoreVerdict(passed, r.completed)));
    }

    method StoreReplay(rid: nat, q: Request)
      requires Valid() && At(rid, q) && q.Replay? && q.replay.StoreVerdict?
      modifies this`world, this`schedule, evaluations
      ensures Valid() && old(schedule) <= schedule
      ensures At(rid, q.(replay := LogReplay(q.replay.passed, q.replay.completed)))
    {
      Interleave(rid);
      var _ := evaluations.SetReplayResult(q.id, q.replay.passed);
      Record(Step(rid));
    }

    method RecordReplay(rid: nat, q: Request)
      requires Valid() && At(rid, q) && q.Replay? && q.replay.LogReplay?
      modifies this`world, this`schedule, evaluations
      ensures Valid() && old(schedule) <= schedule
      ensures At(rid, q.(replay := ReplayDone(if q.replay.passed then Reproduced else NotReproduced, q.replay.completed)))
    {
      Interleave(rid);
      Record(Step(rid));
    }

    /** Replay: whenever the row it read had completed, it reproduces the stored result. */
    method Replay(rid: nat, id: nat, actor: nat) returns (outcome: ReplayOutcome)
      requires Valid() && rid !in world.requests
      modifies this`world, this`schedule, evaluations
      ensures Valid() && old(schedule) <= schedule
      ensures exists completed :: At(rid, Request.Replay(id, actor, ReplayDone(outcome, completed))) && (completed ==> outcome == Reproduced)
    {
      Record(Arrive(rid, CallReplay(id, actor)));
      outcome := ReplayBody(rid, Request.Replay(id, actor, ReadRow));
      RealEnvIsValid(codec, fold, author);
      ReplayOfCompletedPasses(Environment(), schedule, rid);
    }

    method ReplayBody(rid: nat, q: Request) returns (outcome: ReplayOutcome)
      requires Valid() && At(rid, q) && q.Replay? && q.replay.ReadRow?
      modifies this`world, this`schedule, evaluations
      ensures Valid() && old(schedule) <= schedule
      ensures exists c :: At(rid, q.(replay := ReplayDone(outcome, c)))
    {
      hide Valid;
      var refused, passed := ReadForReplay(rid, q);
      if refused.Some? { return refused.value; }
      var p := world.requests[rid];
      StoreReplay(rid, p);
      RecordReplay(rid, world.requests[rid]);
      outcome := if passed then Reproduced else NotReproduced;
      assert At(rid, q.(replay := ReplayDone(outcome, p.replay.completed)));
    }
  }

  predicate IsReview(q: Request, action: Action) {
    (q.Confirm? && action == ConfirmAction) || (q.Void? && action == VoidAction)
  }
}
