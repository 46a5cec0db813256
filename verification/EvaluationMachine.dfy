/** The evaluation service as a step machine. Every repository call is one atomic step and
    nothing wraps them together, so any number of Run, Confirm, Void and Replay requests may
    interleave; a request that is never scheduled again has crashed. */
module EvaluationMachine {
  import opened Wrappers
  import opened Records
  import opened CoverageStates
  import opened EvaluationStore
  import opened Evaluator
  import Freezing
  import Statements

  /** What the service cannot change: the codec, the evaluator and who wrote each scenario. */
  datatype Env = Env(
    codec: Codec,
    evaluate: Snapshot -> Result<EvaluationResult, EvaluationError>,
    author: nat -> nat)
  {
    ghost predicate Valid() {
      && codec.RoundTrips()
      && forall s :: evaluate(s).Ok? ==>
           evaluate(s).value.snapshotText == codec.encode(s) && evaluate(s).value.inputHash == codec.hash(codec.encode(s))
    }

    // Evaluator.Replay over this environment's evaluator.
    function Judge(text: string, expectedHash: string, expectedScore: real): Result<bool, ReplayError> {
      if codec.hash(text) != expectedHash then Err(HashMismatch)
      else
        match codec.decode(text)
        case None => Err(Undecodable)
        case Some(snapshot) =>
          match evaluate(snapshot)
          case Err(e) => Err(EvaluationFailed(e))
          case Ok(r) => Ok(r.inputHash == expectedHash && r.coverageScore == expectedScore)
    }
  }

  // ----- requests: a program counter with the locals that are still needed

  datatype RunOutcome =
    | InvalidKey
    | Returned(id: nat, duplicate: bool)
    | InputMissing
    | FreezeFailed
    | InsertFailed
    | StartConflict
    | StoreConflict
    | Rejected(id: nat)

  datatype RunPc =
    | FindKey
    | LoadScenario
    | LoadNode(scenario: DeviationScenario)
    | LoadSafeguards(scenario: DeviationScenario, node: ProcessNode)
    | Insert(snapshot: Snapshot)
    | FindAgain
    | Start(id: nat, snapshot: Snapshot)
    | Finish(id: nat, snapshot: Snapshot)
    | Reload(id: nat)
    | LogRun(id: nat, row: Row)
    | RunDone(outcome: RunOutcome)

  datatype ReviewOutcome = Acted(row: Row) | RowMissing | SameAuthor | Refused

  // readAt, actedAt and reloadedAt are history variables: positions in the row's history.
  datatype ReviewPc =
    | Read
    | ReadAuthor(before: Row, readAt: nat)
    | Act(before: Row, readAt: nat)
    | ReloadRow(before: Row, readAt: nat, actedAt: nat)
    | LogReview(before: Row, after: Row, readAt: nat, actedAt: nat, reloadedAt: nat)
    | ReviewDone(outcome: ReviewOutcome)

  datatype ReplayOutcome = Reproduced | NotReproduced | Unreplayable(error: ReplayError) | ReplayRowMissing

  // `completed` is a history variable: the row that was read had completed.
  datatype ReplayPc =
    | ReadRow
    | StoreVerdict(passed: bool, completed: bool)
    | LogReplay(passed: bool, completed: bool)
    | ReplayDone(outcome: ReplayOutcome, completed: bool)

  datatype Request =
    | Run(key: string, scenarioId: nat, actor: nat, pc: RunPc)
    | Confirm(id: nat, actor: nat, review: ReviewPc)
    | Void(id: nat, actor: nat, review: ReviewPc)
    | Replay(id: nat, actor: nat, replay: ReplayPc)

  datatype Action = ConfirmAction | VoidAction

  datatype Audit =
    | RunAudit(id: nat, actor: nat, inputHash: string)
    | ReviewAudit(id: nat, actor: nat, action: Action, before: Row, after: Row, readAt: nat, actedAt: nat, reloadedAt: nat)
    | ReplayAudit(id: nat, actor: nat, passed: bool)

  // History variables of a row: who created it and every state committed to it.
  datatype Trail = Trail(creator: nat, history: History)

  // verdicts is a history variable too: for a row with a stored replay verdict, whether the
  // row had completed when that verdict was formed.
  datatype State = State(
    store: Store, trails: map<nat, Trail>, requests: map<nat, Request>, audits: seq<Audit>, verdicts: map<nat, bool>)

  const Init := State(Store(map[], map[], 1), map[], map[], [], map[])

  // ----- steps

  datatype Call =
    | CallRun(rawKey: string, scenarioId: nat, actor: nat)
    | CallConfirm(id: nat, actor: nat)
    | CallVoid(id: nat, actor: nat)
    | CallReplay(id: nat, actor: nat)

  // What a Run may find in the other tables, which other requests change meanwhile.
  datatype Found =
    | FoundScenario(scenario: Option<DeviationScenario>)
    | FoundNode(node: Option<ProcessNode>)
    | FoundSafeguards(safeguards: seq<Safeguard>, now: Time)

  datatype Event =
    | Arrive(rid: nat, call: Call)
    | Load(rid: nat, found: Found)
    | Step(rid: nat)

  predicate ValidKey(key: string) { 8 <= Statements.ByteLength(key) <= 128 }

  function Accept(call: Call): Request {
    match call
    case CallRun(rawKey, scenarioId, actor) =>
      var key := Statements.TrimSpace(rawKey);
      Run(key, scenarioId, actor, if ValidKey(key) then FindKey else RunDone(InvalidKey))
    case CallConfirm(id, actor) => Confirm(id, actor, Read)
    case CallVoid(id, actor) => Void(id, actor, Read)
    case CallReplay(id, actor) => Replay(id, actor, ReadRow)
  }

  function With(s: State, rid: nat, q: Request): State { s.(requests := s.requests[rid := q]) }

  // Commit a state change of row id.
  function Commit(s: State, id: nat, store: Store, to: CoverageState): State {
    s.(store := store, trails := s.trails[id := TrailOf(s, id).(history := TrailOf(s, id).history + [to])])
  }

  function TrailOf(s: State, id: nat): Trail { if id in s.trails then s.trails[id] else Trail(0, [Queued]) }

  function NewRow(env: Env, q: Request, snapshot: Snapshot): Row
    requires q.Run?
  {
    var text := env.codec.encode(snapshot);
    var rank := RankOf(snapshot.scenario.InitialRisk());
    EvaluationStore.Row(snapshot.scenario.id, text, env.codec.hash(text), InitialColumns(rank), Queued,
      q.actor, q.key, None, None, None)
  }

  function AdvanceRun(env: Env, s: State, rid: nat, q: Request): State
    requires q.Run?
  {
    match q.pc
    case FindKey =>
      if q.key in s.store.byKey then With(s, rid, q.(pc := RunDone(Returned(s.store.byKey[q.key], true))))
      else With(s, rid, q.(pc := LoadScenario))
    case LoadScenario => s
    case LoadNode(_) => s
    case LoadSafeguards(_, _) => s
    case Insert(snapshot) =>
      if q.key in s.store.byKey then With(s, rid, q.(pc := FindAgain))
      else
        var id := s.store.nextId;
        With(s.(store := Inserted(s.store, NewRow(env, q, snapshot)), trails := s.trails[id := Trail(rid, [Queued])]),
          rid, q.(pc := Start(id, snapshot)))
    case FindAgain =>
      if q.key in s.store.byKey then With(s, rid, q.(pc := RunDone(Returned(s.store.byKey[q.key], true))))
      else With(s, rid, q.(pc := RunDone(InsertFailed)))
    case Start(id, snapshot) =>
      if Matches(s.store, id, {Queued}) then
        With(Commit(s, id, Transitioned(s.store, id, {Queued}, Running, NoUpdates), Running),
          rid, q.(pc := Finish(id, snapshot)))
      else With(s, rid, q.(pc := RunDone(StartConflict)))
    case Finish(id, snapshot) =>
      (match env.evaluate(snapshot)
       case Err(e) =>
         var t := if Matches(s.store, id, {Running})
           then Commit(s, id, Transitioned(s.store, id, {Running}, Failed, SetFailure(e)), Failed) else s;
         With(t, rid, q.(pc := RunDone(Rejected(id))))
       case Ok(r) =>
         if Matches(s.store, id, {Running}) then
           With(Commit(s, id, CompletedIn(s.store, id, Running, r.snapshotText, r.inputHash, ResultColumns(r)), Completed),
             rid, q.(pc := Reload(id)))
         else With(s, rid, q.(pc := RunDone(StoreConflict))))
    case Reload(id) =>
      if id in s.store.rows then With(s, rid, q.(pc := LogRun(id, s.store.rows[id]))) else s
    case LogRun(id, row) =>
      With(s.(audits := s.audits + [RunAudit(id, q.actor, row.inputHash)]), rid, q.(pc := RunDone(Returned(id, false))))
    case RunDone(_) => s
  }

  function ReviewSources(action: Action): set<CoverageState> {
    if action.ConfirmAction? then {Completed} else {Completed, Failed, Confirmed}
  }

  function ReviewTarget(action: Action): CoverageState { if action.ConfirmAction? then Confirmed else Voided }

  function ReviewUpdates(action: Action, actor: nat): Updates {
    if action.ConfirmAction? then SetConfirmedBy(actor) else NoUpdates
  }

  function WithReview(s: State, rid: nat, q: Request, pc: ReviewPc): State
    requires q.Confirm? || q.Void?
  {
    With(s, rid, q.(review := pc))
  }

  // Confirm and Void: read, check, one conditional update, re-read, audit. The author of a
  // scenario never changes, so Confirm's second read is a function of the scenario.
  function AdvanceReview(env: Env, s: State, rid: nat, q: Request, action: Action): State
    requires q.Confirm? || q.Void?
  {
    var id := q.id;
    match q.review
    case Read =>
      if id !in s.store.rows then WithReview(s, rid, q, ReviewDone(RowMissing))
      else
        var row, readAt := s.store.rows[id], |TrailOf(s, id).history| - 1;
        WithReview(s, rid, q, if action.ConfirmAction? then ReadAuthor(row, readAt) else Act(row, readAt))
    case ReadAuthor(before, readAt) =>
      WithReview(s, rid, q, if env.author(before.scenarioId) == q.actor then ReviewDone(SameAuthor) else Act(before, readAt))
    case Act(before, readAt) =>
      if Matches(s.store, id, ReviewSources(action)) then
        WithReview(
          Commit(s, id, Transitioned(s.store, id, ReviewSources(action), ReviewTarget(action), ReviewUpdates(action, q.actor)), ReviewTarget(action)),
          rid, q, ReloadRow(before, readAt, |TrailOf(s, id).history|))
      else WithReview(s, rid, q, ReviewDone(Refused))
    case ReloadRow(before, readAt, actedAt) =>
      if id !in s.store.rows then s
      else WithReview(s, rid, q, LogReview(before, s.store.rows[id], readAt, actedAt, |TrailOf(s, id).history| - 1))
    case LogReview(before, after, readAt, actedAt, reloadedAt) =>
      WithReview(s.(audits := s.audits + [ReviewAudit(id, q.actor, action, before, after, readAt, actedAt, reloadedAt)]),
        rid, q, ReviewDone(Acted(after)))
    case ReviewDone(_) => s
  }

  function AdvanceReplay(env: Env, s: State, rid: nat, q: Request): State
    requires q.Replay?
  {
    var id := q.id;
    match q.replay
    case ReadRow =>
      if id !in s.store.rows then With(s, rid, q.(replay := ReplayDone(ReplayRowMissing, false)))
      else
        var row, completed := s.store.rows[id], Completed in TrailOf(s, id).history;
        (match env.Judge(row.snapshotText, row.inputHash, row.columns.coverageScore)
         case Err(e) => With(s, rid, q.(replay := ReplayDone(Unreplayable(e), completed)))
         case Ok(passed) => With(s, rid, q.(replay := StoreVerdict(passed, completed))))
    case StoreVerdict(passed, completed) =>
      With(s.(store := ReplayRecorded(s.store, id, passed), verdicts := s.verdicts[id := completed]), rid, q.(replay := LogReplay(passed, completed)))
    case LogReplay(passed, completed) =>
      With(s.(audits := s.audits + [ReplayAudit(id, q.actor, passed)]), rid,
        q.(replay := ReplayDone(if passed then Reproduced else NotReproduced, completed)))
    case ReplayDone(_, _) => s
  }

  function Advance(env: Env, s: State, rid: nat): State {
    if rid !in s.requests then s
    else
      var q := s.requests[rid];
      match q
      case Run(_, _, _, _) => AdvanceRun(env, s, rid, q)
      case Confirm(_, _, _) => AdvanceReview(env, s, rid, q, ConfirmAction)
      case Void(_, _, _) => AdvanceReview(env, s, rid, q, VoidAction)
      case Replay(_, _, _) => AdvanceReplay(env, s, rid, q)
  }

  // How a Run goes on with what it has found; nothing else can be found there.
  function AfterLoad(env: Env, q: Request, found: Found): RunPc
    requires q.Run?
  {
    match (q.pc, found)
    case (LoadScenario, FoundScenario(scenario)) =>
      if scenario.None? then RunDone(InputMissing)
      else if scenario.value.id == q.scenarioId then LoadNode(scenario.value)
      else q.pc
    case (LoadNode(scenario), FoundNode(node)) =>
      if node.None? then RunDone(InputMissing)
      else if node.value.id == scenario.processNodeId then LoadSafeguards(scenario, node.value)
      else q.pc
    case (LoadSafeguards(scenario, node), FoundSafeguards(safeguards, now)) =>
      var snapshot := Freezing.SnapshotOf(node, scenario, safeguards, TruncateToSecond(now));
      if env.codec.encodable(snapshot) then Insert(snapshot) else RunDone(FreezeFailed)
    case _ => q.pc
  }

  function Next(env: Env, s: State, e: Event): State {
    match e
    case Arrive(rid, call) => if rid in s.requests then s else With(s, rid, Accept(call))
    case Load(rid, found) =>
      if rid in s.requests && s.requests[rid].Run? then
        With(s, rid, s.requests[rid].(pc := AfterLoad(env, s.requests[rid], found)))
      else s
    case Step(rid) => Advance(env, s, rid)
  }
}
