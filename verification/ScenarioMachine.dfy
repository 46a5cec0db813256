/** Deviation scenarios: optimistic versioning and reviewer separation, as a step machine.
    A request reads a row, checks it, and writes with one compare-and-set on version and state. */
module ScenarioMachine {
  import opened Wrappers
  import opened Records

  // ----- the transition table

  function Successors(s: ScenarioState): set<ScenarioState> {
    match s
    case Draft => {Analyzed}
    case Analyzed => {Verified, Rework}
    case Verified => {Accepted, Rework}
    case Accepted => {}
    case Rework => {Analyzed}
  }

  predicate CanTransition(from: ScenarioState, to: ScenarioState) { to in Successors(from) }

  // ----- rows and requests

  datatype Role = Admin | ProcessEngineer | SafetyReviewer | Auditor

  datatype Actor = Actor(id: nat, role: Role)

  datatype Content = Content(
    guideword: string, parameter: string, cause: string, consequence: string, likelihood: int, severity: int)

  datatype Row = Row(
    processNodeId: nat, content: Content, state: ScenarioState, version: int,
    createdBy: nat, reviewedBy: Option<nat>)
  {
    predicate ReviewerSeparated(user: nat) { createdBy != user }
  }

  // A partial update: absent fields keep what the service has read.
  datatype Patch = Patch(
    guideword: Option<string>, parameter: Option<string>, cause: Option<string>, consequence: Option<string>,
    likelihood: Option<int>, severity: Option<int>)

  function Overlay(c: Content, p: Patch): Content {
    Content(Or(p.guideword, c.guideword), Or(p.parameter, c.parameter), Or(p.cause, c.cause),
      Or(p.consequence, c.consequence), Or(p.likelihood, c.likelihood), Or(p.severity, c.severity))
  }

  predicate ValidGuideword(g: string) { g in {"no", "more", "less", "reverse", "other"} }

  predicate Editable(s: ScenarioState) { s == Draft || s == Rework }

  predicate IsReview(to: ScenarioState) { to == Verified || to == Accepted }

  predicate RoleAllows(role: Role, to: ScenarioState) {
    && (to == Analyzed ==> role == Admin || role == ProcessEngineer)
    && (to == Verified || to == Accepted || to == Rework ==> role == Admin || role == SafetyReviewer)
  }

  // What Update writes over a row, and what it reports as its result.
  function Edited(row: Row, base: Row, patch: Patch, version: int): Row {
    row.(content := Overlay(base.content, patch), version := version + 1)
  }

  function Moved(row: Row, to: ScenarioState, version: int, actor: nat): Row {
    row.(state := to, version := version + 1, reviewedBy := if IsReview(to) then Some(actor) else row.reviewedBy)
  }

  datatype Outcome =
    | Committed
    | NotFound
    | NotEditable
    | BadGuideword
    | Forbidden
    | IllegalTransition
    | ReviewerConflict
    | Lost

  datatype Pc = Read | Write(base: Row) | Log(base: Row) | Done(outcome: Outcome)

  datatype Request =
    | Update(id: nat, patch: Patch, version: int, actor: Actor, pc: Pc)
    | Transition(id: nat, to: ScenarioState, version: int, actor: Actor, pc: Pc)
  {
    function Now(next: Pc): Request { this.(pc := next) }
  }

  // History variables: every row committed under an id, with who committed it and how.
  datatype Deed = Created | Edit(patch: Patch, base: Row) | Move(to: ScenarioState)

  datatype Commit = Commit(row: Row, rid: nat, actor: Actor, deed: Deed)

  type History = h: seq<Commit> | h != [] witness [Commit(Row(0, Content("", "", "", "", 0, 0), Draft, 1, 0, None), 0, Actor(0, Admin), Created)]

  function Last(h: History): Commit { h[|h| - 1] }

  datatype Audit = Audit(rid: nat, id: nat, version: int, before: Row, after: Row)

  datatype State = State(rows: map<nat, Row>, history: map<nat, History>, requests: map<nat, Request>, audits: seq<Audit>, nextId: nat)

  const Init := State(map[], map[], map[], [], 1)

  // ----- repository steps

  predicate UpdateMatches(s: State, id: nat, version: int) {
    id in s.rows && s.rows[id].version == version && Editable(s.rows[id].state)
  }

  predicate TransitionMatches(s: State, id: nat, from: ScenarioState, version: int) {
    id in s.rows && s.rows[id].state == from && s.rows[id].version == version
  }

  function Put(s: State, id: nat, c: Commit): State {
    s.(rows := s.rows[id := c.row],
       history := s.history[id := if id in s.history then s.history[id] + [c] else [c]])
  }

  // ----- service steps

  function UpdateCheck(base: Row, patch: Patch): Option<Outcome> {
    if !Editable(base.state) then Some(NotEditable)
    else if patch.guideword.Some? && !ValidGuideword(patch.guideword.value) then Some(BadGuideword)
    else None
  }

  function TransitionCheck(base: Row, to: ScenarioState, actor: Actor): Option<Outcome> {
    if !RoleAllows(actor.role, to) then Some(Forbidden)
    else if !CanTransition(base.state, to) then Some(IllegalTransition)
    else if IsReview(to) && !base.ReviewerSeparated(actor.id) then Some(ReviewerConflict)
    else None
  }

  function Check(q: Request, base: Row): Option<Outcome> {
    match q
    case Update(_, patch, _, _, _) => UpdateCheck(base, patch)
    case Transition(_, to, _, actor, _) => TransitionCheck(base, to, actor)
  }

  // The compare-and-set of the request, given the row it has read.
  predicate Wins(s: State, q: Request, base: Row) {
    match q
    case Update(id, _, version, _, _) => UpdateMatches(s, id, version)
    case Transition(id, _, version, _, _) => TransitionMatches(s, id, base.state, version)
  }

  // What the request makes of a row: applied to the stored row it is the write, applied to
  // the row it has read it is what it logs.
  function Applied(q: Request, row: Row, base: Row): Row {
    match q
    case Update(_, patch, version, _, _) => Edited(row, base, patch, version)
    case Transition(_, to, version, actor, _) => Moved(row, to, version, actor.id)
  }

  function DeedOf(q: Request, base: Row): Deed {
    match q
    case Update(_, patch, _, _, _) => Edit(patch, base)
    case Transition(_, to, _, _, _) => Move(to)
  }

  function With(s: State, rid: nat, q: Request): State { s.(requests := s.requests[rid := q]) }

  function Advance(s: State, rid: nat, q: Request): State {
    match q.pc
    case Read =>
      if q.id !in s.rows then With(s, rid, q.(pc := Done(NotFound)))
      else
        var base := s.rows[q.id];
        var refusal := Check(q, base);
        With(s, rid, q.(pc := if refusal.Some? then Done(refusal.value) else Write(base)))
    case Write(base) =>
      if Wins(s, q, base) then
        With(Put(s, q.id, Commit(Applied(q, s.rows[q.id], base), rid, q.actor, DeedOf(q, base))), rid, q.(pc := Log(base)))
      else With(s, rid, q.(pc := Done(Lost)))
    case Log(base) =>
      With(s.(audits := s.audits + [Audit(rid, q.id, q.version, base, Applied(q, base, base))]), rid, q.(pc := Done(Committed)))
    case Done(_) => s
  }

  datatype Event =
    | Create(rid: nat, processNodeId: nat, nodeActive: bool, content: Content, actor: Actor)
    | Arrive(rid: nat, request: Request)
    | Step(rid: nat)

  function NewScenario(processNodeId: nat, content: Content, author: nat): Row {
    Row(processNodeId, content, Draft, 1, author, None)
  }

  function Next(s: State, e: Event): State {
    match e
    case Create(rid, node, nodeActive, content, actor) =>
      if !ValidGuideword(content.guideword) || !nodeActive then s
      else
        Put(s, s.nextId, Commit(NewScenario(node, content, actor.id), rid, actor, Created)).(nextId := s.nextId + 1)
    case Arrive(rid, request) => if rid in s.requests || request.pc != Read then s else With(s, rid, request)
    case Step(rid) => if rid in s.requests then Advance(s, rid, s.requests[rid]) else s
  }

  function Exec(s: State, events: seq<Event>): State {
    if events == [] then s else Next(Exec(s, events[..|events| - 1]), events[|events| - 1])
  }
}
