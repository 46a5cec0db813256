/** The safeguard lifecycle as a step machine. Each request reads a row and later writes it
    with separate calls that nothing ties together; there is no version column. Every step
    that reads the clock carries the time it has read, in no particular order. */
module SafeguardMachine {
  import opened Wrappers
  import opened Records

  datatype NewSafeguard = NewSafeguard(
    name: string, kind: string, targetScenarioId: nat, independenceKey: string,
    effectiveness: real, testIntervalDays: int, lastVerifiedAt: Option<Time>, evidenceNote: string)

  // A partial update: absent fields keep what the service has read.
  datatype Patch = Patch(
    name: Option<string>, kind: Option<string>, independenceKey: Option<string>,
    effectiveness: Option<real>, testIntervalDays: Option<int>, evidenceNote: Option<string>)

  // The binding rules that every request has passed before the service sees it.
  predicate ValidEffectiveness(e: real) { 0.0 < e <= 1.0 }

  predicate ValidInterval(days: int) { 1 <= days <= 3650 }

  predicate Bound(patch: Patch) {
    && (patch.effectiveness.Some? ==> ValidEffectiveness(patch.effectiveness.value))
    && (patch.testIntervalDays.Some? ==> ValidInterval(patch.testIntervalDays.value))
  }

  predicate InTheFuture(t: Time, now: Time) { t > now + 5 * MINUTE }

  // ----- what the service makes of a row

  function Born(r: NewSafeguard, id: nat, actor: nat, now: Time): Safeguard {
    var state :=
      if r.lastVerifiedAt.None? then Pending
      else if now > AddDays(r.lastVerifiedAt.value, r.testIntervalDays) then Expired
      else Active;
    Safeguard(id, r.name, r.kind, r.targetScenarioId, r.independenceKey, r.effectiveness, r.testIntervalDays,
      r.lastVerifiedAt, state, r.evidenceNote, if r.lastVerifiedAt.Some? then Some(actor) else None)
  }

  // Over a row, the fields that an update sets.
  function Patched(g: Safeguard, p: Patch): Safeguard {
    g.(name := Or(p.name, g.name), kind := Or(p.kind, g.kind), independenceKey := Or(p.independenceKey, g.independenceKey),
       effectiveness := Or(p.effectiveness, g.effectiveness), testIntervalDays := Or(p.testIntervalDays, g.testIntervalDays),
       evidenceNote := Or(p.evidenceNote, g.evidenceNote))
  }

  predicate RunsOut(g: Safeguard, now: Time) {
    g.lastVerifiedAt.Some? && g.lifecycle == Active && now > AddDays(g.lastVerifiedAt.value, g.testIntervalDays)
  }

  // The repository's Update: every editable column, never the lifecycle or its evidence.
  function Written(row: Safeguard, edited: Safeguard): Safeguard {
    row.(name := edited.name, kind := edited.kind, independenceKey := edited.independenceKey,
         effectiveness := edited.effectiveness, testIntervalDays := edited.testIntervalDays,
         evidenceNote := edited.evidenceNote)
  }

  function VerifiedRow(row: Safeguard, at: Time, actor: nat, note: string): Safeguard {
    row.(lifecycle := Active, lastVerifiedAt := Some(at), lastVerificationBy := Some(actor), evidenceNote := note)
  }

  function Annotated(note: string, to: Lifecycle, reason: string): string {
    note + "\n[" + (if to == Invalid then "invalidate" else "restore") + "] " + reason
  }

  const EveryState: set<Lifecycle> := {Pending, Active, Expired, Invalid}

  // The states from which Invalidate and Restore may move.
  function Sources(to: Lifecycle): set<Lifecycle> { if to == Invalid then {Pending, Active, Expired} else {Invalid} }

  // ----- requests

  datatype Outcome = Updated | Renewed | Changed | NotFound | FutureEvidence | AlreadyExpired | Refused

  datatype Pc =
    | Read
    | Write(edited: Safeguard, expire: bool)
    | Expire
    | SetVerified
    | ReadBefore(target: Lifecycle)
    | SetState(to: Lifecycle, note: string)
    | Done(outcome: Outcome)

  datatype Request =
    | Update(id: nat, patch: Patch, pc: Pc)
    | Verify(id: nat, verifiedAt: Time, note: string, actor: nat, pc: Pc)
    | Invalidate(id: nat, reason: string, pc: Pc)
    | Restore(id: nat, reason: string, pc: Pc)
  {
    function Now(next: Pc): Request { this.(pc := next) }
  }

  predicate Fresh(q: Request) {
    match q
    case Update(_, patch, pc) => pc == Read && Bound(patch)
    case Verify(_, _, _, _, pc) => pc == Read
    case Invalidate(_, _, pc) => pc == ReadBefore(Invalid)
    case Restore(_, _, pc) => pc == Read
  }

  // latest is a history variable: the latest clock reading so far.
  datatype State = State(rows: map<nat, Safeguard>, requests: map<nat, Request>, nextId: nat, latest: Time)

  const Init := State(map[], map[], 1, ZERO_TIME)

  function With(s: State, rid: nat, q: Request): State { s.(requests := s.requests[rid := q]) }

  function Put(s: State, id: nat, g: Safeguard): State { s.(rows := s.rows[id := g]) }

  function Tick(s: State, now: Time): State { if now > s.latest then s.(latest := now) else s }

  // ----- steps

  predicate StateIn(s: State, id: nat, from: set<Lifecycle>) { id in s.rows && s.rows[id].lifecycle in from }

  // What the read at time now makes of a request, given the row it has found.
  function AfterRead(q: Request, g: Safeguard, now: Time): Pc {
    match q
    case Update(_, patch, _) => Write(Patched(g, patch), RunsOut(Patched(g, patch), now))
    case Verify(_, verifiedAt, _, _, _) =>
      if InTheFuture(verifiedAt, now) then Done(FutureEvidence)
      else if now > AddDays(verifiedAt, g.testIntervalDays) then Done(AlreadyExpired)
      else SetVerified
    case Restore(_, _, _) => ReadBefore(if g.IsEffectiveAt(now) then Active else Pending)
    case Invalidate(_, _, _) => ReadBefore(Invalid)
  }

  function Reason(q: Request): string {
    match q
    case Invalidate(_, reason, _) => reason
    case Restore(_, reason, _) => reason
    case Update(_, _, _) => ""
    case Verify(_, _, _, _, _) => ""
  }

  function VerifiedBy(q: Request, row: Safeguard): Safeguard {
    match q
    case Verify(_, verifiedAt, note, actor, _) => VerifiedRow(row, verifiedAt, actor, note)
    case Update(_, _, _) => row
    case Invalidate(_, _, _) => row
    case Restore(_, _, _) => row
  }

  function Advance(s: State, rid: nat, q: Request, now: Time): State {
    var id := q.id;
    match q.pc
    case Read =>
      if id !in s.rows then With(s, rid, q.Now(Done(NotFound)))
      else With(s, rid, q.Now(AfterRead(q, s.rows[id], now)))
    case Write(edited, expire) =>
      if id !in s.rows then With(s, rid, q.Now(Done(NotFound)))
      else With(Put(s, id, Written(s.rows[id], edited)), rid, q.Now(if expire then Expire else Done(Updated)))
    case Expire =>
      var t := if StateIn(s, id, {Active}) then Put(s, id, s.rows[id].(lifecycle := Expired)) else s;
      With(t, rid, q.Now(Done(Updated)))
    case SetVerified =>
      if StateIn(s, id, EveryState) then With(Put(s, id, VerifiedBy(q, s.rows[id])), rid, q.Now(Done(Renewed)))
      else With(s, rid, q.Now(Done(Refused)))
    case ReadBefore(target) =>
      if id !in s.rows then With(s, rid, q.Now(Done(NotFound)))
      else With(s, rid, q.Now(SetState(target, Annotated(s.rows[id].evidenceNote, target, Reason(q)))))
    case SetState(to, note) =>
      if StateIn(s, id, Sources(to)) then
        With(Put(s, id, s.rows[id].(lifecycle := to, evidenceNote := note)), rid, q.Now(Done(Changed)))
      else With(s, rid, q.Now(Done(Refused)))
    case Done(_) => s
  }

  datatype Event =
    | Create(safeguard: NewSafeguard, actor: nat, now: Time)
    | Arrive(rid: nat, request: Request)
    | Step(rid: nat, now: Time)

  predicate Admissible(r: NewSafeguard, now: Time) {
    && ValidEffectiveness(r.effectiveness) && ValidInterval(r.testIntervalDays)
    && (r.lastVerifiedAt.Some? ==> !InTheFuture(r.lastVerifiedAt.value, now))
  }

  function Next(s: State, e: Event): State {
    match e
    case Create(r, actor, now) =>
      if !Admissible(r, now) then Tick(s, now)
      else Put(Tick(s, now), s.nextId, Born(r, s.nextId, actor, now)).(nextId := s.nextId + 1)
    case Arrive(rid, request) => if rid in s.requests || !Fresh(request) then s else With(s, rid, request)
    case Step(rid, now) =>
      if rid !in s.requests then s else Advance(Tick(s, now), rid, s.requests[rid], now)
  }

  function Exec(s: State, events: seq<Event>): State {
    if events == [] then s else Next(Exec(s, events[..|events| - 1]), events[|events| - 1])
  }
}
