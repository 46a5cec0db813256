/** The safeguard service and repository in their own form, with any other requests running
    between any two repository calls. Each method is proved to be a schedule of the step
    machine. */
module SafeguardService {
  import opened Wrappers
  import opened Records
  import opened SafeguardMachine
  import opened SafeguardInvariants
  import opened SafeguardTheorems

  predicate ByOthers(events: seq<Event>, rid: nat) { forall e | e in events :: e.Create? || e.rid != rid }

  lemma StepLeavesRequest(s: State, e: Event, rid: nat)
    requires e.Create? || e.rid != rid
    requires rid in s.requests
    ensures rid in Next(s, e).requests && Next(s, e).requests[rid] == s.requests[rid]
  {
    if e.Step? && e.rid in s.requests {
      hide Advance;
      AdvanceLeavesRequest(Tick(s, e.now), e.rid, s.requests[e.rid], e.now, rid);
    }
  }

  lemma AdvanceLeavesRequest(s: State, r: nat, q: Request, now: Time, rid: nat)
    requires r != rid && rid in s.requests
    ensures rid in Advance(s, r, q, now).requests && Advance(s, r, q, now).requests[rid] == s.requests[rid]
  {
    hide AfterRead, Written, VerifiedBy, Annotated, Sources;
  }

  lemma {:induction false} OthersLeaveRequest(s: State, events: seq<Event>, rid: nat)
    requires ByOthers(events, rid) && rid in s.requests
    ensures rid in Exec(s, events).requests && Exec(s, events).requests[rid] == s.requests[rid]
  {
    if events != [] {
      hide Next;
      var n := |events| - 1;
      assert events[n] in events;
      OthersLeaveRequest(s, events[..n], rid);
      StepLeavesRequest(Exec(s, events[..n]), events[n], rid);
    }
  }

  lemma {:induction false} ExecAppend(s: State, events: seq<Event>, more: seq<Event>)
    ensures Exec(s, events + more) == Exec(Exec(s, events), more)
  {
    hide Next;
    if more == [] {
      assert events + more == events;
    } else {
      var n := |more| - 1;
      ExecAppend(s, events, more[..n]);
      assert (events + more)[..|events| + n] == events + more[..n];
    }
  }

  // The evidence columns that a lifecycle change may set besides the state.
  datatype Columns = Note(note: string) | Evidence(at: Time, verifier: nat, note: string) | NoColumns

  function SetColumns(g: Safeguard, to: Lifecycle, columns: Columns): Safeguard {
    match columns
    case NoColumns => g.(lifecycle := to)
    case Note(note) => g.(lifecycle := to, evidenceNote := note)
    case Evidence(at, verifier, note) =>
      g.(lifecycle := to, lastVerifiedAt := Some(at), lastVerificationBy := Some(verifier), evidenceNote := note)
  }

  class SafeguardRepository {
    var rows: map<nat, Safeguard>
    var nextId: nat

    constructor ()
      ensures rows == map[] && nextId == 1
    {
      rows, nextId := map[], 1;
    }

    method Create(safeguard: Safeguard) returns (id: nat)
      modifies this
      ensures id == old(nextId) && nextId == id + 1 && rows == old(rows)[id := safeguard.(id := id)]
    {
      id := nextId;
      rows := rows[id := safeguard.(id := id)];
      nextId := nextId + 1;
    }

    method GetByID(id: nat) returns (row: Option<Safeguard>)
      ensures row == if id in rows then Some(rows[id]) else None
    {
      row := if id in rows then Some(rows[id]) else None;
    }

    // Writes every editable column and never the lifecycle.
    method Update(id: nat, edited: Safeguard) returns (found: bool)
      modifies this`rows
      ensures found <==> id in old(rows)
      ensures rows == if found then old(rows)[id := Written(old(rows)[id], edited)] else old(rows)
    {
      found := id in rows;
      if found {
        rows := rows[id := rows[id].(name := edited.name, kind := edited.kind, independenceKey := edited.independenceKey,
          effectiveness := edited.effectiveness, testIntervalDays := edited.testIntervalDays, evidenceNote := edited.evidenceNote)];
      }
    }

    method SetLifecycle(id: nat, from: set<Lifecycle>, to: Lifecycle, columns: Columns) returns (changed: bool)
      modifies this`rows
      ensures changed <==> id in old(rows) && old(rows)[id].lifecycle in from
      ensures rows == if changed then old(rows)[id := SetColumns(old(rows)[id], to, columns)] else old(rows)
    {
      changed := id in rows && rows[id].lifecycle in from;
      if changed {
        var row := rows[id];
        match columns {
          case NoColumns =>
          case Note(note) => row := row.(evidenceNote := note);
          case Evidence(at, verifier, note) =>
            row := row.(lastVerifiedAt := Some(at), lastVerificationBy := Some(verifier), evidenceNote := note);
        }
        rows := rows[id := row.(lifecycle := to)];
      }
    }
  }

  datatype CreateError = UnknownScenario | EvidenceInTheFuture

  class SafeguardLifecycleService {
    const safeguards: SafeguardRepository
    // The machine state reached so far and the schedule that led to it.
    var world: State
    var schedule: seq<Event>

    ghost predicate Scheduled() reads this { world == Exec(Init, schedule) }

    ghost predicate Valid() reads this, safeguards {
      Scheduled() && safeguards.rows == world.rows && safeguards.nextId == world.nextId
    }

    ghost predicate At(rid: nat, q: Request) reads this { rid in world.requests && world.requests[rid] == q }

    constructor ()
      ensures Valid() && fresh(safeguards)
    {
      safeguards := new SafeguardRepository();
      world, schedule := Init, [];
    }

    // The step the code has just taken, in the machine's terms.
    method Record(e: Event)
      requires Scheduled()
      modifies this`world, this`schedule
      ensures Scheduled() && world == Next(old(world), e) && schedule == old(schedule) + [e]
    {
      ExecStep(Init, schedule, e);
      world := Next(world, e);
      schedule := schedule + [e];
    }

    // Any number of steps of any other requests, old or new.
    method Interleave(rid: nat)
      requires Valid() && rid in world.requests
      modifies this`world, this`schedule, safeguards
      ensures Valid() && At(rid, old(world.requests[rid])) && old(schedule) <= schedule
    {
      var events: seq<Event> := *;
      if ByOthers(events, rid) {
        OthersLeaveRequest(world, events, rid);
        ExecAppend(Init, schedule, events);
        world := Exec(world, events);
        schedule := schedule + events;
        safeguards.rows, safeguards.nextId := world.rows, world.nextId;
      }
    }

    /** A new safeguard is active exactly when it comes with evidence that has not run out;
        evidence more than five minutes ahead is refused. */
    method Create(request: NewSafeguard, scenarioExists: bool, actor: nat, now: Time) returns (result: Result<nat, CreateError>)
      requires Valid() && ValidEffectiveness(request.effectiveness) && ValidInterval(request.testIntervalDays)
      modifies this`world, this`schedule, safeguards
      ensures Valid() && old(schedule) <= schedule
      ensures result == Err(UnknownScenario) <==> !scenarioExists
      ensures result.Ok? <==> scenarioExists && (request.lastVerifiedAt.Some? ==> request.lastVerifiedAt.value <= now + 300_000_000_000)
      ensures result.Err? ==> safeguards.rows == old(safeguards.rows)
      ensures result.Ok? ==>
        && result.value == old(safeguards.nextId)
        && result.value in safeguards.rows
        && safeguards.rows == old(safeguards.rows)[result.value := safeguards.rows[result.value]]
        && (var g := safeguards.rows[result.value];
            && g.id == result.value && g.name == request.name && g.kind == request.kind && g.targetScenarioId == request.targetScenarioId
            && g.independenceKey == request.independenceKey && g.effectiveness == request.effectiveness
            && g.testIntervalDays == request.testIntervalDays && g.lastVerifiedAt == request.lastVerifiedAt
            && g.evidenceNote == request.evidenceNote
            && g.lastVerificationBy == (if request.lastVerifiedAt.Some? then Some(actor) else None))
        && (safeguards.rows[result.value].lifecycle == Active <==> safeguards.rows[result.value].IsEffectiveAt(now))
        && (safeguards.rows[result.value].lifecycle == Pending <==> request.lastVerifiedAt.None?)
        && safeguards.rows[result.value].lifecycle != Invalid
    {
      if !scenarioExists { return Err(UnknownScenario); }
      if request.lastVerifiedAt.Some? && InTheFuture(request.lastVerifiedAt.value, now) { return Err(EvidenceInTheFuture); }
      var state := Pending;
      var verifier := None;
      if request.lastVerifiedAt.Some? {
        state := if now > AddDays(request.lastVerifiedAt.value, request.testIntervalDays) then Expired else Active;
        verifier := Some(actor);
      }
      var id := safeguards.Create(Safeguard(0, request.name, request.kind, request.targetScenarioId, request.independenceKey,
        request.effectiveness, request.testIntervalDays, request.lastVerifiedAt, state, request.evidenceNote, verifier));
      Record(Event.Create(request, actor, now));
      return Ok(id);
    }

    // The read at the start of Update, Verify and Restore.
    method Load(rid: nat, q: Request, now: Time) returns (safeguard: Option<Safeguard>)
      requires Valid() && At(rid, q) && q.pc.Read?
      modifies this`world, this`schedule, safeguards
      ensures Valid() && old(schedule) <= schedule
      ensures At(rid, q.Now(if safeguard.None? then Done(NotFound) else AfterRead(q, safeguard.value, now)))
    {
      hide AfterRead;
      Interleave(rid);
      safeguard := safeguards.GetByID(q.id);
      Record(Step(rid, now));
    }

    method StoreEdit(rid: nat, q: Request, safeguard: Safeguard, now: Time) returns (found: bool)
      requires Valid() && At(rid, q) && q.pc.Write?
      requires Written(safeguard, q.pc.edited) == safeguard
      modifies this`world, this`schedule, safeguards
      ensures Valid() && old(schedule) <= schedule
      ensures At(rid, q.Now(if !found then Done(NotFound) else if q.pc.expire then Expire else Done(Updated)))
    {
      Interleave(rid);
      found := safeguards.Update(q.id, safeguard);
      Record(Step(rid, now));
    }

    // Synchronises the lifecycle; a lost race is ignored.
    method StoreExpiry(rid: nat, q: Request, now: Time)
      requires Valid() && At(rid, q) && q.pc.Expire?
      modifies this`world, this`schedule, safeguards
      ensures Valid() && old(schedule) <= schedule && At(rid, q.Now(Done(Updated)))
    {
      Interleave(rid);
      var _ := safeguards.SetLifecycle(q.id, {Active}, Expired, NoColumns);
      Record(Step(rid, now));
    }

    method StoreVerification(rid: nat, q: Request, now: Time) returns (changed: bool)
      requires Valid() && At(rid, q) && q.Verify? && q.pc.SetVerified?
      modifies this`world, this`schedule, safeguards
      ensures Valid() && old(schedule) <= schedule
      ensures At(rid, q.Now(Done(if changed then Renewed else Refused)))
      ensures changed ==> HasEvidence(world, q.id)
    {
      Interleave(rid);
      changed := safeguards.SetLifecycle(q.id, {Pending, Active, Expired, Invalid}, Active, Evidence(q.verifiedAt, q.actor, q.note));
      Record(Step(rid, now));
    }

    method StoreChange(rid: nat, q: Request, from: set<Lifecycle>, now: Time) returns (changed: bool)
      requires Valid() && At(rid, q) && q.pc.SetState? && from == Sources(q.pc.to)
      modifies this`world, this`schedule, safeguards
      ensures Valid() && old(schedule) <= schedule
      ensures At(rid, q.Now(Done(if changed then Changed else Refused)))
    {
      Interleave(rid);
      changed := safeguards.SetLifecycle(q.id, from, q.pc.to, Note(q.pc.note));
      Record(Step(rid, now));
    }

    method ChangeLifecycle(rid: nat, q: Request, from: set<Lifecycle>, action: string, reason: string, now: Time) returns (outcome: Outcome)
      requires Valid() && At(rid, q) && (q.Invalidate? || q.Restore?) && q.pc.ReadBefore?
      requires from == Sources(q.pc.target) && reason == q.reason
      requires action == if q.pc.target == Invalid then "invalidate" else "restore"
      modifies this`world, this`schedule, safeguards
      ensures Valid() && old(schedule) <= schedule
      ensures At(rid, q.Now(Done(outcome))) && outcome in {NotFound, Changed, Refused}
    {
      Interleave(rid);
      var before := safeguards.GetByID(q.id);
      Record(Step(rid, now));
      if before.None? { return NotFound; }
      var evidence := before.value.evidenceNote + "\n[" + action + "] " + reason;
      var changed := StoreChange(rid, q.Now(SetState(q.pc.target, evidence)), from, now);
      return if changed then Changed else Refused;
    }

    method Overlay(before: Safeguard, patch: Patch) returns (safeguard: Safeguard)
      ensures safeguard == Patched(before, patch)
    {
      safeguard := before;
      if patch.name.Some? { safeguard := safeguard.(name := patch.name.value); }
      if patch.kind.Some? { safeguard := safeguard.(kind := patch.kind.value); }
      if patch.independenceKey.Some? { safeguard := safeguard.(independenceKey := patch.independenceKey.value); }
      if patch.effectiveness.Some? { safeguard := safeguard.(effectiveness := patch.effectiveness.value); }
      if patch.testIntervalDays.Some? { safeguard := safeguard.(testIntervalDays := patch.testIntervalDays.value); }
      if patch.evidenceNote.Some? { safeguard := safeguard.(evidenceNote := patch.evidenceNote.value); }
    }

    /** Update, with any other requests running in between. */
    method Update(rid: nat, id: nat, patch: Patch, now: Time) returns (outcome: Outcome)
      requires Valid() && rid !in world.requests && Bound(patch)
      modifies this`world, this`schedule, safeguards
      ensures Valid() && old(schedule) <= schedule && Inv(world)
      ensures At(rid, Request.Update(id, patch, Done(outcome))) && outcome in {Updated, NotFound}
    {
      var q := Request.Update(id, patch, Read);
      Record(Arrive(rid, q));
      Reachable(schedule);
      hide Inv;
      var loaded := Load(rid, q, now);
      if loaded.None? { Reachable(schedule); return NotFound; }
      var before := loaded.value;
      var safeguard := Overlay(before, patch);
      var edited := safeguard;
      hide Patched;
      if safeguard.lastVerifiedAt.Some? {
        var expires := AddDays(safeguard.lastVerifiedAt.value, safeguard.testIntervalDays);
        if now > expires && safeguard.lifecycle == Active { safeguard := safeguard.(lifecycle := Expired); }
      }
      hide Valid;
      var found := StoreEdit(rid, q.Now(Write(edited, RunsOut(edited, now))), safeguard, now);
      if !found { outcome := NotFound; }
      else if safeguard.lifecycle != before.lifecycle {
        StoreExpiry(rid, q.Now(Expire), now);
        outcome := Updated;
      } else { outcome := Updated; }
      assert Scheduled();
      Reachable(schedule);
    }

    /** Verify, likewise: the branch for a concurrent state change is never taken, and
        success leaves evidence within the limits it was checked against. */
    method Verify(rid: nat, id: nat, verifiedAt: Time, note: string, actor: nat, now: Time) returns (outcome: Outcome)
      requires Valid() && rid !in world.requests
      modifies this`world, this`schedule, safeguards
      ensures Valid() && old(schedule) <= schedule && Inv(world)
      ensures At(rid, Request.Verify(id, verifiedAt, note, actor, Done(outcome)))
      ensures outcome in {Renewed, NotFound, FutureEvidence, AlreadyExpired}
      ensures outcome == FutureEvidence ==> verifiedAt > now + 5 * MINUTE
      ensures outcome == Renewed ==> verifiedAt <= now + 5 * MINUTE && HasEvidence(world, id)
    {
      outcome := VerifyBody(rid, id, verifiedAt, note, actor, now);
      Reachable(schedule);
      assert RequestOk(world, world.requests[rid]);
    }

    method VerifyBody(rid: nat, id: nat, verifiedAt: Time, note: string, actor: nat, now: Time) returns (outcome: Outcome)
      requires Valid() && rid !in world.requests
      modifies this`world, this`schedule, safeguards
      ensures Valid() && old(schedule) <= schedule
      ensures At(rid, Request.Verify(id, verifiedAt, note, actor, Done(outcome)))
      ensures outcome in {Renewed, NotFound, FutureEvidence, AlreadyExpired, Refused}
      ensures outcome == FutureEvidence ==> verifiedAt > now + 5 * MINUTE
      ensures outcome == Renewed ==> verifiedAt <= now + 5 * MINUTE && HasEvidence(world, id)
    {
      var q := Request.Verify(id, verifiedAt, note, actor, Read);
      Record(Arrive(rid, q));
      var loaded := Load(rid, q, now);
      if loaded.None? { return NotFound; }
      if verifiedAt > now + 5 * MINUTE { return FutureEvidence; }
      if now > AddDays(verifiedAt, loaded.value.testIntervalDays) { return AlreadyExpired; }
      var changed := StoreVerification(rid, q.Now(SetVerified), now);
      return if changed then Renewed else Refused;
    }

    method Invalidate(rid: nat, id: nat, reason: string, now: Time) returns (outcome: Outcome)
      requires Valid() && rid !in world.requests
      modifies this`world, this`schedule, safeguards
      ensures Valid() && old(schedule) <= schedule && Inv(world)
      ensures At(rid, Request.Invalidate(id, reason, Done(outcome))) && outcome in {NotFound, Changed, Refused}
    {
      var q := Request.Invalidate(id, reason, ReadBefore(Invalid));
      Record(Arrive(rid, q));
      outcome := ChangeLifecycle(rid, q, {Pending, Active, Expired}, "invalidate", reason, now);
      Reachable(schedule);
    }

    method Restore(rid: nat, id: nat, reason: string, now: Time) returns (outcome: Outcome)
      requires Valid() && rid !in world.requests
      modifies this`world, this`schedule, safeguards
      ensures Valid() && old(schedule) <= schedule && Inv(world)
      ensures At(rid, Request.Restore(id, reason, Done(outcome))) && outcome in {NotFound, Changed, Refused}
    {
      var q := Request.Restore(id, reason, Read);
      Record(Arrive(rid, q));
      var loaded := Load(rid, q, now);
      if loaded.None? { Reachable(schedule); return NotFound; }
      var target := Pending;
      if loaded.value.IsEffectiveAt(now) { target := Active; }
      outcome := ChangeLifecycle(rid, q.Now(ReadBefore(target)), {Invalid}, "restore", reason, now);
      Reachable(schedule);
    }
  }
}
