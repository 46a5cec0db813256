/** The scenario service and repository in their own form: a plain read, the checks, and one
    compare-and-set, with any other requests running in between. Each method is proved to be
    a schedule of the step machine. */
module ScenarioService {
  import opened Wrappers
  import opened Records
  import opened ScenarioMachine
  import opened ScenarioInvariants
  import opened ScenarioTheorems

  predicate ByOthers(events: seq<Event>, rid: nat) { forall e | e in events :: e.rid != rid }

  lemma StepLeavesRequest(s: State, e: Event, rid: nat)
    requires e.rid != rid && rid in s.requests
    ensures rid in Next(s, e).requests && Next(s, e).requests[rid] == s.requests[rid]
  {
    hide Wins, Applied, Check;
  }

  lemma {:induction false} OthersLeaveRequest(s: State, events: seq<Event>, rid: nat)
    requires ByOthers(events, rid) && rid in s.requests
    ensures rid in Exec(s, events).requests && Exec(s, events).requests[rid] == s.requests[rid]
  {
    if events != [] {
      hide Next;
      var n := |events| - 1;
      assert events[n] in events;
      OthersLeaveRequest(s, events[..n], rid);
      StepLeavesRequest(Exec(s, events[..n]), events[n], rid);
    }
  }

  lemma {:induction false} ExecAppend(s: State, events: seq<Event>, more: seq<Event>)
    ensures Exec(s, events + more) == Exec(Exec(s, events), more)
  {
    hide Next;
    if more == [] {
      assert events + more == events;
    } else {
      var n := |more| - 1;
      ExecAppend(s, events, more[..n]);
      assert (events + more)[..|events| + n] == events + more[..n];
    }
  }

  class DeviationScenarioRepository {
    var rows: map<nat, Row>
    var nextId: nat

    constructor ()
      ensures rows == map[] && nextId == 1
    {
      rows, nextId := map[], 1;
    }

    method Create(scenario: Row) returns (id: nat)
      modifies this
      ensures id == old(nextId) && nextId == id + 1 && rows == old(rows)[id := scenario]
    {
      id := nextId;
      rows := rows[id := scenario];
      nextId := nextId + 1;
    }

    method GetByID(id: nat) returns (row: Option<Row>)
      ensures row == if id in rows then Some(rows[id]) else None
    {
      row := if id in rows then Some(rows[id]) else None;
    }

    method UpdateWithVersion(id: nat, scenario: Row, expectedVersion: int) returns (changed: bool)
      modifies this`rows
      ensures changed <==>
        id in old(rows) && old(rows)[id].version == expectedVersion && Editable(old(rows)[id].state)
      ensures changed ==>
        rows == old(rows)[id := old(rows)[id].(content := scenario.content, version := expectedVersion + 1)]
      ensures !changed ==> rows == old(rows)
    {
      changed := id in rows && rows[id].version == expectedVersion && rows[id].state in {Draft, Rework};
      if changed {
        rows := rows[id := rows[id].(content := scenario.content, version := expectedVersion + 1)];
      }
    }

    method Transition(id: nat, from: ScenarioState, to: ScenarioState, expectedVersion: int, reviewer: Option<nat>)
      returns (changed: bool)
      modifies this`rows
      ensures changed <==> id in old(rows) && old(rows)[id].state == from && old(rows)[id].version == expectedVersion
      ensures changed ==>
        rows == old(rows)[id := old(rows)[id].(state := to, version := expectedVersion + 1,
          reviewedBy := if reviewer.Some? then reviewer else old(rows)[id].reviewedBy)]
      ensures !changed ==> rows == old(rows)
    {
      changed := id in rows && rows[id].state == from && rows[id].version == expectedVersion;
      if changed {
        var row := rows[id].(state := to, version := expectedVersion + 1);
        if reviewer.Some? { row := row.(reviewedBy := reviewer); }
        rows := rows[id := row];
      }
    }
  }

  datatype CreateError = UnsupportedGuideword | UnknownNode | InactiveNode

  class DeviationScenarioService {
    const scenarios: DeviationScenarioRepository
    // The machine state reached so far and the schedule that led to it.
    var world: State
    var schedule: seq<Event>

    ghost predicate Scheduled() reads this { world == Exec(Init, schedule) }

    ghost predicate Valid() reads this, scenarios {
      Scheduled() && scenarios.rows == world.rows && scenarios.nextId == world.nextId
    }

    ghost predicate At(rid: nat, q: Request) reads this { rid in world.requests && world.requests[rid] == q }

    constructor ()
      ensures Valid() && fresh(scenarios)
    {
      scenarios := new DeviationScenarioRepository();
      world, schedule := Init, [];
    }

    // The step the code has just taken, in the machine's terms.
    method Record(e: Event)
      requires Scheduled()
      modifies this`world, this`schedule
      ensures Scheduled() && world == Next(old(world), e) && schedule == old(schedule) + [e]
    {
      ExecOne(Init, schedule, e);
      world := Next(world, e);
      schedule := schedule + [e];
    }

    // Any number of steps of any other requests, old or new.
    method Interleave(rid: nat)
      requires Valid() && rid in world.requests
      modifies this`world, this`schedule, scenarios
      ensures Valid() && At(rid, old(world.requests[rid])) && old(schedule) <= schedule
    {
      var events: seq<Event> := *;
      if ByOthers(events, rid) {
        OthersLeaveRequest(world, events, rid);
        ExecAppend(Init, schedule, events);
        world := Exec(world, events);
        schedule := schedule + events;
        scenarios.rows, scenarios.nextId := world.rows, world.nextId;
      }
    }

    /** A scenario starts as version 1 of a draft by its author, under a new id. */
    method Create(rid: nat, processNodeId: nat, nodeActive: Option<bool>, content: Content, actor: Actor)
      returns (result: Result<nat, CreateError>)
      requires Valid()
      modifies this`world, this`schedule, scenarios
      ensures Valid() && old(schedule) <= schedule
      ensures result.Ok? <==> content.guideword in {"no", "more", "less", "reverse", "other"} && nodeActive == Some(true)
      ensures result.Ok? ==>
        && result.value == old(scenarios.nextId)
        && scenarios.rows == old(scenarios.rows)[result.value := ScenarioMachine.Row(processNodeId, content, Draft, 1, actor.id, None)]
      ensures result.Err? ==> scenarios.rows == old(scenarios.rows) && schedule == old(schedule)
      ensures result == Err(UnsupportedGuideword) <==> content.guideword !in {"no", "more", "less", "reverse", "other"}
      ensures result == Err(UnknownNode) ==> nodeActive.None?
    {
      if !ValidGuideword(content.guideword) { return Err(UnsupportedGuideword); }
      if nodeActive.None? { return Err(UnknownNode); }
      if !nodeActive.value { return Err(InactiveNode); }
      var id := scenarios.Create(ScenarioMachine.Row(processNodeId, content, Draft, 1, actor.id, None));
      Record(Event.Create(rid, processNodeId, true, content, actor));
      return Ok(id);
    }

    // The read at the start of every request.
    method Load(rid: nat, q: Request) returns (scenario: Option<Row>)
      requires Valid() && At(rid, q) && q.pc.Read?
      modifies this`world, this`schedule, scenarios
      ensures Valid() && old(schedule) <= schedule
      ensures scenario.None? ==> rid in world.requests && world.requests[rid].pc == Done(NotFound)
      ensures rid in world.requests && world.requests[rid] == (
        if scenario.None? then q.Now(Done(NotFound))
        else if Check(q, scenario.value).Some? then q.Now(Done(Check(q, scenario.value).value))
        else q.Now(Write(scenario.value)))
    {
      hide Check;
      Interleave(rid);
      scenario := scenarios.GetByID(q.id);
      Record(Step(rid));
    }

    method RecordAudit(rid: nat, q: Request)
      requires Valid() && At(rid, q) && q.pc.Log?
      modifies this`world, this`schedule, scenarios
      ensures Valid() && At(rid, q.Now(Done(Committed))) && old(schedule) <= schedule
    {
      Interleave(rid);
      Record(Step(rid));
    }

    method StoreUpdate(rid: nat, q: Request, scenario: Row) returns (changed: bool)
      requires Valid() && At(rid, q) && q.Update? && q.pc.Write?
      requires scenario.content == Overlay(q.pc.base.content, q.patch)
      modifies this`world, this`schedule, scenarios
      ensures Valid() && old(schedule) <= schedule
      ensures At(rid, q.Now(if changed then Log(q.pc.base) else Done(Lost)))
    {
      Interleave(rid);
      changed := scenarios.UpdateWithVersion(q.id, scenario, q.version);
      Record(Step(rid));
    }

    method StoreTransition(rid: nat, q: Request, reviewer: Option<nat>) returns (changed: bool)
      requires Valid() && At(rid, q) && q.Transition? && q.pc.Write?
      requires reviewer == if IsReview(q.to) then Some(q.actor.id) else None
      modifies this`world, this`schedule, scenarios
      ensures Valid() && old(schedule) <= schedule
      ensures At(rid, q.Now(if changed then Log(q.pc.base) else Done(Lost)))
    {
      Interleave(rid);
      changed := scenarios.Transition(q.id, q.pc.base.state, q.to, q.version, reviewer);
      Record(Step(rid));
    }

    method UpdateBody(rid: nat, id: nat, patch: Patch, version: int, actor: Actor) returns (outcome: Outcome)
      requires Valid() && rid !in world.requests
      modifies this`world, this`schedule, scenarios
      ensures Valid() && old(schedule) <= schedule
      ensures At(rid, Request.Update(id, patch, version, actor, Done(outcome)))
      ensures outcome in {Committed, NotFound, NotEditable, BadGuideword, Lost}
      ensures patch.guideword.Some? && !ValidGuideword(patch.guideword.value) ==> outcome in {NotFound, NotEditable, BadGuideword}
    {
      var q := Request.Update(id, patch, version, actor, Read);
      Record(Arrive(rid, q));
      var loaded := Load(rid, q);
      if loaded.None? { return NotFound; }
      var scenario := loaded.value;
      if scenario.state != Draft && scenario.state != Rework { return NotEditable; }
      var before := scenario;
      if patch.guideword.Some? {
        if !ValidGuideword(patch.guideword.value) { return BadGuideword; }
        scenario := scenario.(content := scenario.content.(guideword := patch.guideword.value));
      }
      if patch.parameter.Some? { scenario := scenario.(content := scenario.content.(parameter := patch.parameter.value)); }
      if patch.cause.Some? { scenario := scenario.(content := scenario.content.(cause := patch.cause.value)); }
      if patch.consequence.Some? { scenario := scenario.(content := scenario.content.(consequence := patch.consequence.value)); }
      if patch.likelihood.Some? { scenario := scenario.(content := scenario.content.(likelihood := patch.likelihood.value)); }
      if patch.severity.Some? { scenario := scenario.(content := scenario.content.(severity := patch.severity.value)); }
      hide Valid;
      var changed := StoreUpdate(rid, q.Now(Write(before)), scenario);
      if !changed { return Lost; }
      RecordAudit(rid, q.Now(Log(before)));
      return Committed;
    }

    method TransitionBody(rid: nat, id: nat, to: ScenarioState, version: int, actor: Actor) returns (outcome: Outcome)
      requires Valid() && rid !in world.requests
      modifies this`world, this`schedule, scenarios
      ensures Valid() && old(schedule) <= schedule
      ensures At(rid, Request.Transition(id, to, version, actor, Done(outcome)))
      ensures outcome in {Committed, NotFound, Forbidden, IllegalTransition, ReviewerConflict, Lost}
      ensures !RoleAllows(actor.role, to) ==> outcome in {NotFound, Forbidden}
    {
      var q := Request.Transition(id, to, version, actor, Read);
      Record(Arrive(rid, q));
      var loaded := Load(rid, q);
      if loaded.None? { return NotFound; }
      var scenario := loaded.value;
      if to == Analyzed && actor.role != Admin && actor.role != ProcessEngineer { return Forbidden; }
      if (to == Verified || to == Accepted || to == Rework) && actor.role != Admin && actor.role != SafetyReviewer {
        return Forbidden;
      }
      if !CanTransition(scenario.state, to) { return IllegalTransition; }
      var reviewAction := to == Verified || to == Accepted;
      if reviewAction && !scenario.ReviewerSeparated(actor.id) { return ReviewerConflict; }
      var reviewer: Option<nat> := None;
      if reviewAction { reviewer := Some(actor.id); }
      hide Valid;
      var changed := StoreTransition(rid, q.Now(Write(scenario)), reviewer);
      if !changed { return Lost; }
      RecordAudit(rid, q.Now(Log(scenario)));
      return Committed;
    }

    // Which commit a successful request made: its own, and no other request of that version.
    ghost predicate OnlyWinner(rid: nat, q: Request) reads this {
      && q.id in world.history && Won(world.history[q.id], rid, q)
      && forall r | r in world.requests && r != rid && world.requests[r].id == q.id && world.requests[r].version == q.version ::
           world.requests[r].pc != Done(Committed)
    }

    lemma Winner(rid: nat, q: Request)
      requires Scheduled() && At(rid, q) && q.pc == Done(Committed)
      ensures OnlyWinner(rid, q)
    {
      hide Won;
      SuccessIsACommit(schedule, rid);
      forall r | r in world.requests && r != rid && world.requests[r].id == q.id && world.requests[r].version == q.version
        ensures world.requests[r].pc != Done(Committed)
      {
        if world.requests[r].pc == Done(Committed) { OneWinnerPerVersion(schedule, rid, r); }
      }
    }

    /** Update, with any other requests between its read and its write: success means that
        version version + 1 is this request's own edit and no other request got it; the chain
        of versions is kept whatever the outcome. */
    method Update(rid: nat, id: nat, patch: Patch, version: int, actor: Actor) returns (outcome: Outcome)
      requires Valid() && rid !in world.requests
      modifies this`world, this`schedule, scenarios
      ensures Valid() && old(schedule) <= schedule && Inv(world)
      ensures At(rid, Request.Update(id, patch, version, actor, Done(outcome)))
      ensures outcome == Committed ==> OnlyWinner(rid, Request.Update(id, patch, version, actor, Done(Committed)))
      ensures patch.guideword.Some? && !ValidGuideword(patch.guideword.value) ==> outcome in {NotFound, NotEditable, BadGuideword}
    {
      outcome := UpdateBody(rid, id, patch, version, actor);
      hide Inv, OnlyWinner;
      Reachable(schedule);
      if outcome == Committed { Winner(rid, Request.Update(id, patch, version, actor, Done(Committed))); }
    }

    /** Transition, likewise: success means that version version + 1 is this move. */
    method Transition(rid: nat, id: nat, to: ScenarioState, version: int, actor: Actor) returns (outcome: Outcome)
      requires Valid() && rid !in world.requests
      modifies this`world, this`schedule, scenarios
      ensures Valid() && old(schedule) <= schedule && Inv(world)
      ensures At(rid, Request.Transition(id, to, version, actor, Done(outcome)))
      ensures outcome == Committed ==> OnlyWinner(rid, Request.Transition(id, to, version, actor, Done(Committed)))
      ensures !RoleAllows(actor.role, to) ==> outcome in {NotFound, Forbidden}
    {
      outcome := TransitionBody(rid, id, to, version, actor);
      hide Inv, OnlyWinner;
      Reachable(schedule);
      if outcome == Committed { Winner(rid, Request.Transition(id, to, version, actor, Done(Committed))); }
    }
  }
}
