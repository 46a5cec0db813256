/** Schedules of the evaluation machine: every interleaving of any number of requests, each of
    which may stop for ever at any point. */
module EvaluationSchedules {
  import opened EvaluationStore
  import opened EvaluationMachine
  import opened EvaluationInvariants
  import opened EvaluationSteps

  /** The state after a schedule, oldest event first. */
  function Exec(env: Env, s: State, events: seq<Event>): State {
    if events == [] then s
    else Next(env, Exec(env, s, events[..|events| - 1]), events[|events| - 1])
  }

  lemma {:induction false} EveryRunKeeps(env: Env, s: State, events: seq<Event>)
    requires env.Valid() && Inv(env, s)
    ensures Inv(env, Exec(env, s, events))
  {
    hide Inv, Env.Valid;
    if events != [] {
      EveryRunKeeps(env, s, events[..|events| - 1]);
      NextKeeps(env, Exec(env, s, events[..|events| - 1]), events[|events| - 1]);
    }
  }

  lemma Reachable(env: Env, events: seq<Event>)
    requires env.Valid()
    ensures Inv(env, Exec(env, Init, events))
  {
    hide Env.Valid;
    InitHolds(env);
    EveryRunKeeps(env, Init, events);
  }

  lemma ExecStep(env: Env, s: State, events: seq<Event>, e: Event)
    ensures Exec(env, s, events + [e]) == Next(env, Exec(env, s, events), e)
  {
    assert (events + [e])[..|events|] == events;
  }

  lemma ExecTwo(env: Env, s: State, events: seq<Event>, d: Event, e: Event)
    ensures Exec(env, s, events + [d, e]) == Next(env, Next(env, Exec(env, s, events), d), e)
  {
    ExecStep(env, s, events, d);
    ExecStep(env, s, events + [d], e);
    assert events + [d, e] == events + [d] + [e];
  }

  lemma ExecThree(env: Env, s: State, events: seq<Event>, c: Event, d: Event, e: Event)
    ensures Exec(env, s, events + [c, d, e]) == Next(env, Next(env, Next(env, Exec(env, s, events), c), d), e)
  {
    ExecTwo(env, s, events, c, d);
    ExecStep(env, s, events + [c, d], e);
    assert events + [c, d, e] == events + [c, d] + [e];
  }

  // ----- what other requests cannot touch

  predicate ByOthers(events: seq<Event>, rid: nat) { forall e | e in events :: e.rid != rid }

  lemma RunLeavesRequest(env: Env, s: State, r: nat, q: Request, rid: nat)
    requires r != rid && rid in s.requests && q.Run?
    ensures rid in AdvanceRun(env, s, r, q).requests && AdvanceRun(env, s, r, q).requests[rid] == s.requests[rid]
  {
    hide NewRow, Transitioned, CompletedIn, Inserted, Matches, TrailOf, ResultColumns;
  }

  lemma ReviewLeavesRequest(env: Env, s: State, r: nat, q: Request, action: Action, rid: nat)
    requires r != rid && rid in s.requests && (q.Confirm? || q.Void?)
    ensures rid in AdvanceReview(env, s, r, q, action).requests
    ensures AdvanceReview(env, s, r, q, action).requests[rid] == s.requests[rid]
  {
    hide Transitioned, Matches, TrailOf, ReviewTarget, ReviewSources, ReviewUpdates;
  }

  lemma ReplayLeavesRequest(env: Env, s: State, r: nat, q: Request, rid: nat)
    requires r != rid && rid in s.requests && q.Replay?
    ensures rid in AdvanceReplay(env, s, r, q).requests && AdvanceReplay(env, s, r, q).requests[rid] == s.requests[rid]
  {
    hide Env.Judge, ReplayRecorded;
  }

  lemma StepLeavesRequest(env: Env, s: State, e: Event, rid: nat)
    requires e.rid != rid && rid in s.requests
    ensures rid in Next(env, s, e).requests && Next(env, s, e).requests[rid] == s.requests[rid]
  {
    hide AdvanceRun, AdvanceReview, AdvanceReplay;
    if e.Step? && e.rid in s.requests {
      var q := s.requests[e.rid];
      match q
      case Run(_, _, _, _) => RunLeavesRequest(env, s, e.rid, q, rid);
      case Confirm(_, _, _) => ReviewLeavesRequest(env, s, e.rid, q, ConfirmAction, rid);
      case Void(_, _, _) => ReviewLeavesRequest(env, s, e.rid, q, VoidAction, rid);
      case Replay(_, _, _) => ReplayLeavesRequest(env, s, e.rid, q, rid);
    }
  }

  lemma {:induction false} OthersLeaveRequest(env: Env, s: State, events: seq<Event>, rid: nat)
    requires ByOthers(events, rid) && rid in s.requests
    ensures rid in Exec(env, s, events).requests && Exec(env, s, events).requests[rid] == s.requests[rid]
  {
    if events != [] {
      hide Next;
      var n := |events| - 1;
      assert events[n] in events;
      OthersLeaveRequest(env, s, events[..n], rid);
      StepLeavesRequest(env, Exec(env, s, events[..n]), events[n], rid);
    }
  }

  lemma {:induction false} ExecAppend(env: Env, s: State, events: seq<Event>, more: seq<Event>)
    ensures Exec(env, s, events + more) == Exec(env, Exec(env, s, events), more)
  {
    hide Next;
    if more == [] {
      assert events + more == events;
    } else {
      var n := |more| - 1;
      ExecAppend(env, s, events, more[..n]);
      assert (events + more)[..|events| + n] == events + more[..n];
    }
  }
}
