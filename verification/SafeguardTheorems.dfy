/** The safeguard lifecycle over every run: what an active safeguard has, when an invalidated
    one can come back, and what each operation does when it runs alone. */
module SafeguardTheorems {
  import opened Wrappers
  import opened Records
  import opened SafeguardMachine
  import opened SafeguardInvariants
  import Independence
  import Freezing

  /** In every run a stored safeguard that is active or expired carries attributed evidence
      that lies at most five minutes after some clock reading, an interval of at least a day
      and an effectiveness in (0, 1]; so an evaluation can only turn it down for a blank key,
      its lifecycle or its expiry. */
  lemma OnlyThreeReasons(events: seq<Event>, id: nat, a: Independence.Assessment)
    requires id in Exec(Init, events).rows
    ensures var s := Exec(Init, events);
      && Sound(s.rows[id], s.latest)
      && var g := Freezing.Freeze(s.rows[id]);
         match a.RejectionReason(g)
         case None => g.lifecycle == Active && a.at <= AddDays(g.lastVerifiedAt.value, g.testIntervalDays)
         case Some(MissingKey) => a.Key(g) == ""
         case Some(NotActive(l)) => l == g.lifecycle != Active
         case Some(VerificationExpired(t)) => g.lifecycle == Active && t == AddDays(g.lastVerifiedAt.value, g.testIntervalDays) < a.at
         case Some(_) => false
  {
    Reachable(events);
    var s := Exec(Init, events);
    assert RowsOk(s);
    hide RequestOk;
    assert Sound(s.rows[id], s.latest);
  }

  // ----- the edges

  /** Only these steps change a lifecycle: Verify makes any safeguard active, Invalidate makes
      any other state invalid, Restore moves invalid to pending, or to active if it has read
      an effective row, and Update expires an active one. Only Verify changes the evidence. */
  lemma LifecycleEdges(s: State, e: Event, id: nat)
    requires Inv(s) && id in s.rows
    ensures id in Next(s, e).rows
    ensures var g, h := s.rows[id], Next(s, e).rows[id];
      && (g.lifecycle != h.lifecycle || g.lastVerifiedAt != h.lastVerifiedAt ==>
            && e.Step? && e.rid in s.requests && s.requests[e.rid].id == id
            && var q := s.requests[e.rid];
               match q
               case Verify(_, at, _, actor, _) => h.lifecycle == Active && h.lastVerifiedAt == Some(at) && h.lastVerificationBy == Some(actor)
               case Update(_, _, _) => g.lifecycle == Active && h.lifecycle == Expired
               case Invalidate(_, _, _) => g.lifecycle != Invalid && h.lifecycle == Invalid
               case Restore(_, _, _) => g.lifecycle == Invalid && (h.lifecycle == Pending || (h.lifecycle == Active && Armed(q, id))))
      && (g.lastVerifiedAt != h.lastVerifiedAt ==> s.requests[e.rid].Verify?)
  {
    if e.Step? && e.rid in s.requests {
      var q := s.requests[e.rid];
      var r := Tick(s, e.now);
      assert RequestOk(s, q);
      hide Inv, RowsOk, Patched, AfterRead, Annotated;
      assert r.rows == s.rows;
    }
  }

  // ----- an invalidated safeguard

  // A Restore of id that has read an effective row and so is going to make it active.
  predicate Armed(q: Request, id: nat) {
    q.Restore? && q.id == id && (q.pc == ReadBefore(Active) || (q.pc.SetState? && q.pc.to == Active))
  }

  predicate RestoreArmed(s: State, id: nat) { exists rid | rid in s.requests :: Armed(s.requests[rid], id) }

  // The step commits a verification of id.
  predicate VerifyWrites(s: State, e: Event, id: nat) {
    e.Step? && e.rid in s.requests && s.requests[e.rid].Verify? && s.requests[e.rid].id == id && s.requests[e.rid].pc.SetVerified?
  }

  // No verification of id is committed on the way.
  predicate Unverified(s: State, events: seq<Event>, id: nat) {
    if events == [] then true
    else
      var before := events[..|events| - 1];
      Unverified(s, before, id) && !VerifyWrites(Exec(s, before), events[|events| - 1], id)
  }

  predicate Dormant(s: State, id: nat) { StateIn(s, id, {Invalid, Pending}) && !RestoreArmed(s, id) }

  lemma StepStaysDormant(s: State, rid: nat, now: Time, id: nat)
    requires RowsOk(s) && Dormant(s, id) && rid in s.requests && RequestOk(s, s.requests[rid])
    requires !VerifyWrites(s, Step(rid, now), id)
    ensures Dormant(Advance(s, rid, s.requests[rid], now), id)
  {
    var q := s.requests[rid];
    var t := Advance(s, rid, q, now);
    assert !Armed(q, id);
    assert q.pc.Read? && id in s.rows ==> !s.rows[id].IsEffectiveAt(now);
    hide Sound, Patched, RunsOut, Annotated, Written;
    assert rid in t.requests && !Armed(t.requests[rid], id);
    assert forall r | r in s.requests && r != rid :: t.requests[r] == s.requests[r];
    assert StateIn(t, id, {Invalid, Pending});
  }

  lemma NextStaysDormant(s: State, e: Event, id: nat)
    requires Inv(s) && Dormant(s, id) && !VerifyWrites(s, e, id)
    ensures Dormant(Next(s, e), id)
  {
    match e
    case Create(_, _, _) => assert RowsOk(s);
    case Arrive(rid, request) =>
      assert forall r | r in s.requests :: !Armed(s.requests[r], id);
    case Step(rid, now) =>
      if rid in s.requests {
        TickKeeps(s, now);
        hide Advance;
        assert Tick(s, now).requests == s.requests && Tick(s, now).rows == s.rows;
        StepStaysDormant(Tick(s, now), rid, now, id);
      }
  }

  /** After an invalidation, while no Restore that has read the row as effective is in
      flight, no run makes the safeguard eligible for any evaluation before it is verified
      again, whatever updates, restores and invalidations come between. */
  lemma {:induction false} InvalidStaysIneligible(s: State, events: seq<Event>, id: nat)
    requires Inv(s) && Dormant(s, id) && Unverified(s, events, id)
    ensures var t := Exec(s, events);
      && Dormant(t, id) && Inv(t)
      && forall a: Independence.Assessment :: a.RejectionReason(Freezing.Freeze(t.rows[id])).Some?
  {
    RunKeeps(s, events);
    if events != [] {
      hide Inv, Next, VerifyWrites;
      var before := events[..|events| - 1];
      RunKeeps(s, before);
      InvalidStaysIneligible(s, before, id);
      hide Dormant, Exec, Unverified;
      NextStaysDormant(Exec(s, before), events[|events| - 1], id);
      ExecStep(s, before, events[|events| - 1]);
      assert before + [events[|events| - 1]] == events;
    }
    IneligibleWhileDormant(Exec(s, events), id);
  }

  lemma IneligibleWhileDormant(t: State, id: nat)
    requires Dormant(t, id)
    ensures id in t.rows && forall a: Independence.Assessment :: a.RejectionReason(Freezing.Freeze(t.rows[id])).Some?
  {
  }

  lemma ExecStep(s: State, events: seq<Event>, e: Event)
    ensures Exec(s, events + [e]) == Next(Exec(s, events), e)
  {
    assert (events + [e])[..|events|] == events;
  }

  lemma StepsOfRestore(s: State, rid: nat, id: nat, now: Time)
    requires rid in s.requests && s.requests[rid].Restore?
    ensures var e, t := Step(rid, now), Once(s, rid, now);
      && Exec(s, [e]) == t && Unverified(s, [e], id)
      && (rid in t.requests && t.requests[rid].Restore? ==> Exec(s, [e, e]) == Twice(s, rid, now) && Unverified(s, [e, e], id))
  {
    hide Next;
    var e := Step(rid, now);
    assert [e][..0] == [] && [e, e][..1] == [e];
    assert Exec(s, []) == s && Unverified(s, [], id);
    assert Exec(s, [e]) == Once(s, rid, now);
  }

  // An armed Restore, when it is scheduled next, makes the invalid row active.
  lemma ArmedRestoreRevives(s: State, rid: nat, id: nat, now: Time) returns (events: seq<Event>)
    requires Inv(s) && StateIn(s, id, {Invalid}) && rid in s.requests && Armed(s.requests[rid], id)
    ensures Unverified(s, events, id) && StateIn(Exec(s, events), id, {Active})
    ensures Exec(s, events).rows[id].(lifecycle := Invalid, evidenceNote := "") == s.rows[id].(evidenceNote := "")
  {
    var q, e := s.requests[rid], Step(rid, now);
    StepsOfRestore(s, rid, id, now);
    hide Inv, Exec, Unverified;
    if q.pc.ReadBefore? {
      assert rid in Once(s, rid, now).requests && Once(s, rid, now).requests[rid].Restore?;
      hide Next;
      ChangeLifecycle(s, rid, now);
      events := [e, e];
    } else {
      events := [e];
    }
  }

  /** So the safeguard can come back without a verification exactly when, at the time it is
      invalid, such a Restore is in flight. Operations run one at a time never leave one. */
  lemma RevivalNeedsArmedRestore(s: State, id: nat)
    requires Inv(s) && StateIn(s, id, {Invalid})
    ensures (exists events :: Unverified(s, events, id) && StateIn(Exec(s, events), id, {Active})) <==> RestoreArmed(s, id)
  {
    hide Inv, Unverified, Exec;
    if RestoreArmed(s, id) {
      var rid :| rid in s.requests && Armed(s.requests[rid], id);
      var events := ArmedRestoreRevives(s, rid, id, 0);
    } else {
      forall events | Unverified(s, events, id) ensures !StateIn(Exec(s, events), id, {Active}) {
        InvalidStaysIneligible(s, events, id);
      }
    }
  }

  // ----- operations that run alone

  // Steps of request rid in a row, all at the same time.
  function Once(s: State, rid: nat, now: Time): State { Next(s, Step(rid, now)) }

  function Twice(s: State, rid: nat, now: Time): State { Once(Once(s, rid, now), rid, now) }

  function Thrice(s: State, rid: nat, now: Time): State { Once(Twice(s, rid, now), rid, now) }

  lemma ReadOnce(s: State, rid: nat, now: Time)
    requires rid in s.requests && s.requests[rid].pc.Read? && s.requests[rid].id in s.rows
    ensures var q, t := s.requests[rid], Once(s, rid, now);
      t.rows == s.rows && t.requests == s.requests[rid := q.Now(AfterRead(q, s.rows[q.id], now))]
  {
    hide AfterRead;
  }

  // changeLifecycle without anything in between.
  lemma ChangeLifecycle(s: State, rid: nat, now: Time)
    requires rid in s.requests && s.requests[rid].pc.ReadBefore? && s.requests[rid].id in s.rows
    ensures var q, t := s.requests[rid], Twice(s, rid, now);
      var to, moves := q.pc.target, s.rows[q.id].lifecycle in Sources(q.pc.target);
      && t.requests == s.requests[rid := q.Now(Done(if moves then Changed else Refused))]
      && q.id in t.rows
      && t.rows == s.rows[q.id := if moves then s.rows[q.id].(lifecycle := to, evidenceNote := Annotated(s.rows[q.id].evidenceNote, to, Reason(q)))
                                  else s.rows[q.id]]
  {
    var q, s1 := s.requests[rid], Once(s, rid, now);
    assert s1.rows == s.rows && rid in s1.requests && s1.requests[rid].pc.SetState?;
    assert s1.requests[rid].Now(Done(Changed)) == q.Now(Done(Changed));
    hide Annotated, Sources, Reason;
    assert s1.requests[rid].pc.note == Annotated(s.rows[q.id].evidenceNote, q.pc.target, Reason(q));
  }

  // The fields of g that p sets replaced, and what that makes of its lifecycle at time now.
  function Edited(g: Safeguard, p: Patch, now: Time): Safeguard {
    var days := if p.testIntervalDays.Some? then p.testIntervalDays.value else g.testIntervalDays;
    Safeguard(g.id,
      if p.name.Some? then p.name.value else g.name,
      if p.kind.Some? then p.kind.value else g.kind,
      g.targetScenarioId,
      if p.independenceKey.Some? then p.independenceKey.value else g.independenceKey,
      if p.effectiveness.Some? then p.effectiveness.value else g.effectiveness,
      days,
      g.lastVerifiedAt,
      if g.lifecycle == Active && g.lastVerifiedAt.Some? && now > g.lastVerifiedAt.value + days * 86_400_000_000_000 then Expired
      else g.lifecycle,
      if p.evidenceNote.Some? then p.evidenceNote.value else g.evidenceNote,
      g.lastVerificationBy)
  }

  /** An Update that runs alone applies its patch, and what it leaves active is effective
      at that moment: a safeguard that has run out under its new interval is now expired. */
  lemma UpdateAlone(s: State, rid: nat, now: Time)
    requires Inv(s) && rid in s.requests && s.requests[rid].Update? && s.requests[rid].pc.Read? && s.requests[rid].id in s.rows
    ensures var q, t := s.requests[rid], Thrice(s, rid, now);
      && rid in t.requests && t.requests[rid] == q.Now(Done(Updated))
      && var h := Edited(s.rows[q.id], q.patch, now);
         && t.rows == s.rows[q.id := h]
         && (h.lifecycle == Active <==> h.IsEffectiveAt(now))
  {
    var q := s.requests[rid];
    assert RequestOk(s, q) && RowsOk(s);
    var g := Patched(s.rows[q.id], q.patch);
    var s1, s2, s3 := Once(s, rid, now), Twice(s, rid, now), Thrice(s, rid, now);
    assert s1.rows == s.rows && rid in s1.requests && s1.requests[rid] == q.Now(Write(g, RunsOut(g, now)));
    assert Written(s.rows[q.id], g) == g;
    assert s2.rows == s.rows[q.id := g];
    assert Sound(s.rows[q.id], s.latest);
    assert Edited(s.rows[q.id], q.patch, now) == if RunsOut(g, now) then g.(lifecycle := Expired) else g;
  }

  /** A Verify that runs alone succeeds exactly on evidence at most five minutes ahead and
      not yet expired, records it with its verifier, and leaves the safeguard effective. */
  lemma VerifyAlone(s: State, rid: nat, now: Time)
    requires Inv(s) && rid in s.requests && s.requests[rid].Verify? && s.requests[rid].pc.Read? && s.requests[rid].id in s.rows
    ensures var q, t := s.requests[rid], Twice(s, rid, now);
      var g := s.rows[q.id];
      && rid in t.requests && t.requests[rid].pc.Done?
      && var outcome := t.requests[rid].pc.outcome;
         if q.verifiedAt > now + 300_000_000_000 then outcome == FutureEvidence && t.rows == s.rows
         else if now > q.verifiedAt + g.testIntervalDays * 86_400_000_000_000 then outcome == AlreadyExpired && t.rows == s.rows
         else
           && outcome == Renewed
           && t.rows == s.rows[q.id := Safeguard(g.id, g.name, g.kind, g.targetScenarioId, g.independenceKey, g.effectiveness,
                g.testIntervalDays, Some(q.verifiedAt), Active, q.note, Some(q.actor))]
           && t.rows[q.id].IsEffectiveAt(now)
  {
    var q := s.requests[rid];
    ReadOnce(s, rid, now);
    assert RowsOk(s);
    assert Sound(s.rows[q.id], s.latest);
    hide Inv, Sound;
  }

  // g with another lifecycle and the reason noted.
  function Noted(g: Safeguard, to: Lifecycle, action: string, reason: string): Safeguard {
    Safeguard(g.id, g.name, g.kind, g.targetScenarioId, g.independenceKey, g.effectiveness, g.testIntervalDays,
      g.lastVerifiedAt, to, g.evidenceNote + action + reason, g.lastVerificationBy)
  }

  lemma NoteOf(g: Safeguard, to: Lifecycle, reason: string)
    ensures g.(lifecycle := to, evidenceNote := Annotated(g.evidenceNote, to, reason))
      == Noted(g, to, if to == Invalid then "\n[invalidate] " else "\n[restore] ", reason)
  {
    assert "\n[" + "invalidate" + "] " == "\n[invalidate] " && "\n[" + "restore" + "] " == "\n[restore] ";
    var action := if to == Invalid then "invalidate" else "restore";
    assert g.evidenceNote + "\n[" + action + "] " + reason == g.evidenceNote + ("\n[" + action + "] ") + reason;
  }

  /** An Invalidate that runs alone succeeds exactly on a safeguard that is not invalid yet, and
      notes its reason. */
  lemma InvalidateAlone(s: State, rid: nat, now: Time)
    requires Inv(s) && rid in s.requests && s.requests[rid].Invalidate? && s.requests[rid].pc.ReadBefore? && s.requests[rid].id in s.rows
    ensures var q, t := s.requests[rid], Twice(s, rid, now);
      var g := s.rows[q.id];
      && rid in t.requests && t.requests[rid].pc == Done(if g.lifecycle != Invalid then Changed else Refused)
      && t.rows == if g.lifecycle != Invalid then s.rows[q.id := Noted(g, Invalid, "\n[invalidate] ", q.reason)] else s.rows
  {
    var q := s.requests[rid];
    assert RequestOk(s, q);
    hide Inv, RequestOk, Next, Annotated;
    ChangeLifecycle(s, rid, now);
    NoteOf(s.rows[q.id], Invalid, q.reason);
  }

  /** A Restore that runs alone succeeds exactly on an invalid safeguard, and the result is
      always pending, never active. */
  lemma RestoreAlone(s: State, rid: nat, now: Time)
    requires Inv(s) && rid in s.requests && s.requests[rid].Restore? && s.requests[rid].pc.Read? && s.requests[rid].id in s.rows
    ensures var q, t := s.requests[rid], Thrice(s, rid, now);
      var g := s.rows[q.id];
      && rid in t.requests && t.requests[rid].pc == Done(if g.lifecycle == Invalid then Changed else Refused)
      && t.rows == if g.lifecycle == Invalid then s.rows[q.id := Noted(g, Pending, "\n[restore] ", q.reason)] else s.rows
  {
    var q := s.requests[rid];
    ReadOnce(s, rid, now);
    assert Reason(Once(s, rid, now).requests[rid]) == q.reason;
    hide Inv, Next, Annotated;
    ChangeLifecycle(Once(s, rid, now), rid, now);
    NoteOf(s.rows[q.id], Pending, q.reason);
  }

  /** Interleaved, it can be active: a Restore reads an effective row, an Invalidate runs
      completely, and the Restore then succeeds and brings the row back. */
  lemma RestoreRace(s: State, restore: nat, invalidate: nat, now: Time)
    requires Inv(s) && restore != invalidate
    requires restore in s.requests && s.requests[restore].Restore? && s.requests[restore].pc.Read?
    requires invalidate in s.requests && s.requests[invalidate].Invalidate? && s.requests[invalidate].pc.ReadBefore?
    requires s.requests[restore].id == s.requests[invalidate].id
    requires s.requests[restore].id in s.rows && s.rows[s.requests[restore].id].IsEffectiveAt(now)
    ensures var id, t := s.requests[restore].id, Twice(Twice(Once(s, restore, now), invalidate, now), restore, now);
      && restore in t.requests && t.requests[restore].pc == Done(Changed)
      && invalidate in t.requests && t.requests[invalidate].pc == Done(Changed)
      && id in t.rows && t.rows[id].IsEffectiveAt(now)
  {
    assert RequestOk(s, s.requests[invalidate]);
    hide Inv, RequestOk, Next;
    ReadOnce(s, restore, now);
    var s1 := Once(s, restore, now);
    ChangeLifecycle(s1, invalidate, now);
    ChangeLifecycle(Twice(s1, invalidate, now), restore, now);
  }

  predicate Quiescent(s: State) { forall rid | rid in s.requests :: s.requests[rid].pc.Done? }

  /** Requests that run one at a time never leave an armed Restore behind, so between them an
      invalidated safeguard stays ineligible until it is verified. */
  lemma OneAtATime(s: State, rid: nat, q: Request, now: Time, id: nat)
    requires Inv(s) && Quiescent(s) && rid !in s.requests && Fresh(q)
    ensures var t := Thrice(Next(s, Arrive(rid, q)), rid, now);
      Quiescent(t) && !RestoreArmed(t, id)
  {
    var s0 := Next(s, Arrive(rid, q));
    assert s0 == With(s, rid, q);
    AloneFinishes(s0, rid, now);
  }

  // A bound on the steps a request still has to take.
  function StepsLeft(pc: Pc): nat {
    match pc
    case Read => 3
    case Write(_, _) => 2
    case ReadBefore(_) => 2
    case Expire => 1
    case SetVerified => 1
    case SetState(_, _) => 1
    case Done(_) => 0
  }

  lemma AfterReadProgresses(q: Request, g: Safeguard, now: Time)
    ensures StepsLeft(AfterRead(q, g, now)) < 3
  {
    hide Patched, RunsOut, InTheFuture;
  }

  // What a step makes of its own request.
  lemma AdvanceProgresses(s: State, rid: nat, q: Request, now: Time)
    requires rid in s.requests && s.requests[rid] == q
    ensures var t := Advance(s, rid, q, now);
      && rid in t.requests && t.requests == s.requests[rid := t.requests[rid]]
      && (StepsLeft(t.requests[rid].pc) == 0 || StepsLeft(t.requests[rid].pc) < StepsLeft(q.pc))
  {
    if q.pc.Read? && q.id in s.rows { AfterReadProgresses(q, s.rows[q.id], now); }
    hide AfterRead, VerifiedBy, Annotated, StateIn, Sources, Written, Reason;
    var t := Advance(s, rid, q, now);
    assert rid in t.requests && StepsLeft(q.Now(t.requests[rid].pc).pc) == StepsLeft(t.requests[rid].pc);
    if q.pc.Done? { assert t == s; }
  }

  lemma OnceProgresses(s: State, rid: nat, now: Time)
    requires rid in s.requests
    ensures var t := Once(s, rid, now);
      && rid in t.requests && t.requests == s.requests[rid := t.requests[rid]]
      && (StepsLeft(t.requests[rid].pc) == 0 || StepsLeft(t.requests[rid].pc) < StepsLeft(s.requests[rid].pc))
  {
    hide Advance, StepsLeft;
    AdvanceProgresses(Tick(s, now), rid, s.requests[rid], now);
  }

  lemma AloneFinishes(s: State, rid: nat, now: Time)
    requires rid in s.requests
    ensures var t := Thrice(s, rid, now);
      && rid in t.requests && t.requests[rid].pc.Done?
      && forall r | r in t.requests :: r != rid ==> r in s.requests && t.requests[r] == s.requests[r]
  {
    hide Once;
    OnceProgresses(s, rid, now);
    OnceProgresses(Once(s, rid, now), rid, now);
    OnceProgresses(Twice(s, rid, now), rid, now);
  }
}
