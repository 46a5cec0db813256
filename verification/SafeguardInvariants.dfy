/** What every step of the safeguard machine keeps. */
module SafeguardInvariants {
  import opened Records
  import opened SafeguardMachine

  // A stored safeguard that is active or expired has evidence, nobody's evidence is
  // anonymous, and none lies more than five minutes after every clock reading.
  ghost predicate Sound(g: Safeguard, latest: Time) {
    && ValidEffectiveness(g.effectiveness) && ValidInterval(g.testIntervalDays)
    && (g.lifecycle == Active || g.lifecycle == Expired ==> g.lastVerifiedAt.Some?)
    && (g.lastVerifiedAt.Some? <==> g.lastVerificationBy.Some?)
    && (g.lastVerifiedAt.Some? ==> !InTheFuture(g.lastVerifiedAt.value, latest))
  }

  ghost predicate HasEvidence(s: State, id: nat) { id in s.rows && s.rows[id].lastVerifiedAt.Some? }

  ghost predicate TargetOk(s: State, q: Request, target: Lifecycle) {
    match q
    case Invalidate(_, _, _) => target == Invalid
    case Restore(_, _, _) => target == Pending || (target == Active && HasEvidence(s, q.id))
    case Update(_, _, _) => false
    case Verify(_, _, _, _, _) => false
  }

  ghost predicate RequestOk(s: State, q: Request) {
    match q.pc
    case Read => !q.Invalidate? && (q.Update? ==> Bound(q.patch))
    case Write(edited, _) =>
      q.Update? && q.id in s.rows && ValidEffectiveness(edited.effectiveness) && ValidInterval(edited.testIntervalDays)
    case Expire => q.Update?
    case SetVerified => q.Verify? && q.id in s.rows && !InTheFuture(q.verifiedAt, s.latest)
    case ReadBefore(target) => TargetOk(s, q, target)
    case SetState(to, _) => TargetOk(s, q, to) && q.id in s.rows
    case Done(outcome) => q.Verify? ==> outcome != Refused
  }

  ghost predicate RowsOk(s: State) {
    forall id | id in s.rows :: id < s.nextId && s.rows[id].id == id && Sound(s.rows[id], s.latest)
  }

  ghost predicate Inv(s: State) {
    RowsOk(s) && forall rid | rid in s.requests :: RequestOk(s, s.requests[rid])
  }

  // Rows are never deleted, evidence is never withdrawn, the latest reading only grows.
  ghost predicate Grows(s: State, t: State) {
    && s.latest <= t.latest
    && (forall id | id in s.rows :: id in t.rows)
    && (forall id | HasEvidence(s, id) :: HasEvidence(t, id))
  }

  lemma OthersKeep(s: State, t: State, q: Request)
    requires RequestOk(s, q) && Grows(s, t)
    ensures RequestOk(t, q)
  {
  }

  lemma Preserved(s: State, t: State, rid: nat, q: Request)
    requires Inv(s) && RowsOk(t) && Grows(s, t)
    requires t.requests == s.requests[rid := q] && RequestOk(t, q)
    ensures Inv(t)
  {
    hide RequestOk, RowsOk, Grows;
    forall r | r in t.requests ensures RequestOk(t, t.requests[r]) {
      if r != rid { OthersKeep(s, t, s.requests[r]); }
    }
  }

  lemma TickKeeps(s: State, now: Time)
    requires Inv(s)
    ensures Inv(Tick(s, now)) && Grows(s, Tick(s, now))
  {
    var t := Tick(s, now);
    assert RowsOk(t);
    forall r | r in t.requests ensures RequestOk(t, t.requests[r]) { OthersKeep(s, t, s.requests[r]); }
  }

  lemma ReadOk(s: State, rid: nat, q: Request, now: Time)
    requires RowsOk(s) && RequestOk(s, q) && q.pc.Read? && now <= s.latest
    ensures var t := Advance(s, rid, q, now);
      rid in t.requests && t == With(s, rid, t.requests[rid]) && RequestOk(t, t.requests[rid])
  {
  }

  // The row a step writes is sound and keeps its evidence.
  lemma PutOk(s: State, id: nat, g: Safeguard)
    requires RowsOk(s) && id in s.rows && Sound(g, s.latest) && g.id == id
    requires s.rows[id].lastVerifiedAt.Some? ==> g.lastVerifiedAt.Some?
    ensures RowsOk(Put(s, id, g)) && Grows(s, Put(s, id, g))
  {
  }

  lemma EditOk(s: State, rid: nat, q: Request, now: Time)
    requires RowsOk(s) && RequestOk(s, q) && (q.pc.Write? || q.pc.ReadBefore? || q.pc.Done?)
    ensures var t := Advance(s, rid, q, now);
      && RowsOk(t) && Grows(s, t)
      && (q.pc.Done? || (rid in t.requests && t.requests == s.requests[rid := t.requests[rid]] && RequestOk(t, t.requests[rid])))
  {
    if q.pc.Write? { PutOk(s, q.id, Written(s.rows[q.id], q.pc.edited)); }
  }

  // The row that a lifecycle change writes, if it writes one.
  lemma ChangedRowSound(s: State, q: Request)
    requires RowsOk(s) && RequestOk(s, q) && q.id in s.rows
    ensures var g := s.rows[q.id];
      && (q.pc.Expire? && g.lifecycle == Active ==> Sound(g.(lifecycle := Expired), s.latest))
      && (q.pc.SetVerified? ==> Sound(VerifiedBy(q, g), s.latest) && VerifiedBy(q, g).id == q.id && VerifiedBy(q, g).lastVerifiedAt.Some?)
      && (q.pc.SetState? ==> Sound(g.(lifecycle := q.pc.to, evidenceNote := q.pc.note), s.latest))
  {
    assert Sound(s.rows[q.id], s.latest);
  }

  lemma LifecycleOk(s: State, rid: nat, q: Request, now: Time)
    requires RowsOk(s) && RequestOk(s, q) && (q.pc.Expire? || q.pc.SetVerified? || q.pc.SetState?)
    ensures var t := Advance(s, rid, q, now);
      && RowsOk(t) && Grows(s, t)
      && rid in t.requests && t.requests == s.requests[rid := t.requests[rid]] && RequestOk(t, t.requests[rid])
  {
    var id := q.id;
    if id in s.rows { ChangedRowSound(s, q); }
    hide Sound, VerifiedBy, TargetOk;
    if q.pc.Expire? {
      if StateIn(s, id, {Active}) { PutOk(s, id, s.rows[id].(lifecycle := Expired)); }
    } else if q.pc.SetVerified? {
      PutOk(s, id, VerifiedBy(q, s.rows[id]));
    } else if StateIn(s, id, Sources(q.pc.to)) {
      PutOk(s, id, s.rows[id].(lifecycle := q.pc.to, evidenceNote := q.pc.note));
    }
  }

  lemma AdvanceKeeps(s: State, rid: nat, q: Request, now: Time)
    requires Inv(s) && rid in s.requests && s.requests[rid] == q && now <= s.latest
    ensures Inv(Advance(s, rid, q, now)) && Grows(s, Advance(s, rid, q, now))
  {
    var t := Advance(s, rid, q, now);
    match q.pc {
      case Read => ReadOk(s, rid, q, now);
      case Write(_, _) => EditOk(s, rid, q, now);
      case ReadBefore(_) => EditOk(s, rid, q, now);
      case Done(_) => EditOk(s, rid, q, now);
      case Expire => LifecycleOk(s, rid, q, now);
      case SetVerified => LifecycleOk(s, rid, q, now);
      case SetState(_, _) => LifecycleOk(s, rid, q, now);
    }
    if q.pc.Done? {
      assert t == s;
    } else {
      hide RequestOk, Advance, Sound;
      Preserved(s, t, rid, t.requests[rid]);
    }
  }

  lemma CreateKeeps(s: State, e: Event)
    requires Inv(s) && e.Create?
    ensures Inv(Next(s, e)) && Grows(s, Next(s, e))
  {
    TickKeeps(s, e.now);
    var t := Next(s, e);
    assert RowsOk(t);
    forall r | r in t.requests ensures RequestOk(t, t.requests[r]) { OthersKeep(s, t, s.requests[r]); }
  }

  lemma NextKeeps(s: State, e: Event)
    requires Inv(s)
    ensures Inv(Next(s, e)) && Grows(s, Next(s, e))
  {
    match e
    case Create(_, _, _) => CreateKeeps(s, e);
    case Arrive(rid, request) =>
      if rid !in s.requests && Fresh(request) { Preserved(s, With(s, rid, request), rid, request); }
    case Step(rid, now) =>
      if rid in s.requests {
        TickKeeps(s, now);
        hide Inv, Advance;
        AdvanceKeeps(Tick(s, now), rid, s.requests[rid], now);
      }
  }

  lemma {:induction false} RunKeeps(s: State, events: seq<Event>)
    requires Inv(s)
    ensures Inv(Exec(s, events)) && Grows(s, Exec(s, events))
  {
    if events != [] {
      hide Inv, Next;
      RunKeeps(s, events[..|events| - 1]);
      NextKeeps(Exec(s, events[..|events| - 1]), events[|events| - 1]);
    }
  }

  lemma Reachable(events: seq<Event>)
    ensures Inv(Exec(Init, events))
  {
    RunKeeps(Init, events);
  }
}
