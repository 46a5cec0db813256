/** What every step of the scenario machine keeps. */
module ScenarioInvariants {
  import opened Records
  import opened ScenarioMachine

  // ----- the committed rows of one scenario

  // c is a legal successor of the row prev: an edit of an editable row or an edge of the
  // table by someone allowed to take it.
  ghost predicate Follows(prev: Row, c: Commit) {
    match c.deed
    case Created => false
    case Edit(patch, base) => Editable(prev.state) && c.row == Edited(prev, base, patch, prev.version)
    case Move(to) =>
      && CanTransition(prev.state, to) && RoleAllows(c.actor.role, to)
      && (IsReview(to) ==> prev.createdBy != c.actor.id)
      && c.row == Moved(prev, to, prev.version, c.actor.id)
  }

  // base was once the committed row of its own version.
  ghost predicate Historic(h: History, base: Row) {
    1 <= base.version <= |h| && h[base.version - 1].row == base
  }

  ghost predicate CommitOk(h: History, i: nat)
    requires i < |h|
  {
    && h[i].row.version == i + 1
    && h[i].row.createdBy == h[0].row.createdBy
    && (i > 0 ==> Follows(h[i - 1].row, h[i]))
    && (h[i].deed.Edit? ==> h[i].deed.base.version <= i && Historic(h, h[i].deed.base) && Editable(h[i].deed.base.state))
  }

  ghost predicate ChainOk(h: History) {
    && h[0].deed == Created && h[0].row.state == Draft && h[0].row.createdBy == h[0].actor.id
    && forall i | 0 <= i < |h| :: CommitOk(h, i)
  }

  lemma ChainExtended(h: History, c: Commit)
    requires ChainOk(h) && Follows(Last(h).row, c)
    requires c.deed.Edit? ==> Historic(h, c.deed.base) && Editable(c.deed.base.state)
    ensures ChainOk(h + [c])
  {
    var g := h + [c];
    assert CommitOk(h, |h| - 1);
    forall i | 0 <= i < |g| ensures CommitOk(g, i) {
      if i < |h| { assert CommitOk(h, i); }
    }
  }

  // ----- requests and audits

  // The request committed version q.version + 1.
  ghost predicate Won(h: History, rid: nat, q: Request) {
    && 1 <= q.version < |h|
    && h[q.version].rid == rid && h[q.version].actor == q.actor
    && match q
       case Update(_, patch, _, _, _) => h[q.version].deed.Edit? && h[q.version].deed.patch == patch
       case Transition(_, to, _, _, _) => h[q.version].deed == Move(to)
  }

  // What it read, and so what it logs, is older than what it committed.
  ghost predicate WonFrom(h: History, rid: nat, q: Request, base: Row) {
    && Won(h, rid, q) && Historic(h, base) && base.version <= q.version
    && h[q.version].row == Applied(q, h[q.version - 1].row, base)
    && (q.Update? ==> h[q.version].deed.base == base)
  }

  ghost predicate RequestOk(s: State, rid: nat, q: Request) {
    match q.pc
    case Read => true
    case Write(base) => q.id in s.history && Historic(s.history[q.id], base) && Check(q, base).None?
    case Log(base) => q.id in s.history && WonFrom(s.history[q.id], rid, q, base)
    case Done(outcome) => outcome == Committed ==>
      q.id in s.history && Won(s.history[q.id], rid, q) && exists a | a in s.audits :: Logs(a, rid, q)
  }

  predicate Logs(a: Audit, rid: nat, q: Request) { a.rid == rid && a.id == q.id && a.version == q.version }

  ghost predicate AuditOk(s: State, a: Audit) {
    && a.id in s.history
    && var h := s.history[a.id];
       && 1 <= a.version < |h| && h[a.version].rid == a.rid
       && Historic(h, a.before) && a.before.version <= a.version
       && (a.before.version == a.version ==> h[a.version - 1].row == a.before && h[a.version].row == a.after)
  }

  ghost predicate RowsOk(s: State) {
    && s.rows.Keys == s.history.Keys
    && (forall id | id in s.rows :: id < s.nextId)
    && (forall id | id in s.rows :: RowOk(s.rows[id], s.history[id]))
  }

  ghost predicate RowOk(row: Row, h: History) { ChainOk(h) && Last(h).row == row }

  ghost predicate Inv(s: State) {
    && RowsOk(s)
    && (forall rid | rid in s.requests :: RequestOk(s, rid, s.requests[rid]))
    && (forall a | a in s.audits :: AuditOk(s, a))
  }

  // ----- growth

  ghost predicate Grows(s: State, t: State) {
    && (forall a | a in s.audits :: a in t.audits)
    && forall id | id in s.history :: id in t.history && s.history[id] <= t.history[id]
  }

  lemma OthersKeep(s: State, t: State, rid: nat, q: Request)
    requires RequestOk(s, rid, q) && Grows(s, t)
    ensures RequestOk(t, rid, q)
  {
  }

  lemma AuditsKeep(s: State, t: State, a: Audit)
    requires AuditOk(s, a) && Grows(s, t)
    ensures AuditOk(t, a)
  {
  }

  lemma Preserved(s: State, t: State, rid: nat, q: Request)
    requires Inv(s) && RowsOk(t) && Grows(s, t)
    requires t.requests == s.requests[rid := q] && RequestOk(t, rid, q)
    requires t.audits == s.audits || exists a :: t.audits == s.audits + [a] && AuditOk(t, a)
    ensures Inv(t)
  {
    hide RequestOk, AuditOk, RowsOk, Grows;
    forall r | r in t.requests ensures RequestOk(t, r, t.requests[r]) {
      if r != rid { OthersKeep(s, t, r, s.requests[r]); }
    }
    forall a | a in t.audits ensures AuditOk(t, a) {
      if a in s.audits { AuditsKeep(s, t, a); }
    }
  }

  // ----- the steps

  lemma ReadKeeps(s: State, rid: nat, q: Request)
    requires Inv(s) && q.pc == Read
    ensures Inv(Advance(s, rid, q)) && Grows(s, Advance(s, rid, q))
  {
    var t := Advance(s, rid, q);
    ReadOk(s, rid, q);
    hide RequestOk, AuditOk, RowOk;
    Preserved(s, t, rid, t.requests[rid]);
  }

  lemma ReadOk(s: State, rid: nat, q: Request)
    requires RowsOk(s) && q.pc == Read
    ensures var t := Advance(s, rid, q);
      && rid in t.requests && t == With(s, rid, t.requests[rid]) && RequestOk(t, rid, t.requests[rid])
  {
    if q.id in s.rows {
      assert RowOk(s.rows[q.id], s.history[q.id]);
      assert CommitOk(s.history[q.id], |s.history[q.id]| - 1);
    }
  }

  lemma LoseKeeps(s: State, rid: nat, q: Request)
    requires Inv(s) && q.pc.Write? && !Wins(s, q, q.pc.base)
    ensures Inv(Advance(s, rid, q)) && Grows(s, Advance(s, rid, q))
  {
    hide AuditOk, RowOk;
    Preserved(s, Advance(s, rid, q), rid, q.(pc := Done(Lost)));
  }

  // Although checked on an earlier read, the write is legal for the row it replaces.
  lemma WinFollows(s: State, rid: nat, q: Request, h: History)
    requires q.pc.Write? && Wins(s, q, q.pc.base)
    requires q.id in s.history && h == s.history[q.id] && ChainOk(h) && Last(h).row == s.rows[q.id]
    requires RequestOk(s, rid, q)
    ensures var c := Commit(Applied(q, s.rows[q.id], q.pc.base), rid, q.actor, DeedOf(q, q.pc.base));
      && ChainOk(h + [c]) && |h| == q.version
      && WonFrom(h + [c], rid, q.(pc := Log(q.pc.base)), q.pc.base)
  {
    var base := q.pc.base;
    var c := Commit(Applied(q, s.rows[q.id], base), rid, q.actor, DeedOf(q, base));
    assert CommitOk(h, |h| - 1) && CommitOk(h, base.version - 1);
    ChainExtended(h, c);
  }

  lemma PutOk(s: State, id: nat, c: Commit)
    requires RowsOk(s) && id in s.rows && ChainOk(s.history[id] + [c])
    ensures RowsOk(Put(s, id, c)) && Grows(s, Put(s, id, c))
  {
    hide ChainOk;
  }

  // What a write that wins leaves behind.
  lemma WinWrites(s: State, rid: nat, q: Request)
    requires q.pc.Write? && q.id in s.rows && Wins(s, q, q.pc.base)
    ensures Advance(s, rid, q) == With(
      Put(s, q.id, Commit(Applied(q, s.rows[q.id], q.pc.base), rid, q.actor, DeedOf(q, q.pc.base))), rid, q.(pc := Log(q.pc.base)))
  {
    hide Applied, DeedOf, Wins, Put;
  }

  lemma WithOk(s: State, rid: nat, q: Request)
    requires RowsOk(s)
    ensures RowsOk(With(s, rid, q)) && Grows(s, With(s, rid, q))
  {
    hide RowOk;
  }

  lemma WinOk(s: State, rid: nat, q: Request)
    requires RowsOk(s) && RequestOk(s, rid, q) && q.pc.Write? && Wins(s, q, q.pc.base)
    ensures var t := Advance(s, rid, q);
      && RowsOk(t) && Grows(s, t) && RequestOk(t, rid, q.(pc := Log(q.pc.base)))
      && t.requests == s.requests[rid := q.(pc := Log(q.pc.base))] && t.audits == s.audits
  {
    var base := q.pc.base;
    var c := Commit(Applied(q, s.rows[q.id], base), rid, q.actor, DeedOf(q, base));
    assert RowOk(s.rows[q.id], s.history[q.id]);
    WinFollows(s, rid, q, s.history[q.id]);
    WinWrites(s, rid, q);
    hide Applied, DeedOf, Wins, RequestOk, RowOk, ChainOk, WonFrom, RowsOk, Advance, Historic, Check;
    PutOk(s, q.id, c);
    WithOk(Put(s, q.id, c), rid, q.(pc := Log(base)));
    LogOk(s, Advance(s, rid, q), rid, q, s.history[q.id] + [c]);
  }

  lemma WinKeeps(s: State, rid: nat, q: Request)
    requires Inv(s) && RequestOk(s, rid, q) && q.pc.Write? && Wins(s, q, q.pc.base)
    ensures Inv(Advance(s, rid, q)) && Grows(s, Advance(s, rid, q))
  {
    hide RequestOk, AuditOk, RowOk, Wins, Advance;
    WinOk(s, rid, q);
    Preserved(s, Advance(s, rid, q), rid, q.(pc := Log(q.pc.base)));
  }

  lemma LogOk(s: State, t: State, rid: nat, q: Request, h: History)
    requires q.pc.Write? && q.id in t.history && t.history[q.id] == h
    requires WonFrom(h, rid, q.(pc := Log(q.pc.base)), q.pc.base)
    ensures RequestOk(t, rid, q.(pc := Log(q.pc.base)))
  {
    hide WonFrom;
  }

  lemma LogKeeps(s: State, rid: nat, q: Request)
    requires Inv(s) && RequestOk(s, rid, q) && q.pc.Log?
    ensures Inv(Advance(s, rid, q)) && Grows(s, Advance(s, rid, q))
  {
    var t := Advance(s, rid, q);
    LoggedOk(s, rid, q);
    hide RequestOk, AuditOk, RowOk;
    assert t.audits == s.audits + [t.audits[|s.audits|]];
    Preserved(s, t, rid, q.(pc := Done(Committed)));
  }

  lemma LoggedOk(s: State, rid: nat, q: Request)
    requires RequestOk(s, rid, q) && q.pc.Log?
    ensures var t := Advance(s, rid, q);
      AuditOk(t, t.audits[|s.audits|]) && RequestOk(t, rid, q.(pc := Done(Committed)))
  {
    var a := Advance(s, rid, q).audits[|s.audits|];
    assert a in Advance(s, rid, q).audits && Logs(a, rid, q);
  }

  lemma CreateKeeps(s: State, e: Event)
    requires Inv(s) && e.Create?
    ensures Inv(Next(s, e)) && Grows(s, Next(s, e))
  {
    var t := Next(s, e);
    CreatedOk(s, e);
    hide RequestOk, AuditOk, RowsOk, Grows;
    forall r | r in t.requests ensures RequestOk(t, r, t.requests[r]) { OthersKeep(s, t, r, s.requests[r]); }
    forall a | a in t.audits ensures AuditOk(t, a) { AuditsKeep(s, t, a); }
  }

  lemma CreatedOk(s: State, e: Event)
    requires RowsOk(s) && e.Create?
    ensures RowsOk(Next(s, e)) && Grows(s, Next(s, e))
  {
    var c := Commit(NewScenario(e.processNodeId, e.content, e.actor.id), e.rid, e.actor, Created);
    assert ChainOk([c]) by { assert CommitOk([c], 0); }
    hide ChainOk;
  }

  lemma NextKeeps(s: State, e: Event)
    requires Inv(s)
    ensures Inv(Next(s, e)) && Grows(s, Next(s, e))
  {
    match e
    case Create(_, _, _, _, _) => CreateKeeps(s, e);
    case Arrive(rid, request) =>
      if rid !in s.requests && request.pc == Read {
        hide AuditOk, RowOk;
        Preserved(s, With(s, rid, request), rid, request);
      }
    case Step(rid) =>
      if rid in s.requests {
        var q := s.requests[rid];
        assert RequestOk(s, rid, q);
        hide Inv, RequestOk, Grows, Wins;
        StepKeeps(s, rid, q);
      }
  }

  lemma StepKeeps(s: State, rid: nat, q: Request)
    requires Inv(s) && RequestOk(s, rid, q)
    requires rid in s.requests && s.requests[rid] == q
    ensures Inv(Advance(s, rid, q)) && Grows(s, Advance(s, rid, q))
  {
    hide Inv, RequestOk, Wins;
    match q.pc
    case Read => ReadKeeps(s, rid, q);
    case Write(base) => if Wins(s, q, base) { WinKeeps(s, rid, q); } else { LoseKeeps(s, rid, q); }
    case Log(_) => LogKeeps(s, rid, q);
    case Done(_) =>
  }

  lemma {:induction false} Reachable(events: seq<Event>)
    ensures Inv(Exec(Init, events))
  {
    hide Next;
    if events != [] {
      hide Inv;
      Reachable(events[..|events| - 1]);
      NextKeeps(Exec(Init, events[..|events| - 1]), events[|events| - 1]);
    }
  }
}
