/** What Update and Transition do when nothing runs in between: exactly when they succeed, and
    the row and audit record they leave. */
module ScenarioAlone {
  import opened Wrappers
  import opened Records
  import opened ScenarioMachine
  import opened ScenarioTheorems

  function Once(s: State, rid: nat): State { Next(s, Step(rid)) }

  function Thrice(s: State, rid: nat): State { Once(Once(Once(s, rid), rid), rid) }

  ghost predicate Asks(s: State, rid: nat, q: Request) { rid in s.requests && s.requests[rid] == q && q.pc == Read && q.id in s.rows }

  ghost predicate Ends(t: State, rid: nat, outcome: Outcome) { rid in t.requests && t.requests[rid].pc == Done(outcome) }

  // Nothing but the request has changed.
  ghost predicate Refused(s: State, t: State, rid: nat, outcome: Outcome) {
    Ends(t, rid, outcome) && t.rows == s.rows && t.history == s.history && t.audits == s.audits
  }

  // The row of q is now `after`, and one audit record says so.
  ghost predicate Succeeded(s: State, t: State, rid: nat, q: Request, after: Row) {
    && q.id in s.rows && Ends(t, rid, Committed)
    && t.rows == s.rows[q.id := after]
    && t.audits == s.audits + [Audit(rid, q.id, q.version, s.rows[q.id], after)]
  }

  lemma RefusedAtOnce(s: State, rid: nat, q: Request)
    requires Asks(s, rid, q) && Check(q, s.rows[q.id]).Some?
    ensures Refused(s, Thrice(s, rid), rid, Check(q, s.rows[q.id]).value)
  {
    hide Check, Wins, Applied;
    var s1 := Once(s, rid);
    assert s1 == With(s, rid, q.Now(Done(Check(q, s.rows[q.id]).value)));
    assert Once(s1, rid) == s1;
  }

  lemma AdmittedAtFirst(s: State, rid: nat, q: Request)
    requires Asks(s, rid, q) && Check(q, s.rows[q.id]).None?
    ensures var base, t := s.rows[q.id], Thrice(s, rid);
      if q.version == base.version && (q.Update? ==> Editable(base.state)) then Succeeded(s, t, rid, q, Applied(q, base, base))
      else Refused(s, t, rid, Lost)
  {
    var base := s.rows[q.id];
    assert SameDeed(q, base);
    hide Check, Applied, DeedOf;
    var s1 := Once(s, rid);
    assert s1 == With(s, rid, q.Now(Write(base)));
    var s2 := Once(s1, rid);
    if q.version == base.version && (q.Update? ==> Editable(base.state)) {
      assert Wins(s1, q.Now(Write(base)), base);
      assert s2.rows == s.rows[q.id := Applied(q, base, base)] && s2.audits == s.audits;
      assert rid in s2.requests && s2.requests[rid] == q.Now(Log(base));
    } else {
      assert !Wins(s1, q.Now(Write(base)), base);
      assert Once(s2, rid) == s2;
    }
  }

  // Neither the write nor the record depends on how far the request has come.
  ghost predicate SameDeed(q: Request, base: Row) {
    && Applied(q.Now(Write(base)), base, base) == Applied(q, base, base)
    && Applied(q.Now(Log(base)), base, base) == Applied(q, base, base)
  }

  /** A Transition that runs alone is judged by role, table, author and version, in this order;
      if it passes, the row moves, counts one version up and names the reviewer of a review. */
  lemma TransitionAlone(s: State, rid: nat, q: Request)
    requires Asks(s, rid, q) && q.Transition?
    ensures var row, t := s.rows[q.id], Thrice(s, rid);
      if q.to != Draft && !May(q.actor.role, q.to) then Refused(s, t, rid, Forbidden)
      else if !Edge(row.state, q.to) then Refused(s, t, rid, IllegalTransition)
      else if q.to in {Verified, Accepted} && q.actor.id == row.createdBy then Refused(s, t, rid, ReviewerConflict)
      else if q.version != row.version then Refused(s, t, rid, Lost)
      else Succeeded(s, t, rid, q, Row(row.processNodeId, row.content, q.to, row.version + 1, row.createdBy,
        if q.to in {Verified, Accepted} then Some(q.actor.id) else row.reviewedBy))
  {
    var row := s.rows[q.id];
    EdgesOfTheTable(row.state, q.to);
    hide CanTransition;
    if Check(q, row).Some? { RefusedAtOnce(s, rid, q); } else { AdmittedAtFirst(s, rid, q); }
    hide Refused, Succeeded, Thrice, Edge;
  }

  /** An Update that runs alone is judged by state, guideword and version; if it passes, the
      fields of the patch replace those of the row, which counts one version up. */
  lemma UpdateAlone(s: State, rid: nat, q: Request)
    requires Asks(s, rid, q) && q.Update?
    ensures var row, p, t := s.rows[q.id], q.patch, Thrice(s, rid);
      if row.state !in {Draft, Rework} then Refused(s, t, rid, NotEditable)
      else if p.guideword.Some? && p.guideword.value !in {"no", "more", "less", "reverse", "other"} then Refused(s, t, rid, BadGuideword)
      else if q.version != row.version then Refused(s, t, rid, Lost)
      else Succeeded(s, t, rid, q, Row(row.processNodeId, Content(
          if p.guideword.Some? then p.guideword.value else row.content.guideword,
          if p.parameter.Some? then p.parameter.value else row.content.parameter,
          if p.cause.Some? then p.cause.value else row.content.cause,
          if p.consequence.Some? then p.consequence.value else row.content.consequence,
          if p.likelihood.Some? then p.likelihood.value else row.content.likelihood,
          if p.severity.Some? then p.severity.value else row.content.severity),
        row.state, row.version + 1, row.createdBy, row.reviewedBy))
  {
    var row := s.rows[q.id];
    if Check(q, row).Some? { RefusedAtOnce(s, rid, q); } else { AdmittedAtFirst(s, rid, q); }
    hide Refused, Succeeded, Thrice;
  }

  /** A request for a scenario that does not exist is refused. */
  lemma UnknownScenario(s: State, rid: nat)
    requires rid in s.requests && s.requests[rid].pc == Read && s.requests[rid].id !in s.rows
    ensures Refused(s, Thrice(s, rid), rid, NotFound)
  {
    hide Check, Wins, Applied;
    var s1 := Once(s, rid);
    assert s1 == With(s, rid, s.requests[rid].Now(Done(NotFound)));
    assert Once(s1, rid) == s1;
  }
}
