/** Scenarios over every run: one chain of versions, no lost update, and a review that
    covers exactly the content that was analysed. */
module ScenarioTheorems {
  import opened Wrappers
  import opened Records
  import opened ScenarioMachine
  import opened ScenarioInvariants

  lemma HistoryKnown(events: seq<Event>, id: nat)
    requires id in Exec(Init, events).rows
    ensures var s := Exec(Init, events);
      id in s.history && ChainOk(s.history[id]) && Last(s.history[id]).row == s.rows[id]
  {
    Reachable(events);
    hide ChainOk, RequestOk, AuditOk;
    var s := Exec(Init, events);
    assert RowOk(s.rows[id], s.history[id]);
  }

  // The six moves of a scenario, and who may make them.
  predicate Edge(from: ScenarioState, to: ScenarioState) {
    (from, to) in {(Draft, Analyzed), (Analyzed, Verified), (Analyzed, Rework), (Verified, Accepted), (Verified, Rework), (Rework, Analyzed)}
  }

  predicate May(role: Role, to: ScenarioState) {
    (to == Analyzed && role in {Admin, ProcessEngineer}) || (to != Analyzed && role in {Admin, SafetyReviewer})
  }

  lemma EdgesOfTheTable(from: ScenarioState, to: ScenarioState)
    ensures CanTransition(from, to) <==> Edge(from, to)
  {
  }

  lemma RolesOfTheMoves(role: Role, to: ScenarioState)
    ensures to != Draft ==> (RoleAllows(role, to) <==> May(role, to))
  {
  }

  /** The committed rows carry the versions 1, 2, 3, ...; the stored row is the last of
      them; the author never changes; and each step is an edit of an editable row or an edge
      of the transition table taken from the state stored at commit time. */
  lemma VersionsFormAChain(events: seq<Event>, id: nat, i: nat)
    requires id in Exec(Init, events).rows
    ensures var s := Exec(Init, events);
      && id in s.history
      && var h := s.history[id];
         && s.rows[id] == Last(h).row && s.rows[id].version == |h|
         && (i < |h| ==> h[i].row.version == i + 1 && h[i].row.createdBy == h[0].actor.id)
         && (0 < i < |h| ==>
               if h[i].deed.Edit? then h[i].row.state == h[i - 1].row.state && h[i].row.state in {Draft, Rework}
               else h[i].deed == Move(h[i].row.state) && Edge(h[i - 1].row.state, h[i].row.state)
                    && h[i].row.content == h[i - 1].row.content && May(h[i].actor.role, h[i].row.state)
                    && (h[i].row.state in {Verified, Accepted} ==> h[i].actor.id != h[0].actor.id))
  {
    HistoryKnown(events, id);
    var h := Exec(Init, events).history[id];
    assert CommitOk(h, |h| - 1);
    if 0 < i < |h| {
      var from, to := h[i - 1].row.state, h[i].row.state;
      EdgesOfTheTable(from, to);
      RolesOfTheMoves(h[i].actor.role, to);
      assert Edge(from, to) ==> to != Draft;
      hide Edge, May, CanTransition, RoleAllows;
      assert CommitOk(h, i) && CommitOk(h, i - 1);
    } else if i < |h| {
      assert CommitOk(h, i);
    }
  }

  /** Acceptance is final: no version follows an accepted one. */
  lemma AcceptedIsFinal(events: seq<Event>, id: nat, i: nat)
    requires id in Exec(Init, events).rows
    ensures var s := Exec(Init, events);
      && id in s.history
      && (i < |s.history[id]| && s.history[id][i].row.state == Accepted ==>
            i == |s.history[id]| - 1 && s.rows[id] == s.history[id][i].row)
  {
    HistoryKnown(events, id);
    var h := Exec(Init, events).history[id];
    if i + 1 < |h| { VersionsFormAChain(events, id, i + 1); }
  }

  // Committed versions are never rewritten.
  lemma {:induction false} HistoryOnlyGrows(s: State, events: seq<Event>)
    requires Inv(s)
    ensures Inv(Exec(s, events)) && Grows(s, Exec(s, events))
  {
    if events != [] {
      hide Inv, Next;
      var n := |events| - 1;
      HistoryOnlyGrows(s, events[..n]);
      NextKeeps(Exec(s, events[..n]), events[n]);
    }
  }

  /** A request that reports success has committed version q.version + 1 itself, with its own
      patch or its own move, and has left an audit record of it ... */
  lemma SuccessIsACommit(events: seq<Event>, rid: nat)
    ensures var s := Exec(Init, events);
      rid in s.requests && s.requests[rid].pc == Done(Committed) ==>
        && s.requests[rid].id in s.history && Won(s.history[s.requests[rid].id], rid, s.requests[rid])
        && exists a | a in s.audits :: Logs(a, rid, s.requests[rid])
  {
    Reachable(events);
    hide RowsOk, AuditOk;
    var s := Exec(Init, events);
    if rid in s.requests { assert RequestOk(s, rid, s.requests[rid]); }
  }

  // ... so of all requests for one version of one scenario at most one succeeds.
  lemma OneWinnerPerVersion(events: seq<Event>, r1: nat, r2: nat)
    requires var s := Exec(Init, events);
      && r1 in s.requests && s.requests[r1].pc == Done(Committed)
      && r2 in s.requests && s.requests[r2].pc == Done(Committed)
      && s.requests[r1].id == s.requests[r2].id && s.requests[r1].version == s.requests[r2].version
    ensures r1 == r2
  {
    SuccessIsACommit(events, r1);
    SuccessIsACommit(events, r2);
  }

  // A patch that sets every field does not depend on what the service has read.
  predicate Full(p: Patch) {
    p.guideword.Some? && p.parameter.Some? && p.cause.Some? && p.consequence.Some? && p.likelihood.Some? && p.severity.Some?
  }

  /** No lost update: when the version the request carried was already stored when the
      service read the row, or the patch sets every field, the committed content is the patch
      applied to the content of exactly that version. The guard makes i the requested
      version. */
  lemma NoLostUpdate(events: seq<Event>, id: nat, i: nat)
    requires var s := Exec(Init, events);
      && id in s.rows && id in s.history && 0 < i < |s.history[id]|
      && s.history[id][i].deed.Edit? && (i <= s.history[id][i].deed.base.version || Full(s.history[id][i].deed.patch))
    ensures var h := Exec(Init, events).history[id];
      && (i <= h[i].deed.base.version ==> h[i].deed.base == h[i - 1].row)
      && h[i].row == h[i - 1].row.(content := Overlay(h[i - 1].row.content, h[i].deed.patch), version := i + 1)
  {
    HistoryKnown(events, id);
    assert CommitOk(Exec(Init, events).history[id], i);
    assert CommitOk(Exec(Init, events).history[id], i - 1);
  }

  /** Under the same condition an audit record shows two successive committed rows. */
  lemma AuditShowsCommit(events: seq<Event>, a: Audit)
    requires a in Exec(Init, events).audits
    ensures var s := Exec(Init, events);
      && a.id in s.history && 1 <= a.version < |s.history[a.id]| && s.history[a.id][a.version].rid == a.rid
      && (a.version <= a.before.version ==>
            s.history[a.id][a.version - 1].row == a.before && s.history[a.id][a.version].row == a.after)
  {
    Reachable(events);
    hide RowsOk, RequestOk;
    assert AuditOk(Exec(Init, events), a);
  }

  /** Acceptance: the last three commits of an accepted scenario are its analysis, by an
      engineer or admin, its verification and its acceptance, by reviewers or admins other
      than the author, and all three show the same content. */
  lemma AcceptedIsWhatWasAnalyzed(events: seq<Event>, id: nat)
    requires id in Exec(Init, events).rows && Exec(Init, events).rows[id].state == Accepted
    ensures var s := Exec(Init, events);
      && id in s.history && |s.history[id]| >= 4
      && var h := s.history[id];
         var analysis, verification, acceptance := h[|h| - 3], h[|h| - 2], h[|h| - 1];
         && analysis.deed == Move(Analyzed) && verification.deed == Move(Verified) && acceptance.deed == Move(Accepted)
         && s.rows[id].content == acceptance.row.content == verification.row.content == analysis.row.content
         && analysis.actor.role in {Admin, ProcessEngineer}
         && verification.actor.role in {Admin, SafetyReviewer} && verification.actor.id != s.rows[id].createdBy
         && acceptance.actor.role in {Admin, SafetyReviewer} && acceptance.actor.id != s.rows[id].createdBy
         && s.rows[id].reviewedBy == Some(acceptance.actor.id)
  {
    HistoryKnown(events, id);
    var h := Exec(Init, events).history[id];
    var n := |h| - 1;
    assert CommitOk(h, n);
    if n >= 1 { assert CommitOk(h, n - 1); }
    if n >= 2 { assert CommitOk(h, n - 2); }
  }

  // ----- the condition of NoLostUpdate is needed

  function CallUpdate(id: nat, version: int, patch: Patch, actor: Actor): Request { Update(id, patch, version, actor, Read) }

  // k times the same update by other requests, each for the version then stored.
  function Updates(id: nat, version: int, first: nat, patch: Patch, actor: Actor, k: nat): seq<Event> {
    if k == 0 then []
    else
      var r := first + k - 1;
      Updates(id, version, first, patch, actor, k - 1)
      + [Arrive(r, CallUpdate(id, version + k - 1, patch, actor)), Step(r), Step(r)]
  }

  lemma ExecOne(s: State, events: seq<Event>, e: Event)
    ensures Exec(s, events + [e]) == Next(Exec(s, events), e)
  {
    assert (events + [e])[..|events|] == events;
  }

  lemma ExecThree(s: State, events: seq<Event>, a: Event, b: Event, c: Event)
    ensures Exec(s, events + [a, b, c]) == Next(Next(Next(Exec(s, events), a), b), c)
  {
    hide Next;
    ExecOne(s, events, a);
    ExecOne(s, events + [a], b);
    ExecOne(s, events + [a] + [b], c);
    assert events + [a] + [b] + [c] == events + [a, b, c];
  }

  // What such updates leave behind.
  ghost predicate Updated(s: State, t: State, id: nat, first: nat, patch: Patch, k: nat) {
    && id in s.rows && id in t.rows && t.rows[id].version == s.rows[id].version + k && t.rows[id].state == s.rows[id].state
    && t.rows[id].content == (if k == 0 then s.rows[id].content else Overlay(s.rows[id].content, patch))
    && (forall r | r in t.requests :: r in s.requests || r < first + k)
    && (forall q | q in s.requests :: q in t.requests && t.requests[q] == s.requests[q])
  }

  lemma OneUpdate(s: State, id: nat, r: nat, patch: Patch, version: int, actor: Actor)
    requires id in s.rows && Editable(s.rows[id].state) && s.rows[id].version == version && r !in s.requests
    requires patch.guideword.Some? ==> ValidGuideword(patch.guideword.value)
    ensures Updated(s, Next(Next(Next(s, Arrive(r, CallUpdate(id, version, patch, actor))), Step(r)), Step(r)), id, r, patch, 1)
  {
    var q := CallUpdate(id, version, patch, actor);
    var s1 := Next(s, Arrive(r, q));
    assert s1 == With(s, r, q);
    var base := s.rows[id];
    var s2 := Next(s1, Step(r));
    assert s2 == With(s1, r, Update(id, patch, version, actor, Write(base)));
    var s3 := Next(s2, Step(r));
    assert s3.requests == s2.requests[r := Update(id, patch, version, actor, Log(base))];
    assert s3.rows == s2.rows[id := Edited(base, base, patch, version)];
  }

  lemma UpdatedAgain(s: State, t: State, u: State, id: nat, first: nat, patch: Patch, k: nat)
    requires Updated(s, t, id, first, patch, k) && Updated(t, u, id, first + k, patch, 1)
    ensures Updated(s, u, id, first, patch, k + 1)
  {
    assert k > 0 ==> Overlay(t.rows[id].content, patch) == t.rows[id].content;
  }

  lemma {:induction false} UpdatesRun(s: State, id: nat, first: nat, patch: Patch, actor: Actor, k: nat)
    requires id in s.rows && Editable(s.rows[id].state)
    requires forall r | r in s.requests :: r < first
    requires patch.guideword.Some? ==> ValidGuideword(patch.guideword.value)
    ensures Updated(s, Exec(s, Updates(id, s.rows[id].version, first, patch, actor, k)), id, first, patch, k)
  {
    hide Next;
    if k > 0 {
      hide Exec, CallUpdate, Overlay;
      var version, r := s.rows[id].version, first + k - 1;
      var before := Updates(id, version, first, patch, actor, k - 1);
      var t := Exec(s, before);
      UpdatesRun(s, id, first, patch, actor, k - 1);
      assert t.rows[id].version == version + k - 1 && r !in t.requests && Editable(t.rows[id].state);
      OneUpdate(t, id, r, patch, version + k - 1, actor);
      ExecThree(s, before, Arrive(r, CallUpdate(id, version + k - 1, patch, actor)), Step(r), Step(r));
      var u := Exec(s, Updates(id, version, first, patch, actor, k));
      assert Updated(t, u, id, r, patch, 1);
      hide Updates, Updated;
      UpdatedAgain(s, t, u, id, first, patch, k - 1);
    }
  }

  // The binding rules of an update request.
  predicate Bound(p: Patch) {
    && (p.guideword.Some? ==> ValidGuideword(p.guideword.value))
    && (p.parameter.Some? ==> 1 <= |p.parameter.value| <= 120)
    && (p.cause.Some? ==> 3 <= |p.cause.value| <= 4000)
    && (p.consequence.Some? ==> 3 <= |p.consequence.value| <= 4000)
    && (p.likelihood.Some? ==> 1 <= p.likelihood.value <= 5)
    && (p.severity.Some? ==> 1 <= p.severity.value <= 5)
  }

  // An update of one field that p leaves alone, to an admissible value other than c's.
  function Disjoint(c: Content, p: Patch): (other: Patch)
    requires !Full(p)
    ensures Bound(other)
    ensures Overlay(Overlay(c, other), p) != Overlay(c, p)
  {
    var none := Patch(None, None, None, None, None, None);
    if p.guideword.None? then none.(guideword := Some(if c.guideword == "more" then "less" else "more"))
    else if p.parameter.None? then none.(parameter := Some(if c.parameter == "flow" then "level" else "flow"))
    else if p.cause.None? then none.(cause := Some(if c.cause == "leak" then "blockage" else "leak"))
    else if p.consequence.None? then none.(consequence := Some(if c.consequence == "fire" then "overflow" else "fire"))
    else if p.likelihood.None? then none.(likelihood := Some(if c.likelihood == 1 then 2 else 1))
    else none.(severity := Some(if c.severity == 1 then 2 else 1))
  }

  ghost predicate OnlyBoundUpdates(events: seq<Event>) {
    forall e | e in events && e.Arrive? :: e.request.Update? && Bound(e.request.patch)
  }

  lemma {:induction false} UpdatesAreBound(id: nat, version: int, first: nat, patch: Patch, actor: Actor, k: nat)
    requires Bound(patch)
    ensures OnlyBoundUpdates(Updates(id, version, first, patch, actor, k))
  {
    hide Bound;
    if k > 0 { UpdatesAreBound(id, version, first, patch, actor, k - 1); }
  }

  /** Otherwise, whatever the patch, there is a schedule in which the request commits over a
      version it has never seen and undoes the updates of other requests, although none of
      them reports a conflict. */
  lemma FutureVersionLosesUpdate(s: State, rid: nat, first: nat, other: Actor) returns (events: seq<Event>)
    requires rid in s.requests && s.requests[rid].Update? && s.requests[rid].pc.Write?
    requires var q := s.requests[rid];
      && q.id in s.rows && s.rows[q.id] == q.pc.base && Editable(q.pc.base.state)
      && q.version > q.pc.base.version && !Full(q.patch)
    requires forall r | r in s.requests :: r < first
    ensures OnlyBoundUpdates(events)
    ensures var q, t, u := s.requests[rid], Exec(s, events), Exec(s, events + [Step(rid)]);
      && q.id in t.rows && t.rows[q.id].version == q.version
      && q.id in u.rows && u.rows[q.id].version == q.version + 1 && rid in u.requests && u.requests[rid].pc.Log?
      && u.rows[q.id].content == Overlay(s.rows[q.id].content, q.patch) != Overlay(t.rows[q.id].content, q.patch)
  {
    var q := s.requests[rid];
    var k, patch := q.version - q.pc.base.version, Disjoint(s.rows[q.id].content, q.patch);
    events := Updates(q.id, q.pc.base.version, first, patch, other, k);
    UpdatesRun(s, q.id, first, patch, other, k);
    UpdatesAreBound(q.id, q.pc.base.version, first, patch, other, k);
    ExecOne(s, events, Step(rid));
    WriteWins(Exec(s, events), rid);
  }

  lemma WriteWins(t: State, rid: nat)
    requires rid in t.requests && t.requests[rid].Update? && t.requests[rid].pc.Write?
    requires UpdateMatches(t, t.requests[rid].id, t.requests[rid].version)
    ensures var q, u := t.requests[rid], Next(t, Step(rid));
      && q.id in u.rows && u.rows[q.id] == Edited(t.rows[q.id], q.pc.base, q.patch, q.version)
      && rid in u.requests && u.requests[rid].pc.Log?
  {
  }
}
