/** What Confirm and Void do when nothing runs in between: exactly when they succeed, and what
    they leave behind. */
module EvaluationAlone {
  import opened Wrappers
  import opened CoverageStates
  import opened EvaluationStore
  import opened EvaluationMachine

  function Once(env: Env, s: State, rid: nat): State { Next(env, s, Step(rid)) }

  function Twice(env: Env, s: State, rid: nat): State { Once(env, Once(env, s, rid), rid) }

  // The audit record that a review appends.
  ghost predicate LogsChange(s: State, t: State, id: nat, actor: nat, action: Action, before: Row, after: Row) {
    && |t.audits| == |s.audits| + 1 && t.audits[..|s.audits|] == s.audits
    && var a := t.audits[|s.audits|];
       a.ReviewAudit? && a.id == id && a.actor == actor && a.action == action && a.before == before && a.after == after
  }

  ghost predicate Stands(s: State, rid: nat, id: nat, actor: nat, action: Action, pc: ReviewPc) {
    rid in s.requests && s.requests[rid] == if action.ConfirmAction? then Confirm(id, actor, pc) else Void(id, actor, pc)
  }

  // The states from which each action moves, and the row it leaves.
  predicate MayAct(action: Action, state: CoverageState) {
    if action.ConfirmAction? then state == Completed else state == Completed || state == Failed || state == Confirmed
  }

  function Acted(row: Row, action: Action, actor: nat): Row {
    if action.ConfirmAction? then row.(state := Confirmed, confirmedBy := Some(actor)) else row.(state := Voided)
  }

  lemma ActsAlone(env: Env, s: State, rid: nat, id: nat, actor: nat, action: Action, before: Row, readAt: nat)
    requires id in s.store.rows && Stands(s, rid, id, actor, action, Act(before, readAt))
    ensures var t, row := Once(env, s, rid), s.store.rows[id];
      && t.audits == s.audits
      && (!MayAct(action, row.state) ==> t.store == s.store && Stands(t, rid, id, actor, action, ReviewDone(Refused)))
      && (MayAct(action, row.state) ==>
            && t.store == s.store.(rows := s.store.rows[id := Acted(row, action, actor)])
            && exists actedAt :: Stands(t, rid, id, actor, action, ReloadRow(before, readAt, actedAt)))
  {
    hide TrailOf;
    var t := Once(env, s, rid);
    if MayAct(action, s.store.rows[id].state) {
      assert Stands(t, rid, id, actor, action, ReloadRow(before, readAt, t.requests[rid].review.actedAt));
    }
  }

  lemma ReportsAlone(env: Env, s: State, rid: nat, id: nat, actor: nat, action: Action, before: Row, readAt: nat, actedAt: nat)
    requires id in s.store.rows && Stands(s, rid, id, actor, action, ReloadRow(before, readAt, actedAt))
    ensures var t := Twice(env, s, rid);
      && t.store == s.store && LogsChange(s, t, id, actor, action, before, s.store.rows[id])
      && Stands(t, rid, id, actor, action, ReviewDone(ReviewOutcome.Acted(s.store.rows[id])))
  {
    hide TrailOf;
    var u := Once(env, s, rid);
    assert u.store == s.store && u.audits == s.audits && rid in u.requests;
    assert Stands(u, rid, id, actor, action, LogReview(before, s.store.rows[id], readAt, actedAt, u.requests[rid].review.reloadedAt));
  }

  // What the whole request comes to, given that it may act.
  ghost predicate Concluded(s: State, t: State, rid: nat, id: nat, actor: nat, action: Action) {
    id in s.store.rows
    && if MayAct(action, s.store.rows[id].state) then
         var after := Acted(s.store.rows[id], action, actor);
         && t.store == s.store.(rows := s.store.rows[id := after])
         && LogsChange(s, t, id, actor, action, s.store.rows[id], after)
         && Stands(t, rid, id, actor, action, ReviewDone(ReviewOutcome.Acted(after)))
       else t.store == s.store && t.audits == s.audits && Stands(t, rid, id, actor, action, ReviewDone(Refused))
  }

  lemma ConcludesAlone(env: Env, s: State, rid: nat, id: nat, actor: nat, action: Action, readAt: nat)
    requires id in s.store.rows && Stands(s, rid, id, actor, action, Act(s.store.rows[id], readAt))
    ensures Concluded(s, if MayAct(action, s.store.rows[id].state) then Twice(env, Once(env, s, rid), rid) else Once(env, s, rid),
      rid, id, actor, action)
  {
    ActsAlone(env, s, rid, id, actor, action, s.store.rows[id], readAt);
    hide Once, Twice, Stands;
    if MayAct(action, s.store.rows[id].state) {
      var t := Once(env, s, rid);
      var actedAt :| Stands(t, rid, id, actor, action, ReloadRow(s.store.rows[id], readAt, actedAt));
      ReportsAlone(env, t, rid, id, actor, action, s.store.rows[id], readAt, actedAt);
    }
  }

  /** A Void that runs alone succeeds exactly on a completed, failed or confirmed row, leaves it
      voided and otherwise unchanged, and logs both rows. */
  lemma VoidAlone(env: Env, s: State, rid: nat, id: nat, actor: nat)
    requires rid !in s.requests
    ensures var u := Once(env, Next(env, s, Arrive(rid, CallVoid(id, actor))), rid);
      if id !in s.store.rows then u.store == s.store && Stands(u, rid, id, actor, VoidAction, ReviewDone(RowMissing))
      else Concluded(s, if MayAct(VoidAction, s.store.rows[id].state) then Twice(env, Once(env, u, rid), rid) else Once(env, u, rid),
        rid, id, actor, VoidAction)
  {
    hide TrailOf;
    var s1 := Next(env, s, Arrive(rid, CallVoid(id, actor)));
    assert s1 == With(s, rid, Void(id, actor, Read));
    var u := Once(env, s1, rid);
    if id in s.store.rows {
      assert u.store == s.store && u.audits == s.audits && rid in u.requests;
      assert Stands(u, rid, id, actor, VoidAction, Act(s.store.rows[id], u.requests[rid].review.readAt));
      ConcludesAlone(env, u, rid, id, actor, VoidAction, u.requests[rid].review.readAt);
    }
  }

  /** A Confirm that runs alone succeeds exactly on a completed row whose scenario has another
      author, leaves it confirmed by its actor and otherwise unchanged, and logs both rows. */
  lemma ConfirmAlone(env: Env, s: State, rid: nat, id: nat, actor: nat)
    requires rid !in s.requests
    ensures var u := Once(env, Next(env, s, Arrive(rid, CallConfirm(id, actor))), rid);
      if id !in s.store.rows then u.store == s.store && Stands(u, rid, id, actor, ConfirmAction, ReviewDone(RowMissing))
      else
        var v, row := Once(env, u, rid), s.store.rows[id];
        if env.author(row.scenarioId) == actor then v.store == s.store && Stands(v, rid, id, actor, ConfirmAction, ReviewDone(SameAuthor))
        else Concluded(s, if MayAct(ConfirmAction, row.state) then Twice(env, Once(env, v, rid), rid) else Once(env, v, rid),
          rid, id, actor, ConfirmAction)
  {
    hide TrailOf;
    var s1 := Next(env, s, Arrive(rid, CallConfirm(id, actor)));
    assert s1 == With(s, rid, Confirm(id, actor, Read));
    var u := Once(env, s1, rid);
    if id in s.store.rows {
      var row := s.store.rows[id];
      assert u.store == s.store && u.audits == s.audits && rid in u.requests;
      var readAt := u.requests[rid].review.readAt;
      assert Stands(u, rid, id, actor, ConfirmAction, ReadAuthor(row, readAt));
      var v := Once(env, u, rid);
      assert v.store == s.store && v.audits == s.audits;
      if env.author(row.scenarioId) != actor {
        assert Stands(v, rid, id, actor, ConfirmAction, Act(row, readAt));
        ConcludesAlone(env, v, rid, id, actor, ConfirmAction, readAt);
      }
    }
  }
}
