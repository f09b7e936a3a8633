/**
 What each step of an automation consent does, exactly, from the answer
 of its owner to the call that uses its approval.
 */
module ActivationAnswers {
  import opened Wrappers
  import A = Approvals
  import C = Coordinator
  import S = CoordinatorSafety
  import L = LedgerRuns
  import opened Activation

  /** The expiry that is asked for is a day ahead, by whichever of the two clock readings is earlier. */
  lemma ExpiryIsADayAhead(wall1: real, wall2: real)
    ensures Expiry(wall1, wall2) == 86400.0 + if wall1 <= wall2 then wall1 else wall2
  {
  }

  /** A thread goes on with an automation exactly when its consent was approved while pending and before its expiry. */
  lemma AnsweredExactly(m: Manager, id: nat, approve: bool, now: real)
    ensures var q := Step(m, Answered(id, approve, now));
      && q.world == m.world
      && q.tasks ==
         if approve && id in m.coord.records && S.Open(m.coord.records[id], now)
         then m.tasks[id := Task(m.coord.records[id].(state := C.Approved), Fresh)]
         else m.tasks
  {
    S.DecideExactly(m.coord, id, approve, now);
  }

  /** The approval issued for a consent is for exactly its binding and person, and lives thirty seconds. */
  lemma IssuedExactly(m: Manager, id: nat, now: real)
    requires id in m.tasks && m.tasks[id].stage == Fresh
    ensures var q, r, a := Step(m, IssueFor(id, now)), m.tasks[id].record, m.world.store.next;
      if 1 <= |r.caller| <= 256 && 1 <= |r.session| <= 256 then
        && q.tasks == m.tasks[id := Task(r, Issued(a))] && q.origin == m.origin[a := id]
        && q.world.store.records == m.world.store.records[a :=
             A.Approval(a, r.payload.binding, r.caller, r.session, now, now + 30.0, A.Issued, None)]
      else q.tasks == m.tasks[id := Task(r, Ended)] && q.world == m.world && q.origin == m.origin
  {
    var r := m.tasks[id].record;
    A.IssueIsExact(m.world.store, r.payload.binding, r.caller, r.session, 30.0, now);
  }

  /** Offering makes the thread's own approval available, in time, or ends the thread. */
  lemma OfferedExactly(m: Manager, id: nat, now: real)
    requires id in m.tasks && m.tasks[id].stage.Issued?
    ensures var q, s, a := Step(m, OfferFor(id, now)), m.world.store, m.tasks[id].stage.approval;
      if a in s.records && s.records[a].state == A.Issued && now < s.records[a].expiresAt then
        && q.tasks == m.tasks[id := Task(m.tasks[id].record, Offered(a))]
        && q.world.store == s.(records := s.records[a := s.records[a].(state := A.Available)])
      else q.tasks == m.tasks[id := Task(m.tasks[id].record, Ended)]
  {
    A.MakeAvailableIsExact(m.world.store, m.tasks[id].stage.approval, now);
  }

  /** The thread activates the job it fetched, for the person and expiry of its consent, on its own approval, once. */
  lemma ActivatesWithItsOwn(m: Manager, op: ManagerOp)
    requires op.ActivateFor? && op.id in m.tasks && m.tasks[op.id].stage.Offered?
    ensures var q, t, x := Step(m, op), m.tasks[op.id], InputFor(m.tasks[op.id], op);
      && q.tasks == m.tasks[op.id := Task(t.record, Ended)]
      && q.world == L.Step(m.world, L.Activate(x, op.st))
      && x.job == op.job && x.owner == t.record.caller && x.session == t.record.session
      && x.until == t.record.payload.until && x.approval == t.stage.approval
      && x.configForBinding == op.config1 && x.configForGrant == op.config2
  {
    hide L.Step;
  }
}
