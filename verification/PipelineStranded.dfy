/** Requests that nobody will ever execute: prepared, but neither registered nor anyone's to go on with. */
module PipelineStranded {
  import opened Wrappers
  import A = Approvals
  import C = Coordinator
  import CS = CoordinatorSafety
  import P = ControlPlane
  import G = Gate
  import opened Lifecycle
  import opened Pipeline
  import opened PipelineOwnership
  import opened PipelineSafety
  import opened PipelineRuns
  import opened PipelineLocal
  import opened PipelineWaiting
  import opened PipelineSources
  import opened PipelineOutcomes

  ghost predicate Unheld(tasks: Tasks, life: nat) {
    forall t :: t in tasks ==> !Has(tasks[t], life)
  }

  ghost predicate Unregistered(table: Table, life: nat) {
    forall id :: id in table ==> table[id].life.life != life
  }

  /** Prepared, without a thread that goes on with it, and not registered for execution. */
  ghost predicate Stranded(p: Pipe, life: nat) {
    At(p.lifes, life, Prepared) && Unheld(p.tasks, life) && Unregistered(p.prepared, life)
  }

  // ----- Whose lifecycle a step leaves its threads with

  /** The thread is done, or still has the lifecycle it had. */
  predicate StaysWith(q: Pipe, t: nat, life: nat) {
    t in q.tasks && (q.tasks[t].Over? || q.tasks[t].life == life)
  }

  lemma EndStaysWith(q: Pipe, t: nat, life: nat, targets: seq<RequestState>, other: nat)
    ensures StaysWith(End(q, t, life, targets), t, other)
  {
    hide Move;
  }

  lemma ConfirmStaysWith(q: Pipe, t: nat, life: nat, request: P.ControlRequest, context: G.Context, a: A.Approval,
                         w: P.Snapshot, byConsent: bool)
    ensures StaysWith(Confirm(q, t, life, request, context, a, w, byConsent), t, life)
  {
    hide Move, P.PrepareConfirmed;
  }

  lemma AskedStaysWith(p: Pipe, t: nat, env: Env)
    requires t in p.tasks && Owned(p, p.tasks[t])
    requires p.tasks[t].AskConsent? || p.tasks[t].ConsumePresented? || p.tasks[t].Take?
    ensures StaysWith(StepAsked(p, t, p.tasks[t], env), t, p.tasks[t].life)
  {
    hide End, Confirm, A.Consume, C.Register;
    var k := p.tasks[t];
    match k
    case AskConsent(_, _, _, _) =>
      EndStaysWith(p, t, k.life, [Denied], k.life);
      EndStaysWith(p.(coord := ConsentFor(p, k, env.now).0), t, k.life, [Denied], k.life);
    case ConsumePresented(_, _, _, _, _) =>
      var (store, r) := A.Consume(p.store, k.approval, k.checked.fingerprint, k.context.caller, k.context.session,
                                  env.lookup, env.stamp);
      EndStaysWith(p.(store := store), t, k.life, [Denied], k.life);
      if r.Ok? {
        ConfirmStaysWith(p.(store := store), t, k.life, k.request, k.context, r.value, env.w, false);
      }
    case Take(_, c, _) =>
      var (store, r) := A.Consume(p.store, k.approval, c.checked.fingerprint,
        c.request.proposal.caller, c.request.proposal.session, env.lookup, env.stamp);
      EndStaysWith(p.(store := store), t, k.life, [Denied], k.life);
      if r.Ok? {
        ConfirmStaysWith(p.(store := store), t, k.life, c.request, c.context, r.value, env.w, true);
      }
  }

  lemma DecidedStaysWith(p: Pipe, t: nat, env: Env)
    requires t in p.tasks && (p.tasks[t].Issue? || p.tasks[t].Offer?)
    ensures StaysWith(StepDecided(p, t, p.tasks[t], env), t, p.tasks[t].life)
  {
    hide Move, A.Issue, A.MakeAvailable;
  }

  lemma GateStaysWith(p: Pipe, t: nat, env: Env)
    requires t in p.tasks && Owned(p, p.tasks[t])
    requires var k := p.tasks[t]; k.MatchApproval? || k.Insert? || k.Run? || k.Finish? || k.Over?
    ensures StaysWith(StepGate(p, t, p.tasks[t], env), t, if p.tasks[t].Over? then 0 else p.tasks[t].life)
  {
    hide Move, MatchingOf, G.Registrable, G.Inserts, G.Purged, A.Looked;
  }

  lemma AdvanceStaysWith(p: Pipe, t: nat, env: Env)
    requires t in p.tasks && Owned(p, p.tasks[t])
    ensures StaysWith(StepTask(p, t, env), t, if p.tasks[t].Over? then 0 else p.tasks[t].life)
  {
    hide End, StepAsked, StepDecided, StepGate, Owned;
    var k := p.tasks[t];
    if k.AskConsent? || k.ConsumePresented? || k.Take? {
      AskedStaysWith(p, t, env);
    } else if k.Reject? {
      EndStaysWith(p, t, k.life, [Denied], k.life);
    } else if k.Issue? || k.Offer? {
      DecidedStaysWith(p, t, env);
    } else {
      GateStaysWith(p, t, env);
    }
  }

  // ----- Whose lifecycle a new thread gets

  lemma DriveIsItsOwn(call: Call, first: P.Snapshot, second: P.Snapshot, n: nat)
    ensures var k := Drive(call, first, second, n).1; k.Over? || k.life == n
  {
    hide P.CheckPolicy, P.Prepare;
  }

  lemma BegunTask(p: Pipe, targets: seq<RequestState>, task: Task)
    ensures Begin(p, targets, task).tasks == p.tasks[p.next := task]
  {
    hide Walk;
  }

  lemma DecisionLeavesStranded(p: Pipe, life: nat, id: nat, approve: bool, now: real)
    requires Inv(p) && Stranded(p, life)
    ensures Unheld(StepDecide(p, id, approve, now).tasks, life)
  {
    hide Inv, DenyExpired, C.Decide;
    CS.DecideExactly(p.coord, id, approve, now);
    if id in p.coord.records && CS.Open(p.coord.records[id], now) {
      ConsentHolds(p, id);
    } else {
      DenyStartsNobody(p, id, C.Decide(p.coord, id, approve, now).0);
    }
  }

  lemma StartedTasks(p: Pipe, d: Dispatch)
    ensures Start(p, d).tasks == p.tasks[p.next := Run(d.seat.life, d)]
  {
    hide Walk;
  }

  lemma ExecutionLeavesStranded(p: Pipe, life: nat, c: G.Context, current: P.ControlRequest, env: Env)
    requires Executable(p, c.requestId) && Unheld(p.tasks, life) && Unregistered(p.prepared, life)
    ensures Unheld(StepExecute(p, c, current, env).tasks, life)
  {
    hide Move, Start, JudgedStore, P.RevalidateRoute;
    var e := p.prepared[c.requestId];
    var judged := p.(store := JudgedStore(p.store, e, c, current, env));
    MoveStartsNobody(judged, e.life.life, [Denied]);
    if VerdictOn(p, c, current, env).Go? {
      StartedTasks(judged, DispatchOf(e, c, current, env));
    }
  }

  /** A thread that a step starts does not take a stranded lifecycle. */
  lemma NewcomerLeavesStranded(p: Pipe, op: Op, life: nat)
    requires Inv(p) && Stranded(p, life)
    ensures p.next in Step(p, op).tasks ==> !Has(Step(p, op).tasks[p.next], life)
  {
    hide Inv, Drive, Begin, StepDecide, StepExecute, StepGet, StepTask, Owned;
    NextIsUnused(p);
    LifeIsOld(p, life);
    match op
    case Submit(call, first, second) =>
      DriveIsItsOwn(call, first, second, p.next);
      BegunTask(p, Drive(call, first, second, p.next).0, Drive(call, first, second, p.next).1);
    case OtherCall(authenticated, fails) => BegunTask(p, OtherTargets(authenticated, fails), Over);
    case ConsentGet(id, requestId, caller, session, now) => GetStartsNobody(p, id, requestId, caller, session, now);
    case ConsentDecide(id, approve, now) => DecisionLeavesStranded(p, life, id, approve, now);
    case Execute(c, current, env) =>
      if c.genuine && Executable(p, c.requestId) {
        ExecutionLeavesStranded(p, life, c, current, env);
      }
    case Advance(u, env) =>
      if u in p.tasks && Owned(p, p.tasks[u]) {
        AdvanceStartsNobody(p, u, env, p.next);
      }
    case Store(_) =>
  }

  lemma LifeIsOld(p: Pipe, life: nat)
    requires Inv(p) && life in p.lifes
    ensures life < p.next
  {
  }

  // ----- A step leaves it stranded

  lemma ThreadLeavesStranded(p: Pipe, op: Op, life: nat, t: nat)
    requires Inv(p) && Stranded(p, life) && t in Step(p, op).tasks
    ensures !Has(Step(p, op).tasks[t], life)
  {
    hide Inv, Step, StepTask, Touches, Leaves, Owned, At;
    if StepsOn(op, t) {
      StepperLeavesStranded(p, op, life);
    } else if t == p.next {
      NewcomerLeavesStranded(p, op, life);
    } else {
      UntouchedThread(p, op, t);
      StepBeside(p, op, t, Unborn(p, op));
    }
  }

  lemma StepperLeavesStranded(p: Pipe, op: Op, life: nat)
    requires Inv(p) && Stranded(p, life) && op.Advance? && op.task in Step(p, op).tasks
    ensures !Has(Step(p, op).tasks[op.task], life)
  {
    hide Inv, StepTask, Owned, At;
    var t := op.task;
    if t in p.tasks && Owned(p, p.tasks[t]) {
      AdvanceStaysWith(p, t, op.env);
      if p.tasks[t].Over? {
        OverStays(p, t, op.env);
      }
    }
  }

  lemma OverStays(p: Pipe, t: nat, env: Env)
    requires t in p.tasks && p.tasks[t].Over? && Owned(p, p.tasks[t])
    ensures StepTask(p, t, env) == p
  {
  }

  lemma TableLeavesStranded(p: Pipe, op: Op, life: nat)
    requires Unheld(p.tasks, life) && Unregistered(p.prepared, life)
    ensures Unregistered(Leaves(p, op).table, life)
  {
    hide ExecuteStore, Applied, TaskStoreOp, Owned, A.Apply, G.Registrable;
    if op.Advance? && op.task in p.tasks && Registers(p, p.tasks[op.task]) {
      assert !Has(p.tasks[op.task], life);
    }
  }

  lemma StrandedIsNotMoved(p: Pipe, op: Op, life: nat)
    requires Inv(p) && Stranded(p, life)
    ensures !Touches(p, op, Unborn(p, op), life)
  {
    hide Legals, TasksOk, TableOk, DispatchesOk, Spent;
  }

  /** No step of anyone moves a stranded lifecycle, takes it or registers it. */
  lemma StrandedStays(p: Pipe, op: Op, life: nat)
    requires Inv(p) && Stranded(p, life)
    ensures Stranded(Step(p, op), life)
  {
    hide Inv, Step, Touches, Leaves;
    var q := Step(p, op);
    LifeIsOld(p, life);
    StrandedIsNotMoved(p, op, life);
    StepBeside(p, op, Unborn(p, op), life);
    TableLeavesStranded(p, op, life);
    forall t | t in q.tasks ensures !Has(q.tasks[t], life) {
      ThreadLeavesStranded(p, op, life, t);
    }
  }

  /** Whatever anyone does, it stays prepared for good: it is neither executed nor denied. */
  lemma {:induction false} StrandedForGood(p: Pipe, ops: seq<Op>, life: nat)
    requires Inv(p) && Stranded(p, life)
    ensures WentThrough(RunAll(p, ops), life, p.lifes[life]) && Stranded(RunAll(p, ops), life)
    decreases |ops|
  {
    hide Inv, Step, Touches, Leaves;
    if ops != [] {
      LifeIsOld(p, life);
      StrandedIsNotMoved(p, ops[0], life);
      StepBeside(p, ops[0], Unborn(p, ops[0]), life);
      StepKeepsInv(p, ops[0]);
      StrandedStays(p, ops[0], life);
      StrandedForGood(Step(p, ops[0]), ops[1..], life);
    }
  }

  lemma InsertHolds(p: Pipe, t: nat)
    requires Inv(p) && t in p.tasks && p.tasks[t].Insert?
    ensures At(p.lifes, p.tasks[t].life, Prepared) && Unregistered(p.prepared, p.tasks[t].life)
    ensures forall u :: u in p.tasks && u != t ==> !Has(p.tasks[u], p.tasks[t].life)
  {
    hide Legals, TasksOk, TableOk, DispatchesOk, Spent;
  }

  lemma RefusalLeaves(p: Pipe, t: nat, life: nat, byConsent: bool)
    ensures var q := RefuseRegistration(p, t, life, byConsent);
      q.tasks == p.tasks[t := Over] && q.prepared == p.prepared
  {
    hide Walk;
  }

  lemma RefusedInsertLeaves(p: Pipe, t: nat, env: Env)
    requires Inv(p) && t in p.tasks && p.tasks[t].Insert?
    requires !G.Inserts(p.prepared, p.tasks[t].context.requestId, p.gateLimits, env.now)
    ensures var q := Step(p, Advance(t, env));
      && q.tasks == p.tasks[t := Over]
      && forall id :: id in q.prepared ==> id in p.prepared && q.prepared[id] == p.prepared[id]
  {
    hide Inv, Step, RefuseRegistration, G.Registrable, G.Inserts;
    var k := p.tasks[t];
    AdvanceIs(p, t, env);
    RefusalLeaves(p, t, k.life, k.byConsent);
    RefusalLeaves(p.(prepared := G.Purged(p.prepared, env.now)), t, k.life, k.byConsent);
  }

  lemma RefusalStrands(p: Pipe, t: nat, env: Env)
    requires Inv(p) && t in p.tasks && p.tasks[t].Insert?
    requires !G.Inserts(p.prepared, p.tasks[t].context.requestId, p.gateLimits, env.now)
    requires p.tasks[t].life in p.lifes
    requires WentThrough(Step(p, Advance(t, env)), p.tasks[t].life, p.lifes[p.tasks[t].life])
    ensures Stranded(Step(p, Advance(t, env)), p.tasks[t].life)
  {
    hide Inv, Step, G.Inserts;
    InsertHolds(p, t);
    RefusedInsertLeaves(p, t, env);
  }

  /** That is how a request ends whose consent was approved, but whose registration finds its id taken or no room. */
  lemma ApprovedMayStrand(p: Pipe, t: nat, env: Env, ops: seq<Op>)
    requires Inv(p) && t in p.tasks && p.tasks[t].Insert? && p.tasks[t].byConsent
    requires !G.Inserts(p.prepared, p.tasks[t].context.requestId, p.gateLimits, env.now)
    ensures var q := RunAll(Step(p, Advance(t, env)), ops);
      p.tasks[t].life in p.lifes && WentThrough(q, p.tasks[t].life, p.lifes[p.tasks[t].life])
      && Stranded(q, p.tasks[t].life)
  {
    hide Inv, Step, Stranded;
    RefusedRegistrationLeaves(p, t, env);
    StepKeepsInv(p, Advance(t, env));
    InsertHolds(p, t);
    assert p.lifes[p.tasks[t].life] + [] == p.lifes[p.tasks[t].life];
    RefusalStrands(p, t, env);
    StrandedForGood(Step(p, Advance(t, env)), ops, p.tasks[t].life);
  }
}
