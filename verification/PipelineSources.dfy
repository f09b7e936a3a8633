/**
 Where prepared requests come from: whatever is about to be registered, or is
 registered, is what some evaluation built for its request, and its approval, if
 it has one, is consumed and exact for it. This ties reachable registrations to
 the inputs under which revalidation finds nothing to refuse.
 */
module PipelineSources {
  import opened Wrappers
  import opened Digests
  import A = Approvals
  import C = Coordinator
  import P = ControlPlane
  import G = Gate
  import opened Lifecycle
  import opened Pipeline
  import opened PipelineOwnership
  import opened PipelineSafety
  import opened PipelineRuns
  import opened PipelineLocal
  import opened PipelineWaiting

  /** Consumed, and exact for this result and the person of this request. */
  predicate Covers(s: A.Store, a: nat, request: P.ControlRequest, result: P.PathResult) {
    && a in s.records && s.records[a].state == A.Consumed
    && A.Matches(s.records[a], result.fingerprint, request.proposal.caller, request.proposal.session)
  }

  ghost predicate Evaluated(request: P.ControlRequest, result: P.PathResult, given: Option<nat>, s: A.Store) {
    && (exists w :: Builds(w, request, result))
    && (given.Some? ==> Covers(s, given.value, request, result))
  }

  ghost predicate TaskEvaluated(k: Task, s: A.Store) {
    match k
    case MatchApproval(_, request, result, _, a, _) => Evaluated(request, result, Some(a), s)
    case Insert(_, request, result, _, given, _) => Evaluated(request, result, given, s)
    case _ => true
  }

  ghost predicate TasksEvaluated(tasks: Tasks, s: A.Store) {
    forall t :: t in tasks ==> TaskEvaluated(tasks[t], s)
  }

  ghost predicate TableEvaluated(table: Table, s: A.Store) {
    forall id :: id in table ==> Evaluated(table[id].request, table[id].result, table[id].approval, s)
  }

  ghost predicate AllEvaluated(p: Pipe) {
    TasksEvaluated(p.tasks, p.store) && TableEvaluated(p.prepared, p.store)
  }

  // ----- The approvals stay, so what was evaluated stays evaluated

  ghost predicate ConsumedKept(s: A.Store, later: A.Store) {
    forall a :: a in s.records && s.records[a].state == A.Consumed ==> SameRecord(s, later, a)
  }

  lemma StepKeepsConsumed(p: Pipe, op: Op)
    requires Inv(p)
    ensures ConsumedKept(p.store, Step(p, op).store)
  {
    hide Inv, Step;
    forall a | a in p.store.records && p.store.records[a].state == A.Consumed
      ensures SameRecord(p.store, Step(p, op).store, a)
    {
      StepKeepsRecord(p, op, a);
    }
  }

  lemma TaskStaysEvaluated(k: Task, s: A.Store, later: A.Store)
    requires TaskEvaluated(k, s) && ConsumedKept(s, later)
    ensures TaskEvaluated(k, later)
  {
    hide Builds;
  }

  lemma TableStaysEvaluated(table: Table, s: A.Store, later: A.Store)
    requires TableEvaluated(table, s) && ConsumedKept(s, later)
    ensures TableEvaluated(table, later)
  {
    hide Builds;
  }

  // ----- What one step adds

  lemma DriveEvaluates(call: Call, first: P.Snapshot, second: P.Snapshot, n: nat, s: A.Store)
    ensures TaskEvaluated(Drive(call, first, second, n).1, s)
  {
    hide P.CheckPolicy, G.SamePerson;
    var k := Drive(call, first, second, n).1;
    if k.Insert? {
      P.RevalidationRebuildsDirect(second, call.request);
      assert Builds(second, k.request, k.result);
    }
  }

  /** Thread `t` of the later state goes on with something evaluated, over the later approvals. */
  ghost predicate Stands(q: Pipe, t: nat) {
    t in q.tasks && TaskEvaluated(q.tasks[t], q.store)
  }

  lemma EndStands(q: Pipe, t: nat, life: nat, targets: seq<RequestState>)
    ensures Stands(End(q, t, life, targets), t)
  {
    hide Move, Evaluated;
  }

  lemma ConfirmEvaluates(p: Pipe, t: nat, life: nat, request: P.ControlRequest, context: G.Context, a: A.Approval,
                         w: P.Snapshot, byConsent: bool)
    requires a.id in p.store.records && p.store.records[a.id] == a && a.state == A.Consumed
    ensures Stands(Confirm(p, t, life, request, context, a, w, byConsent), t)
  {
    hide End, Walk;
    var q := p.(taken := p.taken[a.id := life]);
    var prepared := P.PrepareConfirmed(w, request, a);
    ConfirmEnds(p, t, life, request, context, a, w, byConsent);
    if prepared.Ready? {
      P.RevalidationRebuildsConfirmed(w, request, a);
      assert Builds(w, request, prepared.result);
    } else {
      EndStands(q, t, life, Ending(prepared, byConsent));
    }
  }

  lemma ConsumedIsRecorded(s: A.Store, id: nat, binding: Digest, caller: string, session: string, now: real,
                           stamp: real)
    requires A.WellFormed(s)
    ensures var (later, r) := A.Consume(s, id, binding, caller, session, now, stamp);
      r.Ok? ==> r.value.id in later.records && later.records[r.value.id] == r.value && r.value.state == A.Consumed
  {
  }

  lemma ConsumeStands(p: Pipe, t: nat, k: Task, env: Env)
    requires A.WellFormed(p.store) && k.ConsumePresented?
    ensures Stands(StepConsume(p, t, k, env), t)
  {
    hide Stands, Confirm, End, A.Consume, A.WellFormed;
    var (store, r) := A.Consume(p.store, k.approval, k.checked.fingerprint, k.context.caller, k.context.session,
                                env.lookup, env.stamp);
    ConsumedIsRecorded(p.store, k.approval, k.checked.fingerprint, k.context.caller, k.context.session, env.lookup,
                       env.stamp);
    EndStands(p.(store := store), t, k.life, [Denied]);
    if r.Ok? {
      ConfirmEvaluates(p.(store := store), t, k.life, k.request, k.context, r.value, env.w, false);
    }
  }

  lemma TakeStands(p: Pipe, t: nat, k: Task, env: Env)
    requires A.WellFormed(p.store) && k.Take?
    ensures Stands(StepTake(p, t, k, env), t)
  {
    hide Stands, Confirm, End, A.Consume, A.WellFormed;
    var c := k.pending;
    var (caller, session) := (c.request.proposal.caller, c.request.proposal.session);
    var (store, r) := A.Consume(p.store, k.approval, c.checked.fingerprint, caller, session, env.lookup, env.stamp);
    ConsumedIsRecorded(p.store, k.approval, c.checked.fingerprint, caller, session, env.lookup, env.stamp);
    EndStands(p.(store := store), t, k.life, [Denied]);
    if r.Ok? {
      ConfirmEvaluates(p.(store := store), t, k.life, c.request, c.context, r.value, env.w, true);
    }
  }

  lemma MatchStands(p: Pipe, t: nat, k: Task, env: Env)
    requires k.MatchApproval? && Owned(p, k) && TaskEvaluated(k, p.store)
    ensures Stands(StepMatch(p, t, k, env), t)
  {
    hide MatchingOf, End, Builds;
    var store := A.Looked(p.store, k.approval, env.lookup);
    EndStands(p, t, k.life, if k.byConsent then [] else [Denied]);
    EndStands(p.(store := store), t, k.life, if k.byConsent then [] else [Denied]);
    assert Covers(p.store, k.approval, k.request, k.result);
  }

  lemma InsertStands(p: Pipe, t: nat, k: Task, env: Env)
    requires k.Insert? && Owned(p, k)
    ensures Stands(StepInsert(p, t, k, env), t)
  {
    hide End, G.Registrable, G.Inserts, G.Purged;
    EndStands(p, t, k.life, if k.byConsent then [] else [Denied]);
    EndStands(p.(prepared := G.Purged(p.prepared, env.now)), t, k.life, if k.byConsent then [] else [Denied]);
  }

  lemma AskStands(p: Pipe, t: nat, k: Task, env: Env)
    requires k.AskConsent? && Owned(p, k)
    ensures Stands(StepAskConsent(p, t, k, env), t)
  {
    hide End, ConsentFor;
    var coord := ConsentFor(p, k, env.now).0;
    EndStands(p, t, k.life, [Denied]);
    EndStands(p.(coord := coord), t, k.life, [Denied]);
  }

  lemma DecidedStands(p: Pipe, t: nat, k: Task, env: Env)
    requires k.Issue? || k.Offer?
    ensures Stands(StepDecided(p, t, k, env), t)
  {
    hide End, A.Issue, A.MakeAvailable;
    match k
    case Issue(_, c) =>
      EndStands(p.(store := A.Issue(p.store, c.checked.fingerprint, c.request.proposal.caller,
                                    c.request.proposal.session, 30.0, env.now).0), t, k.life, [Denied]);
    case Offer(_, _, a) => EndStands(p.(store := A.MakeAvailable(p.store, a, env.lookup).0), t, k.life, [Denied]);
  }

  /** A thread that goes on goes on with something evaluated. */
  lemma AdvanceStands(p: Pipe, t: nat, env: Env)
    requires A.WellFormed(p.store) && t in p.tasks && Owned(p, p.tasks[t]) && TaskEvaluated(p.tasks[t], p.store)
    ensures Stands(StepTask(p, t, env), t)
  {
    hide A.WellFormed, End, StepConsume, StepTake, StepAskConsent, StepDecided, StepMatch, StepInsert, Evaluated;
    var k := p.tasks[t];
    match k
    case AskConsent(_, _, _, _) => AskStands(p, t, k, env);
    case ConsumePresented(_, _, _, _, _) => ConsumeStands(p, t, k, env);
    case Take(_, _, _) => TakeStands(p, t, k, env);
    case Reject(life) => EndStands(p, t, life, [Denied]);
    case Issue(_, _) => DecidedStands(p, t, k, env);
    case Offer(_, _, _) => DecidedStands(p, t, k, env);
    case MatchApproval(_, _, _, _, _, _) => MatchStands(p, t, k, env);
    case Insert(_, _, _, _, _, _) => InsertStands(p, t, k, env);
    case Finish(life, _, status) => EndStands(p, t, life, [status]);
    case _ =>
  }

  lemma AdvanceStartsNobody(p: Pipe, u: nat, env: Env, t: nat)
    requires u in p.tasks && Owned(p, p.tasks[u]) && t !in p.tasks
    ensures t !in StepTask(p, u, env).tasks
  {
    hide StepTask, TaskLeaves, Owned;
    BesideTaskStep(p, t, if p.tasks[u].Over? then 0 else p.tasks[u].life + 1, u, env);
  }

  lemma BeginEvaluates(p: Pipe, targets: seq<RequestState>, task: Task)
    requires TaskEvaluated(task, p.store)
    ensures Stands(Begin(p, targets, task), p.next)
  {
    hide Evaluated, Walk;
  }

  lemma MoveStartsNobody(p: Pipe, life: nat, targets: seq<RequestState>)
    ensures Move(p, life, targets).tasks == p.tasks
  {
  }

  lemma DenyStartsNobody(p: Pipe, id: nat, coord: C.Coord<Pending>)
    ensures DenyExpired(p, id, coord).tasks == p.tasks
  {
    hide Move, At;
    if id in coord.records {
      MoveStartsNobody(p.(coord := coord), coord.records[id].payload.life, [Denied]);
    }
  }

  lemma GetStartsNobody(p: Pipe, id: nat, requestId: string, caller: string, session: string, now: real)
    ensures StepGet(p, id, requestId, caller, session, now).tasks == p.tasks
  {
    hide DenyExpired, C.Get;
    DenyStartsNobody(p, id, C.Get(p.coord, id, requestId, caller, session, now).0);
  }

  lemma DecideStands(p: Pipe, id: nat, approve: bool, now: real)
    requires p.next !in p.tasks
    ensures p.next in StepDecide(p, id, approve, now).tasks ==> Stands(StepDecide(p, id, approve, now), p.next)
  {
    hide Evaluated, DenyExpired, C.Decide;
    DenyStartsNobody(p, id, C.Decide(p.coord, id, approve, now).0);
  }

  lemma ExecuteStands(p: Pipe, c: G.Context, current: P.ControlRequest, env: Env)
    requires p.next !in p.tasks && Executable(p, c.requestId)
    ensures p.next in StepExecute(p, c, current, env).tasks ==> Stands(StepExecute(p, c, current, env), p.next)
  {
    hide Evaluated, Walk, VerdictOn, JudgedStore;
    ExecuteEnds(p, c, current, env);
  }

  /** A thread that a step starts is about something evaluated. */
  lemma NewThreadEvaluates(p: Pipe, op: Op)
    requires p.next !in p.tasks
    ensures p.next in Step(p, op).tasks ==> Stands(Step(p, op), p.next)
  {
    hide Stands, Evaluated, Drive, Begin, StepDecide, StepExecute, StepGet, StepTask, Owned;
    match op
    case Submit(call, first, second) =>
      DriveEvaluates(call, first, second, p.next, p.store);
      BeginEvaluates(p, Drive(call, first, second, p.next).0, Drive(call, first, second, p.next).1);
    case OtherCall(authenticated, fails) => BeginEvaluates(p, OtherTargets(authenticated, fails), Over);
    case ConsentGet(id, requestId, caller, session, now) => GetStartsNobody(p, id, requestId, caller, session, now);
    case ConsentDecide(id, approve, now) => DecideStands(p, id, approve, now);
    case Execute(c, current, env) =>
      if c.genuine && Executable(p, c.requestId) {
        ExecuteStands(p, c, current, env);
      }
    case Advance(u, env) =>
      if u in p.tasks && Owned(p, p.tasks[u]) {
        AdvanceStartsNobody(p, u, env, p.next);
      }
    case Store(_) =>
  }

  // ----- All threads and registrations, in every run

  lemma ThreadEvaluates(p: Pipe, op: Op, t: nat)
    requires Inv(p) && AllEvaluated(p) && t in Step(p, op).tasks
    ensures TaskEvaluated(Step(p, op).tasks[t], Step(p, op).store)
  {
    hide Inv, Step, TaskEvaluated, TableEvaluated, Touches, Leaves, Owned, A.WellFormed;
    StoreIsFine(p);
    StepKeepsConsumed(p, op);
    if StepsOn(op, t) {
      OwnThreadEvaluates(p, op);
    } else if t == p.next {
      NextIsUnused(p);
      NewThreadEvaluates(p, op);
    } else {
      UntouchedThread(p, op, t);
      StepBeside(p, op, t, Unborn(p, op));
      TaskStaysEvaluated(p.tasks[t], p.store, Step(p, op).store);
    }
  }

  lemma NextIsUnused(p: Pipe)
    requires Inv(p)
    ensures p.next !in p.tasks
  {
  }

  lemma UntouchedThread(p: Pipe, op: Op, t: nat)
    requires Inv(p) && !StepsOn(op, t)
    ensures !Touches(p, op, t, Unborn(p, op))
  {
    NobodyIsTouched(p, op);
  }

  lemma EntryEvaluates(p: Pipe, op: Op, id: string)
    requires AllEvaluated(p) && id in Leaves(p, op).table
    ensures var e := Leaves(p, op).table[id]; Evaluated(e.request, e.result, e.approval, p.store)
  {
    hide Evaluated, ExecuteStore, Applied, TaskStoreOp, G.Inserts;
    if op.Advance? && op.task in p.tasks && Registers(p, p.tasks[op.task]) {
      assert TaskEvaluated(p.tasks[op.task], p.store);
    }
  }

  /** Every step keeps every prepared request, and every registration, evaluated. */
  lemma StepKeepsEvaluated(p: Pipe, op: Op)
    requires Inv(p) && AllEvaluated(p)
    ensures AllEvaluated(Step(p, op))
  {
    hide Inv, Step, TaskEvaluated, Evaluated, Touches, Leaves;
    var q := Step(p, op);
    forall t | t in q.tasks ensures TaskEvaluated(q.tasks[t], q.store) {
      ThreadEvaluates(p, op, t);
    }
    NobodyIsTouched(p, op);
    StepBeside(p, op, Unborn(p, op), Unborn(p, op));
    forall id | id in q.prepared ensures Evaluated(q.prepared[id].request, q.prepared[id].result,
                                                   q.prepared[id].approval, p.store) {
      EntryEvaluates(p, op, id);
    }
    StepKeepsConsumed(p, op);
    TableStaysEvaluated(q.prepared, p.store, q.store);
  }

  lemma {:induction false} RunKeepsEvaluated(p: Pipe, ops: seq<Op>)
    requires Inv(p) && AllEvaluated(p)
    ensures AllEvaluated(RunAll(p, ops))
    decreases |ops|
  {
    hide Inv, Step, AllEvaluated;
    if ops != [] {
      StepKeepsInv(p, ops[0]);
      StepKeepsEvaluated(p, ops[0]);
      RunKeepsEvaluated(Step(p, ops[0]), ops[1..]);
    }
  }

  lemma OwnThreadEvaluates(p: Pipe, op: Op)
    requires Inv(p) && AllEvaluated(p) && op.Advance? && op.task in Step(p, op).tasks
    ensures TaskEvaluated(Step(p, op).tasks[op.task], Step(p, op).store)
  {
    hide Inv, TaskEvaluated, TableEvaluated, StepTask, A.WellFormed;
    StoreIsFine(p);
    GuardsHold(p, op.task, "");
    if op.task in p.tasks {
      AdvanceStands(p, op.task, op.env);
    }
  }
}
