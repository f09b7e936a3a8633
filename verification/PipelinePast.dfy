/**
 What happened stays on record: lifecycles, registrations, taken approvals and
 dispatches only grow, and a new dispatch is of a lifecycle that is executing.
 */
module PipelinePast {
  import A = Approvals
  import C = Coordinator
  import P = ControlPlane
  import G = Gate
  import opened Lifecycle
  import opened Pipeline
  import opened PipelineOwnership
  import opened PipelineSafety

  ghost predicate Past(p: Pipe, q: Pipe) {
    && (forall l :: l in p.lifes ==> l in q.lifes && p.lifes[l] <= q.lifes[l])
    && Extends(p.taken, q.taken) && Extends(p.registered, q.registered)
    && p.dispatches <= q.dispatches
    && (forall i :: |p.dispatches| <= i < |q.dispatches| ==> At(p.lifes, q.dispatches[i].seat.life, Executing))
  }

  lemma {:induction false} WalkExtends(h: seq<RequestState>, targets: seq<RequestState>)
    ensures Walk(h, targets).Some? ==> h <= Walk(h, targets).value
    decreases |targets|
  {
    if targets != [] && h != [] && Legal(Last(h), targets[0]) {
      WalkExtends(h + [targets[0]], targets[1..]);
      assert h <= h + [targets[0]];
    }
  }

  lemma MovePast(p: Pipe, q: Pipe, life: nat, targets: seq<RequestState>)
    requires Past(p, q)
    ensures Past(p, Move(q, life, targets))
  {
    if life in q.lifes {
      WalkExtends(q.lifes[life], targets);
    }
  }

  lemma SetTaskPast(p: Pipe, q: Pipe, t: nat, k: Task)
    requires Past(p, q)
    ensures Past(p, SetTask(q, t, k))
  {
  }

  lemma EndPast(p: Pipe, q: Pipe, t: nat, life: nat, targets: seq<RequestState>)
    requires Past(p, q)
    ensures Past(p, End(q, t, life, targets))
  {
    MovePast(p, q, life, targets);
  }

  lemma BeginPast(p: Pipe, targets: seq<RequestState>, task: Task)
    requires p.next !in p.lifes
    ensures Past(p, Begin(p, targets, task))
  {
    MovePast(p, p.(lifes := p.lifes[p.next := [Received]]), p.next, targets);
  }

  lemma SameHistory(p: Pipe, q: Pipe)
    requires q.lifes == p.lifes && q.taken == p.taken && q.registered == p.registered && q.dispatches == p.dispatches
    ensures Past(p, q)
  {
  }

  lemma TakingPast(p: Pipe, q: Pipe, a: nat, life: nat)
    requires Past(p, q) && a !in q.taken
    ensures Past(p, q.(taken := q.taken[a := life]))
  {
  }

  lemma ConfirmPast(p: Pipe, q: Pipe, t: nat, life: nat, request: P.ControlRequest, context: G.Context, a: A.Approval,
                    w: P.Snapshot, byConsent: bool)
    requires Past(p, q) && a.id !in q.taken
    ensures Past(p, Confirm(q, t, life, request, context, a, w, byConsent))
  {
    hide Past, End, Move;
    var m := q.(taken := q.taken[a.id := life]);
    var prepared := P.PrepareConfirmed(w, request, a);
    TakingPast(p, q, a.id, life);
    ConfirmEnds(q, t, life, request, context, a, w, byConsent);
    if prepared.Ready? {
      MovePast(p, m, life, [Approved, Prepared]);
      SetTaskPast(p, Move(m, life, [Approved, Prepared]), t,
                  MatchApproval(life, request, prepared.result, context, a.id, byConsent));
    } else {
      EndPast(p, m, t, life, Ending(prepared, byConsent));
    }
  }

  lemma StorePast(p: Pipe, store: A.Store)
    ensures Past(p, p.(store := store))
  {
  }

  lemma ConsumePast(p: Pipe, t: nat, k: Task, env: Env)
    requires A.WellFormed(p.store) && Spent(p.store, p.taken) && k.ConsumePresented?
    ensures Past(p, StepConsume(p, t, k, env))
  {
    hide Past, End, Confirm;
    var (store, r) := A.Consume(p.store, k.approval, k.checked.fingerprint, k.context.caller, k.context.session,
                                env.lookup, env.stamp);
    ConsumedFresh(p.store, p.taken, k.approval, k.checked.fingerprint, k.context.caller, k.context.session, env.lookup,
                  env.stamp);
    StorePast(p, store);
    if r.Ok? {
      ConfirmPast(p, p.(store := store), t, k.life, k.request, k.context, r.value, env.w, false);
    } else {
      EndPast(p, p.(store := store), t, k.life, [Denied]);
    }
  }

  lemma TakePast(p: Pipe, t: nat, k: Task, env: Env)
    requires A.WellFormed(p.store) && Spent(p.store, p.taken) && k.Take?
    ensures Past(p, StepTake(p, t, k, env))
  {
    hide Past, End, Confirm;
    var c := k.pending;
    var (caller, session) := (c.request.proposal.caller, c.request.proposal.session);
    var (store, r) := A.Consume(p.store, k.approval, c.checked.fingerprint, caller, session, env.lookup, env.stamp);
    ConsumedFresh(p.store, p.taken, k.approval, c.checked.fingerprint, caller, session, env.lookup, env.stamp);
    StorePast(p, store);
    if r.Ok? {
      ConfirmPast(p, p.(store := store), t, k.life, c.request, c.context, r.value, env.w, true);
    } else {
      EndPast(p, p.(store := store), t, k.life, [Denied]);
    }
  }

  lemma AskPast(p: Pipe, t: nat, k: Task, env: Env)
    requires k.AskConsent? && Owned(p, k)
    ensures Past(p, StepAskConsent(p, t, k, env))
  {
    hide Past, ConsentFor, End;
    var coord := ConsentFor(p, k, env.now).0;
    SameHistory(p, p);
    SameHistory(p, p.(coord := coord));
    SetTaskPast(p, p.(coord := coord), t, Over);
    EndPast(p, p, t, k.life, [Denied]);
    EndPast(p, p.(coord := coord), t, k.life, [Denied]);
  }

  lemma AskedPast(p: Pipe, t: nat, k: Task, env: Env)
    requires Owned(p, k) && A.WellFormed(p.store) && Spent(p.store, p.taken)
    ensures Past(p, StepAsked(p, t, k, env))
  {
    hide Past, End;
    SameHistory(p, p);
    if k.AskConsent? {
      AskPast(p, t, k, env);
    } else if k.ConsumePresented? {
      ConsumePast(p, t, k, env);
    } else if k.Take? {
      TakePast(p, t, k, env);
    }
  }

  lemma DecidedPast(p: Pipe, t: nat, k: Task, env: Env)
    requires A.WellFormed(p.store) && Spent(p.store, p.taken)
    ensures Past(p, StepDecided(p, t, k, env))
  {
    hide Past, End;
    match k
    case Issue(_, c) =>
      var (store, r) := A.Issue(p.store, c.checked.fingerprint, c.request.proposal.caller, c.request.proposal.session,
                                30.0, env.now);
      StorePast(p, store);
      EndPast(p, p.(store := store), t, k.life, [Denied]);
      if r.Ok? {
        SetTaskPast(p, p.(store := store), t, Offer(k.life, c, r.value.id));
      }
    case Offer(_, c, a) =>
      var store := A.MakeAvailable(p.store, k.approval, env.lookup).0;
      StorePast(p, store);
      EndPast(p, p.(store := store), t, k.life, [Denied]);
      SetTaskPast(p, p.(store := store), t, Take(k.life, c, a));
    case _ => SameHistory(p, p);
  }

  lemma RefusalPast(p: Pipe, q: Pipe, t: nat, life: nat, byConsent: bool)
    requires Past(p, q)
    ensures Past(p, RefuseRegistration(q, t, life, byConsent))
  {
    EndPast(p, q, t, life, if byConsent then [] else [Denied]);
  }

  lemma RegisteredPast(p: Pipe, table: Table, t: nat, life: nat)
    requires p.next !in p.registered
    ensures Past(p, SetTask(p.(prepared := table, registered := p.registered[p.next := life], next := p.next + 1), t,
                            Over))
  {
  }

  lemma InsertPast(p: Pipe, t: nat, k: Task, env: Env)
    requires Owned(p, k) && k.Insert? && p.next !in p.registered
    ensures Past(p, StepInsert(p, t, k, env))
  {
    hide Past, RefuseRegistration;
    var kept := G.Purged(p.prepared, env.now);
    var e := G.Entry(k.request, k.result, k.given, Seat(p.next, k.life), env.now + p.gateLimits.ttl);
    InsertEnds(p, t, k, env);
    SameHistory(p, p);
    SameHistory(p, p.(prepared := kept));
    if StepInsert(p, t, k, env) == RefuseRegistration(p, t, k.life, k.byConsent) {
      RefusalPast(p, p, t, k.life, k.byConsent);
    } else if StepInsert(p, t, k, env) == RefuseRegistration(p.(prepared := kept), t, k.life, k.byConsent) {
      RefusalPast(p, p.(prepared := kept), t, k.life, k.byConsent);
    } else {
      RegisteredPast(p, kept[k.context.requestId := e], t, k.life);
    }
  }

  lemma MatchPast(p: Pipe, t: nat, k: Task, env: Env)
    requires Owned(p, k) && k.MatchApproval?
    ensures Past(p, StepMatch(p, t, k, env))
  {
    hide Past, RefuseRegistration, MatchingOf;
    var store := A.Looked(p.store, k.approval, env.lookup);
    SameHistory(p, p);
    StorePast(p, store);
    match MatchingOf(p, k, env)
    case Unfit => RefusalPast(p, p, t, k.life, k.byConsent);
    case Mismatch => RefusalPast(p, p.(store := store), t, k.life, k.byConsent);
    case Matches => SetTaskPast(p, p.(store := store), t, Matched(k));
  }

  lemma RunPast(p: Pipe, t: nat, k: Task, env: Env)
    requires k.Run? && At(p.lifes, k.dispatch.seat.life, Executing)
    ensures Past(p, StepRun(p, t, k, env))
  {
  }

  lemma GatePast(p: Pipe, t: nat, k: Task, env: Env)
    requires Owned(p, k) && p.next !in p.registered
    requires k.Run? ==> At(p.lifes, k.dispatch.seat.life, Executing)
    ensures Past(p, StepGate(p, t, k, env))
  {
    hide Past, End;
    SameHistory(p, p);
    match k
    case MatchApproval(_, _, _, _, _, _) => MatchPast(p, t, k, env);
    case Insert(_, _, _, _, _, _) => InsertPast(p, t, k, env);
    case Run(_, _) => RunPast(p, t, k, env);
    case Finish(life, _, status) => EndPast(p, p, t, life, [status]);
    case _ =>
  }

  lemma TaskPast(p: Pipe, t: nat, env: Env)
    requires t in p.tasks && Owned(p, p.tasks[t])
    requires A.WellFormed(p.store) && Spent(p.store, p.taken) && p.next !in p.registered
    requires p.tasks[t].Run? ==> At(p.lifes, p.tasks[t].dispatch.seat.life, Executing)
    ensures Past(p, StepTask(p, t, env))
  {
    hide Past, End, StepAsked, StepDecided, StepGate;
    SameHistory(p, p);
    if p.tasks[t].Reject? {
      EndPast(p, p, t, p.tasks[t].life, [Denied]);
    }
    AskedPast(p, t, p.tasks[t], env);
    DecidedPast(p, t, p.tasks[t], env);
    GatePast(p, t, p.tasks[t], env);
  }

  lemma ExecutePast(p: Pipe, c: G.Context, current: P.ControlRequest, env: Env)
    requires Executable(p, c.requestId)
    ensures Past(p, StepExecute(p, c, current, env))
  {
    hide Past, Move, JudgedStore;
    var e := p.prepared[c.requestId];
    var judged := p.(store := JudgedStore(p.store, e, c, current, env));
    SameHistory(p, p);
    StorePast(p, judged.store);
    MovePast(p, judged, e.life.life, [Denied]);
    MovePast(p, judged, e.life.life, [Executing]);
    match VerdictOn(p, c, current, env)
    case Go => StartPast(p, judged, DispatchOf(e, c, current, env));
    case _ =>
  }

  lemma StartPast(p: Pipe, q: Pipe, d: Dispatch)
    requires Past(p, Move(q, d.seat.life, [Executing]))
    ensures Past(p, Start(q, d))
  {
  }

  lemma DenyPast(p: Pipe, id: nat, coord: C.Coord<Pending>)
    ensures Past(p, DenyExpired(p, id, coord))
  {
    hide Past, Move;
    SameHistory(p, p.(coord := coord));
    if id in coord.records {
      MovePast(p, p.(coord := coord), coord.records[id].payload.life, [Denied]);
    }
  }

  lemma GetPast(p: Pipe, id: nat, requestId: string, caller: string, session: string, now: real)
    ensures Past(p, StepGet(p, id, requestId, caller, session, now))
  {
    DenyPast(p, id, C.Get(p.coord, id, requestId, caller, session, now).0);
  }

  lemma DecidePast(p: Pipe, id: nat, approve: bool, now: real)
    ensures Past(p, StepDecide(p, id, approve, now))
  {
    hide Past, DenyExpired;
    var (coord, r) := C.Decide(p.coord, id, approve, now);
    if r.Err? {
      DenyPast(p, id, coord);
    } else {
      SameHistory(p, StepDecide(p, id, approve, now));
    }
  }

  lemma RunnerExecutes(p: Pipe, t: nat)
    requires Inv(p) && t in p.tasks
    ensures p.tasks[t].Run? ==> At(p.lifes, p.tasks[t].dispatch.seat.life, Executing)
  {
    if p.tasks[t].Run? {
      Holding(p, t);
    }
  }

  /** No step forgets or rewrites anything that happened. */
  lemma StepKeepsPast(p: Pipe, op: Op)
    requires Inv(p)
    ensures Past(p, Step(p, op))
  {
    hide Past, StepTask, StepExecute, StepGet, StepDecide, Begin;
    SameHistory(p, p);
    match op
    case Submit(call, first, second) =>
      BeginPast(p, Drive(call, first, second, p.next).0, Drive(call, first, second, p.next).1);
    case OtherCall(authenticated, fails) => BeginPast(p, OtherTargets(authenticated, fails), Over);
    case ConsentGet(id, requestId, caller, session, now) => GetPast(p, id, requestId, caller, session, now);
    case ConsentDecide(id, approve, now) => DecidePast(p, id, approve, now);
    case Execute(c, current, env) =>
      if c.genuine && Executable(p, c.requestId) {
        ExecutePast(p, c, current, env);
      }
    case Advance(t, env) =>
      if t in p.tasks && Owned(p, p.tasks[t]) {
        RunnerExecutes(p, t);
        TaskPast(p, t, env);
      }
    case Store(a) => StorePast(p, A.Apply(p.store, a));
  }
}
