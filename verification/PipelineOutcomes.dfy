/** How requests end: what each endpoint's step leaves in the lifecycle, and under which condition. */
module PipelineOutcomes {
  import opened Wrappers
  import A = Approvals
  import C = Coordinator
  import CS = CoordinatorSafety
  import P = ControlPlane
  import S = ControlPlaneSafety
  import R = Router
  import G = Gate
  import opened Lifecycle
  import opened Pipeline
  import opened PipelineOwnership
  import opened PipelineSafety
  import opened PipelineRuns
  import opened PipelineWaiting
  import opened PipelineProgress

  /** The lifecycle has gone through exactly these states. */
  predicate WentThrough(p: Pipe, life: nat, h: seq<RequestState>) {
    life in p.lifes && p.lifes[life] == h
  }

  /** The thread is done, and its lifecycle went on by these states. */
  predicate EndedWith(p: Pipe, q: Pipe, t: nat, targets: seq<RequestState>) {
    && t in p.tasks && !p.tasks[t].Over? && p.tasks[t].life in p.lifes
    && t in q.tasks && q.tasks[t] == Over
    && WentThrough(q, p.tasks[t].life, p.lifes[p.tasks[t].life] + targets)
  }

  /** A thread that ends, in a state that differs in neither threads nor lifecycles, ends so. */
  lemma EndIs(p: Pipe, q: Pipe, t: nat, targets: seq<RequestState>)
    requires t in p.tasks && !p.tasks[t].Over? && p.tasks[t].life in p.lifes
    requires LegalPath(p.lifes[p.tasks[t].life]) && LegalPath(p.lifes[p.tasks[t].life] + targets)
    requires q.tasks == p.tasks && q.lifes == p.lifes
    ensures EndedWith(p, End(q, t, p.tasks[t].life, targets), t, targets)
  {
    MoveIs(q, p.tasks[t].life, targets);
  }

  lemma MayBeDenied(p: Pipe, t: nat)
    requires Inv(p) && t in p.tasks && !p.tasks[t].Over? && !Dispatches(p.tasks[t])
    ensures p.tasks[t].life in p.lifes && LegalPath(p.lifes[p.tasks[t].life])
    ensures LegalPath(p.lifes[p.tasks[t].life] + [Denied])
  {
    hide Inv;
    Holding(p, t);
    LegalExtend(p.lifes[p.tasks[t].life], Denied);
  }

  lemma AdvanceIs(p: Pipe, t: nat, env: Env)
    requires Inv(p) && t in p.tasks
    ensures Owned(p, p.tasks[t]) && Step(p, Advance(t, env)) == StepTask(p, t, env)
  {
    hide Inv, StepTask;
    GuardsHold(p, t, "");
  }

  // ----- A call by itself

  /** What a call makes of its lifecycle by itself. */
  lemma CallLeaves(p: Pipe, call: Call, first: P.Snapshot, second: P.Snapshot, targets: seq<RequestState>, task: Task)
    requires Drive(call, first, second, p.next) == (targets, task)
    ensures var q := Step(p, Submit(call, first, second));
      WentThrough(q, p.next, [Received] + targets) && p.next in q.tasks && q.tasks[p.next] == task
  {
    hide Drive, Walk;
    CallIsLegal(call, first, second, p.next);
    var started := p.(lifes := p.lifes[p.next := [Received]]);
    MoveIs(started, p.next, targets);
  }

  /** The person who calls may speak for this request. */
  predicate Speaks(call: Call) {
    && call.authenticated && call.decodes
    && call.request.proposal.caller == call.context.caller && call.request.proposal.session == call.context.session
  }

  /** A call that cannot be attributed to its request ends at once, and where it ends tells why. */
  lemma UnattributedCallEnds(p: Pipe, call: Call, first: P.Snapshot, second: P.Snapshot)
    requires !Speaks(call)
    ensures var q := Step(p, Submit(call, first, second));
      && p.next in q.tasks && q.tasks[p.next] == Over
      && WentThrough(q, p.next,
           if !call.authenticated then [Received, Denied]
           else if !call.decodes then [Received, Authenticated, Failed]
           else [Received, Authenticated, Denied])
  {
    var (targets, task) := Drive(call, first, second, p.next);
    CallLeaves(p, call, first, second, targets, task);
    assert [Received] + [Denied] == [Received, Denied];
    assert [Received] + [Authenticated, Failed] == [Received, Authenticated, Failed];
    assert [Received] + [Authenticated, Denied] == [Received, Authenticated, Denied];
  }

  /** A call for anything but a preparation ends refused, failed or answered, without a thread. */
  lemma OtherCallEnds(p: Pipe, authenticated: bool, fails: bool)
    ensures var q := Step(p, OtherCall(authenticated, fails));
      && q.tasks == p.tasks[p.next := Over]
      && WentThrough(q, p.next,
           if !authenticated then [Received, Denied]
           else if fails then [Received, Authenticated, Failed]
           else [Received, Authenticated])
  {
    hide Move, LegalPath;
    OtherCallIsLegal(authenticated, fails);
    MoveIs(p.(lifes := p.lifes[p.next := [Received]]), p.next, OtherTargets(authenticated, fails));
  }

  lemma OtherCallIsLegal(authenticated: bool, fails: bool)
    ensures LegalPath([Received])
    ensures LegalPath([Received] + OtherTargets(authenticated, fails))
    ensures [Received] + OtherTargets(authenticated, fails) ==
      if !authenticated then [Received, Denied]
      else if fails then [Received, Authenticated, Failed]
      else [Received, Authenticated]
  {
  }

  /**
   Without an answer of the policy a call ends: denied for an unfit
   capability, failed if nothing could be evaluated.
   */
  lemma UndecidedCallEnds(p: Pipe, call: Call, first: P.Snapshot, second: P.Snapshot)
    requires Speaks(call) && !P.CheckPolicy(first, call.request).Ready?
    ensures var q := Step(p, Submit(call, first, second));
      && p.next in q.tasks && q.tasks[p.next] == Over
      && WentThrough(q, p.next, [Received, Authenticated, if first.projects then Denied else Failed])
  {
    S.PolicyExactly(first, call.request);
    var (targets, task) := Drive(call, first, second, p.next);
    CallLeaves(p, call, first, second, targets, task);
    assert [Received] + targets == [Received, Authenticated, if first.projects then Denied else Failed];
  }

  /** What the policy answers decides: denied, prepared directly, or asked for consent or for the presented approval. */
  lemma DecidedCallGoesOn(p: Pipe, call: Call, first: P.Snapshot, second: P.Snapshot, checked: P.PathResult)
    requires Speaks(call) && P.CheckPolicy(first, call.request) == P.Ready(checked)
    ensures var q, n := Step(p, Submit(call, first, second)), p.next;
      && n in q.tasks
      && (checked.outcome == P.MustBeDenied ==>
            q.tasks[n] == Over && WentThrough(q, n, [Received, Authenticated, PolicyChecked, Denied]))
      && (checked.outcome == P.RequiresConfirmation ==>
            && WentThrough(q, n, [Received, Authenticated, PolicyChecked, AwaitingApproval])
            && q.tasks[n] ==
               if call.approval.None? then AskConsent(n, call.request, checked, call.context)
               else ConsumePresented(n, call.request, checked, call.context, call.approval.value))
  {
    hide Step;
    var (targets, task) := Drive(call, first, second, p.next);
    CallLeaves(p, call, first, second, targets, task);
    assert [Received] + [Authenticated, PolicyChecked, Denied] == [Received, Authenticated, PolicyChecked, Denied];
    assert [Received] + [Authenticated, PolicyChecked, AwaitingApproval]
      == [Received, Authenticated, PolicyChecked, AwaitingApproval];
  }

  /** A call that may proceed is prepared exactly if it still may and a model can be routed to; else it ends as told. */
  lemma DirectCallEnds(p: Pipe, call: Call, first: P.Snapshot, second: P.Snapshot)
    requires Speaks(call) && S.Decided(first, call.request, P.MayProceed)
    ensures var q, n := Step(p, Submit(call, first, second)), p.next;
      var reply := P.Prepare(second, call.request);
      && n in q.tasks
      && (q.tasks[n].Insert? <==>
            S.Decided(second, call.request, P.MayProceed)
            && R.Route(second.routing, call.request.route, call.request.candidates).Routed?)
      && (q.tasks[n].Insert? ==>
            && WentThrough(q, n, [Received, Authenticated, PolicyChecked, Approved, Prepared])
            && reply.Ready? && q.tasks[n] == Insert(n, call.request, reply.result, call.context, None, false))
      && (!q.tasks[n].Insert? ==>
            && q.tasks[n] == Over
            && WentThrough(q, n,
                 if reply.Broken? then [Received, Authenticated, PolicyChecked, Approved]
                 else if reply.RoutingError? then [Received, Authenticated, PolicyChecked, Approved, Failed]
                 else [Received, Authenticated, PolicyChecked, Approved, Denied]))
  {
    hide R.Route, P.CheckPolicy, P.Prepare, Step, Drive;
    DirectDriveIs(call, first, second, p.next);
    S.PreparesExactly(second, call.request);
    DirectPreparation(second, call.request);
    var (targets, task) := DriveDirect(call, second, p.next);
    CallLeaves(p, call, first, second, targets, task);
    assert [Received] + [Authenticated, PolicyChecked, Approved] == [Received, Authenticated, PolicyChecked, Approved];
    assert [Received] + [Authenticated, PolicyChecked, Approved, Failed]
      == [Received, Authenticated, PolicyChecked, Approved, Failed];
    assert [Received] + [Authenticated, PolicyChecked, Approved, Denied]
      == [Received, Authenticated, PolicyChecked, Approved, Denied];
    assert [Received] + [Authenticated, PolicyChecked, Approved, Prepared]
      == [Received, Authenticated, PolicyChecked, Approved, Prepared];
  }

  lemma DirectDriveIs(call: Call, first: P.Snapshot, second: P.Snapshot, life: nat)
    requires Speaks(call) && S.Decided(first, call.request, P.MayProceed)
    ensures Drive(call, first, second, life) == DriveDirect(call, second, life)
  {
    hide DriveDirect;
    S.PolicyExactly(first, call.request);
  }

  lemma DirectPreparation(w: P.Snapshot, r: P.ControlRequest)
    ensures P.Prepare(w, r).Ready? && P.Prepare(w, r).result.invocation.Some? ==>
      P.Prepare(w, r).result.outcome == P.MayProceed
  {
  }

  // ----- Asking for a consent, and not getting one in time

  /** Registering a consent leaves it pending for exactly this request; if it is refused, the request is denied. */
  lemma AskingLeaves(p: Pipe, t: nat, env: Env)
    requires Inv(p) && t in p.tasks && p.tasks[t].AskConsent?
    ensures var k, q := p.tasks[t], Step(p, Advance(t, env));
      var r := ConsentFor(p, k, env.now).1;
      if r.Ok? then
        && t in q.tasks && q.tasks[t] == Over && WentThrough(q, k.life, p.lifes[k.life])
        && r.value == C.Record(p.coord.next, k.context.requestId, k.request.proposal.caller, k.request.proposal.session,
                               env.now, env.now + p.consentLimits.ttl, C.Pending,
                               Pending(k.request, k.checked, k.life, k.context))
        && C.Holds(q.coord, r.value)
      else EndedWith(p, q, t, [Denied])
  {
    hide Inv, C.Register, C.Inv, End, Step, EndedWith;
    var k := p.tasks[t];
    MayBeDenied(p, t);
    ConsentIsDue(p, t);
    AdvanceIs(p, t, env);
    CoordinatorIsFine(p);
    CS.RegisterExactly(p.coord, p.consentLimits, k.context.requestId, k.request.proposal.caller,
                       k.request.proposal.session, Pending(k.request, k.checked, k.life, k.context), env.now);
    C.RegisterAdds(p.coord, p.consentLimits, k.context.requestId, k.request.proposal.caller,
                   k.request.proposal.session, Pending(k.request, k.checked, k.life, k.context), env.now);
    EndIs(p, p.(coord := ConsentFor(p, k, env.now).0), t, [Denied]);
  }

  /** Whatever the state, nothing is registered for a request that needs no consent or does not wait for one. */
  lemma NothingToAsk(p: Pipe, t: nat, env: Env)
    requires t in p.tasks && p.tasks[t].AskConsent? && Owned(p, p.tasks[t])
    requires p.tasks[t].checked.outcome != P.RequiresConfirmation || Last(p.lifes[p.tasks[t].life]) != AwaitingApproval
    ensures var q := Step(p, Advance(t, env)); q.coord == p.coord && t in q.tasks && q.tasks[t] == Over
  {
    hide Walk, C.Register;
  }

  /** A consent whose time has run out starts nothing: looking it up or deciding it denies its request. */
  lemma OverdueConsentDenies(p: Pipe, id: nat, now: real, op: Op)
    requires Inv(p) && id in p.coord.records
    requires p.coord.records[id].state == C.Pending && p.coord.records[id].expires <= now
    requires (op.ConsentDecide? || op.ConsentGet?) && op.id == id && op.now == now
    ensures var q, life := Step(p, op), p.coord.records[id].payload.life;
      && q.tasks == p.tasks && life in p.lifes
      && WentThrough(q, life, p.lifes[life] + [Denied])
      && id in q.coord.records && q.coord.records[id].state == C.Expired
  {
    hide Inv, Walk;
    var life := p.coord.records[id].payload.life;
    ConsentHolds(p, id);
    var expired := p.coord.(records := p.coord.records[id := p.coord.records[id].(state := C.Expired)]);
    CS.DecideRefuses(p.coord, id, true, now);
    CS.DecideRefuses(p.coord, id, false, now);
    if op.ConsentGet? {
      CS.GetExactly(p.coord, id, op.requestId, op.caller, op.session, now);
    }
    LegalExtend(p.lifes[life], Denied);
    MoveIs(p.(coord := expired), life, [Denied]);
  }

  lemma ConsentHolds(p: Pipe, id: nat)
    requires Inv(p) && id in p.coord.records && p.coord.records[id].state == C.Pending
    ensures At(p.lifes, p.coord.records[id].payload.life, AwaitingApproval)
    ensures LegalPath(p.lifes[p.coord.records[id].payload.life])
  {
  }

  /** A decision in time starts one thread for the request: to issue an approval, or to deny it. */
  lemma DecisionStarts(p: Pipe, id: nat, approve: bool, now: real)
    requires Inv(p) && id in p.coord.records && CS.Open(p.coord.records[id], now)
    ensures var q, c := Step(p, ConsentDecide(id, approve, now)), p.coord.records[id].payload;
      && q.tasks == p.tasks[p.next := if approve then Issue(c.life, c) else Reject(c.life)]
      && q.lifes == p.lifes && q.store == p.store
  {
    hide Inv;
    CS.DecideExactly(p.coord, id, approve, now);
  }

  /** A rejected request is denied by the thread that its rejection starts, whatever others do in between. */
  lemma RejectionDenies(p: Pipe, id: nat, now: real, others: seq<Op>, q: Pipe, env: Env)
    requires Inv(p) && id in p.coord.records && CS.Open(p.coord.records[id], now)
    requires q == Then(p, ConsentDecide(id, false, now), others) && NoneSteps(others, p.next)
    ensures EndedWith(q, Step(q, Advance(p.next, env)), p.next, [Denied])
    ensures p.next in q.tasks && q.tasks[p.next] == Reject(p.coord.records[id].payload.life)
  {
    hide Inv, Step;
    DecisionStarts(p, id, false, now);
    StepKeepsInv(p, ConsentDecide(id, false, now));
    ThreadWaitsOn(Step(p, ConsentDecide(id, false, now)), others, p.next);
    RejectEnds(q, p.next, env);
  }

  lemma RejectEnds(q: Pipe, t: nat, env: Env)
    requires Inv(q) && t in q.tasks && q.tasks[t].Reject?
    ensures EndedWith(q, Step(q, Advance(t, env)), t, [Denied])
  {
    hide Inv, End, Step, EndedWith;
    MayBeDenied(q, t);
    AdvanceIs(q, t, env);
    EndIs(q, q, t, [Denied]);
  }

  // ----- A presented approval

  /** A presented approval is taken exactly if it is available, in time and exact; any other denies the request. */
  lemma PresentedExactly(p: Pipe, t: nat, env: Env)
    requires Inv(p) && t in p.tasks && p.tasks[t].ConsumePresented?
    ensures var k, q := p.tasks[t], Step(p, Advance(t, env));
      if k.approval in p.store.records && p.store.records[k.approval].state == A.Available
         && env.lookup < p.store.records[k.approval].expiresAt
         && p.store.records[k.approval].binding == k.checked.fingerprint
         && p.store.records[k.approval].caller == k.context.caller
         && p.store.records[k.approval].session == k.context.session
      then q.taken == p.taken[k.approval := k.life]
      else EndedWith(p, q, t, [Denied]) && q.taken == p.taken
  {
    hide Inv, End, Step, EndedWith, Confirm, A.WellFormed, A.Consume, Spent;
    var k := p.tasks[t];
    MayBeDenied(p, t);
    AdvanceIs(p, t, env);
    StoreIsFine(p);
    A.ConsumeIsExact(p.store, k.approval, k.checked.fingerprint, k.context.caller, k.context.session, env.lookup,
                     env.stamp);
    ConsumedFresh(p.store, p.taken, k.approval, k.checked.fingerprint, k.context.caller, k.context.session, env.lookup,
                  env.stamp);
    var (store, r) := A.Consume(p.store, k.approval, k.checked.fingerprint, k.context.caller, k.context.session,
                                env.lookup, env.stamp);
    EndIs(p, p.(store := store), t, [Denied]);
    EndTakes(p.(store := store), t, k.life, [Denied]);
    if r.Ok? {
      ConfirmTakes(p.(store := store), t, k.life, k.request, k.context, r.value, env.w, false);
    }
  }

  lemma EndTakes(q: Pipe, t: nat, life: nat, targets: seq<RequestState>)
    ensures End(q, t, life, targets).taken == q.taken && End(q, t, life, targets).registered == q.registered
  {
    hide Walk;
  }

  lemma ConfirmTakes(q: Pipe, t: nat, life: nat, request: P.ControlRequest, context: G.Context, a: A.Approval,
                     w: P.Snapshot, byConsent: bool)
    ensures Confirm(q, t, life, request, context, a, w, byConsent).taken == q.taken[a.id := life]
  {
    hide Walk, End;
    ConfirmEnds(q, t, life, request, context, a, w, byConsent);
    EndTakes(q.(taken := q.taken[a.id := life]), t, life, Ending(P.PrepareConfirmed(w, request, a), byConsent));
  }

  // ----- A registration that is refused

  /** A refused registration denies a direct request; a consented one stays prepared, and nothing will execute it. */
  lemma RefusedRegistrationLeaves(p: Pipe, t: nat, env: Env)
    requires Inv(p) && t in p.tasks && p.tasks[t].Insert?
    requires !G.Inserts(p.prepared, p.tasks[t].context.requestId, p.gateLimits, env.now)
    ensures EndedWith(p, Step(p, Advance(t, env)), t, if p.tasks[t].byConsent then [] else [Denied])
    ensures Step(p, Advance(t, env)).registered == p.registered
  {
    hide Inv, End, Step, EndedWith, G.Registrable, G.Inserts, G.Purged;
    var k := p.tasks[t];
    MayBeDenied(p, t);
    AdvanceIs(p, t, env);
    assert p.lifes[k.life] + [] == p.lifes[k.life];
    var targets := if k.byConsent then [] else [Denied];
    var purged := p.(prepared := G.Purged(p.prepared, env.now));
    EndIs(p, p, t, targets);
    EndIs(p, purged, t, targets);
    EndTakes(p, t, k.life, targets);
    EndTakes(purged, t, k.life, targets);
  }

  // ----- What an execution reads and leaves

  lemma JudgingReads(s: A.Store, e: G.Entry<Seat>, c: G.Context, current: P.ControlRequest, env: Env)
    ensures JudgedStore(s, e, c, current, env) ==
      if env.now < e.expiresAt
         && current.proposal.caller == c.caller && current.proposal.session == c.session
         && e.request.proposal.caller == c.caller && e.request.proposal.session == c.session
         && e.result.outcome == P.RequiresConfirmation && e.approval.Some?
      then A.Looked(s, e.approval.value, env.lookup)
      else s
  {
    hide P.RevalidateRoute, A.Looked;
  }

  lemma MoveKeepsStore(p: Pipe, life: nat, targets: seq<RequestState>)
    ensures Move(p, life, targets).store == p.store
  {
    hide Walk;
  }

  lemma ExecutionLeavesStore(p: Pipe, c: G.Context, current: P.ControlRequest, env: Env)
    requires Executable(p, c.requestId)
    ensures var e := p.prepared[c.requestId];
      StepExecute(p, c, current, env).store ==
        if Last(p.lifes[e.life.life]) == Prepared then JudgedStore(p.store, e, c, current, env) else p.store
  {
    hide Move, G.RevalidationError, EvidenceOf, JudgedStore;
    var e := p.prepared[c.requestId];
    MoveKeepsStore(p.(store := JudgedStore(p.store, e, c, current, env)), e.life.life, [Denied]);
    MoveKeepsStore(p.(store := JudgedStore(p.store, e, c, current, env)), e.life.life, [Executing]);
  }

  /** Judging a waiting request looks its approval up exactly if it needs one and is still its person's and in time. */
  lemma ExecutionReadsApproval(p: Pipe, c: G.Context, current: P.ControlRequest, env: Env)
    requires Inv(p) && c.genuine && c.requestId in p.prepared
    ensures var e, q := p.prepared[c.requestId], Step(p, Execute(c, current, env));
      && e.life.life in p.lifes && p.lifes[e.life.life] != []
      && q.store ==
        if Last(p.lifes[e.life.life]) == Prepared && env.now < e.expiresAt
           && current.proposal.caller == c.caller && current.proposal.session == c.session
           && e.request.proposal.caller == c.caller && e.request.proposal.session == c.session
           && e.result.outcome == P.RequiresConfirmation && e.approval.Some?
        then A.Looked(p.store, e.approval.value, env.lookup)
        else p.store
  {
    hide Inv, StepExecute, JudgedStore, A.Looked;
    GuardsHold(p, 0, c.requestId);
    ExecutionLeavesStore(p, c, current, env);
    JudgingReads(p.store, p.prepared[c.requestId], c, current, env);
  }

  // ----- What the runtime reports

  /** The runtime's report: completed or denied as it says, failed for anything else. */
  function Reported(status: RequestState): RequestState {
    match status
    case Completed => Completed
    case Denied => Denied
    case _ => Failed
  }

  lemma HandedOver(p: Pipe, t: nat, env: Env)
    requires Inv(p) && t in p.tasks && p.tasks[t].Run?
    ensures var k, q := p.tasks[t], Step(p, Advance(t, env));
      t in q.tasks && q.tasks[t] == Finish(k.life, k.dispatch, Reported(env.status))
  {
    hide Inv, Step;
    AdvanceIs(p, t, env);
  }

  lemma FinishEnds(q: Pipe, t: nat, env: Env)
    requires Inv(q) && t in q.tasks && q.tasks[t].Finish?
    ensures EndedWith(q, Step(q, Advance(t, env)), t, [q.tasks[t].status])
  {
    hide Inv, End, Step, EndedWith;
    Holding(q, t);
    AdvanceIs(q, t, env);
    LegalExtend(q.lifes[q.tasks[t].life], q.tasks[t].status);
    EndIs(q, q, t, [q.tasks[t].status]);
  }

  /** An executed request ends exactly as the runtime reported, whatever others do before that is recorded. */
  lemma RuntimeReportIsRecorded(p: Pipe, t: nat, env: Env, others: seq<Op>, q: Pipe, last: Env)
    requires Inv(p) && t in p.tasks && p.tasks[t].Run?
    requires q == Then(p, Advance(t, env), others) && NoneSteps(others, t)
    ensures EndedWith(q, Step(q, Advance(t, last)), t, [Reported(env.status)])
    ensures t in q.tasks && !q.tasks[t].Over? && q.tasks[t].life == p.tasks[t].life
  {
    hide Inv, Step;
    HandedOver(p, t, env);
    StepKeepsInv(p, Advance(t, env));
    ThreadWaitsOn(Step(p, Advance(t, env)), others, t);
    FinishEnds(q, t, last);
  }
}
