/**
 The request, consent and execution pipeline as one machine. Handler, consent
 and execution threads share the approval store, the consent records, the gate's
 prepared table and the lifecycles; every step is one critical section.
 */
module Pipeline {
  import opened Wrappers
  import A = Approvals
  import C = Coordinator
  import P = ControlPlane
  import G = Gate
  import opened Lifecycle

  /** What a pending consent record carries. */
  datatype Pending = Pending(request: P.ControlRequest, checked: P.PathResult, life: nat, context: G.Context)

  /** A registration and the lifecycle it shares. */
  datatype Seat = Seat(registration: nat, life: nat)

  /** One call of the adapter: who, what, on which registration, and what was re-evaluated just before. */
  datatype Dispatch = Dispatch(
    seat: Seat, context: G.Context, request: P.ControlRequest, outcome: P.Outcome,
    invocation: P.Invocation, rebuilt: P.PathResult, approval: Option<nat>)

  /** What a thread that owns a lifecycle will do next. */
  datatype Task =
    | AskConsent(life: nat, request: P.ControlRequest, checked: P.PathResult, context: G.Context)
    | ConsumePresented(life: nat, request: P.ControlRequest, checked: P.PathResult, context: G.Context, approval: nat)
    | Reject(life: nat)
    | Issue(life: nat, pending: Pending)
    | Offer(life: nat, pending: Pending, approval: nat)
    | Take(life: nat, pending: Pending, approval: nat)
    | MatchApproval(life: nat, request: P.ControlRequest, result: P.PathResult, context: G.Context, approval: nat,
                    byConsent: bool)
    | Insert(life: nat, request: P.ControlRequest, result: P.PathResult, context: G.Context, given: Option<nat>,
             byConsent: bool)
    | Run(life: nat, dispatch: Dispatch)
    | Finish(life: nat, dispatch: Dispatch, status: RequestState)
    | Over

  /**
   `next` numbers lifecycles, tasks and registrations. `registered`, `taken` and
   `dispatches` are history: which lifecycle each registration shares, which
   lifecycle consumed each approval, and every dispatch. `illegal` records an
   attempted illegal transition.
   */
  datatype Pipe = Pipe(
    lifes: map<nat, seq<RequestState>>, tasks: map<nat, Task>, store: A.Store,
    coord: C.Coord<Pending>, consentLimits: C.Limits, prepared: map<string, G.Entry<Seat>>, gateLimits: G.Limits,
    next: nat, registered: map<nat, nat>, taken: map<nat, nat>, dispatches: seq<Dispatch>, illegal: bool)

  /** What a step reads from its surroundings. */
  datatype Env = Env(now: real, lookup: real, stamp: real, matchNow: real, w: P.Snapshot, targetHolds: bool,
                     status: RequestState)

  /** How far a `prepare` call gets before it first shares anything. */
  datatype Call = Call(authenticated: bool, decodes: bool, context: G.Context, request: P.ControlRequest,
                       approval: Option<nat>)

  datatype Op =
    | Submit(call: Call, first: P.Snapshot, second: P.Snapshot)
    | OtherCall(authenticated: bool, fails: bool)
    | ConsentGet(id: nat, requestId: string, caller: string, session: string, now: real)
    | ConsentDecide(id: nat, approve: bool, now: real)
    | Execute(context: G.Context, current: P.ControlRequest, env: Env)
    | Advance(task: nat, env: Env)
    | Store(op: A.StoreOp)

  /** Follow transitions in order; `None` as soon as one is illegal. */
  function Walk(h: seq<RequestState>, targets: seq<RequestState>): Option<seq<RequestState>>
    decreases |targets|
  {
    if targets == [] then Some(h)
    else if h != [] && Legal(Last(h), targets[0]) then Walk(h + [targets[0]], targets[1..])
    else None
  }

  /** Apply transitions to a shared lifecycle, noting an illegal attempt. */
  function Move(p: Pipe, life: nat, targets: seq<RequestState>): Pipe {
    if life in p.lifes && Walk(p.lifes[life], targets).Some?
    then p.(lifes := p.lifes[life := Walk(p.lifes[life], targets).value])
    else p.(illegal := true)
  }

  function SetTask(p: Pipe, t: nat, task: Task): Pipe {
    p.(tasks := p.tasks[t := task])
  }

  /** End a thread after the given transitions of its lifecycle. */
  function End(p: Pipe, t: nat, life: nat, targets: seq<RequestState>): Pipe {
    SetTask(Move(p, life, targets), t, Over)
  }

  // ----- The handler, up to its first shared step

  /** The transitions a `prepare` call makes by itself, and the thread it leaves behind. */
  function Drive(call: Call, first: P.Snapshot, second: P.Snapshot, life: nat): (seq<RequestState>, Task) {
    if !call.authenticated then ([Denied], Over)
    else if !call.decodes then ([Authenticated, Failed], Over)
    else if !G.SamePerson(call.context, call.request) then ([Authenticated, Denied], Over)
    else match P.CheckPolicy(first, call.request)
      case PlaneError => ([Authenticated, Denied], Over)
      case RoutingError => ([Authenticated, Failed], Over)
      case Broken => ([Authenticated, Failed], Over)
      case Ready(checked) =>
        if checked.outcome == P.MustBeDenied then ([Authenticated, PolicyChecked, Denied], Over)
        else if checked.outcome == P.MayProceed then DriveDirect(call, second, life)
        else if call.approval.None? then
          ([Authenticated, PolicyChecked, AwaitingApproval], AskConsent(life, call.request, checked, call.context))
        else
          ([Authenticated, PolicyChecked, AwaitingApproval],
           ConsumePresented(life, call.request, checked, call.context, call.approval.value))
  }

  function DriveDirect(call: Call, second: P.Snapshot, life: nat): (seq<RequestState>, Task) {
    match P.Prepare(second, call.request)
    case RoutingError => ([Authenticated, PolicyChecked, Approved, Failed], Over)
    case PlaneError => ([Authenticated, PolicyChecked, Approved, Denied], Over)
    case Broken => ([Authenticated, PolicyChecked, Approved], Over)
    case Ready(result) =>
      if result.outcome != P.MayProceed || result.invocation.None?
      then ([Authenticated, PolicyChecked, Approved, Denied], Over)
      else ([Authenticated, PolicyChecked, Approved, Prepared],
            Insert(life, call.request, result, call.context, None, false))
  }

  /** A new lifecycle with its own thread. */
  function Begin(p: Pipe, targets: seq<RequestState>, task: Task): Pipe {
    var q := Move(p.(lifes := p.lifes[p.next := [Received]]), p.next, targets);
    q.(tasks := q.tasks[p.next := task], next := p.next + 1)
  }

  // ----- Threads after that

  /** A working thread's lifecycle exists, and what it matched can be invoked, as always holds. */
  predicate Owned(p: Pipe, k: Task) {
    && (!k.Over? ==> k.life in p.lifes && p.lifes[k.life] != [])
    && (k.MatchApproval? ==> k.result.invocation.Some?)
  }

  /** Why a request is turned away before its consent is registered. */
  function ConsentRefusal(outcome: P.Outcome, state: RequestState): Option<string> {
    if outcome != P.RequiresConfirmation then Some("consent_not_required")
    else if state != AwaitingApproval then Some("invalid_consent_state")
    else None
  }

  /** Registering the consent that a thread asks for. */
  ghost function ConsentFor(p: Pipe, k: Task, now: real): (C.Coord<Pending>, Result<C.Record<Pending>>)
    requires k.AskConsent?
  {
    C.Register(p.coord, p.consentLimits, k.context.requestId, k.request.proposal.caller, k.request.proposal.session,
               Pending(k.request, k.checked, k.life, k.context), now)
  }

  ghost function StepAskConsent(p: Pipe, t: nat, k: Task, env: Env): Pipe
    requires k.AskConsent? && Owned(p, k)
  {
    if ConsentRefusal(k.checked.outcome, Last(p.lifes[k.life])).Some? then End(p, t, k.life, [Denied])
    else
      var (coord, r) := ConsentFor(p, k, env.now);
      var q := p.(coord := coord);
      if r.Ok? then SetTask(q, t, Over) else End(q, t, k.life, [Denied])
  }

  /** Prepare against a consumed approval; on the consent path every error denies. */
  function Confirm(p: Pipe, t: nat, life: nat, request: P.ControlRequest, context: G.Context, a: A.Approval,
                   w: P.Snapshot, byConsent: bool)
    : Pipe
  {
    var q := p.(taken := p.taken[a.id := life]);
    match P.PrepareConfirmed(w, request, a)
    case Ready(result) =>
      SetTask(Move(q, life, [Approved, Prepared]), t, MatchApproval(life, request, result, context, a.id, byConsent))
    case RoutingError => End(q, t, life, [Approved, if byConsent then Denied else Failed])
    case PlaneError => End(q, t, life, [Approved, Denied])
    case Broken => End(q, t, life, if byConsent then [Approved, Denied] else [Approved])
  }

  function StepConsume(p: Pipe, t: nat, k: Task, env: Env): Pipe
    requires k.ConsumePresented?
  {
    var (store, r) := A.Consume(p.store, k.approval, k.checked.fingerprint, k.context.caller, k.context.session,
                                env.lookup, env.stamp);
    var q := p.(store := store);
    if r.Err? then End(q, t, k.life, [Denied])
    else Confirm(q, t, k.life, k.request, k.context, r.value, env.w, false)
  }

  function StepIssue(p: Pipe, t: nat, k: Task, env: Env): Pipe
    requires k.Issue?
  {
    var c := k.pending;
    var (store, r) := A.Issue(p.store, c.checked.fingerprint, c.request.proposal.caller, c.request.proposal.session,
                              30.0, env.now);
    var q := p.(store := store);
    if r.Err? then End(q, t, k.life, [Denied]) else SetTask(q, t, Offer(k.life, c, r.value.id))
  }

  function StepOffer(p: Pipe, t: nat, k: Task, env: Env): Pipe
    requires k.Offer?
  {
    var (store, r) := A.MakeAvailable(p.store, k.approval, env.lookup);
    var q := p.(store := store);
    if r.Err? then End(q, t, k.life, [Denied]) else SetTask(q, t, Take(k.life, k.pending, k.approval))
  }

  function StepTake(p: Pipe, t: nat, k: Task, env: Env): Pipe
    requires k.Take?
  {
    var c := k.pending;
    var (store, r) := A.Consume(p.store, k.approval, c.checked.fingerprint,
      c.request.proposal.caller, c.request.proposal.session, env.lookup, env.stamp);
    var q := p.(store := store);
    if r.Err? then End(q, t, k.life, [Denied])
    else Confirm(q, t, k.life, c.request, c.context, r.value, env.w, true)
  }

  /** A refused registration denies the request, except on the consent path, where it stays prepared. */
  function RefuseRegistration(p: Pipe, t: nat, life: nat, byConsent: bool): Pipe {
    End(p, t, life, if byConsent then [] else [Denied])
  }

  /** How the approval check of a registration ends: refused at once, refused after the lookup, or passed. */
  datatype Matching = Unfit | Mismatch | Matches

  function MatchingOf(p: Pipe, k: Task, env: Env): Matching
    requires k.MatchApproval? && k.life in p.lifes && p.lifes[k.life] != [] && k.result.invocation.Some?
  {
    if !G.Registrable(k.context, k.request, k.result, Last(p.lifes[k.life]), Some(k.approval)) then Unfit
    else if G.ApprovalMatches(p.store, k.approval, k.result.invocation.value.fingerprint, k.context, env.lookup,
                              env.matchNow)
    then Matches
    else Mismatch
  }

  function Matched(k: Task): Task
    requires k.MatchApproval?
  {
    Insert(k.life, k.request, k.result, k.context, Some(k.approval), k.byConsent)
  }

  function StepMatch(p: Pipe, t: nat, k: Task, env: Env): Pipe
    requires k.MatchApproval? && k.life in p.lifes && p.lifes[k.life] != [] && k.result.invocation.Some?
  {
    match MatchingOf(p, k, env)
    case Unfit => RefuseRegistration(p, t, k.life, k.byConsent)
    case Mismatch => RefuseRegistration(p.(store := A.Looked(p.store, k.approval, env.lookup)), t, k.life, k.byConsent)
    case Matches => SetTask(p.(store := A.Looked(p.store, k.approval, env.lookup)), t, Matched(k))
  }

  function StepInsert(p: Pipe, t: nat, k: Task, env: Env): Pipe
    requires k.Insert? && k.life in p.lifes && p.lifes[k.life] != []
  {
    if !G.Registrable(k.context, k.request, k.result, Last(p.lifes[k.life]), k.given)
    then RefuseRegistration(p, t, k.life, k.byConsent)
    else if !G.Inserts(p.prepared, k.context.requestId, p.gateLimits, env.now)
    then RefuseRegistration(p.(prepared := G.Purged(p.prepared, env.now)), t, k.life, k.byConsent)
    else
      var e := G.Entry(k.request, k.result, k.given, Seat(p.next, k.life), env.now + p.gateLimits.ttl);
      SetTask(p.(prepared := G.Inserted(p.prepared, k.context.requestId, e, p.gateLimits, env.now),
                 registered := p.registered[p.next := k.life], next := p.next + 1), t, Over)
  }

  function StepRun(p: Pipe, t: nat, k: Task, env: Env): Pipe
    requires k.Run?
  {
    SetTask(p.(dispatches := p.dispatches + [k.dispatch]), t,
            Finish(k.life, k.dispatch, if env.status in {Completed, Denied} then env.status else Failed))
  }

  /** Steps that ask for a consent, or consume an approval. */
  ghost function StepAsked(p: Pipe, t: nat, k: Task, env: Env): Pipe
    requires Owned(p, k)
  {
    match k
    case AskConsent(_, _, _, _) => StepAskConsent(p, t, k, env)
    case ConsumePresented(_, _, _, _, _) => StepConsume(p, t, k, env)
    case Take(_, _, _) => StepTake(p, t, k, env)
    case _ => p
  }

  /** Steps of the consent endpoint that make an approval available. */
  function StepDecided(p: Pipe, t: nat, k: Task, env: Env): Pipe {
    match k
    case Issue(_, _) => StepIssue(p, t, k, env)
    case Offer(_, _, _) => StepOffer(p, t, k, env)
    case _ => p
  }

  /** Steps of a thread that registers a prepared request or executes one. */
  function StepGate(p: Pipe, t: nat, k: Task, env: Env): Pipe
    requires Owned(p, k)
  {
    match k
    case MatchApproval(_, _, _, _, _, _) => StepMatch(p, t, k, env)
    case Insert(_, _, _, _, _, _) => StepInsert(p, t, k, env)
    case Run(_, _) => StepRun(p, t, k, env)
    case Finish(life, _, status) => End(p, t, life, [status])
    case _ => p
  }

  ghost function StepTask(p: Pipe, t: nat, env: Env): Pipe
    requires t in p.tasks && Owned(p, p.tasks[t])
  {
    var k := p.tasks[t];
    if k.AskConsent? || k.ConsumePresented? || k.Take? then StepAsked(p, t, k, env)
    else if k.Reject? then End(p, t, k.life, [Denied])
    else if k.Issue? || k.Offer? then StepDecided(p, t, k, env)
    else StepGate(p, t, k, env)
  }

  // ----- The consent endpoint and the gate

  /** A lookup that finds an expired consent denies a request still waiting for it. */
  function DenyExpired(p: Pipe, id: nat, coord: C.Coord<Pending>): Pipe {
    var q := p.(coord := coord);
    if id in coord.records && coord.records[id].state == C.Expired
       && coord.records[id].payload.life in p.lifes && p.lifes[coord.records[id].payload.life] != []
       && Last(p.lifes[coord.records[id].payload.life]) == AwaitingApproval
    then Move(q, coord.records[id].payload.life, [Denied])
    else q
  }

  function StepGet(p: Pipe, id: nat, requestId: string, caller: string, session: string, now: real): Pipe {
    DenyExpired(p, id, C.Get(p.coord, id, requestId, caller, session, now).0)
  }

  function StepDecide(p: Pipe, id: nat, approve: bool, now: real): Pipe {
    var (coord, r) := C.Decide(p.coord, id, approve, now);
    if r.Err? then DenyExpired(p, id, coord)
    else
      var c := r.value.payload;
      p.(coord := coord, next := p.next + 1,
         tasks := p.tasks[p.next := if approve then Issue(c.life, c) else Reject(c.life)])
  }

  function EvidenceOf(current: P.ControlRequest, env: Env): G.Evidence {
    G.Evidence(env.now, env.lookup, env.matchNow, P.RevalidateRoute(env.w, current), env.targetHolds)
  }

  /** The approval store after a request was judged, which lazily expires what it reads. */
  function JudgedStore(s: A.Store, e: G.Entry<Seat>, c: G.Context, current: P.ControlRequest, env: Env): A.Store {
    if G.LooksUpApproval(c, e, current, EvidenceOf(current, env)) then A.Looked(s, e.approval.value, env.lookup) else s
  }

  function DispatchOf(e: G.Entry<Seat>, c: G.Context, current: P.ControlRequest, env: Env): Dispatch
    requires e.result.invocation.Some? && EvidenceOf(current, env).rebuilt.Ready?
  {
    Dispatch(e.life, c, current, e.result.outcome, e.result.invocation.value,
             EvidenceOf(current, env).rebuilt.result, e.approval)
  }

  /** Start execution of a registration on a new thread. */
  function Start(p: Pipe, d: Dispatch): Pipe {
    var m := Move(p, d.seat.life, [Executing]);
    m.(tasks := m.tasks[p.next := Run(d.seat.life, d)], next := p.next + 1)
  }

  /** A registered request with an invocation and a lifecycle, as every registered request is. */
  predicate Executable(p: Pipe, id: string) {
    && id in p.prepared && p.prepared[id].result.invocation.Some?
    && p.prepared[id].life.life in p.lifes && p.lifes[p.prepared[id].life.life] != []
  }

  function VerdictOn(p: Pipe, c: G.Context, current: P.ControlRequest, env: Env): G.Verdict
    requires Executable(p, c.requestId)
  {
    G.Judge(p.prepared, c, Last(p.lifes[p.prepared[c.requestId].life.life]), current, p.store, EvidenceOf(current, env))
  }

  /** The first locked block of `execute` on a registered request. */
  function StepExecute(p: Pipe, c: G.Context, current: P.ControlRequest, env: Env): Pipe
    requires Executable(p, c.requestId)
  {
    var e := p.prepared[c.requestId];
    var judged := p.(store := JudgedStore(p.store, e, c, current, env));
    match VerdictOn(p, c, current, env)
    case Refused(_) => Move(judged, e.life.life, [Denied])
    case Go => Start(judged, DispatchOf(e, c, current, env))
    case _ => p
  }

  /** What any thread of any endpoint may do next. */
  ghost function Step(p: Pipe, op: Op): Pipe {
    match op
    case Submit(call, first, second) =>
      Begin(p, Drive(call, first, second, p.next).0, Drive(call, first, second, p.next).1)
    case OtherCall(authenticated, fails) => Begin(p, OtherTargets(authenticated, fails), Over)
    case ConsentGet(id, requestId, caller, session, now) => StepGet(p, id, requestId, caller, session, now)
    case ConsentDecide(id, approve, now) => StepDecide(p, id, approve, now)
    case Execute(c, current, env) =>
      if c.genuine && Executable(p, c.requestId) then StepExecute(p, c, current, env) else p
    case Advance(t, env) => if t in p.tasks && Owned(p, p.tasks[t]) then StepTask(p, t, env) else p
    case Store(a) => p.(store := A.Apply(p.store, a))
  }

  /** A call that prepares nothing: refused, answered, or failed. */
  function OtherTargets(authenticated: bool, fails: bool): seq<RequestState> {
    if !authenticated then [Denied] else if fails then [Authenticated, Failed] else [Authenticated]
  }

  ghost function RunAll(p: Pipe, ops: seq<Op>): Pipe
    decreases |ops|
  {
    if ops == [] then p else RunAll(Step(p, ops[0]), ops[1..])
  }
}
