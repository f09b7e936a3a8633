/** Whole runs of the pipeline: every interleaving of its three endpoints. */
module PipelineRuns {
  import opened Wrappers
  import A = Approvals
  import C = Coordinator
  import P = ControlPlane
  import G = Gate
  import opened Lifecycle
  import opened Pipeline
  import opened PipelineOwnership
  import opened PipelineSafety

  // ----- Calls that begin a lifecycle

  /** Where a call's own transitions lead: a legal path, and a thread that owns where it ends. */
  ghost predicate Begun(targets: seq<RequestState>, task: Task, n: nat) {
    && LegalPath([Received] + targets)
    && (!task.Over? ==> task.life == n && Last([Received] + targets) == Expected(task))
    && (task.AskConsent? || task.ConsumePresented? || task.Insert? || task.Over?)
    && (task.AskConsent? ==> task.checked.outcome == P.RequiresConfirmation)
    && (task.Insert? ==> task.given.None? && task.result.invocation.Some? && task.result.outcome == P.MayProceed)
  }

  lemma OneMove(a: RequestState)
    requires Legal(Received, a)
    ensures LegalPath([Received] + [a])
  {
    LegalExtend([Received], a);
  }

  lemma TwoMoves(a: RequestState, b: RequestState)
    requires Legal(Received, a) && Legal(a, b)
    ensures LegalPath([Received] + [a, b])
  {
    ExtendTwice([Received], a, b);
  }

  lemma ThreeMoves(a: RequestState, b: RequestState, c: RequestState)
    requires Legal(Received, a) && Legal(a, b) && Legal(b, c)
    ensures LegalPath([Received] + [a, b, c])
  {
    TwoMoves(a, b);
    LegalExtend([Received] + [a, b], c);
    assert [Received] + [a, b, c] == [Received] + [a, b] + [c];
  }

  lemma FourMoves(a: RequestState, b: RequestState, c: RequestState, d: RequestState)
    requires Legal(Received, a) && Legal(a, b) && Legal(b, c) && Legal(c, d)
    ensures LegalPath([Received] + [a, b, c, d])
  {
    ThreeMoves(a, b, c);
    LegalExtend([Received] + [a, b, c], d);
    assert [Received] + [a, b, c, d] == [Received] + [a, b, c] + [d];
  }

  lemma DirectBegins(call: Call, second: P.Snapshot, n: nat)
    ensures Begun(DriveDirect(call, second, n).0, DriveDirect(call, second, n).1, n)
  {
    ThreeMoves(Authenticated, PolicyChecked, Approved);
    FourMoves(Authenticated, PolicyChecked, Approved, Failed);
    FourMoves(Authenticated, PolicyChecked, Approved, Denied);
    FourMoves(Authenticated, PolicyChecked, Approved, Prepared);
  }

  /** Whatever a call contains, its own transitions are legal and its thread starts where they end. */
  lemma CallIsLegal(call: Call, first: P.Snapshot, second: P.Snapshot, n: nat)
    ensures Begun(Drive(call, first, second, n).0, Drive(call, first, second, n).1, n)
  {
    DirectBegins(call, second, n);
    OneMove(Denied);
    TwoMoves(Authenticated, Failed);
    TwoMoves(Authenticated, Denied);
    ThreeMoves(Authenticated, PolicyChecked, Denied);
    ThreeMoves(Authenticated, PolicyChecked, AwaitingApproval);
  }

  lemma NewTaskOk(task: Task, targets: seq<RequestState>, n: nat, store: A.Store, taken: Taken, registered: Seats)
    requires Begun(targets, task, n)
    ensures TaskOk(task, store, taken, registered) && !task.Run?
  {
  }

  lemma NewThread(p: Pipe, h: seq<RequestState>, task: Task)
    requires Inv(p) && LegalPath(h) && TaskOk(task, p.store, p.taken, p.registered) && !task.Run?
    requires !task.Over? ==> task.life == p.next && Last(h) == Expected(task)
    ensures Inv(p.(lifes := p.lifes[p.next := h], tasks := p.tasks[p.next := task], next := p.next + 1))
  {
    CallBegins(p.lifes, p.tasks, p.coord.records, p.prepared, p.next, h, task);
    OneTaskChanges(p.tasks, p.store, p.taken, p.registered, p.next, task);
    NewLife(p.lifes, p.tasks, p.registered, p.next, h, task);
    NewIsNotDispatched(p.lifes, p.tasks, p.dispatches, p.next, h, task);
  }

  lemma NewLife(lifes: Lifes, tasks: Tasks, registered: Seats, n: nat, h: seq<RequestState>, task: Task)
    requires Numbered(lifes, tasks, registered, n) && Legals(lifes) && LegalPath(h)
    ensures Numbered(lifes[n := h], tasks[n := task], registered, n + 1) && Legals(lifes[n := h])
  {
  }

  lemma NewIsNotDispatched(lifes: Lifes, tasks: Tasks, dispatches: seq<Dispatch>, n: nat, h: seq<RequestState>,
                           task: Task)
    requires Dispatched(lifes, tasks, dispatches) && n !in lifes && !task.Run?
    ensures Dispatched(lifes[n := h], tasks[n := task], dispatches)
  {
    forall i | 0 <= i < |dispatches| ensures Started(lifes[n := h], dispatches[i].seat.life) {
      assert Started(lifes, dispatches[i].seat.life);
    }
  }

  lemma BeginKeeps(p: Pipe, targets: seq<RequestState>, task: Task)
    requires Inv(p) && Begun(targets, task, p.next)
    ensures Inv(Begin(p, targets, task))
  {
    hide Inv;
    var h := [Received];
    var q := p.(lifes := p.lifes[p.next := h]);
    MoveIs(q, p.next, targets);
    assert p.lifes[p.next := h][p.next := h + targets] == p.lifes[p.next := h + targets];
    NewTaskOk(task, targets, p.next, p.store, p.taken, p.registered);
    NewThread(p, h + targets, task);
  }

  // ----- The consent records

  lemma RecordsMove(p: Pipe, coord: C.Coord<Pending>)
    requires Inv(p) && C.Inv(coord, p.consentLimits) && Wanes(p.coord.records, coord.records)
    ensures Inv(p.(coord := coord))
  {
    ConsentsWane(p.lifes, p.tasks, p.coord.records, coord.records, p.prepared);
  }

  /** Registering leaves at most the known records, the expired ones marked so, and adds at most one. */
  lemma RegisterWanes(c: C.Coord<Pending>, l: C.Limits, q: string, cl: string, ss: string, x: Pending, now: real)
    requires C.Inv(c, l)
    ensures Wanes(c.records, C.Register(c, l, q, cl, ss, x, now).0.records - {c.next})
  {
    C.RegisterAdds(c, l, q, cl, ss, x, now);
    var d := C.Register(c, l, q, cl, ss, x, now).0;
    forall id | id in d.records && id != c.next
      ensures id in c.records && d.records[id] == C.Refreshed(c.records[id], now)
    {
      C.RegisterKeepsRecords(c, l, q, cl, ss, x, now, id);
    }
  }

  /** Whoever asks for a consent needs one and waits for it: the first checks of a registration never fail. */
  lemma ConsentIsDue(p: Pipe, t: nat)
    requires Inv(p) && t in p.tasks && p.tasks[t].AskConsent?
    ensures p.tasks[t].life in p.lifes && p.lifes[p.tasks[t].life] != []
    ensures ConsentRefusal(p.tasks[t].checked.outcome, Last(p.lifes[p.tasks[t].life])).None?
  {
    Holding(p, t);
  }

  lemma CoordinatorIsFine(p: Pipe)
    requires Inv(p)
    ensures C.Inv(p.coord, p.consentLimits)
  {
  }

  lemma AskKeeps(p: Pipe, t: nat, env: Env)
    requires Inv(p) && t in p.tasks && p.tasks[t].AskConsent? && Owned(p, p.tasks[t])
    ensures Inv(StepAskConsent(p, t, p.tasks[t], env))
  {
    hide Inv, C.Inv, Wanes, C.Register, End, Owned;
    var k := p.tasks[t];
    ConsentIsDue(p, t);
    CoordinatorIsFine(p);
    var x := Pending(k.request, k.checked, k.life, k.context);
    var (caller, session) := (k.request.proposal.caller, k.request.proposal.session);
    var (coord, r) := C.Register(p.coord, p.consentLimits, k.context.requestId, caller, session, x, env.now);
    C.RegisterKeepsInv(p.coord, p.consentLimits, k.context.requestId, caller, session, x, env.now);
    C.RegisterAdds(p.coord, p.consentLimits, k.context.requestId, caller, session, x, env.now);
    RegisterWanes(p.coord, p.consentLimits, k.context.requestId, caller, session, x, env.now);
    if r.Ok? {
      ConsentAsked(p, t, coord, r.value);
    } else {
      ConsentRefused(p, t, coord);
    }
  }

  lemma ConsentRefused(p: Pipe, t: nat, coord: C.Coord<Pending>)
    requires Inv(p) && t in p.tasks && p.tasks[t].AskConsent? && C.Inv(coord, p.consentLimits)
    requires p.coord.next !in coord.records && Wanes(p.coord.records, coord.records - {p.coord.next})
    ensures Inv(End(p.(coord := coord), t, p.tasks[t].life, [Denied]))
  {
    hide Inv, C.Inv, Wanes, End;
    assert coord.records - {p.coord.next} == coord.records;
    RecordsMove(p, coord);
    ThreadIsDeniedNow(p.(coord := coord), t);
  }

  lemma ConsentAsked(p: Pipe, t: nat, coord: C.Coord<Pending>, r: C.Record<Pending>)
    requires Inv(p) && t in p.tasks && p.tasks[t].AskConsent? && C.Inv(coord, p.consentLimits)
    requires r.state == C.Pending && r.payload.life == p.tasks[t].life && r.id == p.coord.next
    requires r.id in coord.records && coord.records[r.id] == r && Wanes(p.coord.records, coord.records - {r.id})
    ensures Inv(SetTask(p.(coord := coord), t, Over))
  {
    Holding(p, t);
    ConsentTaken(p.lifes, p.tasks, p.coord.records, coord.records, p.prepared, t, r);
    OneTaskChanges(p.tasks, p.store, p.taken, p.registered, t, Over);
    NumbersStay(p.lifes, p.tasks, p.registered, p.next, t);
    DispatchedLetsGo(p.lifes, p.tasks, p.dispatches, t);
  }

  lemma NumbersStay(lifes: Lifes, tasks: Tasks, registered: Seats, next: nat, t: nat)
    requires Numbered(lifes, tasks, registered, next) && t in tasks
    ensures Numbered(lifes, tasks[t := Over], registered, next)
  {
  }

  lemma ConsentTaken(lifes: Lifes, tasks: Tasks, records: Records, later: Records, table: Table, t: nat,
                     r: C.Record<Pending>)
    requires Own(lifes, tasks, records, table) && t in tasks && tasks[t].AskConsent?
    requires r.state == C.Pending && r.payload.life == tasks[t].life
    requires r.id in later && later[r.id] == r && Wanes(records, later - {r.id})
    ensures Own(lifes, tasks[t := Over], later, table)
  {
    var rest := later - {r.id};
    ConsentsWane(lifes, tasks, records, rest, table);
    ThreadPassesToConsent(lifes, tasks, rest, table, t, r);
    assert rest[r.id := r] == later;
  }

  // ----- The consent endpoint

  lemma LookupWanes(c: C.Coord<Pending>, id: nat, requestId: string, caller: string, session: string, now: real)
    ensures Wanes(c.records, C.Get(c, id, requestId, caller, session, now).0.records)
  {
  }

  lemma DenyKeeps(p: Pipe, id: nat)
    requires Inv(p)
    ensures Inv(DenyExpired(p, id, p.coord))
  {
    if id in p.coord.records && p.coord.records[id].state == C.Expired {
      var life := p.coord.records[id].payload.life;
      if Last(p.lifes[life]) == AwaitingApproval {
        Deniable(p.lifes[life], AwaitingApproval);
        MoveIs(p, life, [Denied]);
        DeniedKeeps(p, id, p.lifes[life] + [Denied]);
      }
    }
  }

  lemma DeniedKeeps(p: Pipe, id: nat, h: seq<RequestState>)
    requires Inv(p) && id in p.coord.records && p.coord.records[id].state == C.Expired
    requires At(p.lifes, p.coord.records[id].payload.life, AwaitingApproval) && LegalPath(h) && Last(h) == Denied
    ensures Inv(p.(lifes := p.lifes[p.coord.records[id].payload.life := h]))
  {
    var life := p.coord.records[id].payload.life;
    ExpiredIsDenied(p.lifes, p.tasks, p.coord.records, p.prepared, id, h);
    DenialIsNotDispatched(p.lifes, p.tasks, p.dispatches, life, h);
    LegalsUpdate(p.lifes, p.tasks, p.registered, p.next, life, h);
  }

  lemma LegalsUpdate(lifes: Lifes, tasks: Tasks, registered: Seats, next: nat, l: nat, h: seq<RequestState>)
    requires Legals(lifes) && LegalPath(h) && Numbered(lifes, tasks, registered, next) && l in lifes
    ensures Legals(lifes[l := h]) && Numbered(lifes[l := h], tasks, registered, next)
  {
  }

  lemma DenialIsNotDispatched(lifes: Lifes, tasks: Tasks, dispatches: seq<Dispatch>, life: nat, h: seq<RequestState>)
    requires Dispatched(lifes, tasks, dispatches) && h != [] && Last(h) in {Denied, Executing}
    ensures Dispatched(lifes[life := h], tasks, dispatches)
  {
    forall i | 0 <= i < |dispatches| ensures Started(lifes[life := h], dispatches[i].seat.life) {
      assert Started(lifes, dispatches[i].seat.life);
    }
  }

  lemma DenyAfter(p: Pipe, id: nat, coord: C.Coord<Pending>)
    requires Inv(p) && C.Inv(coord, p.consentLimits) && Wanes(p.coord.records, coord.records)
    ensures Inv(DenyExpired(p, id, coord))
  {
    hide Inv, Wanes;
    RecordsMove(p, coord);
    DenyKeeps(p.(coord := coord), id);
  }

  lemma GetKeeps(p: Pipe, id: nat, requestId: string, caller: string, session: string, now: real)
    requires Inv(p)
    ensures Inv(StepGet(p, id, requestId, caller, session, now))
  {
    hide Inv, Wanes, C.Inv, DenyExpired, C.Get;
    CoordinatorIsFine(p);
    C.LookupKeepsInv(p.coord, p.consentLimits, id, requestId, caller, session, now);
    LookupWanes(p.coord, id, requestId, caller, session, now);
    DenyAfter(p, id, C.Get(p.coord, id, requestId, caller, session, now).0);
  }

  lemma DecideEnds(p: Pipe, id: nat, approve: bool, now: real)
    ensures var (coord, r) := C.Decide(p.coord, id, approve, now);
      if r.Err? then Wanes(p.coord.records, coord.records)
      else
        && id in p.coord.records && p.coord.records[id].state == C.Pending
        && r.value == p.coord.records[id].(state := r.value.state) && !Undecided(r.value)
        && coord.records == p.coord.records[id := r.value]
  {
  }

  lemma DecideKeeps(p: Pipe, id: nat, approve: bool, now: real)
    requires Inv(p)
    ensures Inv(StepDecide(p, id, approve, now))
  {
    hide Inv, Wanes, C.Inv, DenyExpired;
    CoordinatorIsFine(p);
    C.DecisionKeepsInv(p.coord, p.consentLimits, id, approve, now);
    DecideEnds(p, id, approve, now);
    var (coord, r) := C.Decide(p.coord, id, approve, now);
    if r.Err? {
      DenyAfter(p, id, coord);
    } else {
      var k := if approve then Issue(r.value.payload.life, r.value.payload) else Reject(r.value.payload.life);
      DecisionBegins(p, id, coord, r.value, k);
    }
  }

  lemma DecisionBegins(p: Pipe, id: nat, coord: C.Coord<Pending>, r: C.Record<Pending>, k: Task)
    requires Inv(p) && C.Inv(coord, p.consentLimits)
    requires id in p.coord.records && p.coord.records[id].state == C.Pending
    requires r == p.coord.records[id].(state := r.state) && !Undecided(r) && coord.records == p.coord.records[id := r]
    requires (k.Issue? || k.Reject?) && k.life == r.payload.life
    ensures Inv(p.(coord := coord, next := p.next + 1, tasks := p.tasks[p.next := k]))
  {
    hide C.Inv, Own, Legals, A.WellFormed, Spent, TasksOk, TableOk, Dispatched, DispatchesOk;
    DecisionPasses(p.lifes, p.tasks, p.coord.records, p.prepared, id, r, p.next, k);
    OneTaskChanges(p.tasks, p.store, p.taken, p.registered, p.next, k);
    NewTask(p.lifes, p.tasks, p.registered, p.dispatches, p.next, k);
  }

  lemma NewTask(lifes: Lifes, tasks: Tasks, registered: Seats, dispatches: seq<Dispatch>, n: nat, k: Task)
    requires Numbered(lifes, tasks, registered, n) && Dispatched(lifes, tasks, dispatches)
    requires k.Run? ==> forall i :: 0 <= i < |dispatches| ==> dispatches[i].seat.life != k.life
    ensures Numbered(lifes, tasks[n := k], registered, n + 1) && Dispatched(lifes, tasks[n := k], dispatches)
  {
  }

  // ----- The gate

  lemma StoreMoves(p: Pipe, store: A.Store)
    requires Inv(p) && Keeps(p.store, store)
    ensures Inv(p.(store := store))
  {
    OnlyTheStore(p, store);
    BackingSurvives(p.tasks, p.prepared, p.dispatches, p.store, store, p.taken, p.taken, p.registered, p.registered);
  }

  lemma Listed(p: Pipe, id: string)
    requires Inv(p) && id in p.prepared
    ensures var e := p.prepared[id];
      && Registered(p.lifes, e.life.life) && LegalPath(p.lifes[e.life.life])
      && Carries(e.result, e.approval, e.life.life, p.taken) && Seated(e.life, p.registered)
  {
    assert Registered(p.lifes, p.prepared[id].life.life);
  }

  lemma RefuseKeeps(p: Pipe, id: string)
    requires Inv(p) && id in p.prepared && At(p.lifes, p.prepared[id].life.life, Prepared)
    ensures Inv(Move(p, p.prepared[id].life.life, [Denied]))
  {
    Listed(p, id);
    var life := p.prepared[id].life.life;
    var h := p.lifes[life] + [Denied];
    LegalExtend(p.lifes[life], Denied);
    MoveIs(p, life, [Denied]);
    GateRefuses(p.lifes, p.tasks, p.coord.records, p.prepared, id, h, p.next);
    DenialIsNotDispatched(p.lifes, p.tasks, p.dispatches, life, h);
    LegalsUpdate(p.lifes, p.tasks, p.registered, p.next, life, h);
  }

  /** Letting a registration through starts its thread. */
  lemma StartKeeps(p: Pipe, id: string, d: Dispatch)
    requires Inv(p) && id in p.prepared && At(p.lifes, d.seat.life, Prepared) && d.seat == p.prepared[id].life
    requires TaskOk(Run(d.seat.life, d), p.store, p.taken, p.registered)
    ensures Inv(Start(p, d))
  {
    hide C.Inv, Own, A.WellFormed, Spent, TasksOk, TableOk, DispatchesOk;
    Listed(p, id);
    var k := Run(d.seat.life, d);
    var h := p.lifes[k.life] + [Executing];
    LegalExtend(p.lifes[k.life], Executing);
    MoveIs(p, k.life, [Executing]);
    GateDecides(p.lifes, p.tasks, p.coord.records, p.prepared, id, h, p.next, k);
    OneTaskChanges(p.tasks, p.store, p.taken, p.registered, p.next, k);
    GoIsFirst(p.lifes, p.tasks, p.registered, p.dispatches, p.next, k, h);
    LegalsUpdate(p.lifes, p.tasks, p.registered, p.next, k.life, h);
  }

  lemma GoIsFirst(lifes: Lifes, tasks: Tasks, registered: Seats, dispatches: seq<Dispatch>, n: nat, k: Task,
                  h: seq<RequestState>)
    requires Numbered(lifes, tasks, registered, n) && Dispatched(lifes, tasks, dispatches)
    requires k.Run? && At(lifes, k.life, Prepared) && h != [] && Last(h) == Executing
    ensures Numbered(lifes[k.life := h], tasks[n := k], registered, n + 1)
    ensures Dispatched(lifes[k.life := h], tasks[n := k], dispatches)
  {
    forall i | 0 <= i < |dispatches| ensures dispatches[i].seat.life != k.life {
      assert Started(lifes, dispatches[i].seat.life);
    }
    DenialIsNotDispatched(lifes, tasks, dispatches, k.life, h);
    LifeStays(lifes, tasks, registered, n, k.life, h);
    NewTask(lifes[k.life := h], tasks, registered, dispatches, n, k);
  }

  lemma LifeStays(lifes: Lifes, tasks: Tasks, registered: Seats, n: nat, l: nat, h: seq<RequestState>)
    requires Numbered(lifes, tasks, registered, n) && l in lifes
    ensures Numbered(lifes[l := h], tasks, registered, n)
  {
  }

  lemma RevalidationFingerprint(w: P.Snapshot, r: P.ControlRequest)
    requires P.RevalidateRoute(w, r).Ready?
    ensures var res := P.RevalidateRoute(w, r).result; res.fingerprint == P.Fingerprint(res.capability, r.proposal)
  {
  }

  /** A dispatch that the gate lets through is the re-evaluated request, backed by its approval. */
  lemma GoIsBacked(c: G.Context, e: G.Entry<Seat>, current: P.ControlRequest, store: A.Store, taken: Taken, env: Env)
    requires Carries(e.result, e.approval, e.life.life, taken)
    requires G.RevalidationError(c, e, current, store, EvidenceOf(current, env)).None?
    ensures EvidenceOf(current, env).rebuilt.Ready?
    ensures Reevaluated(DispatchOf(e, c, current, env)) && Backed(DispatchOf(e, c, current, env), store, taken)
  {
    G.GoExactly(c, e, current, store, EvidenceOf(current, env));
    RevalidationFingerprint(env.w, current);
    assert Builds(env.w, current, EvidenceOf(current, env).rebuilt.result);
  }

  lemma JudgedStoreKeeps(s: A.Store, e: G.Entry<Seat>, c: G.Context, current: P.ControlRequest, env: Env)
    requires A.WellFormed(s)
    ensures Keeps(s, JudgedStore(s, e, c, current, env))
  {
    KeepsItself(s);
    if G.LooksUpApproval(c, e, current, EvidenceOf(current, env)) {
      StoreStepKeeps(s, A.DoGet(e.approval.value, env.lookup));
    }
  }

  lemma ExecuteRefuses(p: Pipe, c: G.Context, current: P.ControlRequest, env: Env)
    requires Inv(p) && c.requestId in p.prepared && At(p.lifes, p.prepared[c.requestId].life.life, Prepared)
    ensures var e := p.prepared[c.requestId];
      Inv(Move(p.(store := JudgedStore(p.store, e, c, current, env)), e.life.life, [Denied]))
  {
    hide Inv, Move, JudgedStore;
    var store := JudgedStore(p.store, p.prepared[c.requestId], c, current, env);
    StoreIsFine(p);
    JudgedStoreKeeps(p.store, p.prepared[c.requestId], c, current, env);
    StoreMoves(p, store);
    RefuseKeeps(p.(store := store), c.requestId);
  }

  lemma ExecuteGoes(p: Pipe, c: G.Context, current: P.ControlRequest, env: Env)
    requires Inv(p) && Executable(p, c.requestId) && At(p.lifes, p.prepared[c.requestId].life.life, Prepared)
    requires G.RevalidationError(c, p.prepared[c.requestId], current, p.store, EvidenceOf(current, env)).None?
    requires EvidenceOf(current, env).rebuilt.Ready?
    ensures var e := p.prepared[c.requestId];
      Inv(Start(p.(store := JudgedStore(p.store, e, c, current, env)), DispatchOf(e, c, current, env)))
  {
    hide Inv, Start, G.RevalidationError, JudgedStore, EvidenceOf;
    var e := p.prepared[c.requestId];
    var store := JudgedStore(p.store, e, c, current, env);
    var d := DispatchOf(e, c, current, env);
    Listed(p, c.requestId);
    GoIsBacked(c, e, current, p.store, p.taken, env);
    StoreIsFine(p);
    JudgedStoreKeeps(p.store, e, c, current, env);
    StoreMoves(p, store);
    TaskStaysOk(Run(e.life.life, d), p.store, store, p.taken, p.taken, p.registered, p.registered);
    StartKeeps(p.(store := store), c.requestId, d);
  }

  lemma GoMeans(p: Pipe, c: G.Context, current: P.ControlRequest, env: Env)
    requires Executable(p, c.requestId)
    ensures var e := p.prepared[c.requestId];
      var verdict := VerdictOn(p, c, current, env);
      && (verdict.Refused? || verdict.Go? ==> At(p.lifes, e.life.life, Prepared))
      && (verdict.Go? ==>
            && G.RevalidationError(c, e, current, p.store, EvidenceOf(current, env)).None?
            && EvidenceOf(current, env).rebuilt.Ready?)
  {
    if G.RevalidationError(c, p.prepared[c.requestId], current, p.store, EvidenceOf(current, env)).None? {
      G.GoExactly(c, p.prepared[c.requestId], current, p.store, EvidenceOf(current, env));
    }
  }

  lemma ExecuteEnds(p: Pipe, c: G.Context, current: P.ControlRequest, env: Env)
    requires Executable(p, c.requestId)
    ensures var e := p.prepared[c.requestId];
      var judged := p.(store := JudgedStore(p.store, e, c, current, env));
      var verdict := VerdictOn(p, c, current, env);
      && (verdict.Refused? ==>
            At(p.lifes, e.life.life, Prepared) && StepExecute(p, c, current, env)
              == Move(judged, e.life.life, [Denied]))
      && (verdict.Go? ==>
            && At(p.lifes, e.life.life, Prepared)
            && G.RevalidationError(c, e, current, p.store, EvidenceOf(current, env)).None?
            && EvidenceOf(current, env).rebuilt.Ready?
            && StepExecute(p, c, current, env) == Start(judged, DispatchOf(e, c, current, env)))
      && (!verdict.Refused? && !verdict.Go? ==> StepExecute(p, c, current, env) == p)
  {
    GoMeans(p, c, current, env);
  }

  lemma ExecuteKeeps(p: Pipe, c: G.Context, current: P.ControlRequest, env: Env)
    requires Inv(p) && Executable(p, c.requestId)
    ensures Inv(StepExecute(p, c, current, env))
  {
    hide Inv, StepExecute, Start, Move, JudgedStore, VerdictOn;
    ExecuteEnds(p, c, current, env);
    var verdict := VerdictOn(p, c, current, env);
    if verdict.Refused? {
      ExecuteRefuses(p, c, current, env);
    } else if verdict.Go? {
      ExecuteGoes(p, c, current, env);
    }
  }

  // ----- Runs

  /** The guards of a step always hold: no thread and no registration ever gets stuck. */
  lemma GuardsHold(p: Pipe, t: nat, id: string)
    requires Inv(p)
    ensures t in p.tasks ==> Owned(p, p.tasks[t])
    ensures id in p.prepared ==> Executable(p, id)
  {
    if t in p.tasks && !p.tasks[t].Over? {
      Holding(p, t);
    }
    if id in p.prepared {
      Listed(p, id);
    }
  }

  lemma AskedKeeps(p: Pipe, t: nat, env: Env)
    requires Inv(p) && t in p.tasks && Owned(p, p.tasks[t])
    ensures Inv(StepAsked(p, t, p.tasks[t], env))
  {
    hide Inv, StepAskConsent, StepConsume, StepTake;
    match p.tasks[t]
    case AskConsent(_, _, _, _) => AskKeeps(p, t, env);
    case ConsumePresented(_, _, _, _, _) => ConsumeKeeps(p, t, env);
    case Take(_, _, _) => TakeKeeps(p, t, env);
    case _ =>
  }

  lemma DecidedKeeps(p: Pipe, t: nat, env: Env)
    requires Inv(p) && t in p.tasks
    ensures Inv(StepDecided(p, t, p.tasks[t], env))
  {
    hide Inv, StepIssue, StepOffer;
    match p.tasks[t]
    case Issue(_, _) => IssueKeeps(p, t, env);
    case Offer(_, _, _) => OfferKeeps(p, t, env);
    case _ =>
  }

  lemma GateKeeps(p: Pipe, t: nat, env: Env)
    requires Inv(p) && t in p.tasks && Owned(p, p.tasks[t])
    ensures Inv(StepGate(p, t, p.tasks[t], env))
  {
    hide Inv, StepMatch, StepInsert, StepRun;
    match p.tasks[t]
    case MatchApproval(_, _, _, _, _, _) => MatchKeeps(p, t, env);
    case Insert(_, _, _, _, _, _) => InsertKeeps(p, t, env);
    case Run(_, _) => RunKeeps(p, t, env);
    case Finish(_, _, _) => FinishKeeps(p, t);
    case _ =>
  }

  lemma TaskKeeps(p: Pipe, t: nat, env: Env)
    requires Inv(p) && t in p.tasks && Owned(p, p.tasks[t])
    ensures Inv(StepTask(p, t, env))
  {
    hide Inv, End, StepAsked, StepDecided, StepGate, Owned;
    var k := p.tasks[t];
    if k.AskConsent? || k.ConsumePresented? || k.Take? {
      AskedKeeps(p, t, env);
    } else if k.Reject? {
      ThreadIsDeniedNow(p, t);
    } else if k.Issue? || k.Offer? {
      DecidedKeeps(p, t, env);
    } else {
      GateKeeps(p, t, env);
    }
  }

  lemma OtherKeeps(p: Pipe, authenticated: bool, fails: bool)
    requires Inv(p)
    ensures Inv(Begin(p, OtherTargets(authenticated, fails), Over))
  {
    OneMove(Denied);
    OneMove(Authenticated);
    TwoMoves(Authenticated, Failed);
    BeginKeeps(p, OtherTargets(authenticated, fails), Over);
  }

  lemma StoreOpKeeps(p: Pipe, a: A.StoreOp)
    requires Inv(p)
    ensures Inv(p.(store := A.Apply(p.store, a)))
  {
    StoreStepKeeps(p.store, a);
    StoreMoves(p, A.Apply(p.store, a));
  }

  /** Every step of every thread keeps the invariant. */
  lemma StepKeepsInv(p: Pipe, op: Op)
    requires Inv(p)
    ensures Inv(Step(p, op))
  {
    hide Inv, StepTask, StepExecute, StepGet, StepDecide, Begin;
    match op
    case Submit(call, first, second) =>
      CallIsLegal(call, first, second, p.next);
      BeginKeeps(p, Drive(call, first, second, p.next).0, Drive(call, first, second, p.next).1);
    case OtherCall(authenticated, fails) => OtherKeeps(p, authenticated, fails);
    case ConsentGet(id, requestId, caller, session, now) => GetKeeps(p, id, requestId, caller, session, now);
    case ConsentDecide(id, approve, now) => DecideKeeps(p, id, approve, now);
    case Execute(c, current, env) =>
      if c.genuine && Executable(p, c.requestId) {
        ExecuteKeeps(p, c, current, env);
      }
    case Advance(t, env) =>
      if t in p.tasks && Owned(p, p.tasks[t]) {
        TaskKeeps(p, t, env);
      }
    case Store(a) => StoreOpKeeps(p, a);
  }

  lemma {:induction false} RunKeepsInv(p: Pipe, ops: seq<Op>)
    requires Inv(p)
    ensures Inv(RunAll(p, ops))
    decreases |ops|
  {
    hide Inv, Step;
    if ops != [] {
      StepKeepsInv(p, ops[0]);
      RunKeepsInv(Step(p, ops[0]), ops[1..]);
    }
  }
}
