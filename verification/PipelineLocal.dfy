/**
 What one step leaves alone. Threads of other requests move neither a thread nor
 the lifecycle it holds, and a registration changes only by its own execution or
 by a purge after its expiry.
 */
module PipelineLocal {
  import opened Wrappers
  import A = Approvals
  import C = Coordinator
  import P = ControlPlane
  import G = Gate
  import opened Lifecycle
  import opened Pipeline
  import opened PipelineOwnership
  import opened PipelineSafety
  import opened PipelineRuns

  // ----- One thread and one lifecycle, seen from a step of somebody else

  /** What all threads share besides the lifecycles: the registrations and the approvals. */
  datatype Shared = Shared(table: Table, store: A.Store)

  /** Task `t`, lifecycle `l` and the limits of the gate are as they were; what is shared is now `g`. */
  predicate Beside(p: Pipe, q: Pipe, t: nat, l: nat, g: Shared) {
    && (t in p.tasks <==> t in q.tasks) && (t in p.tasks ==> q.tasks[t] == p.tasks[t])
    && (l in p.lifes ==> l in q.lifes && q.lifes[l] == p.lifes[l])
    && q.gateLimits == p.gateLimits
    && g == Shared(q.prepared, q.store)
  }

  lemma BesideStays(p: Pipe, q: Pipe, t: nat, l: nat)
    requires q.tasks == p.tasks && q.lifes == p.lifes && q.gateLimits == p.gateLimits
    ensures Beside(p, q, t, l, Shared(q.prepared, q.store))
  {
  }

  lemma BesideMove(p: Pipe, q: Pipe, t: nat, l: nat, g: Shared, life: nat, targets: seq<RequestState>)
    requires Beside(p, q, t, l, g) && life != l
    ensures Beside(p, Move(q, life, targets), t, l, g)
  {
  }

  lemma BesideTask(p: Pipe, q: Pipe, t: nat, l: nat, g: Shared, u: nat, k: Task)
    requires Beside(p, q, t, l, g) && u != t
    ensures Beside(p, SetTask(q, u, k), t, l, g)
  {
  }

  lemma BesideEnd(p: Pipe, q: Pipe, t: nat, l: nat, g: Shared, u: nat, life: nat, targets: seq<RequestState>)
    requires Beside(p, q, t, l, g) && u != t && life != l
    ensures Beside(p, End(q, u, life, targets), t, l, g)
  {
    hide Beside, Move;
    BesideMove(p, q, t, l, g, life, targets);
    BesideTask(p, Move(q, life, targets), t, l, g, u, Over);
  }

  lemma BesideBegin(p: Pipe, t: nat, l: nat, targets: seq<RequestState>, task: Task)
    requires p.next != t && p.next != l
    ensures Beside(p, Begin(p, targets, task), t, l, Shared(p.prepared, p.store))
  {
  }

  lemma BesideConfirm(p: Pipe, q: Pipe, t: nat, l: nat, g: Shared, u: nat, life: nat, request: P.ControlRequest,
                      context: G.Context, a: A.Approval, w: P.Snapshot, byConsent: bool)
    requires Beside(p, q, t, l, g) && u != t && life != l
    ensures Beside(p, Confirm(q, u, life, request, context, a, w, byConsent), t, l, g)
  {
    hide Move, End;
    var m := q.(taken := q.taken[a.id := life]);
    var prepared := P.PrepareConfirmed(w, request, a);
    ConfirmEnds(q, u, life, request, context, a, w, byConsent);
    if prepared.Ready? {
      BesideMove(p, m, t, l, g, life, [Approved, Prepared]);
      BesideTask(p, Move(m, life, [Approved, Prepared]), t, l, g, u,
                 MatchApproval(life, request, prepared.result, context, a.id, byConsent));
    } else {
      BesideEnd(p, m, t, l, g, u, life, Ending(prepared, byConsent));
    }
  }

  // ----- What a thread does to the approvals and the registrations

  /** The operation of the approval store in a thread's next step, if there is one. */
  function TaskStoreOp(p: Pipe, k: Task, env: Env): Option<A.StoreOp>
    requires Owned(p, k)
  {
    match k
    case ConsumePresented(_, _, checked, context, a) =>
      Some(A.DoConsume(a, checked.fingerprint, context.caller, context.session, env.lookup, env.stamp))
    case Issue(_, c) =>
      Some(A.DoIssue(c.checked.fingerprint, c.request.proposal.caller, c.request.proposal.session, 30.0, env.now))
    case Offer(_, _, a) => Some(A.DoMakeAvailable(a, env.lookup))
    case Take(_, c, a) =>
      Some(A.DoConsume(a, c.checked.fingerprint, c.request.proposal.caller, c.request.proposal.session, env.lookup,
                       env.stamp))
    case MatchApproval(_, _, _, _, a, _) =>
      if MatchingOf(p, k, env) == Unfit then None else Some(A.DoGet(a, env.lookup))
    case _ => None
  }

  function Applied(s: A.Store, a: Option<A.StoreOp>): A.Store {
    if a.Some? then A.Apply(s, a.value) else s
  }

  /** The thread reaches the locked part of a registration. */
  predicate Registers(p: Pipe, k: Task) {
    k.Insert? && Owned(p, k) && G.Registrable(k.context, k.request, k.result, Last(p.lifes[k.life]), k.given)
  }

  function EntryOf(p: Pipe, k: Task, now: real): G.Entry<Seat>
    requires k.Insert?
  {
    G.Entry(k.request, k.result, k.given, Seat(p.next, k.life), now + p.gateLimits.ttl)
  }

  /** The registrations after a thread's step: as they were, or purged and perhaps with one more. */
  function TaskTable(p: Pipe, k: Task, env: Env): Table {
    if Registers(p, k)
    then G.Inserted(p.prepared, k.context.requestId, EntryOf(p, k, env.now), p.gateLimits, env.now)
    else p.prepared
  }

  function TaskLeaves(p: Pipe, k: Task, env: Env): Shared
    requires Owned(p, k)
  {
    Shared(TaskTable(p, k, env), Applied(p.store, TaskStoreOp(p, k, env)))
  }

  // ----- A thread's step, seen by another thread

  lemma BesideAsk(p: Pipe, t: nat, l: nat, u: nat, k: Task, env: Env)
    requires k.AskConsent? && Owned(p, k) && u != t && k.life != l
    ensures Beside(p, StepAskConsent(p, u, k, env), t, l, Shared(p.prepared, p.store))
  {
    hide Beside, ConsentFor, End;
    var g := Shared(p.prepared, p.store);
    var coord := ConsentFor(p, k, env.now).0;
    BesideStays(p, p, t, l);
    BesideStays(p, p.(coord := coord), t, l);
    BesideTask(p, p.(coord := coord), t, l, g, u, Over);
    BesideEnd(p, p, t, l, g, u, k.life, [Denied]);
    BesideEnd(p, p.(coord := coord), t, l, g, u, k.life, [Denied]);
  }

  lemma BesideConsume(p: Pipe, t: nat, l: nat, u: nat, k: Task, env: Env)
    requires k.ConsumePresented? && Owned(p, k) && u != t && k.life != l
    ensures Beside(p, StepConsume(p, u, k, env), t, l, Shared(p.prepared, Applied(p.store, TaskStoreOp(p, k, env))))
  {
    hide Beside, End, Confirm, A.Consume;
    var (store, r) := A.Consume(p.store, k.approval, k.checked.fingerprint, k.context.caller, k.context.session,
                                env.lookup, env.stamp);
    var q, g := p.(store := store), Shared(p.prepared, store);
    BesideStays(p, q, t, l);
    BesideEnd(p, q, t, l, g, u, k.life, [Denied]);
    if r.Ok? {
      BesideConfirm(p, q, t, l, g, u, k.life, k.request, k.context, r.value, env.w, false);
    }
  }

  lemma BesideTake(p: Pipe, t: nat, l: nat, u: nat, k: Task, env: Env)
    requires k.Take? && Owned(p, k) && u != t && k.life != l
    ensures Beside(p, StepTake(p, u, k, env), t, l, Shared(p.prepared, Applied(p.store, TaskStoreOp(p, k, env))))
  {
    hide Beside, End, Confirm, A.Consume;
    var c := k.pending;
    var (store, r) := A.Consume(p.store, k.approval, c.checked.fingerprint,
      c.request.proposal.caller, c.request.proposal.session, env.lookup, env.stamp);
    var q, g := p.(store := store), Shared(p.prepared, store);
    BesideStays(p, q, t, l);
    BesideEnd(p, q, t, l, g, u, k.life, [Denied]);
    if r.Ok? {
      BesideConfirm(p, q, t, l, g, u, k.life, c.request, c.context, r.value, env.w, true);
    }
  }

  lemma BesideDecided(p: Pipe, t: nat, l: nat, u: nat, k: Task, env: Env)
    requires (k.Issue? || k.Offer?) && Owned(p, k) && u != t && k.life != l
    ensures Beside(p, StepDecided(p, u, k, env), t, l, Shared(p.prepared, Applied(p.store, TaskStoreOp(p, k, env))))
  {
    hide Beside, End, A.Issue, A.MakeAvailable;
    match k
    case Issue(_, c) =>
      var (store, r) := A.Issue(p.store, c.checked.fingerprint, c.request.proposal.caller, c.request.proposal.session,
                                30.0, env.now);
      var q, g := p.(store := store), Shared(p.prepared, store);
      BesideStays(p, q, t, l);
      BesideEnd(p, q, t, l, g, u, k.life, [Denied]);
      if r.Ok? {
        BesideTask(p, q, t, l, g, u, Offer(k.life, c, r.value.id));
      }
    case Offer(_, c, a) =>
      var store := A.MakeAvailable(p.store, a, env.lookup).0;
      var q, g := p.(store := store), Shared(p.prepared, store);
      BesideStays(p, q, t, l);
      BesideEnd(p, q, t, l, g, u, k.life, [Denied]);
      BesideTask(p, q, t, l, g, u, Take(k.life, c, a));
  }

  lemma BesideRefusal(p: Pipe, q: Pipe, t: nat, l: nat, u: nat, life: nat, byConsent: bool)
    requires q.tasks == p.tasks && q.lifes == p.lifes && q.gateLimits == p.gateLimits && u != t && life != l
    ensures Beside(p, RefuseRegistration(q, u, life, byConsent), t, l, Shared(q.prepared, q.store))
  {
    hide Beside, End;
    BesideStays(p, q, t, l);
    BesideEnd(p, q, t, l, Shared(q.prepared, q.store), u, life, if byConsent then [] else [Denied]);
  }

  lemma BesideMatch(p: Pipe, t: nat, l: nat, u: nat, k: Task, env: Env)
    requires Owned(p, k) && k.MatchApproval? && u != t && k.life != l
    ensures Beside(p, StepMatch(p, u, k, env), t, l, Shared(p.prepared, Applied(p.store, TaskStoreOp(p, k, env))))
  {
    hide Beside, MatchingOf, RefuseRegistration, A.Looked;
    var store := A.Looked(p.store, k.approval, env.lookup);
    BesideRefusal(p, p, t, l, u, k.life, k.byConsent);
    BesideRefusal(p, p.(store := store), t, l, u, k.life, k.byConsent);
    BesideStays(p, p.(store := store), t, l);
    BesideTask(p, p.(store := store), t, l, Shared(p.prepared, store), u, Matched(k));
  }

  lemma BesideInsert(p: Pipe, t: nat, l: nat, u: nat, k: Task, env: Env)
    requires Owned(p, k) && k.Insert? && u != t && k.life != l
    ensures Beside(p, StepInsert(p, u, k, env), t, l, Shared(TaskTable(p, k, env), p.store))
  {
    hide Beside, RefuseRegistration, G.Registrable, G.Inserts;
    var e := EntryOf(p, k, env.now);
    var table := G.Inserted(p.prepared, k.context.requestId, e, p.gateLimits, env.now);
    BesideRefusal(p, p, t, l, u, k.life, k.byConsent);
    BesideRefusal(p, p.(prepared := G.Purged(p.prepared, env.now)), t, l, u, k.life, k.byConsent);
    var q := p.(prepared := table, registered := p.registered[p.next := k.life], next := p.next + 1);
    BesideStays(p, q, t, l);
    BesideTask(p, q, t, l, Shared(table, p.store), u, Over);
  }

  lemma BesideRun(p: Pipe, t: nat, l: nat, u: nat, k: Task, env: Env)
    requires k.Run? && u != t
    ensures Beside(p, StepRun(p, u, k, env), t, l, Shared(p.prepared, p.store))
  {
  }

  lemma BesideGate(p: Pipe, t: nat, l: nat, u: nat, k: Task, env: Env)
    requires Owned(p, k) && (k.MatchApproval? || k.Insert? || k.Run? || k.Finish?) && u != t && k.life != l
    ensures Beside(p, StepGate(p, u, k, env), t, l, TaskLeaves(p, k, env))
  {
    hide Beside, End, StepMatch, StepInsert, StepRun, MatchingOf, G.Registrable;
    match k
    case MatchApproval(_, _, _, _, _, _) => BesideMatch(p, t, l, u, k, env);
    case Insert(_, _, _, _, _, _) => BesideInsert(p, t, l, u, k, env);
    case Run(_, _) => BesideRun(p, t, l, u, k, env);
    case Finish(life, _, status) =>
      BesideStays(p, p, t, l);
      BesideEnd(p, p, t, l, Shared(p.prepared, p.store), u, life, [status]);
  }

  lemma BesideAsked(p: Pipe, t: nat, l: nat, u: nat, k: Task, env: Env)
    requires Owned(p, k) && (k.AskConsent? || k.ConsumePresented? || k.Take?) && u != t && k.life != l
    ensures Beside(p, StepAsked(p, u, k, env), t, l, TaskLeaves(p, k, env))
  {
    hide Beside, StepAskConsent, StepConsume, StepTake, Owned;
    match k
    case AskConsent(_, _, _, _) => BesideAsk(p, t, l, u, k, env);
    case ConsumePresented(_, _, _, _, _) => BesideConsume(p, t, l, u, k, env);
    case Take(_, _, _) => BesideTake(p, t, l, u, k, env);
  }

  /** A thread moves only itself and the lifecycle it holds. */
  lemma BesideTaskStep(p: Pipe, t: nat, l: nat, u: nat, env: Env)
    requires u in p.tasks && Owned(p, p.tasks[u]) && u != t && !Has(p.tasks[u], l)
    ensures Beside(p, StepTask(p, u, env), t, l, TaskLeaves(p, p.tasks[u], env))
  {
    hide Beside, StepAsked, StepDecided, End, MatchingOf, G.Registrable;
    var k := p.tasks[u];
    BesideStays(p, p, t, l);
    if k.Reject? {
      BesideEnd(p, p, t, l, Shared(p.prepared, p.store), u, k.life, [Denied]);
    } else if k.Issue? || k.Offer? {
      BesideDecided(p, t, l, u, k, env);
    } else if k.AskConsent? || k.ConsumePresented? || k.Take? {
      BesideAsked(p, t, l, u, k, env);
    } else if !k.Over? {
      BesideGate(p, t, l, u, k, env);
    }
  }

  // ----- The other endpoints, seen by a thread

  /** The consent of this lifecycle is still undecided, so that a lookup or a decision may move it. */
  predicate MayDeny(c: C.Coord<Pending>, id: nat, l: nat) {
    id in c.records && Undecided(c.records[id]) && c.records[id].payload.life == l
  }

  lemma BesideDeny(p: Pipe, t: nat, l: nat, id: nat, coord: C.Coord<Pending>)
    requires !MayDeny(coord, id, l)
    ensures Beside(p, DenyExpired(p, id, coord), t, l, Shared(p.prepared, p.store))
  {
    hide Beside, Move;
    BesideStays(p, p.(coord := coord), t, l);
    if id in coord.records && coord.records[id].payload.life != l {
      BesideMove(p, p.(coord := coord), t, l, Shared(p.prepared, p.store), coord.records[id].payload.life, [Denied]);
    }
  }

  lemma BesideGet(p: Pipe, t: nat, l: nat, id: nat, requestId: string, caller: string, session: string, now: real)
    requires !MayDeny(p.coord, id, l)
    ensures Beside(p, StepGet(p, id, requestId, caller, session, now), t, l, Shared(p.prepared, p.store))
  {
    hide Beside, DenyExpired;
    BesideDeny(p, t, l, id, C.Get(p.coord, id, requestId, caller, session, now).0);
  }

  lemma BesideDecide(p: Pipe, t: nat, l: nat, id: nat, approve: bool, now: real)
    requires !MayDeny(p.coord, id, l) && p.next != t
    ensures Beside(p, StepDecide(p, id, approve, now), t, l, Shared(p.prepared, p.store))
  {
    hide DenyExpired;
    var (coord, r) := C.Decide(p.coord, id, approve, now);
    if r.Err? {
      BesideDeny(p, t, l, id, coord);
    }
  }

  lemma BesideStart(p: Pipe, q: Pipe, t: nat, l: nat, g: Shared, d: Dispatch)
    requires Beside(p, Move(q, d.seat.life, [Executing]), t, l, g) && q.next != t
    ensures Beside(p, Start(q, d), t, l, g)
  {
    hide Walk;
  }

  /** The approvals after an execution was asked for. */
  function ExecuteStore(p: Pipe, c: G.Context, current: P.ControlRequest, env: Env): A.Store
    requires Executable(p, c.requestId)
  {
    var verdict := VerdictOn(p, c, current, env);
    if verdict.Refused? || verdict.Go? then JudgedStore(p.store, p.prepared[c.requestId], c, current, env) else p.store
  }

  lemma BesideExecute(p: Pipe, t: nat, l: nat, c: G.Context, current: P.ControlRequest, env: Env)
    requires Executable(p, c.requestId) && p.next != t
    requires p.prepared[c.requestId].life.life != l || !At(p.lifes, l, Prepared)
    ensures Beside(p, StepExecute(p, c, current, env), t, l, Shared(p.prepared, ExecuteStore(p, c, current, env)))
  {
    hide Beside, Move, Start, JudgedStore, VerdictOn;
    var e := p.prepared[c.requestId];
    var judged := p.(store := JudgedStore(p.store, e, c, current, env));
    var g := Shared(p.prepared, judged.store);
    ExecuteEnds(p, c, current, env);
    BesideStays(p, p, t, l);
    BesideStays(p, judged, t, l);
    if e.life.life != l {
      BesideMove(p, judged, t, l, g, e.life.life, [Denied]);
      BesideMove(p, judged, t, l, g, e.life.life, [Executing]);
      if VerdictOn(p, c, current, env).Go? {
        BesideStart(p, judged, t, l, g, DispatchOf(e, c, current, env));
      }
    }
  }

  // ----- Any step

  /** The step may move lifecycle `l` or thread `t`. */
  predicate Touches(p: Pipe, op: Op, t: nat, l: nat) {
    match op
    case ConsentGet(id, _, _, _, _) => MayDeny(p.coord, id, l)
    case ConsentDecide(id, _, _) => MayDeny(p.coord, id, l)
    case Execute(c, _, _) =>
      c.genuine && c.requestId in p.prepared && p.prepared[c.requestId].life.life == l && At(p.lifes, l, Prepared)
    case Advance(u, _) => u == t || (u in p.tasks && Has(p.tasks[u], l))
    case _ => false
  }

  /** The registrations and the approvals after a step, exactly. */
  function Leaves(p: Pipe, op: Op): Shared {
    match op
    case Execute(c, current, env) =>
      Shared(p.prepared,
             if c.genuine && Executable(p, c.requestId) then ExecuteStore(p, c, current, env) else p.store)
    case Advance(u, env) =>
      if u in p.tasks && Owned(p, p.tasks[u]) then TaskLeaves(p, p.tasks[u], env) else Shared(p.prepared, p.store)
    case Store(a) => Shared(p.prepared, A.Apply(p.store, a))
    case _ => Shared(p.prepared, p.store)
  }

  /** A step moves a thread and a lifecycle only if it is theirs to move. */
  lemma StepBeside(p: Pipe, op: Op, t: nat, l: nat)
    requires p.next != t && p.next != l && !Touches(p, op, t, l)
    ensures Beside(p, Step(p, op), t, l, Leaves(p, op))
  {
    hide Beside, Begin, StepGet, StepDecide, StepExecute, StepTask, Drive, ExecuteStore, TaskLeaves, A.Apply;
    BesideStays(p, p, t, l);
    match op
    case Submit(call, first, second) =>
      BesideBegin(p, t, l, Drive(call, first, second, p.next).0, Drive(call, first, second, p.next).1);
    case OtherCall(authenticated, fails) => BesideBegin(p, t, l, OtherTargets(authenticated, fails), Over);
    case ConsentGet(id, requestId, caller, session, now) => BesideGet(p, t, l, id, requestId, caller, session, now);
    case ConsentDecide(id, approve, now) => BesideDecide(p, t, l, id, approve, now);
    case Execute(c, current, env) =>
      if c.genuine && Executable(p, c.requestId) {
        BesideExecute(p, t, l, c, current, env);
      }
    case Advance(u, env) =>
      if u in p.tasks && Owned(p, p.tasks[u]) {
        BesideTaskStep(p, t, l, u, env);
      }
    case Store(a) => BesideStays(p, p.(store := A.Apply(p.store, a)), t, l);
  }
}
