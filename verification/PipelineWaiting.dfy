/**
 What waits in the pipeline and for how long: a working thread for its own next
 step, a registration for its execution, an approval for whoever names it.
 */
module PipelineWaiting {
  import opened Wrappers
  import A = Approvals
  import C = Coordinator
  import P = ControlPlane
  import G = Gate
  import opened Lifecycle
  import opened Pipeline
  import opened PipelineOwnership
  import opened PipelineSafety
  import opened PipelineRuns
  import opened PipelinePast
  import opened PipelineLocal

  // ----- Threads

  /** The step belongs to the thread `t`. */
  predicate StepsOn(op: Op, t: nat) {
    op.Advance? && op.task == t
  }

  lemma HeldIsNotMoved(p: Pipe, op: Op, t: nat)
    requires Inv(p) && t in p.tasks && !p.tasks[t].Over? && !StepsOn(op, t)
    ensures !Touches(p, op, t, p.tasks[t].life) && p.next != t && p.next != p.tasks[t].life
    ensures p.tasks[t].life in p.lifes
  {
    var life := p.tasks[t].life;
    assert Has(p.tasks[t], life) && At(p.lifes, life, Expected(p.tasks[t]));
    match op
    case Execute(c, _, _) =>
      if c.requestId in p.prepared && At(p.lifes, p.prepared[c.requestId].life.life, Prepared) {
        NoThreadYet(p.lifes, p.tasks, p.coord.records, p.prepared, c.requestId, t);
      }
    case _ =>
  }

  /** Thread `t` stands where it stood, and so does the lifecycle it holds. */
  predicate Waits(p: Pipe, q: Pipe, t: nat) {
    && t in p.tasks && !p.tasks[t].Over? && p.tasks[t].life in p.lifes
    && t in q.tasks && q.tasks[t] == p.tasks[t]
    && p.tasks[t].life in q.lifes && q.lifes[p.tasks[t].life] == p.lifes[p.tasks[t].life]
    && q.gateLimits == p.gateLimits
  }

  /** A working thread and its lifecycle wait for its own next step, whatever everyone else does. */
  lemma ThreadWaits(p: Pipe, op: Op, t: nat)
    requires Inv(p) && t in p.tasks && !p.tasks[t].Over? && !StepsOn(op, t)
    ensures Waits(p, Step(p, op), t)
  {
    hide Inv, Touches, Step, Leaves;
    HeldIsNotMoved(p, op, t);
    StepBeside(p, op, t, p.tasks[t].life);
  }

  /** None of these steps belongs to the thread `t`. */
  ghost predicate NoneSteps(ops: seq<Op>, t: nat) {
    forall i :: 0 <= i < |ops| ==> !StepsOn(ops[i], t)
  }

  lemma {:induction false} ThreadWaitsOn(p: Pipe, ops: seq<Op>, t: nat)
    requires Inv(p) && t in p.tasks && !p.tasks[t].Over? && NoneSteps(ops, t)
    ensures Inv(RunAll(p, ops)) && Waits(p, RunAll(p, ops), t)
    decreases |ops|
  {
    hide Inv, Step;
    if ops == [] {
      HeldExists(p, t);
    } else {
      StepKeepsInv(p, ops[0]);
      ThreadWaits(p, ops[0], t);
      ThreadWaitsOn(Step(p, ops[0]), ops[1..], t);
    }
  }

  lemma HeldExists(p: Pipe, t: nat)
    requires Inv(p) && t in p.tasks && !p.tasks[t].Over?
    ensures Waits(p, p, t)
  {
    Holding(p, t);
  }

  // ----- Registrations

  /** `e` is registered under `id` and has been neither executed nor refused. */
  predicate Waiting(p: Pipe, id: string, e: G.Entry<Seat>) {
    id in p.prepared && p.prepared[id] == e && At(p.lifes, e.life.life, Prepared)
  }

  /** What ends the wait: an execution of this id by anyone genuine, or a purge at or after the expiry. */
  predicate Ends(p: Pipe, op: Op, id: string, e: G.Entry<Seat>) {
    || (op.Execute? && op.context.genuine && op.context.requestId == id)
    || (op.Advance? && op.task in p.tasks && Registers(p, p.tasks[op.task]) && op.env.now >= e.expiresAt)
  }

  /** A thread number that no step of this machine has used or will use next. */
  function Unborn(p: Pipe, op: Op): (t: nat)
    ensures t > p.next && !StepsOn(op, t)
  {
    if op.Advance? then op.task + p.next + 1 else p.next + 1
  }

  lemma WaitingIsNotMoved(p: Pipe, op: Op, id: string, e: G.Entry<Seat>)
    requires Inv(p) && Waiting(p, id, e) && !(op.Execute? && op.context.genuine && op.context.requestId == id)
    ensures !Touches(p, op, Unborn(p, op), e.life.life) && e.life.life < p.next
  {
    match op
    case Advance(u, _) =>
      if u in p.tasks {
        NoThreadYet(p.lifes, p.tasks, p.coord.records, p.prepared, id, u);
      }
    case _ =>
  }

  /** An entry outlives a locked registration exactly when it has not expired. */
  lemma EntryOutlives(table: Table, id: string, other: string, e: G.Entry<Seat>, l: G.Limits, now: real)
    requires id in table && e.life.registration != table[id].life.registration
    ensures var later := G.Inserted(table, other, e, l, now);
      (id in later && later[id] == table[id]) <==> now < table[id].expiresAt
  {
    assert id in G.Purged(table, now) <==> now < table[id].expiresAt;
  }

  /** Registrations carry numbers that were given out, each of them once. */
  lemma SeatIsNumbered(p: Pipe, id: string)
    requires Inv(p) && id in p.prepared
    ensures p.prepared[id].life.registration in p.registered && p.prepared[id].life.registration < p.next
  {
  }

  lemma EntryStays(p: Pipe, op: Op, id: string)
    requires id in p.prepared && p.prepared[id].life.registration < p.next
    ensures var table, e := Leaves(p, op).table, p.prepared[id];
      (id in table && table[id] == e) <==>
        !(op.Advance? && op.task in p.tasks && Registers(p, p.tasks[op.task]) && op.env.now >= e.expiresAt)
  {
    hide ExecuteStore, Applied, TaskStoreOp, G.Inserted;
    if op.Advance? && op.task in p.tasks && Registers(p, p.tasks[op.task]) {
      var k := p.tasks[op.task];
      EntryOutlives(p.prepared, id, k.context.requestId, EntryOf(p, k, op.env.now), p.gateLimits, op.env.now);
    }
  }

  /** What one execution does to the registration it names: it goes if nothing is wrong, else it is denied for good. */
  lemma ExecutionDecides(p: Pipe, c: G.Context, current: P.ControlRequest, env: Env, e: G.Entry<Seat>)
    requires Inv(p) && c.genuine && Waiting(p, c.requestId, e)
    ensures e.result.invocation.Some?
    ensures At(Step(p, Execute(c, current, env)).lifes, e.life.life,
               if G.RevalidationError(c, e, current, p.store, EvidenceOf(current, env)).None? then Executing
                 else Denied)
  {
    hide Inv, G.RevalidationError, EvidenceOf, JudgedStore;
    Listed(p, c.requestId);
    var life := e.life.life;
    var judged := p.(store := JudgedStore(p.store, e, c, current, env));
    LegalExtend(p.lifes[life], Executing);
    LegalExtend(p.lifes[life], Denied);
    MoveIs(judged, life, [Executing]);
    MoveIs(judged, life, [Denied]);
  }

  /**
   One step, any step: a waiting registration stays exactly as it is unless
   somebody genuine executes its id, or a registration is inserted once it has expired.
   */
  lemma StepWaits(p: Pipe, op: Op, id: string, e: G.Entry<Seat>)
    requires Inv(p) && Waiting(p, id, e)
    ensures Waiting(Step(p, op), id, e) <==> !Ends(p, op, id, e)
  {
    hide Inv, Step, Touches, Leaves, Registers;
    if op.Execute? && op.context.genuine && op.context.requestId == id {
      ExecutionDecides(p, op.context, op.current, op.env, e);
    } else {
      WaitingIsNotMoved(p, op, id, e);
      StepBeside(p, op, Unborn(p, op), e.life.life);
      SeatIsNumbered(p, id);
      EntryStays(p, op, id);
    }
  }

  lemma {:induction false} StartedForGood(h: seq<RequestState>, k: nat, j: nat)
    requires LegalPath(h) && k <= j < |h| && h[k] in {Executing, Completed, Denied, Failed}
    ensures h[j] in {Executing, Completed, Denied, Failed}
    decreases j - k
  {
    if k < j {
      assert Legal(h[k], h[k + 1]);
      StartedForGood(h, k + 1, j);
    }
  }

  lemma LeftPrepared(p: Pipe, q: Pipe, life: nat)
    requires Registered(p.lifes, life) && !At(p.lifes, life, Prepared) && Past(p, q) && Legals(q.lifes)
    ensures !At(q.lifes, life, Prepared)
  {
    var h, later := p.lifes[life], q.lifes[life];
    assert later[|h| - 1] == Last(h);
    StartedForGood(later, |h| - 1, |later| - 1);
  }

  lemma EntryIsOld(p: Pipe, op: Op, id: string, e: G.Entry<Seat>)
    requires e.life.registration < p.next
    requires id in Leaves(p, op).table && Leaves(p, op).table[id] == e
    ensures id in p.prepared && p.prepared[id] == e
  {
    hide ExecuteStore, Applied, TaskStoreOp;
  }

  lemma NobodyIsTouched(p: Pipe, op: Op)
    requires Inv(p)
    ensures !Touches(p, op, Unborn(p, op), Unborn(p, op))
  {
    match op
    case Advance(u, _) =>
      if u in p.tasks && !p.tasks[u].Over? {
        Holding(p, u);
      }
    case _ =>
  }

  /** `e` was registered at some time, and no longer waits. */
  predicate Gone(p: Pipe, id: string, e: G.Entry<Seat>) {
    e.life.registration in p.registered && !Waiting(p, id, e)
  }

  lemma InvParts(p: Pipe)
    requires Inv(p)
    ensures Legals(p.lifes)
    ensures forall id :: id in p.prepared ==> Registered(p.lifes, p.prepared[id].life.life)
    ensures forall r :: r in p.registered ==> r < p.next
  {
  }

  /** What no longer waits never waits again: numbers are not reused, and nothing is prepared twice. */
  lemma GoneStays(p: Pipe, op: Op, id: string, e: G.Entry<Seat>)
    requires Inv(p) && Gone(p, id, e)
    ensures Gone(Step(p, op), id, e)
  {
    hide Inv, Step, Touches, Leaves, Registers, Registered, At, Past;
    var q := Step(p, op);
    StepKeepsInv(p, op);
    StepKeepsPast(p, op);
    StillRegistered(p, q, e.life.registration);
    InvParts(p);
    InvParts(q);
    NobodyIsTouched(p, op);
    StepBeside(p, op, Unborn(p, op), Unborn(p, op));
    if Waiting(q, id, e) {
      EntryIsOld(p, op, id, e);
      LeftPrepared(p, q, e.life.life);
    }
  }

  lemma StillRegistered(p: Pipe, q: Pipe, r: nat)
    requires Past(p, q) && r in p.registered
    ensures r in q.registered
  {
  }

  /** Some step of the run ends the wait. */
  ghost predicate EndsIn(p: Pipe, ops: seq<Op>, id: string, e: G.Entry<Seat>)
    decreases |ops|
  {
    ops != [] && (Ends(p, ops[0], id, e) || EndsIn(Step(p, ops[0]), ops[1..], id, e))
  }

  lemma {:induction false} GoneForGood(p: Pipe, ops: seq<Op>, id: string, e: G.Entry<Seat>)
    requires Inv(p) && Gone(p, id, e)
    ensures !Waiting(RunAll(p, ops), id, e)
    decreases |ops|
  {
    hide Inv, Step, Waiting;
    if ops != [] {
      StepKeepsInv(p, ops[0]);
      GoneStays(p, ops[0], id, e);
      GoneForGood(Step(p, ops[0]), ops[1..], id, e);
    }
  }

  /**
   Every interleaving: a registration still waits exactly when no step of the run
   was an execution of its id by somebody genuine or an insertion after its expiry.
   */
  lemma {:induction false} RegistrationWaits(p: Pipe, ops: seq<Op>, id: string, e: G.Entry<Seat>)
    requires Inv(p) && Waiting(p, id, e)
    ensures Inv(RunAll(p, ops))
    ensures Waiting(RunAll(p, ops), id, e) <==> !EndsIn(p, ops, id, e)
    decreases |ops|
  {
    hide Inv, Step, Ends, Past;
    if ops == [] {
    } else {
      var q := Step(p, ops[0]);
      StepKeepsInv(p, ops[0]);
      StepWaits(p, ops[0], id, e);
      if Ends(p, ops[0], id, e) {
        SeatIsNumbered(p, id);
        StepKeepsPast(p, ops[0]);
        StillRegistered(p, q, e.life.registration);
        GoneForGood(q, ops[1..], id, e);
        RunKeepsInv(q, ops[1..]);
      } else {
        RegistrationWaits(q, ops[1..], id, e);
      }
    }
  }

  /** Steps that neither execute this id nor read a clock at or after this expiry. */
  ghost predicate LeavesAlone(ops: seq<Op>, id: string, expiresAt: real) {
    forall i :: 0 <= i < |ops| ==>
      && (ops[i].Execute? && ops[i].context.genuine ==> ops[i].context.requestId != id)
      && (ops[i].Advance? ==> ops[i].env.now < expiresAt)
  }

  /** A condition on the steps alone under which a registration goes on waiting. */
  lemma {:induction false} LeftAlone(p: Pipe, ops: seq<Op>, id: string, e: G.Entry<Seat>)
    requires LeavesAlone(ops, id, e.expiresAt)
    ensures !EndsIn(p, ops, id, e)
    decreases |ops|
  {
    hide Step;
    if ops != [] {
      LeftAlone(Step(p, ops[0]), ops[1..], id, e);
    }
  }

  /**
   Anyone genuine who executes the id of a waiting registration without being the
   person it was prepared for denies it, and nobody can execute it after that.
   */
  lemma ForeignExecutionDenies(p: Pipe, c: G.Context, current: P.ControlRequest, env: Env, e: G.Entry<Seat>,
                               later: seq<Op>)
    requires Inv(p) && c.genuine && Waiting(p, c.requestId, e) && !G.SamePerson(c, e.request)
    ensures At(Step(p, Execute(c, current, env)).lifes, e.life.life, Denied)
    ensures !Waiting(RunAll(Step(p, Execute(c, current, env)), later), c.requestId, e)
  {
    hide Inv, Step, Waiting, EvidenceOf, RunAll;
    var op := Execute(c, current, env);
    ExecutionDecides(p, c, current, env, e);
    RunFirst(p, op, later);
    RegistrationWaits(p, [op] + later, c.requestId, e);
  }

  lemma RunFirst(p: Pipe, op: Op, later: seq<Op>)
    ensures RunAll(p, [op] + later) == RunAll(Step(p, op), later)
    ensures forall id, e :: EndsIn(p, [op] + later, id, e) <==> Ends(p, op, id, e) || EndsIn(Step(p, op), later, id, e)
  {
    hide Step, Ends;
    assert ([op] + later)[0] == op && ([op] + later)[1..] == later;
  }

  // ----- Approvals

  /** The step operates on this approval, apart from looking up one that is already consumed. */
  predicate Names(p: Pipe, op: Op, a: nat) {
    match op
    case Store(x) => !x.DoIssue? && x.id == a
    case Advance(u, _) =>
      u in p.tasks && (p.tasks[u].ConsumePresented? || p.tasks[u].Offer? || p.tasks[u].Take?)
        && p.tasks[u].approval == a
    case _ => false
  }

  /** The record of this approval is the same in both stores. */
  predicate SameRecord(s: A.Store, later: A.Store, a: nat) {
    a in s.records && a in later.records && later.records[a] == s.records[a]
  }

  lemma UnnamedKeepsRecord(s: A.Store, x: A.StoreOp, a: nat)
    requires A.WellFormed(s) && a in s.records
    requires (!x.DoIssue? && x.id == a) ==> s.records[a].state == A.Consumed
    ensures SameRecord(s, A.Apply(s, x), a)
  {
    if s.records[a].state == A.Consumed {
      A.StepKeepsApprovals(s, x, a);
    }
  }

  lemma TaskKeepsRecord(p: Pipe, u: nat, env: Env, a: nat)
    requires Inv(p) && u in p.tasks && Owned(p, p.tasks[u]) && a in p.store.records
    requires Names(p, Advance(u, env), a) ==> p.store.records[a].state == A.Consumed
    ensures SameRecord(p.store, TaskLeaves(p, p.tasks[u], env).store, a)
  {
    hide Own, C.Inv, Legals, Numbered, TableOk, Dispatched, DispatchesOk, MatchingOf, TaskTable, A.WellFormed, A.Apply;
    var k := p.tasks[u];
    assert TaskOk(k, p.store, p.taken, p.registered);
    var x := TaskStoreOp(p, k, env);
    if x.Some? {
      UnnamedKeepsRecord(p.store, x.value, a);
    }
  }

  lemma ExecutionKeepsRecord(p: Pipe, c: G.Context, current: P.ControlRequest, env: Env, a: nat)
    requires Inv(p) && Executable(p, c.requestId) && a in p.store.records
    ensures SameRecord(p.store, ExecuteStore(p, c, current, env), a)
  {
    hide Own, C.Inv, Legals, Numbered, TasksOk, Dispatched, DispatchesOk, A.WellFormed, VerdictOn;
    var e := p.prepared[c.requestId];
    assert Carries(e.result, e.approval, e.life.life, p.taken);
    if e.approval.Some? {
      UnnamedKeepsRecord(p.store, A.DoGet(e.approval.value, env.lookup), a);
    }
  }

  /** An approval stays as it is until a step names it, and a consumed one whatever happens. */
  lemma StepKeepsRecord(p: Pipe, op: Op, a: nat)
    requires Inv(p) && a in p.store.records && (Names(p, op, a) ==> p.store.records[a].state == A.Consumed)
    ensures SameRecord(p.store, Step(p, op).store, a)
  {
    hide Inv, Step, Touches, ExecuteStore, TaskLeaves, A.WellFormed, A.Apply;
    NobodyIsTouched(p, op);
    StepBeside(p, op, Unborn(p, op), Unborn(p, op));
    match op
    case Execute(c, current, env) =>
      if c.genuine && Executable(p, c.requestId) {
        ExecutionKeepsRecord(p, c, current, env, a);
      }
    case Advance(u, env) =>
      if u in p.tasks && Owned(p, p.tasks[u]) {
        TaskKeepsRecord(p, u, env, a);
      }
    case Store(x) =>
      StoreIsFine(p);
      UnnamedKeepsRecord(p.store, x, a);
    case _ =>
  }

  /** No step of the run names this approval. */
  ghost predicate Unnamed(p: Pipe, ops: seq<Op>, a: nat)
    decreases |ops|
  {
    ops == [] || (!Names(p, ops[0], a) && Unnamed(Step(p, ops[0]), ops[1..], a))
  }

  lemma {:induction false} ApprovalWaits(p: Pipe, ops: seq<Op>, a: nat)
    requires Inv(p) && a in p.store.records && (Unnamed(p, ops, a) || p.store.records[a].state == A.Consumed)
    ensures SameRecord(p.store, RunAll(p, ops).store, a)
    decreases |ops|
  {
    hide Inv, Step, Names;
    if ops != [] {
      StepKeepsInv(p, ops[0]);
      StepKeepsRecord(p, ops[0], a);
      ApprovalWaits(Step(p, ops[0]), ops[1..], a);
    }
  }
}
