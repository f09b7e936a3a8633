/**
 The management path to a grant: a consent record is presented, decided once,
 and only an APPROVE decision makes a thread issue an approval and activate it.
 */
module Activation {
  import opened Wrappers
  import opened Digests
  import A = Approvals
  import C = Coordinator
  import opened Ledger
  import opened LedgerRuns
  import opened LedgerSafety

  /** What a pending automation consent binds. `grant` is the fingerprint of the job it presents. */
  datatype Plan = Plan(binding: Digest, grant: Digest, until: real)

  /** How far the thread that received an APPROVE decision has come. */
  datatype Stage = Fresh | Issued(approval: nat) | Offered(approval: nat) | Ended

  datatype Task = Task(record: C.Record<Plan>, stage: Stage)

  /**
   `tasks` holds the threads that received an APPROVE decision, by consent.
   `shown` and `origin` are history: the job and configuration each consent
   presented, and the consent each approval was issued for.
   */
  datatype Manager = Manager(
    world: World, coord: C.Coord<Plan>, limits: C.Limits, tasks: map<nat, Task>,
    shown: map<nat, (Job, string)>, origin: map<nat, nat>)

  datatype ManagerOp =
    | Ask(requestId: string, caller: string, session: string, job: Job, config: string,
          wall1: real, wall2: real, wall3: real, wall4: real, now: real)
    | Look(id: nat, requestId: string, caller: string, session: string, now: real)
    | Answered(id: nat, approve: bool, now: real)
    | IssueFor(id: nat, now: real)
    | OfferFor(id: nat, now: real)
    | ActivateFor(id: nat, job: Job, config1: string, config2: string,
                  wall1: real, wall2: real, now: real, stamp: real, st: Storage)
    | Other(op: Op)

  /** Everyone else shares the store and the ledger, but only the manager issues approvals for grants. */
  predicate Foreign(op: Op) {
    op.Approvals? && op.op.DoIssue? ==> op.op.binding.PermissionDigest?
  }

  function Initial(home: string, limits: C.Limits): Manager {
    Manager(LedgerRuns.Initial(home), C.Coord(map[], {}, 0), limits, map[], map[], map[])
  }

  /** The expiry a request asks for: one day from now, read twice. */
  function Expiry(wall1: real, wall2: real): real {
    Lesser(wall1 + 86400.0, wall2 + 86400.0)
  }

  ghost function StepAsk(m: Manager, requestId: string, caller: string, session: string, p: Plan,
                         job: Job, config: string, now: real): Manager
  {
    var (coord, r) := C.Register(m.coord, m.limits, requestId, caller, session, p, now);
    m.(coord := coord, shown := if r.Ok? then m.shown[r.value.id := (job, config)] else m.shown)
  }

  function StepAnswered(m: Manager, id: nat, approve: bool, now: real): Manager {
    var (coord, r) := C.Decide(m.coord, id, approve, now);
    m.(coord := coord, tasks := if r.Ok? && approve then m.tasks[id := Task(r.value, Fresh)] else m.tasks)
  }

  function StepIssueFor(m: Manager, id: nat, now: real): Manager
    requires id in m.tasks && m.tasks[id].stage == Fresh
  {
    var r := m.tasks[id].record;
    var (store, issued) := A.Issue(m.world.store, r.payload.binding, r.caller, r.session, 30.0, now);
    if issued.Ok? then
      m.(world := m.world.(store := store),
         tasks := m.tasks[id := m.tasks[id].(stage := Issued(issued.value.id))],
         origin := m.origin[issued.value.id := id])
    else m.(tasks := m.tasks[id := m.tasks[id].(stage := Ended)])
  }

  function StepOfferFor(m: Manager, id: nat, now: real): Manager
    requires id in m.tasks && m.tasks[id].stage.Issued?
  {
    var a := m.tasks[id].stage.approval;
    var (store, offered) := A.MakeAvailable(m.world.store, a, now);
    m.(world := m.world.(store := store),
       tasks := m.tasks[id := m.tasks[id].(stage := if offered.Ok? then Offered(a) else Ended)])
  }

  /** The activation input the deciding thread builds from its own consent and approval. */
  function InputFor(t: Task, op: ManagerOp): Activation
    requires op.ActivateFor? && t.stage.Offered?
  {
    Activation.Activation(op.job, t.record.caller, t.record.session, t.record.payload.until, t.stage.approval,
      op.config1, op.config2, op.wall1, op.wall2, op.now, op.stamp)
  }

  /**
   The process dies. Consent records, request ids and deciding threads lived in
   its memory; what happened to them stays on record as history.
   */
  function Restarted(m: Manager, kept: set<nat>): Manager {
    m.(world := LedgerRuns.Step(m.world, Crash(kept)), coord := m.coord.(records := map[], requestIds := {}),
       tasks := map c | c in m.tasks :: m.tasks[c].(stage := Ended))
  }

  ghost function Step(m: Manager, op: ManagerOp): Manager {
    match op
    case Ask(q, caller, session, job, config, w1, w2, w3, w4, now) =>
      var until := Expiry(w1, w2);
      var b := Binding(m.world.home, job, config, caller, session, until, w3, w4);
      if b.Ok?
      then StepAsk(m, q, caller, session, Plan(b.value, GrantFingerprint(job, config).value, until), job, config, now)
      else m
    case Look(id, q, caller, session, now) => m.(coord := C.Get(m.coord, id, q, caller, session, now).0)
    case Answered(id, approve, now) => StepAnswered(m, id, approve, now)
    case IssueFor(id, now) => if id in m.tasks && m.tasks[id].stage == Fresh then StepIssueFor(m, id, now) else m
    case OfferFor(id, now) => if id in m.tasks && m.tasks[id].stage.Issued? then StepOfferFor(m, id, now) else m
    case ActivateFor(id, _, _, _, _, _, _, _, st) =>
      if id in m.tasks && m.tasks[id].stage.Offered?
      then m.(world := LedgerRuns.Step(m.world, Activate(InputFor(m.tasks[id], op), st)),
              tasks := m.tasks[id := m.tasks[id].(stage := Ended)])
      else m
    case Other(lop) =>
      if lop.Crash? then Restarted(m, lop.kept)
      else if Foreign(lop) then m.(world := LedgerRuns.Step(m.world, lop))
      else m
  }

  // ----- The invariant

  predicate For(a: Digest, caller: string, session: string, r: C.Record<Plan>) {
    a == r.payload.binding && caller == r.caller && session == r.session
  }

  /** Consents that were approved cannot be decided again, and what they bind is what they showed. */
  ghost predicate TasksAgree(home: string, coord: C.Coord<Plan>, tasks: map<nat, Task>,
                             shown: map<nat, (Job, string)>) {
    && (forall c :: c in tasks ==>
          c < coord.next && tasks[c].record.state == C.Approved && Presents(home, shown, c, tasks[c].record))
    && (forall c :: c in coord.records ==> c < coord.next && Presents(home, shown, c, coord.records[c]))
    && (forall c :: c in tasks && c in coord.records ==> coord.records[c].state != C.Pending)
  }

  ghost predicate Presents(home: string, shown: map<nat, (Job, string)>, c: nat, r: C.Record<Plan>) {
    && c in shown
    && Fingerprinted(shown[c], r.payload.grant)
    && r.payload.binding == BindingDigest(home, r.payload.grant, r.caller, r.session, r.payload.until, ScriptDigest)
  }

  ghost predicate Fingerprinted(shown: (Job, string), grant: Digest) {
    GrantFingerprint(shown.0, shown.1) == Ok(grant)
  }

  /** Every approval for a grant was issued for one approved consent, and no two for the same. */
  ghost predicate OriginsAgree(store: A.Store, tasks: map<nat, Task>, origin: map<nat, nat>) {
    && A.WellFormed(store)
    && (forall a :: a in origin ==> a < store.next && origin[a] in tasks && tasks[origin[a]].stage != Fresh)
    && (forall a, b :: a in origin && b in origin && a != b ==> origin[a] != origin[b])
    && (forall a :: a in store.records && store.records[a].binding.BindingDigest? ==> a in origin)
    && (forall a :: a in store.records && a in origin ==>
          For(store.records[a].binding, store.records[a].caller, store.records[a].session, tasks[origin[a]].record))
  }

  predicate Traced(e: Event, tasks: map<nat, Task>, origin: map<nat, nat>) {
    e.Activated? ==>
      && e.request.approval in origin && origin[e.request.approval] in tasks
      && For(e.request.binding, e.request.row.owner, e.request.row.session, tasks[origin[e.request.approval]].record)
  }

  ghost predicate LogAgrees(log: seq<Event>, tasks: map<nat, Task>, origin: map<nat, nat>) {
    forall i :: 0 <= i < |log| ==> Traced(log[i], tasks, origin)
  }

  ghost predicate Linked(m: Manager) {
    && TasksAgree(m.world.home, m.coord, m.tasks, m.shown)
    && OriginsAgree(m.world.store, m.tasks, m.origin)
    && LogAgrees(m.world.log, m.tasks, m.origin)
  }

  ghost predicate ManagerInv(m: Manager) {
    LedgerRuns.Inv(m.world) && C.Inv(m.coord, m.limits) && Linked(m)
  }

  // ----- Preservation

  /** Steps on the approval store by anyone keep the origins, as long as they issue nothing for grants. */
  lemma StoreKeepsOrigins(s: A.Store, op: A.StoreOp, tasks: map<nat, Task>, origin: map<nat, nat>)
    requires OriginsAgree(s, tasks, origin)
    requires op.DoIssue? ==> op.binding.PermissionDigest?
    ensures OriginsAgree(A.Apply(s, op), tasks, origin)
  {
    A.StepKeepsWellFormed(s, op);
    var t := A.Apply(s, op);
    forall a | a in t.records
      ensures t.records[a].binding.BindingDigest? ==> a in origin
      ensures a in origin ==> For(t.records[a].binding, t.records[a].caller, t.records[a].session,
                                  tasks[origin[a]].record)
    {
      if a in s.records {
        A.StepKeepsApprovals(s, op, a);
      }
    }
  }

  lemma ActivationIsTraced(s: A.Store, q: Request, tasks: map<nat, Task>, origin: map<nat, nat>)
    requires OriginsAgree(s, tasks, origin) && q.binding.BindingDigest? && ConsumeFor(s, q).1.Ok?
    ensures q.approval in origin && For(q.binding, q.row.owner, q.row.session, tasks[origin[q.approval]].record)
    ensures OriginsAgree(ConsumeFor(s, q).0, tasks, origin)
  {
    A.ConsumeIsExact(s, q.approval, q.binding, q.row.owner, q.row.session, q.now, q.stamp);
    StoreKeepsOrigins(s, A.DoConsume(q.approval, q.binding, q.row.owner, q.row.session, q.now, q.stamp), tasks, origin);
  }

  lemma ActivateTracesEvents(w: World, x: Activation, q: Request, st: Storage, tasks: map<nat, Task>,
                             origin: map<nat, nat>)
    requires OriginsAgree(w.store, tasks, origin) && q.binding.BindingDigest?
    requires LogAgrees(w.log, tasks, origin)
    ensures var v := StepActivate(w, x, q, st);
      && OriginsAgree(v.store, tasks, origin)
      && LogAgrees(v.log, tasks, origin)
  {
    StoreKeepsOrigins(w.store, A.DoConsume(q.approval, q.binding, q.row.owner, q.row.session, q.now, q.stamp), tasks,
                      origin);
    if Answer(w.authority, st, ActivateBody(w.authority.disk, w.store, q)).Done? {
      ActivationIsTraced(w.store, q, tasks, origin);
    }
  }

  lemma CrashKeepsOrigins(w: World, kept: set<nat>, tasks: map<nat, Task>, origin: map<nat, nat>)
    requires OriginsAgree(w.store, tasks, origin)
    ensures OriginsAgree(StepCrash(w, kept).store, tasks, origin)
  {
  }

  /** A ledger step by anyone keeps approvals traced to consents and logged activations traced to approvals. */
  lemma LedgerStepKeepsTraces(w: World, op: Op, tasks: map<nat, Task>, origin: map<nat, nat>)
    requires OriginsAgree(w.store, tasks, origin) && Foreign(op)
    requires LogAgrees(w.log, tasks, origin)
    ensures var v := LedgerRuns.Step(w, op);
      && OriginsAgree(v.store, tasks, origin)
      && LogAgrees(v.log, tasks, origin)
  {
    hide OriginsAgree, LogAgrees, StepActivate, AddsNoActivation;
    QuietLog(w, op);
    match op
    case Approvals(sop) => StoreKeepsOrigins(w.store, sop, tasks, origin);
    case Crash(kept) => CrashKeepsOrigins(w, kept, tasks, origin);
    case Activate(x, st) =>
      if ActivationInput(w.home, x).Ok? {
        ActivateTracesEvents(w, x, RequestOf(w.home, x), st, tasks, origin);
      }
    case _ =>
    if !op.Activate? {
      LogGrows(w.log, LedgerRuns.Step(w, op).log, tasks, origin);
    }
  }

  /** At most one effect more, and not an activation. */
  predicate AddsNoActivation(log: seq<Event>, later: seq<Event>) {
    later == log || (later != [] && later == log + [later[|later| - 1]] && !later[|later| - 1].Activated?)
  }

  lemma QuietLog(w: World, op: Op)
    ensures !op.Activate? ==> AddsNoActivation(w.log, LedgerRuns.Step(w, op).log)
  {
  }

  lemma LogGrows(log: seq<Event>, later: seq<Event>, tasks: map<nat, Task>, origin: map<nat, nat>)
    requires LogAgrees(log, tasks, origin) && AddsNoActivation(log, later)
    ensures LogAgrees(later, tasks, origin)
  {
  }

  lemma LedgerStepKeepsLinks(m: Manager, op: Op)
    requires Linked(m) && Foreign(op)
    ensures Linked(m.(world := LedgerRuns.Step(m.world, op)))
  {
    hide TasksAgree, OriginsAgree, LogAgrees;
    StepSources(m.world, op);
    LedgerStepKeepsTraces(m.world, op, m.tasks, m.origin);
  }

  predicate Later(a: Task, b: Task) {
    a.record == b.record && (a.stage != Fresh ==> b.stage != Fresh)
  }

  /** A thread only moves forward: its record stays, and it never becomes fresh again. */
  ghost predicate Advances(tasks: map<nat, Task>, later: map<nat, Task>) {
    forall c :: c in tasks ==> c in later && Later(tasks[c], later[c])
  }

  lemma AdvanceKeepsTraces(store: A.Store, log: seq<Event>, tasks: map<nat, Task>, later: map<nat, Task>,
                           origin: map<nat, nat>)
    requires OriginsAgree(store, tasks, origin) && LogAgrees(log, tasks, origin) && Advances(tasks, later)
    ensures OriginsAgree(store, later, origin) && LogAgrees(log, later, origin)
  {
    forall i | 0 <= i < |log| ensures Traced(log[i], later, origin) {
      assert Traced(log[i], tasks, origin);
    }
  }

  lemma StageKeepsTasks(home: string, coord: C.Coord<Plan>, tasks: map<nat, Task>, shown: map<nat, (Job, string)>,
                        c: nat, stage: Stage)
    requires TasksAgree(home, coord, tasks, shown) && c in tasks
    ensures TasksAgree(home, coord, tasks[c := tasks[c].(stage := stage)], shown)
  {
  }

  /** Moving a thread to a later stage keeps everything traced. */
  lemma StageKeepsLinks(m: Manager, c: nat, stage: Stage)
    requires Linked(m) && c in m.tasks && stage != Fresh
    ensures Linked(m.(tasks := m.tasks[c := m.tasks[c].(stage := stage)]))
  {
    hide TasksAgree, OriginsAgree, LogAgrees;
    StageKeepsTasks(m.world.home, m.coord, m.tasks, m.shown, c, stage);
    AdvanceKeepsTraces(m.world.store, m.world.log, m.tasks, m.tasks[c := m.tasks[c].(stage := stage)], m.origin);
  }

  /** Registering keeps old records as they were, up to expiry, and adds at most the new one. */
  ghost predicate Registers(c: C.Coord<Plan>, d: C.Coord<Plan>, added: Option<C.Record<Plan>>) {
    && d.next == c.next + (if added.Some? then 1 else 0)
    && (added.Some? ==> added.value.id == c.next && C.Holds(d, added.value))
    && (forall k :: k in d.records ==>
          if k < c.next then k in c.records && C.Progress(c.records[k], d.records[k]) else added.Some? && k == c.next)
  }

  lemma RegistrationRegisters(c: C.Coord<Plan>, l: C.Limits, q: string, caller: string, session: string, p: Plan,
                              now: real)
    requires C.Inv(c, l)
    ensures var (d, r) := C.Register(c, l, q, caller, session, p, now);
      Registers(c, d, if r.Ok? then Some(r.value) else None)
  {
    C.RegisterAdds(c, l, q, caller, session, p, now);
    var d := C.Register(c, l, q, caller, session, p, now).0;
    forall k | k in d.records && k < c.next ensures k in c.records && C.Progress(c.records[k], d.records[k]) {
      C.RegisterKeepsRecords(c, l, q, caller, session, p, now, k);
    }
  }

  lemma AskKeepsTasks(home: string, c: C.Coord<Plan>, d: C.Coord<Plan>, added: Option<C.Record<Plan>>,
                      tasks: map<nat, Task>, shown: map<nat, (Job, string)>, entry: (Job, string))
    requires TasksAgree(home, c, tasks, shown) && Registers(c, d, added)
    requires added.Some? ==> Presents(home, shown[c.next := entry], c.next, added.value)
    ensures TasksAgree(home, d, tasks, if added.Some? then shown[c.next := entry] else shown)
  {
    hide Fingerprinted;
    var later := if added.Some? then shown[c.next := entry] else shown;
    forall k | k in d.records
      ensures k < d.next && Presents(home, later, k, d.records[k]) && (k in tasks ==> d.records[k].state != C.Pending)
    {
      if k < c.next {
        assert Presents(home, shown, k, c.records[k]);
      }
    }
    forall k | k in tasks ensures k < d.next && Presents(home, later, k, tasks[k].record) {
      assert Presents(home, shown, k, tasks[k].record);
    }
  }

  lemma AskKeepsLinks(m: Manager, q: string, caller: string, session: string, p: Plan, job: Job, config: string,
                      now: real)
    requires Linked(m) && C.Inv(m.coord, m.limits)
    requires Fingerprinted((job, config), p.grant)
    requires p.binding == BindingDigest(m.world.home, p.grant, caller, session, p.until, ScriptDigest)
    ensures Linked(StepAsk(m, q, caller, session, p, job, config, now))
  {
    hide TasksAgree, OriginsAgree, LogAgrees;
    var (d, r) := C.Register(m.coord, m.limits, q, caller, session, p, now);
    RegistrationRegisters(m.coord, m.limits, q, caller, session, p, now);
    C.RegisterAdds(m.coord, m.limits, q, caller, session, p, now);
    AskKeepsTasks(m.world.home, m.coord, d, if r.Ok? then Some(r.value) else None, m.tasks, m.shown, (job, config));
  }

  /** Looking a consent up, or deciding it, changes no more than its state. */
  ghost predicate OnlyStates(c: C.Coord<Plan>, d: C.Coord<Plan>) {
    && d.next == c.next && d.records.Keys == c.records.Keys
    && (forall id :: id in c.records ==> C.Progress(c.records[id], d.records[id]))
  }

  lemma StatesKeepTasks(home: string, c: C.Coord<Plan>, d: C.Coord<Plan>, tasks: map<nat, Task>,
                        shown: map<nat, (Job, string)>)
    requires TasksAgree(home, c, tasks, shown) && OnlyStates(c, d)
    ensures TasksAgree(home, d, tasks, shown)
  {
    forall k | k in d.records
      ensures Presents(home, shown, k, d.records[k]) && (k in tasks ==> d.records[k].state != C.Pending)
    {
      assert Presents(home, shown, k, c.records[k]) && C.Progress(c.records[k], d.records[k]);
    }
  }

  lemma LookChangesStates(c: C.Coord<Plan>, id: nat, q: string, caller: string, session: string, now: real)
    ensures OnlyStates(c, C.Get(c, id, q, caller, session, now).0)
  {
    forall k | k in c.records ensures C.Progress(c.records[k], C.Get(c, id, q, caller, session, now).0.records[k]) {
      C.GetKeepsRecords(c, id, q, caller, session, now, k);
    }
  }

  lemma DecideChangesStates(c: C.Coord<Plan>, id: nat, approve: bool, now: real)
    requires id in c.records ==> c.records[id].id == id
    ensures OnlyStates(c, C.Decide(c, id, approve, now).0)
    ensures var (d, r) := C.Decide(c, id, approve, now);
      (r.Ok? ==> id in c.records && c.records[id].state == C.Pending && C.Holds(d, r.value) && r.value.id == id
                 && r.value.state == (if approve then C.Approved else C.Rejected) && C.Progress(c.records[id], r.value))
  {
    forall k | k in c.records ensures C.Progress(c.records[k], C.Decide(c, id, approve, now).0.records[k]) {
      C.DecideKeepsRecords(c, id, approve, now, k);
    }
  }

  lemma ApprovalKeepsTasks(home: string, c: C.Coord<Plan>, r: C.Record<Plan>, tasks: map<nat, Task>,
                           shown: map<nat, (Job, string)>)
    requires TasksAgree(home, c, tasks, shown) && C.Holds(c, r) && r.state == C.Approved
    ensures TasksAgree(home, c, tasks[r.id := Task(r, Fresh)], shown)
  {
    hide Presents;
  }

  lemma AnsweredKeepsTasks(home: string, c: C.Coord<Plan>, id: nat, approve: bool, now: real,
                           tasks: map<nat, Task>, shown: map<nat, (Job, string)>)
    requires TasksAgree(home, c, tasks, shown) && (id in c.records ==> c.records[id].id == id)
    ensures var (d, r) := C.Decide(c, id, approve, now);
      && TasksAgree(home, d, if r.Ok? && approve then tasks[id := Task(r.value, Fresh)] else tasks, shown)
      && (r.Ok? ==> id !in tasks)
  {
    var (d, r) := C.Decide(c, id, approve, now);
    DecideChangesStates(c, id, approve, now);
    StatesKeepTasks(home, c, d, tasks, shown);
    if r.Ok? && approve {
      ApprovalKeepsTasks(home, d, r.value, tasks, shown);
    }
  }

  lemma NewTaskKeepsTraces(store: A.Store, log: seq<Event>, tasks: map<nat, Task>, id: nat, t: Task,
                           origin: map<nat, nat>)
    requires OriginsAgree(store, tasks, origin) && LogAgrees(log, tasks, origin) && id !in tasks
    ensures OriginsAgree(store, tasks[id := t], origin) && LogAgrees(log, tasks[id := t], origin)
  {
    AdvanceKeepsTraces(store, log, tasks, tasks[id := t], origin);
  }

  lemma AnsweredKeepsLinks(m: Manager, id: nat, approve: bool, now: real)
    requires Linked(m) && (id in m.coord.records ==> m.coord.records[id].id == id)
    ensures Linked(StepAnswered(m, id, approve, now))
  {
    hide TasksAgree, OriginsAgree, LogAgrees;
    AnsweredKeepsTasks(m.world.home, m.coord, id, approve, now, m.tasks, m.shown);
    var r := C.Decide(m.coord, id, approve, now).1;
    if r.Ok? && approve {
      NewTaskKeepsTraces(m.world.store, m.world.log, m.tasks, id, Task(r.value, Fresh), m.origin);
    }
  }

  lemma LookKeepsLinks(m: Manager, id: nat, q: string, caller: string, session: string, now: real)
    requires Linked(m)
    ensures Linked(m.(coord := C.Get(m.coord, id, q, caller, session, now).0))
  {
    hide TasksAgree, OriginsAgree, LogAgrees;
    LookChangesStates(m.coord, id, q, caller, session, now);
    StatesKeepTasks(m.world.home, m.coord, C.Get(m.coord, id, q, caller, session, now).0, m.tasks, m.shown);
  }

  lemma OfferKeepsLinks(m: Manager, id: nat, now: real)
    requires Linked(m) && id in m.tasks && m.tasks[id].stage.Issued?
    ensures Linked(StepOfferFor(m, id, now))
  {
    hide LogAgrees, TasksAgree, OriginsAgree;
    var a := m.tasks[id].stage.approval;
    StoreKeepsOrigins(m.world.store, A.DoMakeAvailable(a, now), m.tasks, m.origin);
    StageKeepsLinks(m.(world := m.world.(store := A.MakeAvailable(m.world.store, a, now).0)), id,
                    if A.MakeAvailable(m.world.store, a, now).1.Ok? then Offered(a) else Ended);
  }

  lemma ActivateKeepsLinks(m: Manager, id: nat, lop: Op)
    requires Linked(m) && id in m.tasks && Foreign(lop)
    ensures Linked(m.(world := LedgerRuns.Step(m.world, lop), tasks := m.tasks[id := m.tasks[id].(stage := Ended)]))
  {
    hide Linked;
    LedgerStepKeepsLinks(m, lop);
    StageKeepsLinks(m.(world := LedgerRuns.Step(m.world, lop)), id, Ended);
  }

  /** Issuing for a fresh thread ties the new approval to its consent. */
  lemma IssueKeepsOrigins(store: A.Store, tasks: map<nat, Task>, origin: map<nat, nat>, id: nat, now: real)
    requires OriginsAgree(store, tasks, origin) && id in tasks && tasks[id].stage == Fresh
    ensures var r := tasks[id].record;
      var (later, issued) := A.Issue(store, r.payload.binding, r.caller, r.session, 30.0, now);
      issued.Ok? ==>
        OriginsAgree(later, tasks[id := tasks[id].(stage := Issued(issued.value.id))], origin[issued.value.id := id])
  {
    assert store.next !in origin && store.next !in store.records;
    assert forall a :: a in origin ==> origin[a] != id;
  }

  lemma IssueKeepsLog(log: seq<Event>, tasks: map<nat, Task>, later: map<nat, Task>, origin: map<nat, nat>, a: nat,
                      id: nat)
    requires LogAgrees(log, tasks, origin) && Advances(tasks, later) && a !in origin
    ensures LogAgrees(log, later, origin[a := id])
  {
    forall i | 0 <= i < |log| ensures Traced(log[i], later, origin[a := id]) {
      assert Traced(log[i], tasks, origin);
    }
  }

  lemma IssuedIsNew(m: Manager, id: nat, now: real)
    requires OriginsAgree(m.world.store, m.tasks, m.origin) && id in m.tasks
    ensures m.world.store.next !in m.origin
  {
  }

  lemma LinkUp(m: Manager, store: A.Store, tasks: map<nat, Task>, origin: map<nat, nat>)
    requires TasksAgree(m.world.home, m.coord, tasks, m.shown) && OriginsAgree(store, tasks, origin)
    requires LogAgrees(m.world.log, tasks, origin)
    ensures Linked(m.(world := m.world.(store := store), tasks := tasks, origin := origin))
  {
    hide TasksAgree, OriginsAgree, LogAgrees;
  }

  lemma IssuedKeepsLinks(m: Manager, id: nat, now: real, store: A.Store, a: nat)
    requires Linked(m) && id in m.tasks && m.tasks[id].stage == Fresh
    requires var r := m.tasks[id].record;
      var (later, issued) := A.Issue(m.world.store, r.payload.binding, r.caller, r.session, 30.0, now);
      issued.Ok? && later == store && a == issued.value.id
    ensures Linked(m.(world := m.world.(store := store), tasks := m.tasks[id := m.tasks[id].(stage := Issued(a))],
                      origin := m.origin[a := id]))
  {
    hide TasksAgree, LogAgrees;
    var later := m.tasks[id := m.tasks[id].(stage := Issued(a))];
    IssuedIsNew(m, id, now);
    IssueKeepsOrigins(m.world.store, m.tasks, m.origin, id, now);
    IssueKeepsLog(m.world.log, m.tasks, later, m.origin, a, id);
    StageKeepsTasks(m.world.home, m.coord, m.tasks, m.shown, id, Issued(a));
    LinkUp(m, store, later, m.origin[a := id]);
  }

  lemma IssueKeepsLinks(m: Manager, id: nat, now: real)
    requires Linked(m) && id in m.tasks && m.tasks[id].stage == Fresh
    ensures Linked(StepIssueFor(m, id, now))
  {
    hide Linked;
    var r := m.tasks[id].record;
    var (store, issued) := A.Issue(m.world.store, r.payload.binding, r.caller, r.session, 30.0, now);
    if issued.Ok? {
      IssuedKeepsLinks(m, id, now, store, issued.value.id);
    } else {
      StageKeepsLinks(m, id, Ended);
    }
  }

  lemma RestartKeepsTasks(home: string, coord: C.Coord<Plan>, tasks: map<nat, Task>, later: map<nat, Task>,
                          shown: map<nat, (Job, string)>)
    requires TasksAgree(home, coord, tasks, shown)
    requires later == map c | c in tasks :: tasks[c].(stage := Ended)
    ensures TasksAgree(home, coord.(records := map[], requestIds := {}), later, shown)
  {
  }

  /** A crash forgets the pending consents and ends the deciding threads, and nothing that was traced is lost. */
  lemma CrashKeepsLinks(m: Manager, kept: set<nat>)
    requires Linked(m)
    ensures Linked(Restarted(m, kept))
  {
    hide TasksAgree, OriginsAgree, LogAgrees;
    var tasks := Restarted(m, kept).tasks;
    LedgerStepKeepsLinks(m, Crash(kept));
    RestartKeepsTasks(m.world.home, m.coord, m.tasks, tasks, m.shown);
    AdvanceKeepsTraces(LedgerRuns.Step(m.world, Crash(kept)).store, m.world.log, m.tasks, tasks, m.origin);
  }

  lemma RecordsAreNumbered(m: Manager, id: nat)
    requires C.Inv(m.coord, m.limits)
    ensures id in m.coord.records ==> m.coord.records[id].id == id
  {
  }

  lemma EmptiedIsFine(m: Manager)
    requires C.Inv(m.coord, m.limits)
    ensures C.Inv(m.coord.(records := map[], requestIds := {}), m.limits)
  {
  }

  lemma StepKeepsLinks(m: Manager, op: ManagerOp)
    requires Linked(m) && C.Inv(m.coord, m.limits)
    ensures Linked(Step(m, op))
  {
    hide Linked, C.Inv, LedgerRuns.Step, StepAsk, StepAnswered, StepIssueFor, StepOfferFor, C.Get;
    match op
    case Ask(q, caller, session, job, config, w1, w2, w3, w4, now) =>
      var until := Expiry(w1, w2);
      var b := Binding(m.world.home, job, config, caller, session, until, w3, w4);
      if b.Ok? {
        AskKeepsLinks(m, q, caller, session, Plan(b.value, GrantFingerprint(job, config).value, until), job, config,
                      now);
      }
    case Look(id, q, caller, session, now) =>
      LookKeepsLinks(m, id, q, caller, session, now);
    case Answered(id, approve, now) =>
      RecordsAreNumbered(m, id);
      AnsweredKeepsLinks(m, id, approve, now);
    case IssueFor(id, now) => if id in m.tasks && m.tasks[id].stage == Fresh { IssueKeepsLinks(m, id, now); }
    case OfferFor(id, now) =>
      if id in m.tasks && m.tasks[id].stage.Issued? { OfferKeepsLinks(m, id, now); }
    case ActivateFor(id, _, _, _, _, _, _, _, st) =>
      if id in m.tasks && m.tasks[id].stage.Offered? {
        ActivateKeepsLinks(m, id, Activate(InputFor(m.tasks[id], op), st));
      }
    case Other(lop) =>
      if lop.Crash? {
        CrashKeepsLinks(m, lop.kept);
      } else if Foreign(lop) {
        LedgerStepKeepsLinks(m, lop);
      }
  }

  /** The ledger under a manager step takes one ledger step, or none. */
  ghost function LedgerOp(m: Manager, op: ManagerOp): Option<Op> {
    match op
    case IssueFor(id, now) =>
      if id in m.tasks && m.tasks[id].stage == Fresh then
        var r := m.tasks[id].record;
        Some(Approvals(A.DoIssue(r.payload.binding, r.caller, r.session, 30.0, now)))
      else None
    case OfferFor(id, now) =>
      if id in m.tasks && m.tasks[id].stage.Issued?
        then Some(Approvals(A.DoMakeAvailable(m.tasks[id].stage.approval, now)))
      else None
    case ActivateFor(id, _, _, _, _, _, _, _, st) =>
      if id in m.tasks && m.tasks[id].stage.Offered? then Some(Activate(InputFor(m.tasks[id], op), st)) else None
    case Other(lop) => if Foreign(lop) then Some(lop) else None
    case _ => None
  }

  lemma StepTakesLedgerStep(m: Manager, op: ManagerOp)
    ensures Step(m, op).world == if LedgerOp(m, op).Some? then LedgerRuns.Step(m.world, LedgerOp(m, op).value)
      else m.world
  {
  }

  lemma StepKeepsCoordinator(m: Manager, op: ManagerOp)
    requires C.Inv(m.coord, m.limits)
    ensures C.Inv(Step(m, op).coord, Step(m, op).limits)
  {
    hide C.Inv, LedgerRuns.Step;
    match op
    case Ask(q, caller, session, job, config, w1, w2, w3, w4, now) =>
      var until := Expiry(w1, w2);
      var b := Binding(m.world.home, job, config, caller, session, until, w3, w4);
      if b.Ok? {
        C.RegisterKeepsInv(m.coord, m.limits, q, caller, session,
                           Plan(b.value, GrantFingerprint(job, config).value, until), now);
      }
    case Look(id, q, caller, session, now) => C.LookupKeepsInv(m.coord, m.limits, id, q, caller, session, now);
    case Answered(id, approve, now) => C.DecisionKeepsInv(m.coord, m.limits, id, approve, now);
    case Other(_) => EmptiedIsFine(m);
    case _ =>
  }

  lemma StepKeepsLedger(m: Manager, op: ManagerOp)
    requires LedgerRuns.Inv(m.world)
    ensures LedgerRuns.Inv(Step(m, op).world)
  {
    StepTakesLedgerStep(m, op);
    if LedgerOp(m, op).Some? {
      LedgerRuns.StepKeepsInv(m.world, LedgerOp(m, op).value);
    }
  }

  lemma StepKeepsInv(m: Manager, op: ManagerOp)
    requires ManagerInv(m)
    ensures ManagerInv(Step(m, op))
  {
    StepKeepsLedger(m, op);
    StepKeepsCoordinator(m, op);
    StepKeepsLinks(m, op);
  }

  ghost function Run(m: Manager, ops: seq<ManagerOp>): Manager
    decreases |ops|
  {
    if ops == [] then m else Run(Step(m, ops[0]), ops[1..])
  }

  lemma InitialInv(home: string, limits: C.Limits)
    requires C.ValidLimits(limits)
    ensures ManagerInv(Initial(home, limits))
  {
    LedgerRuns.InitialInv(home);
  }

  lemma {:induction false} RunKeepsInv(m: Manager, ops: seq<ManagerOp>)
    requires ManagerInv(m)
    ensures ManagerInv(Run(m, ops))
    decreases |ops|
  {
    if ops != [] {
      StepKeepsInv(m, ops[0]);
      RunKeepsInv(Step(m, ops[0]), ops[1..]);
    }
  }

  /** The state that a run of the management path, interleaved with the ledger, reaches. */
  ghost function Reached(home: string, limits: C.Limits, ops: seq<ManagerOp>): Manager {
    Run(Initial(home, limits), ops)
  }

  lemma ReachedInv(home: string, limits: C.Limits, ops: seq<ManagerOp>)
    requires C.ValidLimits(limits)
    ensures ManagerInv(Reached(home, limits, ops))
  {
    InitialInv(home, limits);
    RunKeepsInv(Initial(home, limits), ops);
  }

  /** `e` was activated on an approval issued for one approved consent of the same user and session. */
  ghost predicate FromConsent(m: Manager, e: Event) {
    && e.Activated? && e.request.approval in m.origin && m.origin[e.request.approval] in m.tasks
    && var r := m.tasks[m.origin[e.request.approval]].record;
       && r.state == C.Approved
       && For(e.request.binding, e.request.row.owner, e.request.row.session, r)
       && Presents(m.world.home, m.shown, m.origin[e.request.approval], r)
  }

  lemma ActivationFromConsent(m: Manager, i: nat)
    requires ManagerInv(m)
    ensures i < |m.world.log| && m.world.log[i].Activated? ==> FromConsent(m, m.world.log[i])
  {
    if i < |m.world.log| && m.world.log[i].Activated? {
      assert Traced(m.world.log[i], m.tasks, m.origin);
    }
  }

  lemma TwoConsents(m: Manager, i: nat, j: nat)
    requires ManagerInv(m) && i < j < |m.world.log| && m.world.log[i].Activated? && m.world.log[j].Activated?
    requires FromConsent(m, m.world.log[i]) && FromConsent(m, m.world.log[j])
    ensures m.origin[m.world.log[i].request.approval] != m.origin[m.world.log[j].request.approval]
  {
    ApprovalGrantsOnce(m.world.log, i, j);
  }

  /**
   In every run, each grant comes from one approved consent: the approval it
   consumed was issued for that consent, the same user and session asked for it,
   and no consent yields two grants.
   */
  lemma GrantsComeFromConsents(home: string, limits: C.Limits, ops: seq<ManagerOp>, i: nat, j: nat)
    requires C.ValidLimits(limits)
    ensures var m := Reached(home, limits, ops);
      i < |m.world.log| && m.world.log[i].Activated? ==>
        && FromConsent(m, m.world.log[i])
        && (i < j < |m.world.log| && m.world.log[j].Activated? ==>
              && FromConsent(m, m.world.log[j])
              && m.origin[m.world.log[i].request.approval] != m.origin[m.world.log[j].request.approval])
  {
    ReachedInv(home, limits, ops);
    var m := Reached(home, limits, ops);
    ActivationFromConsent(m, i);
    ActivationFromConsent(m, j);
    if i < j < |m.world.log| && m.world.log[i].Activated? && m.world.log[j].Activated? {
      TwoConsents(m, i, j);
    }
  }

  /** Every logged effect came from a call whose inputs were accepted. */
  ghost predicate AllSourced(w: World) {
    forall i :: 0 <= i < |w.log| ==> Sourced(w.home, w.log[i])
  }

  lemma StepKeepsSources(m: Manager, op: ManagerOp)
    requires AllSourced(m.world)
    ensures AllSourced(Step(m, op).world) && Step(m, op).world.home == m.world.home
  {
    StepTakesLedgerStep(m, op);
    if LedgerOp(m, op).Some? {
      StepSources(m.world, LedgerOp(m, op).value);
    }
  }

  lemma {:induction false} RunKeepsSources(m: Manager, ops: seq<ManagerOp>)
    requires AllSourced(m.world)
    ensures AllSourced(Run(m, ops).world) && Run(m, ops).world.home == m.world.home
    decreases |ops|
  {
    if ops != [] {
      StepKeepsSources(m, ops[0]);
      RunKeepsSources(Step(m, ops[0]), ops[1..]);
    }
  }

  /** The activation `x` is of the job, configuration and expiry that consent `c` presented. */
  ghost predicate AsShown(m: Manager, c: nat, x: Activation) {
    && c in m.shown && c in m.tasks
    && SameAccepted(m.shown[c].0, x.job)
    && m.shown[c].1 == x.configForBinding
    && m.tasks[c].record.payload.until == x.until
  }

  lemma ConsentShows(m: Manager, e: Event)
    requires e.Activated? && Sourced(m.world.home, e) && FromConsent(m, e)
    ensures AsShown(m, m.origin[e.request.approval], e.input)
  {
    FingerprintIsExact(m.shown[m.origin[e.request.approval]].0, e.input.job);
  }

  /** In every run, each grant is for the very reminder, configuration and expiry that its consent presented. */
  lemma GrantIsWhatWasShown(home: string, limits: C.Limits, ops: seq<ManagerOp>, i: nat)
    requires C.ValidLimits(limits)
    ensures var m := Reached(home, limits, ops);
      i < |m.world.log| && m.world.log[i].Activated? ==>
        && FromConsent(m, m.world.log[i])
        && AsShown(m, m.origin[m.world.log[i].request.approval], m.world.log[i].input)
  {
    ReachedInv(home, limits, ops);
    RunKeepsSources(Initial(home, limits), ops);
    var m := Reached(home, limits, ops);
    ActivationFromConsent(m, i);
    if i < |m.world.log| && m.world.log[i].Activated? {
      ConsentShows(m, m.world.log[i]);
    }
  }

  /** Admission `adm` rests on activation `act`, whose consent presented the reminder that is admitted. */
  ghost predicate RestsOn(m: Manager, act: Event, adm: Event) {
    && FromConsent(m, act) && ApprovedFor(m.world.home, act, adm)
    && var c := m.origin[act.request.approval];
       && AsShown(m, c, act.input)
       && SameAccepted(m.shown[c].0, adm.admission.job)
  }

  lemma AdmissionRests(m: Manager, i: nat) returns (j: nat)
    requires ManagerInv(m) && AllSourced(m.world) && i < |m.world.log| && m.world.log[i].Admitted?
    ensures j < i && InForce(m.world.log[..i], j, m.world.log[i].entry.job)
    ensures RestsOn(m, m.world.log[j], m.world.log[i])
  {
    var log := m.world.log;
    j := AdmissionTracesToActivation(log, i);
    assert log[..i][j] == log[j];
    ApprovedIsAdmitted(m.world.home, log[j], log[i]);
    ActivationFromConsent(m, j);
    ConsentShows(m, log[j]);
    SameAcceptedTransitive(m.shown[m.origin[log[j].request.approval]].0, log[j].input.job, log[i].admission.job);
  }

  /**
   End to end: whatever is admitted in any run is a reminder that a consent
   presented, that its owner approved, and whose one approval was consumed for
   the grant still in force.
   */
  lemma AdmittedWasConsentedTo(home: string, limits: C.Limits, ops: seq<ManagerOp>, i: nat)
    requires C.ValidLimits(limits)
    ensures var m := Reached(home, limits, ops);
      i < |m.world.log| && m.world.log[i].Admitted? ==>
        exists j :: 0 <= j < i && InForce(m.world.log[..i], j, m.world.log[i].entry.job)
          && RestsOn(m, m.world.log[j], m.world.log[i])
  {
    ReachedInv(home, limits, ops);
    RunKeepsSources(Initial(home, limits), ops);
    var m := Reached(home, limits, ops);
    if i < |m.world.log| && m.world.log[i].Admitted? {
      var j := AdmissionRests(m, i);
    }
  }
}
