/** Who may move a lifecycle: one thread, one undecided consent, or one registration. */
module PipelineOwnership {
  import C = Coordinator
  import G = Gate
  import opened Lifecycle
  import opened Pipeline

  type Lifes = map<nat, seq<RequestState>>
  type Tasks = map<nat, Task>
  type Records = map<nat, C.Record<Pending>>
  type Table = map<string, G.Entry<Seat>>

  /** The state of a lifecycle while a thread owns it. */
  function Expected(k: Task): RequestState
    requires !k.Over?
  {
    match k
    case MatchApproval(_, _, _, _, _, _) => Prepared
    case Insert(_, _, _, _, _, _) => Prepared
    case Run(_, _) => Executing
    case Finish(_, _, _) => Executing
    case _ => AwaitingApproval
  }

  predicate Has(k: Task, life: nat) {
    !k.Over? && k.life == life
  }

  predicate Dispatches(k: Task) {
    k.Run? || k.Finish?
  }

  predicate At(lifes: Lifes, life: nat, s: RequestState) {
    life in lifes && lifes[life] != [] && Last(lifes[life]) == s
  }

  predicate Undecided(r: C.Record<Pending>) {
    r.state == C.Pending || r.state == C.Expired
  }

  /** A registered lifecycle was prepared, and may have gone on from there. */
  predicate Registered(lifes: Lifes, life: nat) {
    life in lifes && lifes[life] != [] && Last(lifes[life]) in {Prepared, Executing, Completed, Denied, Failed}
  }

  /** Every working thread holds its lifecycle in the state it expects, alone among threads. */
  ghost predicate ThreadsOwn(lifes: Lifes, tasks: Tasks) {
    && (forall t :: t in tasks && !tasks[t].Over? ==> At(lifes, tasks[t].life, Expected(tasks[t])))
    && (forall t, u :: t in tasks && u in tasks && t != u && !tasks[t].Over? ==> !Has(tasks[u], tasks[t].life))
  }

  /** A pending consent holds a lifecycle that awaits approval, alone among consents and threads. */
  ghost predicate ConsentsOwn(lifes: Lifes, tasks: Tasks, records: Records) {
    && (forall c :: c in records && records[c].state == C.Pending ==>
          At(lifes, records[c].payload.life, AwaitingApproval))
    && (forall c :: c in records && records[c].state == C.Expired ==>
          At(lifes, records[c].payload.life, AwaitingApproval) || At(lifes, records[c].payload.life, Denied))
    && (forall c :: c in records ==> records[c].payload.life in lifes)
    && (forall c, d :: c in records && d in records && c != d ==> records[c].payload.life != records[d].payload.life)
    && (forall c, t :: c in records && t in tasks && Has(tasks[t], records[c].payload.life) ==>
          !Undecided(records[c]) && !tasks[t].AskConsent?)
  }

  /** A registration holds its lifecycle; until execution starts no thread does. */
  ghost predicate RegistrationsOwn(lifes: Lifes, tasks: Tasks, records: Records, table: Table) {
    && (forall i :: i in table ==> Registered(lifes, table[i].life.life))
    && (forall i, j :: i in table && j in table && i != j ==> table[i].life.life != table[j].life.life)
    && (forall i, t :: i in table && t in tasks && Has(tasks[t], table[i].life.life) ==> Dispatches(tasks[t]))
    && (forall i, c :: i in table && c in records && records[c].payload.life == table[i].life.life ==>
          !Undecided(records[c]))
  }

  ghost predicate Own(lifes: Lifes, tasks: Tasks, records: Records, table: Table) {
    ThreadsOwn(lifes, tasks) && ConsentsOwn(lifes, tasks, records) && RegistrationsOwn(lifes, tasks, records, table)
  }

  /** What a thread may do with its lifecycle: move it to where its next task expects it, or let go of it. */
  predicate MovesOn(k: Task, h: seq<RequestState>, later: Task) {
    && !k.Over? && h != [] && !later.AskConsent?
    && (!later.Over? ==> later.life == k.life && Last(h) == Expected(later))
    && (Dispatches(k) ==> (Dispatches(later) || later.Over?) && Last(h) in {Executing, Completed, Denied, Failed})
  }

  lemma ThreadMovesAlone(lifes: Lifes, tasks: Tasks, t: nat, h: seq<RequestState>, k: Task)
    requires ThreadsOwn(lifes, tasks) && t in tasks && MovesOn(tasks[t], h, k)
    ensures ThreadsOwn(lifes[tasks[t].life := h], tasks[t := k])
  {
  }

  lemma ThreadMovesPastConsents(lifes: Lifes, tasks: Tasks, records: Records, t: nat, h: seq<RequestState>, k: Task)
    requires ConsentsOwn(lifes, tasks, records) && t in tasks && MovesOn(tasks[t], h, k)
    ensures ConsentsOwn(lifes[tasks[t].life := h], tasks[t := k], records)
  {
    assert forall c :: c in records && records[c].payload.life == tasks[t].life ==> !Undecided(records[c]);
  }

  lemma ThreadMovesPastTable(lifes: Lifes, tasks: Tasks, records: Records, table: Table, t: nat, h: seq<RequestState>,
                             k: Task)
    requires RegistrationsOwn(lifes, tasks, records, table) && t in tasks && MovesOn(tasks[t], h, k)
    ensures RegistrationsOwn(lifes[tasks[t].life := h], tasks[t := k], records, table)
  {
    assert forall i :: i in table && table[i].life.life == tasks[t].life ==> Dispatches(tasks[t]);
  }

  /** A thread moves its own lifecycle on, or lets go of it. */
  lemma ThreadMoves(lifes: Lifes, tasks: Tasks, records: Records, table: Table, t: nat, h: seq<RequestState>, k: Task)
    requires Own(lifes, tasks, records, table) && t in tasks && MovesOn(tasks[t], h, k)
    ensures Own(lifes[tasks[t].life := h], tasks[t := k], records, table)
  {
    ThreadMovesAlone(lifes, tasks, t, h, k);
    ThreadMovesPastConsents(lifes, tasks, records, t, h, k);
    ThreadMovesPastTable(lifes, tasks, records, table, t, h, k);
  }

  /** A new lifecycle, and at most one thread for it. */
  predicate Fresh(lifes: Lifes, tasks: Tasks, n: nat, h: seq<RequestState>, k: Task) {
    && n !in lifes && n !in tasks && h != []
    && (!k.Over? ==> k.life == n && Last(h) == Expected(k))
  }

  lemma CallBeginsAlone(lifes: Lifes, tasks: Tasks, n: nat, h: seq<RequestState>, k: Task)
    requires ThreadsOwn(lifes, tasks) && Fresh(lifes, tasks, n, h, k)
    ensures ThreadsOwn(lifes[n := h], tasks[n := k])
  {
  }

  lemma CallBeginsPastConsents(lifes: Lifes, tasks: Tasks, records: Records, n: nat, h: seq<RequestState>, k: Task)
    requires ConsentsOwn(lifes, tasks, records) && Fresh(lifes, tasks, n, h, k)
    ensures ConsentsOwn(lifes[n := h], tasks[n := k], records)
  {
  }

  lemma CallBeginsPastTable(lifes: Lifes, tasks: Tasks, records: Records, table: Table, n: nat, h: seq<RequestState>,
                            k: Task)
    requires RegistrationsOwn(lifes, tasks, records, table) && Fresh(lifes, tasks, n, h, k)
    ensures RegistrationsOwn(lifes[n := h], tasks[n := k], records, table)
  {
  }

  /** A call creates a lifecycle nobody else knows. */
  lemma CallBegins(lifes: Lifes, tasks: Tasks, records: Records, table: Table, n: nat, h: seq<RequestState>, k: Task)
    requires Own(lifes, tasks, records, table) && Fresh(lifes, tasks, n, h, k)
    ensures Own(lifes[n := h], tasks[n := k], records, table)
  {
    CallBeginsAlone(lifes, tasks, n, h, k);
    CallBeginsPastConsents(lifes, tasks, records, n, h, k);
    CallBeginsPastTable(lifes, tasks, records, table, n, h, k);
  }

  /** Consents may expire or be evicted; what stays keeps its payload. */
  ghost predicate Wanes(records: Records, later: Records) {
    forall c :: c in later ==>
      (c in records && C.Progress(records[c], later[c])
       && (later[c].state == records[c].state || later[c].state == C.Expired))
  }

  lemma ConsentsWane(lifes: Lifes, tasks: Tasks, records: Records, later: Records, table: Table)
    requires Own(lifes, tasks, records, table) && Wanes(records, later)
    ensures Own(lifes, tasks, later, table)
  {
  }

  /** A lookup denies the lifecycle of an expired consent. */
  lemma ExpiredIsDenied(lifes: Lifes, tasks: Tasks, records: Records, table: Table, c: nat, h: seq<RequestState>)
    requires Own(lifes, tasks, records, table) && c in records && records[c].state == C.Expired
    requires h != [] && Last(h) == Denied
    ensures Own(lifes[records[c].payload.life := h], tasks, records, table)
  {
  }

  /** A decision passes the lifecycle from the consent to the deciding thread. */
  lemma DecisionPasses(lifes: Lifes, tasks: Tasks, records: Records, table: Table, c: nat, r: C.Record<Pending>,
                       n: nat, k: Task)
    requires Own(lifes, tasks, records, table) && c in records && records[c].state == C.Pending
    requires r == records[c].(state := r.state) && !Undecided(r)
    requires n !in tasks && (k.Issue? || k.Reject?) && k.life == r.payload.life
    ensures Own(lifes, tasks[n := k], records[c := r], table)
  {
    var tasks', records' := tasks[n := k], records[c := r];
    assert ThreadsOwn(lifes, tasks');
    assert ConsentsOwn(lifes, tasks', records');
    assert RegistrationsOwn(lifes, tasks', records', table);
  }

  lemma LetsGo(lifes: Lifes, tasks: Tasks, t: nat)
    requires ThreadsOwn(lifes, tasks) && t in tasks
    ensures ThreadsOwn(lifes, tasks[t := Over])
  {
  }

  lemma ConsentTakesOver(lifes: Lifes, tasks: Tasks, records: Records, t: nat, r: C.Record<Pending>)
    requires ThreadsOwn(lifes, tasks) && ConsentsOwn(lifes, tasks, records) && t in tasks && tasks[t].AskConsent?
    requires r.state == C.Pending && r.payload.life == tasks[t].life && r.id !in records
    ensures ConsentsOwn(lifes, tasks[t := Over], records[r.id := r])
  {
    assert forall c :: c in records ==> records[c].payload.life != r.payload.life;
  }

  /** Registering a consent passes the lifecycle from the thread to the record. */
  lemma ThreadPassesToConsent(lifes: Lifes, tasks: Tasks, records: Records, table: Table, t: nat, r: C.Record<Pending>)
    requires Own(lifes, tasks, records, table) && t in tasks && tasks[t].AskConsent?
    requires r.state == C.Pending && r.payload.life == tasks[t].life && r.id !in records
    ensures Own(lifes, tasks[t := Over], records[r.id := r], table)
  {
    LetsGo(lifes, tasks, t);
    ConsentTakesOver(lifes, tasks, records, t, r);
    assert RegistrationsOwn(lifes, tasks[t := Over], records[r.id := r], table);
  }

  lemma TableTakesOver(lifes: Lifes, tasks: Tasks, records: Records, table: Table, kept: Table, t: nat, id: string,
                       e: G.Entry<Seat>)
    requires Own(lifes, tasks, records, table) && t in tasks && tasks[t].Insert? && e.life.life == tasks[t].life
    requires forall i :: i in kept ==> i in table && kept[i] == table[i]
    ensures RegistrationsOwn(lifes, tasks[t := Over], records, kept[id := e])
  {
    assert forall i :: i in table ==> table[i].life.life != e.life.life;
  }

  /** Registering for execution passes the lifecycle from the thread to the table, which may drop old entries. */
  lemma ThreadPassesToTable(lifes: Lifes, tasks: Tasks, records: Records, table: Table, kept: Table, t: nat,
                            id: string, e: G.Entry<Seat>)
    requires Own(lifes, tasks, records, table) && t in tasks && tasks[t].Insert? && e.life.life == tasks[t].life
    requires forall i :: i in kept ==> i in table && kept[i] == table[i]
    ensures Own(lifes, tasks[t := Over], records, kept[id := e])
  {
    LetsGo(lifes, tasks, t);
    TableTakesOver(lifes, tasks, records, table, kept, t, id, e);
    assert ConsentsOwn(lifes, tasks[t := Over], records);
  }

  lemma TableShrinks(lifes: Lifes, tasks: Tasks, records: Records, table: Table, kept: Table)
    requires Own(lifes, tasks, records, table)
    requires forall i :: i in kept ==> i in table && kept[i] == table[i]
    ensures Own(lifes, tasks, records, kept)
  {
  }

  /** The gate refuses a registration, or starts it on a new thread. */
  predicate Decides(tasks: Tasks, table: Table, id: string, h: seq<RequestState>, n: nat, k: Task) {
    && id in table && n !in tasks && h != [] && Last(h) in {Executing, Denied}
    && (k.Over? || (k.Run? && k.life == table[id].life.life && Last(h) == Executing))
  }

  lemma NoThreadYet(lifes: Lifes, tasks: Tasks, records: Records, table: Table, id: string, u: nat)
    requires ThreadsOwn(lifes, tasks) && RegistrationsOwn(lifes, tasks, records, table)
    requires id in table && At(lifes, table[id].life.life, Prepared) && u in tasks
    ensures !Has(tasks[u], table[id].life.life)
  {
  }

  lemma GateDecidesAlone(lifes: Lifes, tasks: Tasks, table: Table, id: string, h: seq<RequestState>, n: nat, k: Task)
    requires ThreadsOwn(lifes, tasks) && Decides(tasks, table, id, h, n, k)
    requires forall u :: u in tasks ==> !Has(tasks[u], table[id].life.life)
    ensures ThreadsOwn(lifes[table[id].life.life := h], tasks[n := k])
  {
  }

  lemma GateDecidesPastConsents(lifes: Lifes, tasks: Tasks, records: Records, table: Table, id: string,
                                h: seq<RequestState>, n: nat, k: Task)
    requires ConsentsOwn(lifes, tasks, records) && Decides(tasks, table, id, h, n, k)
    requires forall c :: c in records && records[c].payload.life == table[id].life.life ==> !Undecided(records[c])
    ensures ConsentsOwn(lifes[table[id].life.life := h], tasks[n := k], records)
  {
  }

  lemma GateDecidesPastTable(lifes: Lifes, tasks: Tasks, records: Records, table: Table, id: string,
                             h: seq<RequestState>, n: nat, k: Task)
    requires RegistrationsOwn(lifes, tasks, records, table) && Decides(tasks, table, id, h, n, k)
    ensures RegistrationsOwn(lifes[table[id].life.life := h], tasks[n := k], records, table)
  {
  }

  lemma GateDecides(lifes: Lifes, tasks: Tasks, records: Records, table: Table, id: string, h: seq<RequestState>,
                    n: nat, k: Task)
    requires Own(lifes, tasks, records, table) && Decides(tasks, table, id, h, n, k)
    requires At(lifes, table[id].life.life, Prepared)
    ensures Own(lifes[table[id].life.life := h], tasks[n := k], records, table)
  {
    forall u | u in tasks ensures !Has(tasks[u], table[id].life.life) {
      NoThreadYet(lifes, tasks, records, table, id, u);
    }
    GateDecidesAlone(lifes, tasks, table, id, h, n, k);
    GateDecidesPastConsents(lifes, tasks, records, table, id, h, n, k);
    GateDecidesPastTable(lifes, tasks, records, table, id, h, n, k);
  }

  /** A refused registration starts no thread. */
  lemma GateRefuses(lifes: Lifes, tasks: Tasks, records: Records, table: Table, id: string, h: seq<RequestState>,
                    n: nat)
    requires Own(lifes, tasks, records, table) && Decides(tasks, table, id, h, n, Over)
    requires At(lifes, table[id].life.life, Prepared)
    ensures Own(lifes[table[id].life.life := h], tasks, records, table)
  {
    GateDecides(lifes, tasks, records, table, id, h, n, Over);
    Forget(lifes[table[id].life.life := h], tasks, records, table, n);
  }

  lemma Forget(lifes: Lifes, tasks: Tasks, records: Records, table: Table, n: nat)
    requires n !in tasks && Own(lifes, tasks[n := Over], records, table)
    ensures Own(lifes, tasks, records, table)
  {
    var more := tasks[n := Over];
    assert forall t :: t in tasks ==> t in more && more[t] == tasks[t];
  }
}
