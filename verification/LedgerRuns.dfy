/**
 Whole runs of the grant ledger: opening, crashing, activating, revoking,
 stopping, and contexts entering and leaving in every interleaving.
 */
module LedgerRuns {
  import opened Wrappers
  import A = Approvals
  import opened Ledger

  /** A live context has committed its admission; `Leaving` once it has tried to finalise. */
  datatype Phase = Inside | Leaving

  datatype Event =
    | Activated(input: Activation, request: Request, consumed: A.Approval)
    | RevokedJob(job: string, owner: string, session: string)
    | StoppedAll
    | Admitted(admission: Admission, entry: Entry)

  /**
   `authority` is the only open authority (one file lock), or closed when there
   is none. `live` and `log` are history: the contexts inside, and every effect so far.
   */
  datatype World = World(
    home: string, authority: Authority, store: A.Store, live: map<string, Phase>, log: seq<Event>)

  datatype Op =
    | Open(succeeds: bool)
    | Crash(kept: set<nat>)
    | Close
    | Approvals(op: A.StoreOp)
    | Activate(x: Activation, st: Storage)
    | Revoke(job: string, owner: string, session: string, st: Storage)
    | RevokeIfOwner(job: string, owner: string, session: string, st: Storage)
    | Stop(st: Storage)
    | Admit(a: Admission, st: Storage)
    | Finalise(execution: string, st: Storage)
    | Decrement(execution: string)

  function Initial(home: string): World {
    World(home, Authority(EMPTY_DISK, 0, false, true), A.EMPTY_STORE, map[], [])
  }

  /** Opening needs the file lock, so it does nothing while another authority is open. */
  function StepOpen(w: World, succeeds: bool): World {
    if w.authority.closed && succeeds then w.(authority := Opened(w.authority.disk)) else w
  }

  /** The process dies: its contexts are gone, and with it any approvals it held. */
  function StepCrash(w: World, kept: set<nat>): World {
    w.(authority := w.authority.(active := 0, closed := true), live := map[],
       store := w.store.(records := map id | id in w.store.records && id in kept :: w.store.records[id]))
  }

  function StepClose(w: World): World {
    if w.authority.active == 0 then w.(authority := w.authority.(closed := true)) else w
  }

  function StepActivate(w: World, x: Activation, q: Request, st: Storage): World {
    var body := ActivateBody(w.authority.disk, w.store, q);
    World(w.home, After(w.authority, st, body), StoreAfter(w.authority, st, w.store, q), w.live,
          if Answer(w.authority, st, body).Done? then w.log + [Activated(x, q, ConsumeFor(w.store, q).1.value)]
            else w.log)
  }

  function StepRevoke<R>(w: World, job: string, owner: string, session: string, st: Storage, body: Body<R>): World {
    w.(authority := After(w.authority, st, body),
       log := if Answer(w.authority, st, body).Done? && job in w.authority.disk.grants
              then w.log + [RevokedJob(job, owner, session)] else w.log)
  }

  function StepStop(w: World, st: Storage): World {
    var body := StopBody(w.authority);
    w.(authority := After(w.authority, st, body),
       log := if Answer(w.authority, st, body).Done? then w.log + [StoppedAll] else w.log)
  }

  function StepAdmit(w: World, a: Admission, n: Entry, st: Storage): World {
    if Admits(w.authority, st, n)
    then w.(authority := AfterAdmit(w.authority, st, n), live := w.live[n.execution := Inside],
            log := w.log + [Admitted(a, n)])
    else w.(authority := AfterAdmit(w.authority, st, n))
  }

  function StepFinalise(w: World, execution: string, st: Storage): World {
    if execution in w.live && w.live[execution] == Inside
    then w.(authority := After(w.authority, st, SpentBody(w.authority.disk, execution)),
            live := w.live[execution := Leaving])
    else w
  }

  function StepDecrement(w: World, execution: string): World {
    if execution in w.live && w.live[execution] == Leaving
    then w.(authority := w.authority.(active := w.authority.active - 1), live := w.live - {execution})
    else w
  }

  function Step(w: World, op: Op): World {
    match op
    case Open(succeeds) => StepOpen(w, succeeds)
    case Crash(kept) => StepCrash(w, kept)
    case Close => StepClose(w)
    case Approvals(sop) => w.(store := A.Apply(w.store, sop))
    case Activate(x, st) => if ActivationInput(w.home, x).Ok? then StepActivate(w, x, RequestOf(w.home, x), st) else w
    case Revoke(job, owner, session, st) =>
      StepRevoke(w, job, owner, session, st, RevokeBody(w.authority.disk, job, owner, session))
    case RevokeIfOwner(job, owner, session, st) =>
      StepRevoke(w, job, owner, session, st, RevokeIfOwnerBody(w.authority.disk, job, owner, session))
    case Stop(st) => StepStop(w, st)
    case Admit(a, st) => if AdmissionInput(a).Ok? then StepAdmit(w, a, EntryOf(a), st) else w
    case Finalise(execution, st) => StepFinalise(w, execution, st)
    case Decrement(execution) => StepDecrement(w, execution)
  }

  function Run(w: World, ops: seq<Op>): World
    decreases |ops|
  {
    if ops == [] then w else Run(Step(w, ops[0]), ops[1..])
  }

  // ----- What a history of effects means, independently of the database

  datatype History = History(
    stopped: bool, grants: map<string, Grant>, admitted: map<string, (string, string)>, used: set<nat>)

  function Extend(h: History, e: Event): History {
    match e
    case Activated(_, q, _) => h.(grants := h.grants[q.job := q.row], used := h.used + {q.approval})
    case RevokedJob(job, _, _) =>
      if job in h.grants then h.(grants := h.grants[job := h.grants[job].(revoked := true)]) else h
    case StoppedAll => h.(stopped := true)
    case Admitted(_, n) => h.(admitted := h.admitted[n.execution := (n.job, n.occurrence)])
  }

  function Replay(log: seq<Event>): History
    decreases |log|
  {
    if log == [] then History(false, map[], map[], {}) else Extend(Replay(log[..|log| - 1]), log[|log| - 1])
  }

  /** The rule of the protocol: which effects a history allows next. */
  ghost predicate Permitted(h: History, e: Event) {
    match e
    case Activated(_, q, c) =>
      && !h.stopped
      && (q.job in h.grants ==> OwnedBy(h.grants[q.job], q.row.owner, q.row.session))
      && q.approval !in h.used
      && c.id == q.approval && c.state == A.Consumed && A.Matches(c, q.binding, q.row.owner, q.row.session)
    case RevokedJob(job, owner, session) =>
      job in h.grants && h.grants[job].owner == owner && h.grants[job].session == session
    case StoppedAll => true
    case Admitted(_, n) => Admissible(h, n)
  }

  /** The effect came from a call whose inputs were accepted. */
  ghost predicate Sourced(home: string, e: Event) {
    match e
    case Activated(x, q, _) => ActivationInput(home, x).Ok? && q == RequestOf(home, x)
    case Admitted(a, n) => AdmissionInput(a).Ok? && n == EntryOf(a)
    case _ => true
  }

  ghost predicate Admissible(h: History, n: Entry) {
    && !h.stopped
    && n.job in h.grants
    && !h.grants[n.job].revoked
    && n.checkRead < h.grants[n.job].until
    && h.grants[n.job].fingerprint == n.fingerprint
    && |h.admitted| < MAX_RECEIPTS
    && n.execution !in h.admitted
    && (forall e :: e in h.admitted ==> h.admitted[e] != (n.job, n.occurrence))
  }

  ghost predicate Lawful(log: seq<Event>) {
    forall i :: 0 <= i < |log| ==> Permitted(Replay(log[..i]), log[i])
  }

  // ----- The invariant of every run

  /** The database is the replay of the history; only receipt states are extra. */
  ghost predicate DiskAgrees(d: Disk, h: History) {
    && d.stopped == h.stopped
    && d.grants == h.grants
    && d.receipts.Keys == h.admitted.Keys
    && (forall e :: e in d.receipts ==> (d.receipts[e].job, d.receipts[e].occurrence) == h.admitted[e])
  }

  ghost predicate StoreAgrees(s: A.Store, h: History) {
    && A.WellFormed(s)
    && (forall id :: id in h.used ==> id < s.next && (id in s.records ==> s.records[id].state == A.Consumed))
  }

  /** `active` counts exactly the contexts between their admission commit and their decrement. */
  ghost predicate ContextsAgree(w: World) {
    && w.authority.active == |w.live|
    && (w.authority.closed ==> w.live == map[])
    && (forall e :: e in w.live ==> e in w.authority.disk.receipts)
    && (forall e :: e in w.live && w.live[e] == Inside ==> w.authority.disk.receipts[e].state == Inflight)
  }

  ghost predicate Inv(w: World) {
    && Lawful(w.log)
    && DiskAgrees(w.authority.disk, Replay(w.log))
    && StoreAgrees(w.store, Replay(w.log))
    && ContextsAgree(w)
  }

  lemma InitialInv(home: string)
    ensures Inv(Initial(home))
  {
  }

  lemma ReplayAppend(log: seq<Event>, e: Event)
    ensures Replay(log + [e]) == Extend(Replay(log), e)
  {
    assert (log + [e])[..|log|] == log;
  }

  lemma LawfulAppend(log: seq<Event>, e: Event)
    requires Lawful(log) && Permitted(Replay(log), e)
    ensures Lawful(log + [e])
  {
    forall i | 0 <= i < |log + [e]| ensures Permitted(Replay((log + [e])[..i]), (log + [e])[i]) {
      if i < |log| {
        assert (log + [e])[..i] == log[..i];
      } else {
        assert (log + [e])[..i] == log;
      }
    }
  }

  /** Admission is decided exactly by the history of effects, whatever was crashed or reopened in between. */
  lemma AdmissionDecidedByHistory(w: World, st: Storage, n: Entry)
    requires DiskAgrees(w.authority.disk, Replay(w.log))
    ensures Admits(w.authority, st, n) <==>
      Available(w.authority) && st == Sound && Admissible(Replay(w.log), n)
  {
    hide Replay;
    var d, h := w.authority.disk, Replay(w.log);
    assert |d.receipts| == |d.receipts.Keys| == |h.admitted.Keys| == |h.admitted|;
    assert Replayed(d, n.execution, n.job, n.occurrence) <==>
      n.execution in h.admitted || exists e :: e in h.admitted && h.admitted[e] == (n.job, n.occurrence)
    by {
      if e :| e in h.admitted && h.admitted[e] == (n.job, n.occurrence) {
        assert e in d.receipts;
      }
    }
  }

  /** A step that logs `e` and leaves receipts, contexts and counter alone keeps the invariant. */
  lemma EffectKeepsInv(w: World, d: Disk, s: A.Store, e: Event)
    requires Inv(w) && Permitted(Replay(w.log), e)
    requires DiskAgrees(d, Extend(Replay(w.log), e)) && StoreAgrees(s, Extend(Replay(w.log), e))
    requires d.receipts == w.authority.disk.receipts
    ensures Inv(w.(authority := w.authority.(disk := d), store := s, log := w.log + [e]))
  {
    ReplayAppend(w.log, e);
    LawfulAppend(w.log, e);
  }

  /** A step that logs nothing and changes no more than the fault flag and the store keeps the invariant. */
  lemma QuietKeepsInv(w: World, faulted: bool, s: A.Store)
    requires Inv(w) && StoreAgrees(s, Replay(w.log))
    ensures Inv(w.(authority := w.authority.(faulted := faulted), store := s))
  {
  }

  lemma QuietTransaction<R>(a: Authority, st: Storage, body: Body<R>)
    ensures !Answer(a, st, body).Done? ==> After(a, st, body) == a.(faulted := After(a, st, body).faulted)
    ensures Answer(a, st, body).Done? ==> body.Commit? && After(a, st, body) == a.(disk := body.disk)
  {
  }

  lemma AdmitKeepsInv(w: World, a: Admission, n: Entry, st: Storage)
    requires Inv(w)
    ensures Inv(StepAdmit(w, a, n, st))
  {
    if Admits(w.authority, st, n) {
      AdmissionDecidedByHistory(w, st, n);
      AdmitKeepsContexts(w, st, n);
      AdmitKeepsDisk(w.authority, st, n, Replay(w.log), a);
      ReplayAppend(w.log, Admitted(a, n));
      LawfulAppend(w.log, Admitted(a, n));
    } else {
      QuietTransaction(w.authority, st, AdmitBody(w.authority.disk, n));
      QuietKeepsInv(w, AfterAdmit(w.authority, st, n).faulted, w.store);
    }
  }

  lemma AdmitKeepsDisk(b: Authority, st: Storage, n: Entry, h: History, a: Admission)
    requires DiskAgrees(b.disk, h) && Admits(b, st, n)
    ensures DiskAgrees(AfterAdmit(b, st, n).disk, Extend(h, Admitted(a, n)))
  {
  }

  lemma AdmitKeepsContexts(w: World, st: Storage, n: Entry)
    requires ContextsAgree(w) && Admits(w.authority, st, n)
    ensures ContextsAgree(w.(authority := AfterAdmit(w.authority, st, n), live := w.live[n.execution := Inside]))
  {
    assert n.execution !in w.authority.disk.receipts;
    assert n.execution !in w.live;
    assert w.live[n.execution := Inside].Keys == w.live.Keys + {n.execution};
    assert |w.live[n.execution := Inside]| == |w.live| + 1;
  }

  lemma ConsumeKeepsStore(s: A.Store, h: History, q: Request)
    requires StoreAgrees(s, h)
    ensures StoreAgrees(ConsumeFor(s, q).0, h)
    ensures ConsumeFor(s, q).1.Ok? ==>
      && q.approval !in h.used
      && StoreAgrees(ConsumeFor(s, q).0, h.(used := h.used + {q.approval}))
      && var c := ConsumeFor(s, q).1.value;
         c.id == q.approval && c.state == A.Consumed && A.Matches(c, q.binding, q.row.owner, q.row.session)
  {
    StoreStepAgrees(s, h, A.DoConsume(q.approval, q.binding, q.row.owner, q.row.session, q.now, q.stamp));
    A.ConsumeIsExact(s, q.approval, q.binding, q.row.owner, q.row.session, q.now, q.stamp);
  }

  lemma StoreStepAgrees(s: A.Store, h: History, op: A.StoreOp)
    requires StoreAgrees(s, h)
    ensures StoreAgrees(A.Apply(s, op), h)
  {
    A.StepKeepsWellFormed(s, op);
    forall id | id in h.used && id in A.Apply(s, op).records ensures A.Apply(s, op).records[id].state == A.Consumed {
      if id in s.records {
        A.StepKeepsApprovals(s, op, id);
      }
    }
  }

  /** What the transaction of an activation does to disk, store and rules, apart from the history it extends. */
  lemma ActivationIsPermitted(w: World, x: Activation, q: Request, st: Storage)
    requires Inv(w) && Answer(w.authority, st, ActivateBody(w.authority.disk, w.store, q)).Done?
    ensures ConsumeFor(w.store, q).1.Ok?
    ensures var e := Activated(x, q, ConsumeFor(w.store, q).1.value);
      && Permitted(Replay(w.log), e)
      && DiskAgrees(After(w.authority, st, ActivateBody(w.authority.disk, w.store, q)).disk, Extend(Replay(w.log), e))
      && StoreAgrees(StoreAfter(w.authority, st, w.store, q), Extend(Replay(w.log), e))
  {
    ConsumeKeepsStore(w.store, Replay(w.log), q);
  }

  lemma ActivateKeepsInv(w: World, x: Activation, q: Request, st: Storage)
    requires Inv(w)
    ensures Inv(StepActivate(w, x, q, st))
  {
    var body := ActivateBody(w.authority.disk, w.store, q);
    QuietTransaction(w.authority, st, body);
    if Answer(w.authority, st, body).Done? {
      ActivationIsPermitted(w, x, q, st);
      EffectKeepsInv(w, body.disk, StoreAfter(w.authority, st, w.store, q),
                     Activated(x, q, ConsumeFor(w.store, q).1.value));
    } else {
      ConsumeKeepsStore(w.store, Replay(w.log), q);
      QuietKeepsInv(w, After(w.authority, st, body).faulted, StoreAfter(w.authority, st, w.store, q));
    }
  }

  /** The statements of a revocation commit only for the stored owner, or find no grant to revoke. */
  predicate RevokesForOwner<R>(d: Disk, job: string, owner: string, session: string, body: Body<R>) {
    body.Commit? ==>
      && body.disk == MarkRevoked(d, job)
      && (job in d.grants ==> d.grants[job].owner == owner && d.grants[job].session == session)
  }

  lemma RevokeKeepsInv<R>(w: World, job: string, owner: string, session: string, st: Storage, body: Body<R>)
    requires Inv(w) && RevokesForOwner(w.authority.disk, job, owner, session, body)
    ensures Inv(StepRevoke(w, job, owner, session, st, body))
  {
    QuietTransaction(w.authority, st, body);
    if Answer(w.authority, st, body).Done? && job in w.authority.disk.grants {
      EffectKeepsInv(w, body.disk, w.store, RevokedJob(job, owner, session));
    } else {
      QuietKeepsInv(w, After(w.authority, st, body).faulted, w.store);
    }
  }

  lemma StopKeepsInv(w: World, st: Storage)
    requires Inv(w)
    ensures Inv(StepStop(w, st))
  {
    QuietTransaction(w.authority, st, StopBody(w.authority));
    if Answer(w.authority, st, StopBody(w.authority)).Done? {
      EffectKeepsInv(w, StopBody(w.authority).disk, w.store, StoppedAll);
    } else {
      QuietKeepsInv(w, After(w.authority, st, StopBody(w.authority)).faulted, w.store);
    }
  }

  /** Finalising touches one receipt at most, and neither the counter nor the closed flag. */
  lemma FinaliseEffect(a: Authority, st: Storage, h: History, execution: string)
    requires DiskAgrees(a.disk, h)
    ensures var b := After(a, st, SpentBody(a.disk, execution));
      && DiskAgrees(b.disk, h) && b.active == a.active && b.closed == a.closed
      && (forall e :: e in a.disk.receipts && e != execution ==> b.disk.receipts[e] == a.disk.receipts[e])
  {
    var d := SpentBody(a.disk, execution).disk;
    assert d.receipts.Keys == a.disk.receipts.Keys;
  }

  lemma SameCount<K, V>(m: map<K, V>, k: K, v: V)
    requires k in m
    ensures |m[k := v]| == |m| && m[k := v].Keys == m.Keys
  {
    assert m[k := v].Keys == m.Keys;
    assert |m[k := v]| == |m[k := v].Keys|;
  }

  lemma FinaliseKeepsContexts(w: World, b: Authority, execution: string)
    requires ContextsAgree(w) && execution in w.live
    requires b.active == w.authority.active && b.closed == w.authority.closed
    requires b.disk.receipts.Keys == w.authority.disk.receipts.Keys
    requires forall e :: e in w.authority.disk.receipts && e != execution ==>
      b.disk.receipts[e] == w.authority.disk.receipts[e]
    ensures ContextsAgree(w.(authority := b, live := w.live[execution := Leaving]))
  {
    SameCount(w.live, execution, Leaving);
  }

  lemma FinaliseKeepsInv(w: World, execution: string, st: Storage)
    requires Inv(w)
    ensures Inv(StepFinalise(w, execution, st))
  {
    if execution in w.live && w.live[execution] == Inside {
      FinaliseEffect(w.authority, st, Replay(w.log), execution);
      FinaliseKeepsContexts(w, After(w.authority, st, SpentBody(w.authority.disk, execution)), execution);
    }
  }

  lemma DecrementKeepsInv(w: World, execution: string)
    requires Inv(w)
    ensures Inv(StepDecrement(w, execution))
  {
    if execution in w.live {
      var live := w.live - {execution};
      assert live.Keys == w.live.Keys - {execution};
      assert |live| == |live.Keys| == |w.live.Keys| - 1 == |w.live| - 1;
    }
  }

  lemma OpenKeepsInv(w: World, succeeds: bool)
    requires Inv(w)
    ensures Inv(StepOpen(w, succeeds))
  {
    hide Lawful, StoreAgrees, Replay;
    assert Recovered(w.authority.disk).receipts.Keys == w.authority.disk.receipts.Keys;
  }

  lemma CrashKeepsInv(w: World, kept: set<nat>)
    requires Inv(w)
    ensures Inv(StepCrash(w, kept))
  {
    hide Lawful, DiskAgrees, Replay;
  }

  lemma CloseKeepsInv(w: World)
    requires Inv(w)
    ensures Inv(StepClose(w))
  {
    hide Lawful, DiskAgrees, StoreAgrees, Replay;
    if w.authority.active == 0 {
      assert w.live == map[];
    }
  }

  lemma ApprovalsKeepInv(w: World, sop: A.StoreOp)
    requires Inv(w)
    ensures Inv(w.(store := A.Apply(w.store, sop)))
  {
    hide Lawful, DiskAgrees, Replay, A.Apply;
    StoreStepAgrees(w.store, Replay(w.log), sop);
  }

  /** Every step, of every operation in every interleaving, keeps the invariant. */
  lemma StepKeepsInv(w: World, op: Op)
    requires Inv(w)
    ensures Inv(Step(w, op))
  {
    hide Inv, StepOpen, StepCrash, StepClose, StepActivate, StepRevoke, StepStop, StepAdmit, StepFinalise,
      StepDecrement;
    match op
    case Open(succeeds) => OpenKeepsInv(w, succeeds);
    case Crash(kept) => CrashKeepsInv(w, kept);
    case Close => CloseKeepsInv(w);
    case Approvals(sop) => ApprovalsKeepInv(w, sop);
    case Activate(x, st) => if ActivationInput(w.home, x).Ok? { ActivateKeepsInv(w, x, RequestOf(w.home, x), st); }
    case Revoke(job, owner, session, st) =>
      RevokeKeepsInv(w, job, owner, session, st, RevokeBody(w.authority.disk, job, owner, session));
    case RevokeIfOwner(job, owner, session, st) =>
      RevokeKeepsInv(w, job, owner, session, st, RevokeIfOwnerBody(w.authority.disk, job, owner, session));
    case Stop(st) => StopKeepsInv(w, st);
    case Admit(a, st) => if AdmissionInput(a).Ok? { AdmitKeepsInv(w, a, EntryOf(a), st); }
    case Finalise(e, st) => FinaliseKeepsInv(w, e, st);
    case Decrement(e) => DecrementKeepsInv(w, e);
  }

  lemma {:induction false} RunKeepsInv(w: World, ops: seq<Op>)
    requires Inv(w)
    ensures Inv(Run(w, ops))
    decreases |ops|
  {
    if ops != [] {
      StepKeepsInv(w, ops[0]);
      RunKeepsInv(Step(w, ops[0]), ops[1..]);
    }
  }
}
