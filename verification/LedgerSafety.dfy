/** What every run of the grant ledger guarantees. */
module LedgerSafety {
  import opened Wrappers
  import opened Digests
  import A = Approvals
  import opened Ledger
  import opened LedgerRuns

  // ----- Facts about histories alone

  predicate SameOwner(g: Grant, h: History, job: string) {
    job in h.grants && OwnedBy(h.grants[job], g.owner, g.session)
  }

  /** What no later effect can take back: admissions, used approvals, a stop, and who owns a job. */
  ghost predicate Grows(g: History, h: History) {
    && g.admitted.Keys <= h.admitted.Keys
    && (forall e :: e in g.admitted ==> h.admitted[e] == g.admitted[e])
    && g.used <= h.used
    && (g.stopped ==> h.stopped)
    && (forall j :: j in g.grants ==> SameOwner(g.grants[j], h, j))
  }

  lemma ExtendGrows(h: History, e: Event)
    requires Permitted(h, e)
    ensures Grows(h, Extend(h, e))
  {
  }

  lemma GrowsTransitive(f: History, g: History, h: History)
    requires Grows(f, g) && Grows(g, h)
    ensures Grows(f, h)
  {
    forall j | j in f.grants ensures SameOwner(f.grants[j], h, j) {
      assert SameOwner(f.grants[j], g, j) && SameOwner(g.grants[j], h, j);
    }
  }

  lemma LastEventGrows(log: seq<Event>)
    requires Lawful(log) && log != []
    ensures Grows(Replay(log[..|log| - 1]), Replay(log))
  {
    assert Permitted(Replay(log[..|log| - 1]), log[|log| - 1]);
    ExtendGrows(Replay(log[..|log| - 1]), log[|log| - 1]);
  }

  lemma {:induction false} ReplayGrows(log: seq<Event>, i: nat)
    requires Lawful(log) && i <= |log|
    ensures Grows(Replay(log[..i]), Replay(log))
    decreases |log|
  {
    if i == |log| {
      assert log[..i] == log;
    } else {
      var front := log[..|log| - 1];
      LastEventGrows(log);
      LawfulPrefix(log, |log| - 1);
      assert front[..i] == log[..i];
      ReplayGrows(front, i);
      GrowsTransitive(Replay(log[..i]), Replay(front), Replay(log));
    }
  }

  lemma LawfulPrefix(log: seq<Event>, i: nat)
    requires Lawful(log) && i <= |log|
    ensures Lawful(log[..i])
  {
    forall k | 0 <= k < i ensures Permitted(Replay(log[..i][..k]), log[..i][k]) {
      assert log[..i][..k] == log[..k];
    }
  }

  /** The replay just after event `i`, seen from the end of the history. */
  lemma ReplayThrough(log: seq<Event>, i: nat)
    requires Lawful(log) && i < |log|
    ensures Replay(log[..i + 1]) == Extend(Replay(log[..i]), log[i])
  {
    assert log[..i + 1][..i] == log[..i];
  }

  lemma AdmissionIsRemembered(log: seq<Event>, i: nat, j: nat)
    requires Lawful(log) && i < j <= |log| && log[i].Admitted?
    ensures var n, h := log[i].entry, Replay(log[..j]);
      n.execution in h.admitted && h.admitted[n.execution] == (n.job, n.occurrence)
  {
    LawfulPrefix(log, j);
    ReplayThrough(log, i);
    ReplayGrows(log[..j], i + 1);
    assert log[..j][..i + 1] == log[..i + 1];
  }

  /** No job occurrence and no execution id is ever admitted twice. */
  lemma NeverAdmittedTwice(log: seq<Event>, i: nat, j: nat)
    requires Lawful(log) && i < j < |log| && log[i].Admitted? && log[j].Admitted?
    ensures log[i].entry.execution != log[j].entry.execution
    ensures (log[i].entry.job, log[i].entry.occurrence) != (log[j].entry.job, log[j].entry.occurrence)
  {
    AdmissionIsRemembered(log, i, j);
    assert Permitted(Replay(log[..j]), log[j]);
  }

  /** No approval ever yields two grants. */
  lemma ApprovalGrantsOnce(log: seq<Event>, i: nat, j: nat)
    requires Lawful(log) && i < j < |log| && log[i].Activated? && log[j].Activated?
    ensures log[i].request.approval != log[j].request.approval
  {
    LawfulPrefix(log, j);
    ReplayThrough(log, i);
    ReplayGrows(log[..j], i + 1);
    assert log[..j][..i + 1] == log[..i + 1];
    assert Permitted(Replay(log[..j]), log[j]);
  }

  /** A job keeps its first owner and session for good. */
  lemma OwnerNeverChanges(log: seq<Event>, i: nat, j: nat)
    requires Lawful(log) && i < j < |log| && log[i].Activated? && log[j].Activated?
    requires log[i].request.job == log[j].request.job
    ensures log[i].request.row.owner == log[j].request.row.owner
    ensures log[i].request.row.session == log[j].request.row.session
  {
    var job, row := log[i].request.job, log[i].request.row;
    LawfulPrefix(log, j);
    ReplayThrough(log, i);
    ReplayGrows(log[..j], i + 1);
    assert log[..j][..i + 1] == log[..i + 1];
    assert Replay(log[..i + 1]).grants[job] == row;
    assert SameOwner(row, Replay(log[..j]), job);
    assert Permitted(Replay(log[..j]), log[j]);
  }

  predicate Touches(e: Event, job: string) {
    (e.Activated? && e.request.job == job) || (e.RevokedJob? && e.job == job)
  }

  /** Event `j` is the activation in force for `job` at the end of the history. */
  ghost predicate InForce(log: seq<Event>, j: nat, job: string) {
    && j < |log| && log[j].Activated? && log[j].request.job == job
    && (forall k :: j < k < |log| ==> !Touches(log[k], job))
  }

  lemma {:induction false} UnrevokedGrantIsInForce(log: seq<Event>, job: string) returns (j: nat)
    requires Lawful(log) && job in Replay(log).grants && !Replay(log).grants[job].revoked
    ensures InForce(log, j, job) && log[j].request.row == Replay(log).grants[job]
    decreases |log|
  {
    hide Lawful;
    var last := |log| - 1;
    var front, e := log[..last], log[last];
    if e.Activated? && e.request.job == job {
      j := last;
    } else {
      LawfulPrefix(log, last);
      j := UnrevokedGrantIsInForce(front, job);
      forall k | j < k < |log| ensures !Touches(log[k], job) {
        if k < last {
          assert log[k] == front[k];
        }
      }
    }
  }

  lemma {:induction false} StopStays(log: seq<Event>, k: nat)
    requires Lawful(log) && k < |log| && log[k].StoppedAll?
    ensures Replay(log).stopped
  {
    ReplayThrough(log, k);
    ReplayGrows(log, k + 1);
  }

  /**
   Every admission traces back to one activation of that job by the stored owner
   and session: the approval it consumed was for exactly that grant, it was not
   revoked or replaced since, nothing was stopped before, and time was left.
   */
  lemma AdmissionTracesToActivation(log: seq<Event>, i: nat) returns (j: nat)
    requires Lawful(log) && i < |log| && log[i].Admitted?
    ensures j < i && InForce(log[..i], j, log[i].entry.job)
    ensures var q, c, n := log[j].request, log[j].consumed, log[i].entry;
      && c.id == q.approval && c.state == A.Consumed && A.Matches(c, q.binding, q.row.owner, q.row.session)
      && q.row.fingerprint == n.fingerprint
      && n.checkRead < q.row.until
    ensures forall k :: 0 <= k < i ==> !log[k].StoppedAll?
  {
    LawfulPrefix(log, i);
    assert Permitted(Replay(log[..i]), log[i]);
    j := UnrevokedGrantIsInForce(log[..i], log[i].entry.job);
    assert Permitted(Replay(log[..j]), log[j]);
    forall k | 0 <= k < i ensures !log[k].StoppedAll? {
      if log[k].StoppedAll? {
        StopStays(log[..i], k);
      }
    }
  }

  /**
   What was approved and what was admitted, in terms of the calls: the admitted
   job is the approved reminder; the configuration at admission is the one stored,
   which is the approved one exactly when it did not change between the two reads of `activate`.
   */
  lemma ApprovedIsAdmitted(home: string, act: Event, adm: Event)
    requires act.Activated? && Sourced(home, act) && adm.Admitted? && Sourced(home, adm)
    requires act.request.row.fingerprint == adm.entry.fingerprint
    ensures SameAccepted(act.input.job, adm.admission.job)
    ensures adm.admission.config == act.input.configForGrant
    ensures act.request.binding == BindingDigest(home,
                                                 GrantFingerprint(act.input.job, act.input.configForBinding).value,
                                                 act.input.owner, act.input.session, act.input.until, ScriptDigest)
    ensures GrantFingerprint(act.input.job, act.input.configForBinding).value == adm.entry.fingerprint
      <==> act.input.configForBinding == act.input.configForGrant
  {
    FingerprintIsExact(act.input.job, adm.admission.job);
  }

  // ----- Facts about runs

  /** Issue and offer an approval for a reminder under one configuration, activate it, and admit one occurrence. */
  function TwoReads(home: string, job: Job, due: Job, approved: string, stored: string): seq<Op>
    requires GrantFingerprint(job, approved).Ok?
  {
    var binding := BindingDigest(home, GrantFingerprint(job, approved).value, "user", "session", 100.0, ScriptDigest);
    [Open(true),
     Approvals(A.DoIssue(binding, "user", "session", 30.0, 0.0)),
     Approvals(A.DoMakeAvailable(0, 0.0)),
     Activate(Activation(job, "user", "session", 100.0, 0, approved, stored, 0.0, 100.0, 0.0, 0.0), Sound),
     Admit(Admission(due, "execution", stored, 1.0, 1.0), Sound)]
  }

  lemma RunCons(w: World, op: Op, rest: seq<Op>)
    ensures Run(w, [op] + rest) == Run(Step(w, op), rest)
  {
    assert ([op] + rest)[1..] == rest;
  }

  lemma RunFive(w: World, a: Op, b: Op, c: Op, d: Op, e: Op)
    ensures Run(w, [a, b, c, d, e]) == Step(Step(Step(Step(Step(w, a), b), c), d), e)
  {
    hide Step;
    RunCons(w, a, [b, c, d, e]);
    RunCons(Step(w, a), b, [c, d, e]);
    RunCons(Step(Step(w, a), b), c, [d, e]);
    RunCons(Step(Step(Step(w, a), b), c), d, [e]);
    RunCons(Step(Step(Step(Step(w, a), b), c), d), e, []);
    assert [a] + [b, c, d, e] == [a, b, c, d, e] && [b] + [c, d, e] == [b, c, d, e] && [c] + [d, e] == [c, d, e];
    assert [d] + [e] == [d, e] && [e] + [] == [e];
  }

  lemma OfferedOnce(home: string, b: Digest)
    ensures var w := Step(Step(Step(LedgerRuns.Initial(home), Open(true)),
                               Approvals(A.DoIssue(b, "user", "session", 30.0, 0.0))),
                          Approvals(A.DoMakeAvailable(0, 0.0)));
      && w.home == home && w.log == [] && w.authority.disk == EMPTY_DISK && Available(w.authority)
      && 0 in w.store.records && w.store.records[0] == A.Approval(0, b, "user", "session", 0.0, 30.0, A.Available, None)
  {
    assert Recovered(EMPTY_DISK).receipts == map[];
  }

  lemma StoredOnce(w: World, x: Activation, q: Request)
    requires w.log == [] && w.authority.disk == EMPTY_DISK && Available(w.authority) && ConsumeFor(w.store, q).1.Ok?
    ensures var v := StepActivate(w, x, q, Sound);
      && Available(v.authority) && v.authority.disk == EMPTY_DISK.(grants := map[q.job := q.row])
      && v.log == [Activated(x, q, ConsumeFor(w.store, q).1.value)]
  {
    hide ConsumeFor;
  }

  lemma ConsumedBinding(s: A.Store, q: Request)
    requires ConsumeFor(s, q).1.Ok?
    ensures ConsumeFor(s, q).1.value.binding == q.binding
  {
  }

  lemma ActivatedOnce(w: World, x: Activation)
    requires w.log == [] && w.authority.disk == EMPTY_DISK && Available(w.authority)
    requires ActivationInput(w.home, x).Ok? && ConsumeFor(w.store, RequestOf(w.home, x)).1.Ok?
    ensures var v := Step(w, Activate(x, Sound));
      && Available(v.authority) && v.authority.disk == EMPTY_DISK.(grants := map[JobId(x.job) := GrantRow(x)])
      && |v.log| == 1 && v.log[0].Activated? && v.log[0].input == x
      && v.log[0].consumed.binding == ActivationInput(w.home, x).value
  {
    hide ConsumeFor, StepActivate, ActivationInput, GrantRow, JobId;
    StoredOnce(w, x, RequestOf(w.home, x));
    ConsumedBinding(w.store, RequestOf(w.home, x));
  }

  lemma EnteredOnce(w: World, a: Admission, n: Entry)
    requires Available(w.authority) && !w.authority.disk.stopped && w.authority.disk.receipts == map[]
    requires n.job in w.authority.disk.grants
    requires var g := w.authority.disk.grants[n.job];
      !g.revoked && n.checkRead < g.until && g.fingerprint == n.fingerprint
    ensures StepAdmit(w, a, n, Sound).log == w.log + [Admitted(a, n)]
  {
  }

  lemma AdmittedOnce(w: World, a: Admission)
    requires Available(w.authority) && AdmissionInput(a).Ok? && !w.authority.disk.stopped
    requires w.authority.disk.receipts == map[] && JobId(a.job) in w.authority.disk.grants
    requires var g := w.authority.disk.grants[JobId(a.job)];
      !g.revoked && a.checkRead < g.until && g.fingerprint == AdmissionInput(a).value
    ensures Step(w, Admit(a, Sound)).log == w.log + [Admitted(a, EntryOf(a))]
  {
    hide StepAdmit, AdmissionInput, JobId;
    EnteredOnce(w, a, EntryOf(a));
  }

  /**
   A reminder can be admitted under a configuration that nobody approved: one run
   from the start, for any paused reminder, any two configurations and any home.
   */
  lemma ConfigurationMayChange(home: string, job: Job, due: Job, approved: string, stored: string)
    requires SameAccepted(job, due) && JobId(job) == JobId(due) && Lookup(due, "_scheduled_instant").JStr?
    requires Lookup(due, "_scheduled_instant").s != ""
    requires Lookup(job, "state") == JStr("paused") && Lookup(job, "enabled") == JBool(false)
    ensures var log := Run(LedgerRuns.Initial(home), TwoReads(home, job, due, approved, stored)).log;
      && |log| == 2 && log[0].Activated? && log[1].Admitted?
      && log[0].input.job == job && log[1].admission.job == due
      && log[0].consumed.binding == BindingDigest(home, GrantFingerprint(job, approved).value, "user", "session",
                                                  100.0, ScriptDigest)
      && log[1].admission.config == stored
  {
    hide Step, ActivationRefusal;
    var ops := TwoReads(home, job, due, approved, stored);
    var x, a := ops[3].x, ops[4].a;
    var b := ops[1].op.binding;
    RunFive(LedgerRuns.Initial(home), ops[0], ops[1], ops[2], ops[3], ops[4]);
    OfferedOnce(home, b);
    var offered := Step(Step(Step(LedgerRuns.Initial(home), ops[0]), ops[1]), ops[2]);
    A.ConsumeIsExact(offered.store, 0, b, "user", "session", 0.0, 0.0);
    ActivatedOnce(offered, x);
    FingerprintIsExact(job, due);
    AdmittedOnce(Step(offered, ops[3]), a);
  }

  /** Such a reminder exists. */
  lemma SomeConfigurationChanges(home: string)
    ensures GrantFingerprint(REMINDER, "approved").Ok?
    ensures var log := Run(LedgerRuns.Initial(home), TwoReads(home, REMINDER, REMINDER, "approved", "stored")).log;
      |log| == 2 && log[1].Admitted? && log[1].admission.config == "stored"
  {
    ReminderIsAccepted();
    ConfigurationMayChange(home, REMINDER, REMINDER, "approved", "stored");
  }

  ghost predicate Reachable(w: World) {
    exists home: string, ops: seq<Op> :: w == Run(Initial(home), ops)
  }

  lemma ReachableInv(w: World)
    requires Reachable(w)
    ensures Inv(w)
  {
    var home: string, ops :| w == Run(Initial(home), ops);
    InitialInv(home);
    RunKeepsInv(Initial(home), ops);
  }

  /** In every reachable state: histories are lawful and `active` counts the contexts inside. */
  lemma EveryRunIsLawful(w: World)
    requires Reachable(w)
    ensures Lawful(w.log)
    ensures w.authority.active == |w.live|
    ensures w.authority.closed ==> w.live == map[]
  {
    ReachableInv(w);
  }

  lemma StepSources(w: World, op: Op)
    ensures Step(w, op).home == w.home
    ensures Step(w, op).log == w.log
      || exists e :: Step(w, op).log == w.log + [e] && Sourced(w.home, e)
  {
    var v := Step(w, op);
    if v.log != w.log {
      var e := v.log[|v.log| - 1];
      assert v.log == w.log + [e];
      assert Sourced(w.home, e);
    }
  }

  lemma {:induction false} RunSources(w: World, ops: seq<Op>)
    requires forall i :: 0 <= i < |w.log| ==> Sourced(w.home, w.log[i])
    ensures forall i :: 0 <= i < |Run(w, ops).log| ==> Sourced(w.home, Run(w, ops).log[i])
    decreases |ops|
  {
    if ops != [] {
      StepSources(w, ops[0]);
      RunSources(Step(w, ops[0]), ops[1..]);
    }
  }

  /** Where one receipt may move in a step. */
  predicate ReceiptMoves(a: Receipt, b: Receipt) {
    && a.job == b.job && a.occurrence == b.occurrence
    && (a.state == b.state || (a.state == Inflight && b.state in {Spent, Unknown}))
  }

  ghost predicate ReceiptsKept(d: Disk, e: Disk) {
    forall x :: x in d.receipts ==> x in e.receipts && ReceiptMoves(d.receipts[x], e.receipts[x])
  }

  lemma AfterKeepsReceipts<R>(a: Authority, st: Storage, body: Body<R>)
    requires body.Commit? ==> ReceiptsKept(a.disk, body.disk)
    ensures ReceiptsKept(a.disk, After(a, st, body).disk)
  {
  }

  lemma SameReceipts(d: Disk, e: Disk)
    requires d.receipts == e.receipts
    ensures ReceiptsKept(d, e)
  {
  }

  lemma RecoveryKeepsReceipts(d: Disk)
    ensures ReceiptsKept(d, Recovered(d))
  {
  }

  lemma SpendingKeepsReceipts(d: Disk, execution: string)
    requires execution in d.receipts ==> d.receipts[execution].state == Inflight
    ensures ReceiptsKept(d, SpentBody(d, execution).disk)
  {
  }

  lemma FinaliseKeepsReceipts(w: World, execution: string, st: Storage)
    requires ContextsAgree(w)
    ensures ReceiptsKept(w.authority.disk, StepFinalise(w, execution, st).authority.disk)
  {
    SameReceipts(w.authority.disk, w.authority.disk);
    if execution in w.live && w.live[execution] == Inside {
      SpendingKeepsReceipts(w.authority.disk, execution);
      AfterKeepsReceipts(w.authority, st, SpentBody(w.authority.disk, execution));
    }
  }

  lemma RevokeKeepsReceipts<R>(w: World, job: string, owner: string, session: string, st: Storage, body: Body<R>)
    requires body.Commit? ==> body.disk.receipts == w.authority.disk.receipts
    ensures ReceiptsKept(w.authority.disk, StepRevoke(w, job, owner, session, st, body).authority.disk)
  {
    SameReceipts(w.authority.disk, w.authority.disk);
    if body.Commit? {
      SameReceipts(w.authority.disk, body.disk);
    }
    AfterKeepsReceipts(w.authority, st, body);
  }

  lemma ActivateKeepsReceipts(w: World, x: Activation, q: Request, st: Storage)
    ensures ReceiptsKept(w.authority.disk, StepActivate(w, x, q, st).authority.disk)
  {
    var body := ActivateBody(w.authority.disk, w.store, q);
    if body.Commit? {
      SameReceipts(w.authority.disk, body.disk);
    }
    AfterKeepsReceipts(w.authority, st, body);
  }

  lemma StepKeepsReceipts(w: World, op: Op)
    requires ContextsAgree(w)
    ensures ReceiptsKept(w.authority.disk, Step(w, op).authority.disk)
  {
    hide ReceiptsKept, ContextsAgree, StepActivate, StepRevoke, StepFinalise, Recovered;
    SameReceipts(w.authority.disk, w.authority.disk);
    match op
    case Open(_) => RecoveryKeepsReceipts(w.authority.disk);
    case Activate(x, st) => if ActivationInput(w.home, x).Ok? { ActivateKeepsReceipts(w, x, RequestOf(w.home, x), st); }
    case Revoke(job, owner, session, st) =>
      RevokeKeepsReceipts(w, job, owner, session, st, RevokeBody(w.authority.disk, job, owner, session));
    case RevokeIfOwner(job, owner, session, st) =>
      RevokeKeepsReceipts(w, job, owner, session, st, RevokeIfOwnerBody(w.authority.disk, job, owner, session));
    case Stop(st) => StopKeepsReceipts(w, st);
    case Admit(a, st) => if AdmissionInput(a).Ok? { AdmitKeepsReceipts(w.authority, st, EntryOf(a)); }
    case Finalise(e, st) => FinaliseKeepsReceipts(w, e, st);
    case _ =>
  }

  lemma StopKeepsReceipts(w: World, st: Storage)
    ensures ReceiptsKept(w.authority.disk, StepStop(w, st).authority.disk)
  {
    SameReceipts(w.authority.disk, StopBody(w.authority).disk);
    AfterKeepsReceipts(w.authority, st, StopBody(w.authority));
  }

  lemma AdmitKeepsReceipts(a: Authority, st: Storage, n: Entry)
    ensures ReceiptsKept(a.disk, AfterAdmit(a, st, n).disk)
  {
    if Admits(a, st, n) {
      assert n.execution !in a.disk.receipts;
    }
  }

  /** Receipts are never lost in any run, and only move from in flight to spent or unknown. */
  lemma {:induction false} ReceiptsSurvive(w: World, ops: seq<Op>)
    requires Inv(w)
    ensures ReceiptsKept(w.authority.disk, Run(w, ops).authority.disk)
    decreases |ops|
  {
    if ops != [] {
      StepKeepsInv(w, ops[0]);
      StepKeepsReceipts(w, ops[0]);
      ReceiptsSurvive(Step(w, ops[0]), ops[1..]);
    }
  }

  /** The effects `suffix` adds no admission. */
  ghost predicate NoAdmission(before: seq<Event>, after: seq<Event>) {
    && |before| <= |after| && after[..|before|] == before
    && (forall i :: |before| <= i < |after| ==> !after[i].Admitted?)
  }

  lemma AfterKeepsStopped<R>(a: Authority, st: Storage, body: Body<R>)
    requires a.disk.stopped && (body.Commit? ==> body.disk.stopped)
    ensures After(a, st, body).disk.stopped
  {
  }

  lemma StoppedNeverAdmits(a: Authority, st: Storage, n: Entry)
    requires a.disk.stopped
    ensures !Admits(a, st, n) && AfterAdmit(a, st, n).disk == a.disk
  {
  }

  lemma StoppedStep(w: World, op: Op)
    requires w.authority.disk.stopped
    ensures Step(w, op).authority.disk.stopped
    ensures Step(w, op).live.Keys <= w.live.Keys
    ensures NoAdmission(w.log, Step(w, op).log)
  {
    match op
    case Activate(x, st) =>
      if ActivationInput(w.home, x).Ok? {
        AfterKeepsStopped(w.authority, st, ActivateBody(w.authority.disk, w.store, RequestOf(w.home, x)));
      }
    case Revoke(job, owner, session, st) =>
      AfterKeepsStopped(w.authority, st, RevokeBody(w.authority.disk, job, owner, session));
    case RevokeIfOwner(job, owner, session, st) =>
      AfterKeepsStopped(w.authority, st, RevokeIfOwnerBody(w.authority.disk, job, owner, session));
    case Stop(st) => AfterKeepsStopped(w.authority, st, StopBody(w.authority));
    case Admit(a, st) => if AdmissionInput(a).Ok? { StoppedNeverAdmits(w.authority, st, EntryOf(a)); }
    case Finalise(e, st) => AfterKeepsStopped(w.authority, st, SpentBody(w.authority.disk, e));
    case _ =>
  }

  /**
   Once stopped, nothing is ever admitted again, through crashes and reopenings;
   contexts can only leave.
   */
  lemma {:induction false} StoppedForGood(w: World, ops: seq<Op>)
    requires w.authority.disk.stopped
    ensures Run(w, ops).authority.disk.stopped
    ensures Run(w, ops).live.Keys <= w.live.Keys
    ensures NoAdmission(w.log, Run(w, ops).log)
    decreases |ops|
  {
    if ops != [] {
      StoppedStep(w, ops[0]);
      StoppedForGood(Step(w, ops[0]), ops[1..]);
      var v, u := Step(w, ops[0]), Run(w, ops);
      assert u.log[..|w.log|] == u.log[..|v.log|][..|w.log|];
      forall i | |w.log| <= i < |u.log| ensures !u.log[i].Admitted? {
        if i < |v.log| {
          assert u.log[i] == u.log[..|v.log|][i];
        }
      }
    }
  }

  /** The answer of `global_stop` is the number of contexts inside; zero means nobody is inside ever again. */
  lemma GlobalStopDrains(w: World, st: Storage, ops: seq<Op>)
    requires ContextsAgree(w) && Answer(w.authority, st, StopBody(w.authority)).Done?
    ensures Answer(w.authority, st, StopBody(w.authority)).result == |w.live|
    ensures NoAdmission(StepStop(w, st).log, Run(StepStop(w, st), ops).log)
    ensures |w.live| == 0 ==> Run(StepStop(w, st), ops).live == map[]
  {
    StoppedForGood(StepStop(w, st), ops);
    if |w.live| == 0 {
      assert w.live.Keys == {};
      EmptyKeys(Run(StepStop(w, st), ops).live);
    }
  }

  lemma EmptyKeys<K, V>(m: map<K, V>)
    ensures m.Keys == {} ==> m == map[]
  {
  }

  /** Closing succeeds exactly when no context is inside. */
  lemma CloseNeedsEmpty(w: World)
    requires Inv(w) && !w.authority.closed
    ensures Step(w, Close).authority.closed <==> w.live == map[]
  {
    if |w.live| == 0 {
      assert w.live == map[];
    }
  }

  /**
   `active` does not count receipts in flight: a receipt is already spent while
   its context has not been decremented yet.
   */
  lemma SpentBeforeDecrement(w: World, execution: string)
    requires ContextsAgree(w) && Available(w.authority) && execution in w.live && w.live[execution] == Inside
    ensures execution in StepFinalise(w, execution, Sound).authority.disk.receipts
    ensures var v := StepFinalise(w, execution, Sound);
      && v.authority.disk.receipts[execution].state == Spent
      && v.authority.active == |v.live|
      && execution in v.live
  {
    SameCount(w.live, execution, Leaving);
  }

  /** In every reachable state no occurrence, no execution id and no approval has been used twice. */
  lemma EverythingOnce(w: World, i: nat, j: nat)
    requires Reachable(w) && i < j < |w.log|
    ensures w.log[i].Admitted? && w.log[j].Admitted? ==>
      && w.log[i].entry.execution != w.log[j].entry.execution
      && (w.log[i].entry.job, w.log[i].entry.occurrence) != (w.log[j].entry.job, w.log[j].entry.occurrence)
    ensures w.log[i].Activated? && w.log[j].Activated? ==> w.log[i].request.approval != w.log[j].request.approval
  {
    EveryRunIsLawful(w);
    if w.log[i].Admitted? && w.log[j].Admitted? {
      NeverAdmittedTwice(w.log, i, j);
    }
    if w.log[i].Activated? && w.log[j].Activated? {
      ApprovalGrantsOnce(w.log, i, j);
    }
  }

  lemma ReachableSources(w: World, i: nat)
    requires Reachable(w) && i < |w.log|
    ensures Sourced(w.home, w.log[i])
  {
    var home: string, ops :| w == Run(Initial(home), ops);
    RunSources(Initial(home), ops);
    HomeIsFixed(Initial(home), ops);
  }

  /** In every reachable state, what was admitted is the very reminder its owner's approval named. */
  lemma AdmittedWasApproved(w: World, i: nat) returns (j: nat)
    requires Reachable(w) && i < |w.log| && w.log[i].Admitted?
    ensures j < i && InForce(w.log[..i], j, w.log[i].entry.job)
    ensures ApprovedFor(w.home, w.log[j], w.log[i])
    ensures forall k :: 0 <= k < i ==> !w.log[k].StoppedAll?
  {
    EveryRunIsLawful(w);
    j := AdmissionTracesToActivation(w.log, i);
    ReachableSources(w, i);
    ReachableSources(w, j);
    ApprovedIsAdmitted(w.home, w.log[j], w.log[i]);
  }

  /** The activation `act` covers the admission `adm`, in terms of what the callers passed. */
  ghost predicate ApprovedFor(home: string, act: Event, adm: Event) {
    && act.Activated? && adm.Admitted?
    && SameAccepted(act.input.job, adm.admission.job)
    && adm.admission.config == act.input.configForGrant
    && adm.entry.checkRead < act.request.row.until
    && act.consumed.state == A.Consumed
    && Sourced(home, act)
    && A.Matches(act.consumed, act.request.binding, act.request.row.owner, act.request.row.session)
  }

  lemma {:induction false} HomeIsFixed(w: World, ops: seq<Op>)
    ensures Run(w, ops).home == w.home
    decreases |ops|
  {
    if ops != [] {
      StepSources(w, ops[0]);
      HomeIsFixed(Step(w, ops[0]), ops[1..]);
    }
  }
}
