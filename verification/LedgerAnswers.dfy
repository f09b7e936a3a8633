/**
 What each call of the grant ledger does, in terms of what the caller passes and
 what is stored: who may activate, revoke and admit, what is answered, what a
 storage fault and an opening leave behind.
 */
module LedgerAnswers {
  import opened Wrappers
  import opened Digests
  import A = Approvals
  import opened Ledger
  import opened LedgerRuns
  import opened LedgerSafety

  // ----- Activation

  /** What can be bound at all: a reminder of the accepted form, a person, and an expiry within a day. */
  ghost predicate IsBindable(x: Activation) {
    && Acceptable(x.job)
    && 1 <= |x.owner| <= 256 && 1 <= |x.session| <= 256
    && x.firstRead < x.until <= x.secondRead + 86400.0
  }

  /** What the ledger asks of the inputs of an activation: besides that, that the job is paused and disabled. */
  ghost predicate MayBeActivated(x: Activation) {
    IsBindable(x) && FieldIs(x.job, "state", JStr("paused")) && FieldIs(x.job, "enabled", JBool(false))
  }

  /** Inputs are accepted exactly so, and what is accepted binds job, configuration, person and expiry. */
  lemma ActivationInputExactly(home: string, x: Activation)
    ensures ActivationInput(home, x).Ok? <==> MayBeActivated(x)
    ensures MayBeActivated(x) ==>
      var grant := GrantDigest(JobDigest(Semantic(x.job)), ConfigDigest(x.configForBinding), ScriptDigest);
      ActivationInput(home, x).value == BindingDigest(home, grant, x.owner, x.session, x.until, ScriptDigest)
    ensures IsBindable(x) && !MayBeActivated(x) ==>
      ActivationInput(home, x) == Err("activation_requires_paused_job")
  {
    hide Acceptable, SemanticFingerprint, Lookup, FieldIs, Semantic;
    AcceptedExactly(x.job);
    LookupFinds(x.job, "state", JStr("paused"));
    LookupFinds(x.job, "enabled", JBool(false));
  }

  /** A refused input touches neither the database nor the approval it names. */
  lemma RefusedActivationChangesNothing(w: World, x: Activation, st: Storage)
    requires !MayBeActivated(x)
    ensures Step(w, Activate(x, st)) == w
  {
    hide ActivationInput, StepActivate, MayBeActivated;
    ActivationInputExactly(w.home, x);
  }

  lemma AcceptedId(job: Job)
    requires Acceptable(job)
    ensures "id" in job && job["id"].JStr? && JobId(job) == job["id"].s
  {
    hide FORBIDDEN_FIELDS;
    assert HasText(job, "id");
  }

  /**
   The row of a grant holds what its caller passed: the job of the second
   configuration read, the person, the expiry.
   */
  ghost predicate RowOf(x: Activation, q: Request) {
    && Acceptable(x.job) && q.job == x.job["id"].s
    && q.row.fingerprint == GrantDigest(JobDigest(Semantic(x.job)), ConfigDigest(x.configForGrant), ScriptDigest)
    && q.row.owner == x.owner && q.row.session == x.session && q.row.until == x.until && !q.row.revoked
    && q.approval == x.approval
  }

  lemma RequestIsTheRow(home: string, x: Activation)
    requires ActivationInput(home, x).Ok?
    ensures RowOf(x, RequestOf(home, x))
    ensures RequestOf(home, x).now == x.approvalRead && RequestOf(home, x).stamp == x.approvalStamp
  {
    hide Acceptable, SemanticFingerprint, Lookup, FieldIs, Semantic, JobId;
    AcceptedExactly(x.job);
    AcceptedId(x.job);
  }

  /** In every reachable state, each grant was activated for a paused, disabled job, and stores what was passed. */
  lemma ActivatedOnlyPaused(w: World, i: nat)
    requires Reachable(w) && i < |w.log| && w.log[i].Activated?
    ensures MayBeActivated(w.log[i].input) && RowOf(w.log[i].input, w.log[i].request)
  {
    hide Reachable, ActivationInput, MayBeActivated, RowOf;
    ReachableSources(w, i);
    ActivationInputExactly(w.home, w.log[i].input);
    RequestIsTheRow(w.home, w.log[i].input);
  }

  /** A grant of this person to replace, or room for a new one. */
  predicate HasRoomFor(grants: map<string, Grant>, id: string, owner: string, session: string) {
    if id in grants then grants[id].owner == owner && grants[id].session == session else |grants| < 1000
  }

  /** The store holds this approval, available, in time, and for exactly this binding and person. */
  predicate IsLive(s: A.Store, id: nat, binding: Digest, owner: string, session: string, now: real) {
    && id in s.records && s.records[id].state == A.Available && now < s.records[id].expiresAt
    && s.records[id].binding == binding && s.records[id].caller == owner && s.records[id].session == session
  }

  lemma CommitsExactly(d: Disk, s: A.Store, q: Request)
    ensures ActivateBody(d, s, q).Commit? <==>
      && !d.stopped && HasRoomFor(d.grants, q.job, q.row.owner, q.row.session)
      && IsLive(s, q.approval, q.binding, q.row.owner, q.row.session, q.now)
    ensures ActivateBody(d, s, q).Commit? ==> ActivateBody(d, s, q).disk == d.(grants := d.grants[q.job := q.row])
  {
    hide A.Consume;
    A.ConsumeIsExact(s, q.approval, q.binding, q.row.owner, q.row.session, q.now, q.stamp);
  }

  /**
   An accepted activation succeeds exactly with an exact live approval,
   on a ledger that is not stopped, for its owner.
   */
  ghost predicate MayBeGranted(w: World, x: Activation) {
    && ActivationInput(w.home, x).Ok?
    && Available(w.authority) && !w.authority.disk.stopped
    && HasRoomFor(w.authority.disk.grants, JobId(x.job), x.owner, x.session)
    && IsLive(w.store, x.approval, ActivationInput(w.home, x).value, x.owner, x.session, x.approvalRead)
  }

  lemma RequestIsTheRowParts(home: string, x: Activation)
    requires ActivationInput(home, x).Ok?
    ensures var q := RequestOf(home, x);
      && q.job == JobId(x.job) && q.binding == ActivationInput(home, x).value && q.approval == x.approval
      && q.row.owner == x.owner && q.row.session == x.session && q.now == x.approvalRead
  {
    hide ActivationInput, JobId, GrantFingerprint;
  }

  lemma GrantedExactly(w: World, x: Activation, st: Storage)
    requires ActivationInput(w.home, x).Ok?
    ensures var body := ActivateBody(w.authority.disk, w.store, RequestOf(w.home, x));
      && (Answer(w.authority, st, body).Done? <==> st == Sound && MayBeGranted(w, x))
      && (Answer(w.authority, st, body).Done? ==>
            After(w.authority, st, body).disk ==
              w.authority.disk.(grants := w.authority.disk.grants[JobId(x.job) := RequestOf(w.home, x).row]))
  {
    hide ActivationInput, RequestOf, JobId, ActivateBody, IsLive, HasRoomFor;
    RequestIsTheRowParts(w.home, x);
    CommitsExactly(w.authority.disk, w.store, RequestOf(w.home, x));
  }

  lemma SpentByFailure(w: World, x: Activation, q: Request)
    requires Available(w.authority) && ActivateBody(w.authority.disk, w.store, q).Commit?
    ensures var v := StepActivate(w, x, q, FailsAtCommit);
      && v.authority == w.authority.(faulted := true) && v.log == w.log
      && q.approval in v.store.records && v.store.records[q.approval].state == A.Consumed
  {
    hide A.Consume;
    A.ConsumeIsExact(w.store, q.approval, q.binding, q.row.owner, q.row.session, q.now, q.stamp);
  }

  /** When the commit fails, the approval is spent all the same, and nothing is granted. */
  lemma FailedCommitSpendsApproval(w: World, x: Activation)
    requires MayBeGranted(w, x)
    ensures var v := Step(w, Activate(x, FailsAtCommit));
      && v.authority == w.authority.(faulted := true) && v.log == w.log
      && x.approval in v.store.records && v.store.records[x.approval].state == A.Consumed
  {
    hide ActivationInput, RequestOf, JobId, ActivateBody, IsLive, HasRoomFor, StepActivate;
    RequestIsTheRowParts(w.home, x);
    CommitsExactly(w.authority.disk, w.store, RequestOf(w.home, x));
    SpentByFailure(w, x, RequestOf(w.home, x));
  }

  // ----- Revocation

  /** Event `j` is the last activation of `job` in this history. */
  ghost predicate LastActivated(log: seq<Event>, j: nat, job: string) {
    && j < |log| && log[j].Activated? && log[j].request.job == job
    && forall k :: j < k < |log| && log[k].Activated? ==> log[k].request.job != job
  }

  lemma {:induction false} GrantWasActivated(log: seq<Event>, job: string) returns (j: nat)
    requires job in Replay(log).grants
    ensures LastActivated(log, j, job)
    ensures Replay(log).grants[job] == log[j].request.row.(revoked := Replay(log).grants[job].revoked)
    decreases |log|
  {
    var last := |log| - 1;
    var front, e := log[..last], log[last];
    if e.Activated? && e.request.job == job {
      j := last;
    } else {
      j := GrantWasActivated(front, job);
      forall k | j < k < |log| && log[k].Activated? ensures log[k].request.job != job {
        if k < last {
          assert log[k] == front[k];
        }
      }
    }
  }

  /** Every revocation was asked for by the very user and session that activated the grant. */
  lemma RevokedByItsOwner(w: World, i: nat) returns (j: nat)
    requires Reachable(w) && i < |w.log| && w.log[i].RevokedJob?
    ensures LastActivated(w.log[..i], j, w.log[i].job)
    ensures w.log[j].Activated? && w.log[i].owner == w.log[j].input.owner && w.log[i].session == w.log[j].input.session
  {
    hide Reachable, RowOf, MayBeActivated;
    EveryRunIsLawful(w);
    assert Permitted(Replay(w.log[..i]), w.log[i]);
    j := GrantWasActivated(w.log[..i], w.log[i].job);
    assert w.log[..i][j] == w.log[j];
    ActivatedOnlyPaused(w, j);
    RowIsOwned(w.log[j].input, w.log[j].request);
  }

  lemma RowIsOwned(x: Activation, q: Request)
    requires RowOf(x, q)
    ensures q.row.owner == x.owner && q.row.session == x.session
  {
  }

  lemma ForeignAborts(d: Disk, job: string, owner: string, session: string)
    requires job in d.grants && (owner != d.grants[job].owner || session != d.grants[job].session)
    ensures RevokeBody(d, job, owner, session) == Abort("grant_owner_mismatch")
    ensures RevokeIfOwnerBody(d, job, owner, session) == Abort("grant_owner_mismatch")
  {
  }

  lemma AbortChangesNothing<R>(w: World, job: string, owner: string, session: string, st: Storage, code: string)
    ensures var v := StepRevoke<R>(w, job, owner, session, st, Abort(code));
      v == w.(authority := w.authority.(faulted := v.authority.faulted))
    ensures Available(w.authority) && st == Sound ==>
      StepRevoke<R>(w, job, owner, session, st, Abort(code)) == w
        && Answer<R>(w.authority, st, Abort(code)) == Denied(code)
  {
  }

  /** Somebody else's revocation is refused and changes nothing, in either form. */
  lemma ForeignRevocationIsRefused(w: World, job: string, owner: string, session: string, st: Storage)
    requires job in w.authority.disk.grants
    requires owner != w.authority.disk.grants[job].owner || session != w.authority.disk.grants[job].session
    ensures var v := Step(w, Revoke(job, owner, session, st));
      v.authority.disk == w.authority.disk && v.log == w.log && v.live == w.live && v.store == w.store
    ensures Step(w, RevokeIfOwner(job, owner, session, st)) == Step(w, Revoke(job, owner, session, st))
    ensures Available(w.authority) && st == Sound ==>
      && Answer(w.authority, st, RevokeBody(w.authority.disk, job, owner, session)) == Denied("grant_owner_mismatch")
      && Answer(w.authority, st, RevokeIfOwnerBody(w.authority.disk, job, owner, session))
        == Denied("grant_owner_mismatch")
      && Step(w, Revoke(job, owner, session, st)) == w
  {
    hide RevokeBody, RevokeIfOwnerBody;
    ForeignAborts(w.authority.disk, job, owner, session);
    AbortChangesNothing<nat>(w, job, owner, session, st, "grant_owner_mismatch");
  }

  /** The executions of this job whose receipt is in flight. */
  function InFlight(d: Disk, job: string): set<string> {
    set e | e in d.receipts && d.receipts[e] == Receipt(job, d.receipts[e].occurrence, Inflight)
  }

  lemma InFlightCounts(d: Disk, job: string)
    ensures InflightOf(d.receipts, job) == |InFlight(d, job)|
  {
    assert InFlight(d, job) == set e | e in d.receipts && d.receipts[e].job == job && d.receipts[e].state == Inflight;
  }

  /**
   The owner's revocation takes effect and is answered with the number of
   executions of the job that are in flight.
   */
  lemma OwnersRevocationWorks(w: World, job: string)
    requires Available(w.authority) && job in w.authority.disk.grants
    ensures var d := w.authority.disk;
      var (owner, session) := (d.grants[job].owner, d.grants[job].session);
      && Answer(w.authority, Sound, RevokeBody(d, job, owner, session)) == Done(|InFlight(d, job)|)
      && Answer(w.authority, Sound, RevokeIfOwnerBody(d, job, owner, session)) == Done(Some(|InFlight(d, job)|))
      && Step(w, Revoke(job, owner, session, Sound)).authority.disk
         == d.(grants := d.grants[job := d.grants[job].(revoked := true)])
      && Step(w, RevokeIfOwner(job, owner, session, Sound)) == Step(w, Revoke(job, owner, session, Sound))
  {
    InFlightCounts(w.authority.disk, job);
  }

  /** Without a grant the two forms differ in their answer only. */
  lemma NothingToRevoke(w: World, job: string, owner: string, session: string)
    requires Available(w.authority) && job !in w.authority.disk.grants
    ensures Answer(w.authority, Sound, RevokeBody(w.authority.disk, job, owner, session))
      == Denied("grant_owner_mismatch")
    ensures Answer(w.authority, Sound, RevokeIfOwnerBody(w.authority.disk, job, owner, session)) == Done(None)
    ensures Step(w, Revoke(job, owner, session, Sound)) == w && Step(w, RevokeIfOwner(job, owner, session, Sound)) == w
  {
  }

  /** An answer of zero means that no context of the job is inside. */
  lemma ZeroMeansNobody(w: World, job: string, e: string)
    requires ContextsAgree(w) && |InFlight(w.authority.disk, job)| == 0 && e in w.live && w.live[e] == Inside
    ensures e in w.authority.disk.receipts && w.authority.disk.receipts[e].job != job
  {
    assert e !in InFlight(w.authority.disk, job);
  }

  // ----- Admission

  /** What the ledger asks of the inputs of an admission. */
  ghost predicate MayBeAdmitted(a: Admission) {
    && Acceptable(a.job) && a.execution != ""
    && "_scheduled_instant" in a.job && a.job["_scheduled_instant"].JStr? && a.job["_scheduled_instant"].s != ""
  }

  /** The entry of an admission holds what its caller passed. */
  ghost predicate EntryFor(a: Admission, n: Entry) {
    && MayBeAdmitted(a)
    && n.job == a.job["id"].s && n.occurrence == a.job["_scheduled_instant"].s && n.execution == a.execution
    && n.fingerprint == GrantDigest(JobDigest(Semantic(a.job)), ConfigDigest(a.config), ScriptDigest)
    && n.checkRead == a.checkRead && n.leaseRead == a.leaseRead
  }

  lemma AdmissionInputExactly(a: Admission)
    ensures AdmissionInput(a).Ok? <==> MayBeAdmitted(a)
    ensures AdmissionInput(a).Ok? ==> EntryFor(a, EntryOf(a))
  {
    hide Acceptable, SemanticFingerprint, Semantic, JobId;
    AcceptedExactly(a.job);
    if Acceptable(a.job) {
      AcceptedId(a.job);
    }
  }

  /**
   In every reachable state, each admission was of an accepted, due
   reminder, and its receipt names what was passed.
   */
  lemma AdmittedOnlyDue(w: World, i: nat)
    requires Reachable(w) && i < |w.log| && w.log[i].Admitted?
    ensures EntryFor(w.log[i].admission, w.log[i].entry)
  {
    hide Reachable, AdmissionInput, EntryFor, MayBeAdmitted;
    ReachableSources(w, i);
    AdmissionInputExactly(w.log[i].admission);
  }

  /** In every reachable state, no two admissions share an execution id, nor a job and its scheduled instant. */
  lemma EachOccurrenceOnce(w: World, i: nat, j: nat)
    requires Reachable(w) && i < j < |w.log| && w.log[i].Admitted? && w.log[j].Admitted?
    ensures var a, b := w.log[i].admission, w.log[j].admission;
      && MayBeAdmitted(a) && MayBeAdmitted(b)
      && a.execution != b.execution
      && (a.job["id"] != b.job["id"] || a.job["_scheduled_instant"] != b.job["_scheduled_instant"])
  {
    hide Reachable, Acceptable;
    EverythingOnce(w, i, j);
    AdmittedOnlyDue(w, i);
    AdmittedOnlyDue(w, j);
    AcceptedId(w.log[i].admission.job);
    AcceptedId(w.log[j].admission.job);
  }

  /** A lease is ten seconds, or what is left of the grant if that is less. */
  lemma LeaseExactly(a: Authority, st: Storage, n: Entry)
    requires Admits(a, st, n)
    ensures n.job in a.disk.grants
    ensures var lease, left := Answer(a, st, AdmitBody(a.disk, n)).result, a.disk.grants[n.job].until - n.leaseRead;
      lease == if left < 10.0 then left else 10.0
  {
  }

  // ----- Bounds

  /** The ledger never stores more than a thousand grants and ten thousand receipts. */
  ghost predicate Bounded(d: Disk) {
    |d.grants| <= 1000 && |d.receipts| <= 10000
  }

  lemma SizeAfter<K, V>(m: map<K, V>, k: K, v: V)
    ensures |m[k := v]| == |m| + (if k in m then 0 else 1)
  {
    if k in m {
      SameCount(m, k, v);
    } else {
      assert m[k := v].Keys == m.Keys + {k};
      assert |m[k := v]| == |m[k := v].Keys| && |m| == |m.Keys|;
    }
  }

  lemma AfterKeepsBounds<R>(a: Authority, st: Storage, body: Body<R>)
    requires Bounded(a.disk) && (body.Commit? ==> Bounded(body.disk))
    ensures Bounded(After(a, st, body).disk)
  {
  }

  lemma ActivationKeepsBounds(d: Disk, s: A.Store, q: Request)
    requires Bounded(d)
    ensures ActivateBody(d, s, q).Commit? ==> Bounded(ActivateBody(d, s, q).disk)
  {
    hide A.Consume;
    SizeAfter(d.grants, q.job, q.row);
  }

  lemma AdmissionKeepsBounds(d: Disk, n: Entry)
    requires Bounded(d)
    ensures AdmitBody(d, n).Commit? ==> Bounded(AdmitBody(d, n).disk)
  {
    SizeAfter(d.receipts, n.execution, Receipt(n.job, n.occurrence, Inflight));
  }

  lemma MarkingKeepsBounds(d: Disk, job: string)
    requires Bounded(d)
    ensures Bounded(MarkRevoked(d, job))
  {
    if job in d.grants {
      SizeAfter(d.grants, job, d.grants[job].(revoked := true));
    }
  }

  lemma SpendingKeepsBounds(d: Disk, e: string)
    requires Bounded(d)
    ensures Bounded(SpentBody(d, e).disk)
  {
    if e in d.receipts {
      SizeAfter(d.receipts, e, d.receipts[e].(state := Spent));
    }
  }

  lemma RecoveryKeepsBounds(d: Disk)
    requires Bounded(d)
    ensures Bounded(Recovered(d))
  {
    assert Recovered(d).receipts.Keys == d.receipts.Keys;
    assert |Recovered(d).receipts| == |Recovered(d).receipts.Keys|;
  }

  lemma StepKeepsBounds(w: World, op: Op)
    requires Bounded(w.authority.disk)
    ensures Bounded(Step(w, op).authority.disk)
  {
    hide Bounded, ActivateBody, AdmitBody, MarkRevoked, SpentBody, Recovered, ActivationInput, AdmissionInput, A.Apply;
    var d := w.authority.disk;
    match op
    case Open(_) => RecoveryKeepsBounds(d);
    case Activate(x, st) =>
      if ActivationInput(w.home, x).Ok? {
        ActivationKeepsBounds(d, w.store, RequestOf(w.home, x));
        AfterKeepsBounds(w.authority, st, ActivateBody(d, w.store, RequestOf(w.home, x)));
      }
    case Revoke(job, owner, session, st) =>
      MarkingKeepsBounds(d, job);
      AfterKeepsBounds(w.authority, st, RevokeBody(d, job, owner, session));
    case RevokeIfOwner(job, owner, session, st) =>
      MarkingKeepsBounds(d, job);
      AfterKeepsBounds(w.authority, st, RevokeIfOwnerBody(d, job, owner, session));
    case Stop(st) => StoppingKeepsBounds(w, st);
    case Admit(a, st) =>
      if AdmissionInput(a).Ok? {
        AdmissionKeepsBounds(d, EntryOf(a));
        AfterKeepsBounds(w.authority, st, AdmitBody(d, EntryOf(a)));
      }
    case Finalise(e, st) =>
      SpendingKeepsBounds(d, e);
      AfterKeepsBounds(w.authority, st, SpentBody(d, e));
    case _ =>
  }

  lemma StoppingKeepsBounds(w: World, st: Storage)
    requires Bounded(w.authority.disk)
    ensures Bounded(StepStop(w, st).authority.disk)
  {
  }

  lemma {:induction false} RunKeepsBounds(w: World, ops: seq<Op>)
    requires Bounded(w.authority.disk)
    ensures Bounded(Run(w, ops).authority.disk)
    decreases |ops|
  {
    hide Bounded, Step;
    if ops != [] {
      StepKeepsBounds(w, ops[0]);
      RunKeepsBounds(Step(w, ops[0]), ops[1..]);
    }
  }

  /** In every reachable state the ledger is within its bounds. */
  lemma EveryRunIsBounded(w: World)
    requires Reachable(w)
    ensures Bounded(w.authority.disk)
  {
    hide Step;
    var home: string, ops :| w == Run(Initial(home), ops);
    RunKeepsBounds(Initial(home), ops);
  }

  // ----- Faults and openings

  /** While the authority is faulted or closed, every call is refused as unavailable and changes nothing. */
  lemma UnavailableRefusesAll<R>(a: Authority, st: Storage, body: Body<R>)
    requires a.faulted || a.closed
    ensures Answer(a, st, body) == Denied("authority_unavailable") && After(a, st, body) == a
  {
  }

  /** A storage failure is latched, leaves the database as it was, and is answered as a fault. */
  lemma FailureIsLatched<R>(a: Authority, st: Storage, body: Body<R>)
    requires !a.faulted && !a.closed
    ensures st == FailsAtBegin || (st == FailsAtCommit && body.Commit?) <==> After(a, st, body).faulted
    ensures After(a, st, body).faulted <==> Answer(a, st, body) == Fault
    ensures After(a, st, body).faulted || st == Unsafe ==> After(a, st, body).disk == a.disk
    ensures st == Unsafe ==> Answer(a, st, body) == Denied("unsafe_authority_storage") && After(a, st, body) == a
    ensures st == Sound && body.Commit? ==>
      Answer(a, st, body) == Done(body.result) && After(a, st, body) == a.(disk := body.disk)
    ensures (st == Sound || st == FailsAtCommit) && body.Abort? ==>
      Answer(a, st, body) == Denied(body.code) && After(a, st, body) == a
  {
  }

  /** A faulted authority takes no effect and stays faulted until the ledger is opened again. */
  lemma FaultedStep(w: World, op: Op)
    requires w.authority.faulted && !op.Open?
    ensures Step(w, op).authority.faulted && Step(w, op).log == w.log && Step(w, op).authority.disk == w.authority.disk
  {
    hide ActivateBody, AdmitBody, RevokeBody, RevokeIfOwnerBody, SpentBody, ActivationInput, AdmissionInput, A.Apply;
  }

  lemma {:induction false} FaultedUntilOpened(w: World, ops: seq<Op>)
    requires w.authority.faulted && forall i :: 0 <= i < |ops| ==> !ops[i].Open?
    ensures Run(w, ops).log == w.log && Run(w, ops).authority.disk == w.authority.disk
    decreases |ops|
  {
    hide Step;
    if ops != [] {
      FaultedStep(w, ops[0]);
      FaultedUntilOpened(Step(w, ops[0]), ops[1..]);
    }
  }

  /** Opening a closed ledger recovers it: receipts in flight become unknown, all else stays, and nobody is inside. */
  lemma OpeningRecovers(w: World, e: string)
    requires w.authority.closed
    ensures var before, after := w.authority.disk, Step(w, Open(true)).authority;
      && !after.closed && !after.faulted && after.active == 0
      && after.disk.stopped == before.stopped && after.disk.grants == before.grants
      && after.disk.receipts.Keys == before.receipts.Keys
      && (e in before.receipts ==>
            && after.disk.receipts[e].job == before.receipts[e].job
            && after.disk.receipts[e].occurrence == before.receipts[e].occurrence
            && after.disk.receipts[e].state ==
                 match before.receipts[e].state
                 case Inflight => Unknown
                 case Spent => Spent
                 case Unknown => Unknown)
  {
    assert Recovered(w.authority.disk).receipts.Keys == w.authority.disk.receipts.Keys;
  }

  /** Opening succeeds exactly on private, unlocked, undamaged storage whose database is not lost. */
  lemma OpensExactly(s: Surroundings, stored: Option<Disk>)
    ensures OpeningAnswer(s, stored) == Done(()) <==>
      && !s.homeIsLink && s.homePrivate && s.lockPrivate && s.lockFree
      && (stored.None? ==> !s.lockExisted)
      && s.ledgerPrivate && s.intact && s.recovers
    ensures OpeningAnswer(s, stored) == Denied("authority_ledger_missing") ==> s.lockExisted && stored.None?
    ensures OpeningAnswer(s, stored) == Denied("authority_corrupt") ==> !s.intact
    ensures OpeningAnswer(s, stored) == Denied("unsafe_authority_storage") ==>
      s.homeIsLink || !s.homePrivate || !s.lockPrivate || !s.ledgerPrivate
    ensures OpeningAnswer(s, stored) == Fault ==> !s.lockFree || !s.recovers
  {
  }
}
