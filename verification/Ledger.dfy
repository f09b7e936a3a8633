/**
 The durable grant ledger: one open authority over a database of grants and
 receipts. Every operation runs as one database transaction under the lock.
 */
module Ledger {
  import opened Wrappers
  import opened Digests
  import A = Approvals

  const MAX_GRANTS := 1000
  const MAX_RECEIPTS := 10000
  const MAX_LEASE := 10.0

  datatype ReceiptState = Inflight | Spent | Unknown
  datatype Receipt = Receipt(job: string, occurrence: string, state: ReceiptState)
  datatype Grant = Grant(fingerprint: Digest, owner: string, session: string, until: real, revoked: bool)

  /** What survives a crash. */
  datatype Disk = Disk(stopped: bool, grants: map<string, Grant>, receipts: map<string, Receipt>)

  const EMPTY_DISK := Disk(false, map[], map[])

  /** One authority object; `active` counts contexts between admission and decrement. */
  datatype Authority = Authority(disk: Disk, active: int, faulted: bool, closed: bool)

  /** How the storage behaves during one transaction. */
  datatype Storage = Sound | Unsafe | FailsAtBegin | FailsAtCommit

  /** What the statements of a transaction decide before the commit. */
  datatype Body<+R> = Commit(disk: Disk, result: R) | Abort(code: string)

  datatype Reply<+R> = Done(result: R) | Denied(code: string) | Fault

  predicate Available(a: Authority) {
    !a.faulted && !a.closed
  }

  /** The statements of a transaction run at all. */
  predicate Runs(a: Authority, st: Storage) {
    Available(a) && (st == Sound || st == FailsAtCommit)
  }

  function After<R>(a: Authority, st: Storage, body: Body<R>): Authority {
    if !Available(a) || st == Unsafe then a
    else if st == FailsAtBegin || (st == FailsAtCommit && body.Commit?) then a.(faulted := true)
    else if body.Commit? then a.(disk := body.disk)
    else a
  }

  function Answer<R>(a: Authority, st: Storage, body: Body<R>): Reply<R> {
    if !Available(a) then Denied("authority_unavailable")
    else if st == Unsafe then Denied("unsafe_authority_storage")
    else if st == FailsAtBegin then Fault
    else match body
      case Abort(code) => Denied(code)
      case Commit(_, r) => if st == FailsAtCommit then Fault else Done(r)
  }

  /** Opening recovers: a receipt still in flight belongs to a process that is gone. */
  function RecoveredReceipt(r: Receipt): Receipt {
    if r.state == Inflight then r.(state := Unknown) else r
  }

  function Recovered(d: Disk): Disk {
    d.(receipts := map e | e in d.receipts :: RecoveredReceipt(d.receipts[e]))
  }

  function Opened(d: Disk): Authority {
    Authority(Recovered(d), 0, false, false)
  }

  function InflightOf(receipts: map<string, Receipt>, job: string): nat {
    |set e | e in receipts && receipts[e].job == job && receipts[e].state == Inflight|
  }

  predicate OwnedBy(g: Grant, owner: string, session: string) {
    g.owner == owner && g.session == session
  }

  /** The checks `activate` makes inside its transaction before it consumes the approval. */
  function ActivationRefusal(d: Disk, job: string, owner: string, session: string): Option<string> {
    if d.stopped then Some("global_stop")
    else if job in d.grants && !OwnedBy(d.grants[job], owner, session) then Some("grant_owner_mismatch")
    else if job !in d.grants && |d.grants| >= MAX_GRANTS then Some("grant_capacity")
    else None
  }

  /** The inputs of one `activate` call; the configuration and the clock are each read twice. */
  datatype Activation = Activation(
    job: Job, owner: string, session: string, until: real, approval: nat,
    configForBinding: string, configForGrant: string,
    firstRead: real, secondRead: real, approvalRead: real, approvalStamp: real)

  function ActivationBinding(home: string, x: Activation): Result<Digest> {
    Binding(home, x.job, x.configForBinding, x.owner, x.session, x.until, x.firstRead, x.secondRead)
  }

  /** Everything `activate` checks before it opens a transaction. */
  function ActivationInput(home: string, x: Activation): Result<Digest> {
    match ActivationBinding(home, x)
    case Err(code) => Err(code)
    case Ok(b) =>
      if Lookup(x.job, "state") != JStr("paused") || Lookup(x.job, "enabled") != JBool(false)
      then Err("activation_requires_paused_job")
      else Ok(b)
  }

  function JobId(job: Job): string {
    if Lookup(job, "id").JStr? then Lookup(job, "id").s else ""
  }

  /** The row an activation stores; its fingerprint uses the second configuration read. */
  function GrantRow(x: Activation): Grant
    requires SemanticFingerprint(x.job).Ok?
  {
    Grant(GrantFingerprint(x.job, x.configForGrant).value, x.owner, x.session, x.until, false)
  }

  /** What an activation takes into its transaction once its inputs are accepted. */
  datatype Request = Request(job: string, row: Grant, binding: Digest, approval: nat, now: real, stamp: real)

  function RequestOf(home: string, x: Activation): (r: Request)
    requires ActivationInput(home, x).Ok?
    ensures SemanticFingerprint(x.job).Ok?
    ensures r.binding == BindingDigest(home, GrantFingerprint(x.job, x.configForBinding).value,
                                       x.owner, x.session, x.until, ScriptDigest)
  {
    Request(JobId(x.job), GrantRow(x), ActivationInput(home, x).value, x.approval, x.approvalRead, x.approvalStamp)
  }

  /** The consumption an activation attempts on the shared approval store. */
  function ConsumeFor(s: A.Store, q: Request): (A.Store, Result<A.Approval>) {
    A.Consume(s, q.approval, q.binding, q.row.owner, q.row.session, q.now, q.stamp)
  }

  function ActivateBody(d: Disk, s: A.Store, q: Request): Body<()> {
    match ActivationRefusal(d, q.job, q.row.owner, q.row.session)
    case Some(code) => Abort(code)
    case None =>
      match ConsumeFor(s, q).1
      case Err(code) => Abort(code)
      case Ok(_) => Commit(d.(grants := d.grants[q.job := q.row]), ())
  }

  /** The approval is consumed in memory even when the commit then fails. */
  function StoreAfter(a: Authority, st: Storage, s: A.Store, q: Request): A.Store {
    if Runs(a, st) && ActivationRefusal(a.disk, q.job, q.row.owner, q.row.session).None? then ConsumeFor(s, q).0 else s
  }

  function MarkRevoked(d: Disk, job: string): Disk {
    if job in d.grants then d.(grants := d.grants[job := d.grants[job].(revoked := true)]) else d
  }

  function RevokeBody(d: Disk, job: string, owner: string, session: string): Body<nat> {
    if job !in d.grants || !OwnedBy(d.grants[job], owner, session) then Abort("grant_owner_mismatch")
    else Commit(MarkRevoked(d, job), InflightOf(d.receipts, job))
  }

  function RevokeIfOwnerBody(d: Disk, job: string, owner: string, session: string): Body<Option<nat>> {
    if job !in d.grants then Commit(d, None)
    else if !OwnedBy(d.grants[job], owner, session) then Abort("grant_owner_mismatch")
    else Commit(MarkRevoked(d, job), Some(InflightOf(d.receipts, job)))
  }

  function StopBody(a: Authority): Body<int> {
    Commit(a.disk.(stopped := true), a.active)
  }

  /** The inputs of one `admit` call. */
  datatype Admission = Admission(
    job: Job, execution: string, config: string, checkRead: real, leaseRead: real)

  function Occurrence(x: Admission): string {
    if Lookup(x.job, "_scheduled_instant").JStr? then Lookup(x.job, "_scheduled_instant").s else ""
  }

  /** What `admit` checks before it takes the lock; the result is the fingerprint it will compare. */
  function AdmissionInput(x: Admission): Result<Digest> {
    match GrantFingerprint(x.job, x.config)
    case Err(code) => Err(code)
    case Ok(f) =>
      if Occurrence(x) == "" || x.execution == "" then Err("missing_occurrence") else Ok(f)
  }

  predicate Replayed(d: Disk, execution: string, job: string, occurrence: string) {
    || execution in d.receipts
    || exists e :: e in d.receipts && d.receipts[e].job == job && d.receipts[e].occurrence == occurrence
  }

  function Lesser(x: real, y: real): real {
    if x <= y then x else y
  }

  /** What an admission takes into its transaction once its inputs are accepted. */
  datatype Entry = Entry(job: string, occurrence: string, execution: string, fingerprint: Digest,
                         checkRead: real, leaseRead: real)

  function EntryOf(x: Admission): Entry
    requires AdmissionInput(x).Ok?
  {
    Entry(JobId(x.job), Occurrence(x), x.execution, AdmissionInput(x).value, x.checkRead, x.leaseRead)
  }

  function AdmitBody(d: Disk, n: Entry): Body<real> {
    if d.stopped then Abort("global_stop")
    else if n.job !in d.grants || d.grants[n.job].revoked || n.checkRead >= d.grants[n.job].until
         || d.grants[n.job].fingerprint != n.fingerprint then Abort("grant_unavailable")
    else if |d.receipts| >= MAX_RECEIPTS then Abort("receipt_capacity")
    else if Replayed(d, n.execution, n.job, n.occurrence) then Abort("occurrence_replayed")
    else Commit(d.(receipts := d.receipts[n.execution := Receipt(n.job, n.occurrence, Inflight)]),
                Lesser(MAX_LEASE, d.grants[n.job].until - n.leaseRead))
  }

  predicate Admits(a: Authority, st: Storage, n: Entry) {
    Answer(a, st, AdmitBody(a.disk, n)).Done?
  }

  function AfterAdmit(a: Authority, st: Storage, n: Entry): Authority {
    var b := After(a, st, AdmitBody(a.disk, n));
    if Admits(a, st, n) then b.(active := a.active + 1) else b
  }

  function SpentBody(d: Disk, execution: string): Body<()> {
    if execution in d.receipts
    then Commit(d.(receipts := d.receipts[execution := d.receipts[execution].(state := Spent)]), ())
    else Commit(d, ())
  }

  /** A lease never outlives the grant it was cut from, nor ten seconds; a late second read can make it empty. */
  lemma LeaseEndsWithGrant(a: Authority, st: Storage, n: Entry)
    requires Admits(a, st, n)
    ensures n.job in a.disk.grants
    ensures var lease, until := Answer(a, st, AdmitBody(a.disk, n)).result, a.disk.grants[n.job].until;
      && n.checkRead < until
      && lease <= MAX_LEASE
      && n.leaseRead + lease <= until
      && (n.leaseRead < until <==> lease > 0.0)
  {
  }

  /**
   What opening finds: the directory, the lock file, which may be there already or
   held by another process, and the database, which may be missing or damaged.
   */
  datatype Surroundings = Surroundings(
    homeIsLink: bool, homePrivate: bool, lockExisted: bool, lockPrivate: bool, lockFree: bool,
    ledgerPrivate: bool, intact: bool, recovers: bool)

  /** What opening answers, in the order in which it looks. Nothing is stored by an opening that fails. */
  function OpeningAnswer(s: Surroundings, stored: Option<Disk>): Reply<()> {
    if s.homeIsLink || !s.homePrivate || !s.lockPrivate then Denied("unsafe_authority_storage")
    else if !s.lockFree then Fault
    else if s.lockExisted && stored.None? then Denied("authority_ledger_missing")
    else if !s.ledgerPrivate then Denied("unsafe_authority_storage")
    else if !s.intact then Denied("authority_corrupt")
    else if !s.recovers then Fault
    else Done(())
  }

  /** The open authority of a process. Each method body runs under the lock. */
  class AutomationAuthority {
    const home: string
    const approvals: A.OneTimeApprovalStore
    var disk: Disk
    var active: int
    var faulted: bool
    var closed: bool

    function View(): Authority
      reads this
    {
      Authority(disk, active, faulted, closed)
    }

    /** Opens the ledger left on disk and recovers it. */
    constructor (home: string, approvals: A.OneTimeApprovalStore, stored: Disk)
      ensures View() == Opened(stored) && this.home == home && this.approvals == approvals
    {
      this.home, this.approvals := home, approvals;
      disk := stored.(receipts := map e | e in stored.receipts ::
        if stored.receipts[e].state == Inflight then stored.receipts[e].(state := Unknown) else stored.receipts[e]);
      active, faulted, closed := 0, false, false;
    }

    /** Opening takes the lock, refuses what is unsafe, lost or damaged, and recovers what is stored or starts empty. */
    static method Open(home: string, approvals: A.OneTimeApprovalStore, stored: Option<Disk>, s: Surroundings)
      returns (r: Reply<()>, a: AutomationAuthority?)
      ensures r == OpeningAnswer(s, stored)
      ensures r.Done? <==> a != null
      ensures r.Done? ==>
        && fresh(a) && a.home == home && a.approvals == approvals
        && a.View() == Opened(if stored.Some? then stored.value else EMPTY_DISK)
    {
      if s.homeIsLink {
        return Denied("unsafe_authority_storage"), null;
      }
      if !s.homePrivate || !s.lockPrivate {
        return Denied("unsafe_authority_storage"), null;
      }
      if !s.lockFree {
        return Fault, null;
      }
      if s.lockExisted && stored.None? {
        return Denied("authority_ledger_missing"), null;
      }
      if !s.ledgerPrivate {
        return Denied("unsafe_authority_storage"), null;
      }
      if !s.intact {
        return Denied("authority_corrupt"), null;
      }
      if !s.recovers {
        return Fault, null;
      }
      a := new AutomationAuthority(home, approvals, if stored.Some? then stored.value else EMPTY_DISK);
      return Done(()), a;
    }

    /** Entering a transaction: refuse, fail and latch the fault, or run. */
    method Begin(st: Storage) returns (refusal: Option<Reply<()>>)
      modifies this`faulted
      ensures refusal.None? <==> Runs(old(View()), st)
      ensures View() == old(View()).(faulted := old(faulted) || (Available(old(View())) && st == FailsAtBegin))
      ensures refusal == Some(Denied("authority_unavailable")) <==> !Available(old(View()))
      ensures refusal == Some(Denied("unsafe_authority_storage")) <==> Available(old(View())) && st == Unsafe
      ensures refusal == Some(Fault) <==> Available(old(View())) && st == FailsAtBegin
    {
      if faulted || closed {
        return Some(Denied("authority_unavailable"));
      }
      if st == Unsafe {
        return Some(Denied("unsafe_authority_storage"));
      }
      if st == FailsAtBegin {
        faulted := true;
        return Some(Fault);
      }
      return None;
    }

    /** Consume exact consent and store the grant it covers. */
    method Activate(x: Activation, st: Storage) returns (r: Reply<()>)
      modifies this`faulted, this`disk, approvals`records
      ensures ActivationInput(home, x).Err? ==>
        && r == Denied(ActivationInput(home, x).code)
        && View() == old(View()) && approvals.View() == old(approvals.View())
      ensures ActivationInput(home, x).Ok? ==>
        var q := RequestOf(home, x);
        && View() == After(old(View()), st, ActivateBody(old(disk), old(approvals.View()), q))
        && r == Answer(old(View()), st, ActivateBody(old(disk), old(approvals.View()), q))
        && approvals.View() == StoreAfter(old(View()), st, old(approvals.View()), q)
    {
      var input := ActivationInput(home, x);
      if input.Err? {
        return Denied(input.code);
      }
      r := ActivateExact(RequestOf(home, x), st);
    }

    method ActivateExact(q: Request, st: Storage) returns (r: Reply<()>)
      modifies this`faulted, this`disk, approvals`records
      ensures View() == After(old(View()), st, ActivateBody(old(disk), old(approvals.View()), q))
      ensures r == Answer(old(View()), st, ActivateBody(old(disk), old(approvals.View()), q))
      ensures approvals.View() == StoreAfter(old(View()), st, old(approvals.View()), q)
    {
      var refusal := Begin(st);
      if refusal.Some? {
        return refusal.value;
      }
      if disk.stopped {
        return Denied("global_stop");
      }
      if q.job in disk.grants
         && (disk.grants[q.job].owner != q.row.owner || disk.grants[q.job].session != q.row.session) {
        return Denied("grant_owner_mismatch");
      }
      if q.job !in disk.grants && |disk.grants| >= MAX_GRANTS {
        return Denied("grant_capacity");
      }
      var consumed := approvals.DoConsume(q.approval, q.binding, q.row.owner, q.row.session, q.now, q.stamp);
      if consumed.Err? {
        return Denied(consumed.code);
      }
      if st == FailsAtCommit {
        faulted := true;
        return Fault;
      }
      disk := disk.(grants := disk.grants[q.job := q.row]);
      return Done(());
    }

    method Revoke(job: string, owner: string, session: string, st: Storage) returns (r: Reply<nat>)
      modifies this`faulted, this`disk
      ensures View() == After(old(View()), st, RevokeBody(old(disk), job, owner, session))
      ensures r == Answer(old(View()), st, RevokeBody(old(disk), job, owner, session))
    {
      var refusal := Begin(st);
      if refusal.Some? {
        return if refusal.value.Denied? then Denied(refusal.value.code) else Fault;
      }
      if job !in disk.grants || disk.grants[job].owner != owner || disk.grants[job].session != session {
        return Denied("grant_owner_mismatch");
      }
      if st == FailsAtCommit {
        faulted := true;
        return Fault;
      }
      disk := disk.(grants := disk.grants[job := disk.grants[job].(revoked := true)]);
      return Done(InflightOf(disk.receipts, job));
    }

    method RevokeIfOwner(job: string, owner: string, session: string, st: Storage) returns (r: Reply<Option<nat>>)
      modifies this`faulted, this`disk
      ensures View() == After(old(View()), st, RevokeIfOwnerBody(old(disk), job, owner, session))
      ensures r == Answer(old(View()), st, RevokeIfOwnerBody(old(disk), job, owner, session))
    {
      var refusal := Begin(st);
      if refusal.Some? {
        return if refusal.value.Denied? then Denied(refusal.value.code) else Fault;
      }
      if job in disk.grants && (disk.grants[job].owner != owner || disk.grants[job].session != session) {
        return Denied("grant_owner_mismatch");
      }
      if st == FailsAtCommit {
        faulted := true;
        return Fault;
      }
      if job !in disk.grants {
        return Done(None);
      }
      disk := disk.(grants := disk.grants[job := disk.grants[job].(revoked := true)]);
      return Done(Some(InflightOf(disk.receipts, job)));
    }

    /** Close admission for good; the answer is how many contexts are still inside. */
    method GlobalStop(st: Storage) returns (r: Reply<int>)
      modifies this`faulted, this`disk
      ensures View() == After(old(View()), st, StopBody(old(View())))
      ensures r == Answer(old(View()), st, StopBody(old(View())))
    {
      var refusal := Begin(st);
      if refusal.Some? {
        return if refusal.value.Denied? then Denied(refusal.value.code) else Fault;
      }
      if st == FailsAtCommit {
        faulted := true;
        return Fault;
      }
      disk := disk.(stopped := true);
      return Done(active);
    }

    /** The first half of `admit`: commit a receipt and enter. */
    method AdmitBegin(x: Admission, st: Storage) returns (r: Reply<real>)
      modifies this`faulted, this`disk, this`active
      ensures AdmissionInput(x).Err? ==> View() == old(View()) && r == Denied(AdmissionInput(x).code)
      ensures AdmissionInput(x).Ok? ==>
        && View() == AfterAdmit(old(View()), st, EntryOf(x))
        && r == Answer(old(View()), st, AdmitBody(old(disk), EntryOf(x)))
    {
      var input := AdmissionInput(x);
      if input.Err? {
        return Denied(input.code);
      }
      r := AdmitExact(EntryOf(x), st);
    }

    method AdmitExact(n: Entry, st: Storage) returns (r: Reply<real>)
      modifies this`faulted, this`disk, this`active
      ensures View() == AfterAdmit(old(View()), st, n)
      ensures r == Answer(old(View()), st, AdmitBody(old(disk), n))
    {
      var refusal := Begin(st);
      if refusal.Some? {
        return if refusal.value.Denied? then Denied(refusal.value.code) else Fault;
      }
      if disk.stopped {
        return Denied("global_stop");
      }
      if n.job !in disk.grants || disk.grants[n.job].revoked || n.checkRead >= disk.grants[n.job].until
         || disk.grants[n.job].fingerprint != n.fingerprint {
        return Denied("grant_unavailable");
      }
      if |disk.receipts| >= MAX_RECEIPTS {
        return Denied("receipt_capacity");
      }
      if Replayed(disk, n.execution, n.job, n.occurrence) {
        return Denied("occurrence_replayed");
      }
      if st == FailsAtCommit {
        faulted := true;
        return Fault;
      }
      var remaining := disk.grants[n.job].until - n.leaseRead;
      disk := disk.(receipts := disk.receipts[n.execution := Receipt(n.job, n.occurrence, Inflight)]);
      active := active + 1;
      return Done(Lesser(MAX_LEASE, remaining));
    }

    /** The second half of `admit`: mark the receipt spent, if storage still works. */
    method Finalise(execution: string, st: Storage) returns (r: Reply<()>)
      modifies this`faulted, this`disk
      ensures View() == After(old(View()), st, SpentBody(old(disk), execution))
      ensures r == Answer(old(View()), st, SpentBody(old(disk), execution))
    {
      var refusal := Begin(st);
      if refusal.Some? {
        return refusal.value;
      }
      if st == FailsAtCommit {
        faulted := true;
        return Fault;
      }
      if execution in disk.receipts {
        disk := disk.(receipts := disk.receipts[execution := disk.receipts[execution].(state := Spent)]);
      }
      return Done(());
    }

    /** The last step of a context, in its own critical section. */
    method Decrement()
      modifies this`active
      ensures View() == old(View()).(active := old(active) - 1)
    {
      active := active - 1;
    }

    method Close() returns (r: Reply<()>)
      modifies this`closed
      ensures View() == if r.Done? then old(View()).(closed := true) else old(View())
      ensures r == if old(closed) || old(active) == 0 then Done(()) else Denied("authority_inflight")
    {
      if closed {
        return Done(());
      }
      if active != 0 {
        return Denied("authority_inflight");
      }
      closed := true;
      return Done(());
    }
  }
}
