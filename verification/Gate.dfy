/** The execution gate: registration of prepared requests and final revalidation. */
module Gate {
  import opened Wrappers
  import opened Digests
  import A = Approvals
  import P = ControlPlane
  import L = Lifecycle

  /** `genuine` says that the context came from the authentication boundary of this gate. */
  datatype Context = Context(requestId: string, caller: string, session: string, genuine: bool)

  datatype Limits = Limits(ttl: real, max: nat)

  predicate ValidLimits(l: Limits) {
    0.0 < l.ttl <= 300.0 && l.max >= 1
  }

  datatype Category =
    | PolicyDenied | StalePreparation | DuplicateExecution | ApprovalInvalid
    | RoutingMismatch | InvalidRequest | TargetContextChanged

  /** `life` is the lifecycle the entry shares with whoever prepared the request. */
  datatype Entry<+T> = Entry(
    request: P.ControlRequest, result: P.PathResult, approval: Option<nat>, life: T, expiresAt: real)

  predicate SamePerson(c: Context, r: P.ControlRequest) {
    r.proposal.caller == c.caller && r.proposal.session == c.session
  }

  /** `_require_matching_approval`: validly consumed, unexpired, and exact. */
  predicate ApprovalMatches(s: A.Store, id: nat, fingerprint: Digest, c: Context, lookup: real, now: real) {
    var a := A.Current(s, id, lookup);
    && a.Ok?
    && a.value.state == A.Consumed
    && now < a.value.expiresAt
    && A.Matches(a.value, fingerprint, c.caller, c.session)
  }

  /** What `register_prepared` checks before it looks at approvals. */
  predicate Registrable(c: Context, r: P.ControlRequest, res: P.PathResult, state: L.RequestState,
                        approval: Option<nat>) {
    && c.genuine
    && state == L.Prepared
    && res.invocation.Some?
    && SamePerson(c, r)
    && res.invocation.value.caller == c.caller
    && res.invocation.value.session == c.session
    && (res.outcome == P.RequiresConfirmation <==> approval.Some?)
  }

  function Purged<T>(prepared: map<string, Entry<T>>, now: real): map<string, Entry<T>> {
    map id | id in prepared && now < prepared[id].expiresAt :: prepared[id]
  }

  /** The locked part of registration: purge what expired, then insert if the id is free and there is room. */
  function Inserts<T>(prepared: map<string, Entry<T>>, id: string, l: Limits, now: real): bool {
    id !in Purged(prepared, now) && |Purged(prepared, now)| < l.max
  }

  function Inserted<T>(prepared: map<string, Entry<T>>, id: string, e: Entry<T>, l: Limits, now: real)
    : map<string, Entry<T>>
  {
    if Inserts(prepared, id, l, now) then Purged(prepared, now)[id := e] else Purged(prepared, now)
  }

  lemma Subset<T>(a: set<T>, b: set<T>)
    requires a <= b
    ensures |a| <= |b| && (a != b ==> |a| < |b|)
  {
    assert b == a + (b - a);
  }

  lemma PurgeShrinks<T>(m: map<string, Entry<T>>, now: real)
    ensures |Purged(m, now)| <= |m|
    ensures Purged(m, now).Keys != m.Keys ==> |Purged(m, now)| < |m|
  {
    var n := Purged(m, now);
    assert n.Keys <= m.Keys;
    Subset(n.Keys, m.Keys);
    assert |n| == |n.Keys| && |m| == |m.Keys|;
  }

  /** A request id that is already registered can be registered again exactly when its preparation has expired. */
  lemma RegistersAgainAfterExpiry<T>(prepared: map<string, Entry<T>>, id: string, l: Limits, now: real)
    requires id in prepared && |prepared| <= l.max
    ensures Inserts(prepared, id, l, now) <==> now >= prepared[id].expiresAt
  {
    PurgeShrinks(prepared, now);
    assert id in Purged(prepared, now) <==> now < prepared[id].expiresAt;
  }

  /** Everything `_revalidation_error` reads: clocks, the approval store, a fresh evaluation and the target check. */
  datatype Evidence = Evidence(now: real, lookup: real, approvalNow: real, rebuilt: P.Reply, targetHolds: bool)

  function RevalidationError<T>(c: Context, e: Entry<T>, current: P.ControlRequest, s: A.Store,
                                v: Evidence): Option<Category>
    requires e.result.invocation.Some?
  {
    var inv := e.result.invocation.value;
    if v.now >= e.expiresAt then Some(StalePreparation)
    else if !SamePerson(c, current) || !SamePerson(c, e.request) then Some(PolicyDenied)
    else if e.result.outcome == P.RequiresConfirmation
         && (e.approval.None? || !ApprovalMatches(s, e.approval.value, inv.fingerprint, c, v.lookup, v.approvalNow))
    then Some(ApprovalInvalid)
    else match v.rebuilt
      case RoutingError => Some(RoutingMismatch)
      case PlaneError => Some(PolicyDenied)
      case Broken => Some(InvalidRequest)
      case Ready(again) =>
        if again.outcome != e.result.outcome then Some(PolicyDenied)
        else if again.fingerprint != inv.fingerprint then Some(StalePreparation)
        else if again.invocation != Some(inv) then Some(RoutingMismatch)
        else if !v.targetHolds then Some(TargetContextChanged)
        else None
  }

  /** Whether revalidation reads the approval store, which lazily expires what it reads. */
  predicate LooksUpApproval<T>(c: Context, e: Entry<T>, current: P.ControlRequest, v: Evidence) {
    && v.now < e.expiresAt && SamePerson(c, current) && SamePerson(c, e.request)
    && e.result.outcome == P.RequiresConfirmation && e.approval.Some?
  }

  /** The answer of the first locked block of `execute`. */
  datatype Verdict = Unknown | Duplicate | Refused(category: Category) | Go

  function Judge<T>(prepared: map<string, Entry<T>>, c: Context, state: L.RequestState, current: P.ControlRequest,
                    s: A.Store, v: Evidence): Verdict
    requires c.requestId in prepared ==> prepared[c.requestId].result.invocation.Some?
  {
    if c.requestId !in prepared then Unknown
    else if state != L.Prepared then Duplicate
    else match RevalidationError(c, prepared[c.requestId], current, s, v)
      case Some(k) => Refused(k)
      case None => Go
  }

  /** What letting a request through means: every condition of the gate, and nothing else. */
  lemma GoExactly<T>(c: Context, e: Entry<T>, current: P.ControlRequest, s: A.Store, v: Evidence)
    requires e.result.invocation.Some?
    ensures RevalidationError(c, e, current, s, v).None? <==>
      && v.now < e.expiresAt
      && SamePerson(c, current) && SamePerson(c, e.request)
      && (e.result.outcome == P.RequiresConfirmation ==>
            && e.approval.Some?
            && ApprovalMatches(s, e.approval.value, e.result.invocation.value.fingerprint, c, v.lookup, v.approvalNow))
      && v.rebuilt.Ready?
      && v.rebuilt.result.outcome == e.result.outcome
      && v.rebuilt.result.fingerprint == e.result.invocation.value.fingerprint
      && v.rebuilt.result.invocation == e.result.invocation
      && v.targetHolds
  {
  }

  /**
   An honest request is never refused: same request, same inputs to health, policy
   and routing, unexpired preparation and approval, and a target that still holds.
   */
  lemma UnchangedIsNeverRefused<T>(c: Context, e: Entry<T>, w: P.Snapshot, s: A.Store, v: Evidence,
                                   consumed: A.Approval)
    requires SamePerson(c, e.request) && v.now < e.expiresAt && v.targetHolds
    requires v.rebuilt == P.RevalidateRoute(w, e.request)
    requires e.result.invocation.Some?
    requires e.approval.None? ==> P.Prepare(w, e.request) == P.Ready(e.result)
    requires e.approval.Some? ==>
      && P.PrepareConfirmed(w, e.request, consumed) == P.Ready(e.result)
      && e.approval.value in s.records && s.records[e.approval.value] == consumed
      && v.approvalNow < consumed.expiresAt
    ensures RevalidationError(c, e, e.request, s, v).None?
  {
    hide P.RevalidateRoute, P.CheckPolicy, P.PrepareRoute;
    if e.approval.None? {
      P.RevalidationRebuildsDirect(w, e.request);
    } else {
      P.RevalidationRebuildsConfirmed(w, e.request, consumed);
    }
  }

  /** A stored approval matches exactly if it was consumed, has time left, and is for this fingerprint and person. */
  lemma MatchesExactly(s: A.Store, id: nat, fingerprint: Digest, c: Context, lookup: real, now: real)
    ensures ApprovalMatches(s, id, fingerprint, c, lookup, now) <==>
      && id in s.records && s.records[id].state == A.Consumed && now < s.records[id].expiresAt
      && s.records[id].binding == fingerprint && s.records[id].caller == c.caller && s.records[id].session == c.session
  {
  }

  /** The first of these checks that fails, if one does. */
  function FirstFailing(checks: seq<(bool, Category)>): Option<Category> {
    if checks == [] then None else if !checks[0].0 then Some(checks[0].1) else FirstFailing(checks[1..])
  }

  /** What a revalidation checks, in order, with the category of each failure. */
  function Checks<T>(c: Context, e: Entry<T>, current: P.ControlRequest, s: A.Store, v: Evidence): seq<(bool, Category)>
    requires e.result.invocation.Some?
  {
    var inv, again := e.result.invocation.value, v.rebuilt;
    [(v.now < e.expiresAt, StalePreparation),
     (current.proposal.caller == c.caller && current.proposal.session == c.session, PolicyDenied),
     (e.request.proposal.caller == c.caller && e.request.proposal.session == c.session, PolicyDenied),
     (e.result.outcome == P.RequiresConfirmation ==> e.approval.Some?, ApprovalInvalid),
     (e.result.outcome == P.RequiresConfirmation && e.approval.Some? ==>
        ApprovalMatches(s, e.approval.value, inv.fingerprint, c, v.lookup, v.approvalNow), ApprovalInvalid),
     (!again.RoutingError?, RoutingMismatch),
     (!again.PlaneError?, PolicyDenied),
     (!again.Broken?, InvalidRequest),
     (again.Ready? ==> again.result.outcome == e.result.outcome, PolicyDenied),
     (again.Ready? ==> again.result.fingerprint == inv.fingerprint, StalePreparation),
     (again.Ready? ==> again.result.invocation == Some(inv), RoutingMismatch),
     (v.targetHolds, TargetContextChanged)]
  }

  lemma {:induction false} FirstFailingAt(checks: seq<(bool, Category)>, k: nat)
    requires k < |checks| && !checks[k].0 && forall i :: 0 <= i < k ==> checks[i].0
    ensures FirstFailing(checks) == Some(checks[k].1)
    decreases k
  {
    if k > 0 {
      FirstFailingAt(checks[1..], k - 1);
    }
  }

  lemma {:induction false} NoneFailing(checks: seq<(bool, Category)>)
    requires forall i :: 0 <= i < |checks| ==> checks[i].0
    ensures FirstFailing(checks) == None
    decreases |checks|
  {
    if checks != [] {
      NoneFailing(checks[1..]);
    }
  }

  /** A refusal carries the category of the first check that fails, and there is no refusal if none does. */
  lemma RefusedForFirstFailure<T>(c: Context, e: Entry<T>, current: P.ControlRequest, s: A.Store, v: Evidence)
    requires e.result.invocation.Some?
    ensures RevalidationError(c, e, current, s, v) == FirstFailing(Checks(c, e, current, s, v))
  {
    hide FirstFailing, ApprovalMatches;
    var checks := Checks(c, e, current, s, v);
    if forall i :: 0 <= i < |checks| ==> checks[i].0 {
      NoneFailing(checks);
      assert checks[0].0 && checks[1].0 && checks[2].0 && checks[3].0 && checks[4].0 && checks[5].0 && checks[6].0
        && checks[7].0 && checks[8].0 && checks[9].0 && checks[10].0 && checks[11].0;
    } else {
      var k := FirstIndex(checks);
      FirstFailingAt(checks, k);
      FailureIs(c, e, current, s, v, k);
    }
  }

  lemma {:induction false} FirstIndex(checks: seq<(bool, Category)>) returns (k: nat)
    requires exists i :: 0 <= i < |checks| && !checks[i].0
    ensures k < |checks| && !checks[k].0 && forall i :: 0 <= i < k ==> checks[i].0
    decreases |checks|
  {
    if checks[0].0 {
      var i :| 0 <= i < |checks| && !checks[i].0;
      assert !checks[1..][i - 1].0;
      var m := FirstIndex(checks[1..]);
      k := m + 1;
      forall i | 0 <= i < k ensures checks[i].0 {
        assert i > 0 ==> checks[i] == checks[1..][i - 1];
      }
    } else {
      k := 0;
    }
  }

  lemma FailureIs<T>(c: Context, e: Entry<T>, current: P.ControlRequest, s: A.Store, v: Evidence, k: nat)
    requires e.result.invocation.Some? && k < 12
    requires var checks := Checks(c, e, current, s, v); !checks[k].0 && forall i :: 0 <= i < k ==> checks[i].0
    ensures RevalidationError(c, e, current, s, v) == Some(Checks(c, e, current, s, v)[k].1)
  {
    hide ApprovalMatches;
    var checks := Checks(c, e, current, s, v);
    assert k > 0 ==> checks[0].0;
    assert k > 1 ==> checks[1].0;
    assert k > 2 ==> checks[2].0;
    assert k > 3 ==> checks[3].0;
    assert k > 4 ==> checks[4].0;
    assert k > 5 ==> checks[5].0;
    assert k > 6 ==> checks[6].0;
    assert k > 7 ==> checks[7].0;
    assert k > 8 ==> checks[8].0;
    assert k > 9 ==> checks[9].0;
    assert k > 10 ==> checks[10].0;
  }

  /** The unexpired registrations. */
  function Unexpired<T>(prepared: map<string, Entry<T>>, now: real): set<string> {
    set id | id in prepared && now < prepared[id].expiresAt
  }

  /** A registration is inserted exactly if its id has no unexpired one and fewer than the maximum are unexpired. */
  lemma InsertsExactly<T>(prepared: map<string, Entry<T>>, id: string, e: Entry<T>, l: Limits, now: real)
    ensures Inserts(prepared, id, l, now) <==> id !in Unexpired(prepared, now) && |Unexpired(prepared, now)| < l.max
    ensures var later := Inserted(prepared, id, e, l, now);
      && (forall o :: o in later <==> o in Unexpired(prepared, now) || (o == id && Inserts(prepared, id, l, now)))
      && (forall o :: o in Unexpired(prepared, now) ==> later[o] == prepared[o])
      && (Inserts(prepared, id, l, now) ==> later[id] == e)
  {
    assert Purged(prepared, now).Keys == Unexpired(prepared, now);
    assert |Purged(prepared, now)| == |Purged(prepared, now).Keys|;
  }

  /** The gate object. Lifecycles are shared objects. */
  class ExecutionGate {
    const limits: Limits
    const approvals: A.OneTimeApprovalStore
    var prepared: map<string, Entry<L.RequestLifecycle>>

    ghost predicate Valid()
      reads this, set id | id in prepared :: prepared[id].life
    {
      && ValidLimits(limits)
      && |prepared| <= limits.max
      && (forall id :: id in prepared ==> prepared[id].life.Valid() && prepared[id].result.invocation.Some?)
    }

    constructor (limits: Limits, approvals: A.OneTimeApprovalStore)
      requires ValidLimits(limits)
      ensures Valid() && prepared == map[] && this.limits == limits && this.approvals == approvals
    {
      this.limits, this.approvals := limits, approvals;
      prepared := map[];
    }

    /** The stored approval was validly consumed for exactly this. */
    method RequireMatchingApproval(c: Context, fingerprint: Digest, id: nat, lookup: real, now: real) returns (ok: bool)
      modifies approvals`records
      ensures ok == ApprovalMatches(old(approvals.View()), id, fingerprint, c, lookup, now)
      ensures approvals.View() == A.Looked(old(approvals.View()), id, lookup)
    {
      var a := approvals.Lookup(id, lookup);
      return a.Ok? && a.value.state == A.Consumed && now < a.value.expiresAt
          && A.Matches(a.value, fingerprint, c.caller, c.session);
    }

    /** Accept a fully prepared request for a single later execution. */
    method RegisterPrepared(c: Context, r: P.ControlRequest, res: P.PathResult, life: L.RequestLifecycle,
                            approval: Option<nat>, lookup: real, matchNow: real, now: real)
      returns (ok: bool)
      requires Valid() && life.Valid()
      modifies this`prepared, approvals`records
      ensures Valid()
      ensures ok <==>
        && Registrable(c, r, res, life.state, approval)
        && (approval.Some? ==>
              ApprovalMatches(old(approvals.View()), approval.value, res.invocation.value.fingerprint, c, lookup,
                              matchNow))
        && Inserts(old(prepared), c.requestId, limits, now)
      ensures ok ==>
        && c.genuine && life.state == L.Prepared && res.invocation.Some?
        && r.proposal.caller == c.caller && r.proposal.session == c.session
        && res.invocation.value.caller == c.caller && res.invocation.value.session == c.session
        && (res.outcome == P.RequiresConfirmation <==> approval.Some?)
      ensures ok ==>
        prepared == Inserted(old(prepared), c.requestId, Entry(r, res, approval, life, now + limits.ttl), limits, now)
      ensures !ok ==> prepared == old(prepared) || prepared == Purged(old(prepared), now)
    {
      if !Registrable(c, r, res, life.state, approval) {
        return false;
      }
      if approval.Some? {
        var matched := RequireMatchingApproval(c, res.invocation.value.fingerprint, approval.value, lookup, matchNow);
        if !matched {
          return false;
        }
      }
      ok := InsertPrepared(c.requestId, Entry(r, res, approval, life, now + limits.ttl), now);
    }

    /** The locked part: drop what expired, then insert if the request id is free and there is room. */
    method InsertPrepared(id: string, e: Entry<L.RequestLifecycle>, now: real) returns (ok: bool)
      requires Valid() && e.life.Valid() && e.result.invocation.Some?
      modifies this`prepared
      ensures Valid()
      ensures ok == Inserts(old(prepared), id, limits, now)
      ensures prepared == Inserted(old(prepared), id, e, limits, now)
    {
      PurgeShrinks(prepared, now);
      prepared := map id | id in prepared && now < prepared[id].expiresAt :: prepared[id];
      if id in prepared || |prepared| >= limits.max {
        return false;
      }
      prepared := prepared[id := e];
      return true;
    }

    /** Everything that may have changed since preparation, in the order in which it is checked. */
    method Revalidate(c: Context, e: Entry<L.RequestLifecycle>, current: P.ControlRequest, v: Evidence)
      returns (denial: Option<Category>)
      requires e.result.invocation.Some?
      modifies approvals`records
      ensures denial == RevalidationError(c, e, current, old(approvals.View()), v)
      ensures approvals.View() ==
        if LooksUpApproval(c, e, current, v) then A.Looked(old(approvals.View()), e.approval.value, v.lookup)
        else old(approvals.View())
    {
      var inv := e.result.invocation.value;
      if v.now >= e.expiresAt {
        return Some(StalePreparation);
      }
      if !SamePerson(c, current) || !SamePerson(c, e.request) {
        return Some(PolicyDenied);
      }
      if e.result.outcome == P.RequiresConfirmation {
        if e.approval.None? {
          return Some(ApprovalInvalid);
        }
        var matched := RequireMatchingApproval(c, inv.fingerprint, e.approval.value, v.lookup, v.approvalNow);
        if !matched {
          return Some(ApprovalInvalid);
        }
      }
      match v.rebuilt
      case RoutingError => return Some(RoutingMismatch);
      case PlaneError => return Some(PolicyDenied);
      case Broken => return Some(InvalidRequest);
      case Ready(again) =>
        if again.outcome != e.result.outcome {
          return Some(PolicyDenied);
        }
        if again.fingerprint != inv.fingerprint {
          return Some(StalePreparation);
        }
        if again.invocation != Some(inv) {
          return Some(RoutingMismatch);
        }
        return if v.targetHolds then None else Some(TargetContextChanged);
    }

    /** The first locked block of `execute`: judge, then move the shared lifecycle. */
    method Begin(c: Context, current: P.ControlRequest, v: Evidence) returns (verdict: Verdict)
      requires Valid() && c.genuine
      modifies approvals`records, if c.requestId in prepared then {prepared[c.requestId].life} else {}
      ensures Valid()
      ensures verdict == Judge(prepared, c, if c.requestId in prepared then old(prepared[c.requestId].life.state)
                               else L.Received,
                               current, old(approvals.View()), v)
      ensures c.requestId in prepared ==>
        var life := prepared[c.requestId].life;
        life.history ==
          (if verdict == Go then old(life.history) + [L.Executing]
           else if verdict.Refused? then old(life.history) + [L.Denied]
           else old(life.history))
      ensures approvals.View() ==
        if (verdict == Go || verdict.Refused?) && LooksUpApproval(c, prepared[c.requestId], current, v)
        then A.Looked(old(approvals.View()), prepared[c.requestId].approval.value, v.lookup)
        else old(approvals.View())
    {
      if c.requestId !in prepared {
        return Unknown;
      }
      var e := prepared[c.requestId];
      if e.life.state != L.Prepared {
        return Duplicate;
      }
      var denial := Revalidate(c, e, current, v);
      if denial.Some? {
        var _ := e.life.Transition(L.Denied);
        return Refused(denial.value);
      }
      var _ := e.life.Transition(L.Executing);
      return Go;
    }

    /** The last locked block of `execute`: record how the runtime ended. */
    method Finish(life: L.RequestLifecycle, status: L.RequestState)
      requires Valid() && life.Valid() && life.state == L.Executing
      requires status in {L.Completed, L.Denied, L.Failed}
      modifies life
      ensures Valid() && life.Valid() && life.history == old(life.history) + [status]
    {
      var _ := life.Transition(status);
    }
  }
}
