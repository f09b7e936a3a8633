/** Short-lived, exact-action, one-time approvals. */
module Approvals {
  import opened Wrappers
  import opened Digests

  datatype ApprovalState = Issued | Available | Consumed | Expired | Revoked

  datatype Approval = Approval(
    id: nat, binding: Digest, caller: string, session: string,
    issuedAt: real, expiresAt: real, state: ApprovalState, consumedAt: Option<real>)

  /** `next` stands for the random token source: a token is never handed out twice. */
  datatype Store = Store(records: map<nat, Approval>, next: nat)

  const EMPTY_STORE := Store(map[], 0)

  predicate ValidIdentity(s: string) {
    0 < |s| <= 256
  }

  predicate Matches(a: Approval, binding: Digest, caller: string, session: string) {
    a.binding == binding && a.caller == caller && a.session == session
  }

  /** The stored approval after lazy expiry. */
  function Refreshed(a: Approval, now: real): Approval {
    if a.state in {Issued, Available} && now >= a.expiresAt then a.(state := Expired) else a
  }

  function Current(s: Store, id: nat, now: real): Result<Approval> {
    if id in s.records then Ok(Refreshed(s.records[id], now)) else Err("approval_not_found")
  }

  /** The store after a lookup, which writes a lazily expired record back. */
  function Looked(s: Store, id: nat, now: real): Store {
    if id in s.records then s.(records := s.records[id := Refreshed(s.records[id], now)]) else s
  }

  function Issue(s: Store, binding: Digest, caller: string, session: string, ttl: real, now: real)
    : (Store, Result<Approval>)
  {
    if !ValidIdentity(caller) || !ValidIdentity(session) then (s, Err("invalid_identity"))
    else if !(0.0 < ttl <= 300.0) then (s, Err("invalid_ttl"))
    else
      var a := Approval(s.next, binding, caller, session, now, now + ttl, Issued, None);
      (Store(s.records[s.next := a], s.next + 1), Ok(a))
  }

  function MakeAvailable(s: Store, id: nat, now: real): (Store, Result<Approval>) {
    var looked := Looked(s, id, now);
    match Current(s, id, now)
    case Err(code) => (looked, Err(code))
    case Ok(a) =>
      if a.state != Issued then (looked, Err("illegal_approval_transition"))
      else (looked.(records := looked.records[id := a.(state := Available)]), Ok(a.(state := Available)))
  }

  function Consume(s: Store, id: nat, binding: Digest, caller: string, session: string, now: real, stamp: real)
    : (Store, Result<Approval>)
  {
    var looked := Looked(s, id, now);
    match Current(s, id, now)
    case Err(code) => (looked, Err(code))
    case Ok(a) =>
      if a.state == Consumed then (looked, Err("approval_replayed"))
      else if a.state != Available then (looked, Err("approval_unavailable"))
      else if !Matches(a, binding, caller, session) then (looked, Err("approval_mismatch"))
      else
        var c := a.(state := Consumed, consumedAt := Some(stamp));
        (looked.(records := looked.records[id := c]), Ok(c))
  }

  function Revoke(s: Store, id: nat, now: real): (Store, Result<Approval>) {
    var looked := Looked(s, id, now);
    match Current(s, id, now)
    case Err(code) => (looked, Err(code))
    case Ok(a) =>
      if a.state in {Consumed, Expired, Revoked} then (looked, Err("illegal_approval_transition"))
      else (looked.(records := looked.records[id := a.(state := Revoked)]), Ok(a.(state := Revoked)))
  }

  /** Every atomic step any thread can take on the store. */
  datatype StoreOp =
    | DoIssue(binding: Digest, caller: string, session: string, ttl: real, now: real)
    | DoMakeAvailable(id: nat, now: real)
    | DoConsume(id: nat, binding: Digest, caller: string, session: string, now: real, stamp: real)
    | DoRevoke(id: nat, now: real)
    | DoGet(id: nat, now: real)

  function Apply(s: Store, op: StoreOp): Store {
    match op
    case DoIssue(b, c, ss, ttl, now) => Issue(s, b, c, ss, ttl, now).0
    case DoMakeAvailable(id, now) => MakeAvailable(s, id, now).0
    case DoConsume(id, b, c, ss, now, stamp) => Consume(s, id, b, c, ss, now, stamp).0
    case DoRevoke(id, now) => Revoke(s, id, now).0
    case DoGet(id, now) => Looked(s, id, now)
  }

  predicate Consumes(s: Store, op: StoreOp, id: nat) {
    op.DoConsume? && op.id == id && Consume(s, id, op.binding, op.caller, op.session, op.now, op.stamp).1.Ok?
  }

  function ApplyAll(s: Store, ops: seq<StoreOp>): Store
    decreases |ops|
  {
    if ops == [] then s else ApplyAll(Apply(s, ops[0]), ops[1..])
  }

  /** How often a run of the store hands out `id` as freshly consumed. */
  function Consumptions(s: Store, ops: seq<StoreOp>, id: nat): nat
    decreases |ops|
  {
    if ops == [] then 0
    else (if Consumes(s, ops[0], id) then 1 else 0) + Consumptions(Apply(s, ops[0]), ops[1..], id)
  }

  ghost predicate WellFormed(s: Store) {
    forall id | id in s.records :: id < s.next && s.records[id].id == id
  }

  /** Where an approval may move in one step; `Consumed`, `Expired` and `Revoked` are final. */
  predicate LegalMove(a: ApprovalState, b: ApprovalState) {
    a == b || (a == Issued && b != Consumed) || (a == Available && b != Issued)
  }

  /** A step keeps every approval's subject and expiry, and moves its state only forward. */
  lemma StepKeepsApprovals(s: Store, op: StoreOp, id: nat)
    requires WellFormed(s) && id in s.records
    ensures WellFormed(Apply(s, op)) && s.next <= Apply(s, op).next
    ensures id in Apply(s, op).records
    ensures var a, b := s.records[id], Apply(s, op).records[id];
      && LegalMove(a.state, b.state)
      && b.(state := a.state, consumedAt := a.consumedAt) == a
      && (a.state == Consumed ==> a == b)
      && (b.state == Consumed && a.state != Consumed ==> Consumes(s, op, id))
  {
  }

  lemma StepKeepsWellFormed(s: Store, op: StoreOp)
    requires WellFormed(s)
    ensures WellFormed(Apply(s, op)) && s.next <= Apply(s, op).next
    ensures s.records.Keys <= Apply(s, op).records.Keys
  {
  }

  /** A consumption succeeds exactly when the approval is available, unexpired and exact. */
  lemma ConsumeIsExact(s: Store, id: nat, binding: Digest, caller: string, session: string, now: real, stamp: real)
    ensures Consume(s, id, binding, caller, session, now, stamp).1.Ok? <==>
      && id in s.records
      && s.records[id].state == Available
      && now < s.records[id].expiresAt
      && Matches(s.records[id], binding, caller, session)
    ensures Consume(s, id, binding, caller, session, now, stamp).1.Ok? ==>
      Consume(s, id, binding, caller, session, now, stamp).0
        == s.(records := s.records[id := s.records[id].(state := Consumed, consumedAt := Some(stamp))])
  {
    if id in s.records {
      var looked := Looked(s, id, now);
      assert now < s.records[id].expiresAt && s.records[id].state == Available ==> looked.records == s.records;
      assert looked.records.Keys == s.records.Keys;
      if Consume(s, id, binding, caller, session, now, stamp).1.Ok? {
        var c := Refreshed(s.records[id], now).(state := Consumed, consumedAt := Some(stamp));
        assert looked.records[id := c] == s.records[id := c];
      }
    }
  }

  /** Issuing adds one approval under a new token, for one person and one lifetime of at most five minutes. */
  lemma IssueIsExact(s: Store, binding: Digest, caller: string, session: string, ttl: real, now: real)
    ensures var (later, r) := Issue(s, binding, caller, session, ttl, now);
      && (r.Ok? <==> 1 <= |caller| <= 256 && 1 <= |session| <= 256 && 0.0 < ttl <= 300.0)
      && (r.Ok? ==>
            && r.value == Approval(s.next, binding, caller, session, now, now + ttl, Issued, None)
            && later.records == s.records[s.next := r.value] && later.next == s.next + 1)
      && (r.Err? ==> later == s)
  {
  }

  /**
   What any look at an approval leaves: one whose time has run out before
   it was used is expired, all else is kept.
   */
  lemma LookIsExact(s: Store, id: nat, now: real)
    ensures id in s.records ==>
      var a := s.records[id];
      Looked(s, id, now).records == s.records[id :=
        if (a.state == Issued || a.state == Available) && a.expiresAt <= now then a.(state := Expired) else a]
    ensures id !in s.records ==> Looked(s, id, now) == s
    ensures Looked(s, id, now).next == s.next
  {
  }

  /** An approval becomes available exactly if it was issued and its time has not run out. */
  lemma MakeAvailableIsExact(s: Store, id: nat, now: real)
    ensures var (later, r) := MakeAvailable(s, id, now);
      && (r.Ok? <==> id in s.records && s.records[id].state == Issued && now < s.records[id].expiresAt)
      && (r.Ok? ==> later == s.(records := s.records[id := s.records[id].(state := Available)]))
      && (r.Err? ==> later == Looked(s, id, now))
  {
    if id in s.records && s.records[id].state == Issued && now < s.records[id].expiresAt {
      assert s.records[id := s.records[id]] == s.records;
    }
  }

  /** An approval is revoked, for good, exactly if it was still issued or available. */
  lemma RevokeIsExact(s: Store, id: nat, now: real)
    ensures var (later, r) := Revoke(s, id, now);
      && (r.Ok? <==> id in s.records && s.records[id].state in {Issued, Available} && now < s.records[id].expiresAt)
      && (r.Ok? ==> later == s.(records := s.records[id := s.records[id].(state := Revoked)]))
      && (r.Err? ==> later == Looked(s, id, now))
  {
    if id in s.records {
      var state := s.records[id].state;
      assert state.Issued? || state.Available? || state.Consumed? || state.Expired? || state.Revoked?;
      assert s.records[id := s.records[id]] == s.records;
    }
  }

  /**
   Why a consumption is refused, in order: unknown, used already, not or
   no longer available, or for something else.
   */
  lemma ConsumeRefuses(s: Store, id: nat, binding: Digest, caller: string, session: string, now: real, stamp: real)
    ensures var (later, r) := Consume(s, id, binding, caller, session, now, stamp);
      r.Err? ==>
        && later == Looked(s, id, now)
        && r.code ==
           if id !in s.records then "approval_not_found"
           else if s.records[id].state == Consumed then "approval_replayed"
           else if s.records[id].state != Available || s.records[id].expiresAt <= now then "approval_unavailable"
           else "approval_mismatch"
  {
  }

  /** Once consumed, an approval is never consumed again, whatever the store does next. */
  lemma {:induction false} ConsumedIsFinal(s: Store, ops: seq<StoreOp>, id: nat)
    requires WellFormed(s) && id in s.records && s.records[id].state == Consumed
    ensures Consumptions(s, ops, id) == 0
    ensures id in ApplyAll(s, ops).records && ApplyAll(s, ops).records[id] == s.records[id]
    decreases |ops|
  {
    if ops != [] {
      StepKeepsApprovals(s, ops[0], id);
      ConsumedIsFinal(Apply(s, ops[0]), ops[1..], id);
    }
  }

  /** In every run, from every store, each approval is consumed at most once. */
  lemma {:induction false} ConsumedAtMostOnce(s: Store, ops: seq<StoreOp>, id: nat)
    requires WellFormed(s)
    ensures Consumptions(s, ops, id) <= 1
    decreases |ops|
  {
    if ops != [] {
      StepKeepsWellFormed(s, ops[0]);
      if Consumes(s, ops[0], id) {
        ConsumedIsFinal(Apply(s, ops[0]), ops[1..], id);
      } else {
        ConsumedAtMostOnce(Apply(s, ops[0]), ops[1..], id);
      }
    }
  }

  /**
   Expiry is decided on one clock read and the consumption time is a second one,
   so a consumed approval may carry a consumption time past its expiry.
   */
  lemma ConsumptionMayBeStampedLate(b: Digest)
    ensures exists s: Store, now: real, stamp: real ::
      && WellFormed(s)
      && Consume(s, 0, b, "c", "s", now, stamp).1.Ok?
      && Consume(s, 0, b, "c", "s", now, stamp).1.value.consumedAt == Some(stamp)
      && now <= stamp
      && stamp > Consume(s, 0, b, "c", "s", now, stamp).1.value.expiresAt
  {
    var s := Store(map[0 := Approval(0, b, "c", "s", 0.0, 30.0, Available, None)], 1);
    ConsumeIsExact(s, 0, b, "c", "s", 29.0, 31.0);
    var c := Consume(s, 0, b, "c", "s", 29.0, 31.0).1.value;
    assert c.consumedAt == Some(31.0) && c.expiresAt == 30.0;
  }

  /** The concurrent store; each method body is one critical section. */
  class OneTimeApprovalStore {
    var records: map<nat, Approval>
    var next: nat

    function View(): Store
      reads this
    {
      Store(records, next)
    }

    constructor ()
      ensures View() == EMPTY_STORE
    {
      records, next := map[], 0;
    }

    /** `fingerprint` is the digest that the given text writes out, if it has the form of one. */
    method DoIssue(fingerprint: Option<Digest>, caller: string, session: string, ttl: real, now: real)
      returns (r: Result<Approval>)
      modifies this
      ensures fingerprint.None? ==> View() == old(View()) && r == Err("invalid_fingerprint")
      ensures fingerprint.Some? ==> (View(), r) == Issue(old(View()), fingerprint.value, caller, session, ttl, now)
    {
      if fingerprint.None? {
        return Err("invalid_fingerprint");
      }
      if !ValidIdentity(caller) || !ValidIdentity(session) {
        return Err("invalid_identity");
      }
      if !(0.0 < ttl <= 300.0) {
        return Err("invalid_ttl");
      }
      var a := Approval(next, fingerprint.value, caller, session, now, now + ttl, Issued, None);
      records := records[a.id := a];
      next := next + 1;
      return Ok(a);
    }

    /** The lookup shared by every operation; expiry is written back. */
    method Lookup(id: nat, now: real) returns (r: Result<Approval>)
      modifies this`records
      ensures r == Current(old(View()), id, now) && View() == Looked(old(View()), id, now)
    {
      if id !in records {
        return Err("approval_not_found");
      }
      var a := records[id];
      if a.state in {Issued, Available} && now >= a.expiresAt {
        a := a.(state := Expired);
      }
      records := records[id := a];
      return Ok(a);
    }

    method DoMakeAvailable(id: nat, now: real) returns (r: Result<Approval>)
      modifies this`records
      ensures (View(), r) == MakeAvailable(old(View()), id, now)
    {
      r := Lookup(id, now);
      if r.Ok? {
        if r.value.state != Issued {
          return Err("illegal_approval_transition");
        }
        r := Ok(r.value.(state := Available));
        records := records[id := r.value];
      }
    }

    method DoConsume(id: nat, binding: Digest, caller: string, session: string, now: real, stamp: real)
      returns (r: Result<Approval>)
      modifies this`records
      ensures (View(), r) == Consume(old(View()), id, binding, caller, session, now, stamp)
    {
      r := Lookup(id, now);
      if r.Ok? {
        if r.value.state == Consumed {
          return Err("approval_replayed");
        }
        if r.value.state != Available {
          return Err("approval_unavailable");
        }
        if !Matches(r.value, binding, caller, session) {
          return Err("approval_mismatch");
        }
        r := Ok(r.value.(state := Consumed, consumedAt := Some(stamp)));
        records := records[id := r.value];
      }
    }

    method DoRevoke(id: nat, now: real) returns (r: Result<Approval>)
      modifies this`records
      ensures (View(), r) == Revoke(old(View()), id, now)
    {
      r := Lookup(id, now);
      if r.Ok? {
        if r.value.state in {Consumed, Expired, Revoked} {
          return Err("illegal_approval_transition");
        }
        r := Ok(r.value.(state := Revoked));
        records := records[id := r.value];
      }
    }
  }
}
