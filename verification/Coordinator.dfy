/**
 Bounded pending-consent records. Both consent coordinators of the control layer,
 for actions and for automations, run this code over their own payload `P`.
 */
module Coordinator {
  import opened Wrappers

  datatype ConsentState = Pending | Approved | Rejected | Expired

  datatype Record<+P> = Record(
    id: nat, requestId: string, caller: string, session: string,
    created: real, expires: real, state: ConsentState, payload: P)

  /** `next` stands for the random token source. */
  datatype Coord<+P> = Coord(records: map<nat, Record<P>>, requestIds: set<string>, next: nat)

  datatype Limits = Limits(max: nat, ttl: real)

  predicate ValidLimits(l: Limits) {
    l.max >= 1 && 0.0 < l.ttl <= 300.0
  }

  function Refreshed<P>(r: Record<P>, now: real): Record<P> {
    if r.state == Pending && now >= r.expires then r.(state := Expired) else r
  }

  function ExpireAll<P>(c: Coord<P>, now: real): Coord<P> {
    c.(records := map id | id in c.records :: Refreshed(c.records[id], now))
  }

  function ExpireOne<P>(c: Coord<P>, id: nat, now: real): Coord<P>
    requires id in c.records
  {
    c.(records := c.records[id := Refreshed(c.records[id], now)])
  }

  /** Oldest first; records created at the same instant keep their order of insertion. */
  predicate Before<P>(a: Record<P>, b: Record<P>) {
    a.created < b.created || (a.created == b.created && a.id <= b.id)
  }

  predicate IsOldestTerminal<P>(records: map<nat, Record<P>>, id: nat) {
    && id in records && records[id].state != Pending
    && forall o :: o in records && records[o].state != Pending ==> Before(records[id], records[o])
  }

  predicate HasTerminal<P>(records: map<nat, Record<P>>) {
    exists id :: id in records && records[id].state != Pending
  }

  function Remove<P>(c: Coord<P>, id: nat): Coord<P>
    requires id in c.records
  {
    c.(records := c.records - {id}, requestIds := c.requestIds - {c.records[id].requestId})
  }

  /** The state after eviction: at the bound, the oldest decided or expired record makes room. */
  ghost function Evicted<P>(c: Coord<P>, l: Limits): Coord<P> {
    if |c.records| >= l.max && exists id :: IsOldestTerminal(c.records, id) then
      var id :| IsOldestTerminal(c.records, id);
      Remove(c, id)
    else c
  }

  ghost predicate Requested<P>(records: map<nat, Record<P>>, s: string) {
    exists id :: id in records && records[id].requestId == s
  }

  /** Request ids are exactly those of the stored records, pairwise distinct and bounded. */
  ghost predicate Inv<P>(c: Coord<P>, l: Limits) {
    && ValidLimits(l)
    && |c.records| <= l.max
    && (forall id :: id in c.records ==> id < c.next && c.records[id].id == id)
    && (forall s :: s in c.requestIds <==> Requested(c.records, s))
    && (forall i, j :: i in c.records && j in c.records && i != j ==> c.records[i].requestId != c.records[j].requestId)
  }

  lemma {:induction false} MinimumExists<P>(records: map<nat, Record<P>>, ids: set<nat>) returns (m: nat)
    requires ids != {} && ids <= records.Keys
    requires forall id :: id in records ==> records[id].id == id
    ensures m in ids && forall o :: o in ids ==> Before(records[m], records[o])
    decreases ids
  {
    var x :| x in ids;
    if ids == {x} {
      m := x;
    } else {
      m := MinimumExists(records, ids - {x});
      if Before(records[x], records[m]) {
        m := x;
      }
    }
  }

  lemma OldestExists<P>(c: Coord<P>, l: Limits)
    requires Inv(c, l) && HasTerminal(c.records)
    ensures exists id :: IsOldestTerminal(c.records, id)
  {
    var terminal := set id | id in c.records && c.records[id].state != Pending;
    var t :| t in c.records && c.records[t].state != Pending;
    assert t in terminal;
    var m := MinimumExists(c.records, terminal);
    assert IsOldestTerminal(c.records, m);
  }

  lemma OldestUnique<P>(c: Coord<P>, l: Limits, i: nat, j: nat)
    requires Inv(c, l) && IsOldestTerminal(c.records, i) && IsOldestTerminal(c.records, j)
    ensures i == j
  {
    assert Before(c.records[i], c.records[j]) && Before(c.records[j], c.records[i]);
  }

  /** Maps of records that agree on keys and ids satisfy the invariant together. */
  lemma SameIdsSameInv<P>(c: Coord<P>, l: Limits, records: map<nat, Record<P>>)
    requires Inv(c, l) && records.Keys == c.records.Keys
    requires forall id :: id in records ==> records[id].id == id && records[id].requestId == c.records[id].requestId
    ensures Inv(c.(records := records), l)
  {
    assert |records| == |records.Keys| == |c.records.Keys| == |c.records|;
    forall s ensures Requested(records, s) <==> Requested(c.records, s) {
      if id :| id in records && records[id].requestId == s {
        assert c.records[id].requestId == s;
      }
      if id :| id in c.records && c.records[id].requestId == s {
        assert records[id].requestId == s;
      }
    }
  }

  lemma ExpireKeepsInv<P>(c: Coord<P>, l: Limits, now: real)
    requires Inv(c, l)
    ensures Inv(ExpireAll(c, now), l)
  {
    SameIdsSameInv(c, l, ExpireAll(c, now).records);
  }

  lemma RemoveKeepsInv<P>(c: Coord<P>, l: Limits, id: nat)
    requires Inv(c, l) && id in c.records
    ensures Inv(Remove(c, id), l) && |Remove(c, id).records| == |c.records| - 1
  {
    var d := Remove(c, id);
    assert d.records.Keys == c.records.Keys - {id};
    assert |d.records| == |d.records.Keys| == |c.records.Keys| - 1;
    forall s ensures s in d.requestIds <==> Requested(d.records, s) {
      if s in d.requestIds {
        var o :| o in c.records && c.records[o].requestId == s;
        assert o in d.records && d.records[o].requestId == s;
      }
      if o :| o in d.records && d.records[o].requestId == s {
        assert Requested(c.records, s);
      }
    }
  }

  lemma EvictedIsOldest<P>(c: Coord<P>, l: Limits, id: nat)
    requires Inv(c, l) && |c.records| >= l.max && IsOldestTerminal(c.records, id)
    ensures Evicted(c, l) == Remove(c, id) && |Remove(c, id).records| < l.max
  {
    RemoveKeepsInv(c, l, id);
    var chosen :| IsOldestTerminal(c.records, chosen) && Evicted(c, l) == Remove(c, chosen);
    OldestUnique(c, l, id, chosen);
  }

  lemma NothingToEvict<P>(c: Coord<P>, l: Limits)
    requires !(|c.records| >= l.max && HasTerminal(c.records))
    ensures Evicted(c, l) == c
  {
  }

  lemma EvictKeepsInv<P>(c: Coord<P>, l: Limits)
    requires Inv(c, l)
    ensures Inv(Evicted(c, l), l)
    ensures |c.records| < l.max ==> Evicted(c, l) == c
    ensures |c.records| >= l.max && HasTerminal(c.records) ==> |Evicted(c, l).records| < l.max
    ensures Evicted(c, l).next == c.next
    ensures forall id :: id in c.records && c.records[id].state == Pending ==>
      id in Evicted(c, l).records && Evicted(c, l).records[id] == c.records[id]
    ensures forall id :: id in Evicted(c, l).records ==> id in c.records && Evicted(c, l).records[id] == c.records[id]
  {
    if |c.records| >= l.max && HasTerminal(c.records) {
      OldestExists(c, l);
      var id :| IsOldestTerminal(c.records, id) && Evicted(c, l) == Remove(c, id);
      RemoveKeepsInv(c, l, id);
    }
  }

  function NewRecord<P>(c: Coord<P>, l: Limits, requestId: string, caller: string, session: string, p: P, now: real)
    : Record<P>
  {
    Record(c.next, requestId, caller, session, now, now + l.ttl, Pending, p)
  }

  predicate Holds<P(==)>(c: Coord<P>, r: Record<P>) {
    r.id in c.records && c.records[r.id] == r
  }

  function Insert<P>(c: Coord<P>, r: Record<P>): Coord<P> {
    Coord(c.records[r.id := r], c.requestIds + {r.requestId}, c.next + 1)
  }

  ghost function Register<P>(c: Coord<P>, l: Limits, requestId: string, caller: string, session: string, p: P,
                             now: real)
    : (Coord<P>, Result<Record<P>>)
  {
    var room := Evicted(ExpireAll(c, now), l);
    if requestId in room.requestIds then (room, Err("duplicate_consent"))
    else if |room.records| >= l.max then (room, Err("consent_unavailable"))
    else
      var r := NewRecord(room, l, requestId, caller, session, p, now);
      (Insert(room, r), Ok(r))
  }

  function Refusal(s: ConsentState): Option<string> {
    if s == Expired then Some("consent_expired")
    else if s != Pending then Some("consent_replayed")
    else None
  }

  function Get<P>(c: Coord<P>, id: nat, requestId: string, caller: string, session: string, now: real)
    : (Coord<P>, Result<Record<P>>)
  {
    if id !in c.records then (c, Err("consent_not_found"))
    else
      var r := Refreshed(c.records[id], now);
      var d := ExpireOne(c, id, now);
      if Refusal(r.state).Some? then (d, Err(Refusal(r.state).value))
      else if r.requestId != requestId || r.caller != caller || r.session != session then (d, Err("identity_mismatch"))
      else (d, Ok(r))
  }

  function Decide<P>(c: Coord<P>, id: nat, approve: bool, now: real): (Coord<P>, Result<Record<P>>) {
    if id !in c.records then (c, Err("consent_not_found"))
    else
      var r := Refreshed(c.records[id], now);
      if Refusal(r.state).Some? then (ExpireOne(c, id, now), Err(Refusal(r.state).value))
      else
        var decided := r.(state := if approve then Approved else Rejected);
        (c.(records := c.records[id := decided]), Ok(decided))
  }

  datatype CoordOp<+P> =
    | DoRegister(requestId: string, caller: string, session: string, payload: P, now: real)
    | DoGet(id: nat, requestId: string, caller: string, session: string, now: real)
    | DoDecide(id: nat, approve: bool, now: real)

  ghost function Apply<P>(c: Coord<P>, l: Limits, op: CoordOp<P>): Coord<P> {
    match op
    case DoRegister(q, cl, ss, p, now) => Register(c, l, q, cl, ss, p, now).0
    case DoGet(id, q, cl, ss, now) => Get(c, id, q, cl, ss, now).0
    case DoDecide(id, approve, now) => Decide(c, id, approve, now).0
  }

  predicate Decides<P>(c: Coord<P>, op: CoordOp<P>, id: nat) {
    op.DoDecide? && op.id == id && Decide(c, id, op.approve, op.now).1.Ok?
  }

  lemma InsertKeepsInv<P>(c: Coord<P>, l: Limits, r: Record<P>)
    requires Inv(c, l) && r.id == c.next && r.requestId !in c.requestIds && |c.records| < l.max
    ensures Inv(Insert(c, r), l)
  {
    var d := Insert(c, r);
    assert r.id !in c.records;
    forall s ensures s in d.requestIds <==> Requested(d.records, s) {
      if s in c.requestIds {
        var o :| o in c.records && c.records[o].requestId == s;
        assert o in d.records && d.records[o].requestId == s;
      }
      if s == r.requestId {
        assert d.records[r.id].requestId == s;
      }
      if o :| o in d.records && d.records[o].requestId == s && o != r.id {
        assert Requested(c.records, s);
      }
    }
    forall i, j | i in d.records && j in d.records && i != j ensures d.records[i].requestId != d.records[j].requestId {
      if i == r.id { assert Requested(c.records, c.records[j].requestId); }
      if j == r.id { assert Requested(c.records, c.records[i].requestId); }
    }
  }

  /** Replacing a record by one with the same ids, as every lookup and decision does. */
  lemma ReplaceKeepsInv<P>(c: Coord<P>, l: Limits, id: nat, r: Record<P>)
    requires Inv(c, l) && id in c.records && r.id == id && r.requestId == c.records[id].requestId
    ensures Inv(c.(records := c.records[id := r]), l)
  {
    SameIdsSameInv(c, l, c.records[id := r]);
  }

  /** Making room keeps known records, expired ones marked so, and never drops a pending one. */
  lemma RoomIsKnown<P>(c: Coord<P>, l: Limits, now: real)
    requires Inv(c, l)
    ensures Inv(ExpireAll(c, now), l)
    ensures var room := Evicted(ExpireAll(c, now), l);
      && room.next == c.next
      && (forall id :: id in room.records ==> id in c.records && room.records[id] == Refreshed(c.records[id], now))
      && (forall id :: id in c.records && id !in room.records ==> Refreshed(c.records[id], now).state != Pending)
  {
    ExpireKeepsInv(c, l, now);
    EvictKeepsInv(ExpireAll(c, now), l);
    assert forall id :: id in c.records ==> ExpireAll(c, now).records[id] == Refreshed(c.records[id], now);
  }

  lemma RegisterKeepsInv<P>(c: Coord<P>, l: Limits, q: string, cl: string, ss: string, p: P, now: real)
    requires Inv(c, l)
    ensures Inv(Register(c, l, q, cl, ss, p, now).0, l) && c.next <= Register(c, l, q, cl, ss, p, now).0.next
  {
    ExpireKeepsInv(c, l, now);
    EvictKeepsInv(ExpireAll(c, now), l);
    var room := Evicted(ExpireAll(c, now), l);
    if Register(c, l, q, cl, ss, p, now).1.Ok? {
      InsertKeepsInv(room, l, NewRecord(room, l, q, cl, ss, p, now));
    }
  }

  lemma LookupKeepsInv<P>(c: Coord<P>, l: Limits, id: nat, q: string, cl: string, ss: string, now: real)
    requires Inv(c, l)
    ensures Inv(Get(c, id, q, cl, ss, now).0, l)
  {
    if id in c.records {
      ReplaceKeepsInv(c, l, id, Refreshed(c.records[id], now));
    }
  }

  lemma DecisionKeepsInv<P>(c: Coord<P>, l: Limits, id: nat, approve: bool, now: real)
    requires Inv(c, l)
    ensures Inv(Decide(c, id, approve, now).0, l)
  {
    if id in c.records {
      ReplaceKeepsInv(c, l, id, Refreshed(c.records[id], now));
      ReplaceKeepsInv(c, l, id, Refreshed(c.records[id], now).(state := if approve then Approved else Rejected));
    }
  }

  lemma StepKeepsInv<P>(c: Coord<P>, l: Limits, op: CoordOp<P>)
    requires Inv(c, l)
    ensures Inv(Apply(c, l, op), l) && c.next <= Apply(c, l, op).next
  {
    match op
    case DoRegister(q, cl, ss, p, now) => RegisterKeepsInv(c, l, q, cl, ss, p, now);
    case DoGet(id, q, cl, ss, now) => LookupKeepsInv(c, l, id, q, cl, ss, now);
    case DoDecide(id, approve, now) => DecisionKeepsInv(c, l, id, approve, now);
  }

  /** How one stored record may differ after a step: only its state, and only out of `Pending`. */
  ghost predicate Progress<P>(a: Record<P>, b: Record<P>) {
    b == a.(state := b.state) && (a.state != Pending ==> b == a)
  }

  lemma RegisterKeepsRecords<P>(c: Coord<P>, l: Limits, q: string, cl: string, ss: string, p: P, now: real, id: nat)
    requires Inv(c, l) && id < c.next
    ensures id in Register(c, l, q, cl, ss, p, now).0.records ==>
      id in c.records && Register(c, l, q, cl, ss, p, now).0.records[id] == Refreshed(c.records[id], now)
    ensures id in c.records && id !in Register(c, l, q, cl, ss, p, now).0.records ==>
      Refreshed(c.records[id], now).state != Pending
  {
    RoomIsKnown(c, l, now);
    RegisterIs(c, l, q, cl, ss, p, now);
  }

  /** A registration is the room that was made, or that room with one new record. */
  lemma RegisterIs<P>(c: Coord<P>, l: Limits, q: string, cl: string, ss: string, p: P, now: real)
    ensures var room := Evicted(ExpireAll(c, now), l);
      var (d, r) := Register(c, l, q, cl, ss, p, now);
      || (r.Err? && d == room)
      || (r == Ok(NewRecord(room, l, q, cl, ss, p, now)) && d == Insert(room, r.value))
  {
  }

  /** A registration adds exactly its own new record, or nothing. */
  lemma RegisterAdds<P>(c: Coord<P>, l: Limits, q: string, cl: string, ss: string, p: P, now: real)
    requires Inv(c, l)
    ensures var (d, r) := Register(c, l, q, cl, ss, p, now);
      && (forall id :: id in d.records && id >= c.next ==> r.Ok? && id == c.next)
      && (r.Ok? ==> r.value == NewRecord(c, l, q, cl, ss, p, now) && Holds(d, r.value))
      && d.next == c.next + (if r.Ok? then 1 else 0)
  {
    RoomIsKnown(c, l, now);
    RegisterIs(c, l, q, cl, ss, p, now);
  }

  lemma DecideKeepsRecords<P>(c: Coord<P>, key: nat, approve: bool, now: real, id: nat)
    requires id in c.records
    ensures id in Decide(c, key, approve, now).0.records
    ensures Progress(c.records[id], Decide(c, key, approve, now).0.records[id])
    ensures Decide(c, key, approve, now).0.records[id].state in {Approved, Rejected} && c.records[id].state == Pending
      <==> key == id && Decide(c, key, approve, now).1.Ok?
  {
  }

  lemma GetKeepsRecords<P>(c: Coord<P>, key: nat, q: string, cl: string, ss: string, now: real, id: nat)
    requires id in c.records
    ensures id in Get(c, key, q, cl, ss, now).0.records
    ensures Progress(c.records[id], Get(c, key, q, cl, ss, now).0.records[id])
    ensures Get(c, key, q, cl, ss, now).0.records[id].state in {Pending, Expired, c.records[id].state}
  {
  }

  /**
   No step removes a pending record, decided records never change, and a record
   becomes approved or rejected only by the one decision that succeeds on it.
   */
  lemma StepKeepsRecords<P>(c: Coord<P>, l: Limits, op: CoordOp<P>, id: nat)
    requires Inv(c, l) && id in c.records
    ensures id in Apply(c, l, op).records ==>
      && Progress(c.records[id], Apply(c, l, op).records[id])
      && (Apply(c, l, op).records[id].state in {Approved, Rejected} && c.records[id].state == Pending
          <==> Decides(c, op, id))
    ensures id !in Apply(c, l, op).records ==> op.DoRegister? && Refreshed(c.records[id], op.now).state != Pending
    ensures Decides(c, op, id) ==> id in Apply(c, l, op).records && c.records[id].state == Pending
  {
    match op
    case DoRegister(q, cl, ss, p, now) => RegisterKeepsRecords(c, l, q, cl, ss, p, now, id);
    case DoGet(key, q, cl, ss, now) => GetKeepsRecords(c, key, q, cl, ss, now, id);
    case DoDecide(key, approve, now) => DecideKeepsRecords(c, key, approve, now, id);
  }

  /** A removed identifier never comes back. */
  lemma GoneStaysGone<P>(c: Coord<P>, l: Limits, op: CoordOp<P>, id: nat)
    requires Inv(c, l) && id < c.next && id !in c.records
    ensures id !in Apply(c, l, op).records && !Decides(c, op, id)
  {
    match op
    case DoRegister(q, cl, ss, p, now) => RegisterKeepsRecords(c, l, q, cl, ss, p, now, id);
    case _ =>
  }

  ghost function ApplyAll<P>(c: Coord<P>, l: Limits, ops: seq<CoordOp<P>>): Coord<P>
    decreases |ops|
  {
    if ops == [] then c else ApplyAll(Apply(c, l, ops[0]), l, ops[1..])
  }

  /** How many decisions on `id` succeed in a run. */
  ghost function Decisions<P>(c: Coord<P>, l: Limits, ops: seq<CoordOp<P>>, id: nat): nat
    decreases |ops|
  {
    if ops == [] then 0
    else
      (if Decides(c, ops[0], id) then 1 else 0) + Decisions(Apply(c, l, ops[0]), l, ops[1..], id)
  }

  lemma {:induction false} DecidedStays<P>(c: Coord<P>, l: Limits, ops: seq<CoordOp<P>>, id: nat)
    requires Inv(c, l) && id < c.next && (id in c.records ==> c.records[id].state != Pending)
    ensures Decisions(c, l, ops, id) == 0
    decreases |ops|
  {
    if ops != [] {
      StepKeepsInv(c, l, ops[0]);
      if id in c.records {
        StepKeepsRecords(c, l, ops[0], id);
      } else {
        GoneStaysGone(c, l, ops[0], id);
      }
      DecidedStays(Apply(c, l, ops[0]), l, ops[1..], id);
    }
  }

  /** In every run the bounds and request ids agree, and each record is decided at most once. */
  lemma {:induction false} DecidedAtMostOnce<P>(c: Coord<P>, l: Limits, ops: seq<CoordOp<P>>, id: nat)
    requires Inv(c, l)
    ensures Inv(ApplyAll(c, l, ops), l)
    ensures Decisions(c, l, ops, id) <= 1
    decreases |ops|
  {
    if ops != [] {
      StepKeepsInv(c, l, ops[0]);
      if Decides(c, ops[0], id) {
        StepKeepsRecords(c, l, ops[0], id);
        DecidedStays(Apply(c, l, ops[0]), l, ops[1..], id);
      }
      DecidedAtMostOnce(Apply(c, l, ops[0]), l, ops[1..], id);
    }
  }

  /** The coordinator object; each method body is one critical section. */
  class ConsentCoordinator<P> {
    const limits: Limits
    var records: map<nat, Record<P>>
    var requestIds: set<string>
    var next: nat

    function View(): Coord<P>
      reads this
    {
      Coord(records, requestIds, next)
    }

    ghost predicate Valid()
      reads this
    {
      Inv(View(), limits)
    }

    constructor (limits: Limits)
      requires ValidLimits(limits)
      ensures Valid() && View() == Coord(map[], {}, 0) && this.limits == limits
    {
      this.limits := limits;
      records, requestIds, next := map[], {}, 0;
    }

    /** Drop decided records, oldest first, until there is room or none is left. */
    method Evict()
      requires Valid()
      modifies this`records, this`requestIds
      ensures Valid() && View() == Evicted(old(View()), limits)
    {
      hide Inv, Evicted, Before, Requested;
      ghost var before := View();
      while |records| >= limits.max && HasTerminal(records)
        invariant View() == before || (View() == Evicted(before, limits) && |records| < limits.max)
        decreases |records|
      {
        OldestExists(before, limits);
        var oldest :| oldest in records && IsOldestTerminal(records, oldest);
        EvictedIsOldest(before, limits, oldest);
        requestIds := requestIds - {records[oldest].requestId};
        records := records - {oldest};
      }
      if View() == before && !(|before.records| >= limits.max && HasTerminal(before.records)) {
        NothingToEvict(before, limits);
      }
      EvictKeepsInv(before, limits);
    }

    /** Mark what has expired, then make room. */
    method MakeRoom(now: real)
      requires Valid()
      modifies this`records, this`requestIds
      ensures Valid() && View() == Evicted(ExpireAll(old(View()), now), limits)
    {
      ExpireKeepsInv(View(), limits, now);
      records := map id | id in records :: Refreshed(records[id], now);
      Evict();
    }

    /**
     Register a record, unless `refusal` says why the caller's own coordinator
     turns the request away before it takes its lock.
     */
    method DoRegister(refusal: Option<string>, requestId: string, caller: string, session: string, payload: P,
                      now: real)
      returns (r: Result<Record<P>>)
      requires Valid()
      modifies this
      ensures Valid()
      ensures refusal.Some? ==> View() == old(View()) && r == Err(refusal.value)
      ensures refusal.None? ==>
        (View(), r) == Register(old(View()), limits, requestId, caller, session, payload, now)
    {
      hide Inv, Evicted, ExpireAll;
      if refusal.Some? {
        return Err(refusal.value);
      }
      MakeRoom(now);
      if requestId in requestIds {
        return Err("duplicate_consent");
      }
      if |records| >= limits.max {
        return Err("consent_unavailable");
      }
      var record := Record(next, requestId, caller, session, now, now + limits.ttl, Pending, payload);
      Add(record);
      return Ok(record);
    }

    method Add(r: Record<P>)
      requires Valid() && r.id == next && r.requestId !in requestIds && |records| < limits.max
      modifies this
      ensures Valid() && View() == Insert(old(View()), r)
    {
      InsertKeepsInv(View(), limits, r);
      records := records[r.id := r];
      requestIds := requestIds + {r.requestId};
      next := next + 1;
    }

    method DoGet(id: nat, requestId: string, caller: string, session: string, now: real)
      returns (r: Result<Record<P>>)
      requires Valid()
      modifies this`records
      ensures Valid()
      ensures (View(), r) == Get(old(View()), id, requestId, caller, session, now)
    {
      LookupKeepsInv(View(), limits, id, requestId, caller, session, now);
      if id !in records {
        return Err("consent_not_found");
      }
      var record := Refreshed(records[id], now);
      records := records[id := record];
      if record.state == Expired {
        return Err("consent_expired");
      }
      if record.state != Pending {
        return Err("consent_replayed");
      }
      if record.requestId != requestId || record.caller != caller || record.session != session {
        return Err("identity_mismatch");
      }
      return Ok(record);
    }

    method DoDecide(id: nat, approve: bool, now: real) returns (r: Result<Record<P>>)
      requires Valid()
      modifies this`records
      ensures Valid()
      ensures (View(), r) == Decide(old(View()), id, approve, now)
    {
      DecisionKeepsInv(View(), limits, id, approve, now);
      if id !in records {
        return Err("consent_not_found");
      }
      var record := Refreshed(records[id], now);
      records := records[id := record];
      if record.state == Expired {
        return Err("consent_expired");
      }
      if record.state != Pending {
        return Err("consent_replayed");
      }
      record := record.(state := if approve then Approved else Rejected);
      records := records[id := record];
      assert records == old(records)[id := record];
      return Ok(record);
    }
  }
}
