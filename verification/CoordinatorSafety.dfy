/** When consents can be looked up, decided and registered, by the clock and by who asks. */
module CoordinatorSafety {
  import opened Wrappers
  import opened Coordinator

  /** Waiting for a decision that can still be made. */
  predicate Open<P>(r: Record<P>, now: real) {
    r.state == Pending && now < r.expires
  }

  /** A decision takes effect exactly on a stored pending record before its expiry, and changes only that. */
  lemma DecideExactly<P>(c: Coord<P>, id: nat, approve: bool, now: real)
    ensures var (d, r) := Decide(c, id, approve, now);
      && (r.Ok? <==> id in c.records && Open(c.records[id], now))
      && (r.Ok? ==>
            && r.value == c.records[id].(state := if approve then Approved else Rejected)
            && d == c.(records := c.records[id := r.value]))
  {
  }

  /** Otherwise the answer says why, and no more happens than that an overdue record is marked expired. */
  lemma DecideRefuses<P>(c: Coord<P>, id: nat, approve: bool, now: real)
    requires !(id in c.records && Open(c.records[id], now))
    ensures var (d, r) := Decide(c, id, approve, now);
      if id !in c.records then r == Err("consent_not_found") && d == c
      else if c.records[id].state in {Approved, Rejected} then r == Err("consent_replayed") && d == c
      else r == Err("consent_expired") && d == c.(records := c.records[id := c.records[id].(state := Expired)])
  {
    if id in c.records {
      assert c.records[id := c.records[id]] == c.records;
      match c.records[id].state
      case _ =>
    }
  }

  /**
   A lookup succeeds exactly for the person and request of a pending
   record before its expiry, and changes nothing.
   */
  lemma GetExactly<P>(c: Coord<P>, id: nat, q: string, caller: string, session: string, now: real)
    ensures var (d, r) := Get(c, id, q, caller, session, now);
      && (r.Ok? <==>
            && id in c.records && Open(c.records[id], now)
            && c.records[id].requestId == q && c.records[id].caller == caller && c.records[id].session == session)
      && (r.Ok? ==> r.value == c.records[id] && d == c)
      && (id in c.records && Open(c.records[id], now) && r.Err? ==> r == Err("identity_mismatch") && d == c)
      && (!(id in c.records && Open(c.records[id], now)) ==>
            d == Decide(c, id, false, now).0 && r == Decide(c, id, false, now).1)
  {
    if id in c.records {
      assert c.records[id := c.records[id]] == c.records;
    }
  }

  /** Decided, or overdue. */
  predicate Terminal<P>(r: Record<P>, now: real) {
    r.state != Pending || r.expires <= now
  }

  lemma WasOldest<P>(c: Coord<P>, l: Limits, id: nat)
    requires id in c.records && id !in Evicted(c, l).records
    ensures |c.records| >= l.max && IsOldestTerminal(c.records, id)
  {
    var oldest :| IsOldestTerminal(c.records, oldest) && Evicted(c, l) == Remove(c, oldest);
  }

  lemma SizeIsKept<P>(c: Coord<P>, now: real)
    ensures ExpireAll(c, now).records.Keys == c.records.Keys && |ExpireAll(c, now).records| == |c.records|
  {
    var e := ExpireAll(c, now);
    assert e.records.Keys == c.records.Keys;
    assert |e.records| == |e.records.Keys| == |c.records.Keys| == |c.records|;
  }

  lemma OldestByFields<P>(c: Coord<P>, now: real, id: nat, o: nat)
    requires forall k :: k in c.records ==> c.records[k].id == k
    requires IsOldestTerminal(ExpireAll(c, now).records, id) && o in c.records && Terminal(c.records[o], now)
    ensures id in c.records && Terminal(c.records[id], now)
    ensures c.records[id].created < c.records[o].created || (c.records[id].created == c.records[o].created && id <= o)
  {
    var e := ExpireAll(c, now);
    assert e.records[o] == Refreshed(c.records[o], now) && e.records[id] == Refreshed(c.records[id], now);
    assert Before(e.records[id], e.records[o]);
  }

  lemma IdsAreKeys<P>(c: Coord<P>, l: Limits)
    requires Inv(c, l)
    ensures forall k :: k in c.records ==> c.records[k].id == k
  {
  }

  /** Only the oldest terminal record is ever evicted, and only at the bound. */
  lemma EvictsOldest<P>(c: Coord<P>, l: Limits, now: real, id: nat)
    requires Inv(c, l) && id in c.records && id !in Evicted(ExpireAll(c, now), l).records
    ensures |c.records| >= l.max && Terminal(c.records[id], now)
    ensures forall o :: o in c.records && Terminal(c.records[o], now) ==>
      c.records[id].created < c.records[o].created || (c.records[id].created == c.records[o].created && id <= o)
  {
    hide Inv, Evicted, IsOldestTerminal, Terminal;
    IdsAreKeys(c, l);
    SizeIsKept(c, now);
    WasOldest(ExpireAll(c, now), l, id);
    OldestIsTerminal(c, now, id);
    forall o | o in c.records && Terminal(c.records[o], now)
      ensures c.records[id].created < c.records[o].created || (c.records[id].created == c.records[o].created && id <= o)
    {
      OldestByFields(c, now, id, o);
    }
  }

  lemma OldestIsTerminal<P>(c: Coord<P>, now: real, id: nat)
    requires IsOldestTerminal(ExpireAll(c, now).records, id)
    ensures id in c.records && Terminal(c.records[id], now)
  {
    assert ExpireAll(c, now).records[id] == Refreshed(c.records[id], now);
  }

  /** At the bound one terminal record makes room, if there is one. */
  lemma EvictionMakesRoom<P>(c: Coord<P>, l: Limits, now: real)
    requires Inv(c, l)
    ensures var room := Evicted(ExpireAll(c, now), l);
      |room.records| < l.max <==> |c.records| < l.max || exists id :: id in c.records && Terminal(c.records[id], now)
  {
    var e := ExpireAll(c, now);
    ExpireKeepsInv(c, l, now);
    EvictKeepsInv(e, l);
    assert e.records.Keys == c.records.Keys;
    assert |e.records| == |e.records.Keys| == |c.records.Keys| == |c.records|;
    if id :| id in c.records && Terminal(c.records[id], now) {
      assert e.records[id].state != Pending;
      assert HasTerminal(e.records);
    }
    if HasTerminal(e.records) {
      var id :| id in e.records && e.records[id].state != Pending;
      assert Terminal(c.records[id], now);
    } else {
      NothingToEvict(e, l);
    }
  }

  ghost predicate Taken<P>(c: Coord<P>, q: string) {
    exists id :: id in c.records && c.records[id].requestId == q
  }

  lemma IdsAreTaken<P>(c: Coord<P>, l: Limits, q: string)
    requires Inv(c, l)
    ensures q in c.requestIds <==> Taken(c, q)
  {
    assert q in c.requestIds <==> Requested(c.records, q);
  }

  lemma RoomIsFine<P>(c: Coord<P>, l: Limits, now: real)
    requires Inv(c, l)
    ensures Inv(Evicted(ExpireAll(c, now), l), l) && Evicted(ExpireAll(c, now), l).next == c.next
  {
    hide Inv, Evicted;
    ExpireKeepsInv(c, l, now);
    EvictKeepsInv(ExpireAll(c, now), l);
  }

  /** A registration succeeds exactly when there is room and no record that stays has the same request id. */
  lemma RegisterExactly<P>(c: Coord<P>, l: Limits, q: string, caller: string, session: string, p: P, now: real)
    requires Inv(c, l)
    ensures var room := Evicted(ExpireAll(c, now), l);
      var r := Register(c, l, q, caller, session, p, now).1;
      && (r.Ok? <==> !Taken(room, q) && |room.records| < l.max)
      && (r.Ok? ==> r.value == Record(c.next, q, caller, session, now, now + l.ttl, Pending, p))
      && (r.Err? ==> r.code == if Taken(room, q) then "duplicate_consent" else "consent_unavailable")
  {
    hide Inv, Evicted, ExpireAll, Taken;
    RoomIsFine(c, l, now);
    IdsAreTaken(Evicted(ExpireAll(c, now), l), l, q);
  }

  /** After a registration, whatever is still pending has time left. */
  lemma NothingOverdueIsPending<P>(c: Coord<P>, l: Limits, q: string, caller: string, session: string, p: P, now: real,
                                   id: nat)
    requires Inv(c, l)
    ensures var d := Register(c, l, q, caller, session, p, now).0;
      id in d.records && d.records[id].state == Pending ==> now < d.records[id].expires
  {
    RegisterAdds(c, l, q, caller, session, p, now);
    if id < c.next {
      RegisterKeepsRecords(c, l, q, caller, session, p, now, id);
    }
  }

  // ----- Runs

  predicate IsDecided<P>(c: Coord<P>, id: nat) {
    id in c.records && c.records[id].state in {Approved, Rejected}
  }

  /** The step decides this record, which was pending and had time left. */
  ghost predicate DecidesInTime<P(!new)>(c: Coord<P>, op: CoordOp<P>, id: nat, final: Record<P>) {
    && op.DoDecide? && op.id == id && id in c.records
    && c.records[id].state == Pending && op.now < c.records[id].expires
    && final == c.records[id].(state := if op.approve then Approved else Rejected)
  }

  lemma {:induction false} DecidedIsKept<P(!new)>(c: Coord<P>, l: Limits, ops: seq<CoordOp<P>>, id: nat)
    requires Inv(c, l) && IsDecided(c, id)
    ensures id in ApplyAll(c, l, ops).records ==> ApplyAll(c, l, ops).records[id] == c.records[id]
    decreases |ops|
  {
    hide Inv;
    if ops != [] {
      StepKeepsInv(c, l, ops[0]);
      StepKeepsRecords(c, l, ops[0], id);
      var d := Apply(c, l, ops[0]);
      if id in d.records {
        DecidedIsKept(d, l, ops[1..], id);
      } else {
        IdIsKnown(c, l, id);
        GoneForGood(d, l, ops[1..], id);
      }
    }
  }

  lemma IdIsKnown<P>(c: Coord<P>, l: Limits, id: nat)
    requires Inv(c, l) && id in c.records
    ensures id < c.next
  {
  }

  lemma {:induction false} GoneForGood<P(!new)>(c: Coord<P>, l: Limits, ops: seq<CoordOp<P>>, id: nat)
    requires Inv(c, l) && id < c.next && id !in c.records
    ensures id !in ApplyAll(c, l, ops).records
    decreases |ops|
  {
    hide Inv;
    if ops != [] {
      StepKeepsInv(c, l, ops[0]);
      GoneStaysGone(c, l, ops[0], id);
      GoneForGood(Apply(c, l, ops[0]), l, ops[1..], id);
    }
  }

  lemma UndecidedUnlessDecided<P(!new)>(c: Coord<P>, l: Limits, op: CoordOp<P>, id: nat)
    requires Inv(c, l) && !IsDecided(c, id)
    ensures IsDecided(Apply(c, l, op), id) ==> DecidesInTime(c, op, id, Apply(c, l, op).records[id])
  {
    var d := Apply(c, l, op);
    if id in c.records {
      StepKeepsRecords(c, l, op, id);
      if op.DoDecide? {
        DecideExactly(c, op.id, op.approve, op.now);
      }
    } else if op.DoRegister? && id in d.records {
      RegisterAdds(c, l, op.requestId, op.caller, op.session, op.payload, op.now);
      if id < c.next {
        RegisterKeepsRecords(c, l, op.requestId, op.caller, op.session, op.payload, op.now, id);
      }
    }
  }

  /**
   In every run, whatever ends approved or rejected was decided, that way, by one
   step that found it pending and read a clock before its expiry.
   */
  lemma {:induction false} DecidedInTime<P(!new)>(c: Coord<P>, l: Limits, ops: seq<CoordOp<P>>, id: nat)
      returns (k: nat)
    requires Inv(c, l) && !IsDecided(c, id) && IsDecided(ApplyAll(c, l, ops), id)
    ensures k < |ops| && DecidesInTime(ApplyAll(c, l, ops[..k]), ops[k], id, ApplyAll(c, l, ops).records[id])
    decreases |ops|
  {
    hide Inv, DecidesInTime, IsDecided;
    var d := Apply(c, l, ops[0]);
    StepKeepsInv(c, l, ops[0]);
    UndecidedUnlessDecided(c, l, ops[0], id);
    if IsDecided(d, id) {
      k := 0;
      DecidedIsKept(d, l, ops[1..], id);
      DecidedIsStored(d, id);
      DecidedIsStored(ApplyAll(c, l, ops), id);
      assert ops[..0] == [];
    } else {
      var m := DecidedInTime(d, l, ops[1..], id);
      k := m + 1;
      assert ops[..k][0] == ops[0] && ops[..k][1..] == ops[1..][..m];
    }
  }

  lemma DecidedIsStored<P>(c: Coord<P>, id: nat)
    requires IsDecided(c, id)
    ensures id in c.records
  {
  }
}
