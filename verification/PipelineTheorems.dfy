/** What holds in every run of the request, consent and execution pipeline. */
module PipelineTheorems {
  import opened Wrappers
  import A = Approvals
  import C = Coordinator
  import P = ControlPlane
  import G = Gate
  import R = Router
  import S = ControlPlaneSafety
  import opened Lifecycle
  import opened Pipeline
  import opened PipelineOwnership
  import opened PipelineSafety
  import opened PipelineRuns
  import opened PipelinePast

  function Empty(consents: C.Limits, gate: G.Limits): Pipe {
    Pipe(map[], map[], A.EMPTY_STORE, C.Coord(map[], {}, 0), consents, map[], gate, 0, map[], map[], [], false)
  }

  /** Every dispatched lifecycle has been in `Executing`. */
  ghost predicate Ran(p: Pipe) {
    forall i :: 0 <= i < |p.dispatches| ==>
      (p.dispatches[i].seat.life in p.lifes && Executing in p.lifes[p.dispatches[i].seat.life])
  }

  lemma RanStays(p: Pipe, q: Pipe)
    requires Ran(p) && Past(p, q)
    ensures Ran(q)
  {
    forall i | 0 <= i < |q.dispatches|
      ensures q.dispatches[i].seat.life in q.lifes && Executing in q.lifes[q.dispatches[i].seat.life]
    {
      var life := q.dispatches[i].seat.life;
      if i < |p.dispatches| {
        assert p.dispatches[i] == q.dispatches[i];
        var k :| 0 <= k < |p.lifes[life]| && p.lifes[life][k] == Executing;
        assert q.lifes[life][k] == Executing;
      } else {
        var h := p.lifes[life];
        assert q.lifes[life][|h| - 1] == Last(h);
      }
    }
  }

  lemma {:induction false} RunKeepsRan(p: Pipe, ops: seq<Op>)
    requires Inv(p) && Ran(p)
    ensures Ran(RunAll(p, ops))
    decreases |ops|
  {
    hide Inv, Ran, Past, Step;
    if ops != [] {
      StepKeepsInv(p, ops[0]);
      StepKeepsPast(p, ops[0]);
      RanStays(p, Step(p, ops[0]));
      RunKeepsRan(Step(p, ops[0]), ops[1..]);
    }
  }

  lemma EmptyIsFine(consents: C.Limits, gate: G.Limits)
    requires C.ValidLimits(consents)
    ensures Inv(Empty(consents, gate)) && Ran(Empty(consents, gate))
  {
  }

  /** The state that an interleaving of the endpoints reaches from an empty start. */
  ghost function Reached(consents: C.Limits, gate: G.Limits, ops: seq<Op>): Pipe {
    RunAll(Empty(consents, gate), ops)
  }

  lemma ReachedIsFine(consents: C.Limits, gate: G.Limits, ops: seq<Op>)
    requires C.ValidLimits(consents)
    ensures Inv(Reached(consents, gate, ops)) && Ran(Reached(consents, gate, ops))
  {
    hide Inv, Ran, Step;
    EmptyIsFine(consents, gate);
    RunKeepsInv(Empty(consents, gate), ops);
    RunKeepsRan(Empty(consents, gate), ops);
  }

  /** No endpoint ever attempts an illegal transition, and every history is a legal path. */
  lemma NoIllegalTransition(consents: C.Limits, gate: G.Limits, ops: seq<Op>)
    requires C.ValidLimits(consents)
    ensures var p := Reached(consents, gate, ops);
      !p.illegal && forall life :: life in p.lifes ==> LegalPath(p.lifes[life])
  {
    ReachedIsFine(consents, gate, ops);
  }

  /** A pending consent always holds a request that awaits approval, and no other consent holds it. */
  lemma PendingAwaitsApproval(consents: C.Limits, gate: G.Limits, ops: seq<Op>, c: nat)
    requires C.ValidLimits(consents)
    ensures var p := Reached(consents, gate, ops);
      c in p.coord.records && p.coord.records[c].state == C.Pending ==>
        && At(p.lifes, p.coord.records[c].payload.life, AwaitingApproval)
        && forall d :: d in p.coord.records && d != c ==>
             p.coord.records[d].payload.life != p.coord.records[c].payload.life
  {
    ReachedIsFine(consents, gate, ops);
  }

  lemma DispatchedRan(consents: C.Limits, gate: G.Limits, ops: seq<Op>, i: nat)
    requires C.ValidLimits(consents)
    ensures var p := Reached(consents, gate, ops);
      i < |p.dispatches| ==>
        var life := p.dispatches[i].seat.life;
        life in p.lifes && LegalPath(p.lifes[life]) && Executing in p.lifes[life]
  {
    ReachedIsFine(consents, gate, ops);
  }

  lemma ExecutedPassedGates(h: seq<RequestState>)
    requires LegalPath(h) && Executing in h
    ensures DIRECT <= h || CONFIRMED <= h
  {
    var k :| 0 <= k < |h| && h[k] == Executing;
    ExecutingNeedsEveryGate(h, k);
  }

  /** What ran went through every gate: authentication, policy, approval and preparation, in that order, once. */
  lemma DispatchedWentThroughEveryGate(consents: C.Limits, gate: G.Limits, ops: seq<Op>, i: nat)
    requires C.ValidLimits(consents)
    ensures var p := Reached(consents, gate, ops);
      i < |p.dispatches| ==>
        var life := p.dispatches[i].seat.life;
        life in p.lifes && (DIRECT <= p.lifes[life] || CONFIRMED <= p.lifes[life])
  {
    DispatchedRan(consents, gate, ops, i);
    var p := Reached(consents, gate, ops);
    if i < |p.dispatches| {
      ExecutedPassedGates(p.lifes[p.dispatches[i].seat.life]);
    }
  }

  lemma DispatchFacts(p: Pipe, i: nat)
    requires Inv(p)
    ensures i < |p.dispatches| ==>
      && Reevaluated(p.dispatches[i]) && Backed(p.dispatches[i], p.store, p.taken)
      && Seated(p.dispatches[i].seat, p.registered)
    ensures forall j :: i < j < |p.dispatches| ==> p.dispatches[i].seat.life != p.dispatches[j].seat.life
  {
  }

  /** Each registration, and each lifecycle, is dispatched at most once. */
  lemma DispatchedAtMostOnce(consents: C.Limits, gate: G.Limits, ops: seq<Op>, i: nat, j: nat)
    requires C.ValidLimits(consents)
    ensures var p := Reached(consents, gate, ops);
      i < j < |p.dispatches| ==>
        && p.dispatches[i].seat.registration != p.dispatches[j].seat.registration
        && p.dispatches[i].seat.life != p.dispatches[j].seat.life
  {
    ReachedIsFine(consents, gate, ops);
    DispatchFacts(Reached(consents, gate, ops), i);
    DispatchFacts(Reached(consents, gate, ops), j);
  }

  /** A dispatch runs exactly the invocation that was just rebuilt from the request it was asked to execute. */
  lemma DispatchIsReevaluated(consents: C.Limits, gate: G.Limits, ops: seq<Op>, i: nat)
    requires C.ValidLimits(consents)
    ensures var p := Reached(consents, gate, ops);
      i < |p.dispatches| ==>
        var d := p.dispatches[i];
        && d.rebuilt.invocation == Some(d.invocation)
        && d.rebuilt.outcome == d.outcome != P.MustBeDenied
        && d.rebuilt.fingerprint == P.Fingerprint(d.rebuilt.capability, d.request.proposal)
        && d.request.proposal.caller == d.context.caller && d.request.proposal.session == d.context.session
  {
    ReachedIsFine(consents, gate, ops);
    DispatchFacts(Reached(consents, gate, ops), i);
  }

  /**
   What runs is the request that was asked for: its action with its arguments, in
   the capability it names as some registry lists it, by one of its candidates,
   with the fallbacks that routing puts after it.
   */
  lemma DispatchRunsTheRequest(consents: C.Limits, gate: G.Limits, ops: seq<Op>, i: nat)
    requires C.ValidLimits(consents)
    ensures var p := Reached(consents, gate, ops);
      i < |p.dispatches| ==>
        var d := p.dispatches[i];
        && d.invocation.action == d.request.proposal.action
        && d.invocation.arguments == d.request.proposal.arguments
        && d.invocation.caller == d.context.caller && d.invocation.session == d.context.session
        && exists w: P.Snapshot, r: R.Decision ::
             && S.EntersCapability(d.invocation, w.registry, d.request.capabilityId)
             && S.RoutedTo(d.invocation, w.routing, d.request, r)
  {
    hide Inv, Ran, Step, S.EntersCapability, S.RoutedTo, P.RevalidateRoute;
    ReachedIsFine(consents, gate, ops);
    var p := Reached(consents, gate, ops);
    DispatchFacts(p, i);
    if i < |p.dispatches| {
      var d := p.dispatches[i];
      var w :| Builds(w, d.request, d.rebuilt);
      S.InvocationIsTheRequest(w, d.request);
    }
  }

  /**
   A dispatch that needed confirmation is backed by a consumed approval whose
   fingerprint, caller and session are those of the re-evaluated request; one
   that did not need it uses none.
   */
  lemma ConfirmedDispatchIsApproved(consents: C.Limits, gate: G.Limits, ops: seq<Op>, i: nat)
    requires C.ValidLimits(consents)
    ensures var p := Reached(consents, gate, ops);
      i < |p.dispatches| ==>
        var d := p.dispatches[i];
        && (d.outcome == P.RequiresConfirmation <==> d.approval.Some?)
        && (d.approval.Some? ==>
              && d.approval.value in p.store.records
              && p.store.records[d.approval.value].state == A.Consumed
              && A.Matches(p.store.records[d.approval.value], P.Fingerprint(d.rebuilt.capability, d.request.proposal),
                           d.request.proposal.caller, d.request.proposal.session))
  {
    ReachedIsFine(consents, gate, ops);
    DispatchFacts(Reached(consents, gate, ops), i);
  }

  /** No approval backs two dispatches, and one that backs a dispatch can never be consumed again. */
  lemma ApprovalBacksOneDispatch(consents: C.Limits, gate: G.Limits, ops: seq<Op>, i: nat, j: nat, op: A.StoreOp)
    requires C.ValidLimits(consents)
    ensures var p := Reached(consents, gate, ops);
      i < |p.dispatches| && p.dispatches[i].approval.Some? ==>
        && (j < |p.dispatches| && j != i ==> p.dispatches[j].approval != p.dispatches[i].approval)
        && !A.Consumes(p.store, op, p.dispatches[i].approval.value)
  {
    ReachedIsFine(consents, gate, ops);
    var p := Reached(consents, gate, ops);
    DispatchFacts(p, i);
    DispatchFacts(p, j);
    if op.DoConsume? {
      A.ConsumeIsExact(p.store, op.id, op.binding, op.caller, op.session, op.now, op.stamp);
    }
  }
}
