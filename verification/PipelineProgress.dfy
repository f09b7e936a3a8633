/**
 Honest requests get through. Each theorem follows one request step by step,
 with any steps of any other thread between its own, and says what those must not do.
 */
module PipelineProgress {
  import opened Wrappers
  import A = Approvals
  import C = Coordinator
  import P = ControlPlane
  import G = Gate
  import opened Lifecycle
  import opened Pipeline
  import opened PipelineOwnership
  import opened PipelineSafety
  import opened PipelineRuns
  import opened PipelineLocal
  import opened PipelineWaiting
  import opened PipelineSources
  import opened PipelineTheorems

  /** One step of the thread that is followed, and then any steps of others. */
  ghost function Then(p: Pipe, op: Op, others: seq<Op>): Pipe {
    RunAll(Step(p, op), others)
  }

  // ----- A registration that waits

  /** An evaluation against `w` builds what is registered. */
  predicate Rebuilds(w: P.Snapshot, e: G.Entry<Seat>) {
    var again := P.RevalidateRoute(w, e.request);
    && again.Ready? && again.result.outcome == e.result.outcome
    && again.result.fingerprint == e.result.fingerprint && again.result.invocation == e.result.invocation
  }

  /** The approval of this registration, if it has one, is stored and has not expired. */
  predicate Unexpired(s: A.Store, approval: Option<nat>, now: real) {
    approval.Some? ==> approval.value in s.records && now < s.records[approval.value].expiresAt
  }

  /** The same request again, by a genuine caller who is the person it was prepared for. */
  predicate Asks(c: G.Context, id: string, e: G.Entry<Seat>) {
    c.genuine && c.requestId == id && G.SamePerson(c, e.request)
  }

  /** In time, on unchanged inputs, for an unchanged target, on an approval that has not expired. */
  predicate Unchanged(e: G.Entry<Seat>, s: A.Store, env: Env) {
    && env.now < e.expiresAt && env.targetHolds
    && Rebuilds(env.w, e)
    && Unexpired(s, e.approval, env.matchNow)
  }

  lemma WaitingEntry(p: Pipe, id: string, e: G.Entry<Seat>)
    requires Inv(p) && AllEvaluated(p) && Waiting(p, id, e)
    ensures Executable(p, id) && e.result.fingerprint == e.result.invocation.value.fingerprint
    ensures e.result.outcome == P.RequiresConfirmation <==> e.approval.Some?
    ensures e.approval.Some? ==> Covers(p.store, e.approval.value, e.request, e.result)
  {
    hide Own, C.Inv, Legals, Numbered, TasksOk, Dispatched, DispatchesOk, A.WellFormed, Spent, TasksEvaluated;
    Listed(p, id);
    assert Evaluated(e.request, e.result, e.approval, p.store);
  }

  /** Whoever it was prepared for gets a waiting registration executed exactly while nothing has changed. */
  lemma WaitingGoesExactly(p: Pipe, c: G.Context, e: G.Entry<Seat>, env: Env)
    requires Inv(p) && AllEvaluated(p) && Waiting(p, c.requestId, e) && Asks(c, c.requestId, e)
    ensures Executable(p, c.requestId)
    ensures VerdictOn(p, c, e.request, env) == G.Go <==> Unchanged(e, p.store, env)
  {
    hide Inv, AllEvaluated, P.RevalidateRoute;
    WaitingEntry(p, c.requestId, e);
    G.GoExactly(c, e, e.request, p.store, EvidenceOf(e.request, env));
  }

  lemma EmptyEvaluated(consents: C.Limits, gate: G.Limits)
    ensures AllEvaluated(Empty(consents, gate))
  {
  }

  /** Every state that an interleaving reaches is one that the theorems below start from. */
  lemma ReachedIsReady(consents: C.Limits, gate: G.Limits, ops: seq<Op>)
    requires C.ValidLimits(consents)
    ensures Inv(Reached(consents, gate, ops)) && AllEvaluated(Reached(consents, gate, ops))
  {
    hide Inv, Ran, Step, AllEvaluated;
    EmptyIsFine(consents, gate);
    EmptyEvaluated(consents, gate);
    RunKeepsInv(Empty(consents, gate), ops);
    RunKeepsEvaluated(Empty(consents, gate), ops);
  }

  /** Every registration that any interleaving reaches was built by some evaluation of its request. */
  lemma RegistrationWasBuilt(consents: C.Limits, gate: G.Limits, ops: seq<Op>, id: string)
    requires C.ValidLimits(consents)
    ensures var p := Reached(consents, gate, ops);
      id in p.prepared ==> exists w :: Builds(w, p.prepared[id].request, p.prepared[id].result)
  {
    hide Inv, Step, Builds;
    ReachedIsReady(consents, gate, ops);
    var p := Reached(consents, gate, ops);
    if id in p.prepared {
      assert Evaluated(p.prepared[id].request, p.prepared[id].result, p.prepared[id].approval, p.store);
    }
  }

  /**
   Every registration of every reachable state, after any further steps that leave
   it waiting: the person it was prepared for is let through exactly if the
   preparation and the approval have not expired, the same inputs are evaluated
   to the same result, and the target still holds.
   */
  lemma RegisteredRequestGoes(consents: C.Limits, gate: G.Limits, before: seq<Op>, later: seq<Op>,
                              id: string, e: G.Entry<Seat>, c: G.Context, env: Env)
    requires C.ValidLimits(consents)
    ensures var p := Reached(consents, gate, before);
      var q := RunAll(p, later);
      Waiting(p, id, e) && !EndsIn(p, later, id, e) && Asks(c, id, e) ==>
        Executable(q, id) && (VerdictOn(q, c, e.request, env) == G.Go <==> Unchanged(e, q.store, env))
  {
    hide Inv, Step, AllEvaluated, Unchanged, Ends, Waiting, VerdictOn, Executable;
    ReachedIsReady(consents, gate, before);
    var p := Reached(consents, gate, before);
    if Waiting(p, id, e) && !EndsIn(p, later, id, e) && Asks(c, id, e) {
      RegistrationWaits(p, later, id, e);
      RunKeepsEvaluated(p, later);
      WaitingGoesExactly(RunAll(p, later), c, e, env);
    }
  }

  // ----- From a registration to the runtime

  /** This request of this person, as it was prepared, on this approval or none. */
  predicate Carried(d: Dispatch, c: G.Context, request: P.ControlRequest, res: P.PathResult, approval: Option<nat>) {
    d.context == c && d.request == request && Some(d.invocation) == res.invocation && d.approval == approval
  }

  /** One more dispatch, of this request. */
  predicate Delivered(p: Pipe, q: Pipe, c: G.Context, request: P.ControlRequest, res: P.PathResult,
                      approval: Option<nat>) {
    && |q.dispatches| == |p.dispatches| + 1 && q.dispatches[..|p.dispatches|] == p.dispatches
    && Carried(q.dispatches[|p.dispatches|], c, request, res, approval)
  }

  /** A request whose revalidation finds nothing starts executing. */
  lemma ExecuteStarts(p: Pipe, c: G.Context, e: G.Entry<Seat>, env: Env)
    requires Inv(p) && AllEvaluated(p) && Waiting(p, c.requestId, e) && Asks(c, c.requestId, e)
      && Unchanged(e, p.store, env)
    ensures var q := Step(p, Execute(c, e.request, env));
      && p.next in q.tasks && q.tasks[p.next].Run?
      && Carried(q.tasks[p.next].dispatch, c, e.request, e.result, e.approval)
  {
    hide Inv, AllEvaluated, Unchanged, Move, JudgedStore, EvidenceOf, G.RevalidationError;
    WaitingGoesExactly(p, c, e, env);
    ExecuteEnds(p, c, e.request, env);
  }

  lemma RunnerHandsOver(p: Pipe, t: nat, env: Env)
    requires Inv(p) && t in p.tasks && p.tasks[t].Run?
    ensures Step(p, Advance(t, env)).dispatches == p.dispatches + [p.tasks[t].dispatch]
  {
    hide Inv;
    GuardsHold(p, t, "");
  }

  /** Execute, and let the started thread hand over: the request reaches the runtime, whatever others do in between. */
  lemma FromWaiting(p: Pipe, q: Pipe, c: G.Context, e: G.Entry<Seat>, executed: Env, others: seq<Op>, handed: Env)
    requires Inv(p) && AllEvaluated(p) && Waiting(p, c.requestId, e) && Asks(c, c.requestId, e)
    requires Unchanged(e, p.store, executed)
    requires q == Then(p, Execute(c, e.request, executed), others) && NoneSteps(others, p.next)
    ensures Delivered(q, Step(q, Advance(p.next, handed)), c, e.request, e.result, e.approval)
  {
    hide Inv, AllEvaluated, Unchanged, Step, RunAll;
    ExecuteStarts(p, c, e, executed);
    StepKeepsInv(p, Execute(c, e.request, executed));
    ThreadWaitsOn(Step(p, Execute(c, e.request, executed)), others, p.next);
    RunnerHandsOver(q, p.next, handed);
  }

  // ----- From a thread about to register to the runtime

  /** A registrable thread, a free id and room. */
  predicate Registering(p: Pipe, t: nat, now: real) {
    && t in p.tasks && p.tasks[t].Insert?
    && G.Registrable(p.tasks[t].context, p.tasks[t].request, p.tasks[t].result, Prepared, p.tasks[t].given)
    && G.Inserts(p.prepared, p.tasks[t].context.requestId, p.gateLimits, now)
  }

  lemma InsertRegisters(p: Pipe, t: nat, env: Env)
    requires Registering(p, t, env.now) && At(p.lifes, p.tasks[t].life, Prepared)
    ensures var k := p.tasks[t]; Waiting(StepInsert(p, t, k, env), k.context.requestId, EntryOf(p, k, env.now))
  {
  }

  lemma AdvanceRegisters(p: Pipe, t: nat, env: Env)
    requires Inv(p) && Registering(p, t, env.now)
    ensures var k := p.tasks[t]; Waiting(Step(p, Advance(t, env)), k.context.requestId, EntryOf(p, k, env.now))
  {
    hide Inv, StepInsert, Waiting, G.Registrable, G.Inserts;
    Holding(p, t);
    InsertRegisters(p, t, env);
  }

  /**
   Register, execute, hand over. In between anything may happen except what ends
   the wait of the registration and the steps of the thread that executes.
   */
  lemma FromRegistering(p: Pipe, t: nat, inserted: Env, first: seq<Op>, q: Pipe,
                        executed: Env, second: seq<Op>, r: Pipe, handed: Env)
    requires Inv(p) && AllEvaluated(p) && Registering(p, t, inserted.now)
    requires q == Then(p, Advance(t, inserted), first)
    requires var k, e := p.tasks[t], EntryOf(p, p.tasks[t], inserted.now);
      && !EndsIn(Step(p, Advance(t, inserted)), first, k.context.requestId, e)
      && k.context.genuine && G.SamePerson(k.context, k.request) && Unchanged(e, q.store, executed)
      && r == Then(q, Execute(k.context, k.request, executed), second) && NoneSteps(second, q.next)
    ensures var k := p.tasks[t];
      Delivered(r, Step(r, Advance(q.next, handed)), k.context, k.request, k.result, k.given)
  {
    hide Inv, AllEvaluated, Unchanged, Step, Waiting, Ends, EndsIn, RunAll;
    var k, e := p.tasks[t], EntryOf(p, p.tasks[t], inserted.now);
    var after := Step(p, Advance(t, inserted));
    AdvanceRegisters(p, t, inserted);
    StepKeepsInv(p, Advance(t, inserted));
    StepKeepsEvaluated(p, Advance(t, inserted));
    RegistrationWaits(after, first, k.context.requestId, e);
    RunKeepsEvaluated(after, first);
    FromWaiting(q, r, k.context, e, executed, second, handed);
  }

  // ----- A direct request

  /** A well-formed call of an authenticated caller for itself. */
  predicate Proper(call: Call) {
    call.authenticated && call.decodes && call.context.genuine && G.SamePerson(call.context, call.request)
  }

  /** What a direct request is prepared to: inputs that revalidation rebuilds, for the person who asked. */
  lemma DirectDrive(call: Call, w: P.Snapshot, n: nat, res: P.PathResult)
    requires Proper(call) && P.Prepare(w, call.request) == P.Ready(res)
    requires res.outcome == P.MayProceed && res.invocation.Some?
    ensures Drive(call, w, w, n)
      == ([Authenticated, PolicyChecked, Approved, Prepared], Insert(n, call.request, res, call.context, None, false))
    ensures P.RevalidateRoute(w, call.request) == P.Ready(res)
    ensures G.Registrable(call.context, call.request, res, Prepared, None)
  {
  }

  lemma SubmitPrepares(p: Pipe, call: Call, w: P.Snapshot, res: P.PathResult)
    requires Proper(call) && P.Prepare(w, call.request) == P.Ready(res)
    requires res.outcome == P.MayProceed && res.invocation.Some?
    ensures var q := Step(p, Submit(call, w, w));
      && p.next in q.tasks && q.tasks[p.next] == Insert(p.next, call.request, res, call.context, None, false)
      && q.gateLimits == p.gateLimits
  {
    hide Walk, Drive, P.RevalidateRoute, P.Prepare;
    DirectDrive(call, w, p.next, res);
  }

  /**
   From any reachable state, with any steps of others in between: a proper request
   that may proceed reaches the runtime with exactly what was prepared, and is
   never refused on the way, if its id is free when it is registered, its inputs
   and target have not changed when it is executed, which is before its
   preparation expires, and nobody else executes its id or purges it before.
   */
  lemma UnchangedRequestRuns(p: Pipe, call: Call, w: P.Snapshot, res: P.PathResult, others: seq<Op>, p1: Pipe,
                             inserted: Env, first: seq<Op>, p2: Pipe,
                             executed: Env, second: seq<Op>, p3: Pipe, handed: Env)
    requires Inv(p) && AllEvaluated(p)
    requires Proper(call) && P.Prepare(w, call.request) == P.Ready(res)
    requires res.outcome == P.MayProceed && res.invocation.Some?
    requires p1 == Then(p, Submit(call, w, w), others) && NoneSteps(others, p.next)
    requires G.Inserts(p1.prepared, call.context.requestId, p1.gateLimits, inserted.now)
    requires p2 == Then(p1, Advance(p.next, inserted), first)
    requires !EndsIn(Step(p1, Advance(p.next, inserted)), first, call.context.requestId,
                     G.Entry(call.request, res, None, Seat(p1.next, p.next), inserted.now + p1.gateLimits.ttl))
    requires executed.w == w && executed.targetHolds && executed.now < inserted.now + p1.gateLimits.ttl
    requires p3 == Then(p2, Execute(call.context, call.request, executed), second) && NoneSteps(second, p2.next)
    ensures Delivered(p3, Step(p3, Advance(p2.next, handed)), call.context, call.request, res, None)
  {
    hide Inv, AllEvaluated, Step, EndsIn, RunAll, P.RevalidateRoute, P.Prepare, G.Registrable, G.Inserts;
    var op := Submit(call, w, w);
    DirectDrive(call, w, p.next, res);
    SubmitPrepares(p, call, w, res);
    StepKeepsInv(p, op);
    StepKeepsEvaluated(p, op);
    ThreadWaitsOn(Step(p, op), others, p.next);
    RunKeepsEvaluated(Step(p, op), others);
    FromRegistering(p1, p.next, inserted, first, p2, executed, second, p3, handed);
  }

  // ----- A request that was consented to

  /** An approval for exactly this consent, in the given state. */
  predicate For(s: A.Store, a: nat, c: Pending, expiresAt: real, state: A.ApprovalState) {
    && a in s.records && s.records[a].id == a && s.records[a].state == state && s.records[a].expiresAt == expiresAt
    && A.Matches(s.records[a], c.checked.fingerprint, c.request.proposal.caller, c.request.proposal.session)
  }

  /** The request still evaluates to what was presented, and the person is the one who asked. */
  predicate Stable(c: Pending, w: P.Snapshot, res: P.PathResult) {
    && c.context.genuine && G.SamePerson(c.context, c.request)
    && P.RevalidateRoute(w, c.request) == P.Ready(res)
    && res.outcome == P.RequiresConfirmation
    && res.fingerprint == c.checked.fingerprint
  }

  /** What a stable consent is prepared to fits its person, its fingerprint and its policy. */
  predicate Fit(c: Pending, res: P.PathResult) {
    && c.context.genuine && G.SamePerson(c.context, c.request)
    && res.outcome == P.RequiresConfirmation && res.invocation.Some?
    && res.fingerprint == res.invocation.value.fingerprint == c.checked.fingerprint
    && res.invocation.value.caller == c.context.caller && res.invocation.value.session == c.context.session
  }

  lemma StableFits(c: Pending, w: P.Snapshot, res: P.PathResult)
    requires Stable(c, w, res)
    ensures Fit(c, res)
  {
  }

  lemma StablePrepares(c: Pending, w: P.Snapshot, res: P.PathResult, a: A.Approval)
    requires Stable(c, w, res) && a.state == A.Consumed
    requires A.Matches(a, c.checked.fingerprint, c.request.proposal.caller, c.request.proposal.session)
    ensures P.PrepareConfirmed(w, c.request, a) == P.Ready(res)
  {
  }

  /** The thread that is followed is about to do `k`, in a state that a run can reach. */
  ghost predicate Due(p: Pipe, t: nat, k: Task) {
    Inv(p) && AllEvaluated(p) && t in p.tasks && p.tasks[t] == k && !k.Over?
  }

  /** What is due stays due, whatever others do. */
  lemma DueLater(p: Pipe, op: Op, others: seq<Op>, q: Pipe, t: nat, k: Task)
    requires Inv(p) && AllEvaluated(p) && t in Step(p, op).tasks && Step(p, op).tasks[t] == k && !k.Over?
    requires q == Then(p, op, others) && NoneSteps(others, t)
    ensures Due(q, t, k) && Inv(Step(p, op)) && AllEvaluated(Step(p, op))
  {
    hide Inv, AllEvaluated, Step;
    StepKeepsInv(p, op);
    StepKeepsEvaluated(p, op);
    ThreadWaitsOn(Step(p, op), others, t);
    RunKeepsEvaluated(Step(p, op), others);
  }

  /** So does its approval, while nobody else names it, or once it is consumed. */
  lemma ApprovalLater(q: Pipe, others: seq<Op>, a: nat, c: Pending, expiresAt: real, state: A.ApprovalState)
    requires Inv(q) && For(q.store, a, c, expiresAt, state) && (Unnamed(q, others, a) || state == A.Consumed)
    ensures For(RunAll(q, others).store, a, c, expiresAt, state)
  {
    hide Inv, Unnamed, RunAll;
    ApprovalWaits(q, others, a);
  }

  lemma ConsumedStays(p: Pipe, op: Op, a: nat, c: Pending, expiresAt: real)
    requires Inv(p) && For(p.store, a, c, expiresAt, A.Consumed)
    ensures For(Step(p, op).store, a, c, expiresAt, A.Consumed)
  {
    hide Inv, Step;
    StepKeepsRecord(p, op, a);
  }

  /** A pending consent that has not expired. */
  predicate Pends(p: Pipe, id: nat, c: Pending, now: real) {
    && id in p.coord.records && p.coord.records[id].payload == c
    && p.coord.records[id].state == C.Pending && now < p.coord.records[id].expires
  }

  predicate Identified(c: Pending) {
    A.ValidIdentity(c.request.proposal.caller) && A.ValidIdentity(c.request.proposal.session)
  }

  lemma DecideIssues(p: Pipe, id: nat, c: Pending, now: real)
    requires Pends(p, id, c, now)
    ensures var q := Step(p, ConsentDecide(id, true, now)); p.next in q.tasks && q.tasks[p.next] == Issue(c.life, c)
  {
  }

  lemma IssueOffers(p: Pipe, t: nat, c: Pending, env: Env)
    requires Due(p, t, Issue(c.life, c)) && Identified(c)
    ensures var q := Step(p, Advance(t, env));
      && t in q.tasks && q.tasks[t] == Offer(c.life, c, p.store.next)
      && For(q.store, p.store.next, c, env.now + 30.0, A.Issued)
  {
    hide Inv, AllEvaluated, End;
    GuardsHold(p, t, "");
  }

  lemma OfferTakes(p: Pipe, t: nat, c: Pending, a: nat, expiresAt: real, env: Env)
    requires Due(p, t, Offer(c.life, c, a)) && For(p.store, a, c, expiresAt, A.Issued) && env.lookup < expiresAt
    ensures var q := Step(p, Advance(t, env));
      && t in q.tasks && q.tasks[t] == Take(c.life, c, a) && For(q.store, a, c, expiresAt, A.Available)
  {
    hide Inv, AllEvaluated, End;
    GuardsHold(p, t, "");
  }

  function Confirmed(c: Pending, res: P.PathResult, a: nat): Task {
    MatchApproval(c.life, c.request, res, c.context, a, true)
  }

  function TakeFrom(s: A.Store, c: Pending, a: nat, env: Env): (A.Store, Result<A.Approval>) {
    A.Consume(s, a, c.checked.fingerprint, c.request.proposal.caller, c.request.proposal.session, env.lookup, env.stamp)
  }

  lemma TakenFrom(s: A.Store, c: Pending, a: nat, expiresAt: real, env: Env) returns (consumed: A.Approval)
    requires For(s, a, c, expiresAt, A.Available) && env.lookup < expiresAt
    ensures consumed.id == a && consumed.state == A.Consumed
    ensures A.Matches(consumed, c.checked.fingerprint, c.request.proposal.caller, c.request.proposal.session)
    ensures TakeFrom(s, c, a, env).1 == Ok(consumed) && For(TakeFrom(s, c, a, env).0, a, c, expiresAt, A.Consumed)
  {
    A.ConsumeIsExact(s, a, c.checked.fingerprint, c.request.proposal.caller, c.request.proposal.session, env.lookup,
                     env.stamp);
    consumed := s.records[a].(state := A.Consumed, consumedAt := Some(env.stamp));
  }

  lemma TakeConfirms(p: Pipe, t: nat, c: Pending, w: P.Snapshot, res: P.PathResult, a: nat, expiresAt: real, env: Env)
    requires Due(p, t, Take(c.life, c, a)) && For(p.store, a, c, expiresAt, A.Available) && env.lookup < expiresAt
    requires Stable(c, w, res) && env.w == w
    ensures var q := Step(p, Advance(t, env));
      && t in q.tasks && q.tasks[t] == Confirmed(c, res, a) && For(q.store, a, c, expiresAt, A.Consumed)
  {
    hide Inv, AllEvaluated, For, Stable, Walk, P.PrepareConfirmed, A.Consume;
    GuardsHold(p, t, "");
    var consumed := TakenFrom(p.store, c, a, expiresAt, env);
    StablePrepares(c, w, res, consumed);
  }

  lemma CheckMatches(p: Pipe, t: nat, c: Pending, res: P.PathResult, a: nat, expiresAt: real, env: Env)
    requires Due(p, t, Confirmed(c, res, a)) && Fit(c, res)
    requires For(p.store, a, c, expiresAt, A.Consumed) && env.matchNow < expiresAt
    ensures var q := Step(p, Advance(t, env));
      && t in q.tasks && q.tasks[t] == Matched(Confirmed(c, res, a)) && For(q.store, a, c, expiresAt, A.Consumed)
  {
    hide Inv, AllEvaluated, RefuseRegistration;
    Holding(p, t);
    GuardsHold(p, t, "");
    assert MatchingOf(p, p.tasks[t], env) == Matches;
  }

  /** What each step after an approval reads. */
  datatype Reads = Reads(issue: Env, offer: Env, take: Env, check: Env, insert: Env, execute: Env, run: Env)

  /** What others do after each step of the thread that is followed. */
  datatype Gaps = Gaps(decided: seq<Op>, issued: seq<Op>, offered: seq<Op>, taken: seq<Op>, checked: seq<Op>,
                       inserted: seq<Op>, started: seq<Op>)

  /** The states in which each next step of the thread that is followed is taken. */
  datatype Course = Course(issue: Pipe, offer: Pipe, take: Pipe, check: Pipe, insert: Pipe, execute: Pipe, run: Pipe)

  /** Decide, issue, offer, consume, check, register, execute, with others in every gap. */
  ghost predicate Follows(p: Pipe, id: nat, c: Pending, now: real, v: Reads, g: Gaps, s: Course) {
    && s.issue == Then(p, ConsentDecide(id, true, now), g.decided)
    && s.offer == Then(s.issue, Advance(p.next, v.issue), g.issued)
    && s.take == Then(s.offer, Advance(p.next, v.offer), g.offered)
    && s.check == Then(s.take, Advance(p.next, v.take), g.taken)
    && s.insert == Then(s.check, Advance(p.next, v.check), g.checked)
    && s.execute == Then(s.insert, Advance(p.next, v.insert), g.inserted)
    && s.run == Then(s.execute, Execute(c.context, c.request, v.execute), g.started)
  }

  /** Others take no step of the threads that are followed, and name the approval only once it is consumed. */
  ghost predicate Considerate(p: Pipe, g: Gaps, s: Course, v: Reads) {
    && NoneSteps(g.decided, p.next) && NoneSteps(g.issued, p.next) && NoneSteps(g.offered, p.next)
    && NoneSteps(g.taken, p.next) && NoneSteps(g.checked, p.next) && NoneSteps(g.started, s.execute.next)
    && Unnamed(Step(s.issue, Advance(p.next, v.issue)), g.issued, s.issue.store.next)
    && Unnamed(Step(s.offer, Advance(p.next, v.offer)), g.offered, s.issue.store.next)
  }

  /** The deadlines: thirty seconds from the issue of the approval, and the life of the preparation. */
  ghost predicate InTime(s: Course, w: P.Snapshot, v: Reads) {
    && v.offer.lookup < v.issue.now + 30.0 && v.take.lookup < v.issue.now + 30.0
    && v.check.matchNow < v.issue.now + 30.0 && v.execute.matchNow < v.issue.now + 30.0
    && v.execute.now < v.insert.now + s.insert.gateLimits.ttl
    && v.take.w == w && v.execute.w == w && v.execute.targetHolds
  }

  /** The id is free when the request is registered, and nothing ends the wait of its registration. */
  ghost predicate KeepsPlace(p: Pipe, c: Pending, res: P.PathResult, v: Reads, g: Gaps, s: Course) {
    && G.Inserts(s.insert.prepared, c.context.requestId, s.insert.gateLimits, v.insert.now)
    && !EndsIn(Step(s.insert, Advance(p.next, v.insert)), g.inserted, c.context.requestId,
               G.Entry(c.request, res, Some(s.issue.store.next), Seat(s.insert.next, c.life),
                       v.insert.now + s.insert.gateLimits.ttl))
  }

  /** Up to its consumption, the approval issued for the decision stays in the hands of the deciding thread. */
  lemma ApprovalIsTaken(p: Pipe, id: nat, c: Pending, now: real, w: P.Snapshot, res: P.PathResult, v: Reads, g: Gaps,
                        s: Course)
    requires Inv(p) && AllEvaluated(p) && Pends(p, id, c, now) && Identified(c) && Stable(c, w, res)
    requires Follows(p, id, c, now, v, g, s) && Considerate(p, g, s, v) && InTime(s, w, v)
    ensures Due(s.check, p.next, Confirmed(c, res, s.issue.store.next))
    ensures For(s.check.store, s.issue.store.next, c, v.issue.now + 30.0, A.Consumed)
  {
    hide Inv, AllEvaluated, Step, RunAll, For, Stable, Identified, Pends, Unnamed, NoneSteps;
    var t, a, expiresAt := p.next, s.issue.store.next, v.issue.now + 30.0;
    DecideIssues(p, id, c, now);
    DueLater(p, ConsentDecide(id, true, now), g.decided, s.issue, t, Issue(c.life, c));
    IssueOffers(s.issue, t, c, v.issue);
    DueLater(s.issue, Advance(t, v.issue), g.issued, s.offer, t, Offer(c.life, c, a));
    ApprovalLater(Step(s.issue, Advance(t, v.issue)), g.issued, a, c, expiresAt, A.Issued);
    OfferTakes(s.offer, t, c, a, expiresAt, v.offer);
    DueLater(s.offer, Advance(t, v.offer), g.offered, s.take, t, Take(c.life, c, a));
    ApprovalLater(Step(s.offer, Advance(t, v.offer)), g.offered, a, c, expiresAt, A.Available);
    TakeConfirms(s.take, t, c, w, res, a, expiresAt, v.take);
    DueLater(s.take, Advance(t, v.take), g.taken, s.check, t, Confirmed(c, res, a));
    ApprovalLater(Step(s.take, Advance(t, v.take)), g.taken, a, c, expiresAt, A.Consumed);
  }

  lemma ConfirmedRegisters(q: Pipe, t: nat, c: Pending, res: P.PathResult, a: nat, now: real)
    requires Due(q, t, Matched(Confirmed(c, res, a))) && Fit(c, res)
    requires G.Inserts(q.prepared, c.context.requestId, q.gateLimits, now)
    ensures Registering(q, t, now)
  {
    hide Inv, AllEvaluated, G.Inserts;
  }

  lemma ConfirmedUnchanged(e: G.Entry<Seat>, c: Pending, w: P.Snapshot, res: P.PathResult, a: nat, expiresAt: real,
                           s: A.Store, env: Env)
    requires Stable(c, w, res) && For(s, a, c, expiresAt, A.Consumed) && env.matchNow < expiresAt
    requires e.request == c.request && e.result == res && e.approval == Some(a) && env.now < e.expiresAt
    requires env.w == w && env.targetHolds
    ensures Unchanged(e, s, env)
  {
  }

  /**
   From any reachable state, with any steps of others in between: approving a
   pending consent whose request still evaluates to what was presented, within the
   thirty seconds of its approval and the life of its preparation, is never refused
   and reaches the runtime, backed by the approval issued for it. Others must only
   not use that approval before it is consumed, not take the id, and not execute it.
   */
  lemma ApprovedConsentRuns(p: Pipe, id: nat, c: Pending, now: real, w: P.Snapshot, res: P.PathResult,
                            v: Reads, g: Gaps, s: Course)
    requires Inv(p) && AllEvaluated(p) && Pends(p, id, c, now) && Identified(c) && Stable(c, w, res)
    requires Follows(p, id, c, now, v, g, s) && Considerate(p, g, s, v) && InTime(s, w, v)
    requires KeepsPlace(p, c, res, v, g, s)
    ensures Delivered(s.run, Step(s.run, Advance(s.execute.next, v.run)), c.context, c.request, res,
                      Some(s.issue.store.next))
  {
    hide Inv, AllEvaluated, Step, RunAll, For, Stable, Identified, Pends, Unnamed, EndsIn, G.Inserts, Rebuilds,
      Unchanged;
    var t, a, expiresAt := p.next, s.issue.store.next, v.issue.now + 30.0;
    StableFits(c, w, res);
    ApprovalIsTaken(p, id, c, now, w, res, v, g, s);
    CheckMatches(s.check, t, c, res, a, expiresAt, v.check);
    DueLater(s.check, Advance(t, v.check), g.checked, s.insert, t, Matched(Confirmed(c, res, a)));
    ApprovalLater(Step(s.check, Advance(t, v.check)), g.checked, a, c, expiresAt, A.Consumed);
    ConfirmedRegisters(s.insert, t, c, res, a, v.insert.now);
    var e := EntryOf(s.insert, s.insert.tasks[t], v.insert.now);
    StepKeepsInv(s.insert, Advance(t, v.insert));
    ConsumedStays(s.insert, Advance(t, v.insert), a, c, expiresAt);
    ApprovalLater(Step(s.insert, Advance(t, v.insert)), g.inserted, a, c, expiresAt, A.Consumed);
    ConfirmedUnchanged(e, c, w, res, a, expiresAt, s.execute.store, v.execute);
    FromRegistering(s.insert, t, v.insert, g.inserted, s.execute, v.execute, g.started, s.run, v.run);
  }
}
