/** The invariant of the pipeline, and why no thread of it breaks the invariant. */
module PipelineSafety {
  import opened Wrappers
  import opened Digests
  import A = Approvals
  import C = Coordinator
  import P = ControlPlane
  import G = Gate
  import opened Lifecycle
  import opened Pipeline
  import opened PipelineOwnership

  type Taken = map<nat, nat>
  type Seats = map<nat, nat>

  // ----- The parts of the invariant

  ghost predicate Legals(lifes: Lifes) {
    forall l :: l in lifes ==> LegalPath(lifes[l])
  }

  ghost predicate Numbered(lifes: Lifes, tasks: Tasks, registered: Seats, next: nat) {
    && (forall l :: l in lifes ==> l < next)
    && (forall t :: t in tasks ==> t < next)
    && (forall r :: r in registered ==> r < next)
  }

  /** `life` is the lifecycle for which approval `a` was consumed. */
  predicate Took(taken: Taken, a: nat, life: nat) {
    a in taken && taken[a] == life
  }

  ghost predicate Spent(store: A.Store, taken: Taken) {
    forall a :: a in taken ==> a in store.records && store.records[a].state == A.Consumed
  }

  /** Evaluating the request against `w` builds exactly this result. */
  ghost predicate Builds(w: P.Snapshot, request: P.ControlRequest, result: P.PathResult) {
    P.RevalidateRoute(w, request) == P.Ready(result) && result.invocation.Some?
    && result.invocation.value.fingerprint == result.fingerprint
  }

  /** A dispatch runs exactly what was just re-evaluated, for the person who asked. */
  ghost predicate Reevaluated(d: Dispatch) {
    && (exists w :: Builds(w, d.request, d.rebuilt))
    && G.SamePerson(d.context, d.request)
    && d.rebuilt.invocation == Some(d.invocation)
    && d.rebuilt.outcome == d.outcome
    && d.outcome != P.MustBeDenied
    && d.rebuilt.fingerprint == P.Fingerprint(d.rebuilt.capability, d.request.proposal)
    && (d.outcome == P.RequiresConfirmation <==> d.approval.Some?)
  }

  /** Its approval, if it needed one, is consumed for this lifecycle and exact for the re-evaluated request. */
  predicate Backed(d: Dispatch, store: A.Store, taken: Taken) {
    d.approval.Some? ==>
      && Took(taken, d.approval.value, d.seat.life)
      && d.approval.value in store.records
      && store.records[d.approval.value].state == A.Consumed
      && A.Matches(store.records[d.approval.value], d.rebuilt.fingerprint, d.context.caller, d.context.session)
  }

  predicate Seated(seat: Seat, registered: Seats) {
    seat.registration in registered && registered[seat.registration] == seat.life
  }

  predicate Carries(result: P.PathResult, given: Option<nat>, life: nat, taken: Taken) {
    && result.invocation.Some?
    && result.outcome != P.MustBeDenied
    && (result.outcome == P.RequiresConfirmation <==> given.Some?)
    && (given.Some? ==> Took(taken, given.value, life))
  }

  ghost predicate TaskOk(k: Task, store: A.Store, taken: Taken, registered: Seats) {
    match k
    case AskConsent(_, _, checked, _) => checked.outcome == P.RequiresConfirmation
    case MatchApproval(life, _, result, _, a, _) => Carries(result, Some(a), life, taken)
    case Insert(life, _, result, _, given, _) => Carries(result, given, life, taken)
    case Run(life, d) => d.seat.life == life && Reevaluated(d) && Backed(d, store, taken) && Seated(d.seat, registered)
    case Finish(_, _, status) => status in {Completed, Denied, Failed}
    case _ => true
  }

  ghost predicate TasksOk(tasks: Tasks, store: A.Store, taken: Taken, registered: Seats) {
    forall t :: t in tasks ==> TaskOk(tasks[t], store, taken, registered)
  }

  ghost predicate TableOk(table: Table, taken: Taken, registered: Seats) {
    forall i :: i in table ==>
      Carries(table[i].result, table[i].approval, table[i].life.life, taken) && Seated(table[i].life, registered)
  }

  predicate Started(lifes: Lifes, life: nat) {
    life in lifes && lifes[life] != [] && Last(lifes[life]) in {Executing, Completed, Denied, Failed}
  }

  /** Dispatched lifecycles have started, are pairwise distinct, and are not about to be dispatched again. */
  ghost predicate Dispatched(lifes: Lifes, tasks: Tasks, dispatches: seq<Dispatch>) {
    && (forall i :: 0 <= i < |dispatches| ==> Started(lifes, dispatches[i].seat.life))
    && (forall i, j :: 0 <= i < j < |dispatches| ==> dispatches[i].seat.life != dispatches[j].seat.life)
    && (forall i, t :: 0 <= i < |dispatches| && t in tasks && tasks[t].Run? ==>
          tasks[t].life != dispatches[i].seat.life)
  }

  ghost predicate DispatchesOk(dispatches: seq<Dispatch>, store: A.Store, taken: Taken, registered: Seats) {
    forall i :: 0 <= i < |dispatches| ==>
      Reevaluated(dispatches[i]) && Backed(dispatches[i], store, taken) && Seated(dispatches[i].seat, registered)
  }

  ghost predicate Inv(p: Pipe) {
    && C.Inv(p.coord, p.consentLimits)
    && Own(p.lifes, p.tasks, p.coord.records, p.prepared)
    && Legals(p.lifes) && !p.illegal
    && Numbered(p.lifes, p.tasks, p.registered, p.next)
    && A.WellFormed(p.store) && Spent(p.store, p.taken)
    && TasksOk(p.tasks, p.store, p.taken, p.registered)
    && TableOk(p.prepared, p.taken, p.registered)
    && Dispatched(p.lifes, p.tasks, p.dispatches)
    && DispatchesOk(p.dispatches, p.store, p.taken, p.registered)
  }

  lemma StoreIsFine(p: Pipe)
    requires Inv(p)
    ensures A.WellFormed(p.store) && Spent(p.store, p.taken)
  {
  }

  // ----- Walking a lifecycle

  /** A walk is exactly a legal extension of the history. */
  lemma {:induction false} WalkIsLegalPath(h: seq<RequestState>, targets: seq<RequestState>)
    requires LegalPath(h)
    ensures Walk(h, targets) == if LegalPath(h + targets) then Some(h + targets) else None
    decreases |targets|
  {
    if targets == [] {
      assert h + targets == h;
    } else {
      var all := h + targets;
      assert all == (h + [targets[0]]) + targets[1..];
      if Legal(Last(h), targets[0]) {
        LegalExtend(h, targets[0]);
        WalkIsLegalPath(h + [targets[0]], targets[1..]);
      } else {
        assert all[|h| - 1] == Last(h) && all[|h| - 1 + 1] == targets[0];
      }
    }
  }

  lemma ExtendTwice(h: seq<RequestState>, a: RequestState, b: RequestState)
    requires LegalPath(h) && Legal(Last(h), a) && Legal(a, b)
    ensures LegalPath(h + [a, b]) && Last(h + [a, b]) == b
  {
    LegalExtend(h, a);
    LegalExtend(h + [a], b);
    assert h + [a, b] == (h + [a]) + [b];
  }

  // ----- The approval store only moves forward

  /** Consumed approvals stay as they are. */
  ghost predicate Keeps(s: A.Store, later: A.Store) {
    && A.WellFormed(later)
    && forall a :: a in s.records && s.records[a].state == A.Consumed ==>
         a in later.records && later.records[a] == s.records[a]
  }

  lemma StoreStepKeeps(s: A.Store, op: A.StoreOp)
    requires A.WellFormed(s)
    ensures Keeps(s, A.Apply(s, op))
  {
    A.StepKeepsWellFormed(s, op);
    forall a | a in s.records && s.records[a].state == A.Consumed
      ensures a in A.Apply(s, op).records && A.Apply(s, op).records[a] == s.records[a]
    {
      A.StepKeepsApprovals(s, op, a);
    }
  }

  lemma KeepsItself(s: A.Store)
    requires A.WellFormed(s)
    ensures Keeps(s, s)
  {
  }

  ghost predicate Extends(taken: Taken, later: Taken) {
    forall a :: a in taken ==> a in later && later[a] == taken[a]
  }

  lemma TaskStaysOk(k: Task, s: A.Store, s': A.Store, taken: Taken, taken': Taken, registered: Seats,
                    registered': Seats)
    requires TaskOk(k, s, taken, registered) && Keeps(s, s') && Extends(taken, taken')
      && Extends(registered, registered')
    ensures TaskOk(k, s', taken', registered')
  {
  }

  /** Everything said about approvals and seats survives a store step and growing history. */
  lemma BackingSurvives(tasks: Tasks, table: Table, dispatches: seq<Dispatch>,
                        s: A.Store, s': A.Store, taken: Taken, taken': Taken, registered: Seats, registered': Seats)
    requires TasksOk(tasks, s, taken, registered) && TableOk(table, taken, registered)
    requires DispatchesOk(dispatches, s, taken, registered)
    requires Keeps(s, s') && Extends(taken, taken') && Extends(registered, registered')
    ensures TasksOk(tasks, s', taken', registered') && TableOk(table, taken', registered')
    ensures DispatchesOk(dispatches, s', taken', registered')
  {
    forall t | t in tasks ensures TaskOk(tasks[t], s', taken', registered') {
      TaskStaysOk(tasks[t], s, s', taken, taken', registered, registered');
    }
    forall i | 0 <= i < |dispatches| ensures Backed(dispatches[i], s', taken')
      && Seated(dispatches[i].seat, registered') {
      assert Backed(dispatches[i], s, taken) && Seated(dispatches[i].seat, registered);
    }
  }

  /** A store step, perhaps with an approval newly taken. */
  ghost predicate Onward(p: Pipe, store: A.Store, taken: Taken) {
    Keeps(p.store, store) && Extends(p.taken, taken) && Spent(store, taken)
  }

  lemma OnlyTheStore(p: Pipe, store: A.Store)
    requires Inv(p) && Keeps(p.store, store)
    ensures Onward(p, store, p.taken)
  {
  }

  lemma OnlyTime(p: Pipe)
    requires Inv(p)
    ensures Onward(p, p.store, p.taken) && Keeps(p.store, p.store)
  {
  }

  // ----- One thread moving on

  lemma DispatchedSurvives(lifes: Lifes, tasks: Tasks, dispatches: seq<Dispatch>, t: nat, h: seq<RequestState>, k: Task)
    requires Dispatched(lifes, tasks, dispatches) && ThreadsOwn(lifes, tasks)
    requires t in tasks && MovesOn(tasks[t], h, k) && !k.Run?
    ensures Dispatched(lifes[tasks[t].life := h], tasks[t := k], dispatches)
  {
    forall i | 0 <= i < |dispatches| ensures Started(lifes[tasks[t].life := h], dispatches[i].seat.life) {
      assert Started(lifes, dispatches[i].seat.life);
      if dispatches[i].seat.life == tasks[t].life {
        assert At(lifes, tasks[t].life, Expected(tasks[t]));
        assert Dispatches(tasks[t]);
      }
    }
  }

  lemma OneLifeChanges(lifes: Lifes, tasks: Tasks, registered: Seats, next: nat, l: nat, h: seq<RequestState>, t: nat,
                       k: Task)
    requires Legals(lifes) && LegalPath(h) && Numbered(lifes, tasks, registered, next) && l in lifes && t in tasks
    ensures Legals(lifes[l := h]) && Numbered(lifes[l := h], tasks[t := k], registered, next)
  {
  }

  lemma OneTaskChanges(tasks: Tasks, store: A.Store, taken: Taken, registered: Seats, t: nat, k: Task)
    requires TasksOk(tasks, store, taken, registered) && TaskOk(k, store, taken, registered)
    ensures TasksOk(tasks[t := k], store, taken, registered)
  {
  }

  lemma Holding(p: Pipe, t: nat)
    requires Inv(p) && t in p.tasks && !p.tasks[t].Over?
    ensures p.tasks[t].life in p.lifes && LegalPath(p.lifes[p.tasks[t].life])
    ensures Last(p.lifes[p.tasks[t].life]) == Expected(p.tasks[t])
    ensures TaskOk(p.tasks[t], p.store, p.taken, p.registered)
  {
    assert At(p.lifes, p.tasks[t].life, Expected(p.tasks[t]));
  }

  /** A thread moves on in its lifecycle, with a store step and perhaps an approval taken on the way. */
  lemma ThreadSteps(p: Pipe, t: nat, h: seq<RequestState>, k: Task, store: A.Store, taken: Taken)
    requires Inv(p) && t in p.tasks && MovesOn(p.tasks[t], h, k) && !k.Run? && LegalPath(h)
    requires Onward(p, store, taken) && TaskOk(k, store, taken, p.registered)
    ensures Inv(p.(lifes := p.lifes[p.tasks[t].life := h], tasks := p.tasks[t := k], store := store, taken := taken))
  {
    Holding(p, t);
    ThreadMoves(p.lifes, p.tasks, p.coord.records, p.prepared, t, h, k);
    DispatchedSurvives(p.lifes, p.tasks, p.dispatches, t, h, k);
    BackingSurvives(p.tasks, p.prepared, p.dispatches, p.store, store, p.taken, taken, p.registered, p.registered);
    OneTaskChanges(p.tasks, store, taken, p.registered, t, k);
    OneLifeChanges(p.lifes, p.tasks, p.registered, p.next, p.tasks[t].life, h, t, k);
  }

  /** Moves along a legal path are never refused. */
  lemma MoveIs(p: Pipe, life: nat, targets: seq<RequestState>)
    requires life in p.lifes && LegalPath(p.lifes[life]) && LegalPath(p.lifes[life] + targets)
    ensures Move(p, life, targets) == p.(lifes := p.lifes[life := p.lifes[life] + targets])
  {
    WalkIsLegalPath(p.lifes[life], targets);
  }

  /** A thread makes its last transitions and lets go of its lifecycle. */
  lemma ThreadEnds(p: Pipe, t: nat, targets: seq<RequestState>, store: A.Store, taken: Taken)
    requires Inv(p) && t in p.tasks && !p.tasks[t].Over? && p.tasks[t].life in p.lifes
    requires LegalPath(p.lifes[p.tasks[t].life] + targets)
    requires Dispatches(p.tasks[t]) ==> targets != [] && Last(targets) in {Completed, Denied, Failed}
    requires Onward(p, store, taken)
    ensures Inv(End(p.(store := store, taken := taken), t, p.tasks[t].life, targets))
  {
    Holding(p, t);
    var life := p.tasks[t].life;
    MoveIs(p.(store := store, taken := taken), life, targets);
    ThreadSteps(p, t, p.lifes[life] + targets, Over, store, taken);
  }

  lemma Deniable(h: seq<RequestState>, s: RequestState)
    requires LegalPath(h) && Last(h) == s && s !in {Completed, Denied, Failed}
    ensures LegalPath(h + [Denied])
  {
    LegalExtend(h, Denied);
  }

  /** A thread that has not started execution may always end in a denial. */
  lemma ThreadIsDenied(p: Pipe, t: nat, store: A.Store)
    requires Inv(p) && t in p.tasks && !p.tasks[t].Over?
    requires Keeps(p.store, store)
    ensures Inv(End(p.(store := store), t, p.tasks[t].life, [Denied]))
  {
    Holding(p, t);
    Deniable(p.lifes[p.tasks[t].life], Expected(p.tasks[t]));
    OnlyTheStore(p, store);
    ThreadEnds(p, t, [Denied], store, p.taken);
  }

  lemma ThreadIsDeniedNow(p: Pipe, t: nat)
    requires Inv(p) && t in p.tasks && !p.tasks[t].Over?
    ensures Inv(End(p, t, p.tasks[t].life, [Denied]))
  {
    assert p.(store := p.store) == p;
    OnlyTime(p);
    ThreadIsDenied(p, t, p.store);
  }

  lemma ConfirmedCarries(w: P.Snapshot, request: P.ControlRequest, a: A.Approval, life: nat, taken: Taken)
    requires P.PrepareConfirmed(w, request, a).Ready? && Took(taken, a.id, life)
    ensures Carries(P.PrepareConfirmed(w, request, a).result, Some(a.id), life, taken)
  {
    P.RevalidationRebuildsConfirmed(w, request, a);
  }

  /** Preparing against a freshly consumed approval moves the thread on with that approval. */
  lemma ConfirmedGoesOn(p: Pipe, t: nat, k: Task, store: A.Store, taken: Taken)
    requires Inv(p) && t in p.tasks && !p.tasks[t].Over? && Expected(p.tasks[t]) == AwaitingApproval
    requires k.MatchApproval? && k.life == p.tasks[t].life && TaskOk(k, store, taken, p.registered)
    requires Onward(p, store, taken)
    ensures Inv(SetTask(Move(p.(store := store, taken := taken), k.life, [Approved, Prepared]), t, k))
  {
    hide Inv, Onward;
    Holding(p, t);
    var h := p.lifes[k.life];
    ExtendTwice(h, Approved, Prepared);
    MoveIs(p.(store := store, taken := taken), k.life, [Approved, Prepared]);
    ThreadSteps(p, t, h + [Approved, Prepared], k, store, taken);
  }

  /** A failed preparation ends the thread with its approval spent. */
  lemma ConfirmedEnds(p: Pipe, t: nat, targets: seq<RequestState>, store: A.Store, taken: Taken)
    requires Inv(p) && t in p.tasks && !p.tasks[t].Over? && Expected(p.tasks[t]) == AwaitingApproval
    requires targets in {[Approved], [Approved, Denied], [Approved, Failed]}
    requires Onward(p, store, taken)
    ensures Inv(End(p.(store := store, taken := taken), t, p.tasks[t].life, targets))
  {
    hide Inv, Onward, End;
    Holding(p, t);
    var h := p.lifes[p.tasks[t].life];
    if targets == [Approved] {
      LegalExtend(h, Approved);
    } else {
      ExtendTwice(h, Approved, targets[1]);
    }
    ThreadEnds(p, t, targets, store, taken);
  }

  /** The two ways a confirmed preparation can end. */
  lemma ConfirmEnds(p: Pipe, t: nat, life: nat, request: P.ControlRequest, context: G.Context, a: A.Approval,
                    w: P.Snapshot, byConsent: bool)
    ensures var q := p.(taken := p.taken[a.id := life]);
      var prepared := P.PrepareConfirmed(w, request, a);
      Confirm(p, t, life, request, context, a, w, byConsent) ==
      if prepared.Ready?
      then SetTask(Move(q, life, [Approved, Prepared]), t,
                   MatchApproval(life, request, prepared.result, context, a.id, byConsent))
      else End(q, t, life, Ending(prepared, byConsent))
  {
  }

  lemma TakingSpends(p: Pipe, store: A.Store, a: nat, life: nat)
    requires Inv(p) && Keeps(p.store, store) && a !in p.taken
    requires a in store.records && store.records[a].state == A.Consumed
    ensures Onward(p, store, p.taken[a := life])
  {
  }

  lemma ConfirmKeeps(p: Pipe, t: nat, request: P.ControlRequest, context: G.Context, a: A.Approval,
                     store: A.Store, w: P.Snapshot, byConsent: bool)
    requires Inv(p) && t in p.tasks && !p.tasks[t].Over? && Expected(p.tasks[t]) == AwaitingApproval
    requires Onward(p, store, p.taken[a.id := p.tasks[t].life])
    ensures Inv(Confirm(p.(store := store), t, p.tasks[t].life, request, context, a, w, byConsent))
  {
    hide Inv, End, Move;
    var life := p.tasks[t].life;
    var taken := p.taken[a.id := life];
    var prepared := P.PrepareConfirmed(w, request, a);
    ConfirmEnds(p.(store := store), t, life, request, context, a, w, byConsent);
    if prepared.Ready? {
      ConfirmedCarries(w, request, a, life, taken);
      ConfirmedGoesOn(p, t, MatchApproval(life, request, prepared.result, context, a.id, byConsent), store, taken);
    } else {
      ConfirmedEnds(p, t, Ending(prepared, byConsent), store, taken);
    }
  }

  /** The transitions a confirmed request makes when it fails to prepare. */
  function Ending(reply: P.Reply, byConsent: bool): seq<RequestState> {
    match reply
    case RoutingError => [Approved, if byConsent then Denied else Failed]
    case PlaneError => [Approved, Denied]
    case Broken => if byConsent then [Approved, Denied] else [Approved]
    case Ready(_) => [Approved]
  }

  /** A successful consumption is of an approval nobody took before. */
  lemma ConsumedFresh(s: A.Store, taken: Taken, id: nat, binding: Digest, caller: string, session: string, now: real,
                      stamp: real)
    requires A.WellFormed(s) && Spent(s, taken)
    ensures Keeps(s, A.Consume(s, id, binding, caller, session, now, stamp).0)
    ensures var (later, r) := A.Consume(s, id, binding, caller, session, now, stamp);
      r.Ok? ==> r.value.id == id && id !in taken && id in later.records && later.records[id].state == A.Consumed
  {
    StoreStepKeeps(s, A.DoConsume(id, binding, caller, session, now, stamp));
    A.ConsumeIsExact(s, id, binding, caller, session, now, stamp);
  }

  lemma ConsumeKeeps(p: Pipe, t: nat, env: Env)
    requires Inv(p) && t in p.tasks && p.tasks[t].ConsumePresented?
    ensures Inv(StepConsume(p, t, p.tasks[t], env))
  {
    hide Inv, End, Confirm;
    var k := p.tasks[t];
    var (store, r) := A.Consume(p.store, k.approval, k.checked.fingerprint, k.context.caller, k.context.session,
                                env.lookup, env.stamp);
    StoreIsFine(p);
    ConsumedFresh(p.store, p.taken, k.approval, k.checked.fingerprint, k.context.caller, k.context.session, env.lookup,
                  env.stamp);
    if r.Err? {
      ThreadIsDenied(p, t, store);
    } else {
      TakingSpends(p, store, r.value.id, k.life);
      ConfirmKeeps(p, t, k.request, k.context, r.value, store, env.w, false);
    }
  }

  lemma TakeKeeps(p: Pipe, t: nat, env: Env)
    requires Inv(p) && t in p.tasks && p.tasks[t].Take?
    ensures Inv(StepTake(p, t, p.tasks[t], env))
  {
    hide Inv, End, Confirm;
    var k := p.tasks[t];
    var c := k.pending;
    var (caller, session) := (c.request.proposal.caller, c.request.proposal.session);
    var (store, r) := A.Consume(p.store, k.approval, c.checked.fingerprint, caller, session, env.lookup, env.stamp);
    StoreIsFine(p);
    ConsumedFresh(p.store, p.taken, k.approval, c.checked.fingerprint, caller, session, env.lookup, env.stamp);
    if r.Err? {
      ThreadIsDenied(p, t, store);
    } else {
      TakingSpends(p, store, r.value.id, k.life);
      ConfirmKeeps(p, t, c.request, c.context, r.value, store, env.w, true);
    }
  }

  /** A thread goes on to its next task without moving its lifecycle. */
  lemma ThreadGoesOn(p: Pipe, t: nat, k: Task, store: A.Store)
    requires Inv(p) && t in p.tasks && !p.tasks[t].Over? && !Dispatches(p.tasks[t]) && !Dispatches(k) && !k.AskConsent?
    requires !k.Over? && k.life == p.tasks[t].life && Expected(k) == Expected(p.tasks[t])
    requires Keeps(p.store, store) && TaskOk(k, store, p.taken, p.registered)
    ensures Inv(SetTask(p.(store := store), t, k))
  {
    hide Inv, TaskOk;
    Holding(p, t);
    var h := p.lifes[p.tasks[t].life];
    assert p.lifes[p.tasks[t].life := h] == p.lifes;
    OnlyTheStore(p, store);
    ThreadSteps(p, t, h, k, store, p.taken);
  }

  lemma IssueKeeps(p: Pipe, t: nat, env: Env)
    requires Inv(p) && t in p.tasks && p.tasks[t].Issue?
    ensures Inv(StepIssue(p, t, p.tasks[t], env))
  {
    hide Inv, End, Keeps;
    var k := p.tasks[t];
    var c := k.pending;
    var (store, r) := A.Issue(p.store, c.checked.fingerprint, c.request.proposal.caller, c.request.proposal.session,
                              30.0, env.now);
    StoreIsFine(p);
    StoreStepKeeps(p.store, A.DoIssue(c.checked.fingerprint, c.request.proposal.caller, c.request.proposal.session,
                                      30.0, env.now));
    if r.Err? {
      ThreadIsDenied(p, t, store);
    } else {
      ThreadGoesOn(p, t, Offer(k.life, c, r.value.id), store);
    }
  }

  lemma OfferKeeps(p: Pipe, t: nat, env: Env)
    requires Inv(p) && t in p.tasks && p.tasks[t].Offer?
    ensures Inv(StepOffer(p, t, p.tasks[t], env))
  {
    hide Inv, End, Keeps;
    var k := p.tasks[t];
    var (store, r) := A.MakeAvailable(p.store, k.approval, env.lookup);
    StoreIsFine(p);
    StoreStepKeeps(p.store, A.DoMakeAvailable(k.approval, env.lookup));
    if r.Err? {
      ThreadIsDenied(p, t, store);
    } else {
      ThreadGoesOn(p, t, Take(k.life, k.pending, k.approval), store);
    }
  }

  lemma RefusalKeeps(p: Pipe, t: nat, store: A.Store, byConsent: bool)
    requires Inv(p) && t in p.tasks && (p.tasks[t].MatchApproval? || p.tasks[t].Insert?) && Keeps(p.store, store)
    ensures Inv(RefuseRegistration(p.(store := store), t, p.tasks[t].life, byConsent))
  {
    hide Inv;
    Holding(p, t);
    var h := p.lifes[p.tasks[t].life];
    if byConsent {
      assert h + [] == h;
      OnlyTheStore(p, store);
      ThreadEnds(p, t, [], store, p.taken);
    } else {
      ThreadIsDenied(p, t, store);
    }
  }

  lemma MatchKeeps(p: Pipe, t: nat, env: Env)
    requires Inv(p) && t in p.tasks && p.tasks[t].MatchApproval?
    requires p.tasks[t].life in p.lifes && p.lifes[p.tasks[t].life] != [] && p.tasks[t].result.invocation.Some?
    ensures Inv(StepMatch(p, t, p.tasks[t], env))
  {
    hide Inv, MatchingOf;
    var k := p.tasks[t];
    var store := A.Looked(p.store, k.approval, env.lookup);
    StoreIsFine(p);
    StoreStepKeeps(p.store, A.DoGet(k.approval, env.lookup));
    match MatchingOf(p, k, env)
    case Unfit => MatchRefuses(p, t);
    case Mismatch => RefusalKeeps(p, t, store, k.byConsent);
    case Matches => MatchAccepts(p, t, store);
  }

  lemma MatchedIsOk(k: Task, store: A.Store, store': A.Store, taken: Taken, registered: Seats)
    requires k.MatchApproval? && TaskOk(k, store, taken, registered)
    ensures TaskOk(Matched(k), store', taken, registered) && Expected(Matched(k)) == Prepared
  {
  }

  lemma MatchAccepts(p: Pipe, t: nat, store: A.Store)
    requires Inv(p) && t in p.tasks && p.tasks[t].MatchApproval? && Keeps(p.store, store)
    ensures Inv(SetTask(p.(store := store), t, Matched(p.tasks[t])))
  {
    hide Inv;
    Holding(p, t);
    MatchedIsOk(p.tasks[t], p.store, store, p.taken, p.registered);
    ThreadGoesOn(p, t, Matched(p.tasks[t]), store);
  }

  lemma MatchRefuses(p: Pipe, t: nat)
    requires Inv(p) && t in p.tasks && (p.tasks[t].MatchApproval? || p.tasks[t].Insert?)
    ensures Inv(RefuseRegistration(p, t, p.tasks[t].life, p.tasks[t].byConsent))
  {
    assert p.(store := p.store) == p;
    KeepsItself(p.store);
    RefusalKeeps(p, t, p.store, p.tasks[t].byConsent);
  }

  // ----- Registration and execution

  lemma TableMayShrink(p: Pipe, kept: Table)
    requires Inv(p) && forall i :: i in kept ==> i in p.prepared && kept[i] == p.prepared[i]
    ensures Inv(p.(prepared := kept))
  {
    TableShrinks(p.lifes, p.tasks, p.coord.records, p.prepared, kept);
  }

  lemma NumbersGrow(lifes: Lifes, tasks: Tasks, registered: Seats, next: nat, t: nat, life: nat)
    requires Numbered(lifes, tasks, registered, next) && t in tasks
    ensures Numbered(lifes, tasks[t := Over], registered[next := life], next + 1)
    ensures Extends(registered, registered[next := life])
  {
  }

  lemma DispatchedLetsGo(lifes: Lifes, tasks: Tasks, dispatches: seq<Dispatch>, t: nat)
    requires Dispatched(lifes, tasks, dispatches) && t in tasks
    ensures Dispatched(lifes, tasks[t := Over], dispatches)
  {
  }

  lemma TableGrows(table: Table, kept: Table, taken: Taken, registered: Seats, id: string, e: G.Entry<Seat>)
    requires TableOk(table, taken, registered) && forall i :: i in kept ==> i in table && kept[i] == table[i]
    requires Carries(e.result, e.approval, e.life.life, taken) && Seated(e.life, registered)
    ensures TableOk(kept[id := e], taken, registered)
  {
  }

  lemma SeatsGrow(p: Pipe, registered: Seats)
    requires Inv(p) && Extends(p.registered, registered)
    ensures TasksOk(p.tasks, p.store, p.taken, registered) && TableOk(p.prepared, p.taken, registered)
    ensures DispatchesOk(p.dispatches, p.store, p.taken, registered)
  {
    OnlyTime(p);
    BackingSurvives(p.tasks, p.prepared, p.dispatches, p.store, p.store, p.taken, p.taken, p.registered, registered);
  }

  lemma RegistrationKeeps(p: Pipe, t: nat, kept: Table, id: string, e: G.Entry<Seat>)
    requires Inv(p) && t in p.tasks && p.tasks[t].Insert?
    requires forall i :: i in kept ==> i in p.prepared && kept[i] == p.prepared[i]
    requires e.life == Seat(p.next, p.tasks[t].life) && e.result == p.tasks[t].result && e.approval == p.tasks[t].given
    ensures Inv(SetTask(p.(prepared := kept[id := e], registered := p.registered[p.next := p.tasks[t].life],
                           next := p.next + 1), t, Over))
  {
    hide C.Inv, Own, Legals, A.WellFormed, Spent, TasksOk, TableOk, Dispatched, DispatchesOk;
    Holding(p, t);
    var registered := p.registered[p.next := p.tasks[t].life];
    ThreadPassesToTable(p.lifes, p.tasks, p.coord.records, p.prepared, kept, t, id, e);
    NumbersGrow(p.lifes, p.tasks, p.registered, p.next, t, p.tasks[t].life);
    SeatsGrow(p, registered);
    OneTaskChanges(p.tasks, p.store, p.taken, registered, t, Over);
    TableGrows(p.prepared, kept, p.taken, registered, id, e);
    DispatchedLetsGo(p.lifes, p.tasks, p.dispatches, t);
  }

  /** The three ways the locked part of a registration can end. */
  lemma InsertEnds(p: Pipe, t: nat, k: Task, env: Env)
    requires k.Insert? && k.life in p.lifes && p.lifes[k.life] != []
    ensures var kept := G.Purged(p.prepared, env.now);
      var e := G.Entry(k.request, k.result, k.given, Seat(p.next, k.life), env.now + p.gateLimits.ttl);
      || StepInsert(p, t, k, env) == RefuseRegistration(p, t, k.life, k.byConsent)
      || StepInsert(p, t, k, env) == RefuseRegistration(p.(prepared := kept), t, k.life, k.byConsent)
      || StepInsert(p, t, k, env)
         == SetTask(p.(prepared := kept[k.context.requestId := e],
                       registered := p.registered[p.next := k.life], next := p.next + 1), t, Over)
  {
  }

  lemma InsertKeeps(p: Pipe, t: nat, env: Env)
    requires Inv(p) && t in p.tasks && p.tasks[t].Insert?
    requires p.tasks[t].life in p.lifes && p.lifes[p.tasks[t].life] != []
    ensures Inv(StepInsert(p, t, p.tasks[t], env))
  {
    var k := p.tasks[t];
    var kept := G.Purged(p.prepared, env.now);
    InsertEnds(p, t, k, env);
    MatchRefuses(p, t);
    TableMayShrink(p, kept);
    MatchRefuses(p.(prepared := kept), t);
    var e := G.Entry(k.request, k.result, k.given, Seat(p.next, k.life), env.now + p.gateLimits.ttl);
    RegistrationKeeps(p, t, kept, k.context.requestId, e);
  }

  lemma DispatchedGrows(lifes: Lifes, tasks: Tasks, dispatches: seq<Dispatch>, t: nat, d: Dispatch, k: Task)
    requires Dispatched(lifes, tasks, dispatches) && ThreadsOwn(lifes, tasks)
    requires t in tasks && tasks[t].Run? && d.seat.life == tasks[t].life && k.Finish?
    ensures Dispatched(lifes, tasks[t := k], dispatches + [d])
  {
    assert At(lifes, tasks[t].life, Executing);
    forall u | u in tasks && u != t && tasks[u].Run? ensures tasks[u].life != tasks[t].life {
      assert !Has(tasks[u], tasks[t].life);
    }
  }

  lemma DispatchesGrow(dispatches: seq<Dispatch>, d: Dispatch, store: A.Store, taken: Taken, registered: Seats)
    requires DispatchesOk(dispatches, store, taken, registered)
    requires Reevaluated(d) && Backed(d, store, taken) && Seated(d.seat, registered)
    ensures DispatchesOk(dispatches + [d], store, taken, registered)
  {
  }

  lemma OwningIsSplit(p: Pipe)
    requires Inv(p)
    ensures Own(p.lifes, p.tasks, p.coord.records, p.prepared)
  {
  }

  lemma ThreadStays(p: Pipe, t: nat, k: Task)
    requires Inv(p) && t in p.tasks && p.tasks[t].Run? && k.Finish? && k.life == p.tasks[t].life
    ensures Own(p.lifes, p.tasks[t := k], p.coord.records, p.prepared)
  {
    hide Inv, Own, ThreadsOwn, TasksOk, TableOk, DispatchesOk, Dispatched;
    OwningIsSplit(p);
    Holding(p, t);
    var h := p.lifes[k.life];
    assert p.lifes[k.life := h] == p.lifes;
    ThreadMoves(p.lifes, p.tasks, p.coord.records, p.prepared, t, h, k);
  }

  lemma RunKeeps(p: Pipe, t: nat, env: Env)
    requires Inv(p) && t in p.tasks && p.tasks[t].Run?
    ensures Inv(StepRun(p, t, p.tasks[t], env))
  {
    hide C.Inv, ThreadsOwn, Legals, A.WellFormed, Spent, TasksOk, TableOk, Dispatched, DispatchesOk;
    Holding(p, t);
    var k := p.tasks[t];
    var f := Finish(k.life, k.dispatch, if env.status in {Completed, Denied} then env.status else Failed);
    ThreadStays(p, t, f);
    OneTaskChanges(p.tasks, p.store, p.taken, p.registered, t, f);
    DispatchedGrows(p.lifes, p.tasks, p.dispatches, t, k.dispatch, f);
    DispatchesGrow(p.dispatches, k.dispatch, p.store, p.taken, p.registered);
  }

  lemma FinishKeeps(p: Pipe, t: nat)
    requires Inv(p) && t in p.tasks && p.tasks[t].Finish?
    ensures Inv(End(p, t, p.tasks[t].life, [p.tasks[t].status]))
  {
    Holding(p, t);
    LegalExtend(p.lifes[p.tasks[t].life], p.tasks[t].status);
    OnlyTime(p);
    ThreadEnds(p, t, [p.tasks[t].status], p.store, p.taken);
  }
}
