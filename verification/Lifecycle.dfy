/** The request lifecycle and the only transitions it permits. */
module Lifecycle {

  datatype RequestState =
    | Received | Authenticated | PolicyChecked | AwaitingApproval | Approved
    | Prepared | Executing | Completed | Denied | Failed

  predicate Legal(a: RequestState, b: RequestState) {
    match a
    case Received => b in {Authenticated, Denied, Failed}
    case Authenticated => b in {PolicyChecked, Denied, Failed}
    case PolicyChecked => b in {AwaitingApproval, Approved, Denied, Failed}
    case AwaitingApproval => b in {Approved, Denied, Failed}
    case Approved => b in {Prepared, Denied, Failed}
    case Prepared => b in {Executing, Denied}
    case Executing => b in {Completed, Denied, Failed}
    case _ => false
  }

  /** The states a lifecycle has been in, from `Received` on, each step legal. */
  predicate LegalPath(h: seq<RequestState>) {
    h != [] && h[0] == Received && forall k :: 0 <= k < |h| - 1 ==> Legal(h[k], h[k + 1])
  }

  function Last(h: seq<RequestState>): RequestState
    requires h != []
  {
    h[|h| - 1]
  }

  lemma LegalExtend(h: seq<RequestState>, s: RequestState)
    requires LegalPath(h) && Legal(Last(h), s)
    ensures LegalPath(h + [s])
  {
  }

  const DIRECT: seq<RequestState> := [Received, Authenticated, PolicyChecked, Approved, Prepared, Executing]
  const CONFIRMED: seq<RequestState> :=
    [Received, Authenticated, PolicyChecked, AwaitingApproval, Approved, Prepared, Executing]

  predicate FollowsAt(path: seq<RequestState>, k: nat, a: RequestState, b: RequestState) {
    k + 1 < |path| && path[k] == a && path[k + 1] == b
  }

  /** One state directly follows the other on this path. */
  ghost predicate Follows(path: seq<RequestState>, a: RequestState, b: RequestState) {
    exists k: nat :: FollowsAt(path, k, a, b)
  }

  lemma FollowsFurther(x: RequestState, tail: seq<RequestState>, k: nat, a: RequestState, b: RequestState)
    ensures FollowsAt([x] + tail, k + 1, a, b) <==> FollowsAt(tail, k, a, b)
  {
    var path := [x] + tail;
    assert k < |tail| ==> path[k + 1] == tail[k];
    assert k + 1 < |tail| ==> path[k + 1 + 1] == tail[k + 1];
  }

  lemma FollowsCons(a: RequestState, b: RequestState, x: RequestState, y: RequestState, rest: seq<RequestState>)
    ensures Follows([x, y] + rest, a, b) <==> (a == x && b == y) || Follows([y] + rest, a, b)
  {
    hide FollowsAt;
    var path, tail := [x, y] + rest, [y] + rest;
    assert path == [x] + tail;
    assert FollowsAt(path, 0, a, b) <==> a == x && b == y by {
      FollowsFirst(a, b, x, y, rest);
    }
    if k: nat :| FollowsAt(path, k, a, b) {
      if k > 0 {
        FollowsFurther(x, tail, k - 1, a, b);
      }
    }
    if k: nat :| FollowsAt(tail, k, a, b) {
      FollowsFurther(x, tail, k, a, b);
    }
  }

  lemma FollowsFirst(a: RequestState, b: RequestState, x: RequestState, y: RequestState, rest: seq<RequestState>)
    ensures FollowsAt([x, y] + rest, 0, a, b) <==> a == x && b == y
  {
  }

  lemma DirectSteps(a: RequestState, b: RequestState)
    ensures Follows(DIRECT, a, b) <==>
      || (a == Received && b == Authenticated) || (a == Authenticated && b == PolicyChecked)
      || (a == PolicyChecked && b == Approved) || (a == Approved && b == Prepared) || (a == Prepared && b == Executing)
  {
    hide Follows;
    FollowsCons(a, b, Received, Authenticated, [PolicyChecked, Approved, Prepared, Executing]);
    FollowsCons(a, b, Authenticated, PolicyChecked, [Approved, Prepared, Executing]);
    FollowsCons(a, b, PolicyChecked, Approved, [Prepared, Executing]);
    FollowsCons(a, b, Approved, Prepared, [Executing]);
    FollowsCons(a, b, Prepared, Executing, []);
    LastFollowsNone(Executing, a, b);
    assert DIRECT == [Received, Authenticated] + [PolicyChecked, Approved, Prepared, Executing];
    assert [Authenticated] + [PolicyChecked, Approved, Prepared, Executing]
      == [Authenticated, PolicyChecked] + [Approved, Prepared, Executing];
    assert [PolicyChecked] + [Approved, Prepared, Executing] == [PolicyChecked, Approved] + [Prepared, Executing];
    assert [Approved] + [Prepared, Executing] == [Approved, Prepared] + [Executing];
    assert [Prepared] + [Executing] == [Prepared, Executing] + [] && [Executing] + [] == [Executing];
  }

  lemma LastFollowsNone(x: RequestState, a: RequestState, b: RequestState)
    ensures !Follows([x], a, b)
  {
  }

  lemma ConfirmedSteps(a: RequestState, b: RequestState)
    ensures Follows(CONFIRMED, a, b) <==>
      || (a == Received && b == Authenticated) || (a == Authenticated && b == PolicyChecked)
      || (a == PolicyChecked && b == AwaitingApproval) || (a == AwaitingApproval && b == Approved)
      || (a == Approved && b == Prepared) || (a == Prepared && b == Executing)
  {
    hide Follows;
    FollowsCons(a, b, Received, Authenticated, [PolicyChecked, AwaitingApproval, Approved, Prepared, Executing]);
    FollowsCons(a, b, Authenticated, PolicyChecked, [AwaitingApproval, Approved, Prepared, Executing]);
    FollowsCons(a, b, PolicyChecked, AwaitingApproval, [Approved, Prepared, Executing]);
    FollowsCons(a, b, AwaitingApproval, Approved, [Prepared, Executing]);
    FollowsCons(a, b, Approved, Prepared, [Executing]);
    FollowsCons(a, b, Prepared, Executing, []);
    LastFollowsNone(Executing, a, b);
    assert CONFIRMED == [Received, Authenticated] + [PolicyChecked, AwaitingApproval, Approved, Prepared, Executing];
    assert [Authenticated] + [PolicyChecked, AwaitingApproval, Approved, Prepared, Executing]
      == [Authenticated, PolicyChecked] + [AwaitingApproval, Approved, Prepared, Executing];
    assert [PolicyChecked] + [AwaitingApproval, Approved, Prepared, Executing]
      == [PolicyChecked, AwaitingApproval] + [Approved, Prepared, Executing];
    assert [AwaitingApproval] + [Approved, Prepared, Executing] == [AwaitingApproval, Approved] + [Prepared, Executing];
    assert [Approved] + [Prepared, Executing] == [Approved, Prepared] + [Executing];
    assert [Prepared] + [Executing] == [Prepared, Executing] + [] && [Executing] + [] == [Executing];
  }

  /**
   What is legal: the next state of one of the two main paths, completing an
   execution, a denial of anything that has not ended, and a failure of anything
   that has not ended, except of what stands prepared.
   */
  lemma LegalExactly(a: RequestState, b: RequestState)
    ensures Legal(a, b) <==>
      || Follows(DIRECT, a, b) || Follows(CONFIRMED, a, b)
      || (a == Executing && b == Completed)
      || (b == Denied && a !in {Completed, Denied, Failed})
      || (b == Failed && a !in {Completed, Denied, Failed, Prepared})
  {
    hide Follows;
    DirectSteps(a, b);
    ConfirmedSteps(a, b);
  }

  /** How many steps from `Received` a state on the main path can be: two counts where confirmation is optional. */
  predicate Stands(k: nat, s: RequestState) {
    match s
    case Received => k == 0
    case Authenticated => k == 1
    case PolicyChecked => k == 2
    case AwaitingApproval => k == 3
    case Approved => k == 3 || k == 4
    case Prepared => k == 4 || k == 5
    case Executing => k == 5 || k == 6
    case _ => true
  }

  lemma {:induction false} PathPositions(h: seq<RequestState>, k: nat)
    requires LegalPath(h) && k < |h|
    ensures Stands(k, h[k])
    decreases k
  {
    if k > 0 {
      PathPositions(h, k - 1);
      assert Legal(h[k - 1], h[k - 1 + 1]);
    }
  }

  /** Execution is only ever reached through every gate, in order. */
  lemma ExecutingNeedsEveryGate(h: seq<RequestState>, k: nat)
    requires LegalPath(h) && k < |h| && h[k] == Executing
    ensures h[..k + 1] == DIRECT || h[..k + 1] == CONFIRMED
  {
    forall j | 0 <= j <= k ensures Stands(j, h[j]) { PathPositions(h, j); }
    assert Legal(h[k - 1], h[k - 1 + 1]) && Legal(h[k - 2], h[k - 2 + 1]) && Legal(h[k - 3], h[k - 3 + 1]);
    assert h[k - 1] == Prepared && h[k - 2] == Approved;
    if k == 6 {
      assert h[3] == AwaitingApproval && Legal(h[2], h[3]) && Legal(h[1], h[2]);
    } else {
      assert h[2] == PolicyChecked && Legal(h[1], h[2]);
    }
  }

  lemma NextIsLegal(h: seq<RequestState>, k: nat)
    requires LegalPath(h)
    ensures k + 1 < |h| ==> Legal(h[k], h[k + 1])
  {
  }

  /** Nothing follows a terminal state, so a lifecycle executes at most once. */
  lemma ExecutesAtMostOnce(h: seq<RequestState>, i: nat, j: nat)
    requires LegalPath(h) && i < |h| && j < |h| && h[i] == Executing && h[j] == Executing
    ensures i == j
  {
    PathPositions(h, i);
    PathPositions(h, j);
    NextIsLegal(h, 5);
  }

  /** The shared lifecycle object. */
  class RequestLifecycle {
    const requestId: string
    var state: RequestState
    var history: seq<RequestState>

    ghost predicate Valid()
      reads this
    {
      LegalPath(history) && state == Last(history)
    }

    constructor (requestId: string)
      ensures Valid() && state == Received && history == [Received] && this.requestId == requestId
    {
      this.requestId := requestId;
      state := Received;
      history := [Received];
    }

    /** Refuses an illegal transition and leaves the lifecycle as it was. */
    method Transition(target: RequestState) returns (ok: bool)
      requires Valid()
      modifies this
      ensures Valid()
      ensures ok == Legal(old(state), target)
      ensures ok ==> state == target && history == old(history) + [target]
      ensures !ok ==> state == old(state) && history == old(history)
    {
      if !Legal(state, target) {
        return false;
      }
      LegalExtend(history, target);
      state := target;
      history := history + [target];
      return true;
    }
  }
}
