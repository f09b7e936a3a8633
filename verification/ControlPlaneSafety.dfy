/** What a prepared invocation contains, and when one is prepared at all, in terms of the request and the snapshot. */
module ControlPlaneSafety {
  import opened Wrappers
  import opened Digests
  import A = Approvals
  import H = Health
  import R = Router
  import RS = RouterSafety
  import opened ControlPlane

  // ----- What is handed to the runtime

  /** Each fallback of the invocation is the next candidate of the routed chain. */
  ghost predicate FallbacksOf(inv: Invocation, chain: seq<R.Candidate>) {
    && |inv.fallbackIds| == |chain| && |inv.fallbackRoutes| == |chain|
    && forall i :: 0 <= i < |chain| ==>
         inv.fallbackIds[i] == chain[i].id && inv.fallbackRoutes[i] == (chain[i].provider, chain[i].model)
  }

  /** The invocation is of this routing decision, over candidates the request names and the filters accept. */
  ghost predicate RoutedTo(inv: Invocation, policy: R.Policy, r: ControlRequest, d: R.Decision) {
    && R.Route(policy, r.route, r.candidates) == R.Routed(d)
    && d.selected in r.candidates && R.Compliant(policy, r.route, d.selected)
    && inv.provider == d.selected.provider && inv.model == d.selected.model && inv.candidateId == d.selected.id
    && FallbacksOf(inv, d.chain)
  }

  /** It does what the request proposes, for the person who proposes it. */
  predicate DoesWhatIsProposed(inv: Invocation, p: Proposal) {
    && inv.action == p.action && inv.arguments == p.arguments
    && inv.caller == p.caller && inv.session == p.session
  }

  /** It enters the capability of this id, as the registry lists it. */
  ghost predicate EntersCapability(inv: Invocation, registry: seq<H.Capability>, id: string) {
    && inv.capabilityId == id
    && exists c :: c in registry && c.id == id && inv.capabilityVersion == c.version
         && inv.entrypointKind == c.entrypointKind && inv.entrypointAddress == c.entrypointAddress
  }

  /** The same capability, with its health assessed. */
  predicate IsAssessmentOf(assessed: H.Capability, c: H.Capability) {
    c.(health := assessed.health) == assessed
  }

  lemma AssessedIsListed(w: Snapshot, r: ControlRequest)
    requires Assessed(w, r).Some?
    ensures Assessed(w, r).value.id == r.capabilityId
    ensures exists c :: c in w.registry && c.id == r.capabilityId && IsAssessmentOf(Assessed(w, r).value, c)
  {
    var known := map[AGENT := H.Healthy] + r.dependencyStates;
    var all := H.Assessed(w.registry, Observed(w, r), known);
    var a := Assessed(w, r).value;
    var i :| 0 <= i < |all| && all[i] == a;
    assert w.registry[i] in w.registry;
  }

  lemma SelectedIsNamed(policy: R.Policy, q: R.Query, s: seq<R.Candidate>)
    requires R.Route(policy, q, s).Routed?
    ensures R.Route(policy, q, s).decision.selected in s
    ensures R.Compliant(policy, q, R.Route(policy, q, s).decision.selected)
  {
    RS.ScanSplits(policy, q, s);
    RS.OrderedShape(policy, q, R.ScanAll(policy, q, s).accepted);
  }

  /**
   Whatever an evaluation prepares hands over the request's own action and
   arguments, the capability the request names as the registry lists it, and one
   of the request's candidates with the fallbacks that the router puts after it.
   */
  lemma InvocationIsTheRequest(w: Snapshot, r: ControlRequest)
    requires RevalidateRoute(w, r).Ready? && RevalidateRoute(w, r).result.invocation.Some?
    ensures var inv := RevalidateRoute(w, r).result.invocation.value;
      && DoesWhatIsProposed(inv, r.proposal)
      && EntersCapability(inv, w.registry, r.capabilityId)
      && (exists d :: RoutedTo(inv, w.routing, r, d))
      && inv.fingerprint == PermissionDigest(r.capabilityId, inv.capabilityVersion, r.proposal)
  {
    hide R.Compliant, R.Route;
    AssessedIsListed(w, r);
    SelectedIsNamed(w.routing, r.route, r.candidates);
    var d := R.Route(w.routing, r.route, r.candidates).decision;
    assert RoutedTo(RevalidateRoute(w, r).result.invocation.value, w.routing, r, d);
  }

  // ----- When a capability is fit to be used

  /** The probe that counts: the trusted one for computer use, the request's own for anything else. */
  predicate ProbePasses(w: Snapshot, r: ControlRequest, health: H.HealthState) {
    var probe := if r.capabilityId == "core.hermes.computer-use" then
        (if w.trustedProbe.Some? then w.trustedProbe.value else Some(H.Blocked))
      else r.probe;
    probe.Some? ==>
      && probe.value !in {H.DisabledState, H.Misconfigured, H.Unavailable, H.Blocked}
      && (health == H.Healthy ==> probe.value != H.Degraded)
  }

  /**
   What a dependency outside the registry must be: the agent, healthy
   unless said otherwise, or as the request says.
   */
  predicate DependencyStands(r: ControlRequest, d: string, health: H.HealthState) {
    if d in r.dependencyStates then
      && r.dependencyStates[d] in {H.Healthy, H.Degraded, H.Unknown, H.Starting}
      && (health == H.Healthy ==> r.dependencyStates[d] == H.Healthy)
    else d == "core.hermes.agent"
  }

  lemma AssessmentOf(w: Snapshot, r: ControlRequest) returns (i: nat)
    requires Assessed(w, r).Some?
    ensures i < |w.registry| && w.registry[i].id == r.capabilityId
    ensures Assessed(w, r).value == w.registry[i].(health := Assessed(w, r).value.health)
    ensures Assessed(w, r).value.health == H.DeriveState(w.registry[i], Observed(w, r),
      H.States(w.registry[..i], Observed(w, r), map[AGENT := H.Healthy] + r.dependencyStates))
  {
    var known := map[AGENT := H.Healthy] + r.dependencyStates;
    var all := H.Assessed(w.registry, Observed(w, r), known);
    i :| 0 <= i < |all| && all[i] == Assessed(w, r).value;
    H.AssessedAt(w.registry, Observed(w, r), known, i);
  }

  lemma UnlistedBefore(registry: seq<H.Capability>, o: H.Observations, known: map<string, H.HealthState>, i: nat,
                       d: string)
    requires i <= |registry| && !H.Listed(registry, d)
    ensures d in H.States(registry[..i], o, known) <==> d in known
    ensures d in known ==> H.States(registry[..i], o, known)[d] == known[d]
  {
    H.PrefixLists(registry, i, d);
    H.UnlistedStays(registry[..i], o, known, d);
  }

  /**
   Only a fit capability gets past policy: enabled, configured by the request,
   available, not reported down by the probe that counts, and without a failed
   dependency; a degraded one only where the request allows it.
   */
  lemma PreparedIsFit(w: Snapshot, r: ControlRequest)
    requires CheckPolicy(w, r).Ready?
    ensures var c := CheckPolicy(w, r).result.capability;
      && w.projects && c.enabled && c.requiredConfig <= r.configuredKeys
      && c.id == r.capabilityId && c.id in w.availability && w.availability[c.id]
      && (c.health == H.Healthy || (c.health == H.Degraded && r.allowDegraded))
      && ProbePasses(w, r, c.health)
      && forall d :: d in c.dependencies && !H.Listed(w.registry, d) ==> DependencyStands(r, d, c.health)
  {
    hide H.DeriveState, H.States;
    var i := AssessmentOf(w, r);
    var known := map[AGENT := H.Healthy] + r.dependencyStates;
    var states := H.States(w.registry[..i], Observed(w, r), known);
    var c := w.registry[i];
    H.StateExactly(c, Observed(w, r), states);
    forall d | d in c.dependencies && !H.Listed(w.registry, d)
      ensures DependencyStands(r, d, CheckPolicy(w, r).result.capability.health)
    {
      UnlistedBefore(w.registry, Observed(w, r), known, i, d);
    }
  }

  /** What a caller reports about computer use is never looked at. */
  lemma OwnProbeIsIgnored(w: Snapshot, r: ControlRequest, claimed: Option<H.HealthState>)
    requires r.capabilityId == "core.hermes.computer-use"
    ensures CheckPolicy(w, r.(probe := claimed)) == CheckPolicy(w, r)
    ensures w.trustedProbe.None? ==> !CheckPolicy(w, r).Ready?
  {
    assert Observed(w, r.(probe := claimed)) == Observed(w, r);
    if CheckPolicy(w, r).Ready? {
      PreparedIsFit(w, r);
    }
  }

  // ----- When an evaluation succeeds, and how it fails otherwise

  /** The capability the request names, assessed well enough for it. */
  ghost predicate Usable(w: Snapshot, r: ControlRequest, c: H.Capability) {
    Assessed(w, r) == Some(c) && (c.health == H.Healthy || (c.health == H.Degraded && r.allowDegraded))
  }

  /** Policy is asked exactly about a usable capability, and its answer is the one that counts. */
  lemma PolicyExactly(w: Snapshot, r: ControlRequest)
    ensures var p := CheckPolicy(w, r);
      && (p.Broken? <==> !w.projects)
      && (p.Ready? <==> w.projects && exists c :: Usable(w, r, c))
      && (p.Ready? ==>
            Usable(w, r, p.result.capability) && p.result.outcome == w.decide(p.result.capability, r.proposal))
      && !p.RoutingError?
  {
    if Assessed(w, r).Some? && CheckPolicy(w, r).Ready? {
      assert Usable(w, r, Assessed(w, r).value);
    }
  }

  /** The answer of the policy to this request, if it gets that far. */
  ghost predicate Decided(w: Snapshot, r: ControlRequest, outcome: Outcome) {
    w.projects && exists c :: Usable(w, r, c) && w.decide(c, r.proposal) == outcome
  }

  /** A direct preparation yields an invocation exactly when the policy lets it proceed and a model can be routed to. */
  lemma PreparesExactly(w: Snapshot, r: ControlRequest)
    ensures var p := Prepare(w, r);
      && (p.Ready? && p.result.invocation.Some? <==>
            Decided(w, r, MayProceed) && R.Route(w.routing, r.route, r.candidates).Routed?)
      && (p.RoutingError? <==> Decided(w, r, MayProceed) && !R.Route(w.routing, r.route, r.candidates).Routed?)
      && (p.Ready? && p.result.invocation.None? <==> Decided(w, r, RequiresConfirmation) || Decided(w, r, MustBeDenied))
  {
    hide R.Route;
    PolicyExactly(w, r);
  }

  /**
   A confirmed preparation succeeds exactly on a consumed approval of
   this very action, person and capability version.
   */
  lemma ConfirmsExactly(w: Snapshot, r: ControlRequest, a: A.Approval)
    ensures PrepareConfirmed(w, r, a).Ready? <==>
      && a.state == A.Consumed
      && Decided(w, r, RequiresConfirmation)
      && (exists c :: Usable(w, r, c) && a.binding == PermissionDigest(r.capabilityId, c.version, r.proposal))
      && a.caller == r.proposal.caller && a.session == r.proposal.session
      && R.Route(w.routing, r.route, r.candidates).Routed?
  {
    hide R.Route;
    PolicyExactly(w, r);
    if CheckPolicy(w, r).Ready? {
      AssessedIsListed(w, r);
    }
  }

  /** A re-evaluation rebuilds an invocation exactly when the policy does not deny and a model can be routed to. */
  lemma RevalidatesExactly(w: Snapshot, r: ControlRequest)
    ensures var p := RevalidateRoute(w, r);
      && (p.Ready? && p.result.invocation.Some? <==>
            && (Decided(w, r, MayProceed) || Decided(w, r, RequiresConfirmation))
            && R.Route(w.routing, r.route, r.candidates).Routed?)
      && (p.Ready? && p.result.invocation.None? <==> Decided(w, r, MustBeDenied))
      && (p.Ready? ==> Decided(w, r, p.result.outcome))
  {
    hide R.Route;
    PolicyExactly(w, r);
  }
}
