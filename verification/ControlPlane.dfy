/** Health, policy and routing combined into one prepared, inert invocation. */
module ControlPlane {
  import opened Wrappers
  import opened Digests
  import A = Approvals
  import H = Health
  import R = Router

  datatype Outcome = MayProceed | RequiresConfirmation | MustBeDenied

  datatype ControlRequest = ControlRequest(
    capabilityId: string, proposal: Proposal, route: R.Query, candidates: seq<R.Candidate>,
    configuredKeys: set<string>, dependencyStates: map<string, H.HealthState>,
    probe: Option<H.HealthState>, allowDegraded: bool)

  /**
   Everything one evaluation reads besides the request. `decide` is the permission
   engine; `trustedProbe` is the computer-use probe provider, if there is one.
   */
  datatype Snapshot = Snapshot(
    projects: bool, registry: seq<H.Capability>, availability: map<string, bool>,
    trustedProbe: Option<Option<H.HealthState>>, routing: R.Policy,
    decide: (H.Capability, Proposal) -> Outcome)

  datatype Invocation = Invocation(
    capabilityId: string, capabilityVersion: string, entrypointKind: string, entrypointAddress: string,
    provider: string, model: string, candidateId: string, fallbackIds: seq<string>,
    fallbackRoutes: seq<(string, string)>, action: string, arguments: string,
    caller: string, session: string, fingerprint: Digest)

  datatype PathResult = PathResult(
    capability: H.Capability, outcome: Outcome, fingerprint: Digest, invocation: Option<Invocation>)

  /** A result, or the error class that was raised. */
  datatype Reply = Ready(result: PathResult) | PlaneError | RoutingError | Broken

  const COMPUTER_USE := "core.hermes.computer-use"
  const AGENT := "core.hermes.agent"

  function Fingerprint(c: H.Capability, p: Proposal): Digest {
    PermissionDigest(c.id, c.version, p)
  }

  function Probe(w: Snapshot, r: ControlRequest): Option<H.HealthState> {
    if r.capabilityId != COMPUTER_USE then r.probe
    else if w.trustedProbe.None? then Some(H.Unavailable)
    else w.trustedProbe.value
  }

  function Observed(w: Snapshot, r: ControlRequest): H.Observations {
    var probe := Probe(w, r);
    H.Observations(w.availability, map[r.capabilityId := r.configuredKeys],
                   if probe.Some? then map[r.capabilityId := probe.value] else map[])
  }

  function Find(s: seq<H.Capability>, id: string): (c: Option<H.Capability>)
    ensures c.Some? ==> c.value in s && c.value.id == id
    ensures c.None? ==> forall x :: x in s ==> x.id != id
  {
    if s == [] then None else if s[0].id == id then Some(s[0]) else Find(s[1..], id)
  }

  /** The assessed capability the request names. */
  function Assessed(w: Snapshot, r: ControlRequest): Option<H.Capability> {
    Find(H.Assessed(w.registry, Observed(w, r), map[AGENT := H.Healthy] + r.dependencyStates), r.capabilityId)
  }

  function CheckPolicy(w: Snapshot, r: ControlRequest): (p: Reply)
    ensures p.Ready? ==>
      p.result.fingerprint == Fingerprint(p.result.capability, r.proposal) && p.result.invocation.None?
  {
    if !w.projects then Broken
    else match Assessed(w, r)
      case None => PlaneError
      case Some(c) =>
        if c.health == H.Healthy || (r.allowDegraded && c.health == H.Degraded)
        then Ready(PathResult(c, w.decide(c, r.proposal), Fingerprint(c, r.proposal), None))
        else PlaneError
  }

  function InvocationOf(checked: PathResult, r: ControlRequest, d: R.Decision): Invocation {
    Invocation(checked.capability.id, checked.capability.version,
      checked.capability.entrypointKind, checked.capability.entrypointAddress,
      d.selected.provider, d.selected.model, d.selected.id,
      seq(|d.chain|, i requires 0 <= i < |d.chain| => d.chain[i].id),
      seq(|d.chain|, i requires 0 <= i < |d.chain| => (d.chain[i].provider, d.chain[i].model)),
      r.proposal.action, r.proposal.arguments, r.proposal.caller, r.proposal.session, checked.fingerprint)
  }

  function PrepareRoute(w: Snapshot, checked: PathResult, r: ControlRequest): (p: Reply)
    ensures p.Ready? ==>
      && p.result.invocation.Some?
      && p.result == checked.(invocation := p.result.invocation)
      && p.result.invocation.value.caller == r.proposal.caller
      && p.result.invocation.value.session == r.proposal.session
      && p.result.invocation.value.fingerprint == checked.fingerprint
    ensures p.Ready? || p.RoutingError?
  {
    match R.Route(w.routing, r.route, r.candidates)
    case Refused(_, _) => RoutingError
    case Routed(d) => Ready(checked.(invocation := Some(InvocationOf(checked, r, d))))
  }

  function Prepare(w: Snapshot, r: ControlRequest): Reply {
    var checked := CheckPolicy(w, r);
    if !checked.Ready? || checked.result.outcome != MayProceed then checked else PrepareRoute(w, checked.result, r)
  }

  function PrepareConfirmed(w: Snapshot, r: ControlRequest, a: A.Approval): Reply {
    if a.state != A.Consumed then PlaneError
    else
      var checked := CheckPolicy(w, r);
      if !checked.Ready? then checked
      else if checked.result.outcome != RequiresConfirmation then PlaneError
      else if !A.Matches(a, checked.result.fingerprint, r.proposal.caller, r.proposal.session) then PlaneError
      else PrepareRoute(w, checked.result, r)
  }

  function RevalidateRoute(w: Snapshot, r: ControlRequest): Reply {
    var checked := CheckPolicy(w, r);
    if !checked.Ready? || checked.result.outcome == MustBeDenied then checked else PrepareRoute(w, checked.result, r)
  }

  /** From the same inputs, revalidation rebuilds exactly what a direct preparation built. */
  lemma RevalidationRebuildsDirect(w: Snapshot, r: ControlRequest)
    requires Prepare(w, r).Ready? && Prepare(w, r).result.invocation.Some?
    ensures RevalidateRoute(w, r) == Prepare(w, r) && Prepare(w, r).result.outcome == MayProceed
  {
  }

  /** From the same inputs, revalidation rebuilds exactly what a confirmed preparation built. */
  lemma RevalidationRebuildsConfirmed(w: Snapshot, r: ControlRequest, a: A.Approval)
    requires PrepareConfirmed(w, r, a).Ready?
    ensures RevalidateRoute(w, r) == PrepareConfirmed(w, r, a)
    ensures PrepareConfirmed(w, r, a).result.outcome == RequiresConfirmation
    ensures A.Matches(a, PrepareConfirmed(w, r, a).result.fingerprint, r.proposal.caller, r.proposal.session)
  {
  }

  /** What one evaluation prepares is for the capability the request named, healthy enough to route. */
  lemma PreparedCapability(w: Snapshot, r: ControlRequest)
    requires RevalidateRoute(w, r).Ready?
    ensures var c := RevalidateRoute(w, r).result.capability;
      && c.id == r.capabilityId
      && c in H.Assessed(w.registry, Observed(w, r), map[AGENT := H.Healthy] + r.dependencyStates)
      && (c.health == H.Healthy || (r.allowDegraded && c.health == H.Degraded))
  {
  }

  /**
   One approval covers one action: whatever requests it prepares, at whatever
   times and under whatever registries, name the same capability in the same
   version and carry the very same proposal.
   */
  lemma ApprovalCoversOneAction(w: Snapshot, r: ControlRequest, v: Snapshot, s: ControlRequest, a: A.Approval)
    requires PrepareConfirmed(w, r, a).Ready? && PrepareConfirmed(v, s, a).Ready?
    ensures r.capabilityId == s.capabilityId && r.proposal == s.proposal
    ensures PrepareConfirmed(w, r, a).result.capability.version == PrepareConfirmed(v, s, a).result.capability.version
  {
    RevalidationRebuildsConfirmed(w, r, a);
    RevalidationRebuildsConfirmed(v, s, a);
    PreparedCapability(w, r);
    PreparedCapability(v, s);
  }
}
