/** The sequence an approved automation consent goes through on one thread. */
module Manager {
  import opened Wrappers
  import opened Digests
  import A = Approvals
  import C = Coordinator
  import opened Ledger
  import Consents = Activation

  /** How the scheduler answers the request to resume the job. */
  datatype Resumption = Resumed | Gone | Raises

  /** The clocks and the storage behaviour that the sequence meets on its way. */
  datatype Reads = Reads(issueNow: real, offerNow: real, consumeNow: real, stamp: real, st: Storage, revokeSt: Storage)

  /**
   What the job looks like when the sequence fetches it: its identifier, the row
   and binding that activating it would use, or why its inputs are refused.
   */
  datatype Found = Found(job: string, row: Grant, binding: Digest) | Refused(code: string) | NotFound

  /** Issuing and offering the approval succeed: the identities are well formed and the approval is still alive. */
  predicate Offers(r: C.Record<Consents.Plan>, v: Reads) {
    A.ValidIdentity(r.caller) && A.ValidIdentity(r.session) && v.offerNow < v.issueNow + 30.0
  }

  /** The approval a consent is offered under. */
  function OfferedFor(id: nat, r: C.Record<Consents.Plan>, v: Reads): A.Approval {
    A.Approval(id, r.payload.binding, r.caller, r.session, v.issueNow, v.issueNow + 30.0, A.Available, None)
  }

  /**
   The grant is stored: the job still has the binding that was consented to, the
   thirty seconds of the approval are not over, the ledger accepts the owner, and
   its storage works.
   */
  predicate Stores(a: Authority, r: C.Record<Consents.Plan>, found: Found, v: Reads) {
    && found.Found? && found.binding == r.payload.binding
    && Offers(r, v) && v.consumeNow < v.issueNow + 30.0
    && Available(a) && v.st == Sound
    && ActivationRefusal(a.disk, found.job, r.caller, r.session).None?
  }

  class AutomationManager {
    const approvals: A.OneTimeApprovalStore
    const authority: AutomationAuthority

    constructor (approvals: A.OneTimeApprovalStore, authority: AutomationAuthority)
      ensures this.approvals == approvals && this.authority == authority
    {
      this.approvals, this.authority := approvals, authority;
    }

    /** Issue an approval for exactly this consent and offer it. */
    method Offer(r: C.Record<Consents.Plan>, v: Reads) returns (o: Result<nat>)
      requires A.WellFormed(approvals.View())
      modifies approvals
      ensures A.WellFormed(approvals.View())
      ensures o.Ok? <==> Offers(r, v)
      ensures o.Ok? ==>
        && o.value == old(approvals.next)
        && approvals.records == old(approvals.records)[o.value := OfferedFor(o.value, r, v)]
    {
      var issued := approvals.DoIssue(Some(r.payload.binding), r.caller, r.session, 30.0, v.issueNow);
      if issued.Err? {
        return Err(issued.code);
      }
      var offered := approvals.DoMakeAvailable(issued.value.id, v.offerNow);
      return if offered.Ok? then Ok(issued.value.id) else Err(offered.code);
    }

    /**
     Issue, offer and consume an approval, store the grant, resume the job. The
     new grant is left live exactly when it was stored and not revoked again: it
     stays live when the job was resumed, but also when the job was gone by then,
     and when resuming raised and revoking then failed too.
     */
    method Activate(r: C.Record<Consents.Plan>, found: Found, resumption: Resumption, v: Reads) returns (a: Reply<()>)
      requires authority.approvals == approvals && A.WellFormed(approvals.View())
      requires found.Found? ==> found.row.owner == r.caller && found.row.session == r.session && !found.row.revoked
      modifies approvals, authority
      ensures var stored := Stores(old(authority.View()), r, found, v);
        && (a.Done? <==> stored && resumption == Resumed)
        && (stored && resumption == Gone ==> a == Denied("job_not_found"))
        && (stored && resumption == Raises ==> a == Fault)
        && authority.disk ==
           if stored then
             var row := found.row.(revoked := resumption == Raises && v.revokeSt == Sound);
             old(authority.disk).(grants := old(authority.disk.grants)[found.job := row])
           else old(authority.disk)
      ensures found.NotFound? ==> a == Denied("job_not_found") && approvals.View() == old(approvals.View())
    {
      if found.NotFound? {
        return Denied("job_not_found");
      }
      var offered := Offer(r, v);
      if offered.Err? {
        return Denied(offered.code);
      }
      if found.Refused? {
        return Denied(found.code);
      }
      A.ConsumeIsExact(approvals.View(), offered.value, found.binding, r.caller, r.session, v.consumeNow, v.stamp);
      a := authority.ActivateExact(Request(found.job, found.row, found.binding, offered.value, v.consumeNow, v.stamp),
                                   v.st);
      if !a.Done? {
        return;
      }
      match resumption
      case Resumed => return;
      case Gone => return Denied("job_not_found");
      case Raises =>
        var _ := authority.RevokeIfOwner(found.job, r.caller, r.session, v.revokeSt);
        return Fault;
    }
  }
}
