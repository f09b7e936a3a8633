# Control-layer model of JL Agent

A Dafny 4.11 model of the control layer under `src/jl_agent/control`, with proofs
about whole runs of its protocols. `dafny verify dfyconfig.toml` checks everything.

What the project models, by file:

- **Grant ledger** — `Ledger` (one transaction at a time, and the authority object),
  `LedgerRuns` (opening, crashing, activating, revoking, stopping, contexts entering
  and leaving in every interleaving, over a log of effects), `LedgerSafety` (what every
  run guarantees), `LedgerAnswers` (exactly which calls take effect, and their answers),
  `Activation` (the management path from a consent record to a grant, interleaved with
  everything the ledger can do, crashes of its process included), `ActivationAnswers` (its
  steps, exactly), `Manager` (its sequence on one thread), `Digests` (fingerprints and
  bindings).
- **Approvals and consents** — `Approvals` (the one-time approval store),
  `Coordinator` (bounded pending-consent records; both coordinators of the program run
  this code over their own payload), `CoordinatorSafety` (exactly when a consent is
  handed out, decided, registered and evicted, and that decisions are in time).
- **Request, consent and execution pipeline** — `Lifecycle`, `ControlPlane`,
  `ControlPlaneSafety` (what a prepared invocation contains, and when there is one), `Gate`,
  and one machine over them: `Pipeline` (the steps of the handler, consent and
  execution threads; every step is one section under a lock), `PipelineOwnership` (who
  may move a lifecycle), `PipelineSafety` and `PipelineRuns` (the invariant and its
  preservation), `PipelinePast` (history only grows), `PipelineTheorems` (what holds in
  every run), `PipelineLocal` (what a step of one thread leaves alone),
  `PipelineWaiting` (what ends the wait of a thread, a registration or an approval),
  `PipelineSources` (which evaluation built what is registered), `PipelineProgress`
  (unchanged requests and approved consents do run, with others in every gap),
  `PipelineOutcomes` (where each request ends, and why), `PipelineStranded` (prepared
  requests that nobody will ever execute).
- **Routing and health** — `Router`, `RouterSafety`, `RouterPreference` (which candidate
  wins, in terms of the candidates' fields), `Ordering`, `Health`.
- **Bytes on the wire and on disk** — `Messages` (the signed consent message, as the
  runtime and the native app build it), `Der` (RSA public keys), `Frames` (one frame per
  connection), `Audit` (the bounded ledger), `Migration` (merging user-data trees),
  `Voice` (session ownership and its event buffer), `VoiceAnswers` (each voice step,
  exactly), `Bytes`.

How it is modelled:

- An object whose methods update its fields is a class. Each method is proved equal to
  a function of the old state; the theorems are about those functions and about runs of
  machines built from them. A method body stands for one critical section.
- Clock readings, storage faults, crashes, what a socket delivers, what the scheduler or
  the voice backend answers, and the answer of the permission engine are arbitrary
  inputs of each step. No theorem needs clocks to be monotone.
- The pipeline and the ledger carry history (every effect, every dispatch, which
  lifecycle took which approval). History is only ever read by theorems.

Assumptions:

- SHA-256 over canonical JSON is injective: a digest is the term of what was hashed.
- Random tokens are fresh: identifiers come from a counter. Nonces play no other part.
- Storage survives a crash, a committed transaction is atomic, and the file lock admits
  one open authority at a time.
- Audit writes do not raise, and file operations of the audit ledger succeed.
- The thread of a voice turn starts. If starting it raised, the program would keep the
  turn flag set without a turn.
- Times are reals, so the guard against non-finite expiries has nothing to reject.
- Request and consent texts are given as the bytes they encode to.

Where a stronger claim would be natural but is false, the exact condition is proved:

- A registered request is not sure to run: anyone genuine who executes its id without
  being its person denies it for good (`PipelineWaiting.ForeignExecutionDenies`). It waits
  exactly until somebody genuine executes its id or an insertion finds it expired
  (`PipelineWaiting.RegistrationWaits`), and until then its person is let through exactly
  while nothing has changed (`PipelineProgress.RegisteredRequestGoes`).
- An activation reads the configuration twice. The stored fingerprint is the approved one
  exactly when both reads agree (`LedgerSafety.ApprovedIsAdmitted`); otherwise an occurrence
  can be admitted under a configuration nobody approved
  (`LedgerSafety.ConfigurationMayChange`).
- A failed activation can leave a live grant: exactly when it was stored and the job was
  gone, or resuming raised and revoking failed too (`Manager.AutomationManager.Activate`).
- An approval can be spent without a grant: exactly so when the commit of an activation that
  would have succeeded fails (`LedgerAnswers.FailedCommitSpendsApproval`).
- A request does not always reach a final state: one whose consent was approved, but whose
  registration finds its id taken or no room, stays prepared for good, neither executed nor
  denied by anything anyone does later (`PipelineStranded.ApprovedMayStrand`).
- A consumed approval can carry a consumption time after its expiry
  (`Approvals.ConsumptionMayBeStampedLate`): consuming succeeds exactly when the first clock
  reading precedes the expiry (`Approvals.ConsumeIsExact`). A lease is positive exactly when
  the second reading does (`Ledger.LeaseEndsWithGrant`).
- A receipt is spent before its context is counted out (`LedgerSafety.SpentBeforeDecrement`);
  what the counter equals in every reachable state is the number of contexts inside
  (`LedgerSafety.EveryRunIsLawful`).
- A request id can be registered again exactly when its preparation has expired
  (`Gate.RegistersAgainAfterExpiry`), so dispatch is once per registration.
- Bytes after a newline are noticed or not depending on chunking
  (`Frames.TrailingBytesDependOnChunks`), and `Frames.ReadsExactly` says exactly when.
- Voice has an owner exactly when it is active, after every step but a successful start
  during which the backend itself reported the stop phrase (`Voice.StepKeepsOwned`).
- Voice turns can overlap (`Voice.TurnsMayOverlap`), but only after a stop or a shutdown
  that abandons a running turn: a step keeps turns one at a time exactly unless it is such
  a one (`Voice.StepKeepsOneTurn`, `Voice.TurnsOverlapOnlyAfterAbandoning`).
- The order of a registry decides its health: when everything is fit by itself and every
  dependency is listed, all capabilities come out healthy exactly if each is listed after
  its dependencies (`Health.HealthyExactlyInOrder`).
- The fallback bound needs a positive number of attempts
  (`RouterSafety.BoundNeedsPositiveAttempts`).
- Migration into an existing destination compares files only: one that counts as already
  present holds everything exactly when it holds the source directories without a file
  below them (`Migration.AlreadyPresentHoldsEverything`, with an input in
  `Migration.EmptyDirectoriesAreNotCompared`).
- A migration that fails leaves the destination as it was, exactly unless only the final
  check of the new directory failed (`Migration.FailureLeavesTargetAlone`).

## Model

| member | source | states |
|---|---|---|
| Digests.SemanticIsExact | src/jl_agent/control/automation.py:88-90 | what is hashed is equal exactly for jobs that agree outside runtime fields and repeat progress |
| Digests.FingerprintIsExact | src/jl_agent/control/automation.py:51-90 | two accepted jobs share a fingerprint exactly when they are the same reminder up to runtime fields and repeat progress |
| Digests.AcceptedJobIsConfined | src/jl_agent/control/automation.py:55-79 | an accepted job runs the fixed script without an agent, delivers success and failure locally, and carries no other field with a meaning of its own |
| Digests.AcceptedExactly | src/jl_agent/control/automation.py:51-90 | a job is accepted exactly in the one allowed form, written out field by field, and what is hashed is then the job without runtime fields and repeat progress |
| Approvals.StepKeepsApprovals | src/jl_agent/control/approvals.py:41-160 | any operation keeps an approval's subject and expiry, moves its state only forward, and only a successful consume makes it consumed |
| Approvals.ConsumeIsExact | src/jl_agent/control/approvals.py:92-125 | consuming succeeds exactly on an available, unexpired approval with this fingerprint, caller and session, and changes nothing else |
| Approvals.ConsumedIsFinal | src/jl_agent/control/approvals.py:92-160 | a consumed approval never changes and is never consumed again, whatever the store does next |
| Approvals.ConsumedAtMostOnce | src/jl_agent/control/approvals.py:92-125 | in every run each approval is consumed at most once |
| Approvals.ConsumptionMayBeStampedLate | src/jl_agent/control/approvals.py:118-124 | expiry and consumption time are two clock reads, so the stamp may fall after the expiry |
| Approvals.ConsumeRefuses | src/jl_agent/control/approvals.py:92-125 | the refusals of a consumption in their order, with lazy expiry as the only trace |
| Approvals.MakeAvailableIsExact | src/jl_agent/control/approvals.py:80-90 | an approval becomes available exactly if it was issued and its time has not run out |
| Approvals.RevokeIsExact | src/jl_agent/control/approvals.py:127-141 | an approval ends revoked, and nothing else, exactly if it was still issued or available and in time |
| Approvals.OneTimeApprovalStore.DoIssue | src/jl_agent/control/approvals.py:53-78 | issuing adds one fresh issued record, or refuses a malformed fingerprint, bad identities and bad lifetimes |
| Approvals.OneTimeApprovalStore.Lookup | src/jl_agent/control/approvals.py:147-160 | a lookup writes lazy expiry back and changes nothing else |
| Approvals.OneTimeApprovalStore.DoMakeAvailable | src/jl_agent/control/approvals.py:80-90 | only an issued, unexpired approval becomes available |
| Approvals.OneTimeApprovalStore.DoConsume | src/jl_agent/control/approvals.py:92-125 | the whole new store and answer of a consume, each refusal in its order |
| Approvals.OneTimeApprovalStore.DoRevoke | src/jl_agent/control/approvals.py:127-141 | revoking is final and refused on terminal approvals |
| Ledger.LeaseEndsWithGrant | src/jl_agent/control/automation.py:317-348 | a lease is at most ten seconds and ends with its grant; it is positive exactly when the second clock read still precedes the expiry |
| Ledger.AutomationAuthority.constructor | src/jl_agent/control/automation.py:155-169 | recovery: every receipt in flight becomes unknown, nothing else changes |
| Ledger.AutomationAuthority.Open | src/jl_agent/control/automation.py:111-169 | opening refuses unsafe, locked, missing and damaged storage in that order, and otherwise recovers what is stored or starts empty |
| Ledger.AutomationAuthority.Begin | src/jl_agent/control/automation.py:171-188 | a transaction is refused when faulted, closed or unsafe, and a storage failure latches the fault |
| Ledger.AutomationAuthority.Activate | src/jl_agent/control/automation.py:224-263 | inputs are checked before any transaction (which inputs pass is `LedgerAnswers.ActivationInputExactly`); disk, store and answer afterwards, the approval consumed even when the commit then fails |
| Ledger.AutomationAuthority.ActivateExact | src/jl_agent/control/automation.py:239-263 | the transaction of an activation: stop, owner, capacity, consumption, then the row |
| Ledger.AutomationAuthority.Revoke | src/jl_agent/control/automation.py:265-276 | the transaction of a revocation, whatever the storage does; that only the owner revokes, and what is answered, are `LedgerAnswers.ForeignRevocationIsRefused` and `LedgerAnswers.OwnersRevocationWorks` |
| Ledger.AutomationAuthority.RevokeIfOwner | src/jl_agent/control/automation.py:278-291 | the same, with a missing grant as an answer of its own (`LedgerAnswers.NothingToRevoke`) |
| Ledger.AutomationAuthority.GlobalStop | src/jl_agent/control/automation.py:299-302 | the stop is durable and its answer is the number of contexts inside |
| Ledger.AutomationAuthority.AdmitBegin | src/jl_agent/control/automation.py:311-348 | an admission either commits one receipt in flight and counts its context, or changes no more than the fault flag |
| Ledger.AutomationAuthority.AdmitExact | src/jl_agent/control/automation.py:317-348 | the transaction of an admission with all its refusals in order |
| Ledger.AutomationAuthority.Finalise | src/jl_agent/control/automation.py:349-356 | leaving marks the receipt spent in a transaction that may fail |
| Ledger.AutomationAuthority.Decrement | src/jl_agent/control/automation.py:356-358 | the context is counted out whether or not its receipt was finalised |
| Ledger.AutomationAuthority.Close | src/jl_agent/control/automation.py:360-368 | closing succeeds exactly when no context is inside or the authority is closed already |
| LedgerRuns.AdmissionDecidedByHistory | src/jl_agent/control/automation.py:311-348 | admission is decided exactly by the effects so far, whatever was crashed or reopened in between |
| LedgerRuns.StepKeepsInv | src/jl_agent/control/automation.py:104-368 | every step keeps the database equal to the replay of its effects, used approvals consumed, and the counter equal to the contexts inside |
| LedgerRuns.RunKeepsInv | src/jl_agent/control/automation.py:104-368 | the same over every run |
| LedgerSafety.NeverAdmittedTwice | src/jl_agent/control/automation.py:331-343 | no execution id and no occurrence of a job is ever admitted twice |
| LedgerSafety.ApprovalGrantsOnce | src/jl_agent/control/automation.py:249-263 | no approval ever yields two grants |
| LedgerSafety.OwnerNeverChanges | src/jl_agent/control/automation.py:243-248 | a job keeps its first owner and session for good |
| LedgerSafety.AdmissionTracesToActivation | src/jl_agent/control/automation.py:224-348 | each admission goes back to one activation in force: its approval was for exactly that grant, nothing revoked or replaced it since, nothing was stopped before, and time was left |
| LedgerSafety.ApprovedIsAdmitted | src/jl_agent/control/automation.py:224-263 | the admitted job is the approved reminder; its configuration is the approved one exactly when it did not change between the two reads of the activation |
| LedgerSafety.ConfigurationMayChange | src/jl_agent/control/automation.py:224-263 | one run from the start, for any paused reminder and any two configurations: approved under the first, admitted under the second |
| LedgerSafety.SomeConfigurationChanges | src/jl_agent/control/automation.py:51-90 | such a run exists, with a concrete reminder that the program accepts |
| LedgerSafety.AdmittedWasApproved | src/jl_agent/control/automation.py:224-348 | in every reachable state, what was admitted is the very reminder that its owner's consumed approval named |
| LedgerSafety.EveryRunIsLawful | src/jl_agent/control/automation.py:317-358 | in every reachable state the counter is the number of contexts inside, and a closed authority has none |
| LedgerSafety.EverythingOnce | src/jl_agent/control/automation.py:224-348 | in every reachable state no occurrence, execution id or approval has been used twice |
| LedgerSafety.ReceiptsSurvive | src/jl_agent/control/automation.py:155-164 | in every run no receipt is lost, and one only moves from in flight to spent or unknown |
| LedgerSafety.StoppedForGood | src/jl_agent/control/automation.py:293-302 | after a stop nothing is ever admitted again, through crashes and reopenings; contexts only leave |
| LedgerSafety.GlobalStopDrains | src/jl_agent/control/automation.py:299-302 | the answer of a stop counts the contexts inside, and zero means nobody is inside ever again |
| LedgerSafety.CloseNeedsEmpty | src/jl_agent/control/automation.py:360-368 | closing takes effect exactly when no context is inside |
| LedgerSafety.SpentBeforeDecrement | src/jl_agent/control/automation.py:349-358 | a receipt is spent while its context is still counted |
| LedgerAnswers.ActivationInputExactly | src/jl_agent/control/automation.py:200-238 | the inputs of an activation pass exactly if the reminder has the accepted form, is paused and disabled, its user and session have 1 to 256 characters and the expiry is after the first clock read and within a day of the second |
| LedgerAnswers.RefusedActivationChangesNothing | src/jl_agent/control/automation.py:224-238 | any other activation leaves ledger, approvals and history as they were |
| LedgerAnswers.ActivatedOnlyPaused | src/jl_agent/control/automation.py:224-263 | in every reachable state each grant was activated for such inputs, and its row holds the job, user, session and expiry that were passed |
| LedgerAnswers.GrantedExactly | src/jl_agent/control/automation.py:239-263 | an accepted activation succeeds exactly with an available, unexpired, exact approval on a working ledger that is not stopped, for the owner or on a free row, and changes that row only |
| LedgerAnswers.FailedCommitSpendsApproval | src/jl_agent/control/automation.py:249-263 | when the commit of such an activation fails the approval is spent and nothing is granted |
| LedgerAnswers.RevokedByItsOwner | src/jl_agent/control/automation.py:265-291 | in every reachable state each revocation was asked for by the very user and session whose activation was in force |
| LedgerAnswers.ForeignRevocationIsRefused | src/jl_agent/control/automation.py:265-291 | a revocation by anyone else is answered as an owner mismatch and changes nothing, in both forms |
| LedgerAnswers.OwnersRevocationWorks | src/jl_agent/control/automation.py:265-291 | the owner's revocation marks the grant and is answered with the number of executions of that job whose receipt is in flight |
| LedgerAnswers.NothingToRevoke | src/jl_agent/control/automation.py:265-291 | without a grant one form is refused and the other answers that there is none, and neither changes anything |
| LedgerAnswers.ZeroMeansNobody | src/jl_agent/control/automation.py:265-276 | an answer of zero means that no context of the job is inside |
| LedgerAnswers.AdmissionInputExactly | src/jl_agent/control/automation.py:311-322 | the inputs of an admission pass exactly for an accepted reminder with a scheduled instant and an execution id |
| LedgerAnswers.AdmittedOnlyDue | src/jl_agent/control/automation.py:311-348 | in every reachable state each admission was of such a reminder, under the id and instant it carries |
| LedgerAnswers.EachOccurrenceOnce | src/jl_agent/control/automation.py:331-343 | in every reachable state no two admissions share an execution id, nor a job and its scheduled instant |
| LedgerAnswers.LeaseExactly | src/jl_agent/control/automation.py:317-346 | a lease is ten seconds, or what is left of the grant if that is less |
| LedgerAnswers.EveryRunIsBounded | src/jl_agent/control/automation.py:240-343 | in every reachable state there are at most a thousand grants and ten thousand receipts |
| LedgerAnswers.FailureIsLatched | src/jl_agent/control/automation.py:171-188 | which storage failures are latched, what each is answered with, and that none of them changes the database |
| LedgerAnswers.FaultedUntilOpened | src/jl_agent/control/automation.py:171-188 | after a latched failure no call takes effect until the ledger is opened again |
| LedgerAnswers.OpeningRecovers | src/jl_agent/control/automation.py:155-169 | opening turns receipts in flight into unknown ones, keeps every other receipt, every grant and the stop, and starts with nobody inside |
| LedgerAnswers.OpensExactly | src/jl_agent/control/automation.py:111-169 | opening succeeds exactly on private, unlocked, undamaged storage whose database is not lost |
| Coordinator.StepKeepsInv | src/jl_agent/control/consent.py:118-255 | request ids stay exactly those of the stored records, pairwise distinct and within the bound |
| Coordinator.StepKeepsRecords | src/jl_agent/control/consent.py:118-255 | no step removes a pending record or changes a decided one, and a record is approved or rejected only by the decision that succeeds on it |
| Coordinator.GoneStaysGone | src/jl_agent/control/consent.py:131-147 | an evicted record never comes back and can never be decided |
| Coordinator.DecidedAtMostOnce | src/jl_agent/control/consent.py:211-242 | in every run each record is decided at most once |
| Coordinator.RegisterAdds | src/jl_agent/control/consent.py:148-181 | a registration adds exactly its own pending record, or nothing |
| Coordinator.ConsentCoordinator.Evict | src/jl_agent/control/consent.py:137-147 | at the bound the oldest decided record makes room, and only as much as is needed |
| Coordinator.ConsentCoordinator.DoRegister | src/jl_agent/control/consent.py:118-181 | a request that needs no consent or does not wait for one is turned away first; otherwise expire, evict, then refuse a duplicate or a full table, or insert |
| Coordinator.ConsentCoordinator.DoGet | src/jl_agent/control/automation_management.py:132-154 | the new records and the answer of a lookup; exactly when it succeeds is `CoordinatorSafety.GetExactly` |
| Coordinator.ConsentCoordinator.DoDecide | src/jl_agent/control/automation_management.py:156-174 | the new records and the answer of a decision; exactly when it takes effect is `CoordinatorSafety.DecideExactly` |
| CoordinatorSafety.DecideExactly | src/jl_agent/control/consent.py:211-255 | a decision takes effect exactly on a stored record that is pending and whose expiry lies after the clock reading, and changes only that record, as decided |
| CoordinatorSafety.DecideRefuses | src/jl_agent/control/consent.py:234-255 | any other decision is answered as not found, replayed or expired, and at most marks the record expired |
| CoordinatorSafety.GetExactly | src/jl_agent/control/consent.py:183-209 | a lookup succeeds exactly for request id, caller and session of a pending record before its expiry, answers that record and changes nothing |
| CoordinatorSafety.EvictsOldest | src/jl_agent/control/consent.py:137-147 | only at the bound, and only the oldest decided or expired record, is ever evicted |
| CoordinatorSafety.EvictionMakesRoom | src/jl_agent/control/consent.py:137-147 | there is room after eviction exactly if there was before, or some record was decided or overdue |
| CoordinatorSafety.RegisterExactly | src/jl_agent/control/consent.py:130-181 | a registration succeeds exactly when there is room and no remaining record has its request id, with the record it adds and the answer otherwise |
| CoordinatorSafety.NothingOverdueIsPending | src/jl_agent/control/consent.py:130-137 | after a registration whatever is still pending has time left |
| CoordinatorSafety.DecidedInTime | src/jl_agent/control/consent.py:211-255 | in every run whatever ends approved or rejected was decided so by one step that found it pending and read a clock before its expiry |
| Activation.StepKeepsInv | src/jl_agent/control/automation_management.py:301-417 | every step of every management thread, interleaved with any ledger step and any crash of the process, keeps each approval for a grant tied to the one approved consent it was issued for |
| Activation.CrashKeepsLinks | src/jl_agent/control/automation_management.py:66-80 | a crash forgets the pending consents and ends the deciding threads, and nothing that was activated loses its consent |
| Activation.GrantsComeFromConsents | src/jl_agent/control/automation_management.py:327-417 | each grant comes from one approved consent of the same user and session, and no consent yields two grants |
| Activation.GrantIsWhatWasShown | src/jl_agent/control/automation_management.py:301-325 | the grant is for the very reminder, configuration and expiry that the consent presented |
| Activation.AdmittedWasConsentedTo | src/jl_agent/control/automation_management.py:301-417 | end to end over every run: what is admitted is a reminder that a consent presented and its owner approved, through the one approval consumed for the grant in force |
| ActivationAnswers.AnsweredExactly | src/jl_agent/control/automation_management.py:327-370 | a thread goes on with an automation exactly when its consent was approved while pending and before its expiry |
| ActivationAnswers.IssuedExactly | src/jl_agent/control/automation_management.py:393-396 | the approval of a consent is for exactly its binding, user and session, and lives thirty seconds |
| ActivationAnswers.OfferedExactly | src/jl_agent/control/automation_management.py:397-399 | the thread offers its own approval in time, or ends |
| ActivationAnswers.ActivatesWithItsOwn | src/jl_agent/control/automation_management.py:399-417 | the thread activates what it fetched, for user, session and expiry of its consent, on its own approval, once |
| Manager.AutomationManager.Offer | src/jl_agent/control/automation_management.py:393-399 | offering succeeds exactly for valid identities within the life of the approval, and adds one new approval, exact for the consent |
| Manager.AutomationManager.Activate | src/jl_agent/control/automation_management.py:386-417 | success exactly when the grant was stored and the job resumed; the grant is stored exactly when the job still has the binding that was consented to, in time, and the ledger takes it; it is left unrevoked exactly unless resuming raised and revoking worked |
| Lifecycle.ExecutingNeedsEveryGate | src/jl_agent/control/request_state.py:40-68 | any legal history that executes has passed every gate, in order, with or without confirmation |
| Lifecycle.ExecutesAtMostOnce | src/jl_agent/control/request_state.py:40-68 | a lifecycle executes at most once |
| Lifecycle.LegalExactly | src/jl_agent/control/request_state.py:40-68 | the legal transitions are exactly the steps of the direct and the confirmed path, completion of an execution, a denial from any state that is not final and a failure from any of those but a prepared one |
| Lifecycle.RequestLifecycle.Transition | src/jl_agent/control/request_state.py:75-87 | a legal transition appends to the history, an illegal one changes nothing |
| ControlPlane.RevalidationRebuildsDirect | src/jl_agent/control/control_plane.py:90-172 | from the same inputs revalidation rebuilds exactly what a direct preparation built; what that is, is `ControlPlaneSafety.InvocationIsTheRequest` |
| ControlPlane.RevalidationRebuildsConfirmed | src/jl_agent/control/control_plane.py:146-172 | the same for a confirmed preparation, whose approval matched the evaluated request; what is built is again `ControlPlaneSafety.InvocationIsTheRequest` |
| ControlPlane.ApprovalCoversOneAction | src/jl_agent/control/control_plane.py:146-165 | whatever one approval prepares, at any time and under any registry, is the same version of the same capability with the very same proposal |
| ControlPlaneSafety.InvocationIsTheRequest | src/jl_agent/control/control_plane.py:203-245 | whatever is prepared has the action and arguments of the proposal in their places, its caller and session, id, version and entrypoint of the capability the request names as the registry lists it, and provider, model, candidate and fallbacks of the routed selection and chain |
| ControlPlaneSafety.PreparedIsFit | src/jl_agent/control/control_plane.py:96-144 | what gets past policy is enabled, configured by the request, available, not down by the probe that counts, and without a failed dependency; degraded only where allowed |
| ControlPlaneSafety.OwnProbeIsIgnored | src/jl_agent/control/control_plane.py:99-113 | for computer use the probe a caller reports makes no difference, and without a trusted one nothing is prepared |
| ControlPlaneSafety.PolicyExactly | src/jl_agent/control/control_plane.py:96-144 | policy is asked exactly about a usable capability, and its answer is the outcome |
| ControlPlaneSafety.PreparesExactly | src/jl_agent/control/control_plane.py:90-95 | a direct preparation yields an invocation exactly when policy lets it proceed and a model can be routed to |
| ControlPlaneSafety.ConfirmsExactly | src/jl_agent/control/control_plane.py:146-165 | a confirmed one succeeds exactly on a consumed approval of this very action, person and capability version, when policy asks for confirmation and a model can be routed to |
| ControlPlaneSafety.RevalidatesExactly | src/jl_agent/control/control_plane.py:167-172 | a re-evaluation rebuilds an invocation exactly when policy does not deny and a model can be routed to |
| Gate.RegistersAgainAfterExpiry | src/jl_agent/control/execution.py:140-152 | a registered request id can be registered again exactly when its preparation has expired |
| Gate.GoExactly | src/jl_agent/control/execution.py:281-346 | a request passes exactly when it is unexpired, for the same person, backed by a matching consumed approval if it needs one, rebuilt identically, and its target holds |
| Gate.MatchesExactly | src/jl_agent/control/execution.py:328-346 | a stored approval matches exactly if it was consumed, has time left, and is for this fingerprint, caller and session |
| Gate.RefusedForFirstFailure | src/jl_agent/control/execution.py:281-326 | the category of a refusal is that of the first check that fails, in the order of the program |
| Gate.UnchangedIsNeverRefused | src/jl_agent/control/execution.py:281-326 | one revalidation of an unchanged request with unexpired preparation and approval finds nothing to refuse |
| Gate.ExecutionGate.RequireMatchingApproval | src/jl_agent/control/execution.py:328-346 | the approval is consumed, unexpired and exact for fingerprint, caller and session |
| Gate.ExecutionGate.RegisterPrepared | src/jl_agent/control/execution.py:102-153 | exactly when a prepared request is accepted, and the table afterwards |
| Gate.ExecutionGate.InsertPrepared | src/jl_agent/control/execution.py:140-152 | expired entries are dropped, then the id must be free and there must be room |
| Gate.ExecutionGate.Revalidate | src/jl_agent/control/execution.py:281-326 | the first reason for refusal, in the order of the checks, and the approval store afterwards |
| Gate.ExecutionGate.Begin | src/jl_agent/control/execution.py:174-222 | an unknown or used request changes nothing, a refused one is denied, and one that passes starts executing; an approval is looked up exactly where the checks before it passed |
| Gate.ExecutionGate.Finish | src/jl_agent/control/execution.py:228-237 | the lifecycle ends as the runtime reported |
| PipelineOwnership.ThreadMoves | src/jl_agent/control/request_state.py:134-394 | a thread that moves its lifecycle disturbs no other thread, consent or registration |
| PipelineOwnership.DecisionPasses | src/jl_agent/control/consent.py:211-231 | a decision passes the lifecycle from the consent to the deciding thread, which is then alone with it |
| PipelineOwnership.ThreadPassesToConsent | src/jl_agent/control/request_state.py:322-334 | registering a consent passes the lifecycle from the handler to the record |
| PipelineOwnership.ThreadPassesToTable | src/jl_agent/control/execution.py:140-152 | registering for execution passes the lifecycle to the prepared table |
| PipelineOwnership.GateDecides | src/jl_agent/control/execution.py:174-222 | starting or refusing an execution takes a lifecycle that no thread and no undecided consent holds |
| PipelineSafety.WalkIsLegalPath | src/jl_agent/control/request_state.py:75-87 | a sequence of transitions goes through exactly when it extends the history legally |
| PipelineSafety.ConfirmKeeps | src/jl_agent/control/consent.py:431-482 | preparing against a freshly consumed approval keeps the invariant on every outcome and on both endpoints |
| PipelineRuns.CallIsLegal | src/jl_agent/control/request_state.py:134-334 | whatever a call contains, its own transitions are legal and its thread owns where they end |
| PipelineRuns.ConsentIsDue | src/jl_agent/control/consent.py:130-137 | a thread that asks for a consent always needs one and waits for it, so that a registration is never turned away for these reasons |
| PipelineRuns.ExecuteKeeps | src/jl_agent/control/execution.py:155-222 | judging a request keeps the invariant, and what it starts is re-evaluated and backed |
| PipelineRuns.GetKeeps | src/jl_agent/control/consent.py:183-242 | a consent lookup denies a lifecycle only if it still waits for that expired consent |
| PipelineRuns.GuardsHold | src/jl_agent/control/execution.py:214-222 | no thread and no registration ever lacks the lifecycle and invocation that its next step reads |
| PipelineRuns.StepKeepsInv | src/jl_agent/control/request_state.py:134-394 | every step of every endpoint thread keeps the invariant |
| PipelinePast.StepKeepsPast | src/jl_agent/control/execution.py:102-249 | no step rewrites a history, a registration, a taken approval or a dispatch, and a new dispatch is of an executing lifecycle |
| PipelineLocal.StepBeside | src/jl_agent/control/execution.py:102-249 | a step moves a thread and a lifecycle only if they are its own, and leaves exactly these registrations and these approvals |
| PipelineWaiting.ThreadWaits | src/jl_agent/control/request_state.py:134-394 | a working thread and the lifecycle it holds stay as they are through every step of anyone else |
| PipelineWaiting.ExecutionDecides | src/jl_agent/control/execution.py:188-222 | one execution of a waiting registration starts it if revalidation finds nothing, and denies it for good otherwise |
| PipelineWaiting.StepWaits | src/jl_agent/control/execution.py:136-222 | a waiting registration goes on waiting exactly unless the step executes its id for somebody genuine or inserts a registration at or after its expiry |
| PipelineWaiting.RegistrationWaits | src/jl_agent/control/execution.py:136-222 | the same over every interleaving, both ways: once ended, the wait never begins again |
| PipelineWaiting.LeftAlone | src/jl_agent/control/execution.py:136-222 | steps that neither execute the id nor read a clock at or after the expiry never end the wait |
| PipelineWaiting.ForeignExecutionDenies | src/jl_agent/control/execution.py:203-294 | an execution of the same id by another caller or session denies the waiting request, and nobody can execute it afterwards |
| PipelineWaiting.StepKeepsRecord | src/jl_agent/control/approvals.py:92-160 | an approval stays as it is through every step that does not name it, and a consumed one through every step |
| PipelineSources.StepKeepsEvaluated | src/jl_agent/control/control_plane.py:90-172 | in every interleaving, what is about to be registered or is registered was built by an evaluation of its own request, and its approval is consumed and exact for it |
| PipelineTheorems.NoIllegalTransition | src/jl_agent/control/request_state.py:75-87 | in every interleaving no illegal transition is ever attempted and every history is a legal path |
| PipelineTheorems.PendingAwaitsApproval | src/jl_agent/control/consent.py:118-255 | a pending consent always holds a lifecycle that awaits approval, and no other consent holds it |
| PipelineTheorems.DispatchedWentThroughEveryGate | src/jl_agent/control/execution.py:217-225 | what reached the runtime was authenticated, policy-checked, approved and prepared before, in that order |
| PipelineTheorems.DispatchedAtMostOnce | src/jl_agent/control/execution.py:188-225 | each registration, and each lifecycle, is dispatched at most once |
| PipelineTheorems.DispatchIsReevaluated | src/jl_agent/control/execution.py:301-326 | the invocation that is dispatched equals the one just rebuilt for the request of the person who asked; what it contains is `PipelineTheorems.DispatchRunsTheRequest` |
| PipelineTheorems.DispatchRunsTheRequest | src/jl_agent/control/execution.py:155-249 | in every interleaving each dispatch has the action and the arguments of the request that was asked for, in their places, its caller and session, the capability the request names as a registry lists it, and one of its candidates with the fallbacks that routing puts after it |
| PipelineTheorems.ConfirmedDispatchIsApproved | src/jl_agent/control/execution.py:296-346 | in every interleaving a dispatch that needed confirmation is backed by a consumed approval with the fingerprint, caller and session of the re-evaluated request; any other uses none |
| PipelineTheorems.ApprovalBacksOneDispatch | src/jl_agent/control/approvals.py:92-125 | no approval backs two dispatches, and one that backs a dispatch can never be consumed again by any endpoint |
| PipelineProgress.RegistrationWasBuilt | src/jl_agent/control/request_state.py:274-320 | every registration that any interleaving reaches is what some snapshot of registry, policy and routing makes of its request |
| PipelineProgress.ReachedIsReady | src/jl_agent/control/request_state.py:134-394 | every state that an interleaving reaches meets the conditions from which the two theorems on requests getting through start |
| PipelineProgress.WaitingGoesExactly | src/jl_agent/control/execution.py:281-346 | the person a waiting registration was prepared for is let through exactly while preparation and approval are unexpired, the evaluation is the same and the target holds |
| PipelineProgress.RegisteredRequestGoes | src/jl_agent/control/execution.py:155-222 | the same for every reachable registration, after any further steps of anyone that leave it waiting |
| PipelineProgress.UnchangedRequestRuns | src/jl_agent/control/request_state.py:274-320 | with any steps of any other thread between its own, a proper request that may proceed and whose inputs do not change is prepared, registered, executed and handed over exactly as prepared, unless its id is taken, executed by others or purged |
| PipelineProgress.ApprovedConsentRuns | src/jl_agent/control/consent.py:401-464 | with any steps of any other thread between its own, approving a pending consent whose request still evaluates to what was presented leads in time to its execution, on the approval issued for it, unless others use that approval first, take its id or execute it |
| PipelineOutcomes.UnattributedCallEnds | src/jl_agent/control/request_state.py:134-255 | a call that is not authenticated, not decoded or not for its own person ends at once, denied, failed or denied |
| PipelineOutcomes.UndecidedCallEnds | src/jl_agent/control/request_state.py:282-289 | a call that policy cannot answer ends denied for an unfit capability and failed without a registry |
| PipelineOutcomes.DecidedCallGoesOn | src/jl_agent/control/request_state.py:290-369 | what policy answers decides whether a call ends denied, asks for a consent or presents its approval |
| PipelineOutcomes.DirectCallEnds | src/jl_agent/control/request_state.py:297-325 | a call that may proceed is prepared exactly if it still may and a model can be routed to; otherwise where it ends tells why |
| PipelineOutcomes.AskingLeaves | src/jl_agent/control/request_state.py:327-351 | asking leaves one pending consent for exactly this request, or denies it |
| PipelineOutcomes.OverdueConsentDenies | src/jl_agent/control/consent.py:183-255 | a consent whose time has run out starts nothing: looking it up or deciding it denies its request |
| PipelineOutcomes.DecisionStarts | src/jl_agent/control/consent.py:408-441 | a decision in time starts exactly one thread, which issues an approval or denies the request |
| PipelineOutcomes.RejectionDenies | src/jl_agent/control/consent.py:419-430 | a rejected request is denied, whatever others do in between |
| PipelineOutcomes.PresentedExactly | src/jl_agent/control/request_state.py:359-370 | a presented approval is taken exactly if it is available, in time and exact; any other denies the request |
| PipelineOutcomes.RefusedRegistrationLeaves | src/jl_agent/control/execution.py:136-152 | a registration that finds no room or its id taken denies a direct request and leaves a consented one prepared and unregistered |
| PipelineStranded.StrandedForGood | src/jl_agent/control/execution.py:155-249 | over every interleaving, a prepared lifecycle that no thread holds and no registration names stays prepared for good: nothing executes or denies it |
| PipelineStranded.ApprovedMayStrand | src/jl_agent/control/consent.py:441-478 | so ends a request whose consent was approved when its registration is refused |
| PipelineOutcomes.ExecutionReadsApproval | src/jl_agent/control/execution.py:281-346 | judging a waiting request looks up its approval exactly if it needs one, is in time and is still for its person, and otherwise leaves the store alone |
| PipelineOutcomes.RuntimeReportIsRecorded | src/jl_agent/control/execution.py:222-249 | an executed request ends completed or denied as the runtime reports, and failed on any other report, whatever others do before that is recorded |
| Router.AcceptedIsCompliant | src/jl_agent/control/router.py:193-228 | a candidate has no rejection reason exactly when it meets every hard requirement |
| Router.BetterIsStrictTotal | src/jl_agent/control/router.py:230-256 | the score, which ends in the id, is a strict total order on candidates with distinct ids |
| Router.RouteCandidates | src/jl_agent/control/router.py:138-191 | the loop computes the routing decision, duplicates and rejections included; what should win is `RouterPreference.NobodyPrecedesSelected` |
| RouterSafety.ScanSplits | src/jl_agent/control/router.py:143-158 | the candidates split into accepted and rejected exactly when their ids are distinct |
| RouterSafety.SortedUnique | src/jl_agent/control/router.py:230-256 | a set of candidates has one sorted order |
| RouterSafety.RoutingIgnoresOrder | src/jl_agent/control/router.py:138-191 | any permutation of the candidates gives the same choice and chain and the same set of rejections, or raises both times |
| RouterSafety.ChainIsSound | src/jl_agent/control/router.py:143-183 | the chain has distinct, compliant members, respects the locality of the choice, and omits no better candidate of allowed locality |
| RouterSafety.BoundNeedsPositiveAttempts | src/jl_agent/control/router.py:258-265 | the chain is within the number of attempts exactly when that number is positive, as every loaded policy has it |
| RouterSafety.SelectedIsBest | src/jl_agent/control/router.py:165-183 | without an explicit choice the selected candidate has the least score of all accepted ones; what the score means is `RouterPreference.BetterExactly` |
| RouterSafety.RoutedExactlyWhen | src/jl_agent/control/router.py:138-183 | routing succeeds exactly when ids are distinct and the explicit choice, or some candidate, is compliant |
| RouterSafety.AddedCandidateWinsOrNothingChanges | src/jl_agent/control/router.py:165-183 | a candidate that is added wins or leaves the selection as it was |
| RouterPreference.BetterExactly | src/jl_agent/control/router.py:230-256 | one candidate scores before another exactly if it is healthier, or as healthy and better by the fields its category asks for, or equal in all of these and earlier by provider, model and id |
| RouterPreference.NobodyPrecedesSelected | src/jl_agent/control/router.py:165-191 | without an explicit choice no accepted candidate precedes the selected one in that order of fields |
| RouterPreference.FallbacksFollowPreference | src/jl_agent/control/router.py:176-191 | the fallbacks are in that order too, and no candidate of allowed locality that is left out precedes one of them |
| RouterPreference.ChainIsFull | src/jl_agent/control/router.py:258-265 | an accepted candidate of allowed locality is left out only when all attempts are taken |
| RouterPreference.ReasonsExactly | src/jl_agent/control/router.py:193-228 | each reason is given exactly for that defect, with what is missing |
| RouterPreference.DecisionReports | src/jl_agent/control/router.py:165-191 | a decision reports every rejected candidate and no other, its cost, and whether the explicit choice was honored, which is then the selected one |
| RouterPreference.RefusalReports | src/jl_agent/control/router.py:143-175 | a refusal names an id that occurs twice, the explicit id that is not accepted, or that nothing is |
| Health.AssessRegistry | src/jl_agent/control/health.py:67-98 | the loop computes the fold over the registry in its order |
| Health.DeriveTakesMinimum | src/jl_agent/control/health.py:100-175 | one assessment takes the minimum of the capability's own level and its dependencies' levels |
| Health.StateExactly | src/jl_agent/control/health.py:100-175 | which state a capability gets, condition by condition |
| Health.LevelIsReachableMinimum | src/jl_agent/control/health.py:67-175 | listed dependencies-first, each capability gets the least level of everything it transitively depends on, external states included |
| Health.HealthyExactlyInOrder | src/jl_agent/control/health.py:74-98 | when everything is fit by itself and every dependency is listed, all come out healthy exactly if dependencies are listed first |
| Messages.ConsentSignatureMessage | src/jl_agent/control/consent.py:330-346 | the runtime's builder yields the framed fields, or fails when a length does not fit eight bytes |
| Messages.CanonicalConsentMessage | macos-app/Sources/JLAgentCore/ConsentSigningKey.swift:160-179 | the native builder yields the same bytes on processors of either byte order |
| Messages.SwappedMemory | macos-app/Sources/JLAgentCore/ConsentSigningKey.swift:174-175 | the memory of a byte-swapped length is its big-endian encoding |
| Bytes.FirstByteLeads | macos-app/Sources/JLAgentCore/ConsentSigningKey.swift:174-175 | in the encoding of a length the first byte weighs most |
| Messages.ParsesExactly | src/jl_agent/control/automation_management.py:576-591 | a byte string decodes to six fields exactly when it is their message |
| Messages.MessagesAreDistinct | src/jl_agent/control/consent.py:330-346 | equal messages have equal fields |
| Messages.MessageSpelledOut | src/jl_agent/control/consent.py:330-346 | the message is the prefix and six fields in their order, each after its length in eight bytes |
| Der.DerValueExactly | src/jl_agent/control/consent.py:566-585 | reading a value succeeds exactly on an encoding of it that lies inside the input, with a short length or a long one of up to four bytes |
| Der.AcceptsExactlyKeys | src/jl_agent/control/consent.py:535-563 | a key is accepted, with this modulus and exponent, exactly when the whole input encodes it in one of the two forms |
| Der.KeyRoundTrip | src/jl_agent/control/consent.py:535-548 | an encoded RSAPublicKey (appendix A.1.1 of RFC 8017) parses back to its modulus and exponent |
| Der.WrappedKeyRoundTrip | src/jl_agent/control/consent.py:549-563 | an encoded SubjectPublicKeyInfo (section 4.1 of RFC 5280) parses back to the same numbers |
| Frames.ReadFrame | src/jl_agent/control/ipc.py:302-321 | the loop reads up to the newline, the bound or the end, and judges what it has |
| Frames.ReadsExactly | src/jl_agent/control/ipc.py:302-321 | the outcome for any stream and chunking, never with more than the maximum and one byte read |
| Frames.FrameRoundTrip | src/jl_agent/control/ipc.py:286-321 | an encoded frame is read back whole, however it is cut, exactly when its length is from one to the maximum |
| Frames.TrailingBytesDependOnChunks | src/jl_agent/control/ipc.py:309-316 | the same bytes after a newline are refused in one chunking and unseen in another |
| Audit.TrimIsLongestSuffix | src/jl_agent/control/audit.py:130-135 | trimming keeps the longest suffix that fits both bounds |
| Audit.LongestSuffixIsTrim | src/jl_agent/control/audit.py:130-135 | and nothing but the longest fitting suffix is what trimming leaves |
| Audit.TrimIncrementally | src/jl_agent/control/audit.py:83-87 | trimming before an append loses nothing that trimming after it would keep |
| Audit.LedgerIsLongestSuffix | src/jl_agent/control/audit.py:56-87 | after any number of records the ledger is the longest fitting suffix of all lines ever written |
| Audit.NewestIsKept | src/jl_agent/control/audit.py:81-87 | the newest event is always kept |
| Audit.SplitOfJoin | src/jl_agent/control/audit.py:131-135 | whole lines survive being joined into a file and split again |
| Audit.EventsReadBack | src/jl_agent/control/audit.py:89-92 | every kept event reads back as recorded, in order |
| Audit.LineEndsFirst | src/jl_agent/control/audit.py:89-92 | a line ends at the first line feed, lone carriage return or pair of the two, whatever the file holds |
| Audit.StripExactly | src/jl_agent/control/audit.py:89-92 | what is read of a line is exactly what precedes its end |
| Audit.AuditLedger.TrimLocked | src/jl_agent/control/audit.py:130-137 | the loop leaves exactly the trimmed lines in the file |
| Audit.AuditLedger.Record | src/jl_agent/control/audit.py:56-87 | an oversize event is refused before anything is written, any other is appended and trimmed |
| Audit.AuditLedger.SafeActivity | src/jl_agent/control/audit.py:94-110 | the newest events up to the limit, newest first, each reduced to the fields that may be shown |
| Audit.IdentityIsNotShown | src/jl_agent/control/audit.py:94-178 | what is shown depends on five fields only, never on caller, session or references, and shows at most eight action classes, all of them in the event |
| Audit.ShownAsStored | src/jl_agent/control/audit.py:94-110 | each shown text is the stored one of its own key, or empty if that is no text |
| Audit.FirstClassesAreShown | src/jl_agent/control/audit.py:164-168 | the first eight action classes are shown, in order |
| Migration.CopyExactly | src/jl_agent/runtime_service.py:139-157 | copying succeeds exactly on trees that agree wherever both have something, and yields their union |
| Migration.StagedExactly | src/jl_agent/runtime_service.py:190-196 | staging succeeds exactly when the sources have a conflict-checked union, and then it is that union |
| Migration.MigratesExactlyTheUnion | src/jl_agent/runtime_service.py:172-205 | into a missing destination a migration yields exactly the union, or nothing |
| Migration.FailureLeavesTargetAlone | src/jl_agent/runtime_service.py:180-205 | a failure changes nothing, exactly unless only the final check of a new destination failed; an existing tree is never replaced |
| Migration.MigrationIgnoresOrder | src/jl_agent/runtime_service.py:172-205 | neither success nor contents depend on the order of the sources |
| Migration.SecondRunIsAlreadyPresent | src/jl_agent/runtime_service.py:180-190 | a second run over the migrated destination reports already present |
| Migration.AlreadyPresentHoldsEverything | src/jl_agent/runtime_service.py:183-190 | a destination that counts as already present holds every source item exactly when it holds the source directories without a file below them |
| Migration.EmptyDirectoriesAreNotCompared | src/jl_agent/runtime_service.py:183-188 | an input where such a directory is missing and goes unnoticed |
| Migration.UserData.CopyTreeContents | src/jl_agent/runtime_service.py:139-157 | the in-place copy, entry by entry, stopping at the first conflict |
| Migration.UserData.MigrateTreeGroup | src/jl_agent/runtime_service.py:172-205 | the whole migration, with staging gone on every outcome and the final directory check, which may fail after the move |
| Voice.StepKeepsOwned | src/jl_agent/control/voice.py:203-243 | there is an owner exactly when voice is active after every step, except exactly a start that stops itself |
| Voice.RunKeepsOwned | src/jl_agent/control/voice.py:203-463 | the same over every run without such a start |
| Voice.OthersAreRefused | src/jl_agent/control/voice.py:447-455 | while there is an owner nobody else starts or stops anything |
| Voice.TranscriptHasOwner | src/jl_agent/control/voice.py:290-311 | a transcript starts a turn exactly when voice is active without one, always for an owner, so the mismatch report is never made |
| Voice.StepKeepsTurns | src/jl_agent/control/voice.py:303-367 | the turn flag never outlives the turns |
| Voice.StepKeepsOneTurn | src/jl_agent/control/voice.py:203-367 | a step leaves at most one turn running, marked as such, exactly unless it is a stop or shutdown that abandons one |
| Voice.TurnsOverlapOnlyAfterAbandoning | src/jl_agent/control/voice.py:203-463 | the same along every run, up to and including the first such step |
| Voice.TurnsMayOverlap | src/jl_agent/control/voice.py:238-239 | after a stop that abandons a turn a second one can start while the first still runs |
| Voice.RunKeepsBuffered | src/jl_agent/control/voice.py:461-463 | the buffer is exactly the last events of everything that happened, numbered consecutively |
| Voice.RunGrowsLog | src/jl_agent/control/voice.py:461-463 | whatever happens, no event that was recorded is changed or lost from the history behind the buffer |
| Voice.PollIsSlice | src/jl_agent/control/voice.py:263-268 | a poll is a gapless slice that begins right after the cursor or after what was dropped |
| Voice.NextPageContinues | src/jl_agent/control/voice.py:245-268 | after any further steps, polling from the last cursor continues where the page ended, or at the oldest event still retained: nothing retained is repeated or skipped |
| Voice.VoiceCoordinator.StartVoice | src/jl_agent/control/voice.py:203-228 | claim, call the backend with whatever it calls back, then activate or release |
| Voice.VoiceCoordinator.StopVoice | src/jl_agent/control/voice.py:230-243 | only the owner stops, and a failing backend leaves voice as it is |
| Voice.VoiceCoordinator.DoShutdown | src/jl_agent/control/voice.py:270-280 | shutdown releases the session without an event |
| Voice.VoiceCoordinator.Take | src/jl_agent/control/voice.py:282-395 | each backend callback, with its conditions and events |
| Voice.VoiceCoordinator.ExpireFollowUp | src/jl_agent/control/voice.py:421-433 | a follow-up timeout ends an active session without a turn |
| Voice.VoiceCoordinator.AppendEvent | src/jl_agent/control/voice.py:461-463 | an event gets the next number and may push the oldest out |
| Voice.VoiceCoordinator.Events | src/jl_agent/control/voice.py:245-268 | a page for the owner, or for anyone while nobody owns the session |
| VoiceAnswers.StartExactly | src/jl_agent/control/voice.py:203-228 | starting succeeds exactly when voice is enabled, approved and free or one's own, and the backend starts, with the event and the owner it leaves |
| VoiceAnswers.StopExactly | src/jl_agent/control/voice.py:230-243 | stopping succeeds exactly for the owner if the backend stops, and silences everything |
| VoiceAnswers.TranscriptExactly | src/jl_agent/control/voice.py:290-311 | a transcript is recorded and starts a turn, or is answered as busy while one is running |
| VoiceAnswers.TurnExactly | src/jl_agent/control/voice.py:313-367 | a turn records its reply and its playback while voice is active, its failure always, and its end |

## Left out

- PipelineTheorems.ConfirmedDispatchIsApproved: says nothing about which user interface showed the consent that led to the approval.
- Voice.StepKeepsTurns: assumes that the thread of a turn starts; a failing start, after which the flag stays set without a turn, is not modelled.
- PipelineProgress.ApprovedConsentRuns: starts from a pending consent; that the consent was registered is an assumption on the state, since a full table may refuse it.
- Frames.FrameRoundTrip: decoding the payload as UTF-8 and JSON after reading is not modelled.
- Migration.MigratesExactlyTheUnion: permission bits, ownership checks and the final hardening of the copied tree are not modelled, and a symbolic link is never followed.
- Deployments without an execution gate, a consent coordinator or an authenticated context take fewer branches of the request handler than the pipeline models.
- Handler and consent endpoint are modelled as threads of the pipeline machine, not as classes; their shared objects are classes.
- Audit records, trace output and the texts of error messages carry no state that a theorem uses.
- The permission engine's clauses: its decision is an arbitrary function of the capability and the proposal, its fingerprint a term over the listed fields.
- `revalidate_prepared` of the control plane, which the execution gate does not call.
- Floating-point details of times and costs: infinities, not-a-number values and rounding.
- SQLite, file locks, sockets, process signals and file permissions: a transaction is one atomic step that may fault.
- RSA signature verification and the signature check of the two consent endpoints, which only lets fewer decisions through.
- Status, activity, skill, assistant, voice and automation operations of the request handler beyond their own lifecycle transitions.
- Presenting, listing, creating, pausing and removing automation jobs, and the scheduler that runs them.
- The voice backend, microphone tests, speech output and follow-up timer scheduling.
- Registry projection, codec validation, computer-use probes and the native user interface.
