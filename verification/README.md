# Conclave review engine: a verified model

Conclave runs paid reviews by up to three independent reviewers, records every step in an audit log, and lets an
independent verifier recompute the outcome later. This project models its hard core in Dafny and proves what its
documentation and tests promise.

| files | what they model |
|---|---|
| ReviewTypes, Ledger, Protocol | session states, the rows and audit stream of one session, and the rule that names the next transaction from stored rows alone |
| SessionInvariant, SessionRuns | what every transaction of every run keeps, including failures, crashes and operator recoveries |
| SessionLog | the session writers in any order, by any caller: the log still folds to the state |
| Audit, AuditTheorems, AuditGap | the audit verifier as its own program, and how exactly it agrees with the orchestrator |
| Orchestrator | repository writers and the bounded run loop as a class, proved to be a run of the protocol |
| Resume, Progress, Blindness, Determinism | crash-resume determinism, termination, reviewer blindness as non-interference, and one outcome whatever failed and was recovered |
| Phase8Policy, Phase8Store, Phase8Runtime, Phase8Revoked | the phase 8 budget protocol: policy checks, the durable store, any number of interleaved runtimes, and what a revocation still lets through |
| EventDelivery, EventDispatch | leased in-order event delivery with exactly-once effect |
| WorkQueue, ProviderRuntime | work items with retries and dead letters; the provider retry loop and attempt telemetry |
| SetDistance, Chimera, ChimeraLaws, ChimeraPack, ChimeraMerge, AutoResolution | the chimera comparator, merge and rules, and when a session may resolve itself |
| Cerberus, Claims | the cerberus comparator and merge; claim ids and exactly-once classification |
| Schema | the JSON Schema rewriting for the Anthropic adapter |

Modelling decisions:

- Each repository or store method is one atomic step. A session's orchestrator is a single process at a time; a crash may
  fall between any two transactions, which the budget field of the orchestrator class makes explicit.
- Hashes and deterministic ids are injective, so a hash is modelled by the content and an id by its key.
- Scores, distances and plan rates are exact reals. Phase 8 money is counted in units of 1e-12 dollars, so the code's
  tolerance is one unit; time is an integer.
- A pack is a record of functions, so the session theorems hold for every pack. The chimera pack is plugged in where a
  theorem is about it.
- A phase 8 approval pins its access manifest by hash, so the manifest is a field of the approval.
- A guard refuses with an exception that is neither a ReviewerProviderError nor a ReviewerProviderExhaustedError; the phase 8
  guard raises neither.
- A review makes at most as many provider attempts as its seat may: the lesser of the plan's policy and the runtime's own.
- Normalised outputs keep their kind, and an output's kind stands for the schema version it was stored under.

Findings, each proved:

- The auditor samples whenever no lever asked for reviewer B, the orchestrator only sessions without any materiality.
  AuditExact gives the exact condition under which they agree.
- The auditor reads comparisons through a listing of 100 events; a session with a comparison beyond that is rejected, and
  enough resumptions of one review get it there (LateComparisonIsRejected).
- Settling an attempt does not check the batch and phase spend ceilings again, so spending can pass them by two
  tolerances. SpendingPassesExactly says which settlements do that, OvershootForeseen how a caller sees it before the
  reservation, SpendingStaysExactly which runs stay within one tolerance.
- Between a runtime's authority check and its reservation another runtime may revoke the batch. RevokedThenReserved is
  such a run; FailClosed bounds what can still be attempted, ReservesAfterRevocationExactly says when anything can, and
  GrantedAfterRevocationExactly when it is granted.
- A work item can be attempted more often than its limit. LimitKeptExactly gives the exact condition: an expired lease is
  taken over when every attempt was used.
- The repository lets a session move to result_returned without a result. ReplayedExactly says that these are the streams
  the auditor's replay rejects.
- The merge of two valid chimera assessments can fail validation when a pack calls a risk level material and a higher one
  not. MergeValidExactly gives the exact condition.
- A guard that refuses the report of a parsed answer is called a second time for the same attempt, and one that refuses a
  beginning never sees its end. PairedExactly gives the exact condition for pairing, over stopped reviews too.
- The schema rewriting closes object nodes that were open, forgets patternProperties on closed ones, and forgets prefixItems
  while it keeps items; each loses instances. ClosureExactly says which instances a node loses, ShapeRelaxesExactly which
  nodes lose none.

## Model

| member | source | states |
|---|---|---|
| Audit.ReplayEvents | src/conclave/auditing/verification.py:119-168 | the auditor's event loop accepts exactly the streams whose fold succeeds and that record the result hash at most once |
| Audit.DecisionTrace | src/conclave/auditing/verification.py:260-273 | the index loop yields the state trace without each failed cross review that was reopened |
| Audit.VerifyDecisionRoute | src/conclave/auditing/verification.py:309-470 | the route check with its branches accepts exactly when an automatic pinned result agrees with the recomputation |
| Audit.VerifySession | src/conclave/auditing/verification.py:100-307 | verification accepts a session if and only if AuditAccepts holds of it, linkage of feedback and evaluation to the evidence version, result and feedback included |
| Audit.ReplayStops | src/conclave/auditing/verification.py:119-168 | once a prefix of the stream is rejected the whole stream is |
| AuditTheorems.RebuildIsDerive | src/conclave/auditing/verification.py:363-446 | for any stored rows the auditor's recomputation succeeds exactly when the orchestrator's rule derives the same path, up to the checks only the auditor makes, and then gives the same final assessment and rounds |
| AuditTheorems.AuditSound | src/conclave/auditing/verification.py:309-470 | audit soundness for any session value whose listing shows a request-validation event: accepted, automatic and pinned means path, recommendation, history, tie-break and comparison events are what the stored outputs derive |
| AuditTheorems.AuditSoundTrail | src/conclave/auditing/verification.py:119-168 | an accepted session recorded its result exactly once, and before returning it |
| AuditTheorems.ReturnedAfterResult | src/conclave/auditing/verification.py:157-158 | no replayable stream returns a result it has not recorded |
| AuditTheorems.ListedComparisons | src/conclave/auditing/verification.py:480-488 | the auditor sees the recorded comparisons if and only if none lies past the listing limit |
| AuditTheorems.ExpansionIsBypass | src/conclave/auditing/verification.py:548-573 | the auditor finds a bypassed trigger exactly when run would have expanded, or when the two sample differently |
| AuditTheorems.AuditExact | src/conclave/auditing/verification.py:100-307 | audit completeness, exactly: over all runs, a returned session is accepted if and only if it is unpinned, or no comparison is past the listing limit and the sample is not disputed |
| AuditTheorems.AuditComplete | src/conclave/auditing/verification.py:521-573 | with both materiality levers on or no sampling, and at most 100 events, every session any run returns is accepted |
| AuditGap.DisputedSampleIsRejected | src/conclave/auditing/verification.py:565-573 | for every plan with a disputed sample there is a returned session the auditor rejects |
| AuditGap.SampledMaterialSessionIsRejected | src/conclave/orchestration/service.py:1261-1267 | one concrete plan, pack and reviewer whose returned session is rejected |
| AuditGap.LateComparisonIsRejected | src/conclave/ledger/repository.py:2056-2081 | for every plan under which A's answer calls for B there is a returned session, its first review resumed a hundred times, that is rejected because its comparisons are past the listing limit |
| SessionInvariant.CollapseRecovery | src/conclave/auditing/verification.py:260-273 | a failed cross review followed by its reopening leaves the decision trace unchanged |
| SessionRuns.IntakeEstablishes | src/conclave/intake.py:67-98 | the rows intake writes satisfy the session invariant |
| SessionRuns.QuietKeeps | src/conclave/orchestration/service.py:564-734 | beginning, attempting, completing or failing a review keeps the session invariant |
| SessionRuns.ChosenMoveKeeps | src/conclave/orchestration/service.py:73-382 | every transition run chooses keeps the session invariant |
| SessionRuns.FailureMoveKeeps | src/conclave/orchestration/service.py:710-728 | ending a failed review's handling keeps the session invariant |
| SessionRuns.CompareKeeps | src/conclave/ledger/repository.py:1379-1445 | recording a comparison keeps the session invariant |
| SessionRuns.PublishKeeps | src/conclave/ledger/repository.py:1470-1518 | publishing stores the document the stored outputs determine and keeps the invariant |
| SessionRuns.RecoverKeeps | src/conclave/ledger/repository.py:1213-1290 | an operator's recovery keeps the invariant: one seat pending, the decision trace as before |
| SessionRuns.FeedbackKeeps | src/conclave/ledger/repository.py:1526-1663 | recording feedback keeps the session invariant |
| SessionRuns.EvaluateKeeps | src/conclave/ledger/repository.py:1673-1822 | recording an evaluation keeps the session invariant |
| SessionRuns.RunKeeps | src/conclave/orchestration/service.py:66-382 | any sequence of transactions, failures, recoveries and crashes keeps the invariant |
| SessionRuns.LogRefinesState | src/conclave/ledger/repository.py:2336-2436 | after every orchestrated run the auditor's own replay, which wants a result before its return, gives the state and the rows; numbers are 1..n and causation the predecessor |
| SessionLog.AnyWritersKeepLog | src/conclave/ledger/repository.py:727-786 | after any sequence of session writers, whoever calls them and whether or not they commit, the stream is numbered 1..n, causation is the predecessor, and folding the transitions gives the state and every announced row |
| SessionLog.WriteKeeps | src/conclave/ledger/repository.py:1213-1322 | every single writer, transitions to cancellation, awaiting evidence, stale evidence and failed delivery included, keeps that |
| SessionLog.RunsWrite | src/conclave/orchestration/service.py:66-382 | every orchestrated run is a sequence of committed writer calls |
| SessionLog.IntakeIsWritten | src/conclave/intake.py:67-98 | intake itself is four writer calls on a created session |
| SessionLog.ReplayedExactly | src/conclave/auditing/verification.py:119-168 | of the streams that fold, the auditor replays exactly those that return no result they have not recorded |
| SessionLog.ReturnUnrecorded | src/conclave/ledger/repository.py:1292-1322 | the writers permit a return without a result, after which the auditor rejects the stream |
| SessionLog.UnrecordedReturn | src/conclave/orchestration/state_machine.py:15-37 | a concrete sequence of permitted transitions that gets there |
| SessionRuns.LogIsAppendOnly | src/conclave/ledger/repository.py:2336-2384 | no run ever rewrites or drops an audit event |
| Ledger.AppendKeepsSequence | src/conclave/ledger/repository.py:2386-2436 | appending takes the next sequence number and names its predecessor |
| Ledger.FirstValidationAtHead | src/conclave/orchestration/service.py:1269-1280 | the validation flag is found in every listing |
| Orchestrator.Executed | src/conclave/reviewers/runtime.py:282 | no review makes more attempts than its seat may |
| Orchestrator.ReviewOrchestrator.RecordInvocation | src/conclave/ledger/repository.py:830-908 | returns the existing row or a conflict, or begins a pending one |
| Orchestrator.ReviewOrchestrator.TransitionSession | src/conclave/ledger/repository.py:1292-1322 | moves only along allowed transitions |
| Orchestrator.ReviewOrchestrator.CompleteInvocation | src/conclave/ledger/repository.py:910-1009 | completes a pending row; a completed one takes the same payload again and no other |
| Orchestrator.ReviewOrchestrator.FailInvocation | src/conclave/ledger/repository.py:1168-1211 | fails only a pending row |
| Orchestrator.ReviewOrchestrator.RecordComparison | src/conclave/ledger/repository.py:1379-1445 | idempotent, or a conflict on different figures |
| Orchestrator.ReviewOrchestrator.RecordResult | src/conclave/ledger/repository.py:1470-1518 | idempotent, or a conflict on a different document |
| Orchestrator.ReviewOrchestrator.InvokeReviewer | src/conclave/orchestration/service.py:564-734 | begins or resumes a review; on success the row is completed, otherwise the failure is explained by the protocol |
| Orchestrator.ReviewOrchestrator.DeriveOutcome | src/conclave/orchestration/service.py:894-1030 | whatever is on record: it only appends comparisons, returns the derived outcome with its rounds on record, or explains its raise by the derivation's fault, a disputed comparison or a crash |
| Orchestrator.ReviewOrchestrator.DeriveCrossedOutcome | src/conclave/orchestration/service.py:981-1030 | the part after cross review, exactly |
| Orchestrator.ComparedOnly | src/conclave/ledger/repository.py:1379-1445 | a recorded comparison changes no stored output, no outcome and no other comparison |
| Orchestrator.ReviewOrchestrator.FinishResumably | src/conclave/orchestration/service.py:826-892 | returns only with the result stored and the session in result_returned |
| Orchestrator.ReviewOrchestrator.Run | src/conclave/orchestration/service.py:66-382 | the bounded loop is a run of the protocol from intake, returns only with a stored result, stops early only where the protocol halts, and never reaches its step bound |
| Orchestrator.OnRecordSettles | src/conclave/orchestration/service.py:826-892 | once the comparisons are on record finishing only settles |
| Resume.SameNext | src/conclave/orchestration/service.py:73-382 | sessions that differ only in telemetry are continued alike |
| Resume.RunsAgree | src/conclave/orchestration/service.py:66-382 | two complete runs from such sessions end alike |
| Resume.ResumeDeterminism | src/conclave/orchestration/service.py:66-382 | crash-resume determinism: one path, status, recommendation, history, trigger list and tie-break however often the run was stopped |
| Determinism.SamePath | src/conclave/orchestration/service.py:894-1030 | two settled sessions answered by one reviewer took one path |
| Determinism.OutcomeDeterminism | src/conclave/orchestration/service.py:66-382 | any two returned runs with one reviewer, whatever crashed, failed and was recovered in either, publish one document but for attempt counts, on the same outputs and comparisons |
| Progress.NeverHalts | src/conclave/orchestration/service.py:73-382 | run has a next step in every session that has not failed |
| Progress.RunsAreShort | src/conclave/orchestration/service.py:73-74 | telemetry aside, no session takes more than 25 transactions over all its resumptions |
| Progress.ResumeCompletes | src/conclave/orchestration/service.py:66-382 | wherever a run with a reliable reviewer was stopped, running again returns a result |
| Blindness.ShownFirst | src/conclave/orchestration/service.py:173-245 | whoever has been asked was asked after the reviews it is shown |
| Blindness.IndependentRoundIsBlind | src/conclave/orchestration/service.py:88-98 | non-interference over runs with failures and recoveries: an independent review depends on no other reviewer's output |
| Blindness.CrossReviewIsBlind | src/conclave/orchestration/service.py:192-245 | B's cross-review call and answer do not depend on A's cross-review answer, nor A's on B's, recovered or not |
| Blindness.CallsPassGuard | src/conclave/reviewers/provider_contracts.py:41-77 | the call built for every pending reviewer passes the context guard, except exactly a judging call without the response-consuming contract |
| Blindness.PriorClaimsArePeers | src/conclave/orchestration/service.py:192-345 | the prior claims of a call are the claims of the peers it shows, and each cross reviewer is shown the other slot |
| AutoResolution.AutoResolutionSafe | src/conclave/orchestration/result_builder.py:149-155 | an auto-resolved chimera result is A-only or A/B agreement, each reviewer was harmless alone, and no watched failed goal got through |
| AutoResolution.MergedHarmless | src/conclave/packs/chimera/pack.py:213-220 | a merge may resolve itself if and only if both sides could |
| AutoResolution.FailedGoalTriggers | src/conclave/packs/chimera/comparison.py:176-179 | an approved failed-goal trigger always forces cross review |
| AutoResolution.ChimeraJudgmentsResolve | src/conclave/packs/chimera/models.py:108-131 | every judgment the chimera pack accepts selects a slot or brings a resolution, never both, and one that gives up never resolves to an optimisation (packs/chimera/registry.py:257-277) |
| AutoResolution.ChimeraResumeCompletes | src/conclave/orchestration/service.py:66-382 | with the chimera pack, acceptance of the answers alone suffices: a run stopped anywhere returns a result when run again |
| AutoResolution.ChimeraIsHonest | src/conclave/packs/chimera/registry.py:58-87 | normalising stores the materiality flag the pack's rule computes |
| Phase8Policy.ValidateGuardConfiguration | src/conclave/pilot/phase8_safety.py:746-776 | the checking loop accepts exactly the manifests whose stages fit every route |
| Phase8Policy.CeilingsFitRoutes | src/conclave/pilot/phase8.py:526-535 | a manifest within its stage ceilings fits the cost guard of every route |
| Phase8Store.StateStore.Activate | src/conclave/pilot/phase8_safety.py:319-406 | starts gate 1, repeats, or hands over to gate 2 exactly when the hand-over is legal |
| Phase8Store.StateStore.ReserveAttempt | src/conclave/pilot/phase8_safety.py:408-504 | reserves exactly when every ceiling covers the attempt and the stage is next on the frozen route |
| Phase8Store.StateStore.SettleAttempt | src/conclave/pilot/phase8_safety.py:506-582 | settles exactly the reserved attempts within tolerance and charges case, batch and phase alike |
| Phase8Store.StateStore.CompleteCase | src/conclave/pilot/phase8_safety.py:584-649 | completes a case exactly when its route and the stop rules allow |
| Phase8Store.StateStore.CompleteBatch | src/conclave/pilot/phase8_safety.py:651-686 | closes a batch exactly when every approved case is terminal, and gate 1 valid |
| Phase8Store.TotalUpdate | src/conclave/pilot/phase8_safety.py:521-582 | rewriting one case moves a total by what the case moved |
| Phase8Store.ReserveAccounted | src/conclave/pilot/phase8_safety.py:426-504 | reserving keeps conservation, ceilings, route discipline and hand-off |
| Phase8Store.SettleAccounted | src/conclave/pilot/phase8_safety.py:521-582 | settling keeps them; spending may pass a spend ceiling by two tolerances at most |
| Phase8Store.SettleItemised | src/conclave/pilot/phase8_safety.py:521-582 | settling keeps every case's cost and attempts equal to those of its settled attempts, over both gates |
| Phase8Store.SpendingPassesExactly | src/conclave/pilot/phase8_safety.py:534-537 | a settlement leaves a ceiling plus its tolerance behind if and only if it uses its own tolerance on a reservation that used the ceiling's, for batch and phase, and then by one unit |
| Phase8Store.OvershootForeseen | src/conclave/pilot/phase8_safety.py:479-485 | a reservation can be settled past a ceiling and its tolerance if and only if spend plus reserved cost is exactly at that tolerance and the route leaves room, which a caller reads beforehand |
| Phase8Store.GuardIsSufficient | src/conclave/pilot/phase8_safety.py:462-463 | in every accounted state whose manifest passes the guard check, a case that used one attempt per stage within its reservation is covered for its next stage |
| Phase8Store.SpendingPassesByTwo | src/conclave/pilot/phase8_safety.py:536-545 | a concrete first attempt that leaves the batch two tolerances over its ceiling |
| Phase8Store.CompleteAccounted | src/conclave/pilot/phase8_safety.py:595-649 | completing a case keeps them |
| Phase8Store.HandOverAccounted | src/conclave/pilot/phase8_safety.py:367-404 | the hand-off to gate 2 keeps them: phase totals are the closed gate's plus the new batch's |
| Phase8Store.CloseAccounted | src/conclave/pilot/phase8_safety.py:661-686 | closing a batch keeps them |
| Phase8Store.NoCaseInBothGates | src/conclave/pilot/phase8_safety.py:381-382 | no case is charged in both gates |
| Phase8Store.ValidCaseIsWhole | src/conclave/pilot/phase8_safety.py:612-623 | a case completed as valid has its whole route, each stage with a settled attempt |
| Phase8Store.ClosedGateIsWhole | src/conclave/pilot/phase8_safety.py:667-675 | a closed gate 1 charged only approved cases, all eligible ones on their whole route and no control at all |
| Phase8Runtime.RevocationStore.Revoke | src/conclave/pilot/phase8_safety.py:258-284 | the first revocation stays; later ones return it |
| Phase8Runtime.RevocationStore.EnsureNotRevoked | src/conclave/pilot/phase8_safety.py:246-256 | any record blocks, whatever its batch |
| Phase8Runtime.StepSafe | src/conclave/pilot/phase8_safety.py:1008-1140 | every step of every runtime keeps the accounting invariant |
| Phase8Runtime.BudgetSafety | src/conclave/pilot/phase8_safety.py:408-582 | over any interleaving of any number of runtimes: conservation, itemised cases, ceilings, one attempt in flight, stop rules |
| Phase8Runtime.NeverRefusedForRouteCost | src/conclave/pilot/phase8_safety.py:462-463 | over any interleaving, a case with one attempt per stage within its reservation is never refused its next stage for route cost under the manifest its approval pins |
| Phase8Runtime.SpendingStaysExactly | src/conclave/pilot/phase8_safety.py:521-582 | over any run spending stays within one tolerance of both ceilings at every moment if and only if no settlement overshoots |
| Phase8Runtime.FailClosed | src/conclave/pilot/phase8_safety.py:1008-1024 | a revocation never changes, and afterwards only transactions whose check came before it are attempted, one for each check |
| Phase8Runtime.EveryClearedReserves | src/conclave/pilot/phase8_safety.py:1008-1024 | that bound is met: some continuation attempts a reservation for every runtime already past its check |
| Phase8Runtime.ReservesAfterRevocationExactly | src/conclave/pilot/phase8_safety.py:1155-1173 | in every reachable revoked world some continuation attempts a reservation if and only if some runtime had already passed its check |
| Phase8Revoked.GrantedAfterRevocationExactly | src/conclave/pilot/phase8_safety.py:408-504 | in every reachable revoked world some continuation is granted a reservation if and only if a runtime is already past its check, the stored state affords its next attempt, and a pending attempt, if any, can still be reported |
| Phase8Revoked.StepBack | src/conclave/pilot/phase8_safety.py:1008-1140 | once revoked, no step other than a granted reservation makes an attempt reservable that was not |
| Phase8Revoked.SettledAffords | src/conclave/pilot/phase8_safety.py:506-582 | settling the pending attempt affords no attempt that was not affordable beside it, and settling it for nothing keeps every attempt that was |
| Phase8Runtime.RevokedThenReserved | src/conclave/pilot/phase8_safety.py:1008-1024 | the race, under every gate 1 bundle whose budget covers one first attempt, as a run from the start: authorized, revoked by the other runtime, reserved and granted |
| Phase8Runtime.CanaryRace | src/conclave/pilot/phase8_safety.py:1008-1024 | one concrete bundle it happens under |
| EventDelivery.ClaimedIsFirst | src/conclave/ledger/repository.py:2149-2201 | a claimed event is the first undelivered one of its stream |
| EventDelivery.SendExtends | src/conclave/events/publishing.py:37-48 | an unpublished held event is the publisher's next of its stream |
| EventDelivery.StepOrdered | src/conclave/ledger/repository.py:2136-2273 | every step of every worker keeps the delivery order |
| EventDelivery.InOrderExactlyOnce | src/conclave/ledger/repository.py:2136-2273 | for any interleaving, crashes, failures and expired leases: delivered events are a prefix of each stream and the publisher holds a prefix, each event once |
| EventDispatch.InMemoryEventPublisher.Publish | src/conclave/events/publishing.py:44-48 | publishing an event again changes nothing |
| EventDispatch.DeliveryRows.Backfill | src/conclave/ledger/repository.py:2287-2334 | every wanted committed event gets a row; existing rows stay |
| EventDispatch.DeliveryRows.ClaimNext | src/conclave/ledger/repository.py:2136-2201 | leases the first claimable event in commit order, or none is claimable |
| EventDispatch.DeliveryRows.Complete | src/conclave/ledger/repository.py:2203-2237 | only the holder of an unexpired lease delivers |
| EventDispatch.DeliveryRows.Fail | src/conclave/ledger/repository.py:2239-2273 | the holder returns the event for retry, whatever its lease |
| EventDispatch.DispatchOnce | src/conclave/events/publishing.py:70-125 | one dispatch is a run of the interleaving model, and delivers or schedules a retry |
| WorkQueue.SchedulerQueue.FirstClaimable | src/conclave/ledger/repository.py:330-352 | the earliest due claimable item, ties by id, or none |
| WorkQueue.SchedulerQueue.Enqueue | src/conclave/ledger/repository.py:272-317 | enqueueing again with the same due time changes nothing; another due time is refused |
| WorkQueue.SchedulerQueue.ClaimNext | src/conclave/ledger/repository.py:319-374 | leases that item, taking over an expired lease without a limit check |
| WorkQueue.SchedulerQueue.Complete | src/conclave/ledger/repository.py:376-413 | only the latest claimer completes, within its lease |
| WorkQueue.SchedulerQueue.Fail | src/conclave/ledger/repository.py:415-477 | retry while attempts remain, otherwise dead letter |
| WorkQueue.SchedulerQueue.Extend | src/conclave/ledger/repository.py:479-516 | only the holder extends, whatever its lease |
| WorkQueue.SchedulerQueue.RetryDeadLetter | src/conclave/ledger/repository.py:518-558 | a manual retry grants more attempts |
| WorkQueue.SchedulerQueue.Cancel | src/conclave/ledger/repository.py:560-596 | anything unfinished can be cancelled |
| WorkQueue.LifeKeeps | src/conclave/ledger/repository.py:319-596 | what every item keeps over any sequence of changes |
| WorkQueue.RetriesBounded | src/conclave/ledger/repository.py:437-439 | over a whole life automatic retries stay below the attempts granted, and attempts pass the limit only by takeovers of expired leases |
| WorkQueue.EndsOnce | src/conclave/ledger/repository.py:376-596 | an item is completed or cancelled at most once, by the last change of its life, and has ended exactly when it was |
| WorkQueue.PassesLimitExactly | src/conclave/ledger/repository.py:337-356 | one change passes the attempt limit if and only if it takes over an expired lease with every attempt used |
| WorkQueue.LimitKeptExactly | src/conclave/ledger/repository.py:319-558 | over a whole life attempts stay within the limit at every moment if and only if there is no such takeover |
| WorkQueue.AttemptsCanPassLimit | src/conclave/ledger/repository.py:337-356 | one attempt granted, two made |
| ProviderRuntime.AttemptOnce | src/conclave/reviewers/runtime.py:285-412 | the attempt handed back, or none when the guard refuses, and in either case exactly what the guard sees of it |
| ProviderRuntime.Review | src/conclave/reviewers/runtime.py:274-414 | how every review ends, stopped ones included: which attempts it made, when the guard stopped it, when it succeeded, and every guard call of it; the loop never falls through |
| ProviderRuntime.HandedBackWellRetried | src/conclave/reviewers/runtime.py:282-284 | attempts are contiguous from the first number, all but the last retryable, at most the maximum |
| ProviderRuntime.PairedExactly | src/conclave/reviewers/runtime.py:340-408 | over every review each attempt is begun once, and each is ended exactly once if and only if the guard lets the last attempt begin and does not refuse the report of its parsed answer |
| ProviderRuntime.RefusedReportEndsTwice | src/conclave/reviewers/runtime.py:336-344 | a concrete guard that refuses reports: one attempt begun once, ended twice, review stopped |
| ProviderRuntime.RefusedBeginningNeverEnds | src/conclave/reviewers/runtime.py:286-287 | a concrete guard that refuses beginnings: one attempt begun, never ended |
| ProviderRuntime.InvocationTelemetry.Record | src/conclave/ledger/repository.py:1011-1151 | any batch: all of it or, on a conflict with the rows or within itself, none; the totals are the sums over the rows |
| ProviderRuntime.NumberingKeptExactly | src/conclave/ledger/repository.py:1122-1149 | under a contiguous batch the attempts on record stay exactly 1..n if and only if it starts at a number on record or the next |
| ProviderRuntime.Invoke | src/conclave/orchestration/service.py:626-642 | over retries, resumptions and recoveries the attempts on record stay exactly 1..n |
| SetDistance.DistanceIsShare | src/conclave/packs/chimera/comparison.py:32-39 | the distance is the share of elements in only one of the sets |
| SetDistance.DistanceBounds | src/conclave/packs/chimera/comparison.py:32-39 | it lies in the unit interval |
| SetDistance.DistanceSymmetric | src/conclave/packs/chimera/comparison.py:32-39 | it is symmetric |
| SetDistance.ZeroIffEqual | src/conclave/packs/chimera/comparison.py:32-39 | it is zero if and only if the sets are equal |
| SetDistance.TriangleInequality | src/conclave/packs/chimera/comparison.py:32-39 | it satisfies the triangle inequality |
| Chimera.ComputeMagnitudeDistance | src/conclave/packs/chimera/comparison.py:72-88 | the loop computes the largest relative gap over shared keys |
| Chimera.ComputeHardTriggers | src/conclave/packs/chimera/comparison.py:141-179 | the appended and filtered list is the approved raised triggers, in order |
| ChimeraLaws.MagnitudeLaws | src/conclave/packs/chimera/comparison.py:72-88 | the magnitude distance is bounded and symmetric |
| ChimeraLaws.TimingLaws | src/conclave/packs/chimera/comparison.py:91-111 | the timing distance is bounded and symmetric |
| ChimeraLaws.DimensionLaws | src/conclave/packs/chimera/comparison.py:241-279 | every dimension lies in the unit interval and is symmetric |
| ChimeraLaws.WeightedLaws | src/conclave/packs/chimera/comparison.py:280-281 | the weighted distance is symmetric and at most the total weight |
| ChimeraLaws.TriggersSymmetric | src/conclave/packs/chimera/comparison.py:141-179 | swapping the reviewers raises the same triggers |
| ChimeraMerge.CompareSymmetric | src/conclave/packs/chimera/comparison.py:241-309 | swapping the reviewers leaves every published figure |
| ChimeraMerge.CompareBounded | src/conclave/packs/chimera/comparison.py:280-309 | with weights summing to one all published distances lie in the unit interval |
| ChimeraMerge.DimensionsPartition | src/conclave/packs/chimera/comparison.py:289-294 | every dimension is an agreement at zero or a disagreement above it |
| ChimeraMerge.MergeFinds | src/conclave/packs/chimera/comparison.py:205-210 | merging compatible assessments never misses an action |
| ChimeraMerge.MergeValidExactly | src/conclave/packs/chimera/comparison.py:205-238 | the merge of two valid assessments is valid if and only if, when a risk was material, the higher risk, the category or an action still is |
| ChimeraMerge.MergeCanLoseMateriality | src/conclave/packs/chimera/comparison.py:211-231 | a concrete pack and two valid assessments whose merge is invalid |
| ChimeraMerge.MergePreservesValidity | src/conclave/packs/chimera/registry.py:109-209 | with material risks closed upward every merged assessment is valid |
| ChimeraMerge.MergedClaimIds | src/conclave/packs/chimera/models.py:57-66 | merged claims keep distinct ids |
| ChimeraMerge.MergeIsCautious | src/conclave/packs/chimera/comparison.py:182-238 | the merge is at least as cautious as either side |
| ChimeraPack.ValidateAssessment | src/conclave/packs/chimera/registry.py:109-209 | the checks accept exactly the valid assessments |
| Cerberus.MergeScores | src/conclave/packs/cerberus/comparison.py:35-42 | the dictionary loop keeps the lower score, and the higher risk exposure |
| Cerberus.MergePreservesValidity | src/conclave/packs/cerberus/comparison.py:45-78 | any two valid venture assessments merge into a valid one |
| Cerberus.MergeIsCautious | src/conclave/packs/cerberus/comparison.py:45-78 | the merge is the more cautious on every axis |
| Cerberus.ComparatorLaws | src/conclave/packs/cerberus/comparison.py:81-131 | distances are bounded and swapping the reviewers changes nothing |
| Claims.AssignClaimIds | src/conclave/packs/claims.py:83-98 | ids are issued to every draft in order, or a draft is refused |
| Claims.IssuedIds | src/conclave/packs/claims.py:83-98 | issued ids are as many as the claims |
| Claims.ExactlyOnce | src/conclave/packs/chimera/registry.py:221-244 | an accepted judgment puts every claim of C's blind review and both cross reviews in exactly one list, and the list lengths sum to the number of claims |
| Schema.Relaxes | src/conclave/reviewers/anthropic.py:48-127 | every instance a strict node accepts is accepted by its rewriting, at every depth and through references; strict means object nodes closed without patternProperties and array nodes without prefixItems beside items |
| Schema.RewritingRelaxes | src/conclave/reviewers/anthropic.py:48-127 | the same for a whole schema with its definitions |
| Schema.RewritingIsSupported | src/conclave/reviewers/anthropic.py:48-127 | the output uses only the provider's keywords |
| Schema.ClosureExactly | src/conclave/reviewers/anthropic.py:90-126 | of the instances a node over strict ones accepts, its rewriting accepts exactly the objects with listed properties only and the arrays whose elements under prefixItems pass the rewritten items |
| Schema.ShapeRelaxesExactly | src/conclave/reviewers/anthropic.py:90-126 | every schema of a node's shape keeps all its instances if and only if the node is closed without patternProperties when it is an object, and has no prefixItems beside items when it is an array |
| Schema.OpenObjectIsClosed | src/conclave/reviewers/anthropic.py:96-97 | an object node left open loses an instance with a further property |
| Schema.PatternsAreForgotten | src/conclave/reviewers/anthropic.py:115-126 | a closed object node with patternProperties loses an instance with a property they match |
| Schema.PrefixIsForgotten | src/conclave/reviewers/anthropic.py:103-126 | an array node with prefixItems beside items loses an instance whose first element only the prefix admits |

## Left out

- Phase8Store.Capped: the spend ceilings are stated with the tolerance the code really allows, two units for what is spent and one for what is spent plus reserved.
- Concurrent runs of one session: two processes driving the same session are not interleaved; each writer stays atomic.
- run_fixture_path: a test harness that chooses its own route.
- Audit.VerifySession: JSON-schema validation of the result, feedback and candidate documents is not modelled, an external library does it; the linkage between them is.
- Orchestrator.ReviewOrchestrator.FinishResumably: result documents are taken to pass the pack's JSON schema.
- Request intake before a snapshot is stored, eligibility, binding and request materiality: taken as the flag intake records.
- Evidence path resolution: whether a reference resolves in the snapshot is a set of valid references in the request.
- Which reason a phase 8 violation records: a violation is modelled as refusal plus revocation.
- Phase 8 call validation, artifact loading and secret files: one flag says whether the call matches the manifest.
- The wording of the note that the schema rewriting puts into a description, and number instances other than integers.
- Unicode white space in summary trimming and word counts; the four ASCII blanks are modelled.
- Float rounding in comparators and the 1e-12 slack in comparator weights: exact reals.
- ProviderRuntime.ReportRefused: leaves out guards that refuse with a provider error, whose refusal of a report the loop (src/conclave/reviewers/runtime.py:342-380) reports again under that error's status and may retry, or passes on without a second report when it is the exhausted error.
- SessionLog.Write: leaves out append_domain_event (src/conclave/ledger/repository.py:2049), which can append any event to a session's stream; nothing under src calls it.
- AutoResolution.Accept: leaves out the claim classification that validate_judgment checks for judgments of the second version; Claims.ExactlyOnce proves it by itself.
- Cerberus.Merged: leaves out the joined summary text, which is published but which no rule or comparison reads.
- Schema.Accepts: a reference names one definition of the root; references to the root itself or by other paths, and the boolean schemas, are left out.
- SQL, dialects, migrations, row locks and skip-locked reads: atomic methods over values.
- HTTP adapters, API, authentication, settings, scheduling cadence, prompts, metrics, reports: no hard state.
- ReviewWorkflow: an in-memory replay of a state trace that no other code calls; the fold over the audit stream is modelled instead.
