# VIIPER: verified models of its claim, delivery and media protocols

VIIPER presents virtual game controllers over USB/IP. Most of its difficult code is a set of small
protocols: something is claimed, admitted, attempted and resolved, while generations are retired,
queues overflow and participants fail. This project models those protocols in Dafny and proves what
they promise over whole runs.

Each protocol comes in up to three layers.

- A specification: the state as a value, and every section that the source runs under one lock as a
  function of that value.
- Theorems over runs: an action datatype, a `Run` (or `Play`) function over arbitrary sequences of
  actions, an invariant that every action keeps, and results about the log of what happened.
- Objects: classes that update fields and arrays in place as the source does. Each method is proved
  to take the abstract value to what the specification says.

| part | files |
|---|---|
| DualSense input scheduler | `DualSenseInput`, `InputScheduler`, `InputSchedulerInvariant`, `InputSchedulerConvergence`, `InputSchedulerRetirement`, `InputSchedulerHistory`, `InputSchedulerTags`, `InputSchedulerOrder`, `InputSchedulerPeaks`, `InputSchedulerReceipts`, `InputSchedulerExactPeaks`, `InputSchedulerKeptPeaks`, `InputSchedulerSteadyRuns`, `InputSchedulerStaleRun`, `InputSchedulerDevice` |
| Canonical feedback runtime and mailbox | `FeedbackFrame`, `FeedbackRuntime`, `FeedbackRuntimeRuns`, `FeedbackStopDiscipline`, `FeedbackBroker`, `FeedbackMailbox` |
| DualSense output writer reset barrier | `WriterBarrier` |
| Xbox downstream packet executor | `PacketExecutor`, `PacketExecutorProofs`, `PacketExecutorOwner` |
| Xbox canonical feedback executor | `CanonicalExecutor`, `CanonicalExecutorObject` |
| Virtual bus registrations | `VirtualBus`, `VirtualBusProofs`, `VirtualBusObject` |
| DualSense rear resampler and audio assembler | `RearResampler`, `AudioAssembly`, `AudioBuffers`, `AudioRear`, `AudioAssembler`, `AudioInterleaving` |
| DualShock 4 control ring | `ControlRing`, `ControlRingProofs` |
| USB string descriptors | `StringDescriptor`, `StringDescriptorCodec` |
| Shared definitions | `Options`, `Basics` |

`dafny verify dfyconfig.toml` checks the whole project.

## Conventions

- A method that holds a mutex for its whole body is one step. Where the source unlocks and locks
  again, the two halves are separate steps and anything else may happen in between. The reset
  barrier goes further: every atomic load and store is a step of its own.
- Clocks, deadlines, preflight verdicts, publisher answers and participant returns are inputs, so a
  theorem over all runs covers every combination of them.
- 64-bit counters are unbounded, except where the source itself refuses to wrap. There the limit is
  part of the model.
- A pointer that only serves as an identity (a writer lease, a registration lifecycle) is a number
  that is never reused.

## What is proved about each part

*Input scheduler.* The last pending entry always carries the newest received state, so that once
input stops, as many commits as there are pending entries present it. Entries of the transition ring
commit in the order they were accepted, none lost and none repeated, through any deferrals. A
deferred ordered claim is offered again byte for byte. After a retirement two schedulers that agree on
the newest state and the plain counters can never be told apart, and tokens issued before it never
resolve.

*Trigger peaks.* In every run without overflow or retirement, a report tagged with a press and at
least as strong as the strongest value received in it is committed before anything that follows the
press. The tag is not always true: the state saved for one trigger carries the value that the other
trigger had then, and is tagged with the press that the other trigger is in now.
`OppositeTagIsTrueExactlyWhenFresh` gives the exact condition, `StaleSaveHidesThePeak` a run in which a
stale tag keeps the real peak from ever being committed. In every run that queues no stale save the
committed peak is exact, and no report of a press exceeds it. Runs in which no trigger's physical status
changes, among them all runs without metadata, queue none.

*Feedback runtime.* An admitted frame is the best publication at that instant. Between admitted
frames of two delivery epochs the Stop of the earlier one was admitted and delivered, and no frame of
an epoch is admitted once its Stop was raised. A pending Stop can always be claimed, admitted and
completed. The mailbox delivers each revision in one of five ways and never goes back.

*Reset barrier.* When a reset to generation g has returned without timing out, no generation-tagged
frame older than g is on the socket then or later, for every interleaving in which the generation
stays less than 2^63 above the one the run started with. The bound is exact: for every start and every
generation at least 2^63 above it there is a run that breaks the barrier. No completion signal is lost.

*Packet executor.* A vector is executed again only after attempts that provably had no effect. The
k-th delivered packet has epoch k + 1. After an attempt of unknown effect nothing is executed again.

*Canonical executor.* Publications never overlap, persona generations never decrease over all
publications, and an accepted terminal Stop is the last publication. A terminal Stop whose outcome is
unknown can be followed only by the identical Stop.

*Virtual bus.* A held operation lease keeps its exact incarnation listed, active and uncancelled.
A close that has finished leaves no registration and no address behind.
Every incarnation has one remover and one completion signal. A snapshot that authenticates names the
only listed registration with its address, device or token.

*Resampler and assembler.* The ring convolution equals the direct 64-tap convolution of the whole
stream. The reports depend on the stream alone and not on how it was cut into transfers. At most one
rear block waits for a payload, and every rear block is carried by exactly one payload. When transfers
and resets interleave between segments, no report mixes samples of two generations.

*Control ring.* What was given a slot is, in order, what was drained, is queued or was discarded by a
stop. Acknowledged commands are the same up to repetition, and a repetition merges only into a command
that is still queued.

*String descriptors.* Encoding succeeds exactly for the texts that fit, and decoding gives them back.
Validation accepts exactly the encodings.

## Model

| member | source | states |
|---|---|---|
| InputSchedulerInvariant.StepKeeps | device/dualsense/input_scheduler.go:225-330 | every call keeps the invariant: retry and claim exclude each other, counters of a held report are the next ones, an epoch's peak is its peak state's trigger value, and the last pending entry is the newest state |
| InputSchedulerInvariant.RunKeeps | device/dualsense/input_scheduler.go:172-197 | the invariant holds in every reachable state |
| InputSchedulerInvariant.PreserveKeeps | device/dualsense/input_scheduler.go:423-522 | saving a trigger peak ahead of a transition changes only the ring, the latest slot and the overflow count, and at most marks the claim for ordered recovery |
| InputSchedulerConvergence.Converges | device/dualsense/input_scheduler.go:646-679 | when only the endpoint acts, as many commits as entries were pending make the presented state equal to the newest received state |
| InputSchedulerConvergence.CommitIsEnabled | device/dualsense/input_scheduler.go:681-718 | a claim and its commit are always possible and present one more report |
| InputSchedulerRetirement.CleanCut | device/dualsense/input_scheduler.go:833-877 | two schedulers that agree on the newest state and plain counters give identical answers forever after retirement, whatever they held before |
| InputSchedulerRetirement.OldTokensAreDead | device/dualsense/input_scheduler.go:742-762 | no token issued before a retirement ever resolves afterwards, with any generation or outcome |
| InputSchedulerRetirement.RunIndistinguishable | device/dualsense/input_scheduler.go:646-718 | schedulers that differ only in what was presented before the cut answer every later call alike |
| InputSchedulerHistory.PlayIsRun | device/dualsense/input_scheduler.go:225-330 | the recorded history is of exactly the scheduler's own runs |
| InputSchedulerOrder.OrderedWorkIsFifo | device/dualsense/input_scheduler.go:623-718 | accepted ring entries are the committed ones, the one in flight and the queued ones, in acceptance order, each once up to strengthening in place; report i carries the counters of commit i and idle repeats repeat what was presented last |
| InputSchedulerOrder.DeferredWorkIsExact | device/dualsense/input_scheduler.go:742-818 | a deferred ordered claim is the next offer with identical report and counters, whatever was received meanwhile |
| InputSchedulerTags.AcceptTagged | device/dualsense/input_scheduler.go:225-330 | receiving a state keeps every pending entry's press tags consistent with the epochs and only grows the ring |
| InputSchedulerTags.StepTagged | device/dualsense/input_scheduler.go:742-818 | every call keeps the press tags of all pending entries consistent with the epochs |
| InputSchedulerTags.RunTagged | device/dualsense/input_scheduler.go:225-330 | in every reachable state an entry names a press that has begun, and an entry of the press in progress is actuated |
| InputSchedulerPeaks.TriggerPeaksSurvive | device/dualsense/input_scheduler.go:423-522 | without overflow or retirement, before anything after a press is committed, some committed report tagged with that press carried at least the strongest value received in it |
| InputSchedulerReceipts.OppositeTagIsTrueExactlyWhenFresh | device/dualsense/input_scheduler.go:504-520 | in every run, the state saved for a peak is true to its own press, and its opposite value was received in the press it is tagged with exactly when that press had begun by the peak's receive ordinal |
| InputSchedulerReceipts.BooksKeep | device/dualsense/input_scheduler.go:339-374 | in every run the receive ordinal of a peak names the received state with its trigger values, and the receipts of the present press are exactly those since its start |
| InputSchedulerExactPeaks.TriggerPeaksAreExact | device/dualsense/input_scheduler.go:423-522 | in a run without overflow, retirement or stale save, no committed report of a press exceeds the strongest value received in it, and before anything after the press is committed a report of it carried exactly that value |
| InputSchedulerKeptPeaks.PlayEdges | device/dualsense/input_scheduler.go:423-463 | without overflow or retirement, a peak received up to the last transition is presented already or waits in the claim, retry or ring where nothing can drop it |
| InputSchedulerSteadyRuns.SteadyRunsAreNotStale | device/dualsense/input_scheduler.go:425-430 | a run without overflow or retirement in which the physical status of both triggers never changes queues no stale save |
| InputSchedulerSteadyRuns.PlainRunsAreNotStale | device/dualsense/input_scheduler.go:425-430 | a run without metadata, overflow and retirement queues no stale save |
| InputSchedulerStaleRun.StaleSaveHidesThePeak | device/dualsense/input_scheduler.go:504-520 | a run without overflow and retirement in which the peak 150 of a press is never committed, because a saved state with the 200 of an earlier press is tagged with it |
| InputSchedulerPeaks.PreserveProtects | device/dualsense/input_scheduler.go:423-522 | when a trigger is released its press peak is already presented or is placed ahead of the release where nothing can drop it |
| InputSchedulerDevice.DeviceScheduler.constructor | device/dualsense/input_scheduler.go:172-197 | a new scheduler object is the specified initial scheduler |
| InputSchedulerDevice.DeviceScheduler.BeginReceiveGeneration | device/dualsense/input_scheduler.go:199-208 | starts a receive generation as specified |
| InputSchedulerDevice.DeviceScheduler.UpdateAt | device/dualsense/input_scheduler.go:225-330 | a received state, or neutral for none, is accepted exactly when its generation is current, with the specified effect on all fields |
| InputSchedulerDevice.DeviceScheduler.PreserveTriggerPeak | device/dualsense/input_scheduler.go:423-522 | the search of the ring and the in-place strengthening or queueing of a peak have the specified effect |
| InputSchedulerDevice.DeviceScheduler.FindAnchor | device/dualsense/input_scheduler.go:466-491 | the loop over the ring finds the first entry that can take the peak |
| InputSchedulerDevice.DeviceScheduler.EnqueueTransition | device/dualsense/input_scheduler.go:623-644 | the 64-slot array holds the queued transitions; a full ring drops and counts as specified |
| InputSchedulerDevice.DeviceScheduler.PopFront | device/dualsense/input_scheduler.go:652-656 | the oldest transition leaves the array and the rest keep their order |
| InputSchedulerDevice.DeviceScheduler.SelectState | device/dualsense/input_scheduler.go:646-679 | selects retry, then ring, then latest, then an idle repeat, and removes what it selected |
| InputSchedulerDevice.DeviceScheduler.BeginClaim | device/dualsense/input_scheduler.go:681-718 | offers one immutable report with a fresh token, or nothing when one is already claimed |
| InputSchedulerDevice.DeviceScheduler.ResolveClaimAt | device/dualsense/input_scheduler.go:742-818 | resolves exactly the current token and generation by committing, deferring or retiring |
| InputSchedulerDevice.DeviceScheduler.CollapsePresentationGeneration | device/dualsense/input_scheduler.go:833-877 | drops claim, retry and ring, keeps only the newest state as a plain entry and restarts both epochs |
| InputSchedulerDevice.DeviceScheduler.RetirePresentationGeneration | device/dualsense/input_scheduler.go:820-827 | retires exactly the current presentation generation |
| FeedbackRuntimeRuns.TargetIsNewest | controllerfeedback/runtime.go:429-456 | the target is the lexicographically newest device and transport generation over all occupied slots |
| FeedbackRuntimeRuns.WinnerIsBest | controllerfeedback/runtime.go:395-427 | the winner is the fresh non-Stop publication of highest origin in the newest generation, and there is none exactly when no such publication exists |
| FeedbackRuntimeRuns.RunKeeps | controllerfeedback/runtime.go:139-301 | over every run slots, owner, event and claim stay consistent |
| FeedbackRuntimeRuns.AdmittedFrameIsBest | controllerfeedback/runtime.go:238-265 | an admitted frame is the best publication at that instant and a valid delivery built from the current owner |
| FeedbackStopDiscipline.StopPrecedesSuccessor | controllerfeedback/runtime.go:271-301 | before a frame of another epoch is admitted, the Stop of the earlier epoch was admitted and delivered; no frame is admitted after its Stop was raised |
| FeedbackStopDiscipline.WriterFacesActuation | controllerfeedback/runtime.go:158-181 | whenever the owner may have actuated, any active writer targets the event's device and transport generations |
| FeedbackStopDiscipline.PendingStopIsDeliverable | controllerfeedback/runtime.go:205-301 | an idle writer can claim, admit and complete a pending Stop at any clock values |
| FeedbackStopDiscipline.PendingStopStays | controllerfeedback/runtime.go:313-350 | only the delivered completion of exactly the pending Stop removes it |
| FeedbackStopDiscipline.ReservationCanFail | controllerfeedback/runtime.go:271-301 | a failed completion always frees the writer |
| FeedbackStopDiscipline.PendingEventIsAcquirable | controllerfeedback/runtime.go:158-181 | with no writer a lease can be acquired for the pending event's target until lease generations run out |
| FeedbackBroker.Broker.constructor | controllerfeedback/runtime.go:78-137 | a new runtime object is the specified empty runtime |
| FeedbackBroker.Broker.Publish | controllerfeedback/runtime.go:139-153 | stores a valid publication in its origin's slot exactly when it is newer |
| FeedbackBroker.Broker.AcquireWriter | controllerfeedback/runtime.go:158-181 | hands out one fresh lease exactly when none is active and the target suits the pending event |
| FeedbackBroker.Broker.RetireWriter | controllerfeedback/runtime.go:187-200 | retires only the active lease, and not while it holds an admitted claim |
| FeedbackBroker.Broker.Claim | controllerfeedback/runtime.go:205-232 | only the active lease can reserve the re-evaluated event; any other lease changes nothing |
| FeedbackBroker.Broker.Admit | controllerfeedback/runtime.go:238-265 | admits exactly the reserved event if it is still current and fresh |
| FeedbackBroker.Broker.Complete | controllerfeedback/runtime.go:271-301 | ends the reservation; delivery of the current Stop ends the owner's epoch |
| FeedbackBroker.Broker.Reevaluate | controllerfeedback/runtime.go:313-350 | starts, refreshes, replaces or stops the owner as specified |
| FeedbackMailbox.PerRevisionDiscipline | controllerfeedback/mailbox.go:101-131 | the successful deliveries of a revision are nothing, its frame, a release, a non-Stop frame and then a release, or a Stop frame alone |
| FeedbackMailbox.WatermarksRise | controllerfeedback/mailbox.go:164-187 | both completion watermarks only rise and the delivery log only grows |
| FeedbackMailbox.FailureIsRetryable | controllerfeedback/mailbox.go:164-187 | a failed completion leaves the same delivery owed at every later instant |
| FeedbackMailbox.PermittedDeliveryIsCurrent | controllerfeedback/mailbox.go:139-158 | a delivery that is still permitted carries the current fresh frame, or releases a stale one |
| FeedbackMailbox.StopEndsItsEpoch | controllerfeedback/mailbox.go:203-219 | every publication accepted after a Stop has a newer generation or ownership epoch |
| FeedbackMailboxObjects.Mailbox.Publish | controllerfeedback/mailbox.go:47-65 | replaces the snapshot exactly when the frame is valid and newer, under the next revision |
| FeedbackMailboxObjects.Mailbox.Claim | controllerfeedback/mailbox.go:101-131 | reserves what is owed for a cursor of this mailbox, binds an unbound cursor, and leaves a foreign one alone |
| FeedbackMailboxObjects.Mailbox.CanDeliver | controllerfeedback/mailbox.go:139-158 | permits exactly the reserved delivery of the current revision while its freshness still matches |
| FeedbackMailboxObjects.Mailbox.Complete | controllerfeedback/mailbox.go:164-187 | resolves exactly the token in flight and advances the watermarks of a delivery |
| WriterBarrier.ResetIsAHardBarrier | device/dualsense/output_writer.go:889-949 | after a reset to g returned without timing out, no tagged frame older than g is ever being written, in every run whose generation stays less than 2^63 above its start |
| WriterBarrier.BarrierHoldsWithinHalfTheRange | device/dualsense/output_writer.go:907-953 | the barrier holds in all runs from a start up to a limit exactly when the limit is less than 2^63 above the start |
| WriterBarrier.RunKeeps | device/dualsense/output_writer.go:818-868 | the barrier invariant holds in every interleaving of atomic steps from every start |
| WriterBarrier.CurrentFramesAreWritten | device/dualsense/output_writer.go:818-868 | undisturbed, a claimed frame is written unless it is tagged with another generation, and then the writer is idle with the marker even and the completion signalled |
| WriterBarrier.CompletionWakesTheResetter | device/dualsense/output_writer.go:934-947 | a resetter asleep after the write it waits for has ended can always be woken and returns |
| WriterBarrier.GenerationsRise | device/dualsense/output_writer.go:608-624 | no producer or resetter ever lowers the authoritative generation |
| WriterBarrier.PrecedesIsLess | device/dualsense/output_writer.go:951-953 | for any two 64-bit generations the signed comparison means older exactly when they differ by less than half the range one way and at most half the other |
| WriterBarrier.FarGenerationsBreakTheBarrier | device/dualsense/output_writer.go:924-932 | for every pair of generations at least 2^63 apart, a run in which the reset to the later one returns while the earlier one is being written |
| PacketExecutor.Compile | device/xboxone/downstream_packet_executor.go:969-1018 | succeeds exactly when every message is self-contained and valid, and keeps each message at its wire index |
| PacketExecutorProofs.RunKeeps | device/xboxone/downstream_packet_executor.go:376-447 | the executor invariant holds in every interleaving of calls and participant returns |
| PacketExecutorProofs.PacketsTakeEffectAtMostOnce | device/xboxone/downstream_packet_executor.go:641-729 | a vector runs again only after attempts without effect, with the same epoch and vector under a newer token |
| PacketExecutorProofs.DeliveriesAreInOrder | device/xboxone/downstream_packet_executor.go:839-928 | the k-th delivery is an attempt of epoch k + 1 that took effect |
| PacketExecutorProofs.DeliveredEpochsTookEffectOnce | device/xboxone/downstream_packet_executor.go:893-928 | of the attempts of a delivered epoch the delivered one took effect and every other one had none |
| PacketExecutorProofs.EffectsAreAccountedFor | device/xboxone/downstream_packet_executor.go:893-928 | an attempt that may have taken effect is the delivery of its epoch or the newest attempt of the next one |
| PacketExecutorProofs.UnknownEffectIsFinal | device/xboxone/downstream_packet_executor.go:736-809 | after an attempt of unknown effect nothing is executed again |
| PacketExecutorProofs.QuarantineIsAbsorbing | device/xboxone/downstream_packet_executor.go:1090-1098 | once quarantined, nothing is executed, resolved or delivered |
| PacketExecutorProofs.ExecuteReturnIsExpected | device/xboxone/downstream_packet_executor.go:703-726 | when Execute returns the owner is executing, cancelling or quarantined, so the fallback branch is dead |
| PacketExecutorProofs.FailureIsRetryable | device/xboxone/downstream_packet_executor.go:527-585 | a packet whose attempt had no effect can be resolved and claimed again unchanged under the next token |
| PacketExecutorProofs.SuccessIsDelivered | device/xboxone/downstream_packet_executor.go:839-928 | a successful packet can be resolved to idle and is counted once |
| PacketExecutorOwner.ExecutionOwner.ClaimPacket | device/xboxone/downstream_packet_executor.go:376-447 | claims a compilable packet after an accepting preflight, quarantines on a panic and otherwise changes nothing |
| PacketExecutorOwner.ExecutionOwner.TakePreflighted | device/xboxone/downstream_packet_executor.go:453-523 | takes the next epoch and token for a valid vector |
| PacketExecutorOwner.ExecutionOwner.ClaimRetry | device/xboxone/downstream_packet_executor.go:527-585 | reclaims the identical vector under a fresh token |
| PacketExecutorOwner.ExecutionOwner.AdmitClaim | device/xboxone/downstream_packet_executor.go:589-636 | turns an authentic claim into an executable lease |
| PacketExecutorOwner.ExecutionOwner.BeginExecute | device/xboxone/downstream_packet_executor.go:641-687 | starts only the admitted lease before its deadline |
| PacketExecutorOwner.ExecutionOwner.EndExecute | device/xboxone/downstream_packet_executor.go:688-729 | classifies the participant's return by nil, panic and lateness |
| PacketExecutorOwner.ExecutionOwner.BeginCancel | device/xboxone/downstream_packet_executor.go:736-772 | starts a drain only for the exact lease while it executes or needs draining |
| PacketExecutorOwner.ExecutionOwner.EndCancel | device/xboxone/downstream_packet_executor.go:773-809 | keeps a success delivered, cancels a proven no-effect failure and quarantines everything else |
| PacketExecutorOwner.ExecutionOwner.PrepareResolution | device/xboxone/downstream_packet_executor.go:839-891 | issues a credential exactly for the outcome that was observed |
| PacketExecutorOwner.ExecutionOwner.CommitResolution | device/xboxone/downstream_packet_executor.go:893-928 | commits exactly the prepared credential, to idle after delivery and to retry otherwise |
| CanonicalExecutor.RunKeeps | device/xboxone/canonical_feedback_executor.go:142-214 | the executor invariant holds in every interleaving with arbitrary publisher results |
| CanonicalExecutor.PublicationsNeverOverlap | device/xboxone/canonical_feedback_executor.go:142-214 | only the newest publication can be in progress |
| CanonicalExecutor.GenerationsNeverDecrease | device/xboxone/canonical_feedback_executor.go:252-305 | persona generations never decrease, over all publications and not only accepted ones |
| CanonicalExecutor.TerminalStopIsLast | device/xboxone/canonical_feedback_executor.go:348-389 | nothing follows an accepted terminal Stop; after any other one only the identical Stop follows |
| CanonicalExecutor.OrdinaryFramesAreAuthorized | device/xboxone/canonical_feedback_executor.go:470-483 | an ordinary publication carries the authorized generation, and only its acceptance binds it |
| CanonicalExecutor.DrainedMeansQuiet | device/xboxone/canonical_feedback_executor.go:492-527 | behind a completed drain nothing is being published |
| CanonicalExecutor.NeutralReturnIsExpected | device/xboxone/canonical_feedback_executor.go:280-302 | when the reset neutral returns, its fallback branch is dead |
| CanonicalExecutor.RefusalKeepsTheFence | device/xboxone/canonical_feedback_executor.go:252-389 | a refused neutral or Stop leaves the executor unchanged, so that the same call can be repeated |
| CanonicalExecutor.AcceptanceRebinds | device/xboxone/canonical_feedback_executor.go:529-542 | an accepted neutral reopens exactly the successor generation, an accepted Stop closes it |
| CanonicalExecutor.LimitedFrameRespectsItsBound | device/xboxone/canonical_feedback_executor.go:428-468 | a bounded frame stays valid, never outlives the original and never drives a motor at or after the bound |
| CanonicalExecutorObject.FeedbackExecutor.StartExecute | device/xboxone/canonical_feedback_executor.go:142-207 | admits one authorized execution and says what to publish |
| CanonicalExecutorObject.FeedbackExecutor.FinishExecute | device/xboxone/canonical_feedback_executor.go:470-483 | clears the marker and binds an accepted promoted generation |
| CanonicalExecutorObject.FeedbackExecutor.StartReset | device/xboxone/canonical_feedback_executor.go:218-246 | fences ordinary execution reversibly, or resumes a wait |
| CanonicalExecutorObject.FeedbackExecutor.StartCancel | device/xboxone/canonical_feedback_executor.go:312-343 | fences permanently from every non-terminal state, or resumes a wait |
| CanonicalExecutorObject.FeedbackExecutor.WaitIteration | device/xboxone/canonical_feedback_executor.go:492-527 | one iteration of the wait completes the drain exactly when nothing is in flight |
| CanonicalExecutorObject.FeedbackExecutor.StartNeutral | device/xboxone/canonical_feedback_executor.go:252-277 | starts the successor neutral exactly behind a completed reset drain |
| CanonicalExecutorObject.FeedbackExecutor.FinishNeutral | device/xboxone/canonical_feedback_executor.go:278-305 | reopens, keeps the fence, or hands over to a terminal drain that came meanwhile |
| CanonicalExecutorObject.FeedbackExecutor.StartStop | device/xboxone/canonical_feedback_executor.go:348-374 | starts the terminal Stop exactly behind a completed terminal drain |
| CanonicalExecutorObject.FeedbackExecutor.FinishStop | device/xboxone/canonical_feedback_executor.go:375-389 | an accepted Stop is final, a refused one can be repeated |
| VirtualBusProofs.RunKeeps | virtualbus/virtualbus.go:153-241 | the list holds exactly the active incarnations with distinct devices and addresses, and fences and removers are accounted for, in every interleaving |
| VirtualBusProofs.LeaseFencesRemoval | virtualbus/virtualbus.go:471-510 | a held lease keeps its exact incarnation listed, active, uncancelled and in possession of its address |
| VirtualBusProofs.LiveRegistrationsAreAcquirable | virtualbus/virtualbus.go:471-510 | a live registration of an open bus can be leased, and release restores it |
| VirtualBusProofs.RemovedOnceSignalledOnce | virtualbus/virtualbus.go:907-947 | no incarnation has two removers and its completion is signalled once, exactly when its remover is done |
| VirtualBusProofs.DelistedByItsRemover | virtualbus/virtualbus.go:922-947 | an incarnation is unlisted exactly when its own remover has delisted it |
| VirtualBusProofs.RemovalWaitsOnlyForLeases | virtualbus/virtualbus.go:922-947 | a remover that cannot move waits for a thread that really holds the fence |
| VirtualBusProofs.AuthenticatedIsTheOnlyOne | virtualbus/virtualbus.go:868-885 | a snapshot that authenticates names the only listed registration with its address, device or token |
| VirtualBusProofs.StaleSnapshotsStayDead | virtualbus/virtualbus.go:394-408 | once an incarnation is marked or gone no snapshot of it authenticates again |
| VirtualBusProofs.AddAllocatesLeastFreeAddress | virtualbus/virtualbus.go:153-241 | a new registration gets the least address that no listed device uses, and a token newer than all before |
| VirtualBusProofs.RefusedOnlyWhenFull | virtualbus/virtualbus.go:138-151 | want of an address means that every address up to the ceiling is in use |
| VirtualBusProofs.CloseTakesEverything | virtualbus/virtualbus.go:748-800 | on a closed bus everything listed was listed when it closed, is marked and still has an unfinished remover |
| VirtualBusProofs.FinishedCloseIsEmpty | virtualbus/virtualbus.go:781-793 | once the removers of everything listed at the close are done, no registration and no address is left, so clearing the addresses changes nothing |
| VirtualBus.NextAvailable | virtualbus/virtualbus.go:261-272 | the least free address from the start up to the ceiling, or none exactly when all are taken |
| VirtualBusObject.BusRegistry.NextAvailableDeviceId | virtualbus/virtualbus.go:261-272 | the upward search returns the least free address up to the ceiling, or none |
| VirtualBusObject.BusRegistry.AddRegistration | virtualbus/virtualbus.go:153-241 | adds exactly when open, unexhausted, not a duplicate and an address is free, and returns an authentic snapshot |
| VirtualBusObject.BusRegistry.PublishRegistration | virtualbus/virtualbus.go:429-457 | publishes only the exact live incarnation |
| VirtualBusObject.BusRegistry.AuthenticatesRegistration | virtualbus/virtualbus.go:394-408 | accepts exactly an unmodified snapshot of a live incarnation on an open bus |
| VirtualBusObject.BusRegistry.TakeFence | virtualbus/virtualbus.go:492-493 | joins the readers of the fence unless a remover holds it |
| VirtualBusObject.BusRegistry.Revalidate | virtualbus/virtualbus.go:493-501 | behind the fence, keeps the lease exactly if the snapshot still authenticates, and otherwise gives the fence back |
| VirtualBusObject.BusRegistry.Release | virtualbus/virtualbus.go:504-511 | gives the fence back |
| VirtualBusObject.BusRegistry.MarkRegistration | virtualbus/virtualbus.go:705-727 | marks exactly the live incarnation of the snapshot, once |
| VirtualBusObject.BusRegistry.CloseAndMark | virtualbus/virtualbus.go:752-774 | closes once and marks everything listed that was not marked yet |
| VirtualBusObject.BusRegistry.FinishMarkedRemoval | virtualbus/virtualbus.go:922-947 | delists exactly the marked incarnation and frees its address |
| RearResampler.Quantize | device/dualsense/rear_sinc64.go:70-78 | clamps to signed eight bits and truncates toward zero |
| RearResampler.Resampler.constructor | device/dualsense/rear_sinc64.go:9-21 | the zero value is ready for use |
| RearResampler.Resampler.Reset | device/dualsense/rear_sinc64.go:21-25 | forgets all history and waits for 35 frames |
| RearResampler.Resampler.FramesUntilOutput | device/dualsense/rear_sinc64.go:27-34 | the exact number of further frames until the next output |
| RearResampler.Resampler.Append | device/dualsense/rear_sinc64.go:36-68 | output n appears exactly after 35 + 16n frames and is the quantised 64-tap dot product over frames 16n - 31 to 16n + 32 of the stream preceded by silence |
| RearResampler.Resampler.Accumulate | device/dualsense/rear_sinc64.go:51-64 | the even and odd accumulators over the ring sum to the direct dot product |
| RearResampler.OutputIsCausal | device/dualsense/rear_sinc64.go:36-40 | later frames never change an output that is due |
| AudioAssembly.ReportsFollowBothClocks | device/dualsense/device.go:1106-1186 | the reports of a stream are all payloads of the speaker clock and all blocks of the rear clock, in order |
| AudioAssembly.PayloadsAndBlocks | device/dualsense/device.go:1106-1186 | payload k holds front frames 480k to 480k + 479 and block j is the j-th rear block |
| AudioAssembly.EveryBlockIsCarriedOnce | device/dualsense/device.go:1240-1252 | a payload carries block j exactly when block j completed during that payload's 480 frames |
| AudioAssembly.AtMostOnePending | device/dualsense/device.go:1221-1232 | at most one rear block completes between two payloads, so the queue never has to drop one |
| AudioAssembly.BlocksBefore | device/dualsense/device.go:1096-1104 | block j is complete exactly from frame 512(j + 1) on, or from frame 531 + 512j on for the sinc converter |
| AudioAssembly.SincBlocks | device/dualsense/device.go:1119-1123 | a sinc block completes with every 32nd resampler output |
| AudioBuffers.PcmBuffer.Append | device/dualsense/native_audio_v5.go:33-44 | copies frames behind what the fixed buffer already holds |
| AudioBuffers.BlockQueue.Push | device/dualsense/device.go:1221-1235 | appends a block to the ring of eight, dropping the oldest only when full |
| AudioBuffers.BlockQueue.Pop | device/dualsense/device.go:1242-1250 | removes the oldest block |
| AudioRear.RearCollector.Feed | device/dualsense/device.go:1130-1143 | a segment that ends at the block boundary completes exactly that block of the stream |
| AudioRear.RearCollector.FramesNeeded | device/dualsense/device.go:1115-1124 | the exact number of frames to the next block boundary, for either converter |
| AudioRear.RearCollector.AverageBlock | device/dualsense/device.go:1268-1287 | each of the 32 samples is the high byte of the truncated mean of sixteen frames |
| AudioAssembler.Assembler.Consume | device/dualsense/device.go:1106-1186 | takes one segment; everything reported so far equals the reports of the stream so far |
| AudioAssembler.Assembler.QueueBlock | device/dualsense/device.go:1208-1238 | a completed block always finds room |
| AudioAssembler.Assembler.CutPayload | device/dualsense/device.go:1164-1186 | a full front buffer is published with the waiting block or silence |
| AudioAssembler.Assembler.HandleTransfer | device/dualsense/device.go:986-1023 | however transfers are split, the reports are those of the stream; a stale generation changes nothing |
| AudioAssembler.Assembler.HandleSegment | device/dualsense/device.go:1004-1016 | one locked iteration: a stale generation changes nothing, and otherwise exactly the segment of the specified size is consumed with its reports |
| AudioInterleaving.NoReportMixesGenerations | device/dualsense/device.go:1004-1021 | with transfers and resets interleaved in any way, the reports of a generation are those of the frames consumed in it, and only transfers of that generation contribute |
| AudioInterleaving.TransfersAreConsumedInOrder | device/dualsense/device.go:1004-1021 | what was consumed for a transfer is always the prefix that it has handed over, in order and without gaps |
| AudioInterleaving.LiveTransfersAdvance | device/dualsense/device.go:1010-1016 | every segment of a transfer that is still current consumes at least one frame, so the break on zero is dead |
| AudioAssembler.Assembler.ResetSpeakerAudio | device/dualsense/device.go:663-681 | a reset empties every buffer and starts the next generation |
| ControlRingProofs.StoredCommandsDrainInOrder | device/dualshock4/handler.go:258-314 | what was given a slot is, in order, what was drained, is queued or was discarded by a stop |
| ControlRingProofs.AcceptedIsDrainedUpToRepetition | device/dualshock4/handler.go:258-297 | acknowledged and kept commands agree up to repetition, and blinking commands agree exactly |
| ControlRingProofs.OnlyUninterruptedRepetitionsMerge | device/dualshock4/handler.go:273-281 | a merged command is static, repeats the latest acceptance with no audio or reset in between, and equals the last stored command, which has not been drained yet |
| ControlRingProofs.FullRingEndsInMotorZero | device/dualshock4/handler.go:282-288 | a completely full ring ends in a motor-zero command |
| ControlRingProofs.MotorZeroIsRefusedOnlyAfterMotorZero | device/dualshock4/handler.go:282-288 | a running writer refuses a motor-zero command only when the queue already ends in one |
| ControlRingObject.ControlWriter.EnqueueControl | device/dualshock4/handler.go:258-297 | merges, stores behind the tail or refuses, and overwrites nothing |
| ControlRingObject.ControlWriter.TakeControl | device/dualshock4/handler.go:299-314 | removes the oldest command when the destination is large enough |
| ControlRingObject.ControlWriter.BreakControlRepeat | device/dualshock4/handler.go:316-320 | ends merging with the present tail and changes nothing else |
| ControlRingObject.ControlWriter.RequestStop | device/dualshock4/handler.go:550-563 | empties the ring once and refuses everything after |
| StringDescriptor.Utf16RoundTrip | device/xboxone/external_identity.go:121-151 | decoding the code units of a text gives the text back |
| StringDescriptor.DecodeIsInverse | device/xboxone/external_identity.go:50-66 | whatever decodes is the UTF-16 form of what it decodes to |
| StringDescriptor.SourceLimitIsHarmless | device/xboxone/external_identity.go:101-110 | a text takes at most three UTF-8 bytes per code unit, so the 378-byte limit refuses nothing that fits in 126 units |
| StringDescriptorCodec.Encode | device/xboxone/external_identity.go:97-161 | succeeds exactly for nonempty texts of allowed scalars with at most 126 code units, and then holds that text |
| StringDescriptorCodec.Validate | device/xboxone/external_identity.go:42-68 | accepts exactly the descriptors that have a reading |
| StringDescriptorCodec.ValidDescriptorsAreEncodings | device/xboxone/external_identity.go:42-68 | a valid descriptor is the encoding of the text that it decodes to |
| StringDescriptorCodec.EncodingsDecode | device/xboxone/external_identity.go:152-160 | the encoding of a text that fits is valid and decodes to that text |

## Left out

- Sockets, USB/IP plumbing, the HTTP-style client, configuration, logging and JSON: input and output around the protocols.
- `device/ns2pro` and `device/xbox360` input presentation, `persona_feedback_lane.go`, the authorized composition and the microphone buffer: they rest on code that is not part of this model.
- Wrap-around of 64-bit counters (scheduler tokens and ordinals, mailbox revisions, barrier sequence, speaker generations): the model counts without bound; the source needs 2^64 events to differ.
- Input scheduler: the byte encoding of reports (a report is the record of the encoder's inputs), the EP0 presentation snapshot and its version, queue-age and latency telemetry, and the zero-time default of the clock.
- Reset barrier: the queues and their draining (the writer may be handed any frame at any time), and the closing of the stream when the timer fires; nothing is claimed about a reset that timed out. The rotation of the lanes and the buffer pools are not modelled.
- Compile: the field checks of lifecycle and acknowledgement actions, which only the persona engine can supply, are one opaque constructor.
- Packet executor: error texts and the diagnostic snapshot; waiting for the operation serializer is a call that has not begun yet.
- Canonical executor: device, transport and ownership fields of the binding, which never change; the wire encoding; the Guide LED value beyond its order.
- Virtual bus: export aliases and paths, address-based discovery, the empty-bus context, and waiting callers of a removal or a close that another thread performs.
- Virtual bus objects: lifecycles are a table indexed by identity rather than separate heap objects, so aliasing of lifecycle pointers is not captured.
- Append: exact reals instead of floating point; the coefficient table is a parameter.
- HandleTransfer: frame-aligned PCM at unity gain, with the lock held throughout (`HandleSegment` and `AudioInterleaving` model the unlocked gaps); the report pool's exhaustion, report bytes, report counters and assembly delays are not modelled.
- Encode: takes Unicode scalars; malformed UTF-8 is refused by the library before the loop that is modelled here.
