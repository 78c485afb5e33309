# Verified model of the mux daemon

This project models three state machines of the mcp-mux daemon in Dafny and proves what they promise
over whole runs: maintenance leases, the two-phase upstream handoff, and the registry and restart
logic around them (template cache, crash window, graceful restart, spawn binding).

`dafny verify dfyconfig.toml` checks everything. Nothing here is compiled or executed.

## How it is built

- **Maintenance leases.** `MaintenanceModel` is the machine: a state, 31 events, `Enabled` and `Step`.
  An event is one atomic step under the gate, no coarser than one ledger commit, so invariants hold
  between the commits of one gate section too. The one exception is a grant: it takes the provisional
  seed commit and the clocked commit that follows it as one event. `MaintenanceInvariant` proves one inductive invariant
  for every event, `MaintenanceTheorems` and `MaintenanceLifecycle` draw the promises from it, and
  `MaintenanceDaemon` holds the operations as a class whose methods update the lease map, the registry,
  the latch and the timers in place. Every state-changing method proves that what it did is a valid run
  of the machine (`ensures Valid(old(St()), run) && St() == Run(old(St()), run)`), so the theorems about
  runs are theorems about the methods. `MaintenanceStore` is the ledger on disk and the two-file commit.
  The daemon keeps it as a field, and every method that changes leases keeps one law of it
  (`KeepsLedger`): unless the last write was refused, what a start would recover from the disk is the
  lease map (`CrashRecovers` says what that start then finds). Refused writes are counted, so a method's
  error or latch is tied to a refusal in both directions.
- **Handoff.** `HandoffEndpoints` gives each endpoint as a machine over its own reads and writes.
  `HandoffReceiver` proves what the successor keeps against any peer, `HandoffAgreement` composes both
  endpoints over one ordered, lossy channel, `HandoffCompletion` shows that the composition can always
  run to a full commit, `HandoffSender` and `HandoffReceipt` hold the imperative
  code of both sides, proved to be runs of those machines. `HandoffProto` and `HandoffPartition` hold
  messages, identity lists and the list checks.
- **Registry and restart.** `Templates` proves the cache equal to a function of its history,
  `CrashWindow` proves the trimmed list equivalent to the full one, `GracefulRestart` checks every
  effect of a restart against a safety monitor. `SpawnMachine` runs any number of spawn attempts at once
  as interleaved sequences of locked sections over one registry and records every token they issue;
  `SpawnDaemon` holds those sections as methods that update the registry in place, `Environments` the
  environment comparison, and `IsolatedIdentities` the search for a free isolated identity.

## Assumptions

- Replacing one ledger file is atomic. It is acknowledged, or it reports an error and either took effect
  or did not. The content digest that ties the two files together is injective. The namespace file lock
  is acquired, contended or broken; no theorem needs it to be exclusive.
- Hold identities are fresh. There is one logical clock; it does not move inside a gate section, so the
  provisional seed times and the clocked times of a hold coincide.
- An owner that proved its retirement never starts a tree again. A tree that exits, or that a handoff
  gave to a successor, is no longer this daemon's; removing an owner finalizes its tree first.
- A shutdown's body that has closed the control server still leaves requests in flight and direct callers
  of the daemon: the model lets them run on (`UnsafeAbortBreaks` uses this when the body is that far).
- After a start the registry is empty and recovered leases carry no pins.
- A handoff write that reports an error was not delivered. Messages arrive in order. A handle batch may
  arrive altered, except where a claim says that batches arrive as sent. A failed handle receive with no
  batch in flight leaves that endpoint's connection dead.
- Environment identities are compared as values: the fingerprint is injective. Path canonicalization is
  idempotent. Owners are reduced to the flags the daemon reads.

## Properties that do not hold

- *Shutting down excludes live leases.* It does not. A graceful restart that aborts clears the flag
  (`muxcore/daemon/daemon.go:2412`, `2450`) also when another shutdown was granted or is already
  running. A granted shutdown raises its flag a second time without the gate, and a running one goes on
  finalizing owners until the registry is empty and then closes the done channel
  (`muxcore/daemon/daemon.go:3422-3497`); neither asks for leases again. A hold can be granted in
  between. `ExclusionCounterexample` gives both runs from a cold start. `AbortIsSafeExactly` is the
  exact condition: every disciplined future of an abort keeps shutdowns and leases apart if and only if
  no shutdown had been granted or run at the abort, or persistence failure was latched. Runs whose
  aborts all meet it never show the two together (`DisciplinedRunsExclude`).
- *A HELD lease always has an armed expiry timer.* It follows from exclusion, and fails with it: a timer
  that fires while the flag is up or the done channel is closed only drops itself
  (`StrandedCounterexample`, where no flag is up). `TimersStep` shows that this is the only step that
  can lose a timer.
- *A HELD lease means that no process tree runs on its keys.* It holds for every registered owner
  (`HeldMeansRetired`) and for every owner captured at the grant (`HeldMeansCapturedRetired`). It fails
  for an owner that a later reservation of the same identity displaced: a spawn in `cwd` mode leaves the
  lock while it looks for an owner to share and then reserves without looking again
  (`muxcore/daemon/daemon.go:1662-1707`, `3180-3212`). `DisplacedCounterexample` is such a run.
  `TreesStep` shows that displacing an owner whose tree lives is the only step that loses a tree, and
  `HeldMeansNoTree` proves the claim for every entry, registered or not, on all runs without one.
- *A committed owner keeps its successor.* A settlement callback that fails after the commit makes the
  daemon stop the successor that adopted it (`muxcore/daemon/daemon.go:2378-2385`).
  `TransferOrStop` says that the successor is kept exactly if the exchange committed and no callback
  failed; `AdoptedCanBeStopped` is a log with both.
- *A token issued in global mode belongs to an owner with a compatible environment.* An owner restored
  from a snapshot with an empty environment has none stored, and both compatibility checks skip a
  missing environment (`muxcore/daemon/snapshot.go:269-278`, `muxcore/daemon/daemon.go:1468`, `1567`).
  `MissingEnvironmentLeaks` is such a run; `TokensAreBound` gives the exact condition: the environment is
  stored, or the request carries no credential.
- *A template match is current only if nothing was published since.* Revisions are 64-bit counters, so
  2^64 publications go unnoticed (`MatchSurvivesWrapAround`). Below that the claim is exact.
- An aborted or blocked restart can leave a successor running where stopping it failed, or where the
  snapshot successor's spawn call failed after the start (`muxcore/daemon/daemon.go:2212-2217`).
  `HandleGracefulRestart` says that it is left running exactly then, and `RefusedCanLeaveRunning` shows
  both cases.

## Model

| member | source | states |
|---|---|---|
| MaintenanceInvariant.InitInv | muxcore/daemon/daemon.go:711-718 | the state a valid ledger restores satisfies the invariant |
| MaintenanceInvariant.StepInv | muxcore/daemon/maintenance.go:54-663 | every admission, registry, lease, timer and lifecycle step keeps the invariant: valid results, disjoint lease keys, closed scopes, sound pins, a proof behind every HELD, fences that in-flight admissions still see |
| MaintenanceInvariant.RunInv | muxcore/daemon/maintenance.go:54-663 | the invariant holds after every run |
| MaintenanceInvariant.SeededScope | muxcore/daemon/maintenance.go:252-288 | a hold captures every registered owner it meets, lies outside every other lease, and pins live entries |
| MaintenanceInvariant.CommitEffect | muxcore/daemon/maintenance.go:432-465 | one commit moves one result or removes one lease, keeps every scope and every other lease, and touches nothing else but timers |
| MaintenanceTheorems.HeldMeansRetired | muxcore/daemon/maintenance.go:382-402 | after any run, a registered owner that meets a HELD lease is promoted, proven retired and has no live tree |
| MaintenanceTheorems.HeldMeansCapturedRetired | muxcore/daemon/maintenance.go:262-288 | once a granted lease is HELD, every entry that was registered and met it at the grant has no live tree, and is retired if it has an owner, whether or not it is still registered |
| MaintenanceTheorems.TreesStep | muxcore/daemon/daemon.go:1662-1707 | a step leaves a live tree without a registered owner if and only if it is a reservation that displaces that owner |
| MaintenanceTheorems.HeldMeansNoTree | muxcore/daemon/owner_lifecycle.go:357-430 | on runs without such a reservation no entry that meets a HELD lease has a live tree, registered or removed, captured or not |
| MaintenanceTheorems.ScopeClosure | muxcore/daemon/maintenance.go:93-156 | after any run, live leases have disjoint keys, and an owner is disjoint from a lease or inside it and pinned by it |
| MaintenanceTheorems.LeaseDisciplineStep | muxcore/daemon/maintenance.go:404-478 | one step keeps a lease's scope and drain deadline, moves its expiry only by a renewal before expiry, makes it HELD only by a proven finish, and removes it only with every tree proven retired, by resume or at expiry |
| MaintenanceTheorems.LeaseClockDiscipline | muxcore/daemon/maintenance.go:606-663 | every step of every run from a start obeys that discipline on every lease |
| MaintenanceTheorems.ReleasedNeverReturns | muxcore/daemon/maintenance.go:282-296 | a hold identity that was used and is gone never names a lease again |
| MaintenanceTheorems.FenceHolds | muxcore/daemon/maintenance.go:54-156 | while a lease is in the map nothing joins its keys, nothing on them is promoted and no tree on them starts |
| MaintenanceTheorems.FrozenStep | muxcore/daemon/daemon.go:1681-1706 | the same for one step: reservation, promotion, admission, materialization and restore all stay outside the fence |
| MaintenanceTheorems.GrantableExactly | muxcore/daemon/maintenance.go:225-288 | a hold can be granted if and only if the daemon is open, the owner knows all its contexts, so does every owner of its command, every owner that shares a context lies inside its contexts, and no lease has the server or a context |
| MaintenanceTheorems.RecoveredStaysBlocked | muxcore/daemon/maintenance_store.go:126-143 | a lease that a start recovered and that was not durably HELD stays blocked in the map on every run: nothing makes it HELD or releases it |
| MaintenanceLifecycle.LatchIsForever | muxcore/daemon/maintenance.go:65-73 | once persistence failure is latched it stays, and no admission, hold, renewal, resume, expiry, timer or lifecycle request takes effect for the rest of the run |
| MaintenanceLifecycle.LatchRefuses | muxcore/daemon/maintenance.go:158-176 | each of these requests needs the latch clear |
| MaintenanceLifecycle.DisciplinedRunsExclude | muxcore/daemon/maintenance.go:158-190 | runs whose restart aborts happen only while no shutdown has been granted or run, or after the latch, never show a shutdown (flag up, or body running or done) and a live lease together |
| MaintenanceLifecycle.AbortIsSafeExactly | muxcore/daemon/daemon.go:2403-2452 | from a sound state, all disciplined futures of a restart abort keep shutdowns and leases apart if and only if no shutdown had been granted or run, or the latch was set |
| MaintenanceLifecycle.UnsafeAbortBreaks | muxcore/daemon/daemon.go:3422-3497 | after any other abort, from any reachable registry, a future without a further abort reserves, promotes and holds a fresh owner and meets the shutdown |
| MaintenanceLifecycle.ExclusionCounterexample | muxcore/daemon/maintenance.go:184-190 | two runs from a cold start that end shutting down with a live lease: over a granted shutdown, and over one that already runs |
| MaintenanceLifecycle.TimersStep | muxcore/daemon/maintenance.go:542-604 | every step keeps every HELD lease's own expiry timer armed, due no earlier than its expiry and at most one retry delay late, unless the latch is set, with exactly one exception: the lease's own timer fires while the flag is up or the done channel is closed |
| MaintenanceLifecycle.PublishTimers | muxcore/daemon/maintenance.go:445-463 | a commit that publishes a result keeps every HELD lease armed and leaves every other lease and every other lease's timers as they were |
| MaintenanceLifecycle.TimerLostExactly | muxcore/daemon/maintenance.go:553-602 | a fired timer that is not rearmed costs a HELD lease its expiry if and only if it was that lease's own, and then the flag is up or the done channel is closed |
| MaintenanceLifecycle.StrandedCounterexample | muxcore/daemon/maintenance.go:530-540 | a run from a cold start that ends with a HELD lease, no latched failure, no flag and no timer |
| MaintenanceLifecycle.DisplacedCounterexample | muxcore/daemon/daemon.go:3180-3212 | a run from a cold start that ends with a HELD lease over a displaced owner whose tree lives |
| MaintenanceLifecycle.HeldIsArmed | muxcore/daemon/daemon.go:711-718 | after every disciplined run a HELD lease has its armed expiry timer or failure is latched |
| MaintenanceLifecycle.HeldIsReleasable | muxcore/daemon/maintenance.go:548-621 | something is always left to release a HELD lease: when its timer comes due its callback is current and its expiry enabled |
| MaintenanceStore.CommitStore | muxcore/daemon/maintenance_store.go:346-370 | acknowledged, a start recovers exactly the new records; otherwise it refuses, or recovers the old or the new ones; a crash between two writes is always refused; the ledger changes only under its own prepared transaction and is certified only where it stands |
| MaintenanceDaemon.CrashRecovers | muxcore/daemon/maintenance_store.go:126-143 | a crash while the disk backs the lease map: the next start accepts the ledger, fences exactly the same keys under the same holds, and finds exactly the HELD leases HELD |
| MaintenanceDaemon.Daemon.ArmRecovered | muxcore/daemon/daemon.go:711-718 | arms each recovered lease; the result is an initial state, and exactly the durable HELD leases are HELD |
| MaintenanceDaemon.Daemon.LeaseForKey | muxcore/daemon/maintenance.go:54-63 | finds a lease that holds the key, or none if and only if the key is not fenced |
| MaintenanceDaemon.Daemon.CheckKey | muxcore/daemon/maintenance.go:65-73 | passes exactly when the latch is clear and no lease holds the key |
| MaintenanceDaemon.Daemon.CheckKeys | muxcore/daemon/maintenance_reconcile.go:55-67 | passes exactly when every context of the entry is open |
| MaintenanceDaemon.Daemon.AdmitOwnerBegin | muxcore/daemon/maintenance.go:93-111 | enters the admission exactly when the entry is current and the new key and all its contexts are open |
| MaintenanceDaemon.Daemon.AdmitOwnerEnd | muxcore/daemon/maintenance.go:112-128 | records the context exactly when the owner took the reservation |
| MaintenanceDaemon.Daemon.AdmitMaterialization | muxcore/daemon/maintenance.go:132-156 | admits a start exactly when the entry is current and not retired, the daemon is not shutting down and all contexts are open; the retired flag stands for the owner, which asks for no start after its proof |
| MaintenanceDaemon.Daemon.ScheduleTimer | muxcore/daemon/maintenance.go:548-604 | stops the lease's timer and arms one new one under a new identity |
| MaintenanceDaemon.Daemon.CommitLease | muxcore/daemon/maintenance.go:432-465 | conflicts exactly when the lease is not the current one; a write that is not acknowledged changes nothing in memory and is reported exactly then; a publication means that a start recovers exactly the new map |
| MaintenanceDaemon.Daemon.TreesAreRetired | muxcore/daemon/maintenance.go:382-402 | true exactly when a recovered lease is HELD, or every pin has its identity, a closed creation channel and no unretired owner |
| MaintenanceDaemon.Daemon.FinishRetirement | muxcore/daemon/maintenance.go:467-478 | without proof it refuses; a refused write is reported and publishes nothing; else it is one finish event, which publishes HELD, or releases a lease that already expired |
| MaintenanceDaemon.Daemon.ExpireMaintenance | muxcore/daemon/maintenance.go:606-621 | without error it removed exactly the expired HELD leases and left every other lease and timer identical, although each commit replaces the map it ranges over; it fails exactly on the latch or a refused write |
| MaintenanceDaemon.Daemon.CheckHold | muxcore/daemon/maintenance.go:225-288 | succeeds exactly when the request is grantable, with exactly the registered owners that meet its keys as pins |
| MaintenanceDaemon.Daemon.Scan | muxcore/daemon/maintenance.go:262-280 | accepts exactly when no same-command owner is ambiguous and every overlapping owner lies inside the selected contexts |
| MaintenanceDaemon.Daemon.PublishHold | muxcore/daemon/maintenance.go:289-326 | a hold is granted, or a write was refused and failure is latched with or without the durable seed in the map |
| MaintenanceDaemon.Daemon.Acquire | muxcore/daemon/maintenance.go:219-326 | sweeps, then grants on the swept state a HOLDING lease that expires after `ttl` and drains until `drain`; a refusal other than for persistence means that the swept state was not grantable |
| MaintenanceDaemon.Daemon.SettleHold | muxcore/daemon/maintenance.go:357-430 | finishes a proven hold, blocks an unproven one, and refuses one that is gone |
| MaintenanceDaemon.Daemon.Mutate | muxcore/daemon/maintenance.go:623-663 | after the sweep, resumes or renews exactly when that event is enabled, or reports why not and changes nothing |
| MaintenanceDaemon.Daemon.MutateCurrent | muxcore/daemon/maintenance.go:623-663 | on the swept state: a resume removes the lease, a renewal moves its expiry to `ttl` from now and nothing else of its result; a refused write is reported exactly and changes nothing |
| MaintenanceDaemon.Daemon.FinishAll | muxcore/daemon/maintenance.go:511-527 | without error every selected pending lease that stays is unproven and untouched; unselected leases are never touched; it fails exactly on a refused write |
| MaintenanceDaemon.Daemon.RetirementChanged | muxcore/daemon/maintenance.go:482-528 | publishes what the entry completes, or under contention arms a retry for each blocked lease that pins it, and latches exactly on a refused write or on a broken lock that a pending lease waits behind |
| MaintenanceDaemon.Daemon.TimerContended | muxcore/daemon/maintenance.go:564-577 | contention never latches and moves no result: the timer is rearmed, as a retry exactly while it is an expiry timer or a proven retirement is left to publish |
| MaintenanceDaemon.Daemon.TimerPublishes | muxcore/daemon/maintenance.go:586-599 | restores the expiry timer, then publishes exactly a pending proven retirement; latches exactly on a refused write, with the timer armed |
| MaintenanceDaemon.Daemon.TimerFired | muxcore/daemon/maintenance.go:548-604 | a callback of a lease that moved on only drops itself; it latches exactly on a broken lock or a refused write; a completed expiry sweep leaves nothing expired |
| MaintenanceDaemon.Daemon.Reconcile | muxcore/daemon/maintenance_reconcile.go:12-44 | done exactly with the lock held, work to do and no write refused, and then no expired HELD lease and no proven pending one is left; contention changes nothing; latches only on a broken lock |
| MaintenanceDaemon.Daemon.BeginLifecycle | muxcore/daemon/maintenance.go:158-176 | grants exactly with the latch clear and no lease |
| MaintenanceDaemon.Daemon.RunGrantedShutdown | muxcore/daemon/daemon.go:3422-3425 | the first granted shutdown raises the flag again, whatever happened since its grant, and starts the body; later ones do nothing |
| MaintenanceDaemon.Daemon.FinalizePass | muxcore/daemon/daemon.go:3450-3484 | one pass drops exactly the placeholders and goes on exactly when no owner is left, as a run of the machine |
| MaintenanceDaemon.Daemon.AbortGrantedRestart | muxcore/daemon/daemon.go:2403-2452 | a restart that aborts, or whose snapshot fails, clears the flag and nothing else |
| MaintenanceDaemon.Daemon.CheckRestartOwner | muxcore/daemon/maintenance.go:685-712 | an owner restart may start exactly with the latch clear, the server not held, the owner live and all contexts open |
| MaintenanceDaemon.Daemon.ReserveOwner | muxcore/daemon/daemon.go:1681-1707 | reserves a placeholder exactly when its context is open |
| MaintenanceDaemon.Daemon.PromoteOwner | muxcore/daemon/daemon.go:1850-1895 | promotes exactly when the placeholder is current and its context is still open |
| MaintenanceDaemon.Daemon.RemoveFinalized | muxcore/daemon/owner_lifecycle.go:357-430 | removes exactly a finalized owner that is still the registered one |
| MaintenanceDaemon.Daemon.RestoreOwner | muxcore/daemon/maintenance_restore.go:9-34 | restores exactly with the latch clear, no lease at all, since restored contexts are never complete, and the identity free |
| HandoffProto.ChoosePartitions | muxcore/daemon/handoff.go:302-311 | the accepted and the other identities of a list, in order, hold every identity as often as the list |
| HandoffPartition.ExactIdSet | muxcore/daemon/handoff.go:384-396 | succeeds exactly on lists of nonempty identities without duplicates, with their set |
| HandoffPartition.ValidateFinalPartition | muxcore/daemon/handoff.go:333-382 | succeeds if and only if all lists are exact, accepted lies in receipted, and accepted and aborted partition ready; the two unknown-identity errors are unreachable |
| HandoffPartition.SameIdSet | muxcore/daemon/handoff.go:593-603 | comparing sizes and one inclusion decides set equality with a duplicate-free list |
| HandoffPartition.OrderedIds | muxcore/daemon/handoff.go:302-311 | returns the members, or the non-members, in list order |
| HandoffReceiver.ReceiverNextInv | muxcore/daemon/handoff.go:455-509 | every outcome of every receiver operation keeps the receipt and batch invariants, whatever the peer sends |
| HandoffReceiver.ReceiptsPartitionReady | muxcore/daemon/handoff.go:440-509 | a receiver past its loop has received or rejected every announced identity, none both, nothing else, whatever the sender sent |
| HandoffReceiver.ReceivedAreUsable | muxcore/daemon/handoff.go:440-567 | whatever the peer sends, every received upstream was announced with its command and process number, is no native owner, and has every handle of the transport |
| HandoffReceiver.HandlesConserved | muxcore/daemon/handoff.go:471-509 | each handle batch is closed once, or handed out once, or owned, never two of these, and a failed, finalized or aborted receipt owns none |
| HandoffAgreement.StepInv | muxcore/daemon/handoff.go:171-300 | every step of the composed endpoints keeps them in lockstep and in agreement |
| HandoffAgreement.HandoffAgrees | muxcore/daemon/handoff.go:220-267 | after any run the sender's lists are the receiver's verdicts in order, and with all transfers acknowledged exactly its received and rejected identities |
| HandoffAgreement.MessagesValidate | muxcore/daemon/handoff.go:569-591 | no message that arrives is ever refused: announcement, transfers, receipts, Done and the final acknowledgment all validate |
| HandoffAgreement.DoneValidates | muxcore/daemon/handoff.go:511-523 | a Done in flight lists exactly what the receiver received and rejected |
| HandoffAgreement.FinalValidates | muxcore/daemon/handoff.go:625-661 | the final acknowledgment in flight is a final partition and names exactly the accepted identities |
| HandoffAgreement.CommitMeansTaken | muxcore/daemon/handoff.go:114-116 | the predecessor commits an upstream only if the successor took it, named it accepted and finalized without error, and its handles were handed out once and never closed, so the successor still holds them |
| HandoffAgreement.BatchIsUpstream | muxcore/daemon/handoff.go:220-239 | a batch that arrives as it was sent is admitted and becomes the sender's own upstream, each stream in its place |
| HandoffAgreement.ReceivedAsAnnounced | muxcore/daemon/handoff.go:489-505 | on every run whose batches arrive as sent, however it fails otherwise, what the successor received under an identity is the predecessor's upstream of that identity, and what the predecessor commits was taken |
| HandoffCompletion.HandoffCompletes | muxcore/daemon/handoff.go:171-300 | for every announcement there is a run, the one that loses nothing, that commits exactly the announced identities, with every upstream taken as the predecessor had it: handles, command and process |
| HandoffSender.AnnouncementIsValid | muxcore/daemon/handoff.go:187-218 | what the filter lets through is an announcement every receiver admits |
| HandoffSender.Prefilter | muxcore/daemon/handoff.go:187-210 | stops exactly on an empty or repeated identity, and otherwise splits the upstreams in order: announced are exactly those with a process, all their handles and no native identity |
| HandoffSender.SettleUpstreams | muxcore/daemon/handoff.go:313-331 | each upstream is settled once, in order: committed exactly if accepted |
| HandoffSender.SentIsWritten | muxcore/daemon/handoff.go:212-268 | after any run against any peer, what went out is the announcement, then per upstream its metadata and its handles in stream order, then Done, cut off exactly where the sender stands |
| HandoffSender.Predecessor.Exchange | muxcore/daemon/handoff.go:212-287 | the exchange ends committed or failed, in the state its outcomes make of a fresh sender; committed, it wrote exactly the announcement, every batch in order and Done |
| HandoffSender.Predecessor.ReadReceipt | muxcore/daemon/handoff.go:242-259 | counts the message read if and only if it is an acknowledgment for its own identity and version, in the list its verdict names |
| HandoffSender.Predecessor.ReadFinalAck | muxcore/daemon/handoff.go:269-287 | commits if and only if the message read is a final partition, with exactly its accepted identities |
| HandoffSender.PerformHandoff | muxcore/daemon/handoff.go:171-300 | on every exit the settlement log names each upstream once, in order, committed exactly on the committed path and if accepted, and the result reports the phase and the lists of that ending |
| HandoffSender.CommittedSettlement | muxcore/daemon/handoff.go:289-300 | on the committed path each identity has one commit or one abort, accepted identities were announced, and the two result lists split the input |
| HandoffSender.AcceptedWereReceipted | muxcore/daemon/handoff.go:333-359 | a sender accepts only identities it announced and saw receipted, whatever the peer sends |
| HandoffReceipt.ValidateReady | muxcore/daemon/handoff.go:440-454 | admits exactly the announcements with distinct, nonempty, non-native identities and positive process numbers |
| HandoffReceipt.Receipt.CloseOwnedHandles | muxcore/daemon/handoff.go:663-679 | closes each owned batch once and owns nothing afterwards |
| HandoffReceipt.Receipt.TakeUpstream | muxcore/daemon/handoff.go:615-623 | hands an owned upstream out once; any other take gets nothing |
| HandoffReceipt.Receipt.AbortReceipt | muxcore/daemon/handoff.go:681-688 | closes what is owned, once, and never after a finalization |
| HandoffReceipt.Receipt.FinalizeReceipt | muxcore/daemon/handoff.go:625-661 | decides once, only over taken identities, and acknowledges the announced identities split in order |
| HandoffReceipt.Receipt.ValidateTransfer | muxcore/daemon/handoff.go:529-567 | accepts exactly a known, new identity with valid metadata and exactly the schema's nonzero handles |
| HandoffReceipt.Receipt.ReceiveBatch | muxcore/daemon/handoff.go:471-505 | stores a valid batch under its identity with its handles in order, or closes it and keeps everything |
| HandoffReceipt.Receipt.SendVerdict | muxcore/daemon/handoff.go:473-508 | sends the verdict of the batch at hand; a refusal of an unknown or repeated identity ends the receive |
| HandoffReceipt.Receipt.ValidateDone | muxcore/daemon/handoff.go:569-591 | accepts exactly a Done that lists the received and the rejected identities |
| HandoffReceipt.Receipt.Prepare | muxcore/daemon/handoff.go:408-527 | ends prepared, with the announced identities partitioned and every received one owned, or failed with nothing owned or taken |
| HandoffReceipt.ReceiveHandoff | muxcore/daemon/handoff.go:693-721 | returns every received upstream, each handed out once, exactly if its receipt did not fail; otherwise it releases every handle handed to it |
| Templates.LookupMeetsHistory | muxcore/daemon/daemon.go:1018-1088 | after any history a lookup returns the template of the path's latest isolated publication since the last invalidation, else of the latest other one after the environment's last isolated one, else a miss; a template repeats all discovery data and none of the authority |
| Templates.EntryAfterPublish | muxcore/daemon/daemon.go:1046-1057 | a publication fills its own scope, displaces older relaxed verdicts of its environment, and keeps isolated ones |
| Templates.FoundIsStripped | muxcore/daemon/daemon.go:984-1001 | a found template has no bound tokens, process number, handoff socket or process group; it is complete and classified, for the family and environment of the lookup, and its discovery data was published |
| Templates.CacheIsClean | muxcore/daemon/daemon.go:984-1001 | after any history no entry of the cache carries its publisher's authority |
| Templates.MatchIsCurrentExactly | muxcore/daemon/daemon.go:1090-1097 | a match tests current exactly when the revisions since are a multiple of 2^64 and its scope is occupied; below 2^64 exactly when nothing was published or invalidated in its family, and then the live entry is its own |
| Templates.MatchSurvivesWrapAround | muxcore/daemon/daemon.go:190-193 | at 2^64 publications the test passes again |
| Templates.TemplateCache.UpdateTemplate | muxcore/daemon/daemon.go:1018-1058 | publishes exactly complete, classified snapshots, as templates in their own scope and as the history function says, and keeps the cache free of authority |
| Templates.TemplateCache.Displace | muxcore/daemon/daemon.go:1047-1055 | the delete-while-scanning loop keeps exactly the entries that are not displaced |
| Templates.TemplateCache.GetCompatibleTemplate | muxcore/daemon/daemon.go:1060-1088 | returns the first hit in lookup order, without authority, with its scope and the family's revision |
| Templates.TemplateCache.InvalidateTemplate | muxcore/daemon/daemon.go:1125-1134 | empties a known family under a new revision and leaves an unknown one unknown |
| Templates.TemplateCache.MatchCurrent | muxcore/daemon/daemon.go:1090-1097 | decides whether a match is current |
| CrashWindow.TrimmedReportsTheSame | muxcore/daemon/daemon.go:3605-3660 | with nondecreasing times the trimmed list reports a crash loop exactly when at least five crashes of the full history lie in the last minute |
| CrashWindow.CrashTracker.RecordCrash | muxcore/daemon/daemon.go:3628-3642 | the list stays the one its history makes, and no other command's list moves |
| CrashWindow.CrashTracker.IsCrashLooping | muxcore/daemon/daemon.go:3646-3660 | answers for the full history |
| GracefulRestart.DetachFollowsHello | muxcore/daemon/daemon.go:2365-2376 | no owner detaches before an exact Hello from a running successor |
| GracefulRestart.BackupFollowsStop | muxcore/daemon/daemon.go:2462-2481 | a snapshot successor starts only when the handoff successor was never started or is proven stopped, and after a detach only from a rewritten snapshot |
| GracefulRestart.NeverTwoSuccessors | muxcore/daemon/daemon.go:2428-2432 | at no point of a restart do two successors run |
| GracefulRestart.AcceptHello | muxcore/daemon/handoff.go:148-169 | accepts exactly the right message type, version, token and, where needed, process number |
| GracefulRestart.Restart.AttemptHandoff | muxcore/daemon/daemon.go:2307-2393 | which ending follows from which outcomes, exactly: what was started, detached and settled, what was stopped, and whether a backup is safe |
| GracefulRestart.Restart.TransferAll | muxcore/daemon/daemon.go:2372-2392 | each detached owner is settled once, in order, by the decision of the exchange; failed exactly if not committed or some settlement callback failed |
| GracefulRestart.Restart.TransferOrStop | muxcore/daemon/daemon.go:2378-2385 | the successor is kept exactly if the exchange committed and every settlement callback succeeded, and stopped otherwise |
| GracefulRestart.AdoptedCanBeStopped | muxcore/daemon/handoff.go:289-298 | a sound log in which a successor is stopped after an owner was committed to it |
| GracefulRestart.Restart.HandleGracefulRestart | muxcore/daemon/daemon.go:2438-2505 | the exact answer: a callback if and only if the snapshot successor started where nothing is to hand off, or the handoff committed cleanly, or it was stopped, the snapshot rewritten and the snapshot successor started; a callback means exactly one running successor with the daemon closed and its pins held; otherwise the pins are released, the daemon serves again exactly if nothing detached, and a successor is left running exactly where a stop or a release failed |
| GracefulRestart.RefusedCanLeaveRunning | muxcore/daemon/daemon.go:2201-2219 | sound logs of refused restarts in which either successor is left running |
| Environments.EnvCompatible | muxcore/internal/envidentity/identity.go:72-97 | decides that no identity key conflicts and credentials are present on both sides or neither |
| Environments.CredentialsAgree | muxcore/daemon/daemon.go:3289-3309 | two requests compatible with one stored environment carry the same credentials |
| Environments.EmptyFitsExactly | muxcore/daemon/snapshot.go:269-278 | a missing environment fits exactly the requests without credentials |
| SpawnMachine.StepInv | muxcore/daemon/daemon.go:1394-1604 | every section of every attempt, every other spawn, restore, removal and reclassification keeps what attempts know of the entries they hold and what tokens say |
| SpawnMachine.TokensAreBound | muxcore/daemon/daemon.go:1430-1604 | under every interleaving a global token names a promoted owner that was classified shareable when it was issued, or that its own attempt created with its own environment; the stored environment is compatible exactly when it is present or the request has no credential |
| SpawnMachine.SessionsShareCredentials | muxcore/daemon/daemon.go:3289-3309 | under every interleaving sessions on one owner with a stored environment carry the same credentials |
| SpawnMachine.EnvironmentsStay | muxcore/daemon/daemon.go:1886-1894 | promotion and everything else leave the environment an entry was reserved or restored with |
| SpawnMachine.ReservationsAreFree | muxcore/daemon/daemon.go:1430-1541 | no section of a global attempt displaces or removes a registered entry |
| SpawnMachine.MissingEnvironmentLeaks | muxcore/daemon/daemon.go:1567-1571 | a run in which an owner restored without an environment is shared with a request whose credential it never saw |
| SpawnMachine.Derives | muxcore/daemon/daemon.go:3357-3405 | the identity derivation, undisturbed: a base owner with a stored environment gives the base identity exactly to compatible requests and the environment's own identity to all others; without one the own identity is taken exactly if registered |
| SpawnMachine.OtherEnvironmentGetsItsOwnOwner | muxcore/daemon/daemon.go:3341-3352 | an attempt whose base owner has another environment creates, undisturbed, its own owner under its own identity and gets a token on it; the base owner stays |
| SpawnMachine.FirstComerGetsTheBase | muxcore/daemon/daemon.go:1681-1895 | with neither identity registered an undisturbed attempt creates the base owner with its own environment and gets a token on it |
| SpawnMachine.CompatibleSharesTheBase | muxcore/daemon/daemon.go:1501-1604 | an attempt whose base owner is classified shareable, listening and compatible gets, undisturbed, a token on it, and the registry stays |
| SpawnMachine.OwnIdentityIsJoined | muxcore/daemon/daemon.go:3378-3397 | the same for an owner under the request's own identity |
| SpawnMachine.WaiterJoins | muxcore/daemon/daemon.go:1430-1500 | an attempt that waited for another's creation joins the owner it finds if that owner may be shared |
| SpawnDaemon.Registry.ReadBaseEntry | muxcore/daemon/daemon.go:3357-3405 | a base owner with a stored environment decides: the base exactly for a compatible request, else the identity of the request's own environment; without one the second read decides |
| SpawnDaemon.Registry.ReadBucketEntry | muxcore/daemon/daemon.go:3378-3395 | takes the request's own identity exactly if it is registered |
| SpawnDaemon.Registry.FirstSection | muxcore/daemon/daemon.go:1398-1541 | waits, probes, stops, or reserves the identity with the merged environment |
| SpawnDaemon.Registry.WaitedSection | muxcore/daemon/daemon.go:1447-1474 | goes on exactly with a live, thawed, accepting owner whose environment passes |
| SpawnDaemon.Registry.ProbedSection | muxcore/daemon/daemon.go:1549-1573 | goes on exactly with the entry that was probed, if its environment passes |
| SpawnDaemon.Registry.GateSection | muxcore/daemon/daemon.go:1157-1187 | goes on exactly with an owner classified shareable |
| SpawnDaemon.Registry.RegisterSection | muxcore/owner/owner.go:817-838 | issues exactly one token, to exactly an accepting, thawed owner that is not isolated |
| SpawnDaemon.Registry.PromoteSection | muxcore/daemon/daemon.go:1864-1895 | promotes exactly the current placeholder, with the session environment |
| IsolatedIdentities.FreeCandidate | muxcore/daemon/daemon.go:1416-1428 | the search for a free identity ends, on the first free one after the counter |
| IsolatedIdentities.Identities.ReserveIsolated | muxcore/daemon/daemon.go:1378-1428 | an isolated spawn reserves an identity no registered owner holds: the base, or that of the pending retry or of the counter, if free, else the first free candidate past the counter, which becomes the counter |

## Left out

- Owner-side effects of a lease (drain, maintenance marks on owners, session rejection), the wait for open creation channels, and the display results and error codes of replies.
- Order of keys and pins: they are sets. Lease objects are values; a timer's identity (hold and serial number) stands for the pointer comparison of its callback.
- The bytes of the ledger files: their JSON form, schema version, scope, paths and permissions, and the reads that fail for those reasons. A start is modelled on a ledger that recovery accepts.
- MaintenanceDaemon.Daemon.AdmitMaterialization: the code tests no retirement; the model refuses a start on a retired owner because such an owner asks for none.
- Request parsing and limits of the control plane, and status listings.
- The shared-owner search of the `cwd` mode; the retry budget of the spawn loop; the dial probe and the waits of a spawn; the fingerprint and short hash of an environment.
- SpawnDaemon.Registry.FirstSection: modern, isolated, `cwd` and `git` spawns appear only through their reservations, promotions and removals; an attempt's retries are new attempts.
- IsolatedIdentities.FreeCandidate: the counter is unbounded and does not wrap at 64 bits.
- Sockets, handle passing, token files, process spawning and contexts with deadlines: each is an operation that may fail.
- HandoffSender.SettleUpstreams: a missing commit or abort callback counts as one that does nothing, and error texts are not modelled.
- Snapshot serialization and restart pins beyond taking and releasing them, and what the daemon does with an adopted or staged owner after the handoff.
- Liveness: that a timer fires or a peer answers is not claimed, only what then happens.
- Classification rules, busy tracking, the management server, the launcher and the command line.
