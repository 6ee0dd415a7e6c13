# quectel-qmi-go: verified models

A Dafny 4.11 project that models the hand-written protocols and codecs of a Go library for QMI
modems and proves what they keep.

Code that changes fields under a mutex is modelled as a class with one method per locked section.
Each method is proved to do to the fields what a function on the fields says. Most protocol files
(`*Protocol.dfy`, `ImsProbeLifts.dfy`, `ServiceRebind.dfy`) run any number of goroutines over these
same functions, one locked section, channel operation, timer or hook call at a time, and prove an
invariant that every step keeps and that therefore holds in every state of every run.
`DataConfigProtocol.dfy` runs one reconfiguration among any number of other writers, and
`TransactionProtocol.dfy`, which follows the history of the counters, shares only the IDs and the keys
with `Transactions.dfy` and writes its steps out itself. Loops over data are methods with loop
invariants, proved against a function whose own laws are lemmas. Calls into the modem, the kernel and
the host are answers chosen freely by the caller, so every pattern of failures is covered. Clocks are
natural numbers.

| file | what it models |
|---|---|
| `CardAccessGate.dfy`, `CardAccessGateProtocol.dfy` | the ticketed card-access gate |
| `QmiFrame.dfy`, `StreamReassembly.dfy` | the packet codec and the reassembly of frames from reads |
| `Transactions.dfy`, `TransactionProtocol.dfy` | transaction IDs, response routing, teardown |
| `Coalescing.dfy`, `CoalescingProtocol.dfy` | the coalescing indication pipeline |
| `ImsProbe.dfy`, `ImsProbeProtocol.dfy`, `ImsProbeLifts.dfy` | IMS probes against the cleanup barrier, and when the barrier may be lifted |
| `ModemReset.dfy`, `ModemResetProtocol.dfy` | coalescing, deferral and retry of modem resets |
| `ServiceSlot.dfy`, `ServiceRebind.dfy` | lazy allocation and rebind of a service against client replacement |
| `ServiceTimeouts.dfy` | timeout storms and per-operation timeout windows |
| `RecoveryBackoff.dfy` | backoff, jitter and exhaustion of core recovery |
| `DataPlane.dfy` | topology convergence and secondary PDN sessions with a resource ledger |
| `DataConfig.dfy`, `DataConfigProtocol.dfy`, `DataConfigAlone.dfy` | the reconfiguration transaction, among other writers, and undisturbed |
| `QrtrFrames.dfy`, `QrtrTransport.dfy` | the simulated control service and its client sockets |
| `SmsTrim.dfy` | trimming of SMS-DELIVER TPDUs |
| `ScanResults.dfy`, `ScanMerge.dfy` | parsing and merging of incremental network scans |
| `Identities.dfy`, `IdentitiesProtocol.dfy` | generation-guarded device identities |
| `SimProvisioning.dfy` | the bounded SIM provisioning loop |
| `FirmwareImages.dfy` | the firmware image list builder and parser |
| `Wrappers.dfy`, `Bytes.dfy` | options, results, octets |

`dafny verify dfyconfig.toml` checks the project.

## What the proofs turned up

Where a law turned out not to hold for the code, the code is modelled as it is, a lemma gives the
failing case, and the law is proved under its exact condition.

- A modem-reset timer that cleanup discards leaves the deferred flag raised exactly when the flag is up
  and no other timer or sender may still lower it (`ModemResetProtocol.DiscardSticksIff`). It then stays
  up in every continuation and every later reset that meets a full queue is merged into a retry that
  never comes (`ModemResetProtocol.StuckForGood`); `ModemResetProtocol.DiscardedTimerSticks` reaches such
  a state with the source's queue. Otherwise the flag means that a retry is under way: the only step that
  breaks this is discarding the deferrer's own timer (`ModemResetProtocol.OnlyTheDeferrersTimerMatters`,
  `ModemResetProtocol.DeferredMeansRetry`).
- A failed startup attempt that had already published a service breaks the ownership ledger, and the
  next attempt orphans the handle (`ServiceRebind.FailedStartBreaksTheInvariant`, an if and only if, and
  `ServiceRebind.RetryOrphansAHandle`). Startup's unconditional store of a service is safe exactly when
  none is published and no other goroutine allocates on the same client
  (`ServiceRebind.StartPublishKeepsTheInvariantIff`); otherwise a handle is lost without any failure
  (`ServiceRebind.StartOrphansThePublished`, `ServiceRebind.EnsureOrphansTheStart`).
- Two overlapping stops let a start begin while one of them has its clearing and closing still to do, and
  the probe admitted then can have its client closed (`ImsProbeLifts.OverlappingStopsLetAStartIn`). A start
  is safe exactly when no cleanup is pending at its lift (`ImsProbeLifts.StartIsSafeIff`), and so is the
  lift of a recovery (`ImsProbeLifts.RecoveryIsSafeIff`).
- A request whose control transaction stays open while the counter makes 255 further increments has its
  table entry overwritten by a live request (`TransactionProtocol.OnePeriodLaterOverwrites`); with fewer
  than a period of increments in the life of a request, IDs, table and routing are exact
  (`TransactionProtocol.RunsAreSafe`).
- Convergence is idempotent exactly when it did not degrade and native mode was not asked for with a
  mux number (`DataPlane.ReconvergeIsANoOp`). A new topology strands the open sessions, and cleanup, which
  restarts the generations, makes exactly those of the first generation live again
  (`DataPlane.StrandedSessionsReturnIff`); `DataPlane.StrandedSessionReturns` is a run that does it.
- The simulated version list reads back as the table unless all 256 eight-bit services are present
  (`QrtrFrames.SimulationAgrees`).
- The stored scan is free of duplicates exactly when its first nonempty batch was
  (`ScanMerge.ScanIsDistinctIffItsFirstBatchIs`).
- A lease hook that returns a service together with an error leaks it in the IMS probe, and that is the
  only leak (`ImsProbe.Probe`, an if and only if), while `OpenPDN` gives it back
  (`DataPlane.Controller.Open`). Only an injected hook answers so; the source's own constructor
  (pkg/qmi/wds.go:333-339) returns no service with an error.
- The timeout window of an operation does not slide, so a threshold of `k` timeouts within a window is
  noticed for all histories exactly when `k` is at most 2; a burst that is noticed in all histories needs
  2k - 2 timeouts, and no fewer (`ServiceTimeouts.BurstsAreNoticedIff`).
- The mutexes of a reconfiguration do not keep out stops, intents and `SetAPN`. An intent announced
  meanwhile survives exactly when it came after the reconfiguration's last write or agrees with what it
  found (`DataConfigProtocol.IntentSurvivesIff`); the same for an APN
  (`DataConfigProtocol.ConfigSurvivesIff`). A stop that falls inside the disconnect is overwritten, and
  the stopped manager is dialled again (`DataConfigProtocol.StoppedManagerIsRedialled`), although the
  comment at pkg/manager/data_config.go:92-93 says that a stop cannot pass.
- A data handle whose WDS service is gone outlives the disconnect of a reconfiguration, contrary to
  pkg/manager/data_config_test.go:57-91, which expects both handles to be cleared
  (`DataConfig.ConnectionAfterwards` says which handles are left).
- Any single field, `HardwareRevision` included, makes the static identities ready
  (pkg/manager/snapshot.go:549), so the pre-warm's test of readiness decides nothing beyond its test of
  the IMEI (`IdentitiesProtocol.ReadinessTestAddsNothing`).

## Model

| member | source | states |
|---|---|---|
| CardGate.SkipCanceledIsFirstLive | pkg/manager/card_access_gate.go:44-53 | skipping moves to the first ticket that is not canceled, forgets exactly the tickets it passed and touches nothing else |
| CardGate.SettleIsStable | pkg/manager/card_access_gate.go:34-53 | initialising and skipping keeps the ticket counters well-formed and is idempotent |
| CardGate.CardAccessGate.SkipCanceledLocked | pkg/manager/card_access_gate.go:44-53 | the skip loop on the fields is the settling function |
| CardGate.CardAccessGate.AcquireLocked | pkg/manager/card_access_gate.go:55-72 | one pass of acquire: admitted exactly on an idle gate that owes no ticket, else parked on the current channel |
| CardGate.ReleaseUndoesAcquire | pkg/manager/card_access_gate.go:55-89 | a release after an admission gives back the settled gate, with everybody woken when the count returns to zero |
| CardGate.ExtraReleaseOnlySignals | pkg/manager/card_access_gate.go:80-89 | a release too many leaves the count at zero and only wakes everybody |
| CardGate.CardAccessGate.BeginLocked | pkg/manager/card_access_gate.go:120-143 | begin draws the next ticket and is granted a window exactly at its turn on an idle gate |
| CardGate.CardAccessGate.BeginRetryLocked | pkg/manager/card_access_gate.go:130-161 | the same test after a wake-up, under the same lock as the skipping |
| CardGate.CardAccessGate.CancelLocked | pkg/manager/card_access_gate.go:149-155 | cancellation records the ticket, skips and wakes everybody |
| CardGate.QuietWindow.Release | pkg/manager/card_access_gate.go:135-143 | the closure ends the window on its first run and does nothing afterwards |
| CardGateProtocol.StepPreserves | pkg/manager/card_access_gate.go:55-163 | every step of every goroutine keeps ticket ownership, exclusion, ticket order and the absence of lost wake-ups |
| CardGateProtocol.RunsAreSafe | pkg/manager/card_access_gate.go:55-163 | that invariant holds in every state of every run of any number of goroutines |
| CardGateProtocol.WindowsAreExclusive | pkg/manager/card_access_gate.go:55-163 | a quiet window never coexists with a card operation or another window, and the barrier is up exactly while one is open |
| CardGateProtocol.WindowsAreFirstComeFirstServed | pkg/manager/card_access_gate.go:120-163 | windows are granted in ticket order; a ticket passed over was granted earlier or canceled, and a canceled one is never granted |
| CardGateProtocol.NoOperationOvertakesABegin | pkg/manager/card_access_gate.go:55-78 | once a begin has drawn a ticket no operation is admitted until that ticket is canceled or its window released |
| CardGateProtocol.OnlyItsOwnClosureEndsAWindow | pkg/manager/card_access_gate.go:135-143 | an open window ends exactly when its own closure runs first; repeated releases of earlier windows change nothing |
| CardGateProtocol.SomeWaiterCanRun | pkg/manager/card_access_gate.go:44-163 | when nothing runs, no window is open and somebody waits, some waiter is not asleep on an open channel and its next section ends its wait |
| CardGateProtocol.AcquireAdmitsExactlyWhen | pkg/manager/card_access_gate.go:55-78 | over every run, an operation is admitted exactly when no window is open and no begin owns a ticket, however many operations run |
| CardGateProtocol.BeginAdmitsExactlyWhen | pkg/manager/card_access_gate.go:120-143 | a begin gets its window at once exactly when no window is open, nobody operates and no other ticket is owned |
| CardGateProtocol.BeginRetryAdmitsExactlyWhen | pkg/manager/card_access_gate.go:130-161 | a woken begin gets it exactly when no window is open, nobody operates and its ticket is the first one owned |
| CardGateProtocol.WaitEndsExactlyWhen | pkg/manager/card_access_gate.go:98-118 | waiting for the barrier ends exactly when no window is open |
| CardGateProtocol.SleepersHaveAReason | pkg/manager/card_access_gate.go:55-163 | whoever sleeps on the open channel has an open window, an earlier ticket or, for a begin, an operation to wait for |
| QmiFrame.ParseTlvs | pkg/qmi/frame.go:450-475 | the offset loop returns the recursive reading of the data, with its error and its tolerance of short zero padding |
| QmiFrame.TlvsReadExactly | pkg/qmi/frame.go:426-475 | parsing yields a list exactly when the data is that list marshalled, followed by at most two zero octets |
| QmiFrame.RoundTrip | pkg/qmi/frame.go:501-606 | a packet that fits, followed by anything, unmarshals to itself with an 8-bit control transaction ID and no indication flag |
| QmiFrame.RoundTripIffFits | pkg/qmi/frame.go:501-606 | reading back a marshalled packet succeeds exactly when it fits the 16-bit length of the frame header |
| QmiFrame.UnmarshalledPacketsFit | pkg/qmi/frame.go:536-606 | any packet that was unmarshalled, from whatever octets, fits and can be marshalled again |
| QmiFrame.ParsedTlvsFit | pkg/qmi/frame.go:434-475 | parsing never yields more octets than it was given |
| QmiFrame.TlvsFollow | pkg/qmi/frame.go:426-475 | the octets of a list of TLVs: kind, length with the low octet first, value, one after the other |
| QmiFrame.OnlyTheFrameMatters | pkg/qmi/frame.go:536-556 | a frame with octets missing is refused, and what follows the announced length does not matter |
| QmiFrame.MarshalledOctets | pkg/qmi/frame.go:501-534 | the octets of a marshalled packet, field by field |
| QmiFrame.IncomingFrames | pkg/qmi/frame.go:536-606 | octets laid out like that unmarshal to their fields, and the flags mark an indication |
| QmiFrame.FlagValues | pkg/qmi/frame.go:567-595 | which flag values mark an indication, on the control service and elsewhere |
| QmiFrame.WideHeaderIs | pkg/qmi/frame.go:186-216 | the octets of the wide outer header |
| QmiFrame.FindTlvIsFirst | pkg/qmi/frame.go:477-484 | a TLV found by its kind is the first one of it |
| QmiFrame.QmuxHeaderRoundTrip | pkg/qmi/frame.go:217-300 | the narrow outer header gives back its fields and leaves the body |
| QmiFrame.QrtrHeaderRoundTrip | pkg/qmi/frame.go:186-300 | the wide outer header gives back its fields and leaves the body |
| QmiFrame.ServiceTlvRoundTrip | pkg/qmi/frame.go:677-716 | the control-service TLV codecs invert each other, narrow and wide, up to a wide form of a narrow service |
| StreamReassembly.Reader.Feed | pkg/qmi/client.go:580-613 | one read appends to the pending octets and cuts off all complete frames; the inner loop ends on every input |
| StreamReassembly.ReadLoop | pkg/qmi/client.go:546-613 | the frames of the outer loop are those of feeding the chunks one by one |
| StreamReassembly.ChunkIndependence | pkg/qmi/client.go:580-613 | the frames depend on the concatenated octets only, and the pending octets differ by leading junk only |
| StreamReassembly.SameOctetsSameFrames | pkg/qmi/client.go:580-613 | any two ways to split the same octets yield the same frames |
| StreamReassembly.StreamRecovery | pkg/qmi/client.go:580-622 | packets that fit, with junk before, between and after them and cut by reads in any way, decode to exactly those packets |
| Transactions.KeysAreInjective | pkg/qmi/client.go:942 | keys are equal exactly when service and ID are |
| Transactions.WrapKeepsIds | pkg/qmi/client.go:926-938 | wrapping the counter at 2^32 does not disturb the sequence of IDs |
| Transactions.IdsCollideIff | pkg/qmi/client.go:926-938 | two draws collide exactly when a multiple of 256 (control) or 65536 increments lies between them |
| Transactions.TransactionTable.AllocateTxID | pkg/qmi/client.go:926-938 | an allocation takes one increment, or two when the first gives zero, and is never zero |
| Transactions.TransactionTable.FailPending | pkg/qmi/client.go:710-717 | every channel in the table is closed once and the table is emptied |
| TransactionProtocol.RunsAreSafe | pkg/qmi/client.go:409-446 | IDs, table, routing and channel states stay consistent over every run in which the counter makes fewer than a period of further increments in the life of a request |
| TransactionProtocol.PendingRequestsAreDistinct | pkg/qmi/client.go:926-958 | pending requests have nonzero IDs and distinct keys and are found under their own key |
| TransactionProtocol.ResponsesReachTheirRequest | pkg/qmi/client.go:622-633 | a response reaches only a request with its service and ID, at most one, and no indication answers a request |
| TransactionProtocol.FramesAreTakenIff | pkg/qmi/client.go:622-633 | over every run, a frame is taken for a request exactly when it is no indication and a registered request with an open channel has its service and ID, and it is taken for that one |
| TransactionProtocol.HeldResponsesAreSent | pkg/qmi/client.go:627-631 | a response that was taken goes into the channel of its request unless an earlier one is there, and nothing comes in between |
| TransactionProtocol.SentResponsesAnswer | pkg/qmi/client.go:997-1008 | a response in the channel stays until the request takes it as its answer or gives up |
| TransactionProtocol.OutcomesAreFinal | pkg/qmi/client.go:997-1008 | an outcome once decided stays |
| TransactionProtocol.ChannelsAreClosedOnce | pkg/qmi/client.go:710-717 | the teardown closes open channels only, and the read loop never holds a response for a closed one |
| TransactionProtocol.OnePeriodLaterOverwrites | pkg/qmi/client.go:926-958 | at exactly a period the bound fails: a reachable state in which the table entry of a waiting request belongs to another one |
| TransactionProtocol.SecondDrawIsZeroIff | pkg/qmi/client.go:926-938 | the second increment of an allocation gives zero exactly when a multiple of the period lies between the two |
| Coalescing.CoalescedStore.StoreCoalescedEvent | pkg/qmi/client.go:756-764 | storing keeps every other key's event and place, keeps the key's own place if it has one, and otherwise appends the event to the contents |
| Coalescing.CoalescedStore.PopCoalescedEvent | pkg/qmi/client.go:766-780 | popping takes the event of the first key that still has one |
| Coalescing.PutKeepsOrder | pkg/qmi/client.go:756-764 | the order stays free of duplicates with exactly the stored keys, and only the event of the key changes |
| Coalescing.TakeIsFirst | pkg/qmi/client.go:766-780 | taking yields the first event and leaves the others |
| Coalescing.EdgeTypes | pkg/qmi/client.go:782-808 | the event types that never coalesce |
| Coalescing.CoalesceIff | pkg/qmi/client.go:782-808 | two indications share a key exactly when they are of one coalescible type, service and message |
| CoalescingProtocol.StepPreserves | pkg/qmi/client.go:666-780 | every step conserves events, numbers and justified losses and loses no wake-up |
| CoalescingProtocol.RunsAreSafe | pkg/qmi/client.go:666-780 | every event offered is in exactly one place, in every state of every run |
| CoalescingProtocol.CoalescibleSurvives | pkg/qmi/client.go:719-764 | while the client is open a coalescible indication is under way, delivered, or overwritten by a newer one under its key |
| CoalescingProtocol.DeliveredOnce | pkg/qmi/client.go:666-697 | no indication is delivered twice and none is invented |
| CoalescingProtocol.StoredEventsGetOut | pkg/qmi/client.go:666-687 | with something stored the consumer can run or the producer is about to wake it |
| CoalescingProtocol.QueuedAreDeliveredInOrder | pkg/qmi/client.go:666-754 | indications that went through the queue are delivered in the order they were offered |
| CoalescingProtocol.OnlyCoalescibleAreSpilled | pkg/qmi/client.go:719-754 | only coalescible ones go through the store |
| CoalescingProtocol.OnlyOverflowSpills | pkg/qmi/client.go:719-754 | none does while the queue has never been full, and then nothing is overwritten |
| ImsProbe.AdmittedExactlyWhen | pkg/manager/ims_probe.go:171-242 | when each section lets a probe pass, over the manager's fields, and with which error it does not |
| ImsProbe.DecideAgreesWithCheck | pkg/manager/ims_probe.go:171-242 | the second section admits exactly what the first lets through and no active PDN forbids; admitting counts the probe and makes its cancel function the one a cleanup gets, refusing changes nothing |
| ImsProbe.BlockedRefusesEverybody | pkg/manager/ims_probe.go:171-264 | once blocked, both sections refuse every probe and change nothing, whatever else has changed since |
| ImsProbe.ClearedRefusesEverybody | pkg/manager/manager.go:2744-2785 | once cleanup has taken the client, both sections refuse until there is one again, even with the flag lifted |
| ImsProbe.Probe | pkg/manager/ims_probe.go:82-164 | everything a probe opens is closed once and innermost first exactly unless the lease hook of an admitted probe returned a service with an error; it succeeds exactly when every hook does, and settings come with an error exactly when only the cleanup failed |
| ImsProbe.Body | pkg/manager/ims_probe.go:105-164 | the same from the lease on, and a call is started exactly when discovery, window and start succeed |
| ImsProbeProtocol.StepPreserves | pkg/manager/ims_probe.go:166-269 | every step of probes and cleanups keeps token, WaitGroup, hook counts, barrier and client use consistent |
| ImsProbeProtocol.RunsAreSafe | pkg/manager/ims_probe.go:166-269 | in every state of every run |
| ImsProbeProtocol.OneProbeAtATime | pkg/manager/ims_probe.go:184-256 | at most one probe is past the slot, and the token is then not in it |
| ImsProbeProtocol.ProbesCleanUpAfterThemselves | pkg/manager/ims_probe.go:105-164 | every call is stopped once within its window, every window ended once, every lease released once, before the scope ends |
| ImsProbeProtocol.BarrierIsTight | pkg/manager/ims_probe.go:258-269 | after a cleanup's wait and until somebody lifts the flag no probe is admitted |
| ImsProbeProtocol.CleanupIsNotStuck | pkg/manager/ims_probe.go:258-269 | while a cleanup waits, the admitted probe can take a step and its cancel function was installed unless it is past its last hook |
| ImsProbeProtocol.HolderAdvances | pkg/manager/ims_probe.go:105-256 | the holder of the slot has a next step, and it shortens the rest of its scope or returns the slot |
| ImsProbeProtocol.ProbesNeverUseAClosedClient | pkg/manager/manager.go:2729-2897 | over runs in which the flag is lifted only while no cleanup is between blocking and closing, no admitted probe's client is ever closed |
| ImsProbeProtocol.ProbesAreAdmittedExactlyWhen | pkg/manager/ims_probe.go:213-256 | the same of the step of a queued probe, which then uses the client it found |
| ImsProbeProtocol.SuccessfulProbe | pkg/manager/ims_probe.go:105-164 | hooks that succeed lead through lease, window, call and their ends, once each |
| ImsProbeLifts.StartIsSafeIff | pkg/manager/manager.go:570-584 | after the lift of a start no continuation closes the client of an admitted probe exactly when no cleanup was pending |
| ImsProbeLifts.RecoveryIsSafeIff | pkg/manager/manager.go:3200-3215 | the same of the lift of a recovery whose client is still there |
| ImsProbeLifts.OverlappingStopsLetAStartIn | pkg/manager/manager.go:570-661 | a run of two stops of which one completes, after which the source lets a start begin that is not safe |
| ModemReset.LetsGoOrCounts | pkg/manager/uim_recovery.go:180-228 | each section lets the event go on or counts it as coalesced, never both |
| ModemReset.DebounceWindow | pkg/manager/uim_recovery.go:180-198 | after one event is let through the next is, outside a recovery, exactly when the window is over |
| ModemReset.FiringOpensTheWindow | pkg/manager/uim_recovery.go:217-228 | after a timer sent its event an enqueue goes on exactly when the window is over |
| ModemReset.SentExactlyWhen | pkg/manager/uim_recovery.go:180-228 | an event is sent at once exactly outside a recovery and a window, by a timer exactly outside a recovery, and is left pending in one |
| ModemReset.OneDeferralAtATime | pkg/manager/uim_recovery.go:203-235 | a second deferral is absorbed until a timer has fired, and then deferring is possible again |
| ModemReset.RetryIsNotDebounced | pkg/manager/uim_recovery.go:217-250 | the retry timer's own enqueue passes the debounce test |
| ModemReset.ReissuesIffAbsorbed | pkg/manager/manager.go:3013-3032 | a recovery, over any sequence of sections that run during it, ends with a reissue owed exactly when one of them absorbed an event |
| ModemReset.AbsorbingSets | pkg/manager/uim_recovery.go:184-223 | during a recovery a section raises the pending flag exactly when it absorbs an event, and none lowers it |
| ModemResetProtocol.StepPreserves | pkg/manager/uim_recovery.go:176-250 | every step of enqueues, timers and event loops keeps the account, the single recovery, pending, reissues and the deferred flag's owner |
| ModemResetProtocol.RunsAreSafe | pkg/manager/uim_recovery.go:176-250 | in every state of every run |
| ModemResetProtocol.OneRecoveryAtATime | pkg/manager/manager.go:3008-3026 | at most one recovery executes, whatever the number of event loops |
| ModemResetProtocol.TheOnlyLoopNeverSkips | pkg/manager/manager.go:3013-3020 | with the single event loop of the manager the handler's duplicate branch is never taken |
| ModemResetProtocol.ResetsAreAccounted | pkg/manager/uim_recovery.go:176-250 | resetEvents equals resetCoalesced plus events put plus calls in flight plus first timers running or discarded |
| ModemResetProtocol.ArrivalsStayPending | pkg/manager/uim_recovery.go:184-190 | a reset that arrives during a recovery stays pending until that recovery ends |
| ModemResetProtocol.RecoveriesReissueOnce | pkg/manager/manager.go:3028-3041 | the handler then owes exactly one enqueue call, and calls made or owed match the recoveries that ended with one pending |
| ModemResetProtocol.OnlyTheDeferrersTimerMatters | pkg/manager/uim_recovery.go:203-250 | a step breaks the meaning of a raised deferred flag exactly when it discards the deferrer's timer |
| ModemResetProtocol.DeferredMeansRetry | pkg/manager/uim_recovery.go:203-250 | over every run without such a discard a raised deferred flag means a retry is under way |
| ModemResetProtocol.DiscardSticksIff | pkg/manager/manager.go:1900-1942 | a discard leaves the flag stuck exactly when it is raised and no other timer or sender may lower it |
| ModemResetProtocol.StuckForGood | pkg/manager/uim_recovery.go:203-250 | a stuck flag stays raised in every continuation: every later deferral is merged and no timer is scheduled |
| ModemResetProtocol.DiscardedTimerSticks | pkg/manager/manager.go:1900-1942 | such a state is reachable with the source's queue of 16 |
| ModemResetProtocol.FreshResetRecovers | pkg/manager/manager.go:3008-3032 | a reset that meets no recovery, no window and an empty queue makes the event loop recover |
| ModemResetProtocol.DeferredResetIsSent | pkg/manager/uim_recovery.go:203-228 | one that met a full queue is put there by its timer once there is room |
| ModemResetProtocol.RetriedResetIsSent | pkg/manager/uim_recovery.go:229-249 | one that met a full queue twice comes back as a new call and is put there once there is room |
| ModemResetProtocol.PendingResetIsReissued | pkg/manager/manager.go:3028-3041 | a recovery that ends with a reset pending enqueues again |
| ServiceSlot.EnsurePublishesOnce | pkg/manager/service_recovery.go:314-360 | a service ensured on an unchanged client is published, and the next ensure finds it |
| ServiceSlot.RebindReplaces | pkg/manager/service_recovery.go:351-400 | a rebind on an unchanged client hands out the previous service and puts the new one in its place |
| ServiceSlot.ClearedSlotRefuses | pkg/manager/manager.go:2744-2788 | after a cleanup a service allocated on the old client is refused, whatever client comes next |
| ServiceRebind.StepPreserves | pkg/manager/service_recovery.go:314-400 | every step of ensure, rebind, cleanup and opening keeps ownership, mutex and currency of the service |
| ServiceRebind.PublishedBelongsToTheCurrentClient | pkg/manager/service_recovery.go:314-400 | a published service was allocated on the current client and is not closed |
| ServiceRebind.HandlesAreAccounted | pkg/manager/service_recovery.go:314-400 | each handle is published, or in the hands of one goroutine, or closed once |
| ServiceRebind.OwnersAreSingle | pkg/manager/service_recovery.go:314-400 | no two goroutines own the same handle |
| ServiceRebind.NothingLeaks | pkg/manager/service_recovery.go:314-400 | when no call is under way every handle is the published one or was closed once |
| ServiceRebind.EnsureReturnsAtOnce | pkg/manager/service_recovery.go:314-333 | an ensure call returns without a change exactly when there is a service or no client |
| ServiceRebind.EnsurePublishes | pkg/manager/service_recovery.go:314-360 | otherwise, undisturbed, it ends with a new service published on the client |
| ServiceRebind.RebindPublishes | pkg/manager/service_recovery.go:363-400 | an undisturbed rebind ends with a new service published and the old one closed once |
| ServiceRebind.FailedStartBreaksTheInvariant | pkg/manager/manager.go:3072-3088 | a failed startup attempt keeps the invariant exactly when it had not published the service |
| ServiceRebind.RetryOrphansAHandle | pkg/manager/manager.go:3072-3088 | otherwise the next attempt leaves a handle that nobody will close |
| ServiceRebind.StartPublishKeepsTheInvariantIff | pkg/manager/manager.go:2436-2438 | startup's unconditional store keeps the invariant exactly when nothing is published and nobody allocates on the same client |
| ServiceRebind.StartOrphansThePublished | pkg/manager/manager.go:2436-2438 | over a published service it loses that handle |
| ServiceRebind.EnsureOrphansTheStart | pkg/manager/service_recovery.go:351-360 | before the publication of an ensure on the same client, the publication goes through and loses startup's handle |
| ServiceTimeouts.StormDetector.TimedOut | pkg/manager/service_recovery_storm.go:14-43 | pruning, recording and the alarm test on the fields are the detection function |
| ServiceTimeouts.AlarmsExactlyWhen | pkg/manager/service_recovery_storm.go:14-43 | an alarm goes off exactly when another service timed out within five seconds and since the last alarm, and that alarm is over thirty seconds old |
| ServiceTimeouts.AlarmsAreRare | pkg/manager/service_recovery_storm.go:35-36 | two alarms are always more than the cooldown apart |
| ServiceTimeouts.OperationTimeouts.TimedOut | pkg/manager/service_recovery.go:81-141 | one timeout counts in the running window or starts a new one, and reaches the threshold by count |
| ServiceTimeouts.CountIsRecent | pkg/manager/service_recovery.go:110-119 | the count is that of the newest timeouts, all within one window |
| ServiceTimeouts.BurstsAreNoticedIff | pkg/manager/service_recovery.go:110-119 | n timeouts within a window take the count to k in every history exactly when n is at least 2k - 2 (1 for k = 1); so k of them do exactly for k up to 2 |
| ServiceTimeouts.LargeBurstsAreNoticed | pkg/manager/service_recovery.go:110-119 | the one direction, for any history around the burst |
| ServiceTimeouts.SmallBurstsCanBeMissed | pkg/manager/service_recovery.go:110-119 | the other, with a history for every smaller n |
| RecoveryBackoff.RecoverDelay | pkg/manager/manager.go:3338-3369 | the doubling loop equals min(500ms * 2^(n-1), 15s), the jitter stays within a fifth, and the 100ms floor never applies |
| RecoveryBackoff.BackoffGrows | pkg/manager/manager.go:3344-3354 | delays grow with the attempt from 500ms to the cap, reached exactly from the sixth attempt on |
| RecoveryBackoff.Recovery.ScheduleRetry | pkg/manager/manager.go:3317-3336 | a failure either schedules a retry or is terminal and starts afresh |
| RecoveryBackoff.ExactlyLimitRetries | pkg/manager/manager.go:3305-3336 | with a limit of k and no time limit every terminal event follows exactly k retries, for ever |
| RecoveryBackoff.NoLimitNeverGivesUp | pkg/manager/manager.go:3305-3315 | without limits recovery never gives up |
| RecoveryBackoff.GivesUpExactlyWhen | pkg/manager/manager.go:3305-3336 | with any limits a failure is terminal exactly when it is more than k failures into its run or the time since the run's first failure is up |
| DataPlane.Controller.ConvergeLocked | pkg/manager/data_plane.go:118-169 | convergence takes the modelled transition or leaves snapshot, master and interfaces alone, and records the declared specification once it is well-formed |
| DataPlane.ConvergesExactlyWhen | pkg/manager/data_plane.go:118-169 | convergence succeeds exactly when the specification is sound and in force already, or the services and the interface are there and the mode, or native in place of QMAP, can be had |
| DataPlane.ConvergesTo | pkg/manager/data_plane.go:118-260 | which topology, master and interface it ends with |
| DataPlane.ConvergeKeepsLinks | pkg/manager/data_plane.go:118-260 | the interfaces in use are those of the topology in force, generations go up by one, and degradation means native in place of QMAP |
| DataPlane.ReconvergeIsANoOp | pkg/manager/data_plane.go:134-137 | converging again changes nothing for all hook answers exactly when the first run did not degrade and native was not asked for with a mux number |
| DataPlane.NewTopologyStrandsSessions | pkg/manager/pdn_session.go:265-271 | after a new topology no session that was live can be closed |
| DataPlane.StrandedSessionsReturnIff | pkg/manager/manager.go:2739-2742 | after a cleanup and a new convergence a stranded session is live again exactly when it is of the first generation |
| DataPlane.StrandedSessionReturns | pkg/manager/manager.go:2735-2743 | converge, open, converge, clean up, converge leaves the session live, with what it owned still outstanding |
| DataPlane.OpensExactlyWhen | pkg/manager/pdn_session.go:149-256 | an open succeeds exactly on a QMAP topology, for a mux that is not zero, the default or reserved, when every hook it needs does |
| DataPlane.ConflictsAreRefused | pkg/manager/pdn_session.go:156-168 | which opens are refused for their mux, before anything is acquired, and which for the topology |
| DataPlane.FailsAtTheFirst | pkg/manager/pdn_session.go:172-243 | otherwise the error is that of the first hook that fails, in the source's order, and how far the open had got |
| DataPlane.LedgerOf | pkg/manager/pdn_session.go:194-208 | what an open acquires, and its release in the reverse order |
| DataPlane.Controller.Open | pkg/manager/pdn_session.go:149-256 | for every pattern of failures: one fresh session owning one mux, at most one lease and one call, or an unchanged session map with everything acquired released once in reverse order; and which error |
| DataPlane.Controller.Close | pkg/manager/pdn_session.go:258-280 | a current session gives back call, lease and mux once whatever the hooks answer; a stale or already closed one changes nothing |
| DataPlane.Controller.CloseAll | pkg/manager/pdn_session.go:282-292 | exactly the sessions of the current generation are closed |
| DataPlane.Controller.Cleanup | pkg/manager/manager.go:2735-2743 | cleanup closes them and forgets the topology, leaving sessions of other generations with their resources |
| DataPlane.OwnedByOneLess | pkg/manager/pdn_session.go:265-280 | removing a session from the map removes exactly the resources it owns |
| DataConfig.DataManager.Reconfigure | pkg/manager/data_config.go:28-148 | undisturbed, all or nothing: it succeeds exactly when the answers let it, with the request in force exactly then, the right error otherwise, and the connection desired as before |
| DataConfig.SucceedsExactlyWhen | pkg/manager/data_config.go:28-148 | the answers that let it: nothing to change, or a context that lasts and, for a connection that was up and wanted, a ready data plane, a service and a granted IPv4 call if asked for |
| DataConfig.FailsAs | pkg/manager/data_config.go:28-148 | which error it returns otherwise |
| DataConfig.ConnectionAfterwards | pkg/manager/data_config.go:62-147 | the connection is up again under the request, or down, with the handles whose service is missing left |
| DataConfig.CallsUseTheRequest | pkg/manager/data_config.go:18-27 | calls are made for a connection that was up and wanted only, use the request, and on success are all it asks for |
| DataConfig.RedialResult | pkg/manager/data_config.go:123-142 | the redial succeeds exactly when the context lasts and the dial gets through, and fails as the one that did not |
| DataConfig.RedialHandles | pkg/manager/data_config.go:110-142 | it leaves the handles of the calls granted, or those it found |
| DataConfigAlone.AloneIsTheTransaction | pkg/manager/data_config.go:28-148 | the sections of a reconfiguration that nobody disturbs, run one by one, end as the transaction does |
| DataConfigAlone.AloneSucceedsExactlyWhen | pkg/manager/data_config.go:28-148 | so they succeed exactly when the answers let them |
| DataConfigProtocol.StepPreserves | pkg/manager/data_config.go:28-148 | every section of a reconfiguration and every write of others keeps intent, configuration, path, calls and the reconfiguring flag accounted for |
| DataConfigProtocol.RunsAreSafe | pkg/manager/data_config.go:28-148 | in every state of every run |
| DataConfigProtocol.IntentSurvivesIff | pkg/manager/data_config.go:56-148 | at its end the latest intent of others is in force exactly when announced after its last write of it or equal to what it found |
| DataConfigProtocol.NoticedStopsSurvive | pkg/manager/data_config.go:94-97 | when it gives up for a stop, the latest intent is in force |
| DataConfigProtocol.ConfigSurvivesIff | pkg/manager/data_config.go:91-121 | at its end the families are the request's without an error and the previous ones with one, and an APN set meanwhile is in force exactly when set after its last write or equal to what that wrote |
| DataConfigProtocol.CallsAreFresh | pkg/manager/data_config.go:18-27 | no call uses a family or an APN older than the request, and none is made unless a connection was up and desired |
| DataConfigProtocol.StoppedManagerIsRedialled | pkg/manager/manager.go:3658-3684 | a reachable end in which the latest intent is a stop and the manager is connected and desired |
| QrtrFrames.StripUndoesRebuild | pkg/qmi/qrtr_transport_linux.go:168-179 | stripping a rebuilt frame gives back service, client ID and body, for narrow and wide services |
| QrtrFrames.RebuildUndoesStrip | pkg/qmi/qrtr_transport_linux.go:544-547 | stripping and rebuilding a marshalled packet is the identity |
| QrtrFrames.RequestArrives | pkg/qmi/qrtr_transport_linux.go:223-235 | the simulation reads transaction, message and TLVs of a control request as the client marshalled them |
| QrtrFrames.ResponseOctets | pkg/qmi/qrtr_transport_linux.go:562-575 | the octets of a synthesised response |
| QrtrFrames.ResponseDecodes | pkg/qmi/qrtr_transport_linux.go:562-575 | the client decodes a synthesised response to the TLVs put into it |
| QrtrFrames.ErrorReplyDecodes | pkg/qmi/qrtr_transport_linux.go:553-579 | an error reply carries its code through to the client's result check |
| QrtrFrames.AllocationReplyDecodes | pkg/qmi/qrtr_transport_linux.go:329 | the client gets the service and client ID allocated for it |
| QrtrFrames.GetVersionInfo | pkg/qmi/qrtr_transport_linux.go:251-279 | whatever order the map is walked in, the client makes exactly the learned eight-bit services of the frame, unless all 256 are present |
| QrtrFrames.ParseServiceVersionList | pkg/qmi/ctl.go:38-64 | the parser's loop returns the entries the value declares, or an error |
| QrtrFrames.ServiceVersionMap | pkg/qmi/ctl.go:67-73 | the map builder's loop keeps the last entry of each service |
| QrtrFrames.VersionTlvReadsBack | pkg/qmi/ctl.go:38-64 | the parser reads a list of at most 255 entries back |
| QrtrFrames.SimulationAgrees | pkg/qmi/qrtr_transport_linux.go:251-279 | the client's table equals the simulated one exactly when not all 256 services are present |
| QrtrTransport.CidsRepeatAfter255 | pkg/qmi/qrtr_transport_linux.go:356-364 | client IDs are nonzero and repeat exactly every 255 allocations |
| QrtrTransport.RequestsNameTheirService | pkg/qmi/qrtr_transport_linux.go:281-340 | the service found in a request is the one the client encoded |
| QrtrTransport.Transport.AllocateClientID | pkg/qmi/qrtr_transport_linux.go:281-330 | the reply and the new client for every answer of the hooks; a replaced or unusable socket is closed once |
| QrtrTransport.Transport.ReleaseClientID | pkg/qmi/qrtr_transport_linux.go:332-354 | a release closes the socket of its service, if any, and replies |
| QrtrTransport.Transport.WriteData | pkg/qmi/qrtr_transport_linux.go:500-512 | data goes to the open socket of its service whatever the client ID |
| QrtrTransport.Transport.Close | pkg/qmi/qrtr_transport_linux.go:200-217 | after closing, every socket ever opened has been closed once |
| QrtrTransport.Write | pkg/qmi/qrtr_transport_linux.go:168-249 | control frames get the answer of their message and leave the client table as it says, all others are routed by service |
| QrtrTransport.Request | pkg/qmi/qrtr_transport_linux.go:168-340 | end to end: syncs, version queries and releases always get a response of their own; the decoded table is the learned one exactly below 256 services; an allocation yields a nonzero ID with a socket behind it or says why not |
| QrtrTransport.ClientRequestsAreMet | pkg/qmi/client.go:1030-1095 | what the client sends is allocated and released for the service it names |
| SmsTrim.DeclaredLength | pkg/manager/sms_trim.go:24-63 | the running index finds the declared layout exactly for an SMS-DELIVER that holds it |
| SmsTrim.Trim | pkg/manager/sms_trim.go:5-22 | trimming succeeds exactly then, and otherwise returns the input |
| SmsTrim.TrimGivesTheEncoding | pkg/manager/sms_trim.go:5-63 | a TPDU written out field by field, followed by anything, is trimmed to itself with only the bits beyond its packed units cleared |
| SmsTrim.EncodingIsDeliver | pkg/manager/sms_trim.go:24-63 | what it declares is what it was written with |
| SmsTrim.DeliversAreEncodings | pkg/manager/sms_trim.go:24-63 | and nothing but such a TPDU followed by something is trimmed |
| SmsTrim.TrimmedShape | pkg/manager/sms_trim.go:11-20 | the result has the declared length and differs from the input at most in the padding of its last octet |
| SmsTrim.TrimmedIsDeliver | pkg/manager/sms_trim.go:5-22 | the result declares the same and holds nothing more |
| SmsTrim.TrimIsIdempotent | pkg/manager/sms_trim.go:5-22 | trimming twice is trimming once |
| SmsTrim.BitsBelowTheEndAreKept | pkg/manager/sms_trim.go:13-20 | bits below 7 * UDL keep their value and those above are cleared |
| SmsTrim.SeptetsArePreserved | pkg/manager/sms_trim.go:13-20 | every declared septet unpacks as before |
| ScanResults.ParseNetworkScanResults | pkg/qmi/nas.go:1330-1383 | the two record loops return the networks the octets hold, with their radio technologies |
| ScanResults.CodeReadsBack | pkg/qmi/nas.go:1354-1355 | a formatted code is all digits and reads back as its number |
| ScanResults.CodesHaveThreeDigits | pkg/qmi/nas.go:1354-1355 | short numbers are padded to three digits, longer ones not at all |
| ScanResults.RatsKeepTheNetworks | pkg/qmi/nas.go:1362-1380 | the second loop only appends technologies, to the networks in their places |
| ScanResults.ResultsAreCoded | pkg/qmi/nas.go:1330-1383 | every network parsed from any octets has formatted codes |
| ScanResults.EncodedScansReadBack | pkg/qmi/nas.go:1330-1383 | networks and technologies written out as the modem lists them, followed by anything, are parsed to those networks, each technology with the first network of its codes |
| ScanResults.RecordsReadBack | pkg/qmi/nas.go:1333-1360 | the first list alone, whatever surrounds it |
| ScanResults.TechnologiesReadBack | pkg/qmi/nas.go:1362-1380 | the second list alone |
| ScanMerge.Merge | pkg/manager/snapshot.go:351-380 | the merge with its index equals the fold that replaces the last entry under the key or appends |
| ScanMerge.MergeIsAnUpdate | pkg/manager/snapshot.go:359-380 | under every key the merge holds the newest entry of the batch, else the newest old one; no key is lost or invented |
| ScanMerge.MergeKeepsDistinct | pkg/manager/snapshot.go:359-380 | distinct keys stay distinct |
| ScanMerge.MergeKeepsPositions | pkg/manager/snapshot.go:359-380 | old entries keep their place and key, and only the last one under a key is replaced |
| ScanMerge.RemergeIsANoOp | pkg/manager/snapshot.go:359-380 | merging the same batch again changes nothing |
| ScanMerge.KeysAreInjective | pkg/manager/snapshot.go:362 | keys are equal exactly when the networks are, for codes without a bar |
| ScanMerge.SameNetworkIsSameNumbers | pkg/manager/snapshot.go:362 | for parsed entries that is: the same MCC and MNC numbers and the same description |
| ScanMerge.MergeIsByNetwork | pkg/manager/snapshot.go:351-380 | for such codes the merge is the fold by MCC, MNC and description |
| ScanMerge.ScanIsByNetwork | pkg/manager/manager.go:4024-4031 | over every run of indications, whatever their octets, the stored scan is the fold by MCC, MNC and description |
| ScanMerge.ScanSnapshot.Update | pkg/manager/snapshot.go:383-404 | an indication replaces the stored scan by its merge |
| ScanMerge.ScanKeepsEveryKey | pkg/manager/snapshot.go:383-404 | over a run of indications the stored keys are exactly those received |
| ScanMerge.ScanIsDistinctIffItsFirstBatchIs | pkg/manager/snapshot.go:351-354 | the stored scan has distinct keys exactly when its first nonempty batch did |
| Identities.Updated | pkg/manager/snapshot.go:520-547 | the assignments of an update are the per-field overlay |
| Identities.DeviceSnapshot.UpdateIdentities | pkg/manager/snapshot.go:520-553 | each field takes the update's value if it has one, and both readiness flags equal their definitions |
| Identities.DeviceSnapshot.UpdateIdentitiesIfGeneration | pkg/manager/snapshot.go:555-563 | written exactly when the generation is unchanged |
| Identities.DeviceSnapshot.ResetIdentities | pkg/manager/snapshot.go:567-584 | clears the card fields or everything and starts a new generation; the flags stay exact |
| Identities.DeviceSnapshot.Reset | pkg/manager/snapshot.go:605-641 | clears the card fields and starts a new generation |
| IdentitiesProtocol.StepPreserves | pkg/manager/device_query.go:17-97 | every step of pre-warms and resets keeps the provenance of all values |
| IdentitiesProtocol.NoStaleCardIdentity | pkg/manager/device_query.go:17-97 | a visible ICCID, IMSI or card state was fetched by a pre-warm launched after the last reset |
| IdentitiesProtocol.NoStaleStaticIdentity | pkg/manager/device_query.go:17-97 | a visible static value was fetched by a pre-warm launched after the last reset of everything |
| IdentitiesProtocol.ResetDefeatsPreWarm | pkg/manager/device_query.go:90-94 | a reset between launch and commit makes the commit a no-op |
| IdentitiesProtocol.CommitShows | pkg/manager/device_query.go:88-97 | over every run, a commit shows every fetched value exactly when no reset came after the launch, and leaves other fields alone |
| IdentitiesProtocol.LookDecides | pkg/manager/device_query.go:31-36 | the static fields are fetched exactly when forced or without a visible IMEI, the card fields always |
| IdentitiesProtocol.ResetsClear | pkg/manager/snapshot.go:567-641 | a reset leaves no card field visible, one of everything no field |
| IdentitiesProtocol.UndisturbedPreWarmShows | pkg/manager/device_query.go:17-97 | a pre-warm that nobody disturbs makes what it fetches visible |
| IdentitiesProtocol.ReadinessTestAddsNothing | pkg/manager/device_query.go:31-32 | the pre-warm's test of static readiness decides nothing beyond its test of the IMEI |
| SimProvisioning.NormalizeIsStable | pkg/manager/uim_provisioning.go:21-41 | normalising keeps set options, gives the others their documented values and is idempotent |
| SimProvisioning.Provision | pkg/manager/uim_provisioning.go:62-129 | everything that happens is due after what happened before and answered by its attempt, and everything due happens; at most MaxAttempts polls, MaxActivations rebinds and MaxAttempts - 1 sleeps; nothing after an ending event; every rebind justified; which result |
| SimProvisioning.DemandsAreMet | pkg/manager/uim_provisioning.go:81-105 | a poll that demands an activation within the budget is followed by a read of the AID, and a usable AID by a rebind of the right slot with it; other polls are not |
| SimProvisioning.SleepsLast | pkg/manager/uim_provisioning.go:105-126 | a sleep lasts the settle time exactly after a successful rebind, else the poll interval |
| SimProvisioning.DutifulIsDisciplined | pkg/manager/uim_provisioning.go:62-129 | the bounds follow from what is due; without an ending event all attempts are used |
| SimProvisioning.ReadyIsLeftAlone | pkg/manager/uim_provisioning.go:73-81 | a card that is ready or beyond help is polled once and left alone |
| SimProvisioning.Activate | pkg/manager/uim_provisioning.go:97-120 | a usable AID is rebound and uses up budget whatever comes of it |
| FirmwareImages.BuildImageList | pkg/qmi/dms_misc.go:300-320 | the buffer filled with a running offset is the encoding of the list |
| FirmwareImages.ParseImageList | pkg/qmi/dms_misc.go:266-295 | the parser's loop returns the images the data holds, up to the declared count |
| FirmwareImages.ParseUndoesBuild | pkg/qmi/dms_misc.go:266-320 | parsing undoes building exactly for at most 255 images without a NUL in a build ID |
| FirmwareImages.ParsedListsRoundTrip | pkg/qmi/dms_misc.go:266-320 | what was parsed from any data is rebuilt and parsed to itself |

## Left out

- Sockets, sysfs, netlink, process spawning, logging, command lines, device discovery and the per-message service wrappers: no internal invariant; their answers are parameters.
- The dial state machine (`doConnect`, `RotateIP`, `doStatusCheck`): seen only as a dial that succeeds, fails or does nothing.
- The recent-transactions cache of the client: it only decides what is logged about late responses.
- Reads of zero octets, which the read loop skips, are ordinary empty chunks here.
- CardGateProtocol.RunsAreSafe: tickets are unbounded; the wrap of a 64-bit ticket counter is not modelled.
- Identity generations, session IDs and topology generations are unbounded as well, for the same reason.
- TransactionProtocol.RunsAreSafe: assumes fewer than Period further increments of its counter during the life of a request, the condition under which the source's IDs are unique; `OnePeriodLaterOverwrites` shows that one more is too many.
- CoalescingProtocol.RunsAreSafe: once an indication has gone through the store, its order relative to queued ones of its key is not promised, because the store is drained before older queued events. The counter of coalesced indications and a client without a queue are not modelled.
- DataPlane.Controller.Open: does not claim distinct mux IDs across live sessions, because the reservation is dropped on every return.
- DataPlane.Controller.CloseAll: closes the sessions without other calls in between, although the source drops its lock between them.
- DataPlane.Controller.ConvergeLocked: the redial after a generation change belongs to the dial state machine and is not modelled.
- ImsProbeProtocol.ProbesNeverUseAClosedClient: needs that starts and recoveries lift the barrier only when no cleanup is pending; `ImsProbeLifts.StartIsSafeIff` shows that this is exact, and `OverlappingStopsLetAStartIn` that it can fail. A client that a failed attempt to open one discards is not modelled. Stops do not wait for the event loop here, which allows more interleavings than the source. A lease failure in this file leaves no service behind; the other case is in `ImsProbe.Probe`.
- ModemResetProtocol.RunsAreSafe: a reissued enqueue runs beside its event loop instead of inside it, which allows more interleavings than the source; that every failed recovery is retried is not claimed, because the debounce window can swallow a retry.
- ServiceRebind.StepPreserves: opening a client and allocating its service is one step; the startup path that is not is treated by `FailedStartBreaksTheInvariant` and `StartPublishKeepsTheInvariantIff`. One service stands for all of them.
- RecoveryBackoff.RecoverDelay: the jitter ratio is exact one fifth instead of a product of floating-point numbers; rounding is not modelled.
- SmsTrim.Trim: what a data coding scheme means is a parameter, so the `warthog618/sms` table is not part of this model.
- ScanMerge.Merge: values only; that the source copies the RAT slices is not captured.
- QrtrTransport.Write: the learned services are an argument and NEW_LOOKUP exchanges are answers; the reader goroutines and queues are left out.
- DataConfig.DataManager.Reconfigure: the APN is taken after trimming. An IPv4 call with only the IPv6 service present, which in the source uses a nil service, counts as refused.
- DataConfigProtocol.RunsAreSafe: dials, disconnects and cleanups of other goroutines may change state, handles and services at any moment, which allows more interleavings than the source; what they do to the data call is not followed.
- UIM rebind also replays indication registration after publishing; the model stops at publication.
- PDC and LOC token waiters, event-loop liveness and the order of Go map iteration beyond "any order".
