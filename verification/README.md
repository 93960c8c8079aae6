# Verification of the Relayward Agent's durable state machines

The Agent is a set of state machines that must survive crashes, duplicated work and lost
messages. This project models these in Dafny and proves what they keep over whole runs:

- the **local policy engine** (`internal/policy`): traffic ledgers and snapshots, quotas,
  soft IP limits, desired plugin state, orphaned bindings, statuses, telemetry cursors;
- the **self-update protocol** (`internal/update`, `deploy/relayward-agent-launcher`) together
  with the **command store and processor** (`internal/command`) that drive it again after a
  restart;
- the **event queue** and its **uploader** (`internal/eventqueue`, `internal/agent/events.go`);
- the **plugin states** and the **supervisor's reconcile** (`internal/plugin`);
- the **resumable, verified download** (`internal/download`), after sections 14.2, 14.4 and
  15.3.7 of RFC 9110.

## How it is built

Each machine appears in up to three forms.

1. *Functions* say what one transaction or write does to a value
   (`PolicyTransactions`, `RevisionTable`, `PolicyTraffic`, `UpdateModel`, `PluginState`, ...);
   `PolicyCapacity` and `PolicyProgress` say exactly when those of the policy engine succeed.
2. *Step systems* (`PolicySystem`, `UpdateSystem`, `Telemetry`, `Uploader`, `PluginState`) put
   these functions, the outside world and crashes into one transition system. `Legal` and
   `After` define its runs; the theorems hold in every state of every run.
3. *Classes and methods* with the source's loops and in-place updates (`PolicyBuckets`,
   `PolicyDesired`, `PolicyStore`, `PolicyEngine`, `PolicyCollector`, `UpdateManager`,
   `CommandStore`, `CommandProcessor`, `EventQueue`, `Uploader`, `Download`,
   `PluginStateStore`, `PluginSupervisor`) are proved to compute the functions. The policy
   engine, the collector and the update manager also carry the run they perform as ghost
   state and prove it legal, so the theorems about runs apply to them directly.

Calls that can fail take their outcomes as parameters (`Answers`, `Script`, `Turn`, `Server`),
one for each call, or as arbitrary values. A crash is the end of a run
at any step: each plugin call and each enqueue is a step of its own, apart from the
transaction that notes it.

Conventions: identifiers and digests are integers, compared for equality and order; times are
integers; `u64` is a bounded type whose every sum and difference is proved not to wrap; an
`Instant` is one reading of the clock together with the period that each reset rule is in.

## What is assumed

- A retired pair of authorization and period does not return (`PolicySystem.NoReturningPair`);
  `PolicyTraffic.ReturningPairDiverges` shows with a concrete run that traffic does not
  converge without this.
- One evaluation reads the clock once. The source reads it again for each part of it.
- The plugin returns, in order, every event after the cursor (`PolicyCollector.Honest`), and
  the center acknowledges a sequence only after it has stored everything up to it.
- A version names one binary, and commands are received at strictly increasing times
  (`UpdateSystem.Enabled`).
- A rename and the sync that follows it are one step. `UpdateSystem.UnsyncedSwitch` says exactly
  what happens to update safety where this fails while `current` is switched.

## Model

| member | source | states |
|---|---|---|
| PolicyTheorems.TrafficConverges | internal/policy/engine.go:320-338 | in every run with crashes between Enqueue and MarkTrafficQueued, whenever nothing is left to queue, keeping the highest revision per authorization and period gives exactly the bytes ever charged |
| PolicyTheorems.LedgersHoldCharges | internal/policy/store.go:385-405 | in every run each ledger holds exactly the bytes charged to its authorization in its period and stays within a signed 64-bit number |
| PolicyTheorems.CountersChargeTotals | internal/policy/store.go:348-408 | a successful ApplyCounters charges each authorization the total growth of its services on that plugin, once, whatever the order of the walk |
| PolicyConservation.ChargesAreConserved | internal/policy/store.go:328-408 | in every run, with snapshots, refreshes, other plugins' calls and crashes in between, the bytes charged to an authorization over all its periods are the closed form of the readings its services delivered while bound |
| PolicyConservation.CenterReceivesWhatWasDelivered | internal/policy/engine.go:320-338 | whenever nothing is left to queue, what the center keeps of an authorization adds up to exactly what its services delivered while bound |
| PolicyConservation.RetainedIsOneEpisode | internal/policy/store.go:351-384 | as long as the snapshot keeps the authorization, the readings of a service form one sequence to which the closed form applies, however they are grouped into calls |
| PolicyConservation.RunKeepsCounterOk | internal/policy/store.go:372-376 | in every run a stored counter is the last reading since the authorization was last added, and there is none without the authorization |
| PolicyTheorems.UnbindingIsFailClosed | internal/policy/store.go:197-231 | in every run, a service that a plugin may still have enabled is bound or listed as an orphan |
| PolicyTheorems.OrphanLeaves | internal/policy/desired.go:131-138 | an orphan leaves the list only by being bound again or after an acknowledged disable |
| PolicyTheorems.OrphanIsNeverStuck | internal/policy/desired.go:64-81 | after Desired every orphan has a disabling record that every instance still needs |
| PolicyTheorems.RevisionNamesOneContent | internal/policy/desired.go:279-298 | all records ever written under one revision are identical, for services and for block sets, so NeedsApply is false exactly when that instance acknowledged the current revision |
| PolicyTheorems.QuotaIsSticky | internal/policy/desired.go:36-54 | once the charged bytes reach the limit, every later Desired of the same period and snapshot disables every service of the authorization |
| PolicyTheorems.StatusIsTruthful | internal/policy/desired.go:173-261 | a status is written only if no orphan is outstanding and the live instance of every binding acknowledged exactly the state and block set it reports; its bytes are those charged, its addresses those in their windows, and it is enabled exactly when the policy, its expiry and its quota allow |
| PolicyTheorems.SnapshotDecidesPolicies | internal/policy/store.go:183-192 | generations never decrease over a run, and while the generation stays the policies stay, apart from their current period |
| PolicyTheorems.StoredSnapshotIsInForce | internal/policy/store.go:183-245 | in every run, whatever commands were refused, the policies in force are those of the stored snapshot, apart from their current period |
| PolicyTransactions.QuotaTestIsExact | internal/policy/desired.go:263-277 | the overflow-free test agrees with upload + download >= limit, and each reason is given exactly when it is the first that applies |
| PolicyTransactions.NewSnapshotDecides | internal/policy/store.go:193-241 | nothing bound or orphaned before is lost from both lists; a removed authorization leaves nothing but unqueued events, a kept one is untouched |
| PolicyTransactions.ReconcileDecides | internal/policy/store.go:183-192 | a command is taken exactly when its generation is newer, or is the stored one with the stored snapshot; an older one is stale, another snapshot of the stored generation a conflict; what is taken is the stored snapshot then |
| PolicyTransactions.BlockedAddressIsPushed | internal/policy/desired.go:325-345 | an address reported blocked is in the block set of every service of its authorization until the block expires |
| PolicyTransactions.ActiveAddressIsNotPushed | internal/policy/desired.go:325-345 | an address that holds a slot is in no block set, and no expired block is |
| PolicyStatuses.StatusesConverge | internal/policy/engine.go:340-358 | in every run with crashes between Enqueue and MarkStatusQueued, whenever no status waits the last one sent for each authorization is the stored one |
| PolicyTransactions.RefreshUpToIsFresh | internal/policy/store.go:578-608 | refresh leaves every policy in its current period, with that period's ledger and no expired slot or block |
| PolicyTransactions.RefreshIsStable | internal/policy/store.go:578-608 | refreshing again at the same instant changes nothing |
| PolicyTraffic.Converged | internal/policy/store.go:504-535 | the traffic invariant implies that a fully queued state has converged at the center |
| PolicyTraffic.EnsureLedgerKeeps | internal/policy/store.go:650-673 | opening a period's ledger, and preserving the old one's event, keeps the traffic invariant |
| PolicyTraffic.ChargeLedgerKeeps | internal/policy/store.go:389-404 | charging a ledger keeps the traffic invariant and adds exactly the delta to the record of charges |
| PolicyTraffic.DropLedgersKeeps | internal/policy/store.go:703-724 | dropping the ledgers of removed authorizations loses no unqueued event |
| PolicyTraffic.EnqueueKeeps | internal/policy/engine.go:329-332 | enqueueing an event that is waiting, any number of times, keeps the traffic invariant |
| PolicyTraffic.MarkQueuedKeeps | internal/policy/store.go:508-534 | marking an event that was enqueued keeps the traffic invariant |
| PolicyTraffic.MarkedOne | internal/policy/store.go:504-535 | marking a waiting event cannot fail and makes just that event stop waiting |
| PolicyTraffic.CenterViewIsHighest | internal/policy/store.go:675-680 | what the center keeps for a pair is an event it received, of the highest revision |
| PolicyTraffic.ReturningPairDiverges | internal/policy/store.go:661-671 | a removed authorization that returns in its period restarts at revision 1, so the center keeps the old bytes: the assumption is needed |
| PolicyCounters.ClosedForm | internal/policy/store.go:362-371 | the charges of a counter sum to the last readings of its maximal same-epoch non-decreasing runs |
| PolicyCounters.GroupingIsIrrelevant | internal/policy/store.go:351-384 | this holds however the readings are grouped into calls, whatever is bound and whichever plugins are asked in between |
| PolicyCounters.DuplicateReadingIsFree | internal/policy/store.go:368-371 | reading a counter twice charges nothing the second time |
| PolicyCounters.DeltaIsTotal | internal/policy/store.go:377-383 | the delta of an authorization is the sum of the totals of its services |
| PolicyCounters.CountersHoldLatest | internal/policy/store.go:372-376 | a counter state is the latest reading of its service |
| PolicyCapacity.DeltasAreGrowth | internal/policy/store.go:377-383 | the delta that a call counts for an authorization is the unbounded growth of its services |
| PolicyCapacity.CountSucceeds | internal/policy/store.go:351-384 | counting succeeds when every reported counter fits a signed number and the growth of every authorization an unsigned one |
| PolicyCapacity.ChargingSucceeds | internal/policy/store.go:385-405 | charging, in whatever order, succeeds exactly when the ledger of each authorization, opened if need be, takes its delta |
| PolicyCapacity.CountersSucceed | internal/policy/store.go:328-408 | ApplyCounters succeeds exactly when every reported counter is in range and every ledger takes what its services have grown by, whatever the order of the walk |
| PolicyActivity.SlotsAndBlocksStayApart | internal/policy/store.go:424-462 | no address ever holds both a slot and a block, for any order of observation times |
| PolicyActivity.ObservationDecides | internal/policy/store.go:424-462 | an address is blocked exactly when it has an unexpired block or is new while the addresses seen in the window fill the limit; otherwise it holds a slot |
| PolicyActivity.SlotLimitHolds | internal/policy/store.go:448-457 | under one snapshot the number of slots never passes the limit |
| PolicyActivity.SlotCountIsLimited | internal/policy/store.go:448-457 | with a lowered limit the number of slots can only shrink |
| PolicyActivity.ActiveAddressIsNeverBlocked | internal/policy/store.go:439-447 | an address whose slot is seen again before its window ends keeps it and is never blocked |
| PolicyActivity.BlockLastsUntilItExpires | internal/policy/store.go:431-438 | a block is neither lifted nor prolonged before it expires |
| PolicyActivity.OthersAreUntouched | internal/policy/store.go:682-701 | clean-up and observation touch only their own authorization |
| RevisionTable.EnsureAllMeets | internal/policy/desired.go:283-297 | after Desired every record has the contents that were wanted |
| RevisionTable.EnsureAllKeepsHistory | internal/policy/store.go:790-797 | no two records ever written share a revision, and none is newer than the current one of its key |
| RevisionTable.EnsureAllStable | internal/policy/desired.go:285-297 | wanting what is there writes nothing |
| RevisionTable.EnsureAllFrame | internal/policy/desired.go:279-298 | a record that is not wanted is left alone |
| RevisionTable.RevisionDecides | internal/policy/desired.go:102-113 | the revision alone decides whether an instance needs a record |
| RevisionTable.RecordedIsCurrent | internal/policy/desired.go:44-53 | what Desired returns for each want is the current record at the end of the transaction |
| RevisionTable.EnsureAllFits | internal/policy/desired.go:279-298 | writing records fails exactly when the revisions left do not suffice for those that are not met, and uses one revision for each of them |
| PolicyWitness.AStatusGetsWritten | internal/policy/engine.go:235-250 | there is a run from an empty database that hands out a snapshot, has it acknowledged and then writes a status: the theorem on statuses is not vacuous |
| PolicyWitness.AnEnabledServiceIsOrphaned | internal/policy/engine.go:283-289 | there is a run in which the acknowledgement of an enabling call is lost and the service is then unbound: it may be enabled, is not bound, and is an orphan |
| PolicyDistribution.ReachableIsSafe | internal/policy/engine.go:235-318 | every reachable state of the engine satisfies the invariant |
| PolicyDistribution.StepKeeps | internal/policy/engine.go:132-318 | every transaction, plugin call, lost acknowledgement, enqueue and crash keeps the invariant, and charged bytes never shrink |
| PolicyDistribution.ServiceWantsAre | internal/policy/desired.go:36-81 | bound services are wanted as their policies demand, orphans disabled, and no key in two ways |
| PolicyDistribution.DesiredIsDesired | internal/policy/desired.go:18-100 | after Desired every binding, orphan and block record says what the instant demands |
| PolicyDistribution.MarkServiceIsFailClosed | internal/policy/desired.go:115-141 | storing an acknowledgement, which also ends an orphan, keeps unbinding fail-closed |
| PolicyInvariant.ReconcileKeeps | internal/policy/store.go:172-245 | a new snapshot keeps the invariant: what is bound no more becomes an orphan |
| PolicyInvariant.RefreshKeepsTraffic | internal/policy/store.go:588-600 | refreshing every policy keeps the traffic invariant |
| PolicyInvariant.ChargeAllKeepsTraffic | internal/policy/store.go:385-405 | charging the deltas in any order keeps the traffic invariant |
| PolicyStore.Store.Reconcile | internal/policy/store.go:172-245 | succeeds exactly for a newer generation or for the stored one with the stored snapshot, and is stale or a conflict exactly otherwise; success leaves just this generation and snapshot stored, with the loops' rebuilt database for a newer one, and a refusal changes nothing |
| PolicyStore.Store.BindingKnown | internal/policy/store.go:256-279 | the search finds a binding exactly when the snapshot has it |
| PolicyStore.Store.AdvanceTelemetryCursor | internal/policy/store.go:301-326 | advances exactly under the source's conditions, and otherwise changes nothing |
| PolicyStore.Store.ApplyCounters | internal/policy/store.go:328-408 | the loops, in any map order, compute the specified database; no 64-bit operation wraps; a call fails exactly when a counter or a ledger does not fit, and then changes nothing |
| PolicyStore.Store.ObserveActivity | internal/policy/store.go:410-466 | computes the specified slots and blocks and whether the address is blocked |
| PolicyStore.Store.Refresh | internal/policy/store.go:578-608 | refreshes every policy or, if a period cannot be computed, changes nothing |
| PolicyStore.Store.PendingTrafficSnapshots | internal/policy/store.go:468-502 | returns exactly the events that wait, each once, sorted by authorization and start of period |
| PolicyStore.Store.MarkTrafficQueued | internal/policy/store.go:504-535 | computes the specified traffic state |
| PolicyStore.Store.MarkStatusQueued | internal/policy/store.go:555-576 | marks a status queued only if it is still the stored one |
| PolicyStore.Store.Desired | internal/policy/desired.go:18-100 | the loops over policies, bindings, orphans and plugins write the specified records and return the current record of every want |
| PolicyStore.Store.MarkServiceApplied | internal/policy/desired.go:115-141 | stores the acknowledgement of a current record, and ends an orphan |
| PolicyStore.Store.RefreshStatuses | internal/policy/desired.go:173-209 | refreshes, then writes the specified statuses or none |
| PolicyStore.RefreshAll | internal/policy/store.go:582-607 | the refresh loop computes the specified database |
| PolicyBuckets.DeleteMatching | internal/policy/store.go:837-851 | the deleting walk removes exactly the matching keys |
| PolicyBuckets.CleanActivity | internal/policy/store.go:682-701 | clean-up removes exactly the expired slots and blocks of one authorization |
| PolicyBuckets.PreserveRemoved | internal/policy/store.go:703-724 | the ledger walk preserves exactly the unqueued events of removed authorizations |
| PolicyBuckets.Unbind | internal/policy/store.go:197-222 | the orphan list loses what is bound again and gains what is bound no more |
| PolicyBuckets.CountReading | internal/policy/store.go:351-384 | one reading is counted in 64-bit arithmetic that never wraps |
| PolicyBuckets.ChargeLedgers | internal/policy/store.go:385-405 | the walk over the deltas, in whatever order, charges as specified |
| PolicyBuckets.ListUnqueued | internal/policy/store.go:472-494 | the two bucket walks collect exactly the waiting events |
| PolicyBuckets.SortedUnqueued | internal/policy/store.go:472-501 | the collected events are sorted by authorization and start of period, and none is lost or doubled |
| PolicyBuckets.CheckApplied | internal/policy/desired.go:211-261 | the loop with its cache of checked plugins decides exactly whether an authorization is applied |
| PolicyDesired.WantServices | internal/policy/desired.go:36-81 | the nested loops ensure a record for every binding and orphan |
| PolicyDesired.CollectBlocks | internal/policy/desired.go:34-63 | collects exactly the unexpired blocks of soft-limited policies for every plugin |
| PolicyDesired.WantBlocks | internal/policy/desired.go:82-95 | ensures a block record for every plugin that has or needs one |
| PolicyQuiescence.SettledIsQuiescent | internal/policy/engine.go:235-358 | in a settled database every transaction changes nothing, no event waits and no plugin needs a call |
| PolicyQuiescence.RefreshedStatusesAreCurrent | internal/policy/desired.go:186-206 | after RefreshStatuses every applied authorization has its current status |
| PolicyProgress.RefreshSucceeds | internal/policy/store.go:578-608 | a refresh succeeds exactly when the current period of every policy can be computed |
| PolicyProgress.DesiredSucceeds | internal/policy/desired.go:18-100 | Desired succeeds wherever there are revisions for all that may have to be written |
| PolicyProgress.WantIsServed | internal/policy/engine.go:258-275 | what Desired hands out can be served when every bound plugin runs with the capabilities its policy needs and every orphan's plugin can be controlled |
| PolicyProgress.StatusesSucceed | internal/policy/desired.go:186-206 | statuses can be written wherever the counts of addresses fit |
| PolicyEngine.Engine.ApplyAndPublish | internal/policy/engine.go:235-250 | an evaluation is without error where periods, revisions and counts allow it, the plugins can serve and answer and the queue accepts, and then each record that was due, and no other, was asked for once; whatever fails, each phase still does its work, and whatever plugin that runs and is capable is asked for what is due; without error the database is settled, and in a settled one nothing is called, queued or changed; in all cases it is a legal run |
| PolicyEngine.Engine.ApplyDesired | internal/policy/engine.go:252-318 | success leaves every desired record acknowledged by the running instance and no orphan; it succeeds where revisions allow and the plugins can serve and answer; exactly the due records of plugins that can be served are asked for, whatever happens to the others |
| PolicyEngine.Engine.ApplyService | internal/policy/engine.go:258-291 | one iteration is without error exactly when the plugin can serve the service and, where the record is due, acknowledges the call; it makes that call exactly where the record is due |
| PolicyEngine.Engine.QueueTraffic | internal/policy/engine.go:320-338 | success leaves no traffic event waiting; it succeeds where the periods are known and the queue accepts |
| PolicyEngine.Engine.QueueStatuses | internal/policy/engine.go:340-358 | success leaves no status waiting; it succeeds where the queue accepts |
| PolicyEngine.Engine.Execute | internal/policy/engine.go:74-111 | unsupported exactly if a running plugin lacks a capability, otherwise a conflict exactly if the store refuses the snapshot, and neither changes anything; any other answer leaves just this snapshot stored and in force; success means that everything is settled, and is reached where the plugins run and the evaluation has what it needs |
| PolicyEngine.Engine.IsLegal | internal/policy/engine.go:132-148 | what the engine has done is a legal run of the step system |
| PolicyEngine.ValidateCapabilities | internal/policy/engine.go:382-403 | finds a lacking capability of a running plugin, or else whether a plugin is missing |
| PolicyEngine.AllDone | internal/policy/engine.go:252-318 | when every record that was handed out is acknowledged, the plugins are settled |
| PolicyCollector.Collector.Collect | internal/policy/engine.go:150-233 | a collection ends in success on the last of at most sixteen pages, with every page's counters applied and all events dealt with, those of bound services enqueued and observed; it ends in an error only where it is stuck, at a page that fails or after the sixteenth; in any case the stored cursor is that of the last event dealt with, and it is a legal run of the telemetry and the policy system |
| PolicyCollector.Collector.CollectPages | internal/policy/engine.go:173-232 | the page loop ends in success only on a page without more within the limit, and otherwise stuck at a page that fails, with a prefix of what was reported dealt with |
| PolicyCollector.Collector.HandlePage | internal/policy/engine.go:174-231 | a page succeeds exactly when its status is accepted, its counters fit, its events of bound services are accepted, it reports nothing it may not and does not move the cursor without events; then its counters are applied and its events dealt with |
| PolicyCollector.Collector.HandleEvents | internal/policy/engine.go:194-224 | the events of a page are dealt with in order up to the first of a bound service that the queue refuses |
| PolicyCollector.Collector.RunCycle | internal/policy/engine.go:132-148 | every plugin that reports anything is collected, whatever comes of the others: its counters are applied, its events dealt with up to its stored cursor, and where it failed it was stuck in the state the engine had legally come to; then one evaluation does all it can; without error everything is collected and settled, and it is without error where every plugin is collected and the evaluation has what it needs |
| PolicyCollector.Collector.CollectAll | internal/policy/engine.go:136-146 | the loop over the plugins collects each of them in whatever order, and its success is the success of all |
| PolicyCollector.Collector.HandleEvent | internal/policy/engine.go:194-224 | an event is enqueued exactly if its service is bound in the current snapshot, and observed exactly if it also was accepted from an address; then the cursor is past it; only a refused enqueue stops it, and changes nothing |
| PolicyCollector.CountersKeepMayOpen | internal/policy/store.go:385-405 | counting at an instant leaves every policy free to open its ledger at that instant |
| Telemetry.NoTelemetryLoss | internal/policy/engine.go:194-224 | at every crash point, every event up to the stored cursor of its stream was queued, or was dealt with at a point of the run at which its service was not bound |
| Telemetry.BoundEventsAreQueued | internal/policy/engine.go:194-224 | an event reported while its service stays bound is in the queue once the cursor is past it |
| Telemetry.CursorsOnlyAdvance | internal/policy/store.go:301-326 | the cursor of a stream never goes back, and another stream starts over from zero |
| Telemetry.AdvanceIsNeverRefused | internal/policy/store.go:318-323 | within one collection the concurrency checks never fail |
| Telemetry.AdvanceStartsFromTheCursor | internal/policy/store.go:308-324 | an advance succeeds exactly from the stored cursor, forwards and within bounds |
| Keys.SequenceKeysAreNumbers | internal/eventqueue/store.go:293-310 | big-endian keys decode back, every eight bytes are a key, and keys sort numerically |
| Keys.ServiceKeysAreInjective | internal/policy/store.go:765-767 | a service key names one plugin, authorization and service |
| Keys.JoinedIsInjective | internal/policy/store.go:769-775 | two identifiers joined by a NUL can be told apart |
| Keys.PrefixNamesFirst | internal/policy/store.go:682-685 | a key has the prefix of an authorization exactly when it is one of its keys |
| Keys.Walk | internal/policy/store.go:837-851 | seeking a prefix and advancing while it matches visits exactly the keys with the prefix |
| EventQueue.Queue.Enqueue | internal/eventqueue/store.go:106-149 | appends one event within the limits; it fails as exhausted, invalid or full exactly under the source's conditions, and then changes nothing |
| EventQueue.Queue.Batch | internal/eventqueue/store.go:151-188 | returns the longest admissible prefix, and an error exactly when the queue is empty |
| EventQueue.Queue.Acknowledge | internal/eventqueue/store.go:190-225 | removes exactly the acknowledged events; the accounting error cannot happen and no count wraps |
| EventQueue.BatchIsLongest | internal/eventqueue/store.go:162-173 | the greedy batch is admissible and no admissible prefix is longer |
| EventQueue.BatchEndIsMonotone | internal/eventqueue/store.go:162-173 | a later start or more events never make a batch end earlier |
| EventQueue.DropFirst | internal/eventqueue/store.go:206-216 | the deleting walk keeps bytes and count true at every step |
| Uploader.RemovedWasStored | internal/agent/events.go:123-128 | over a lossy channel every event removed from the queue was stored by the center |
| Uploader.ReplyIsTaken | internal/agent/events.go:123-125 | however late a reply is, it is taken exactly when it acknowledges something new, and removes just that; a current one exactly when the center has stored the batch's first event |
| Uploader.QueueDrains | internal/agent/events.go:70-130 | without new events the queue is empty after at most as many taken replies as it held events |
| Uploader.UploadOnce | internal/agent/events.go:70-130 | an upload succeeds exactly when the center's answer to the longest admissible batch names the stream and an event of the batch; then everything up to that event is gone from the queue, and otherwise nothing |
| Uploader.UploadIsRun | internal/agent/events.go:70-130 | a call of UploadOnce is three steps of a run: the batch it sends is the run's next request, and the queue it leaves is the run's |
| Uploader.Run | internal/agent/events.go:38-68 | round after round leaves what the centers' answers determine; uploads are counted; the delay doubles with each failure in a row up to a minute and starts again at a second |
| Uploader.RoundsDrain | internal/agent/events.go:38-130 | every success removes at least one event, so as many answered rounds as the queue holds events empty it, without a failure to back off from |
| UpdateSystem.UpdateSafety | internal/update/manager.go:308-352 | in every run with a crash after any write, a pending record agrees with both links, which name installed binaries; without one `current` is initial or confirmed |
| UpdateSystem.SwitchedAtMostOnce | internal/update/executor.go:22-65 | an accepted update command moves `current` at most once over all crashes and restarts |
| UpdateSystem.SuccessIsConfirmed | internal/command/processor.go:105-110 | whatever happens between the executor's observation and the storing of its result, a success is stored only beside the confirmed record of that command and version, whose target is known to work |
| UpdateSystem.StoredSuccessWorks | internal/update/executor.go:32-37 | in every run, the version of an update reported as succeeded has a target known to work |
| UpdateSystem.RollbackRestores | deploy/relayward-agent-launcher:54-73 | when the Agent ends with an update pending, the launcher returns to a target known to work |
| UpdateSystem.ConfirmedByTheCandidate | internal/update/manager.go:199-227 | only the candidate's own binary confirms an update |
| UpdateSystem.UnsyncedSwitch | internal/update/manager.go:347-350 | if the sync after the switch fails, update safety holds if and only if the deletion of the pending record was not reached or the target was known to work |
| UpdateSystem.AnUpdateCompletes | internal/update/manager.go:273-353 | from a fresh node there is a run that ends with the new version confirmed after one switch |
| UpdateModel.PruneKeepsProtected | internal/update/manager.go:596-650 | pruning removes neither a linked version, nor the one being installed, nor one of the three newest |
| UpdateModel.RollbackIsRestartable | deploy/relayward-agent-launcher:62-72 | a roll-back interrupted after any write is completed by the next one |
| UpdateModel.OutgoingBinaryConfirms | internal/update/manager.go:209-221 | the outgoing binary could confirm exactly if it reported the target's version |
| UpdateManager.Manager.Observe | internal/update/manager.go:229-257 | the loop over the three records computes the specified observation |
| UpdateManager.Manager.Confirm | internal/update/manager.go:199-227 | confirms with one rename, exactly for the pending candidate if the rename succeeds |
| UpdateManager.Manager.PruneVersions | internal/update/manager.go:596-650 | whichever removal fails, what was written is a prefix of the specified removals |
| UpdateManager.Manager.Activate | internal/update/manager.go:308-352 | whichever write fails, what was written is a prefix of the specified writes; it fails exactly if a write did, something was pending or the running binary is not installed |
| UpdateManager.Manager.Prepare | internal/update/manager.go:273-353 | what each observation leads to; where there is none, preparing fails exactly if there is no verified release, the running binary is not installed or a write failed, and otherwise adopts the running target or asks for a restart; the writes are those of a legal run of the update system |
| UpdateManager.Manager.AwaitActivation | internal/update/manager.go:148-197 | ends healthy only when nothing was pending, the Agent is stopped, or this very record was confirmed; it times out only after all its waits; whenever it gives up the record is still pending, so that the launcher rolls back |
| UpdateManager.Execute | internal/update/executor.go:22-65 | the durable record decides: a success exactly on a confirmed record, a final failure exactly on a failed or conflicting one, a restart only with the record pending, at once for another binary and otherwise only after all waits, a retryable failure exactly where nothing is recorded and preparing failed; together with the session's confirmations it writes exactly what a legal run of the update system writes |
| UpdateManager.AfterChild | deploy/relayward-agent-launcher:48-74 | one turn of the launcher makes a prefix of the specified writes, all of them unless one failed, as a step of the update system; it runs the next binary exactly if something is pending that can be handed over to or rolled back |
| CommandStore.ResultsAreFinal | internal/command/store.go:135-199 | while a record is kept, its command and its result, with output, problem and time, never change and it never runs again |
| CommandStore.CleanupKeepsUnacknowledged | internal/command/store.go:201-215 | clean-up removes, of the records it gets to, exactly those acknowledged at least 24 hours ago |
| CommandStore.FirstIsUnique | internal/command/store.go:217-231 | the order of receipt picks one next command |
| CommandStore.Store.Accept | internal/command/store.go:98-123 | a repeated command is accepted once, and a different one under its identifier is a conflict |
| CommandStore.Store.First | internal/command/store.go:217-231 | finds the first record of a state in order of receipt |
| CommandStore.Store.Complete | internal/command/store.go:135-162 | completes a pending command; repeating the same result is accepted, another is a conflict; a write error is reported exactly when there was something to write |
| CommandStore.Store.Acknowledge | internal/command/store.go:174-199 | acknowledges a completed command once; a write error is reported exactly when there was something to write |
| CommandStore.Store.Cleanup | internal/command/store.go:201-215 | the loop over the files removes exactly the expired records, or those it got to before one could not be removed |
| CommandProcessor.Processor.Run | internal/command/processor.go:76-114 | after a clean-up, completes pending commands one at a time in order of receipt, each with the result of its execution, while commands arrive and hourly clean-ups come due; it ends stopped only with nothing pending, every command that arrived accepted or refused and the last due clean-up done, for a restart only with the command that asks for it first and pending, and with an error only when a result or a clean-up cannot be written; a stored result has been announced |
| CommandProcessor.Processor.Execute | internal/command/processor.go:116-148 | expiry before the start, restart, problem and a deadline passed or cancelled lead to the specified result |
| CommandProcessor.SuccessIsInTime | internal/command/processor.go:121-147 | a success is stored exactly for an execution without problem or restart that ended before the command's expiry and the time limit |
| PluginState.OneContentPerGeneration | internal/plugin/state.go:134-171 | over any run of prepare, commit, restart and reopen a generation is only accepted with one content |
| PluginState.GenerationsNeverDecrease | internal/plugin/state.go:145-170 | the last generation never decreases, in memory or on disk |
| PluginState.OwnWritesAreValid | internal/plugin/state.go:425-491 | validation never rejects what the store itself writes |
| PluginState.ConflictMeansOtherContent | internal/plugin/state.go:148-154 | a command of the last generation is a conflict exactly when it is not the accepted one |
| PluginState.CommitReplaces | internal/plugin/state.go:173-197 | a committed revision replaces the current one, which becomes the previous one unless either is absent |
| PluginState.ReopeningSucceeds | internal/plugin/state.go:393-423 | every state on disk can be opened, and a crash loses at most a new download URL |
| PluginSupervisor.AcceptedIsCommitted | internal/plugin/state.go:173-197 | in a valid store, what prepare accepted is committed whenever it can be written |
| PluginStateStore.StateStore.PrepareState | internal/plugin/state.go:134-171 | computes the specified states in memory and on disk, also when the write fails |
| PluginStateStore.StateStore.CommitState | internal/plugin/state.go:173-197 | computes the specified states in memory and on disk |
| PluginStateStore.StateStore.IncrementRestart | internal/plugin/state.go:230-243 | counts a restart of a running plugin, or changes nothing |
| PluginStateStore.StateStore.PruneReleases | internal/plugin/state.go:245-286 | removes exactly the releases that no revision refers to |
| PluginSupervisor.Actor.ExecuteReconcile | internal/plugin/supervisor.go:165-294 | succeeds exactly when the store accepts the command and every step it takes goes well, and reports a conflict exactly when the store refuses it; the current revision changes only after the candidate passed; if the processes it has to stop stop, a running plugin stays served or recovering after every failure, and runs if it can be started again |
| PluginSupervisor.NewerIsReconciled | internal/plugin/supervisor.go:165-294 | for a newer valid command, success is decided by the steps alone, whatever a valid store holds |
| PluginSupervisor.Actor.Rollback | internal/plugin/supervisor.go:401-428 | the previous revision, if it is to run, runs again exactly if it can be started, and otherwise a recovery loop is started |
| PluginSupervisor.Actor.Abandon | internal/plugin/supervisor.go:237-278 | a failed candidate that stops gives way to the previous revision or its recovery; one that does not stays attached |
| PluginSupervisor.Actor.EnsureCurrent | internal/plugin/supervisor.go:331-362 | brings the process in line with the current revision, exactly if what it takes goes well; an exited process that could not be replaced stays attached with its watch pending |
| PluginSupervisor.Actor.DetachAndStop | internal/plugin/supervisor.go:430-444 | success leaves no process; failure leaves it attached unless it exited |
| PluginSupervisor.Actor.HandleExit | internal/plugin/supervisor.go:496-529 | the exit of the attached process detaches it, counts and schedules a recovery; that of a replaced one needs nothing |
| PluginSupervisor.Actor.HandleUnhealthy | internal/plugin/supervisor.go:474-529 | an unhealthy process is stopped and recovered, or stays attached and watched while it cannot be stopped |
| PluginSupervisor.Actor.RetryRecovery | internal/plugin/supervisor.go:534-573 | a recovery ends exactly when the plugin has a process, need not run, or starts, and then it is served or need not be |
| PluginSupervisor.Actor.Supervise | internal/plugin/supervisor.go:463-573 | in any course of commands, exits, failing health checks and recoveries, and however their steps fail, at most the attached process runs, unless one that did not come up could not be killed; while commands can stop processes, a running plugin is served, watched or recovering |
| Download.SuccessIsVerified | internal/download/resumable.go:119-125 | whatever the server sends, success means the exact size and digest |
| Download.PrefixSurvivesInterruptions | internal/download/resumable.go:74-104 | from a true prefix, an honest server leaves a true prefix over any interruptions |
| Download.InterruptionIsResumed | internal/download/resumable.go:52-112 | what an interrupted attempt got is kept, after what it resumed from unless everything was sent again, and the next attempt asks for the rest |
| Download.OneAttempt | internal/download/resumable.go:52-126 | with an honest, uninterrupted server an attempt succeeds if and only if no range was served or what it completes is the artifact |
| Download.TwoAttempts | internal/download/resumable.go:119-124 | from any partial contents such a server makes the download succeed within two attempts |
| Download.Partial.Fetch | internal/download/resumable.go:28-126 | the in-place steps compute the specified file and result |
| Download.Partial.Open | internal/download/resumable.go:128-196 | resumes from a shorter file, keeps a verified one, and clears any other |
| Download.Partial.Copy | internal/download/resumable.go:98-98 | appends what arrives, up to the limit |

## Left out

- HTTP, TLS, WebSocket, gRPC, gzip and JSON: messages are values, and a failed, lost or refused call is an outcome. That includes the fatal encoding errors of the uploader.
- The database library: a bucket is a map, a transaction is atomic, and a walk that deletes as it goes visits each key once. Walks whose order does not matter go in any order.
- PolicyStore.Store.Desired: the sorted order of the returned records is not stated; each is handed to its plugin on its own.
- PolicyBuckets.ListStatuses: the sorted order of the returned statuses is not stated.
- Validation by the protocol's SDK and the computation of periods: a snapshot is required to have one policy per authorization, and the rest is a parameter or a precondition.
- A second reading of the clock within one evaluation, and the agreement of statuses with state applied at another reading.
- A plugin that carries out a delayed enable after it acknowledged a later disable.
- The ticker of the periodic cycle, the event that reports an incomplete collection, and logging.
- The launcher's checks of managed paths and its signals, and the download and checks of a release before it is installed: the Agent may end at any time with any status, and an installed target is one that passed.
- File modes, disk errors while a download is written, failing syncs other than the one in UnsyncedSwitch, and opening a store with other limits than before.
- Delays of recovery, health-check intervals, capabilities of processes, and status events of plugins.
- PluginSupervisor.Actor.Supervise: promises no service after a command that could not stop a process; the source then leaves that process attached, not ready and not watched, or none if it has exited.
- Starting and closing the supervisor.
- CommandProcessor.Processor.Run: commands that arrive while another executes are accepted before the next look for a pending one; nobody takes the announcement of a result back.
- PluginSupervisor.Actor.StartRevision: a rejected configuration does not make it fail, because the source's check there never sees that error.
- Command kinds other than agent.update, policy.reconcile and plugin.reconcile, the Agent's session with the center, and installation scripts.
