# HomelabHQ state protocols

HomelabHQ keeps its whole state in one JSON document that every thread and process
replaces atomically. This project models the protocols and stateful algorithms that run
on that document and proves what they promise over every input, every run and every
interleaving.

| file | models |
|---|---|
| `MorningLease`, `MorningRunners`, `MorningVerdicts` | the token-fenced lease of the morning update run, any number of runners that renew, persist, complete, fail, release or crash in any order, and what becomes of runs whose runner died or was overtaken |
| `MorningAggregate`, `MorningEvidence` | the aggregator that is applied again to its own flattened output after every phase |
| `OwnerViews`, `DeviceIdentity` | the view a member gets of a run, and the identity resolution it relies on |
| `EndpointSwitch` | the VPN endpoint switch: forward stages, rollback and audit against a firewall that may fail at every call |
| `OwnerMatch`, `EndpointAlerts` | whole-word owner matching; alerts on the second consecutive observation |
| `WriteProtocol`, `DocumentStore` | the document write with a crash point at every system call; the read-modify-write and the cache beside other processes |
| `HistoryCompaction`, `HistoryRetention` | removal of the details of superseded discoveries, and how it goes together with the bounded history |
| `InventoryGroups` | the recursive walk over a group graph that may have loops, and the capability check on its output |
| `JobQueue`, `JobWorkers` | batch admission, sequential workers, retention and restart recovery |
| `IntervalScheduler`, `SchedulerThreads`, `SchedulerStop` | one dispatch pass, every interleaving of dispatchers and workers, and shutdown |
| `CatalogueCache` | the resumable page cache of the NordVPN client |
| `ClientRoster`, `ClientPresence` | the presence roster over any sequence of scans and edits |
| `DevicePolling`, `HistoryThinning` | debounced reachability; capped and thinned series |
| `Common`, `Sorting`, `Retention` | shared definitions: strict orders, sorting, dropping the oldest records |

Where the source updates state in place, the model is a class (or a method with a loop)
whose postcondition gives the new state as a function of the old one; the properties are
then proved about that function. State machines (`Do`, `DoAll`, `Run`) take one committed
update, or one access to a shared field, as a step; a step whose guard fails leaves the
system as it is, so a theorem about every action sequence is one about every interleaving.

Facts about the code that the proofs brought out:

- The inventory walk overwrites a group's complete host set when a loop is entered again
  from another group. On a group graph the records are complete for every choice of direct
  hosts exactly when no two different groups contain each other; with a loop, some choice
  of hosts leaves a record short (`InventoryGroups.CompleteIffLoopFree`).
- What can be read back from an aggregate is exactly the sources whose kind is not
  `rebootRequired` (`MorningEvidence.EvidenceKept`). Every source kind in the code is a
  constant with another name.
- An uncompleted run counts as running exactly as long as none of its phases was persisted
  (`MorningVerdicts.RunningUntilAPhase`). So a takeover completes an uncompleted run exactly
  when no phase of it was persisted (`MorningVerdicts.TakeoverClosesIff`); one whose process
  dies after a persisted phase, before it was completed, keeps its status and never gets a
  completion time (`MorningVerdicts.DesertedRunStays`, `MorningVerdicts.DeathAfterAPhase`).
- Persisting a phase is not fenced by the token. A failed verdict lasts through everything
  that may follow exactly when the run's own runner is not at work any more
  (`MorningVerdicts.FailureLastsIff`); one that was merely late can give the run a better
  status while its successor holds the lease (`MorningVerdicts.OldRunnerOverturnsVerdict`).
- A member's view is the aggregate of that member's sources for every member exactly when
  each device has one owner (`OwnerViews.ViewsAreOwnIffOneOwner`).
- A gateway that lacks an address field is given the new endpoint's address when the peer
  had none either; apart from that an unrelated gateway is never touched
  (`EndpointSwitch.UnrelatedGatewayIsUntouched`).
- Compaction ranks discoveries by end, creation and id, retention by end and id. A cut
  leaves what a later compaction would have left, for every cut, exactly when no detailed
  discovery is superseded only by ones that ended in the same second, were created later
  and have a smaller id (`HistoryRetention.RetentionCommutesUnlessTied`); such a history is
  `HistoryRetention.TieLosesDetails`. Taking back a success that had been compacted around
  loses the details of the discovery before it, and nothing else
  (`HistoryRetention.DemotionLosesTheSecond`).
- `stop` may answer True although a worker is still going to run. This can happen exactly
  when the dispatch pass under way had a job left to start when the worker set was found
  empty (`SchedulerStop.IdleIsFinalIff`); a successful join of the scheduler thread
  excludes it.
- For a device whose driver only checks availability, `sourceCheckedAt` is set from the
  second poll on if an earlier one was answered, although there never was a payload whose
  age it could be (`DevicePolling.AvailabilityHasNoPayload`).
- A client that is online before a scan can be taken down and pruned by that same scan
  (`ClientPresence.OnlineClientPruned`); what retention never drops is a client that was
  found or is online once the scan is settled (`ClientPresence.PrunedIff`).
- After a successful update the store's cache is coherent exactly when the committed
  document has the current schema version (the contract of `DocumentStore.Store.Update`).
- A search without a match ends in the safety-limit error exactly from five thousand rows
  on, and for five thousand although all of them were read
  (`CatalogueCache.SafetyLimitIff`).

## Model

| member | source | states |
|---|---|---|
| MorningLease.MorningDocument.Acquire | backend/morning_updates.py:644-688 | an unexpired lease or an occupied occurrence is refused and changes nothing; otherwise the abandoned run is failed, history pruned, lock and run stored, all at once |
| MorningLease.MorningDocument.FailAbandonedRun | backend/morning_updates.py:653-660 | only the run named by the expired lock, and only if running, becomes failed |
| MorningLease.MorningDocument.Renew | backend/morning_updates.py:636-641 | the lease is extended for the holder of the stored run id and token only |
| MorningLease.MorningDocument.Release | backend/morning_updates.py:691-696 | the lock is removed for its holder only |
| MorningLease.MorningDocument.PersistPhase | backend/morning_updates.py:699-710 | the run's results become the aggregate of its stored and new sources; a removed run stays removed |
| MorningLease.MorningDocument.Complete | backend/morning_updates.py:757-766 | the status is recomputed from the stored sources |
| MorningLease.MorningDocument.Fail | backend/morning_updates.py:772-777 | the run ends failed with its message |
| MorningLease.PhasesAccumulate | backend/morning_updates.py:699-766 | after any sequence of phases a run holds the aggregate of all their sources, and completing it recomputes that aggregate's status |
| MorningRunners.StepKeepsInv | backend/morning_updates.py:636-779 | every step of every runner keeps the lease, run, runner and occurrence invariants |
| MorningRunners.OnlyTheLockedRunRuns | backend/morning_updates.py:649-696 | over every interleaving a running run is the one the stored lock names, so there is at most one |
| MorningRunners.NoRunReturns | backend/morning_updates.py:653-710 | a run that is over never runs again, not even after takeover or pruning |
| MorningRunners.FencedOut | backend/morning_updates.py:636-641 | a runner without the lease leaves the stored lock exactly as it is |
| MorningRunners.LeaseNeverRegained | backend/morning_updates.py:649-696 | a token that lost its lease never holds it again |
| MorningRunners.LeaseHeldUntilExpiry | backend/morning_updates.py:650-652 | until a lease expires only its own runner's release ends it, and it is never shortened |
| MorningRunners.OccurrencesRunOnce | backend/morning_updates.py:661-668 | no two retained scheduled runs share an occurrence |
| MorningRunners.AcquireBoundsHistory | backend/morning_updates.py:679-686 | an acquisition leaves exactly the bound or fewer, drops only the oldest terminal runs, and keeps the run it started |
| MorningVerdicts.RunningUntilAPhase | backend/morning_updates.py:699-710 | over every interleaving an uncompleted run is running exactly when none of its phases was persisted |
| MorningVerdicts.TakeoverClosesIff | backend/morning_updates.py:653-660 | over every interleaving an acquisition completes an uncompleted run exactly when no phase of it was persisted |
| MorningVerdicts.DesertedRunStays | backend/morning_updates.py:653-710 | a run with a status and nobody working on it stays exactly as it is for as long as it is kept |
| MorningVerdicts.DeathAfterAPhase | backend/morning_updates.py:699-710 | a runner that persists a phase and dies leaves such a run, with a completion time only if it had one |
| MorningVerdicts.FailureLastsIff | backend/morning_updates.py:699-710 | a failed run stays failed through everything that may follow if and only if its own runner is not executing any more |
| MorningVerdicts.OldRunnerOverturnsVerdict | backend/morning_updates.py:653-710 | a run failed by a takeover gets a better status from its old runner while the successor holds the lease and runs |
| MorningAggregate.AggregateSources | backend/morning_updates.py:443-504 | the imperative aggregator computes the specified devices, flags, counts and status |
| MorningAggregate.FinishDevices | backend/morning_updates.py:453-470 | every device is finished from its own checks, in listing order |
| MorningAggregate.StoredSources | backend/morning_updates.py:704-706 | reading the stored sources back flattens every entry but the reboot notes |
| MorningAggregate.ReplayAll | backend/morning_updates.py:704-707 | merging what was stored rebuilds the whole merge: names, owners, kinds and order |
| MorningAggregate.PhasesEqualOnce | backend/morning_updates.py:443-504 | aggregating a stored result with new sources equals aggregating all sources at once |
| MorningEvidence.KindListsAreTheSources | backend/morning_updates.py:445-452 | each device lists, per kind, exactly its sources of that kind in arrival order |
| MorningEvidence.EvidenceKept | backend/morning_updates.py:445-468 | the sources read back are exactly those whose kind is not rebootRequired, each as often as reported |
| MorningEvidence.EvidenceKeptIffNoRebootKind | backend/morning_updates.py:464-468 | so all are kept if and only if no kind is called rebootRequired |
| MorningEvidence.ChecksAreConserved | backend/morning_updates.py:477-484 | for every set of statuses the per-device counts add up to the count over the sources |
| MorningEvidence.StatusFromSources | backend/morning_updates.py:477-486 | failed-check count and run status are determined by how many sources failed and succeeded |
| MorningEvidence.FlagsFromSources | backend/morning_updates.py:453-463 | each device flag holds exactly when the sources of that device say so |
| OwnerViews.ViewAggregate | backend/morning_updates.py:602-621 | a view aggregates the owner's devices, and an empty one takes the run's status |
| OwnerViews.ViewShowsOwnedDevices | backend/morning_updates.py:602-621 | a view shows the owner's devices of the run unchanged and in the run's order |
| OwnerViews.OneOwnerViews | backend/morning_updates.py:602-621 | with one owner per device a view is the aggregate of exactly that owner's sources |
| OwnerViews.ViewsAreOwnIffOneOwner | backend/morning_updates.py:602-621 | all views are such aggregates if and only if every device has one owner |
| OwnerViews.OwnersPartition | backend/morning_updates.py:614-621 | any per-device figure summed over all owners is its sum over the run |
| OwnerViews.ViewsPartitionTheRun | backend/morning_updates.py:471-480 | checked devices, updates, reboots and failed checks of all views add up to the run's |
| DeviceIdentity.IdentityKeepsOwner | backend/morning_updates.py:167-185 | the resolved device has the owner of the workload |
| DeviceIdentity.NodeIdsDiffer | backend/morning_updates.py:279-281 | nodes of different devices, or different nodes of one, never share an id |
| DeviceIdentity.CanonicalIdentitiesSeparateOwners | backend/morning_updates.py:167-185 | over all documents a run reads, sources of devices, of Proxmox nodes and of workloads under their canonical identity give every device one owner, so every view is exact |
| EndpointSwitch.Switch | backend/vpn_endpoint_service.py:848-1007 | a refused request touches nothing; every admitted one ends in an outcome that is true of the firewall and in one audit event within the bound |
| EndpointSwitch.SwitchOrRestore | backend/vpn_endpoint_service.py:883-993 | for every failure pattern: success means peer replaced and a handshake since the start seen; rollback True means peer and gateway equal the snapshot and were activated; rollback False means a rollback call failed; no rollback means nothing was written |
| EndpointSwitch.Forward | backend/vpn_endpoint_service.py:883-924 | what the forward stages saved, planned and verified when they ended or raised |
| EndpointSwitch.PlanGateway | backend/vpn_endpoint_service.py:896-903 | exactly the gateway fields that follow the old endpoint are redirected, and the flag says whether any was |
| EndpointSwitch.UnrelatedGatewayIsUntouched | backend/vpn_endpoint_service.py:896-903 | exactly when a gateway is planned to change, for peers with and without an address, and that only its two address fields can |
| EndpointSwitch.AwaitHandshake | backend/vpn_endpoint_service.py:914-924 | verified only by a status call that showed a handshake no older than the start |
| EndpointSwitch.RollBack | backend/vpn_endpoint_service.py:929-957 | the snapshot is restored and activated, or some rollback call failed; a failed handshake observation changes neither |
| EndpointSwitch.EndpointHistory.Audit | backend/vpn_endpoint_service.py:994-1006 | one event is appended and the first matching candidate marked |
| EndpointSwitch.MarkedAt | backend/vpn_endpoint_service.py:996-1001 | only the first candidate of that profile and id changes |
| EndpointSwitch.AuditKeepsLatest | backend/vpn_endpoint_service.py:1002-1005 | after any number of audits the log is the last hundred events |
| OwnerMatch.SearchIsWordRun | backend/vpn_endpoint_service.py:158-163 | a boundary-guarded occurrence of the joined pattern exists if and only if its words are a run of the owner's words |
| OwnerMatch.MatchIsWordRun | backend/vpn_endpoint_service.py:158-163 | matching holds exactly when some pattern with words is a contiguous run of the owner's words, for all strings |
| OwnerMatch.TokensOfJoin | backend/vpn_endpoint_service.py:159-161 | splitting a joined word list gives the list back |
| OwnerMatch.ClassifyByWords | backend/vpn_endpoint_service.py:166-173 | exclusion comes before preference, both decided by word runs |
| EndpointAlerts.AlertState.Update | backend/vpn_endpoint_service.py:1084-1099 | counts and reported flags after one observation, and exactly the conditions it reports |
| EndpointAlerts.StateIsStreaks | backend/vpn_endpoint_service.py:1084-1099 | the state of a condition is its trailing streak |
| EndpointAlerts.ReportedAtTheSecond | backend/vpn_endpoint_service.py:1084-1099 | a condition is reported by exactly the observation that is the second of its streak |
| EndpointAlerts.ReportsCountLongStreaks | backend/vpn_endpoint_service.py:1084-1099 | the number of reports is the number of maximal streaks of length two or more |
| WriteProtocol.Disk.WriteLocked | backend/store.py:413-462 | at every crash point the main file is the old or the new document and the backup the previous backup or the old document; a return means both are durable and no temporary file is left |
| WriteProtocol.Disk.KeepBackup | backend/store.py:428-437 | every step of the backup keeps the files safe, and a completed one is the synced old document |
| WriteProtocol.Disk.Publish | backend/store.py:438-443 | the replacement and the directory sync keep the files safe and leave only the new document |
| WriteProtocol.Disk.CleanUp | backend/store.py:450-462 | removing the temporary files after an exception keeps the files safe |
| WriteProtocol.SafeIsReadable | backend/store.py:413-443 | safe files can be read, now and after a power loss, only as the allowed documents |
| DocumentStore.Store.Load | backend/store.py:392-410 | the cache stays coherent although the time is read before the lock, and the document returned is what the file read as during the call |
| DocumentStore.Store.Commit | backend/store.py:570-576 | an unchanged document is not written, the cache follows only a write that returned, and it is then coherent exactly if the document has the current schema version |
| DocumentStore.Store.Update | backend/store.py:553-578 | a raising mutator or refused document changes neither file nor cache; otherwise both hold the validated result of what was locked |
| DocumentStore.ReadsBackIffCurrent | backend/store.py:341-374 | a validated document reads back as itself if and only if its schema version is current |
| DocumentStore.ValidationIsIdempotent | backend/store.py:326-338 | validating a validated document changes nothing |
| HistoryCompaction.OlderTotal | backend/store.py:126-157 | the mixed number, string and absent order ranks any two different records |
| HistoryCompaction.OlderTransitive | backend/store.py:126-157 | and it is transitive |
| HistoryCompaction.FindNewest | backend/store.py:141-162 | the first loop finds each instance's maximum, whatever the visiting order |
| HistoryCompaction.CompactHistory | backend/store.py:135-175 | in any visiting order the result is the specified compaction and the returned number is exactly that of changed jobs |
| HistoryCompaction.CompactIsIdempotent | backend/store.py:135-175 | a second run changes nothing |
| HistoryCompaction.OnlyTheNewestKeepsDetails | backend/store.py:164-174 | after a run only the maximum of an instance's discoveries can hold details |
| HistoryRetention.RetentionCommutesIff | backend/compute_maintenance.py:1333-1341 | every cut of the oldest terminal records commutes with compaction if and only if no detailed, superseded discovery outlives all that supersede it |
| HistoryRetention.RetentionCommutesUnlessTied | backend/compute_maintenance.py:1333-1341 | for recorded histories: if and only if none is superseded only by ties, that is same end, later creation, smaller id |
| HistoryRetention.DistinctTimesCommute | backend/compute_maintenance.py:1333-1341 | it does at every cut when no two discoveries of an instance end at the same time |
| HistoryRetention.TieLosesDetails | backend/compute_maintenance.py:1335-1341 | two discoveries that end in the same second: retention drops the one compaction calls newer |
| HistoryRetention.IncrementalEqualsBatch | backend/compute_maintenance.py:755-766 | through any writes, cuts and deletions, compacting at every success equals compacting once at the end, when no success is rewritten and nothing is exposed at a cut |
| HistoryRetention.DemotionLosesTheSecond | backend/compute_maintenance.py:1189-1195 | a success that is taken back costs exactly the details of the discovery before it, if it was the newest |
| HistoryRetention.DeletionCommutes | backend/devices.py:239-251 | deleting whole instances commutes with compaction |
| InventoryGroups.InventoryWalk.Visit | backend/ansible_integration.py:498-509 | the recursive visit terminates on every graph and writes exactly the specified records |
| InventoryGroups.InventoryRecords | backend/ansible_integration.py:490-527 | the groups and the hosts' group lists, each the inverse of the other |
| InventoryGroups.CollectedIsReachable | backend/ansible_integration.py:498-509 | a visit returns exactly the hosts reachable without passing a group being visited |
| InventoryGroups.RecordsAreSound | backend/ansible_integration.py:498-513 | on every graph a recorded host is reachable from its group |
| InventoryGroups.LoopFreeRecordsAreExact | backend/ansible_integration.py:498-513 | without loops each group's set is exactly the reachable hosts |
| InventoryGroups.LoopBreaksCompleteness | backend/ansible_integration.py:499-508 | whenever two groups contain each other, giving each group a host of its own makes a record miss a reachable host |
| InventoryGroups.CompleteIffLoopFree | backend/ansible_integration.py:498-513 | records are complete for every choice of direct hosts if and only if no two groups contain each other |
| InventoryGroups.RequireCapability | backend/ansible_integration.py:747-765 | the raising check passes exactly the operations the boolean check supports |
| InventoryGroups.CapabilityIsReachability | backend/ansible_integration.py:747-765 | a host may run a restricted operation only if the required group reaches it, and without loops exactly then |
| JobQueue.JobStore.StartJobs | backend/compute_maintenance.py:1318-1348 | a mixed batch or busy instance is refused unchanged; otherwise the batch is stored and history bounded |
| JobQueue.JobStore.RunJob | backend/compute_maintenance.py:1064-1195 | the terminal state is decided by recap, exit status, missing result and later errors; state, times and summary are set and no other job is touched; a missing job is skipped |
| JobQueue.JobStore.RunJobSequence | backend/compute_maintenance.py:1313-1315 | every job of a batch ends in the state its own outcome decides, and nothing else changes |
| JobQueue.JobStore.DeleteInstances | backend/devices.py:239-251 | exactly the jobs of the deleted instances go, whatever their state |
| JobQueue.JobStore.RecoverInterruptedJobs | backend/compute_maintenance.py:1412-1426 | recovery rewrites exactly the active jobs and returns how many |
| JobQueue.AdmissionBounds | backend/compute_maintenance.py:1333-1341 | no active job is dropped, what is dropped is older than every terminal job kept, and at most the bound or the active jobs remain |
| JobWorkers.StepKeepsInv | backend/compute_maintenance.py:1313-1348 | every admission, worker step, death, restart and deletion keeps the batch invariant |
| JobWorkers.OneBatchAtATime | backend/compute_maintenance.py:1318-1348 | active jobs of an instance come from one batch, at most one runs, and every job before it is over |
| JobWorkers.TerminalStaysTerminal | backend/compute_maintenance.py:1064-1195 | an admitted job that is over never becomes active again |
| IntervalScheduler.Scheduler.DispatchDue | backend/monitoring_scheduler.py:52-72 | one pass puts off and locks exactly the due jobs and starts, in order, those that were free |
| IntervalScheduler.Scheduler.InitializeJobs | backend/monitoring_scheduler.py:91-93 | first runs are staggered by the initial delays |
| IntervalScheduler.RunsAreSpaced | backend/monitoring_scheduler.py:56-61 | two starts of a job lie at least its interval apart with a release between them, whatever the times of the passes |
| SchedulerThreads.PassAlone | backend/monitoring_scheduler.py:52-72 | the atomic steps of an uninterrupted pass do what the dispatch method is proved to do |
| SchedulerThreads.StepKeepsInv | backend/monitoring_scheduler.py:34-72 | every access by every thread keeps the lock and phase invariants |
| SchedulerThreads.LockHasOneHolder | backend/monitoring_scheduler.py:34-72 | in every interleaving a lock is held exactly when one thread has yet to release it, no job runs twice at once, and no unheld lock is released |
| SchedulerStop.JoinedStopIsFinal | backend/monitoring_scheduler.py:102-122 | after a successful join every worker waited for has been started, and an empty worker set stays empty for good |
| SchedulerStop.IdleIsFinalIff | backend/monitoring_scheduler.py:102-122 | an empty worker set found while stopping is final if and only if the pass under way has no further job to start; otherwise a run exists in which the thread ends and a worker remains |
| SchedulerStop.StopCanMissAWorker | backend/monitoring_scheduler.py:114-122 | a concrete trace to such a state |
| CatalogueCache.ParseCandidates | backend/nordvpn_client.py:82-130 | the parsed page is the specified list of kept candidates |
| CatalogueCache.ParsedIsMaximal | backend/nordvpn_client.py:87-130 | kept candidates are distinct in address and in key, and every usable row left out shares one with a kept candidate |
| CatalogueCache.CountryState.Search | backend/nordvpn_client.py:271-293 | a resumed search answers and reads on exactly as the closed form says, for every number of requests that succeed |
| CatalogueCache.Client.ConnectedServer | backend/nordvpn_client.py:237-293 | the same for a lookup by country: other countries' states are untouched and a failed country request stores nothing |
| CatalogueCache.FixedCatalogueServes | backend/nordvpn_client.py:275-286 | slicing a fixed list of rows by offset is a provider as the search assumes |
| CatalogueCache.SafetyLimitIff | backend/nordvpn_client.py:275-293 | without a match the answer is the safety-limit error exactly from fifty full pages on, even if those are the whole catalogue and were all read |
| CatalogueCache.WarmAnswersAsCold | backend/nordvpn_client.py:237-293 | after any lookups an answer is the first match of all pages within the limit, a refusal means there is none, and only a failing provider leaves a lookup open |
| CatalogueCache.InterruptedScanResumes | backend/nordvpn_client.py:274-287 | a lookup cut off and repeated reads and answers as one that was not |
| CatalogueCache.AnswersStay | backend/nordvpn_client.py:271-275 | a lookup once answered needs no further request |
| ClientRoster.MergeFailedSourceSightings | backend/client_roster.py:89-102 | the loop computes the specified merge |
| ClientRoster.MergeIsExact | backend/client_roster.py:89-102 | the merge keeps all current sightings and every failed source's previous ones, and brings nothing else back or in twice |
| ClientRoster.WifiDecidesVia | backend/client_roster.py:42-48 | the first Wi-Fi sighting, or without one the first sighting, names the connection |
| ClientRoster.RosterStore.RecordObservations | backend/client_roster.py:105-196 | the five loops of a scan give every record its specified form and notify exactly the transitions asked for |
| ClientRoster.LoopsMakeStep | backend/client_roster.py:119-186 | running the loops one after another equals one look at every record |
| ClientRoster.NoticesOfLoops | backend/client_roster.py:133-185 | earlier loops do not change who is notified |
| ClientRoster.RosterStore.Forget | backend/client_roster.py:241-248 | the named records go and the number returned is how many there were |
| ClientRoster.RosterStore.Ignore | backend/client_roster.py:251-261 | the record, created if need be, is ignored and not away |
| ClientRoster.RosterStore.SetMetadata | backend/client_roster.py:264-278 | the notification choice is stored, presence is not touched |
| ClientPresence.EventsTellPresence | backend/client_roster.py:35-39 | over any scans and edits a record's events alternate, number at most fifty, and end in "up" exactly while it is online |
| ClientPresence.TransitionsAreExact | backend/client_roster.py:124-185 | a client comes up exactly when found and goes down exactly in a full scan with negative evidence long enough, each adding one event |
| ClientPresence.FailedSourcesProtect | backend/client_roster.py:140-179 | every tracked client keeps its sightings by failed sources and the Wi-Fi kind they tell, and an online one they had seen stays online |
| ClientPresence.PartialScansKeepTopology | backend/client_roster.py:140-155 | through any number of partial scans an online client stays tracked and online with the kind and sightings it had |
| ClientPresence.PrunedIff | backend/client_roster.py:70-78 | retention drops exactly the clients not found, offline after the scan, and last seen before the cutoff |
| ClientPresence.OnlineClientPruned | backend/client_roster.py:170-186 | a run from an empty roster in which a scan takes an online client down and prunes it |
| ClientPresence.ApprovalIsMembership | backend/client_roster.py:158-169 | over any scans and edits approval flags never disagree with the last known allow-list; a scan that knows it decides the flags of every tracked client, new meaning off the list and first seen less than a day ago |
| ClientPresence.PresenceLasts | backend/client_roster.py:131-185 | events are in time order and every "down" comes at least the offline period after its "up" |
| ClientPresence.IgnoredUntilReturn | backend/client_roster.py:121-130 | through any scans and edits an ignored client is ignored exactly while it is tracked and no scan has found it after one that missed it |
| DevicePolling.Device.ApplyRecord | backend/poller.py:289-369 | the state after a poll and the transition it reports |
| DevicePolling.DebounceIsStreak | backend/poller.py:297-309 | the miss count is the trailing failure streak and the confirmed state says whether it is below the limit |
| DevicePolling.SinceLastFlip | backend/poller.py:310-316 | `since` is the time of the last change of the confirmed state or of the first poll, a time of zero being passed over |
| DevicePolling.StreakIsTrailing | backend/poller.py:303-303 | the streak is made of failures and begins after an answered poll |
| DevicePolling.ReportedIff | backend/poller.py:361-366 | "offline" is reported by exactly the poll completing the limit, "online" by exactly the first answer after it |
| DevicePolling.ReportsAlternate | backend/poller.py:361-366 | reports alternate and the last names the confirmed state |
| DevicePolling.PayloadIsLastAnswer | backend/poller.py:319-339 | with a monitoring driver the values and their age are those of the last answered poll |
| DevicePolling.AvailabilityHasNoPayload | backend/poller.py:318-339 | with an availability-only driver there are no values, yet an age is recorded exactly when a poll before the last was answered |
| HistoryThinning.HistoryFile.Append | backend/poller.py:379-398 | one cycle appends to, thins and trims every series |
| HistoryThinning.TrimmedIsSuffix | backend/poller.py:379-398 | after any cycles the stored series are the last points of the whole stream, of its greedy thinning, and of the reachability stream |
| HistoryThinning.GreedyIsSpaced | backend/poller.py:392-396 | thinned points are sampled ones, the first included, at least the interval apart |
| HistoryThinning.GreedyCovers | backend/poller.py:392-396 | every sample comes less than the interval after some point that is kept |
| HistoryThinning.FullSeriesSpansAWeek | backend/history.py:27-36 | a full long series reaches back seven days less one interval |
| Retention.OldestAreOldest | backend/compute_maintenance.py:1335-1341 | the prefix dropped has the exact size and everything in it is older than everything kept |
| Retention.Bound | backend/morning_updates.py:679-686 | sorting terminal records by time and id and dropping a prefix gives the bounded collection |
| Retention.BoundedFacts | backend/morning_updates.py:679-686 | only terminal records go, the oldest first, and the size is the bound or the number of other records |

## Left out

- Environment: run ids, job ids and lease tokens are random and taken as fresh; file modification times grow with every write; `flock`, `os.replace` and directory syncs do what POSIX says; thread starts succeed; nobody else edits the firewall or leaves a call half-applied other than a gateway save.
- A committed store update is one step that does not fail in `MorningRunners` and `JobWorkers`; failing writes are the subject of `WriteProtocol` and `DocumentStore` alone.
- Drivers, transports, subprocesses, HTTP and JSON decoding: parameters or nondeterministic results (`fold`, `validIp`, `digits`, `upgrade`, `reply`, `supply`).
- Unicode case folding and whitespace stripping are function parameters, and time stamps stored as ISO text are integers.
- Push delivery, logging, metrics, messages and redaction; notifications are returned values.
- Job execution proper: an Ansible run is an arbitrary recap, exit status and missing or present result, and of a job record only identity, state, times and summary are kept.
- The update state mirrored on compute instances and Docker projects when a job ends.
- The phases' selection of targets and their device concurrency: a phase is an arbitrary list of source results.
- The individual schema migrations: one function from an older version's fields to the current ones.
- `save`, `startup_integrity_check` and the pruning of host keys in the store.
- Candidate fields that matter neither to matching nor to duplicates (port, load, location), and a provider that answers with more rows than the page limit.
- A roster record's name, notes, addresses, vendor, signal and aliases, the discovery snapshot, and the `notified` bookkeeping of the NAC poll.
- Per-interface history, which repeats the capped series, and threshold alert rules.
- The scheduler's waits and timeouts: a join or an idle check is an observation of the state, and the clock values of passes are arbitrary.
- Routes, user interface, service worker, cryptography, dashboards and device formatters.
- InventoryGroups.CompleteIffLoopFree: supposes that the inventory's metadata key, should a group name it as a child, is in no loop with a single group, where completeness depends on the order of the keys.
- InventoryGroups.LoopBreaksCompleteness: is stated for two groups other than the metadata key, for the same reason.
- HistoryRetention.RetentionCommutesIff: supposes that terminal jobs are stored under their ids with a finite end, as every write leaves them; a text time beside numbers makes the retention sort raise, and with NaN its order is unspecified.
- HistoryRetention.RetentionCommutesUnlessTied: supposes besides that no successful discovery ended at time zero, which the retention reads as no end.
