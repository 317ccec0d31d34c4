# MEL replicated state: a Dafny model

MEL runs as a set of instances that gossip events, merge kernel states, watch each other for partitions, and decide
control actions. This project models that layer and four smaller kernels of the same repository, and proves what they
guarantee: for all inputs, all runs and all interleavings. Where the code does not keep what it documents, the project
gives an input that shows it and the exact condition under which it does.

Objects that update fields are classes (`Log`, `Manager`, `AuditStore`, `Store`, `History`, `Buffer`); their methods are
proved against functions of the old state, and the theorems are about those functions. Concurrency is modelled as state
machines whose steps are single statements or critical sections. SQLite tables are sequences or maps of rows; a
statement that fails has no effect unless a parameter says otherwise. Timestamps are integers in the federation and
merge modules, and text compared by code point where the code compares text. Scores are reals (no NaN).

| file | subject |
|---|---|
| `Lists.dfy`, `Text.dfy`, `KeyOrder.dfy` | selection from sequences; string order, hexadecimal, character-wise escaping; sorted keys |
| `EventLog.dfy`, `EventLogRuns.dfy`, `QueryLaws.dfy` | the append-only log, what runs of append, compaction and restart keep, and what each part of a query cuts away |
| `Federation.dfy`, `Ingest.dfy` | the manager object; the evicting cache against the primary key |
| `CatchUp.dfy` | repeated scoped pulls of one peer, and when they stall |
| `Gossip.dfy`, `Delivery.dfy`, `Convergence.dfy` | N instances pulling from each other in small steps: cursor safety, no loss, integrity, termination, agreement |
| `EventualAgreement.dfy`, `ScopedAgreement.dfy` | endless fair interleavings: that gossip settles, and what every log then holds, with open scopes and with any |
| `ScopeLaws.dfy` | what each part of a sync scope cuts out of an answer, and keeps out of a log |
| `Detection.dfy`, `SplitBrainBudget.dfy` | the failure detector over runs; the action budget of a split-brain episode |
| `Consistency.dfy`, `MergeLaws.dfy`, `MergeLattice.dfy`, `Exchange.dfy`, `Resolutions.dfy` | the state merge, what it keeps of two entries and reports, its lattice part, when a mutual exchange converges, and which resolution texts are overwritten |
| `AuditChain.dfy`, `AuditReader.dfy`, `AuditHistory.dfy`, `AuditInsert.dfy` | the audit chain verifier, a reader of the hashed text, what a head hash commits to, and the writer |
| `Approval.dfy`, `Budget.dfy` | approval under racing callers; the LIMIT-truncated action budget |
| `Json.dfy`, `JsonParser.dfy`, `Diff.dfy` | canonical JSON with a parser that reads it back; the configuration diff as a patch |

## Findings

Each is a theorem of the model, named in the table below.

- Panic: internal/consistency/consistency.go:216 indexes the last divergence without the guard of line 218. Some map
  order panics exactly when a shared node has a lower remote score under the same classification
  (`Exchange.SomeOrderPanicsIff`); `Exchange.EveryOrderPanicsIff` says when all do. When it does not panic, the same
  line, and line 219 when a node is named like another node's key, overwrite the resolution text of another node's
  divergence: `Resolutions.WrongTextIff` says for which nodes in a given order, `Resolutions.SomeOrderMislabelsIff`
  when an order with a wrong text exists, and `Resolutions.WorseScoreOverwrites` and
  `Resolutions.KeyCollisionOverwrites` are two inputs.
- Scoped sync stalls for ever when a whole batch after the cursor is out of scope, because an empty answer does not move
  the cursor (`CatchUp.CatchUpCompleteIffNoStall`).
- An event is marked as seen before it is appended, so a write that fails loses it: redelivery is dropped
  (`Ingest.RedeliveryDoesNotHelp`). `Ingest.BatchStoredIffNoneLost` says for any cache, batch and failures when a batch
  is stored whole, `Ingest.BatchStoredIffNoWriteFailed` what that means for a batch of distinct ids.
- `Compact` documents that the most recent keepMin events are kept; failed appends burn numbers and defeat this
  (`EventLogRuns.KeepsTheMostRecentIff`, `EventLogRuns.BurnedNumbersDefeatKeepMin`). Compacting away the newest row and
  restarting stores numbers again (`EventLogRuns.ReuseIffNewestDeleted`), and a restart alone spends burned numbers
  again (`EventLogRuns.BurnedNumberIsSpentAgain`).
- The split-brain maximum M is exceeded by concurrent workers, up to M + k - 1 and no further
  (`SplitBrainBudget.MaximumKeptIffOneWorker`). The counter is reset when an episode is detected, not when it is
  resolved as docs/architecture/federation-model.md:99 has it (`SplitBrainBudget.CounterAfter`); no permission, record,
  flag or conflict tells the two apart (`SplitBrainBudget.ResettingAtResolutionIsInvisible`).
- A field longer than 4096 bytes, or with a NUL, is hashed as given and stored empty: the insert succeeds and the
  verifier rejects the log from then on (`AuditInsert.RunAcceptedIff`). A failed read of the previous hash starts a new
  chain in the middle of the old one (`AuditInsert.AcceptedAfterInsertIff`).
- Approve or reject may return nil although another caller's decision is the one stored
  (`Approval.RacingCallersBothSucceed`, `Approval.OwnDecisionStoredIff`).
- More than ten unexecuted actions among the newest can hide a spent action budget (`Budget.TruncationDeniesIff`,
  `Budget.UnexecutedRowsHideTheRest`).
- The worse transport health is taken only when the classifications differ (`MergeLattice.WorseHealthTakenIff`).

A dotted path is ambiguous as a spelling, but not in a diff of configurations: the entries of two tidy trees have
distinct paths (`Diff.PathsAreDistinct`), and the tree of every Config is tidy, since its tags are plain and
`reason_weights` (internal/config/intelligence.go:14), the one map with free keys, holds integers.
`Diff.TwoEntriesOnePath` gives two trees of another shape whose diff has two entries with one path.

## Model

| member | source | states |
|---|---|---|
| `EventLog.Log.Open` | internal/eventlog/eventlog.go:59-78 | the counter recovered on opening is the largest number in the table, zero when it is empty |
| `EventLog.Log.Append` | internal/eventlog/eventlog.go:82-119 | the number is spent whatever happens; the row lands exactly when the write works and the id is new, under that number and stamped with the node |
| `EventLog.Log.AppendBatch` | internal/eventlog/eventlog.go:122-168 | every event of the batch spends a number; any subset of the inserts may survive a failing script, and success means all did |
| `EventLog.Log.Query` | internal/eventlog/eventlog.go:184-241 | the clauses built one by one select what the filter asks for, ascending, cut at the effective limit; an error when the SELECT fails |
| `EventLog.Log.Compact` | internal/eventlog/eventlog.go:268-301 | only rows both older than the limit and numbered below counter minus keepMin go; the number reported and added to the statistics is what `changes()` answers, zero without an answer |
| `EventLog.QueryIsAPrefixOfTheMatches` | internal/eventlog/eventlog.go:221-241 | a query skips nothing: a match is missing only when the answer is full, and then it lies above all returned rows |
| `EventLog.WhereIsAdmits` | internal/eventlog/eventlog.go:184-219 | the conjunction of conditions is the filter |
| `QueryLaws.BoundsCut` | internal/eventlog/eventlog.go:184-219 | setting one more number or time cuts the matches to those strictly beyond, strictly before, not earlier or not later |
| `QueryLaws.NamesCut` | internal/eventlog/eventlog.go:184-219 | setting one more name, or a list of types, cuts the matches to the rows that carry it |
| `QueryLaws.LimitMeans` | internal/eventlog/eventlog.go:221-229 | the answer is the first matches: 1000 without a limit, never more than 100000 |
| `EventLogRuns.AppendStores` | internal/eventlog/eventlog.go:82-119 | a new event is stored under the next number, with its source filled in only if it had none |
| `EventLogRuns.CompactDeletesIff` | internal/eventlog/eventlog.go:268-286 | a row goes if and only if it is older than the limit and more than keepMin numbers lie ahead of it |
| `EventLogRuns.RunKeepsInv` | internal/eventlog/eventlog.go:82-168 | over every run of append, batch, compact and reopen, ids and numbers stay unique, rows stay in append order, numbers stay at most the counter |
| `EventLogRuns.StepNumbersAbove` | internal/eventlog/eventlog.go:82-168 | a new row is numbered above the old counter, hence above every live row, and stands at the end |
| `EventLogRuns.ReopenRecoversTheCounter` | internal/eventlog/eventlog.go:343-361 | after a successful append, any compactions and restarts leave the counter exactly where it was |
| `EventLogRuns.NumbersNeverReused` | internal/eventlog/eventlog.go:71-75 | over a whole history with restarts the rows ever stored have increasing numbers, so no number is stored twice, while compactions spare the newest row |
| `EventLogRuns.ReuseIffNewestDeleted` | internal/eventlog/eventlog.go:268-286 | compact, restart, append gives a fresh number if and only if the newest row was spared |
| `EventLogRuns.CompactionInvisibleNearTheHead` | internal/eventlog/eventlog.go:268-286 | a reader whose cursor is at least counter - keepMin - 1 gets the same answer before and after compaction |
| `EventLogRuns.KeepsTheMostRecentIff` | internal/eventlog/eventlog.go:266-277 | the documented promise of keepMin holds if and only if the oldest row it covers, if any, is numbered within keepMin of the counter |
| `EventLogRuns.GapFreeKeepsEnough` | internal/eventlog/eventlog.go:266-277 | a log of n rows without gaps keeps at least min(n, keepMin) |
| `EventLogRuns.BurnedNumbersDefeatKeepMin` | internal/eventlog/eventlog.go:86 | run a new log with one append and then any failing ones: a positive keepMin keeps its promise if and only if no more than keepMin failed, and otherwise a compaction empties the log |
| `EventLogRuns.BurnedNumberIsSpentAgain` | internal/eventlog/eventlog.go:71-75 | a failed append, a restart and an append: the row is numbered past the old counter if and only if the newest row was numbered at it |
| `Federation.Matches` | internal/federation/types.go:95-146 | the four loops decide the scope predicate, whose meaning `ScopeLaws` states on the answers |
| `Federation.FilterByScope` | internal/federation/manager.go:282-300 | the in-scope rows, in order |
| `Federation.WindowByQuery` | internal/federation/manager.go:261-280 | asking for one row more than the batch and dropping it gives the next batch and tells whether more remain |
| `ScopeLaws.ExcludingCuts` | internal/federation/types.go:95-102 | excluding one more type takes exactly the events of that type out of the answer |
| `ScopeLaws.ListingCuts` | internal/federation/types.go:104-146 | listing types, regions or transports cuts the answer to them; an event without region or transport stays |
| `ScopeLaws.UnlistedAnswer` | internal/federation/manager.go:255-286 | without lists the answer is the next rows after the cursor, up to the batch, the number asked for and the query cap; node subsets and policy domains play no part |
| `ScopeLaws.EventTravels` | internal/federation/manager.go:284-298 | each field of a row that travels, and that the receiver gets back the event without metadata, policy version and causal parent |
| `ScopeLaws.ExcludedTypeStaysOut` | internal/federation/manager.go:282-300 | over any interleaving, a type that every link of an instance excludes is in its log only if it was there at the start or the instance appended it itself |
| `Federation.Manager.AddPeer` | internal/federation/manager.go:124-141 | a manager never lists itself; any other peer is registered with its join time and its state, unknown by default, also when persisting it fails and the call returns the error |
| `Federation.Manager.ProcessHeartbeat` | internal/federation/manager.go:165-213 | an unknown sender becomes a peer, the sender becomes active, a notification is queued when it is ahead, a different policy is a conflict |
| `Federation.Manager.HandleSyncRequest` | internal/federation/manager.go:245-314 | an answer is the scoped next batch after the cursor, only for known peers of trust 1 or more |
| `Federation.Manager.Remember` | internal/federation/manager.go:339-363 | eviction forgets only above 100000 ids, first all older than an hour, then at most the oldest, never the id just marked |
| `Federation.Manager.IngestEvent` | internal/federation/manager.go:332-396 | one turn of the ingest loop is one step of the specification: skip, or mark, append, apply |
| `Federation.Manager.IngestSyncedEvents` | internal/federation/manager.go:318-406 | the loop gives log, cache, kernel calls and count of the specification, then moves the cursor to the last event |
| `Federation.Manager.PullFromSinglePeer` | internal/federation/manager.go:636-672 | a pull is answered from the cursor and ingested whole; an empty or lost answer changes nothing |
| `Federation.Manager.CheckPartitions` | internal/federation/manager.go:411-484 | peers age by silence, and the flag, the conflict and the counter follow the strict majority |
| `Federation.Manager.CanExecuteAutonomously` | internal/federation/manager.go:495-512 | allowed outside an episode, and inside it when approval is not required and the budget is not spent |
| `Federation.Manager.RecordAutonomousAction` | internal/federation/manager.go:515-519 | counts one action and changes nothing else |
| `Ingest.CacheRefinesPrimaryKey` | internal/federation/manager.go:331-396 | when appends fail only on known ids, the cache with any eviction gives the same events, order and kernel calls as the key alone |
| `Ingest.StoredExactlyWhatLanded` | internal/federation/manager.go:380-396 | the log grows by exactly the events handed to the kernel, each once |
| `Ingest.BatchStoredIffNoneLost` | internal/federation/manager.go:335-388 | for any cache, batch and failures, a batch is stored whole if and only if every id was stored before or comes once with a working write while the cache does not remember it |
| `Ingest.BatchStoredIffNoWriteFailed` | internal/federation/manager.go:335-388 | a batch of distinct ids is stored whole if and only if no write failed on a new id and no new id was remembered from before |
| `Ingest.RedeliveryDoesNotHelp` | internal/federation/manager.go:336-340 | delivering an event again stores it only if the first write succeeded |
| `CatchUp.AnswerIsComplete` | internal/federation/manager.go:261-305 | a non-empty answer holds every in-scope row up to its own last number, which makes that number a safe cursor |
| `CatchUp.DeliversUpToTheCursor` | internal/federation/manager.go:636-672 | repeated pulls deliver exactly the in-scope rows up to the final cursor, where the answer is empty |
| `CatchUp.CatchUpCompleteIffNoStall` | internal/federation/manager.go:261-305 | everything in scope arrives if and only if no position ahead has a whole batch out of scope before an in-scope row |
| `CatchUp.CannotPassAStall` | internal/federation/manager.go:261-305 | no answer from a lower cursor jumps over such a position |
| `CatchUp.OpenScopeDeliversEverything` | internal/federation/types.go:95-146 | with a scope that restricts nothing, everything above the cursor arrives |
| `Gossip.StepKeepsInv` | internal/federation/manager.go:318-406 | every single step of N instances keeps all cursors and open pulls safe |
| `Gossip.CursorsAlwaysSafe` | internal/federation/manager.go:398-403 | in every interleaving, each in-scope row numbered up to LastSyncSeq has been handed to the puller's ingest |
| `Gossip.RestartKeepsInv` | internal/eventlog/eventlog.go:71-75 | a restart of an instance whose peers' cursors do not exceed its newest live row keeps them safe |
| `Gossip.PullMeans` | internal/federation/manager.go:607-643 | a pull needs trust on both sides, asks after the cursor, and leaves the cursor at the last number of the answer |
| `Gossip.RestartMeans` | internal/eventlog/eventlog.go:59-78 | a restart keeps the rows, counts on from the highest number, and forgets ids, cursors and open pulls |
| `Gossip.TurnIsIngestStep` | internal/federation/manager.go:332-396 | the three small steps of an ingest turn, run together, are the manager's turn |
| `Gossip.SkippedTurnIsIngestStep` | internal/federation/manager.go:335-338 | a remembered id costs one step and changes no instance |
| `Delivery.NothingLost` | internal/federation/manager.go:318-406 | when writes succeed, after any interleaving that has come to rest, every in-scope row up to the cursor is stored by the puller |
| `Delivery.RunAccounts` | internal/federation/manager.go:331-388 | at any moment each handed id is stored or still being worked on, also when another pull marked it first |
| `Delivery.CopiesAreOriginals` | internal/federation/manager.go:366-378 | over any number of hops, whatever a log holds under an id was appended under it by some instance itself, up to the three fields that do not travel |
| `Delivery.CopiesAgree` | internal/federation/manager.go:366-378 | two logs with one id hold one event, unless instances appended two different ones under it themselves |
| `Convergence.PullDecreasesMeasure` | internal/federation/manager.go:245-314 | an answered pull decreases (ids missing anywhere, rows beyond cursors) lexicographically |
| `Convergence.NoEndlessGossip` | internal/federation/manager.go:636-672 | there is no endless sequence of answered pulls |
| `Convergence.WholePullEffect` | internal/federation/manager.go:636-672 | a pull with any turns and evictions changes one log at its end and one cursor |
| `Convergence.QuietMeansAgreed` | internal/federation/manager.go:245-314 | where no pull returns anything on a strongly connected open graph, every log holds exactly the ids ever logged |
| `Convergence.ReachableQuietMeansAgreed` | internal/federation/manager.go:245-314 | the same for every reachable state of the interleaved machine without compaction and failing writes |
| `Convergence.GossipReachesAgreement` | internal/federation/manager.go:636-672 | from any state at rest finitely many pulls bring all logs to the same ids |
| `EventualAgreement.LogsSettle` | internal/federation/manager.go:331-396 | in every endless execution of gossip alone the logs stop changing |
| `EventualAgreement.CursorSettles` | internal/federation/manager.go:398-403 | overlapping pulls may move a cursor back, but a cursor that stays within bounds comes to rest |
| `EventualAgreement.LinkSettles` | internal/federation/manager.go:398-403 | once the logs rest, the cursor of every link comes to rest |
| `EventualAgreement.AnswerMovesCursor` | internal/federation/manager.go:636-672 | when open pulls end, an answer that brings something moves the cursor above where the pull read it |
| `EventualAgreement.GossipSettles` | internal/federation/manager.go:245-314 | whatever the scopes, in every fair endless execution logs and cursors come to rest, and from then on no pull brings anything |
| `EventualAgreement.FairGossipAgrees` | internal/federation/manager.go:245-314 | in every fair endless execution over open scopes and a strongly connected graph, with any overlap of pulls and any eviction, from some time on every log holds exactly the ids ever logged |
| `EventualAgreement.FairExecutionExists` | internal/federation/manager.go:582-598 | every non-empty state at rest with open scopes and a strongly connected graph, whatever its logs hold, begins a fair execution |
| `ScopedAgreement.EndIsTheFirstStall` | internal/federation/manager.go:261-305 | every stall position at or past the start of a link lies at or past its end |
| `ScopedAgreement.FairGossipSettlesAtTheEnds` | internal/federation/manager.go:636-672 | in every fair endless execution from rest, whatever the scopes and links, from some time on each cursor stands at the first stall past its start and each log holds exactly what it held and, link by link, the in-scope rows between the two |
| `Detection.CheckIsAccurate` | internal/federation/manager.go:411-484 | after any run that ends with a check the flag is the strict majority, and a lasting member is partitioned when its last heartbeat is too old and active only when it is recent |
| `Detection.ConflictsAreRisingEdges` | internal/federation/manager.go:456-480 | over any run, split-brain conflicts number the rising edges of the flag |
| `Detection.PartitionedIff` | internal/federation/manager.go:165-188 | a peer is partitioned at the end of a run if and only if a check since its last heartbeat found it silent, or it began so and was never heard |
| `Detection.StateIff` | internal/federation/manager.go:411-451 | over any run, exactly when a peer that neither joins nor leaves ends up active, suspected, partitioned, unknown or decommissioned, from the heartbeats and checks of the run alone |
| `Detection.MemberIff` | internal/federation/manager.go:124-188 | over any run, a peer is a member at the end if and only if it was one or was added by a heartbeat or a registration, and has not been removed since |
| `Detection.CheckRecords` | internal/federation/manager.go:456-480 | a check records a conflict exactly when it raises the flag, between this node and "multiple" |
| `Detection.BeatRecords` | internal/federation/manager.go:165-213 | what a heartbeat changes of its sender, how an unknown sender is registered, and when a policy conflict is recorded |
| `SplitBrainBudget.EpisodeIsBounded` | internal/federation/manager.go:495-519 | with k workers that ask first and record later, one episode records at most M + k - 1 actions, at most k under RequireApproval |
| `SplitBrainBudget.PermissionIff` | internal/federation/manager.go:495-512 | after a check, with at most half of the peers partitioned everything is allowed, otherwise exactly what needs no approval and stays below a restricted maximum; a new episode starts at zero |
| `SplitBrainBudget.BoundIsReached` | internal/federation/manager.go:495-519 | for every M and k at least 1 some run reaches M + k - 1 |
| `SplitBrainBudget.MaximumKeptIffOneWorker` | internal/config/federation.go:120-122 | the configured maximum itself is kept by all runs if and only if there is at most one worker |
| `SplitBrainBudget.CounterAfter` | internal/federation/manager.go:456-484 | a check that raises the flag clears the counter, and nothing else a detector hears does; a check that lowers it leaves the counter alone |
| `SplitBrainBudget.ResettingAtResolutionIsInvisible` | internal/federation/manager.go:456-519 | clearing the counter at resolution too would change no permission, record, flag or conflict in any run of workers and detector |
| `Consistency.MergeNode` | internal/consistency/consistency.go:178-222 | one remote node score: union, dominance of the lower score, the divergence list with resolutions and times, and a panic exactly on an unreported lower score with an empty list |
| `Consistency.MergeNodes` | internal/consistency/consistency.go:178-222 | the loop merges pointwise whatever the order; the list of divergences with resolutions and times, and whether it panics, depend on the order as stated |
| `Consistency.MergeTransports` | internal/consistency/consistency.go:225-261 | pointwise merge and the exact list of divergences with resolutions |
| `Consistency.MergeActions` | internal/consistency/consistency.go:264-298 | the further lifecycle wins, and the exact list of divergences with resolutions |
| `Consistency.MergeFreezes` | internal/consistency/consistency.go:301-315 | all freezes of both sides are kept and the new ones reported |
| `Consistency.MergeRegistry` | internal/consistency/consistency.go:338-348 | the entry seen later wins |
| `Consistency.MergeRegions` | internal/consistency/consistency.go:351-360 | the entry updated later wins |
| `Consistency.ResolvePolicy` | internal/consistency/consistency.go:318-335 | the higher version wins, and a difference is critical unless the remote version is empty |
| `Consistency.CompareAndResolve` | internal/consistency/consistency.go:170-368 | unless it panics, the resolved state is the pointwise merge, independent of every map order, and the list is the listed divergences with their resolutions and times |
| `MergeLaws.FurtherLifecycleWins` | internal/consistency/consistency.go:284-297 | of a shared action the whole remote row is kept if and only if its lifecycle can follow the local one, ends an action that is not ended, or is known while the local one is not |
| `MergeLaws.LowerScoreDominates` | internal/consistency/consistency.go:209-217 | a lower remote score takes over with its class and the worse of health and anomaly; all else stays local |
| `MergeLaws.LowerHealthDominates` | internal/consistency/consistency.go:241-260 | a lower remote health takes over with its class and the higher anomaly rate, if the classes differ; all else stays local |
| `MergeLaws.OneSidedEntriesStay` | internal/consistency/consistency.go:178-360 | the merged maps have the entries of both sides, and those of one side alone as they were |
| `MergeLaws.LaterEntryWins` | internal/consistency/consistency.go:338-360 | the strictly later registry or region entry is kept whole, and shared freezes stay as they were |
| `MergeLaws.LargerPolicyWins` | internal/consistency/consistency.go:318-368 | the policy version that is larger at the first difference, the larger clock, and the local last event |
| `MergeLaws.ActionIsReported` | internal/consistency/consistency.go:264-298 | a new or differing action is listed as critical, with a text that says which row was kept |
| `MergeLaws.TransportIsReported` | internal/consistency/consistency.go:225-261 | a new transport is listed as minor, one of another class as major, with a text that says which health was kept |
| `MergeLaws.SafetyIsReported` | internal/consistency/consistency.go:301-335 | a new freeze and a differing policy version are listed as critical |
| `MergeLaws.NodeIsReported` | internal/consistency/consistency.go:183-208 | a new node is listed as minor, one of another class as major |
| `MergeLaws.OwnTextMeans` | internal/consistency/consistency.go:183-221 | the own text of a reported node says what became of its row |
| `Consistency.CheckConvergence` | internal/consistency/consistency.go:384-406 | counts by level add up, and converged means only minor divergences |
| `Exchange.SomeOrderPanicsIff` | internal/consistency/consistency.go:210-221 | some enumeration order panics if and only if a shared node scores lower remotely under the same class |
| `Exchange.EveryOrderPanicsIff` | internal/consistency/consistency.go:210-221 | every order panics if and only if there is such a node and no node divergence at all |
| `Exchange.VerdictMeans` | internal/consistency/consistency.go:384-406 | converged means equal classes and an equal safety state; an empty list also means the remote side adds no node or transport |
| `Exchange.ExchangeConvergesIff` | internal/consistency/consistency.go:178-335 | after both sides merge each other they converge, without panic and with an empty list, if and only if no tie exists |
| `Resolutions.TextIsListed` | internal/consistency/consistency.go:196-221 | the text spoken of below is the resolution in the list the merge returns |
| `Resolutions.WrongTextIff` | internal/consistency/consistency.go:196-221 | for a given order, a node is reported with a text that is not its own if and only if its own is not "took worse score from remote" and, before the next reported node, one comes that is worse under the same class or whose key line 218 mistakes for it |
| `Resolutions.SomeOrderMislabelsIff` | internal/consistency/consistency.go:196-221 | some order that does not panic leaves a wrong text if and only if there is a reported node whose own text is another and a node that can touch it |
| `Resolutions.WorseScoreOverwrites` | internal/consistency/consistency.go:216 | a new node is reported as if a worse score had been taken for it |
| `Resolutions.KeyCollisionOverwrites` | internal/consistency/consistency.go:218-219 | a new node named "x.classification" is reported as kept because of node "x" |
| `MergeLattice.MergeIsJoin` | internal/consistency/consistency.go:170-368 | on composite scores, key sets, lifecycle ranks, policy, times and clock the merge is the join |
| `MergeLattice.JoinLaws` | internal/consistency/consistency.go:170-368 | that join is commutative, associative and idempotent |
| `MergeLattice.TreesAgree` | internal/consistency/consistency.go:170-368 | any two merge trees over the same states agree on the projection |
| `MergeLattice.MergingAgainChangesNothing` | internal/consistency/consistency.go:170-368 | on whole states, merging the same remote again, or oneself, changes nothing |
| `MergeLattice.ClassFollowsScore` | internal/consistency/consistency.go:209-217 | the class kept belongs to the score kept, which is the lower one |
| `MergeLattice.WorseHealthTakenIff` | internal/consistency/consistency.go:241-260 | the lower transport health results if and only if the classes differ or the local one is lower already |
| `MergeLattice.AnomalyAgreesIff` | internal/consistency/consistency.go:210-215 | when the anomaly score does not depend on who merges |
| `AuditChain.SortedParts` | internal/db/db.go:451-470 | the six columns, collected in any order and sorted by key, are the fields of the canonical text |
| `AuditChain.AuditLogContentCanonical` | internal/db/db.go:451-471 | the loop over the sorted keys writes the canonical text |
| `AuditChain.CanonicalIsInjective` | internal/db/db.go:451-471 | the canonical text determines all six fields, whatever characters they hold |
| `AuditReader.CanonicalReadsBack` | internal/db/db.go:451-470 | a reader of the prefix, quoted keys, colons, quoted values, commas and the brace finds exactly the six columns in increasing order |
| `AuditReader.PlainText` | internal/db/db.go:467-470 | for values that need no escaping the text is the literal concatenation |
| `AuditReader.EscapedText` | internal/db/db.go:467 | which escape each character that needs one is written as |
| `AuditChain.CheckRow` | internal/db/audit_chain.go:54-80 | no fault exactly when the row carries the hashes that belong after the previous chain hash; the first of content and predecessor that differs is named |
| `AuditChain.VerifyAuditLogChain` | internal/db/audit_chain.go:22-89 | OK exactly for accepted lists, with legacy plus verified equal to total and the head of the chain; otherwise the first breaking row is named; lines 84-87 are unreachable |
| `AuditChain.AcceptedIffLegacyThenChain` | internal/db/audit_chain.go:33-81 | accepted is exactly rows without chain hash followed by rows whose three hash columns hold what belongs there, and the two parts are what is counted |
| `AuditHistory.HeadBindsHistory` | internal/db/audit_chain.go:54-80 | two accepted logs with one head hash have identical chained rows, or two of the texts hashed for them collide |
| `AuditHistory.DeletionAcceptedIff` | internal/db/audit_chain.go:54-80 | deleting a block passes exactly at the end of the log or when its last row was legacy; otherwise it is rejected or exhibits a collision |
| `AuditInsert.ValidateSQLInput` | internal/db/db.go:317-330 | refuses exactly more than 4096 bytes or a NUL, and doubles every single quote |
| `AuditInsert.BytesAddUp` | internal/db/db.go:317-321 | how many bytes each character counts |
| `AuditInsert.EscString` | internal/db/db.go:334-341 | a refused value becomes the empty string |
| `AuditInsert.LiteralReadsBack` | internal/db/db.go:325-329 | the database reads the escaped literal back as the very string and stops at its closing quote |
| `AuditInsert.AuditStore.InsertAuditLog` | internal/db/db.go:403-449 | the table after a call for every combination of failing statements, also of writes that report an error after they landed; nil exactly when insert, row id and update report none |
| `AuditInsert.CallStores` | internal/db/db.go:403-449 | a call without faults adds one row: every argument in its column, and the hashes over it and the chain hash before it |
| `AuditInsert.AcceptedAfterInsertIff` | internal/db/db.go:413-448 | fault by fault, when an accepted table is still accepted after one call |
| `AuditInsert.RunAcceptedIff` | internal/db/db.go:403-449 | a run of calls without faults keeps the log accepted if and only if every field survives the validator, or a collision hides that it did not |
| `AuditInsert.LongMessageBreaksTheChain` | internal/db/db.go:317-321 | after a message of more than 4096 characters the log is rejected unless a collision hides it |
| `Approval.Store.ControlActionByID` | internal/db/control.go:360-378 | blank ids are missing, invalid ids are errors, others are looked up |
| `Approval.Store.DecideControlAction` | internal/db/trust.go:151-189 | an undisturbed call decides a pending action or returns its error and changes nothing, except when only the re-read failed |
| `Approval.ErrorsMean` | internal/db/trust.go:151-189 | which error a call returns, each with its exact condition |
| `Approval.Store.ApproveControlAction` | internal/db/trust.go:151-189 | an approval leaves the row as it was but for the nine columns it sets, and every other row alone |
| `Approval.Store.RejectControlAction` | internal/db/trust.go:193-225 | a rejection leaves the row as it was but for the seven columns it sets, and every other row alone |
| `Approval.Store.ExpireStaleApprovalActions` | internal/db/trust.go:229-234 | exactly the pending actions whose deadline is set and passed are closed as expired |
| `Approval.SweepClosesOverdue` | internal/db/trust.go:229-234 | overdue is pending with a deadline that is set and not after now; a sweep closes these as expired, touches no other, leaves none, and an earlier sweep then finds none |
| `Approval.AloneIsTheMethod` | internal/db/trust.go:151-189 | the three statements of a call with nobody between them are the method call |
| `Approval.DecidedAtMostOnce` | internal/db/trust.go:176-178 | in every interleaving of calls, sweeps and executor writes an action leaves pending_approval at most once |
| `Approval.VerdictIsFinal` | internal/db/trust.go:176-178 | a decided action keeps its decision for ever |
| `Approval.RunKeepsInv` | internal/db/trust.go:151-225 | in every run no row names approver and rejecter, errors changed nothing unless the re-read failed, no call finds its action still pending |
| `Approval.OwnDecisionStoredIff` | internal/db/trust.go:151-225 | a caller's own decision is the stored one if and only if nobody took the action between its read and its update |
| `Approval.RacingCallersBothSucceed` | internal/db/trust.go:181-188 | two overlapping callers are both told nil, and only the first decision is stored |
| `Budget.History.ControlActions` | internal/db/control.go:234-265 | the clauses built one by one select what the arguments ask for, in the order the table is listed newest first, skipped by the offset and cut at the clamped limit; an error when the query fails |
| `Budget.History.BudgetSatisfied` | internal/control/control.go:864-892 | no maximum allows; an unreadable history denies; otherwise the budget and restart cap over the newest Max + 10 rows of the window decide |
| `Budget.SuccessesDecide` | internal/control/control.go:864-892 | of the newest Max + 10 rows, Max with result executed_successfully or executed_noop deny; with fewer only a restart can be denied, by as many executed restarts as a positive cap |
| `Budget.WindowMeans` | internal/control/control.go:868-869 | the window is what was created at or after its start |
| `Budget.ArgumentsCut` | internal/db/control.go:234-254 | each argument that is not blank cuts the answer to the rows it names |
| `Budget.PolicyFromConfig` | internal/control/control.go:324-349 | the caps hold, everything else is taken over, and under the caps the query limit is never clamped |
| `Budget.NeverDeniesWhatTheWindowAllows` | internal/control/control.go:864-892 | the truncated check never denies what the check of the whole window allows |
| `Budget.TruncationDeniesIff` | internal/control/control.go:869-891 | when the whole window has spent the budget, the truncated check denies too if and only if nothing was cut, or few enough of the newest rows are unexecuted, or they hold the capped number of restarts |
| `Budget.WindowIgnoresListing` | internal/db/control.go:255-256 | what the whole window says does not depend on how rows of one time are listed |
| `Budget.ExactWithTenUnexecuted` | internal/control/control.go:864-892 | under a configured policy, at most ten unexecuted rows in the window make the truncated check exact |
| `Budget.UnexecutedRowsHideTheRest` | internal/control/control.go:869 | Max + 10 recent unexecuted rows make the check allow although the window has spent the budget |
| `Budget.NewestAreNewest` | internal/db/control.go:255-256 | no row left out by the limit is newer than one that is counted |
| `Json.WriteSortedJSON` | internal/config/canonical.go:37-91 | appends the text of the tree, for every order in which maps are enumerated |
| `KeyOrder.CollectSorted` | internal/config/canonical.go:65-69 | any enumeration, sorted, is the one increasing listing of the keys |
| `Json.CanonicalJSONForFingerprint` | internal/config/canonical.go:12-26 | the bytes are the text of the tree |
| `Json.StringReadsBack` | internal/config/canonical.go:50-52 | a quoted string reads back and ends at its own quote (section 7 of RFC 8259) |
| `Json.EscapeMeans` | internal/config/canonical.go:50-52 | which characters stand in the text as they are, and how the others are escaped |
| `JsonParser.ValueReadsBack` | internal/config/canonical.go:37-91 | parsing the text of any tree followed by any rest that cannot extend a trailing number gives the tree and the rest |
| `JsonParser.PrintIsSelfDelimiting` | internal/config/canonical.go:37-91 | equal texts with such rests carry equal trees and equal rests |
| `JsonParser.PrintIsInjective` | internal/config/canonical.go:37-91 | two trees have one canonical text if and only if they are one tree |
| `Diff.JsonEqual` | internal/config/diff.go:63-73 | comparing the texts is comparing the trees |
| `Diff.DiffMaps` | internal/config/diff.go:27-61 | the entries are exactly the differences below the prefix, each path once, whatever the map order |
| `Diff.Diff` | internal/config/diff.go:18-25 | the entries are exactly the differences, and there are none if and only if the trees are equal |
| `Diff.DiffIsAPatch` | internal/config/diff.go:27-61 | applying the entries to a, in the order they came out, gives b |
| `Diff.OneChangePerPath` | internal/config/diff.go:44-58 | a path carries one change |
| `Diff.DottedIsInjective` | internal/config/diff.go:37-40 | non-empty keys without dots are told apart by their dotted paths |
| `Diff.PathsAreDistinct` | internal/config/diff.go:37-40 | the entries of the diff of two tidy trees, hence of two configurations, have pairwise distinct paths |
| `Diff.TwoEntriesOnePath` | internal/config/diff.go:37-40 | two trees that are not tidy whose diff has two entries with one path |

## Left out

- Process plumbing: sqlite3 subprocesses, SQL text beyond string literals, JSON decoding of rows, migrations, HTTP, TLS, timers and logging; a statement is one atomic effect that may fail.
- The kernel: `Apply` is a recorded call; checksums are not modelled.
- SHA-256 is an arbitrary function to 64 hexadecimal digits, and which characters `%q` prints as they are is arbitrary; collisions are exhibited, not excluded.
- Strings are sequences of Unicode scalar values: invalid UTF-8 is not modelled, and text order by code point stands for byte order.
- Numbers at or above 2^53, which the code decodes through float64.
- EventLog.Log.Compact: takes the answer of `changes()` on another connection as an input, and does not model the text order of RFC 3339 timestamps; time is an ordered key.
- Federation.Manager.PullFromSinglePeer: models a pull and its answer in one call; the interleaved version is the machine of `Gossip`.
- Gossip.StepKeepsInv: does not model removing a peer, which nothing but a test does, or changing its scope, which nothing does. A cursor is zero after a restart: only AddPeer persists one, as it was at registration, and nothing but a test calls it.
- Gossip.RestartKeepsInv: does not model a restart after burned numbers and compaction undercut the cursors of peers; `EventLogRuns.ReuseIffNewestDeleted` shows what then happens to the numbers.
- Delivery.CopiesAgree: does not cover metadata, policy version and causal parent, which the code does not send.
- EventualAgreement.FairGossipAgrees: supposes that every open pull ends and that every link is pulled and answered again and again; the timers that bring this about are not modelled. Local appends, compaction and restarts do not occur in these executions, nor in those of `ScopedAgreement`.
- Federation.Matches: node subsets and policy domains are fields of the scope that the code never reads.
- A heartbeat returns a decommissioned peer to active; the model does the same and claims nothing against it.
- Consistency.CheckConvergence: does not model the time of the report; the panic of the merge ends the call without a result.
- CheckStaleness and the other report-building functions: single comparisons.
- AuditInsert.AuditStore.InsertAuditLog: models the row id as a label that reads back as written.
- Pruning the audit log: deleting a chained prefix is one of the deletions `AuditHistory.DeletionAcceptedIff` covers.
- Approval.Store.DecideControlAction: one method for the common body of approve and reject; the executor is modelled as any write to an action that is not pending which leaves the decision alone.
- Json.WriteSortedJSON: keeps a number as the text json.Marshal gives it, and does not model the default branch, which decoded JSON never reaches.
- Diff.DiffMaps: does not model the order of the entries, which follows map enumeration and is arbitrary.
- Candidate generation and attribution of control actions, cooldowns, freezes, RBAC, backup, CLI, UI and configuration defaults: they would add easy members or depend on packages outside this layer.
