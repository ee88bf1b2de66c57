# A verified model of tama's host daemon

`tamad` runs model backends on a host for the `tama` proxy. This project models the parts of
the two programs whose behaviour spans several functions, and proves what their documentation
promises of them, or exactly when the code keeps that promise.

`dafny verify dfyconfig.toml` checks everything, in a few minutes.

## What is modelled

**The process lifecycle** (`ProcessTable`, `Store`, `World*`, `Lifecycle`). `World` is a
transition system over the process table, the store of manifests, the respawn queue, the live
pids, and the tasks in flight: loads, health gates, the reconciler, reapers, store writes, the
boot sweep, and crashes. A step is one critical section of one task: a check and the insert it
guards are separate steps, and so are reading a row and inserting the row computed from it, and
reading a manifest and writing it; everything interleaves. What the world outside decides (a pid,
a probe, a disk write, an exit, the clock) is a parameter of the step that observes it. Two things
are not cut: `restart` reads and removes a row at once, and a manifest goes to disk and into the
map in memory at once.

All results are about every run. Where the code keeps its promise only if an insert is not too
late, the exact step theorem says which inserts break it (`StepMovesExactly`,
`BooksStayExactly`, `MarkStaysExactly`, `BarStaysExactly`), the run theorem asks exactly that of
the steps it is about, and `WorldRaces` has a run that does break it: a late gate turns
`failed` back into `ready`, two verdicts land on one process, a verdict or an instant `ready`
takes a mark off, a crash loop runs without bound, a trip on disk is overwritten.

`ProcessTable`, `Store` and `TamadLifecycle` are the classes; each of their methods is tied to
the functions the transition system is made of. What these functions do is spelled out apart from
them, in fields and numbers: step by step in `WorldAnswers`, task by task in `TaskOutcomes`.

**The job registry and its stream** (`Jobs`, `JobEvents`, `JobAnswers`, `JobTokens`, `JobRaces`,
`StreamJob`, `JobRegistry`). Again one step per critical section: `start` is four, `finish` and `cancel` are
two. The results about rings, tokens, replay and the end of a job hold in every run; where the
literal code loses something (a prune with a stale snapshot, a finish overtaken by a cancel) the
theorem says exactly what and when, and `JobRaces` shows a run that does it.

**Engine metrics** (`QuoteScanner`, `SourceLabel`, `MetricLine`, `LineBlanks`, `EngineMetrics`,
`CounterTable`, `Windows`, `Stats`). The scanner of the Prometheus text format over bytes, the fold over lines, the
windowed rates, and the budgeted scrape loop with its staleness clock. Floats are reals; how a
token is read as a number is a parameter, of which the round trips only assume that no number
contains a brace.

**Migration** (`Migrate`, `MigrateAccounts`, `MigrateRun`) and **the proxy's job list**
(`JobManager`). The batched copy with savepoints against the row-by-row copy; bounded buffers
and a bounded map against the full history, however the calls overlap. What the target engine
says of one row is a parameter.

## Where the code and its documentation disagree

The model follows the code.

- The reaper's error message says that the sweep's at-cap refusal still covers a trip that did
  not reach disk (lifecycle.rs:1250-1256). Mark and tally are one write, so it does not:
  `WorldDisk.TripBarsBootIffWritten`.
- A re-insert is documented to keep an operator's mark (store.rs:200-203). It keeps the mark it
  read, so one that reads before a trip and writes after it erases the trip:
  `WorldRaces.StaleInsertLosesTrip`.
- A terminal verdict is documented never to overwrite a row that someone else has taken over
  (lifecycle.rs:692-694). The check and the insert take the lock separately, so it may:
  `WorldRaces.StaleGateRevivesRow`, `WorldRaces.GateAndReconcilerBothLand`.
- The instant `ready` is documented to preserve the row's bookkeeping (lifecycle.rs:593-598). It
  writes the bookkeeping of before its own `starting` row, so a death or a mark recorded since is
  gone: `WorldRaces.UncountedCrashLoop`, `WorldRaces.MarkIsLost`.
- A verdict is documented to reflect the current row at insert time (lifecycle.rs:664-668). It
  reflects the row it read before, and so does a placement; a mark or a charge in between is lost:
  `WorldRaces.GateTakesMarkOff`. Exactly when: `WorldTrip.MarkStaysExactly`,
  `WorldWindow.BooksStayExactly`.
- `subscribe` promises a strict partition of the stream and `cancelled()` a wait until
  cancellation; two overlapping `start` calls break both: `JobRaces.OverlappingStartsLoseRingAndToken`.
  Exactly when: `JobEvents.RingIsWholeExactly`, `StreamJob.NothingMissedExactly`,
  `JobTokens.RunningJobOwnsToken`.
- `stream_job` ends right after the terminal event, except after `cancelled`, which
  `is_terminal_event` does not know: `StreamJob.DeliveredExactly`.
- "Trailing timestamps are never read as the value": one that follows a non-finite value is:
  `MetricLine.LineRoundTrip`.
- An idle window is documented as "no counter advanced"; the number of drafts does not count:
  `Windows.ObservesExactly`.
- A pre-epoch clock is documented to read as stale; it reads as fresh, and old rates with it:
  `Stats.StampedExactly` says exactly when, `Stats.EpochMakesFresh` is a run.
- The migration report is written before the sequences are set and the commit is known, so it
  can claim a commit that did not happen: `MigrateRun.Target.Migrate`.

## Model

| member | source | states |
|---|---|---|
| `ProcessTables.ProcessTable.Insert` | crates/tamad/src/process_table.rs:80-83 | the row is the model's only row; no other model's row changes |
| `ProcessTables.ProcessTable.Remove` | crates/tamad/src/process_table.rs:88-90 | the row is handed out and gone; no other row changes |
| `ProcessTables.ProcessTable.MarkFailed` | crates/tamad/src/process_table.rs:106-116 | the row of this very process becomes `failed` if and only if it was `starting` or `ready`; nothing else changes |
| `ProcessTables.ProcessTable.RecordRestartWindow` | crates/tamad/src/process_table.rs:133-141 | the row keeps every stamp of the last 300 s as often as it had it, the new one last, and no other; the count is their number; None for an unknown model |
| `ProcessTables.ProcessTable.MarkRestarting` | crates/tamad/src/process_table.rs:152-164 | moves this process's `starting` or `ready` row to `restarting`, and says whether it did |
| `ProcessTables.ProcessTable.MarkBudgetExhausted` | crates/tamad/src/process_table.rs:173-186 | moves this process's `starting` or `ready` row to `budget_exhausted` and marks it, and says whether it did |
| `StateStore.Store.Insert` | crates/tamad/src/state/store.rs:204-239 | a re-insert replaces the request but keeps mark, cap and persisted tally; nothing changes if key or disk refuse |
| `StateStore.Store.SetTripped` | crates/tamad/src/state/store.rs:277-292 | mark and tally are written together or not at all |
| `StateStore.Store.ZeroPersistedRestartCount` | crates/tamad/src/state/store.rs:300-314 | the tally is cleared, the mark stays |
| `StateStore.Store.Delete` | crates/tamad/src/state/store.rs:399-414 | the key is forgotten; an invalid key is a no-op |
| `StateStore.Store.PersistTripped` | crates/tamad/src/lifecycle.rs:132-156 | succeeds, with the trip on disk, exactly if one of the attempts is taken |
| `StateStore.ValidKeyMeans` | crates/tamad/src/state/store.rs:421-423 | a key is valid exactly if it is not empty, has no slash and no two dots in a row |
| `WorldIds.IdsKept` | crates/tamad/src/lifecycle.rs:486-620 | every step keeps the whole state in agreement about which model a pid was handed out for |
| `WorldKeys.KeyedKept` | crates/tamad/src/server.rs:218-300 | every step keeps each manifest under the name of the model it starts |
| `WorldVerdicts.StepMovesExactly` | crates/tamad/src/lifecycle.rs:626-713 | a step moves a process back in a model's row, or gives it that row again, exactly if it inserts too late: a verdict or a `ready` whose check no longer holds when it is written |
| `WorldVerdicts.OneVerdictPerProcess` | crates/tamad/src/lifecycle.rs:314-465 | in every run, over a stretch with no late insert into the model's row, a process keeps the row as long as it has it and its status only moves starting, ready, then one of failed, restarting, budget_exhausted |
| `WorldVerdicts.VerdictsMoveForwardExactly` | crates/tamad/src/lifecycle.rs:314-465 | in every run, statuses only move forward over a stretch if and only if no insert in it is late |
| `WorldVerdicts.SecondLandingIsLate` | crates/tamad/src/lifecycle.rs:663-713 | in every run, a second verdict on a process lands on a row that is no longer its `starting` row |
| `WorldVerdicts.AtMostOneLanding` | crates/tamad/src/lifecycle.rs:732-737 | gate and reconciler together land at most one verdict on a process, in every run whose landings still own the `starting` row at the insert |
| `WorldWindow.SinceSince` | crates/tamad/src/process_table.rs:133-141 | trimming twice with rising cutoffs is trimming once with the later one |
| `WorldWindow.ChargeMatches` | crates/tamad/src/process_table.rs:133-141 | one recorded death keeps the trimmed list equal to the full log filtered to the last 300 s |
| `WorldWindow.BooksStayExactly` | crates/tamad/src/lifecycle.rs:532-713 | a step leaves a row's window and count right exactly if it does not insert a row with books that were read before a charge: no placement, verdict or instant `ready` does |
| `WorldWindow.WindowRefinesLog` | crates/tamad/src/lifecycle.rs:763-795 | in every run without such an insert the row holds exactly the deaths of the last 300 s out of the full log since its last reset, across respawns, and their number |
| `WorldWindow.WindowIsLostExactly` | crates/tamad/src/lifecycle.rs:532-713 | and the first such insert makes the row wrong |
| `WorldBudget.SpanBelowCap` | crates/tamad/src/lifecycle.rs:1235-1285 | if every respawn was below its cap when granted, no 300 s span holds cap respawns |
| `WorldBudget.CrashLoopIsBounded` | crates/tamad/src/lifecycle.rs:1199-1288 | left to the reaper and with no late insert into its row, in every run and whatever other models do: the respawns that answer the deaths of any 300 s are fewer than the cap, and in any 300 s at most the cap are asked for |
| `WorldBudget.VerdictIsAboutTheLog` | crates/tamad/src/lifecycle.rs:1235-1285 | the reaper exhausts, flags and trips exactly if the deaths of the last 300 s reach the cap, and respawns exactly if not |
| `WorldTrip.MarkStaysExactly` | crates/tamad/src/lifecycle.rs:532-713 | a step takes the mark off a row that stays exactly if it inserts a row computed from one without the mark: a placement, a verdict or an instant `ready` |
| `WorldTrip.MarkStays` | crates/tamad/src/lifecycle.rs:763-795 | in every run without such an insert a marked row stays marked as long as there is one, across any number of loads |
| `WorldTrip.MarkStopsRespawns` | crates/tamad/src/lifecycle.rs:1199-1288 | and if no insert into the row was late either, the model is never respawned while it has a marked row |
| `WorldTrip.BarStaysExactly` | crates/tamad/src/state/store.rs:204-239 | a step lifts the bar of a manifest exactly if it puts on disk a write that leaves no barred manifest |
| `WorldTrip.TripSurvivesCrash` | crates/tamad/src/lifecycle.rs:1308-1365 | in every run, with the trip or only its at-cap tally on disk, no sweep after any number of crashes loads the model until it is forgotten or its tally reset |
| `WorldTrip.MarkSurvivesCrash` | crates/tamad/src/lifecycle.rs:1199-1221 | with the mark on disk at a crash the reaper never respawns the model afterwards either |
| `WorldBoot.AtMostTwoBootLoads` | crates/tamad/src/lifecycle.rs:1316-1365 | in every run at most two boot loads are in flight, and the sweep launches only desired, unmarked manifests below cap |
| `WorldBoot.LaunchedWasNotAlive` | crates/tamad/src/lifecycle.rs:1345-1354 | in every run, each manifest the sweep launches was examined before, when its model had no live process |
| `WorldBoot.AttemptsReachDisk` | crates/tamad/src/lifecycle.rs:132-156 | the retried trip write ends with the trip on disk exactly if some attempt was taken, and changes nothing else |
| `WorldDisk.StoreIsLastCommit` | crates/tamad/src/state/store.rs:204-239 | in every run a manifest is what the last write to reach the disk left, across crashes |
| `WorldDisk.BootFindsLastCommit` | crates/tamad/src/lifecycle.rs:1308-1365 | in every run the next boot finds the manifest that the last write before the crash left |
| `WorldDisk.TripBarsBootIffWritten` | crates/tamad/src/lifecycle.rs:1236-1262 | in every run, of a model whose budget ran out and to which nothing but the trip was written until the crash, the next boot finds a replayable manifest if and only if no attempt had reached the disk |
| `WorldAnswers.ReaperLeavesNoOpenRow` | crates/tamad/src/lifecycle.rs:1199-1288 | in every run, whichever way a reaper goes, it leaves no row that shows its dead process `starting` or `ready` |
| `WorldAnswers.CheckAnswers` | crates/tamad/src/lifecycle.rs:1199-1204 | the reaper stands down exactly if the row is not its process's |
| `WorldAnswers.LookAnswers` | crates/tamad/src/lifecycle.rs:1212-1228 | it goes on to respawn exactly if a manifest wants the model and neither it nor the row is marked |
| `WorldAnswers.GiveUpAnswers` | crates/tamad/src/lifecycle.rs:1217-1222 | giving up fails the row if it is this process's and `starting` or `ready`, and changes nothing else |
| `WorldAnswers.ChargeAnswers` | crates/tamad/src/lifecycle.rs:1226-1234 | one death is charged to the row the model has, and to no other; without a row the reaper is done |
| `WorldAnswers.MarkAnswers` | crates/tamad/src/lifecycle.rs:1236-1288 | at the cap the open row is exhausted and marked and the trip owed to the disk; below it the row waits and its respawn is queued; any other row is left alone |
| `WorldAnswers.AskAnswers` | crates/tamad/src/server.rs:218-252 | a load is answered without a spawn exactly if the model has a live row that has not failed |
| `WorldAnswers.TakeOutAnswers` | crates/tamad/src/lifecycle.rs:1063-1152 | `restart` takes the row out and loads its spec again, `unload` takes it out |
| `WorldAnswers.DispatchAnswers` | crates/tamad/src/lifecycle.rs:226-255 | the supervisor takes the oldest respawn asked for |
| `WorldAnswers.SpawnAnswers` | crates/tamad/src/lifecycle.rs:520-540 | a native spawn gets a reaper, a container none; a failed spawn leaves nothing |
| `WorldAnswers.PlaceAnswers` | crates/tamad/src/lifecycle.rs:542-590 | the `starting` row inherits the record of a row that waits for its respawn, and the mark of any |
| `WorldAnswers.ConfirmAnswers` | crates/tamad/src/lifecycle.rs:592-594 | an ungated load writes `ready` only while it owns the row, and comes back in any case |
| `WorldAnswers.SettleAnswers` | crates/tamad/src/lifecycle.rs:593-613 | the instant `ready` has the record and the mark that were read before the placement |
| `WorldAnswers.SeesExactly` | crates/tamad/src/lifecycle.rs:314-334 | the reconciler takes up exactly the gated rows that have been `starting` for 10 s |
| `WorldAnswers.FindsExactly` | crates/tamad/src/lifecycle.rs:335-340 | it lets a row time out exactly past 120 s and past twice its timeout |
| `WorldAnswers.JudgeAnswers` | crates/tamad/src/lifecycle.rs:626-713 | a judge goes on only while the `starting` row is its own: to `ready` with a clean record, or to kill and then to `failed` with the record it came with |
| `WorldAnswers.LandAnswers` | crates/tamad/src/lifecycle.rs:663-713 | the verdict's row, field by field, and the reset of the tally after a `ready` |
| `WorldAnswers.FetchAnswers` | crates/tamad/src/state/store.rs:204-314 | what each write keeps of the manifest, which keys and which missing manifests it refuses, and that only a trip tries again |
| `WorldAnswers.CommitAnswers` | crates/tamad/src/state/store.rs:322-368 | the disk has what the write read, or nothing changes and only a trip with attempts left tries again |
| `WorldAnswers.CrashAnswers` | crates/tamad/src/lifecycle.rs:1308-1320 | a crash takes everything but the manifests, each of which the next boot lists once |
| `WorldAnswers.ExamineAnswers` | crates/tamad/src/lifecycle.rs:1316-1354 | the sweep waits to load a manifest exactly if it is desired, unmarked, below its cap and not alive |
| `WorldAnswers.LaunchAnswers` | crates/tamad/src/lifecycle.rs:1355-1363 | it loads with one of two permits |
| `WorldAnswers.PermitsAreHeldExactly` | crates/tamad/src/lifecycle.rs:1355-1365 | in every run a permit is held exactly by each boot load in flight |
| `WorldRaces.StaleGateRevivesRow` | crates/tamad/src/lifecycle.rs:663-679 | a run in which a gate that has checked but not written turns `failed` back into `ready` |
| `WorldRaces.GateTakesMarkOff` | crates/tamad/src/lifecycle.rs:690-708 | a run in which a model exhausts its budget and is marked between the read and the insert of its gate's verdict, which writes it `ready` and unmarked |
| `WorldRaces.GateAndReconcilerBothLand` | crates/tamad/src/lifecycle.rs:314-465 | a run in which both check, both land, and one process gets two verdicts |
| `WorldRaces.UncountedCrashLoop` | crates/tamad/src/lifecycle.rs:532-613 | for every cap of at least 3 and every n, a run in which the reaper alone respawns an ungated model 2n times at one instant |
| `WorldRaces.MarkIsLost` | crates/tamad/src/lifecycle.rs:593-613 | a run in which the instant `ready` takes the mark and a charge off a row, and the model is respawned while its row exists |
| `WorldRaces.StaleInsertLosesTrip` | crates/tamad/src/state/store.rs:204-239 | a run in which a trip reaches the disk and a write that read before it overwrites it: the next boot would replay the model |
| `Lifecycle.SweptExactly` | crates/tamad/src/lifecycle.rs:1316-1354 | the sweep loads a manifest if and only if it is desired, unflagged, below cap and not alive |
| `Lifecycle.SweptInOrder` | crates/tamad/src/lifecycle.rs:1316-1354 | the sweep takes the manifests in the order of the listing |
| `TaskOutcomes.LoadLeaves` | crates/tamad/src/lifecycle.rs:486-620 | the row a load leaves, field by field: `starting` or `ready`, with or without the record of the row before it |
| `TaskOutcomes.GatePasses` | crates/tamad/src/lifecycle.rs:687-713 | a gate whose backend answered leaves a `ready` row with a clean record and no tally on disk, if the `starting` row is its own; else nothing changes |
| `TaskOutcomes.GateExpires` | crates/tamad/src/lifecycle.rs:634-686 | a gate out of time leaves a `failed` row with the record of a restart, or a clean one |
| `TaskOutcomes.ReconcilesRow` | crates/tamad/src/lifecycle.rs:314-465 | of gated rows `starting` for 10 s, those past 120 s and past twice their timeout are failed, of the others those that answer are adopted, and only their own process's rows |
| `TaskOutcomes.ReaperLeaves` | crates/tamad/src/lifecycle.rs:1199-1288 | what a death leaves in table, store and queue: left alone, failed, exhausted with the trip on disk, or waiting with a respawn queued |
| `Lifecycle.TamadLifecycle.ReapDeadPid` | crates/tamad/src/lifecycle.rs:1199-1288 | run alone, table, store and queue end as the reaper's steps leave them |
| `Lifecycle.TamadLifecycle.Load` | crates/tamad/src/lifecycle.rs:486-620 | run alone, the table ends as the load's steps leave it; the answer is `starting` with a gate, `ready` without |
| `Lifecycle.TamadLifecycle.Judge` | crates/tamad/src/lifecycle.rs:626-713 | run alone, a judge lands what its steps land, and nothing if it does not own a `starting` row |
| `Lifecycle.TamadLifecycle.SettleGate` | crates/tamad/src/lifecycle.rs:626-713 | the gate is a judge that found the backend healthy or timed out |
| `Lifecycle.TamadLifecycle.ReconcileOnce` | crates/tamad/src/lifecycle.rs:314-465 | one pass judges each row of its snapshot in turn: skipped, adopted, or failed past its deadline |
| `Lifecycle.TamadLifecycle.Unload` | crates/tamad/src/lifecycle.rs:1063-1115 | the model's row goes, nothing else, and an unknown model is refused |
| `Lifecycle.TamadLifecycle.ReplayDesired` | crates/tamad/src/lifecycle.rs:1308-1365 | launches exactly the wanted manifests in listing order, none when switched off |
| `JobEvents.RunsAreSound` | crates/tamad/src/jobs.rs:122-148 | in every run the events of a job are running ones and the newest is the state on record; one closing event, last, once it has ended |
| `JobEvents.OverForGood` | crates/tamad/src/jobs.rs:129-135 | an ended job stays as it ended until pruned, is then gone for good and never heard of again, though its runner goes on reporting |
| `JobEvents.FirstEndWins` | crates/tamad/src/jobs.rs:385-440 | a running job ends at the first cancel or finish that reaches it and no other step; that step fixes its record and sends its one closing event, the last |
| `JobAnswers.BeginAnswers` | crates/tamad/src/jobs.rs:249-292 | a new job is on record and broadcast as running, at 0 percent |
| `JobAnswers.ReportAnswers` | crates/tamad/src/jobs.rs:122-148 | progress is clamped to 0..100, bytes are never negative, a total is kept unless a positive one comes; ended and unknown jobs are left alone |
| `JobAnswers.FinishAnswers` | crates/tamad/src/jobs.rs:415-440 | a running job is recorded and broadcast as succeeded if and only if its runner said so, then at 100 percent, with the result and the error as handed in |
| `JobAnswers.CancelAnswers` | crates/tamad/src/jobs.rs:385-405 | a running job is recorded and broadcast as cancelled, and nothing else of it changes |
| `JobAnswers.EndsAsItWasEnded` | crates/tamad/src/jobs.rs:385-440 | in every run the record and the last event of an ended job say for good how, by whom and with what it was ended |
| `JobEvents.PrunedExactlyWhenOld` | crates/tamad/src/jobs.rs:249-260 | a record goes exactly at a `start` at least an hour after the job ended |
| `JobEvents.RingIsTheTail` | crates/tamad/src/jobs.rs:229-236 | in every run a ring is the newest 512 of the job's events since the last prune whose snapshot lacked the job |
| `JobEvents.RingIsWholeExactly` | crates/tamad/src/jobs.rs:10-18 | the promise that a ring is the newest 512 of the job's events holds exactly if no prune dropped it after an event was sent, or 512 were sent since |
| `JobEvents.StreamPartition` | crates/tamad/src/jobs.rs:344-361 | snapshot and live events are one unbroken stretch of the job's events: no gap, no duplicate, in order |
| `JobEvents.LoneStartsKeepRings` | crates/tamad/src/jobs.rs:10-18 | if starts do not overlap the ring is the newest 512 of all the job's events |
| `JobEvents.RingsAtRest` | crates/tamad/src/jobs.rs:293-306 | whenever no `start` is under way only jobs on record have a ring, of at most 512 events |
| `JobTokens.RunningJobOwnsToken` | crates/tamad/src/jobs.rs:308-313 | in every run a running job owns its token if and only if no finish of it is under way and no prune dropped it since there is a handle; the token is not fired |
| `JobTokens.LoneStartsDropNoToken` | crates/tamad/src/jobs.rs:293-301 | starts that do not overlap drop no token of a job on record |
| `JobTokens.AfterACancelNoneWaits` | crates/tamad/src/jobs.rs:173-177 | after a cancel has returned true every later `cancelled()` returns at once |
| `JobTokens.WhomACancelWakes` | crates/tamad/src/jobs.rs:374-405 | a waiting `cancelled()` is woken exactly if no finish took the token and no prune dropped it before the firing |
| `JobRaces.OverlappingStartsLoseRingAndToken` | crates/tamad/src/jobs.rs:296-313 | a run in which a running job has an empty replay and no token |
| `JobRaces.OvertakenFinishLosesWaiter` | crates/tamad/src/jobs.rs:415-440 | a run in which a cancel succeeds and the waiting call is never woken |
| `StreamJob.Stream` | crates/tamad/src/server.rs:555-608 | delivers the snapshot, then the job's live events, and closes exactly at an event that says succeeded or failed |
| `StreamJob.DeliveredExactly` | crates/tamad/src/server.rs:544-611 | a subscriber is delivered every event from the first in its snapshot to the newest, and its stream has closed exactly if that one says succeeded or failed |
| `StreamJob.ClosesAfterTheEnd` | crates/tamad/src/server.rs:46-48 | in every run, once its runner has ended a job the stream of everyone who was delivered anything has closed; once it was cancelled none has |
| `StreamJob.DeliveredUpTo` | crates/tamad/src/server.rs:582-606 | of any live events, those up to the first that says succeeded or failed are delivered, and none after a snapshot that ends so |
| `StreamJob.NothingMissedExactly` | crates/tamad/src/server.rs:532-543 | in every run a subscriber is delivered all the job ever sends if and only if no prune dropped the ring after an event was sent and at most 512 came before |
| `StreamJob.EarlyOrLateTheSame` | crates/tamad/src/server.rs:532-543 | early and late subscribers are delivered the whole sequence if at most 512 events came before; nothing follows the closing event |
| `JobRegistries.JobRegistry.constructor` | crates/tamad/src/jobs.rs:204-212 | a registry starts empty |
| `JobRegistries.JobRegistry.PushHistory` | crates/tamad/src/jobs.rs:229-236 | pop and push leave the newest 512 of the old ring and the event |
| `JobRegistries.JobRegistry.Start` | crates/tamad/src/jobs.rs:244-329 | uninterrupted, leaves a running job with a token and its first event to replay; old jobs and their rings are gone |
| `JobRegistries.JobRegistry.Report` | crates/tamad/src/jobs.rs:122-148 | is the report step: ignored unless the job is running, clamped otherwise |
| `JobRegistries.JobRegistry.Finish` | crates/tamad/src/jobs.rs:415-440 | ends a running job as succeeded or failed by what it was handed, keeps and sends its event; of an ended one takes the token and changes nothing else |
| `JobRegistries.JobRegistry.Cancel` | crates/tamad/src/jobs.rs:385-405 | ends a running job, keeps and sends its event, and fires the token if it is still there; refuses any other id with nothing changed |
| `JobRegistries.JobRegistry.Subscribe` | crates/tamad/src/jobs.rs:344-361 | the ring and the position of the broadcast at one moment, for known ids only |
| `QuoteScanner.FirstMeans` | crates/tamad/src/engine_metrics.rs:235-255 | the scan's result is a hit in the right quoting mode with none before it |
| `QuoteScanner.FindUnquoted` | crates/tamad/src/engine_metrics.rs:284-302 | the index loop finds the first unquoted stop, or runs to the end, and one past it exactly after a dangling escape |
| `QuoteScanner.ClosingQuote` | crates/tamad/src/engine_metrics.rs:330-344 | finds the first unescaped quote, if there is one |
| `QuoteScanner.EscapeStaysQuoted` | crates/tamad/src/engine_metrics.rs:266-273 | an escaped value never leaves its quotes, whatever it holds |
| `SourceLabel.ReadLabelValue` | crates/tamad/src/engine_metrics.rs:318-326 | reads the quoted value, or the unquoted one that a comma or blank ends |
| `SourceLabel.SourceLabelValue` | crates/tamad/src/engine_metrics.rs:274-308 | the index loop gives the value of the first candidate key that is `source`, or says that there is none, or that it overran |
| `SourceLabel.OverrunsExactly` | crates/tamad/src/engine_metrics.rs:284-306 | on arbitrary text the scan overruns exactly if the text ends in a dangling escape and no key is `source` |
| `SourceLabel.UnquotedIsRead` | crates/tamad/src/engine_metrics.rs:318-326 | an unquoted value is what stands before the first comma or whitespace, and none if neither follows |
| `SourceLabel.SourceRoundTrip` | crates/tamad/src/engine_metrics.rs:266-308 | from any rendered label set the raw value of the first label with exactly that key comes back, or none |
| `MetricLine.SplitMetricLine` | crates/tamad/src/engine_metrics.rs:198-264 | the imperative split computes the token-level definition: value place, finite value, name, label text |
| `MetricLine.SplitNeverOverruns` | crates/tamad/src/engine_metrics.rs:235-264 | on every label text the split can return, the label scan stays inside |
| `MetricLine.LabelsExactly` | crates/tamad/src/engine_metrics.rs:223-264 | on any text the name stands before the first `{`, and the label text between it and the first `}` outside quotes, or there is none |
| `MetricLine.PlainIntMeans` | crates/tamad/src/engine_metrics.rs:348-351 | a timestamp is digits, after a minus or not |
| `MetricLine.TokensSplit` | crates/tamad/src/engine_metrics.rs:199-199 | the tokens of two texts with whitespace between are the tokens of both |
| `MetricLine.NeatStays` | crates/tamad/src/engine_metrics.rs:226-226 | rejoining the tokens gives the text back if its whitespace is single blanks |
| `MetricLine.LineRoundTrip` | crates/tamad/src/engine_metrics.rs:198-264 | name, value and label text come back as written; without a finite value the line is dropped, or with a timestamp the timestamp is the value |
| `MetricLine.LabelsComeBackExactly` | crates/tamad/src/engine_metrics.rs:223-264 | name and value of a labelled line come back whatever the labels hold; the label text exactly if its whitespace is single blanks |
| `LineBlanks.LineReads` | crates/tamad/src/engine_metrics.rs:198-264 | any written line reads as if its label values had been written with each stretch of blanks as one |
| `LineBlanks.SourceOfAnyLine` | crates/tamad/src/engine_metrics.rs:96-99 | from any written line to the `source` that is counted: the first label with exactly that key, as written if and only if the blanks of its own value are single |
| `EngineMetrics.ParseEngineMetrics` | crates/tamad/src/engine_metrics.rs:87-163 | each slot is the optional sum over the lines that name it; vLLM exactly if a counted line carries a vLLM name, else llama.cpp exactly if one carries one of its names |
| `EngineMetrics.Count` | crates/tamad/src/engine_metrics.rs:100-154 | marks the engine of each counter and adds to the slot the counter stands for; which name that is says `CounterTable.NamesCount` |
| `CounterTable.NamesCount` | crates/tamad/src/engine_metrics.rs:100-154 | from the written line to the field, name by name: which counter each name adds to, that the other five stay, and which engine it shows; any other name counts nothing |
| `CounterTable.PromptsCountBySource` | crates/tamad/src/engine_metrics.rs:105-117 | vLLM's prompt counter adds to computed for `local_compute`, to cached for `local_cache_hit`, and to nothing for any other source or none |
| `CounterTable.CommentsCountNothing` | crates/tamad/src/engine_metrics.rs:91-95 | blank lines and comments count nothing |
| `CounterTable.NothingCounted` | crates/tamad/src/engine_metrics.rs:87-90 | an empty body has no counter and no engine |
| `EngineMetrics.TotalConcat` | crates/tamad/src/engine_metrics.rs:87-163 | the counters of two lists of lines are the slot-wise optional sums |
| `EngineMetrics.OrderNeverMatters` | crates/tamad/src/engine_metrics.rs:87-163 | any reordering of the lines gives the same counters |
| `EngineMetrics.ReturnIsNothing` | crates/tamad/src/engine_metrics.rs:91-95 | a carriage return at the end of a line changes nothing it counts |
| `EngineMetrics.JoinedBodiesAddUp` | crates/tamad/src/engine_metrics.rs:87-163 | joining two bodies adds their counters and unites the names they carry |
| `Windows.ObservesExactly` | crates/tamad/src/engine_metrics.rs:385-437 | there is an observation exactly if there was a previous scrape, time passed, no counter fell, and some counter other than the drafts rose |
| `Windows.RatesAreSane` | crates/tamad/src/engine_metrics.rs:438-453 | when each rate and share is there, exactly; rates and shares are never negative and give the counted difference back; the cache share is at most 100, the acceptance share exactly if no more was accepted than drafted |
| `Stats.StatsCollector.ScrapeSpec` | crates/tamad/src/stats.rs:206-352 | the tick visits, remembers, evicts and stamps as the tick-level definition says; nothing without a client |
| `Stats.StatsCollector.Emit` | crates/tamad/src/stats.rs:318-351 | every serving, known process is stamped from its observation or blanked; the others are untouched |
| `Stats.TickStaysInBudget` | crates/tamad/src/stats.rs:238-249 | if no scrape outlasts its timeout, all of a tick together stay below 3 s for any number of processes |
| `Stats.OwnAfter` | crates/tamad/src/stats.rs:221-312 | a tick pays a listed model at most one visit and changes its state only by it |
| `Stats.StepAnswers` | crates/tamad/src/stats.rs:221-312 | which processes a tick scrapes, exactly (2 s must fit the 3 s left), and what a failed, an unknown and a parsed reply leave behind |
| `Stats.AfterAnswers` | crates/tamad/src/stats.rs:310-316 | after a tick exactly the models still listed are remembered |
| `Stats.StampAnswers` | crates/tamad/src/stats.rs:318-351 | a stamp changes the observed fields only, and only of serving, known processes |
| `Stats.StampedExactly` | crates/tamad/src/stats.rs:314-351 | in every run a serving process is stamped exactly if the wall clock is at most 30 s past that of the tick that observed its window, or past 0 if none did |
| `Stats.EpochMakesFresh` | crates/tamad/src/stats.rs:325-350 | a run in which a clock at 0 gives a model never observed an observation time, and stamps a rate an hour old |
| `Stats.TokensAreConserved` | crates/tamad/src/stats.rs:254-305 | rate times span over all windows is the last parsed count less the first; failures, unknown bodies, skips and idle windows change nothing |
| `Migrate.EveryRowCounts` | crates/tama/src/migrate.rs:688-751 | every row is inserted, conflicts or fails |
| `Migrate.PutAnswers` | crates/tama/src/migrate.rs:761-802 | an inserted row is the last of its table; a conflicting or failing one changes nothing |
| `Migrate.Transaction.BuildInsert` | crates/tama/src/migrate.rs:761-802 | a statement lands all its rows or fails and poisons the transaction |
| `Migrate.FlushBatch` | crates/tama/src/migrate.rs:688-751 | a batch lands as its rows one by one, skips exactly the rows that fail, and leaves the transaction usable |
| `Migrate.ConvertRow` | crates/tama/src/migrate.rs:651-663 | converts the values up to the first that does not convert, and reports that one |
| `Migrate.ReadRowAnswers` | crates/tama/src/migrate.rs:641-672 | a row is copied with all its values converted, or skipped under its raw id with the first value's error |
| `Migrate.CopyTable` | crates/tama/src/migrate.rs:589-682 | the batched copy leaves the table of the row-by-row copy and the same skipped rows as a multiset; a drifted table is refused untouched, one that cannot be read to its end fails with its full batches inserted |
| `MigrateAccounts.ReportedExactly` | crates/tama/src/migrate.rs:674-681 | the reported count is the inserted rows plus the conflicts in retried batches; rows read are reported, skipped, or conflicts in batches that went through |
| `MigrateAccounts.ReportedByBatches` | crates/tama/src/migrate.rs:674-751 | the count goes by batches of 500: one without a failure reports its inserted rows, one with failures all its other rows |
| `MigrateAccounts.ReadIsInsertedPlusSkipped` | crates/tama/src/migrate.rs:643-681 | with fresh, distinct ids every row read is inserted or skipped, and the report is exact |
| `MigrateAccounts.EveryTableIsAccounted` | crates/tama/src/migrate.rs:371-401 | in a run over any list of tables without repeats: each count is the rows its table gained plus the conflicts in its retried batches; the rows read are the count, the skips that name the table, and the conflicts in batches that went through |
| `MigrateAccounts.EveryRowOfARun` | crates/tama/src/migrate.rs:371-401 | of the migration's own tables, with fresh and distinct ids, every row is inserted and counted or named in the report |
| `MigrateRun.CopyTables` | crates/tama/src/migrate.rs:371-401 | copies every table in turn, row by row in effect, and fails exactly if one drifted or cannot be read |
| `MigrateRun.Target.Migrate` | crates/tama/src/migrate.rs:371-452 | commits exactly if no table breaks, the sequences can be set and the server agrees, and otherwise leaves the target as it was; the report claims a commit exactly if no table broke |
| `MigrateRun.NextIdIsFresh` | crates/tama/src/migrate.rs:433-450 | after a commit no identity sequence hands out an id that exists |
| `MigrateRun.NextIdExactly` | crates/tama/src/migrate.rs:433-450 | the next id is one past the largest integer id, or 1 |
| `MigrateRun.SettableExactly` | crates/tama/src/migrate.rs:433-450 | the sequences can be set exactly if every next id, but that of `tamad_registry`, is one a 64-bit sequence can take |
| `JobManagers.ManagedJob.AppendLog` | crates/tama/src/web_types.rs:188-211 | run alone, the buffers stay the first 100 and the last 400 of the rest of the unbounded log, with the number in between |
| `JobManagers.OverlappingAppends` | crates/tama/src/web_types.rs:188-211 | however appends overlap, head, dropped lines and tail are the log in the order of arrival, and each line has arrived once or waits for the tail |
| `JobManagers.FinishBalancesExactly` | crates/tama/src/web_types.rs:215-240 | `finish` keeps the books exactly if it is called for the active job |
| `JobManagers.JobManager.Submit` | crates/tama/src/web_types.rs:129-168 | run alone, takes the one active slot for a fresh job, or names who holds it and changes nothing |
| `JobManagers.JobManager.Finish` | crates/tama/src/web_types.rs:215-240 | run alone: the record is final, the slot free, and the map loses exactly the jobs evicted beyond eight |
| `JobManagers.CallsAreSections` | crates/tama/src/web_types.rs:129-240 | the two methods are what the sections of the transition system do one after the other |
| `JobManagers.MapIsActivePlusLastEight` | crates/tama/src/web_types.rs:129-240 | however the calls overlap, if a job is finished at most once: every accepted job is in the slot, on its way out or finished, and whenever no call is half way the map is the job in the slot and the eight filed last |

## Left out

- WorldIds.IdsKept: a pid is never handed out twice, which an operating system does not promise.
- WorldVerdicts.OneVerdictPerProcess: asks for no late insert, because with one it is false (`WorldRaces.StaleGateRevivesRow`); the exact statement is `WorldVerdicts.VerdictsMoveForwardExactly`.
- WorldVerdicts.AtMostOneLanding: asks for landings in time; the converse does not hold, since a late landing may still be the first on its process. The exact half is `WorldVerdicts.SecondLandingIsLate`.
- WorldWindow.WindowRefinesLog: asks that no old books were written back; `WorldWindow.WindowIsLostExactly` says what the first such insert does. Later on a row may become right again when its deaths have left the window.
- WorldBudget.CrashLoopIsBounded: starts at a moment at which the model has no load in flight and no charge pending. Its converse is not stated: a late insert need not push the count past the cap, it may write back what is there, or undo a death that no later one joins. `WorldRaces.UncountedCrashLoop` shows that without the condition there is no bound.
- WorldBudget.VerdictIsAboutTheLog: from a moment at which the model is left alone, like the bound it serves.
- WorldTrip.MarkStopsRespawns: asks for no late insert; that the mark goes exactly with an insert computed from a row without it is `WorldTrip.MarkStaysExactly`, and `WorldRaces.MarkIsLost` respawns a model after it.
- WorldDisk.TripBarsBootIffWritten: of a model to which another write comes, the next boot finds what the last write left (`WorldDisk.BootFindsLastCommit`).
- Lifecycle.TamadLifecycle.Judge: one clock reading for the call, and no other task in between; the interleavings are the transition system's.
- Lifecycle.TamadLifecycle.SettleGate: as for Judge.
- Lifecycle.TamadLifecycle.ReconcileOnce: one clock reading for the whole pass, and no other task in between.
- Lifecycle.TamadLifecycle.ReplayDesired: which loads are launched; the permits and what becomes of the loads are the transition system's.
- JobRegistries.JobRegistry.Start: its four sections with no other call in between; the interleavings are the transition system's.
- JobEvents.LoneStartsKeepRings: for starts that do not overlap; exactly when the ring is whole is `JobEvents.RingIsWholeExactly`.
- StreamJob.EarlyOrLateTheSame: for starts that do not overlap; exactly when nothing is missed is `StreamJob.NothingMissedExactly`.
- Stats.StatsCollector.ScrapeSpec: the two clock reads after a parse, one for the span and one for the next start, are one.
- Migrate.FlushBatch: a savepoint that cannot be created, released or rolled back is not an outcome; like a torn source it fails the table, and with it the transaction.
- Migrate.CopyTable: the connection to the target does not fail; drift and a source that cannot be read to its end do.
- MigrateRun.CopyTables: the connection to the target does not fail, and the source's table names and row counts can be read.
- MigrateRun.Target.Migrate: as for CopyTables.
- MigrateAccounts.ReadIsInsertedPlusSkipped: distinctness is asked of the converted ids.
- MigrateAccounts.EveryRowOfARun: distinctness is asked of the converted ids, and that the engine reports a conflict only for an id that is taken.
- JobManagers.JobManager.Submit: no other call between its sections; overlapping calls are in `JobManagers.MapIsActivePlusLastEight`.
- JobManagers.JobManager.Finish: no other call between its sections; overlapping calls are in `JobManagers.MapIsActivePlusLastEight`.
- JobManagers.MapIsActivePlusLastEight: filing a job and evicting the ninth is one section; the code takes the map's lock for the eviction while it holds that of the order.
- `restart` reads the row and removes it in one step of `World`, and a manifest goes to disk and into the map in memory in one step.
- The wall clock does not go back: `World` has one clock, for the ages the reconciler judges and for the stamps of the restart window, and it never decreases.
- The supervisor runs queued respawns one after another; in `World` they may overlap. The results hold for more runs than there are, and the failing runs do not use it.
- A job id reaches nobody before `start` has returned it.
- A respawn already queued when its model is unloaded still runs; nothing is claimed about what runs after an unload.
- Signals, process groups, container identity checks and image pulls: a teardown has no outcome the table depends on.
- The argument, environment and path fields of a launch spec, which no decision reads.
- `unloading` rows: no modelled function writes that status.
- Broadcast lag, which the stream turns into an error item; the receiver here is handed every event.
- The waiting itself of `cancelled()`: a call waits exactly while the token it got is not fired.
- Non-ASCII whitespace at the start of a line and the grammar of floating-point numbers.
- Rounding: counters, rates and spans are reals.
- `metrics_url_for`: whether an endpoint has a metrics address is given with the process.
- Host CPU, memory, disk and GPU sampling.
- `convert_value` column by column and the SQL text: the converter and the engine's verdict on a row are parameters.
- Dry run, refusal checks and the bootstrap file of the migration.
- gRPC, authentication, docker, HTTP, logging and the web interface.
