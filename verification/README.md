# Safety arguments of PAW, verified

This project models the small state machines and algorithms on which the safety of
the PAW backend and of its benchmarks rests, and proves what they are there for.
Each module is one of them.

| module | what it is |
|---|---|
| `Slots`, `Database` | the gate in front of abortable database work, and its disposal |
| `Release`, `Rollback`, `Migrations` | updating and rolling back a release; the chain of migrations |
| `ProcessGroup`, `ProcessTree`, `LifecycleLog` | the worktree runner: whom it signals, whom it finds, what its log holds |
| `TrustedPath` | following a configured path through links without trusting anyone but root |
| `Stopwatch`, `CorrectionLog` | the event log of human corrections, as events and as text |
| `RateLimit`, `Egress` | the egress proxy: its limit on new connections and its byte accounts |
| `Alternates` | git's quoted list of object directories |
| `Approvals` | tool approvals under triggers, CHECK constraints and a unique index |
| `Worker` | one `extract` call at a time, each in a thread that cannot be stopped |
| `Ranking` | nDCG, recall and reciprocal rank over deduplicated, cut rankings |
| `Options` | the two result types the others share |

What runs concurrently is a state machine: a step is what one task, thread, process
or command does without interruption, and a claim holds at every point of every
interleaving. What the operating system, a command or another process may do is
chosen freely by the environment. What the source does by updating objects in
place is a class here, and each method is proved equal to a step of the machine.

`dafny verify dfyconfig.toml` checks everything.

## Where the code differs from what is said about it

- Exit 5 of an update is documented as "the system is left in maintenance"
  (apps/backend/deploy/release/paw_release.py:40). `Release.MaintenanceAfterExitFive`
  says exactly when that is so, `Release.ExitFiveWithoutMaintenance` gives a run in
  which it is not; `Rollback.MaintenanceAfterRollback` and
  `Rollback.RollbackWithoutMaintenance` do so for rollbacks.
- `schema_head` accepts migrations that revise each other below the head, and
  `chain` then never ends: `Migrations.CycleIsAccepted`. Acyclicity is exactly what is
  missing: `Migrations.ChainEndsIffAcyclic`.
- A rollback with no target named need not undo the last update: after A, B, a rollback
  to A and an update to C it goes to B (`Rollback.RollbackAfterRollback`).
  `Rollback.RollbackUndoesUpdate` says exactly when it does.
- `_resolve` follows a link to `f/` to the file `f`, where the system's own resolution
  fails: `TrustedPath.TrailingSlashIsForgiven`. `TrustedPath.RunsIff` says exactly when the
  system reaches what is returned, `TrustedPath.PlainPathsRun` what to check beforehand,
  and the two never reach different files: `TrustedPath.ResolvedIsWhatRuns`.
- A correction is validated as ASCII JSON and written as UTF-8 JSON, which leaves
  U+0085, U+2028 and U+2029 as they are, and `splitlines` breaks lines there. A record
  is one line exactly if its names are free of them (`CorrectionLog.AppendAddsOneLine`);
  other names are accepted too (`CorrectionLog.ExoticNameIsAccepted`), and such a record
  leaves a log that no reader accepts: `CorrectionLog.AcceptedReplaysIff`.
- The process search keeps no set of visited processes. It ends exactly if the root is
  not its own ancestor: `ProcessTree.EndsIff`.

## Model

| member | source | states |
|---|---|---|
| Slots.Gate.Acquire | apps/backend/paw_backend/db.py:99-112 | takes a free slot or queues behind everyone, nothing else |
| Slots.Gate.Release | apps/backend/paw_backend/db.py:122-131 | refuses when no slot is in use; otherwise its loop is `Serve`, whose effect is stated by ServeHandsToOldest |
| Slots.Gate.Continue | apps/backend/paw_backend/db.py:107-120 | a waiter that was handed a slot holds it, or, cancelled meanwhile, passes it on; one that was not leaves the queue |
| Slots.Gate.FailWaiters | apps/backend/paw_backend/db.py:133-139 | every pending waiter fails and the queue is empty; finished waiters are left alone |
| Slots.StepKeeps | apps/backend/paw_backend/db.py:81-139 | no enabled stretch raises and each keeps the invariant of the gate |
| Slots.SlotsAreAccountedFor | apps/backend/paw_backend/db.py:71-139 | in every interleaving: slots in use are holders plus handed-but-not-resumed waiters, at most the size; nobody waits while a slot is free; no waiter is forgotten |
| Slots.ServeHandsToOldest | apps/backend/paw_backend/db.py:122-131 | a release serves the oldest live waiter and changes no other call, or frees the slot when there is none |
| Slots.NobodyOvertakes | apps/backend/paw_backend/db.py:99-131 | in every run, whoever comes to own a slot is the oldest call still waiting, or a newcomer when nobody waits |
| Slots.CancelledNeverHolds | apps/backend/paw_backend/db.py:71-120 | a call cancelled while it waits, before or after a slot was handed to it, never holds one, however the run goes on |
| Slots.EachToItsOwn | apps/backend/paw_backend/db.py:99-139 | over runs, what becomes of the call of each stretch: an arrival takes a free slot or waits, a waiter handed a slot and not cancelled holds it, every other one that runs again is over, a cancellation ends a pending wait, failing leaves nobody pending |
| Slots.GiveBackServes | apps/backend/paw_backend/db.py:117-131 | a slot given back, by a holder or by a cancelled owner, goes only to the oldest pending waiter |
| Database.Pool.BeginCall | apps/backend/paw_backend/db.py:253-269 | a call is refused while a disposal runs; otherwise it enters the gate with the disposal count it saw |
| Database.Pool.ContinueCall | apps/backend/paw_backend/db.py:253-269 | a resumed call that spans a disposal gives its slot back and starts nothing; the invariant is kept |
| Database.Pool.StartTask | apps/backend/paw_backend/db.py:471-498 | with the slot in hand: refuses after a disposal, gives the slot back if the task cannot be created, otherwise starts and registers it (see NewCall and ResumedCall) |
| Database.Pool.ReleaseCallback | apps/backend/paw_backend/db.py:471-498 | a finished task's callback gives back its slot, once |
| Database.Pool.StartDispose | apps/backend/paw_backend/db.py:624-662 | every waiter fails and every registered task is aborted, by a loop over the tasks |
| Database.StepKeeps | apps/backend/paw_backend/db.py:391-498 | no enabled stretch of calls, tasks, callbacks and disposals raises, and each keeps the invariant |
| Database.NewCall | apps/backend/paw_backend/db.py:253-269 | over runs: during a disposal a call changes nothing; otherwise with a free slot it starts its task, or gives the slot back if that cannot be created; with none it waits |
| Database.ResumedCall | apps/backend/paw_backend/db.py:253-269 | over runs: a waiter starts its task exactly if it was handed a slot, was not cancelled, no disposal began since it called and the task can be created; otherwise it is over and the slot is free or with the oldest waiter |
| Database.TaskLife | apps/backend/paw_backend/db.py:408-498 | a task abandoned by its caller is told to stop and keeps its slot; an ended one keeps it until its callback |
| Database.LiveTasksAreBounded | apps/backend/paw_backend/db.py:408-431 | in every run live tasks never exceed the pool size, whatever became of their callers |
| Database.NothingStartsDuringDispose | apps/backend/paw_backend/db.py:624-643 | no task starts between the start and the end of any disposal, and whatever is live then was told to stop |
| Database.NobodyQueuesDuringDispose | apps/backend/paw_backend/db.py:624-643 | while a disposal runs nobody waits for a slot: it failed those who did, and nobody joins |
| Database.SpanningCallStartsNothing | apps/backend/paw_backend/db.py:253-269 | a call waiting when a disposal begins never starts a task nor keeps a slot, however the run goes on |
| Database.DoomedStays | apps/backend/paw_backend/db.py:253-269 | no step rescues such a call |
| Migrations.SchemaHead | apps/backend/deploy/release/paw_release.py:373-385 | accepts exactly the schemas with at most one head and no unknown down revision; the head is the one revised by none |
| Migrations.BuildChain | apps/backend/deploy/release/paw_release.py:297-304 | the loop computes `Chain`, characterised by ChainListsEverything |
| Migrations.PathBetween | apps/backend/deploy/release/paw_release.py:306-316 | the loop computes `Path`, characterised by the lemmas on paths |
| Migrations.ChainListsEverything | apps/backend/deploy/release/paw_release.py:297-304 | for an accepted acyclic schema the chain lists every migration exactly once, each directly above the one it revises |
| Migrations.ChainEndsIffAcyclic | apps/backend/deploy/release/paw_release.py:297-304 | among accepted schemas, acyclic if and only if the loop ends having listed everything |
| Migrations.CycleIsAccepted | apps/backend/deploy/release/paw_release.py:373-385 | a concrete cyclic schema that is accepted and on which the loop never ends |
| Migrations.ChainIsDistinct | apps/backend/deploy/release/paw_release.py:297-304 | a chain that ends never returns to a revision |
| Migrations.PathDescends | apps/backend/deploy/release/paw_release.py:306-316 | a path is no longer than the drop in rank |
| Migrations.PathsCompose | apps/backend/deploy/release/paw_release.py:306-316 | the path a to c is the path a to b followed by the path b to c |
| Migrations.PathsSplit | apps/backend/deploy/release/paw_release.py:306-316 | of two paths down from a, the longer one goes on from the end of the shorter one |
| Migrations.PathIsChainPrefix | apps/backend/deploy/release/paw_release.py:297-316 | the path from the top of a chain to its i-th revision is the part of the chain above it |
| Migrations.PathFromHead | apps/backend/deploy/release/paw_release.py:297-316 | from the head every known revision is reached by the chain above it; every unknown one is refused |
| Migrations.UnknownIsRefused | apps/backend/deploy/release/paw_release.py:306-316 | no path leads to a revision the schema does not know |
| Release.Operation.Run | apps/backend/deploy/release/paw_release.py:1144-1246 | exit code, world and trace of the statements are those of the step-by-step machine, for every script of outcomes (see ExitCodeIsDecided and ExitCodeDescribesWorld) |
| Release.Operation.RunCommands | apps/backend/deploy/release/paw_release.py:1144-1246 | every branch follows the machine from maintenance to its exit |
| Release.Operation.StopAndLaunch | apps/backend/deploy/release/paw_release.py:1182-1246 | the part from the stop on follows the machine |
| Release.Operation.MigrateAndLaunch | apps/backend/deploy/release/paw_release.py:1196-1246 | the branch with a migration follows the machine |
| Release.Operation.MakePoint | apps/backend/deploy/release/paw_release.py:1196-1221 | goes on to the migration only with a restore point created, verified and on record |
| Release.Operation.Abort | apps/backend/deploy/release/paw_release.py:1248-1261 | follows the machine's way back before the switch |
| Release.Operation.RollBack | apps/backend/deploy/release/paw_release.py:1263-1305 | follows the machine's way back after the switch |
| Release.Operation.Command | apps/backend/deploy/release/paw_release.py:1085-1112 | one command is one step of the machine, whatever its outcome |
| Release.StepKeeps | apps/backend/deploy/release/paw_release.py:1144-1305 | every step of an update keeps the invariant that the exit codes rest on |
| Release.UpdateInv | apps/backend/deploy/release/paw_release.py:1144-1305 | every update ends, with the invariant |
| Release.ExitCodeDescribesWorld | apps/backend/deploy/release/paw_release.py:1144-1305 | for every outcome of every command: 0, 3, 4 and 5 each imply their final link, served release, revision, known-good list, maintenance and record |
| Release.ExitCodeIsDecided | apps/backend/deploy/release/paw_release.py:1144-1305 | the exit code is decided by the commands that failed: none, 0; one before the target was touched, 3; only the migration, start or health of the target, 4; the end of the maintenance, or more than one, 5 |
| Release.GoodUpdateIsInstalled | apps/backend/deploy/release/paw_release.py:1144-1246 | if every command does what it is asked and the schema is at the revision the plan read, the update exits 0 |
| Release.MigrationIsAlwaysUndoable | apps/backend/deploy/release/paw_release.py:1144-1305 | in every run a stop follows the maintenance, the drain (unless told to stop at once) and the backup; a migration follows a stop and a verified restore point of that very database; a restore follows the stop of what may be running; the link moves only while nothing is served |
| Release.MaintenanceAfterExitFive | apps/backend/deploy/release/paw_release.py:1113-1125 | after exit 5 maintenance is on if and only if beginning it had taken effect and no failed end of it had |
| Release.ExitFiveWithoutMaintenance | apps/backend/deploy/release/paw_release.py:1113-1125 | a script under which an update exits 5 with no maintenance on |
| Release.RunLeadsToEnd | apps/backend/deploy/release/paw_release.py:1144-1305 | the recorded states of the statements lead to the machine's final state |
| Rollback.Operation.Run | apps/backend/deploy/release/paw_release.py:1332-1408 | exit code, world and trace are those of the step-by-step machine |
| Rollback.Operation.Drained | apps/backend/deploy/release/paw_release.py:1332-1372 | the part up to the stop follows the machine |
| Rollback.Operation.GoBack | apps/backend/deploy/release/paw_release.py:1372-1408 | the part from the stop on follows the machine |
| Rollback.Operation.Resume | apps/backend/deploy/release/paw_release.py:1321-1330 | ending the maintenance, or leaving it on record when that fails |
| Rollback.EventuallyHolds | apps/backend/deploy/release/paw_release.py:1332-1408 | every rollback ends, with its invariant |
| Rollback.ExitCodeDescribesRollback | apps/backend/deploy/release/paw_release.py:1308-1408 | 0: the target serves healthily at the expected revision, restored if asked; 3: nothing touched, with link, served release, schema revision and maintenance as found; 5: still on record; known-good never changes |
| Rollback.RollbackExitIsDecided | apps/backend/deploy/release/paw_release.py:1332-1408 | the exit code is decided by the commands that failed: none, 0; only the beginning of the maintenance or the drain, 3; anything else, 5 |
| Rollback.MaintenanceAfterRollback | apps/backend/deploy/release/paw_release.py:1332-1408 | after exit 5 maintenance is on if and only if it was found or its beginning took effect, and no failed end of it did |
| Rollback.RollbackWithoutMaintenance | apps/backend/deploy/release/paw_release.py:1332-1408 | a script under which a rollback exits 5 with no maintenance on |
| Rollback.RestoreNeedsStop | apps/backend/deploy/release/paw_release.py:1332-1408 | the stop comes right after a successful drain in a maintenance found or begun; a restore runs only right after the stop, the link moves only while nothing is served, nothing is migrated |
| Rollback.DefaultAfterUpdate | apps/backend/deploy/release/paw_release.py:529-533 | marking keeps the known-good list free of repetitions; the default rollback then goes to the last known-good release other than the one just installed |
| Rollback.RollbackUndoesUpdate | apps/backend/deploy/release/paw_release.py:873-895 | it goes back to the release the update replaced if and only if that one is known good and no other became so after it |
| Rollback.RollbackAfterRollback | apps/backend/deploy/release/paw_release.py:873-895 | a list and a sequence of operations after which it goes elsewhere |
| Rollback.DefaultTargetIsOlder | apps/backend/deploy/release/paw_release.py:873-895 | each default target is the next older known-good release, so going back repeatedly ends |
| Rollback.WithoutKeeps | apps/backend/deploy/release/paw_release.py:529-533 | taking a version out of the list keeps the others and, unless it was last, the last one |
| ProcessGroup.Supervisor.SignalGroup | benchmarks/worktree_runner.py:190-210 | decides as `Decide` does, whose answer over runs is stated by SignalledIff |
| ProcessGroup.Supervisor.Refresh | benchmarks/worktree_runner.py:138-148 | records the members seen in the group while the number is the leader's |
| ProcessGroup.Supervisor.GiveUpNumber | benchmarks/worktree_runner.py:150-154 | takes a last look at the group, then never uses the number again |
| ProcessGroup.SetDefaults | benchmarks/worktree_runner.py:138-148 | the loop adds the members seen and keeps the start times already recorded |
| ProcessGroup.StepKeeps | benchmarks/worktree_runner.py:96-242 | forks, exits, reaping by anyone, reuse of numbers and the leader's own steps all keep the invariant |
| ProcessGroup.SignalIsSafe | benchmarks/worktree_runner.py:184-210 | under the invariant a signal reaches only processes of the candidate's own group |
| ProcessGroup.NoStrangerIsSignalled | benchmarks/worktree_runner.py:96-210 | in every run, also when the number goes to another group while the runner still takes it for its own, a signal reaches only processes of the launched candidate's group |
| ProcessGroup.SignalledIff | benchmarks/worktree_runner.py:180-210 | in every run a signal is sent if and only if the start time is known and either the number is not given up, the leader not reaped by the runner, readable and still there, or the table shows a living member on record; otherwise the number is given up, and the status is lost unless the runner has it |
| ProcessGroup.OursIsLeader | benchmarks/worktree_runner.py:643-663 | the check of identity finds the launched leader and nobody else, also after its number went to another child |
| ProcessGroup.LivingLeaderIsSignalled | benchmarks/worktree_runner.py:156-210 | and it is not withheld while the leader is an unreaped child whose start time is known and readable |
| ProcessGroup.SeenMemberIsSignalled | benchmarks/worktree_runner.py:138-210 | a process found in the group, even by the last look before the number was given up, makes every later signal go out while the table shows it living there |
| ProcessTree.DescendantPids | benchmarks/worktree_runner.py:773-785 | for a root that is not its own ancestor: exactly its transitive children, with their start times; no process is taken twice |
| ProcessTree.ChildLists | benchmarks/worktree_runner.py:776-778 | the dictionary holds, for every process, its children in table order |
| ProcessTree.AddChildren | benchmarks/worktree_runner.py:781-784 | the inner loop notes and queues all children of the process taken |
| ProcessTree.TurnKeeps | benchmarks/worktree_runner.py:780-785 | each turn keeps: nothing pending twice, found processes are exactly the children of those looked at |
| ProcessTree.TurnShrinks | benchmarks/worktree_runner.py:780-785 | each turn finds a new process or leaves fewer pending |
| ProcessTree.EndsIff | benchmarks/worktree_runner.py:773-785 | the unguarded loop ends if and only if the root is not its own ancestor |
| ProcessTree.NeverEnds | benchmarks/worktree_runner.py:780-785 | on a cycle through the root something is pending after any number of turns |
| LifecycleLog.RunLog.AppendToLog | benchmarks/worktree_runner.py:1052-1102 | every branch of opening, checking, writing and closing; identity and size change only after all bytes were taken |
| LifecycleLog.RunLog.WriteAll | benchmarks/worktree_runner.py:1083-1086 | the write loop puts exactly the bytes taken, in order, behind the file; how many is stated by WrittenIsSum |
| LifecycleLog.WrittenIsSum | benchmarks/worktree_runner.py:1083-1084 | however short the writes, all bytes are written if the writes add up to them, and otherwise as many as they add up to |
| LifecycleLog.SucceedsIff | benchmarks/worktree_runner.py:1052-1102 | on a usable log an append succeeds if and only if opening, looking, closing and the sum of the writes allow it, and the file then ends with the whole record |
| LifecycleLog.AppendCases | benchmarks/worktree_runner.py:1052-1102 | an append tears its record exactly in the named cases; otherwise it does nothing or adds all of it |
| LifecycleLog.SealedIsExact | benchmarks/worktree_runner.py:1059-1082 | a log is sealed if and only if no append can ever succeed |
| LifecycleLog.SealedIffTorn | benchmarks/worktree_runner.py:1052-1102 | without outside writes the log stops being usable exactly when a record is torn, the first one included |
| LifecycleLog.SealedForever | benchmarks/worktree_runner.py:1059-1082 | from a sealed state on no append changes a byte or succeeds |
| LifecycleLog.UsableIsWhole | benchmarks/worktree_runner.py:1052-1102 | a usable log is what was there and whole records, in order |
| LifecycleLog.WholeRecordsThenOneTorn | benchmarks/worktree_runner.py:1052-1102 | without outside writes the file is whole records and part of at most one more, after which it never changes |
| LifecycleLog.WritesOnlyBehindItself | benchmarks/worktree_runner.py:1068-1082 | whatever others do to the path, bytes go only into a new file or behind the inode and length an earlier append left in full |
| TrustedPath.ResolvePath | apps/backend/paw_backend/runtime_config.py:623-684 | the loop ends on every file system and computes `Resolve`, characterised by ResolveIff against a reference that shares only `Split` with it |
| TrustedPath.SplitIsExact | apps/backend/paw_backend/runtime_config.py:623-640 | the components of a text hold no slash and joined with slashes are the text |
| TrustedPath.LinkIsFollowed | apps/backend/paw_backend/runtime_config.py:655-668 | a link is followed from the directory that holds it, or from the root if its target begins with a slash |
| TrustedPath.WalkIsSound | apps/backend/paw_backend/runtime_config.py:623-701 | what is returned is a regular file that is root's and that nobody else may write to, and pathname resolution reaches it through directories that are all root's, not writable by group or others, and not sticky |
| TrustedPath.WalkNames | apps/backend/paw_backend/runtime_config.py:645-684 | the names returned are those of every link followed in the last place, in order, and of the file |
| TrustedPath.ResolvedNames | apps/backend/paw_backend/runtime_config.py:623-684 | the same for a whole path: the names the check for launchers looks at |
| TrustedPath.WalkIsComplete | apps/backend/paw_backend/runtime_config.py:623-701 | what pathname resolution so reaches within the link limit is returned |
| TrustedPath.ResolveIff | apps/backend/paw_backend/runtime_config.py:623-701 | a file is returned if and only if resolution as in section 4.13 of the Base Definitions of POSIX.1-2017, forgiving about a trailing slash, reaches it within eight links, file and directories have these owners and modes |
| TrustedPath.StrictAgrees | apps/backend/paw_backend/runtime_config.py:623-684 | resolution that is strict about a trailing slash fails or agrees, under any higher link limit |
| TrustedPath.ResolvedIsWhatRuns | apps/backend/paw_backend/runtime_config.py:623-684 | whenever the system's own resolution succeeds it ends at the file returned |
| TrustedPath.StrictIff | apps/backend/paw_backend/runtime_config.py:623-684 | a file reached forgivingly is reached strictly if and only if neither the path nor a link followed in the last place ends in a slash or "." |
| TrustedPath.RunsIff | apps/backend/paw_backend/runtime_config.py:623-684 | the system's own resolution reaches the file returned if and only if neither the path nor a link followed in the last place ends in a slash or "." |
| TrustedPath.PlainPathsRun | apps/backend/paw_backend/runtime_config.py:623-684 | if no link on the host and not the path ends so, whatever is resolved is what the system resolves |
| TrustedPath.TrailingSlashIsForgiven | apps/backend/paw_backend/runtime_config.py:640-684 | a link to `f/` is followed where the system refuses it |
| TrustedPath.WalkIsStable | apps/backend/paw_backend/runtime_config.py:623-701 | the walk depends on nothing that others than root can change by the rules of owners and write permission |
| TrustedPath.OnlyRootRedirects | apps/backend/paw_backend/runtime_config.py:623-701 | whatever others than root change by those rules, the path resolves, or is refused, as before |
| TrustedPath.OnlyRootRewrites | apps/backend/paw_backend/runtime_config.py:623-701 | and the file found keeps its owner, mode and content |
| Stopwatch.ReplayLines | benchmarks/human_correction.py:164-202 | the loop over lines computes `Replayed`, characterised below |
| Stopwatch.SessionIdsAreUnique | benchmarks/human_correction.py:130-161 | on valid names, which hold no slash, different models, tasks or runs never share a session id |
| Stopwatch.AcceptedIffEachSessionIs | benchmarks/human_correction.py:164-222 | a log is accepted if and only if times do not go back, every event names a session and each session's own events are acceptable |
| Stopwatch.AcceptedIffInOrder | benchmarks/human_correction.py:164-222 | a log is accepted if and only if times do not go back, every event names a session, and each session begins properly and goes on by legal pairs of consecutive events |
| Stopwatch.ReplayGives | benchmarks/human_correction.py:164-222 | each session of an accepted log is what its own events make of it |
| Stopwatch.SessionStandsAlone | benchmarks/human_correction.py:164-222 | a session in the full replay equals the replay of its events alone |
| Stopwatch.AloneIsAccounted | benchmarks/human_correction.py:205-222 | a session's fields account for the gaps between its own events |
| Stopwatch.TimeAddsUp | benchmarks/human_correction.py:82-108 | names come from the first event and pauses are counted; active plus paused time is end minus start; each outcome exactly from the last event and the cap; the metric lies within 0 and the cap and is the active time exactly for an accepted outcome |
| CorrectionLog.LogFile.Record | benchmarks/human_correction.py:281-300 | validates the new event behind the old lines, then appends it with the missing newline, or changes nothing |
| CorrectionLog.DumpsReadsBack | benchmarks/human_correction.py:292-299 | what is written is read back, by the string rules of section 7 of RFC 8259, as exactly the fields given |
| CorrectionLog.DumpsIsOneLine | benchmarks/human_correction.py:299-300 | the written JSON is one line if and only if no name holds U+0085, U+2028 or U+2029 |
| CorrectionLog.AppendAddsOneLine | benchmarks/human_correction.py:281-300 | the new text splits into the old lines and the new one if and only if the names are free of these |
| CorrectionLog.AppendReplays | benchmarks/human_correction.py:281-300 | what a later reader replays is what validating the append returned |
| CorrectionLog.SameDocument | benchmarks/human_correction.py:296-299 | the form validated and the form written replay alike |
| CorrectionLog.RecordsReplay | benchmarks/human_correction.py:281-300 | after any accepted records a log that replayed still replays, to the old lines followed by the new ones |
| CorrectionLog.RecordsSplit | benchmarks/human_correction.py:281-300 | after any accepted records the text splits into the old lines, at most one blank one and the new ones, and replays to what validating the last one returned |
| CorrectionLog.ExoticNameBreaksLog | benchmarks/human_correction.py:296-299 | behind any text, a record with one of the three boundaries in a name leaves a log that no reader accepts, for every decoder that takes no proper beginning of an object for a document |
| CorrectionLog.AcceptedReplaysIff | benchmarks/human_correction.py:281-300 | of the records accepted, exactly those with names free of the three boundaries leave a log that replays |
| CorrectionLog.ExoticNameIsAccepted | benchmarks/human_correction.py:156-161 | a name with U+2028 in it is valid and its session is accepted |
| CorrectionLog.SplitAfterBoundary | benchmarks/human_correction.py:241-246 | text that ends a line splits off from whatever follows |
| CorrectionLog.NewlineCloses | benchmarks/human_correction.py:290-300 | the newline repair ends the last line, and adds a blank one only behind another boundary |
| RateLimit.Limiter.Ask | apps/backend/deploy/egress/paw_egress.py:359-368 | the loop over the deque computes `TooFast` and `After`, characterised by the next three |
| RateLimit.AdmittedAreSpaced | apps/backend/deploy/egress/paw_egress.py:359-368 | for all arrival times, any `max + 1` consecutive admitted connections span at least a second |
| RateLimit.DroppedIff | apps/backend/deploy/egress/paw_egress.py:359-368 | an arrival is turned away if and only if `max` were admitted within the second before it |
| RateLimit.NoSecondHoldsMore | apps/backend/deploy/egress/paw_egress.py:359-368 | no second, wherever it starts, sees more than `max` admissions |
| Egress.EgressProxy.Accept | apps/backend/deploy/egress/paw_egress.py:381-404 | a connection is dropped and counted, numbered and refused, or numbered and served |
| Egress.EgressProxy.TakeDelta | apps/backend/deploy/egress/paw_egress.py:247-251 | returns what the lines have not carried and marks all as carried |
| Egress.EgressProxy.ReportProgress | apps/backend/deploy/egress/paw_egress.py:454-457 | one progress line with the delta |
| Egress.EgressProxy.FinishTunnel | apps/backend/deploy/egress/paw_egress.py:450-452 | the totals grow by the whole tally, the final line carries the rest |
| Egress.EgressProxy.ReportDropped | apps/backend/deploy/egress/paw_egress.py:324-330 | the drops since the last rate line are reported once |
| Egress.LinesAndRemainder | apps/backend/deploy/egress/paw_egress.py:238-251 | at every moment of every interleaving, bytes on a connection's lines plus the unlogged rest are the bytes pumped |
| Egress.FinalLineIsExact | apps/backend/deploy/egress/paw_egress.py:427-457 | at the final line a connection's lines sum to what is added to the totals and to what was pumped |
| Egress.SummaryIsExact | apps/backend/deploy/egress/paw_egress.py:331-357 | once every handler is over, totals are all lines and all bytes; refusals, drops and arrivals add up |
| Egress.ArrivalIs | apps/backend/deploy/egress/paw_egress.py:359-404 | an arrival is dropped if and only if the allowed number was admitted within the last second; otherwise it is served if and only if fewer are served than allowed and the host has a slot |
| Egress.ServedAreBounded | apps/backend/deploy/egress/paw_egress.py:393-410 | the active count is the connections being served, never more than allowed |
| Alternates.Parse | apps/backend/deploy/sandbox/paw_git_front.py:229-251 | the scan advances on every input and computes `Entries`, characterised by RoundTrip |
| Alternates.ReadEntry | apps/backend/deploy/sandbox/paw_git_front.py:236-246 | one turn reads a comment, a quoted path, or a plain one (also where quoting is broken) |
| Alternates.Find | apps/backend/deploy/sandbox/paw_git_front.py:254-256 | the first occurrence, or the end |
| Alternates.UnquoteAt | apps/backend/deploy/sandbox/paw_git_front.py:259-285 | the loop decodes raw bytes, letter and octal escapes up to the closing quote, or refuses |
| Alternates.DecodesPath | apps/backend/deploy/sandbox/paw_git_front.py:259-285 | every way of quoting a path, byte by byte raw, by letter or in octal, is undone up to its first NUL |
| Alternates.UnquotedIsQuoted | apps/backend/deploy/sandbox/paw_git_front.py:259-285 | and nothing else unquotes: what does is a path so written, a closing quote and the rest |
| Alternates.QuotedIff | apps/backend/deploy/sandbox/paw_git_front.py:229-285 | an entry that starts with a quote is unquoted if and only if it is a quoting; what is not is taken as it is, up to the next colon |
| Alternates.ReadsItem | apps/backend/deploy/sandbox/paw_git_front.py:229-285 | the first item of a written list is read back, up to its separator |
| Alternates.RoundTrip | apps/backend/deploy/sandbox/paw_git_front.py:229-285 | any list of quoted, plain and comment entries joined by colons is read back as exactly the directories it names |
| Approvals.ToolApprovals.Change | apps/backend/migrations/versions/0031_tool_approvals.py:72-155 | whatever is attempted, the table stays consistent, no row is lost, no row's call changes, and at most one row goes on in its life, to what was written |
| Approvals.HistoryKeeps | apps/backend/migrations/versions/0031_tool_approvals.py:252-313 | every table of every history satisfies the constraints and the uniqueness of open calls |
| Approvals.OneOpenRequestPerCall | apps/backend/migrations/versions/0031_tool_approvals.py:272-313 | at any time each call hash has at most one open row, and only the delegating user, never the agent, is an approver |
| Approvals.RowsAreKept | apps/backend/migrations/versions/0031_tool_approvals.py:87-155 | a row is never lost, its call and task run never change, it changes at most twice, and never once closed |
| Approvals.ConsumedWasApproved | apps/backend/migrations/versions/0031_tool_approvals.py:72-155 | a consumed row was inserted pending, approved by its requester (with step-up if strong), then consumed exactly once, for the same call, with nothing in between |
| Approvals.LegalChanges | apps/backend/migrations/versions/0031_tool_approvals.py:109-155 | approving, rejecting, consuming, revoking and expiring pass if and only if the row's state, the user and the step-up allow it |
| Approvals.RequestPasses | apps/backend/migrations/versions/0031_tool_approvals.py:252-313 | a request passes if and only if its hash, expiry, agent, run and summary are well formed, its id is new, and its call has no open one |
| Approvals.OwnColumnsOnly | apps/backend/migrations/versions/0031_tool_approvals.py:116-152 | each change of state sets its own columns and leaves all others as they were |
| Approvals.ColumnsSayStatus | apps/backend/migrations/versions/0031_tool_approvals.py:272-299 | along every history the columns of a row agree with its status |
| Worker.RunBenchmark | benchmarks/memory_worker_runner.py:357-440 | a report with the right result for every case in order, or none exactly if a case stops the run or there are no cases |
| Worker.CallsNeverOverlap | benchmarks/memory_worker_runner.py:331-354 | whatever the thread timing, two `extract` calls never execute at once, and none does when the next one starts or the report is made |
| Worker.SeenIsReported | benchmarks/memory_worker_runner.py:341-419 | what the runner's wait returned decides the case for good: after a time-out no output, also when one comes late; after an end exactly that outcome |
| Worker.ReportIsComplete | benchmarks/memory_worker_runner.py:395-419 | a report has one result per case in order, each right for the one thing seen of that case: its own call's output, or empty predictions if that call failed or timed out |
| Worker.RaisedIff | benchmarks/memory_worker_runner.py:341-419 | a run is stopped by exactly four things: another exception, a thread still there after the join, an end that is not an Exception, an empty list of cases; every other wait and join goes on |
| Worker.MachineIsLoop | benchmarks/memory_worker_runner.py:357-419 | the results of a reported run of runner and threads are what the loop returns, and all it can return, on what was seen in that run |
| Worker.StepKeeps | benchmarks/memory_worker_runner.py:309-419 | every action of the runner and of every thread keeps the invariant |
| Ranking.ReciprocalRank | benchmarks/retrieval_metrics.py:51-60 | the reciprocal of the first relevant position; zero if and only if nothing relevant is ranked |
| Ranking.DedupeIs | benchmarks/retrieval_runner.py:338 | every id once, and no other |
| Ranking.DedupeExtends | benchmarks/retrieval_runner.py:338 | ids that come later never change the order of earlier ones |
| Ranking.GainIsBounded | benchmarks/retrieval_metrics.py:74-78 | hits gain at most what they would in front, and that much if and only if they are in front |
| Ranking.NdcgIsBounded | benchmarks/retrieval_metrics.py:63-82 | nDCG is in 0..1 for any positive strictly decreasing discount; 1 if and only if the first min(relevant, k) positions are all relevant; 0 if and only if nothing relevant is found |
| Ranking.EveryListIsScored | benchmarks/retrieval_runner.py:338-352 | the same for whatever a retriever returns, unchanged by ids after k different ones |
| Ranking.MetricsAgree | benchmarks/retrieval_metrics.py:40-82 | recall is 0 exactly when nDCG is, 1 exactly when everything relevant is found, and the best possible when nDCG is 1 |
| Ranking.EarlierIsBetter | benchmarks/retrieval_metrics.py:63-82 | exchanging an irrelevant id for a relevant one further down strictly raises nDCG and keeps recall |

## Left out

- What SQLAlchemy, psycopg, sockets and server-side timeouts do: a database task is running, aborted or ended.
- Readiness probes and `check()` in db.py: they take no slot and share only the registry of tasks to abort.
- Database.Pool.StartTask: `run_abortable` gives the slot back when creating its task raises and `_abortable` (apps/backend/paw_backend/db.py:408-431) does not; the model follows the first, so a slot lost by such a failure in the second is not captured.
- Disposal of the engines after the tasks have stopped, and errors while closing them.
- `install`, `end_maintenance`, `prune_restore_points`, `steps_between`, the plan's checks, `history.jsonl` and the `stage` field of the release tool; its polling for health is one command with one outcome.
- A failure to write `state.json` (exit 2), and a crash of the release tool between two commands.
- ProcessGroup.NoStrangerIsSignalled: the check and the signal are one step, a pid and its start time name one process for good, and the runner does not record members between a reuse of its group number and giving the number up; these gaps are documented in benchmarks/README.md:118-128 and in the source (benchmarks/worktree_runner.py:106-113).
- `_signal_identified` and the drain of pipes in the worktree runner.
- LifecycleLog.WholeRecordsThenOneTorn: an endless sequence of writes that take nothing, in which the loop would not end; an append as a whole is one step, as the lock makes it for the runner's own threads.
- ProcessTree.DescendantPids: requires that the root is not its own ancestor, which ProcessTree.EndsIff shows to be exactly what the loop needs; the table is taken as read.
- TrustedPath.ResolvePath: the file system does not change during one resolution; reads of different directories are not separate steps.
- Times in the stopwatch are whole milliseconds; parsing of time stamps, locking and file modes of the correction log and `summary` are not modelled.
- CorrectionLog.AppendReplays: decoding is a parameter, assumed to read the two written forms of an event alike and no proper beginning of one as a document; universal newline translation is not modelled.
- Decoding of the environment variable to text in `_alternates`: the list is the bytes git sees.
- How the proxy reads requests, resolves names and splices sockets; a cancellation that lands inside the teardown of a tunnel.
- `tool_approval_events`, privileges, and a statement that changes several rows at once other than as a sequence of single changes.
- Latencies and metrics collection of the memory worker; the comparison of memories with the gold ones; the JSON schema is a parameter.
- Floating-point rounding: metrics and clock times are reals.
- The rest of the repository: HTTP application, web front end, configuration sections, SSH wrapper, other migrations, benchmark data and command lines.
