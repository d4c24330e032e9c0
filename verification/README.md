# Verification of Bazarr's shared state

Eight components of Bazarr keep state that several threads, several runs or several
crashes act on. Each is modelled here as the state machine its code is, and the main
statements its comments make about it are proved, or corrected, for every input, every
run and every interleaving.

| files | component |
|---|---|
| `OwnershipLog`, `OwnershipPrecision`, `OwnershipDatabase` | the change log of the ownership tables, its triggers and the bulk delete |
| `OwnershipInstall`, `OwnershipSafety`, `OwnershipGuarantees`, `OwnershipThreads`, `OwnershipSchema` | installing those triggers statement by statement beside readers, writers, bulk deletes and other threads |
| `OwnershipReader` | reading the tables and the log select by select while others write |
| `OwnershipReinstall`, `OwnershipBounds` | exactly when replacing the triggers is safe; how large the log can get |
| `JobsModel`, `JobsTheorems`, `JobsProgress`, `JobsEffects`, `JobsQueue` | the jobs queue |
| `RotatingLog`, `RotatingTheorems`, `RotatingRolls`, `RotatingFile` | the rotating log file and its folder |
| `SignalrLifecycle`, `FeedQueue` | starting and stopping a SignalR feed; dropping repeated events |
| `ChunkRelay` | relaying a request body in bounded chunks |
| `Activity`, `ActivityEffects` | the activity registry |
| `Throttle` | the provider throttle table |
| `Backfill` | the startup backfill of default instances |
| `Common` | shared datatypes |

The form is the same throughout. A datatype holds the state, and a function gives the
state after each step, one step for each locked section, statement or commit. A class
holds the same fields and updates them in place as the code does; each of its methods
is proved to reach exactly the state the function gives. The lemmas then speak about
runs of that function. A few fields are history the code does not keep (what was ever
reported, written, dropped or forced); no branch reads them.

What the proofs turned up, where the code does less than its comments say:

- A bulk delete leaves what the row triggers would have left if and only if none of them
  is on, or it dooms no tracked `arr_instances` row and either dooms some tracked row or
  the full-resync marker is already there (`OwnershipDatabase.BulkRefinesRowByRow`). Its
  one caller (bazarr/arr_instances/repository.py:501-507) dooms media rows only.
- Installing the triggers one statement at a time is safe beside readers and writers if
  and only if a trigger of the table replaced last is missing when it starts
  (`OwnershipReinstall.StatementwiseInstallIsSafe`).
- The refresh of bazarr/arr_instances/repository.py:509-549 does not take the lock that
  `ensure_ownership_protection` holds, so it can come while a thread is about to install
  or is installing. Whatever follows, it is safe if and only if Sportarr is not in use,
  the lock is free, its holder is not past its probe, or the holder's next statement is
  the marker insert (it is refused), or it has none left, or it drops triggers and
  nothing else (`OwnershipReinstall.ReinstallIsSafe`). A thread inside the group of
  triggers it is replacing is refused at its next create, so a refresh then is safe beside
  threads, readers and writers (`OwnershipReinstall.PlainReinstallIsSafe`), but not once
  somebody drops the trigger that refuses it (`OwnershipReinstall.PendingLosesAWrite`).
  After the first four steps of a first publication a refresh can lose a write
  (`OwnershipReinstall.ReinstallBesideAnInstallLosesAWrite`).
- The check at the end of a read compares the counter and the configuration
  (bazarr/sportarr/output.py:286), not the triggers. A read that passes it is one look at
  the tables when the protection verified at its start and still does
  (`OwnershipReader.ServedIsReread`); with a trigger lost in between it can lack a row
  (`OwnershipReader.LostTriggerHidesAWrite`), and a publication verifies only once, before
  it reads (bazarr/sportarr/output.py:303).
- A write made while its trigger is away leaves an entry of a row that is gone if and only
  if it removes or renames a media row that has one; only then does the log outgrow the
  tables, and the next install undoes it (`OwnershipBounds.UnloggedWriteKeepsLiveRows`,
  `OwnershipBounds.LogStaysBounded`, `OwnershipBounds.InstallRestoresTheBound`).
- A move to a destination other than `top` or `bottom` drops the job
  (bazarr/app/jobs_queue.py:728-742); the model does too, and counts the job as dropped.
- `empty_log` can throw away more than the note of the emptying before: the notices that
  emptying's roll left about files it could not delete go with it. They are there
  exactly when that roll met a failure not reported before (`RotatingTheorems.MarkIsTheNote`).
- A roll can delete the file it has just set aside. It does exactly when `backupCount`
  files are dated later, as after a clock that stepped back
  (`RotatingTheorems.JustRolledStays`); a handler started then breaks the order its names
  promise (`RotatingFile.RotatingHandler.constructor`).
- The message "Throttle state reset" of bazarr/app/get_providers.py:948-953 is not what
  happens: the backoffs read before the line that fails are kept and written back
  (`Throttle.LoadedIsSound`).
- The registry says only a positively observed success is retained
  (bazarr/app/activity.py:18-21); a finished activity is retained with whatever outcome was
  reported, a failure included (`ActivityEffects.FinishedIsRetained`).

## Model

| member | source | states |
|---|---|---|
| OwnershipLog.FreshIsTracked | bazarr/sportarr/output.py:264-288 | a snapshot just read from the tables is one the log tells everything about |
| OwnershipLog.WriteKeepsCoherent | bazarr/app/ownership_revision.py:16-72 | every logged write raises the counter by one, leaves the generation alone and no other entry above the counter |
| OwnershipLog.WriteKeepsLiveRows | bazarr/app/ownership_revision.py:16-72 | after any logged write, primary-key changes and truncates included, each row entry still names a row that exists |
| OwnershipLog.WriteKeepsTracks | bazarr/app/ownership_revision.py:16-72 | whatever a logged write changes, an older snapshot is told: the marker or the instances entry is above it, or every row that differs from it has an entry above it |
| OwnershipLog.RefreshIsReread | bazarr/sportarr/output.py:248-295 | refreshing a tracked snapshot from the logged rows gives exactly what re-reading all four tables gives |
| OwnershipLog.RefreshMissesTheRest | bazarr/sportarr/output.py:248-295 | and only then: an older snapshot of this generation is refreshed to what is in the tables exactly when the log tells everything about it |
| OwnershipLog.IncrementalRefreshIsReread | bazarr/app/ownership_revision.py:16-72 | main theorem: after any run of logged writes, log plus old snapshot equals a full re-read |
| OwnershipPrecision.WriteRaisesExactly | bazarr/app/ownership_revision.py:16-72 | the log tells no more than it must: a logged write raises the marker exactly when it truncates or takes a media row away from its id, the instances entry exactly when it writes an instance, the generation never |
| OwnershipPrecision.WriteNamesExactly | bazarr/app/ownership_revision.py:16-72 | and the row entry exactly of the media row it leaves; the entry of a row it takes away goes, every other stays |
| OwnershipPrecision.StaysIncremental | bazarr/sportarr/output.py:259-285 | main theorem: after any run of logged writes a snapshot taken before is brought up to date row by row if and only if no write truncated, took a media row away or wrote an instance, and then exactly the rows written are read again |
| OwnershipPrecision.RunLeavesTheRest | bazarr/app/ownership_revision.py:16-72 | over such a run the counter goes up by the writes that took place, and every entry but those of the rows written is as it was |
| OwnershipPrecision.FreshTellsAll | bazarr/sportarr/output.py:166-205 | a snapshot keeps each media row with the path mappings of the instance owning it |
| OwnershipDatabase.RowByRowOfMedia | bazarr/app/ownership_revision.py:16-37 | deleting rows one by one with some triggers on: the rows gone, with each tracked one its entry; the counter up by the tracked ones, the marker at the counter |
| OwnershipDatabase.RowByRowRaisesInstances | bazarr/app/ownership_revision.py:16-37 | deleting an instance row by row leaves an instances entry above every earlier snapshot |
| OwnershipDatabase.BulkRefinesRowByRow | bazarr/app/ownership_revision.py:160-206 | for any rows and any triggers that are on: exactly when the bulk delete leaves the tables and entries the row triggers would have left, up to the marker's value |
| OwnershipDatabase.BulkTellsEverySnapshot | bazarr/app/ownership_revision.py:160-206 | both ways of deleting tracked media rows put the marker above every earlier snapshot |
| OwnershipDatabase.Database.PostgresRowTrigger | bazarr/app/ownership_revision.py:16-37 | the plpgsql body logs each row event as specified, and raises, changing nothing, without the counter row |
| OwnershipDatabase.Database.PostgresTruncateTrigger | bazarr/app/ownership_revision.py:39-48 | the truncate body clears the table's entries and sets the marker, or raises |
| OwnershipDatabase.Database.SqliteTrigger | bazarr/app/ownership_revision.py:51-72 | the three SQLite triggers map every state and row event to the state the PostgreSQL one gives |
| OwnershipDatabase.Database.Write | bazarr/app/ownership_revision.py:16-72 | a write and its trigger succeed or fail together; an untracked one changes the tables alone |
| OwnershipDatabase.Database.DeleteRows | bazarr/arr_instances/repository.py:501-507 | deleting rows in order fires the triggers that are on and no others; it fails exactly when one fires without the counter row, and then nothing has changed |
| OwnershipDatabase.Database.SwitchOff | bazarr/app/ownership_revision.py:191-195 | the loop takes off the triggers of the listed tables that are on, and forgets exactly the doomed rows of those |
| OwnershipDatabase.Database.DeleteInBulk | bazarr/app/ownership_revision.py:160-206 | for any listed tables, doomed rows or none in each: the specified state with the triggers on again, on PostgreSQL by the switch and on SQLite row by row; a failure, which needs a missing counter row, undoes everything |
| OwnershipSafety.FiveStatementsMark | bazarr/app/ownership_revision.py:109-118 | whatever the log was, its first five statements leave the generation and a marker at the raised counter, and nothing else |
| OwnershipSafety.LogAfterInstall | bazarr/app/ownership_revision.py:99-143 | no later statement of an install touches the log |
| OwnershipSafety.DdlStatement | bazarr/app/ownership_revision.py:126-141 | started with a trigger of the last table missing, an install leaves one missing until its last statement |
| OwnershipSafety.WriteIsHonest | bazarr/app/ownership_revision.py:16-72 | under verified triggers no write goes unlogged |
| OwnershipSafety.BulkStep | bazarr/app/ownership_revision.py:160-206 | a bulk delete keeps the invariant, whatever triggers are on |
| OwnershipSafety.BulkTakesExactly | bazarr/app/ownership_revision.py:160-206 | a bulk delete takes exactly the doomed rows of the listed tables, or none without the counter it needs |
| OwnershipSafety.InstallStep | bazarr/app/ownership_revision.py:99-143 | each statement of an install keeps every snapshot either tracked or below the marker by the time the set verifies |
| OwnershipSafety.ReinstallStep | bazarr/arr_instances/repository.py:509-549 | at a harmless moment a reinstall in one transaction keeps the invariant |
| OwnershipSafety.TriggersLost | bazarr/app/ownership_revision.py:213-232 | losing or redefining triggers cannot make a broken promise verify |
| OwnershipSafety.StepKeepsInv | bazarr/app/ownership_revision.py:99-143 | every step of every thread, writer, reader, bulk delete and schema change keeps the invariant, a reinstall at every harmless moment |
| OwnershipSafety.RunKeepsInv | bazarr/app/ownership_revision.py:99-143 | so does every run |
| OwnershipGuarantees.NoWriteGoesUnnoticed | bazarr/app/ownership_revision.py:271-306 | main theorem: over every run of threads, writes, bulk deletes, reads, drops, redefinitions and reinstalls at harmless moments, whenever the protection verifies, refreshing any snapshot is a full re-read and any snapshot that missed a write is below the marker |
| OwnershipGuarantees.GenerationSurvives | bazarr/app/ownership_revision.py:99-143 | over every run whatever, reinstalls included, the generation stays and the counter never falls |
| OwnershipGuarantees.TriggersUpTo | bazarr/app/ownership_revision.py:126-141 | which triggers are there after the first n statements, for every n and every set there was before |
| OwnershipGuarantees.WholeInstallVerifies | bazarr/app/ownership_revision.py:99-143 | a whole install over any set leaves one that verifies |
| OwnershipGuarantees.InstallFollowsTheInstances | bazarr/app/ownership_revision.py:99-143 | an install in one transaction leaves the full set when some instance is a Sportarr one and no trigger at all otherwise, whatever was there |
| OwnershipGuarantees.VerifiedNeedsNoLock | bazarr/app/ownership_revision.py:293-297 | a thread that finds the set verified neither waits nor locks |
| OwnershipGuarantees.NoStatementFails | bazarr/app/ownership_revision.py:99-143 | uninterrupted, no create finds its trigger there and no insert its marker |
| OwnershipGuarantees.UninterruptedInstall | bazarr/app/ownership_revision.py:271-306 | one thread running alone executes the statements in order |
| OwnershipReader.ServedIsReread | bazarr/sportarr/output.py:248-295 | main theorem: whatever writes, bulk deletes, installs and schema changes come between its selects, a read that is served is one look at the tables at its end, cached or not, when the protection verified as the counter was read and still does; it is refused exactly when counter or configuration moved or there is no generation |
| OwnershipReader.RunStands | bazarr/sportarr/output.py:286-288 | over a run that ends with the counter where it was and the set verifying, the set verified throughout and no state of the tables or the log was any different |
| OwnershipReader.StepMoves | bazarr/app/ownership_revision.py:99-143 | a step of anyone moves the counter, or changes nothing while the protection verifies and cannot make it verify again |
| OwnershipReader.ReadOfOneStore | bazarr/sportarr/output.py:248-295 | selects that all find the same tables and log read what a refresh at once reads |
| OwnershipReader.LostTriggerHidesAWrite | bazarr/sportarr/output.py:286-288 | with a trigger lost between two selects a read passes the closing check and lacks a row, for every database |
| OwnershipReader.SnapshotCache.ReadAll | bazarr/sportarr/output.py:166-173 | the loop over the media tables reads each as it is at its own select |
| OwnershipReader.SnapshotCache.RereadRows | bazarr/sportarr/output.py:264-285 | reading some rows of one table again, each as it is at its own select, leaves every other entry as it was |
| OwnershipReader.SnapshotCache.RereadLogged | bazarr/sportarr/output.py:264-285 | table by table, exactly the rows the log names are read again |
| OwnershipReader.SnapshotCache.Read | bazarr/sportarr/output.py:248-295 | the cache keeps, rebuilds, drops or refuses as specified: another configuration, generation or revision, a marker or an instances entry each force a full read, and the closing check refuses what moved meanwhile |
| OwnershipReinstall.ReinstallIsSafe | bazarr/arr_instances/repository.py:509-549 | main theorem: from every state of the invariant, a reinstall is safe over every run that may follow if and only if it comes at a harmless moment, told by where the lock holder stands |
| OwnershipReinstall.PlainReinstallIsSafe | bazarr/arr_instances/repository.py:509-549 | the same exact condition where only threads touch triggers: a holder inside a group is then harmless too |
| OwnershipReinstall.HarmfulReinstallLosesAWrite | bazarr/arr_instances/repository.py:509-549 | for every other moment and every database a run that loses a write |
| OwnershipReinstall.PendingLosesAWrite | bazarr/app/ownership_revision.py:126-141 | that run for a holder whose next create would be refused, once someone drops the trigger that refuses it |
| OwnershipReinstall.ClearedLogLosesAWrite | bazarr/app/ownership_revision.py:109-118 | that run for a holder about to clear the log under a full set |
| OwnershipReinstall.FullSetLosesAWrite | bazarr/app/ownership_revision.py:99-143 | started over a set whose last triggers are in place, a run that loses a write, built for every such database |
| OwnershipReinstall.StatementwiseInstallIsSafe | bazarr/app/ownership_revision.py:261-306 | exactly when a statement-by-statement install is safe beside readers and writers |
| OwnershipReinstall.ReinstallBesideAnInstallLosesAWrite | bazarr/arr_instances/repository.py:509-549 | from a world no thread has touched, a refresh beside a first publication loses a write |
| OwnershipBounds.LogStaysBounded | bazarr/app/ownership_revision.py:16-72 | main theorem: in every state any run reaches, no entry is above the counter, every row entry names a live row or was left behind by an unlogged write since the log was last cleared, and there are at most the live media rows, three and those left behind |
| OwnershipBounds.StepKeepsLiveRows | bazarr/app/ownership_revision.py:16-72 | exactly when a step keeps every row entry naming a live row: when it takes away no media row with an entry whose trigger is off |
| OwnershipBounds.UnloggedWriteKeepsLiveRows | bazarr/app/ownership_revision.py:16-72 | the same for one unlogged write |
| OwnershipBounds.InstallRestoresTheBound | bazarr/app/ownership_revision.py:109-118 | an install leaves two entries and no dead row, whatever was left behind |
| OwnershipThreads.HalfWrittenStatement | bazarr/app/ownership_revision.py:126-141 | a half-written set keeps its shape and the next create never collides |
| OwnershipThreads.EveryThreadEndsAlike | bazarr/app/ownership_revision.py:271-306 | for any number of threads and any interleaving, all end well or all raise: well exactly when the set verifies at the start or is empty with Sportarr in use, and a set that is there is never altered |
| OwnershipThreads.ThreadsFinish | bazarr/app/ownership_revision.py:271-306 | no deadlock and no livelock: an unfinished thread means one can move, and every move uses up some of what is left |
| OwnershipSchema.Schema.Execute | bazarr/app/ownership_revision.py:99-143 | each statement in place, as specified |
| OwnershipSchema.Schema.SeedTables | bazarr/app/ownership_revision.py:108-128 | the fixed first statements reach the specified prefix |
| OwnershipSchema.Schema.ReplacePostgres | bazarr/app/ownership_revision.py:129-135 | the loop body for one table is the table's stretch of the program |
| OwnershipSchema.Schema.ReplaceSqlite | bazarr/app/ownership_revision.py:136-141 | the loop over the three actions is the table's stretch of the program |
| OwnershipSchema.Schema.Install | bazarr/app/ownership_revision.py:99-143 | the loops run exactly the program, and the set verifies afterwards when Sportarr is in use |
| OwnershipSchema.Schema.Verify | bazarr/app/ownership_revision.py:213-232 | true if and only if every required trigger is the expected one |
| OwnershipSchema.Schema.Ensure | bazarr/app/ownership_revision.py:271-306 | alone, it succeeds if and only if the set verified or was empty with Sportarr in use, and alters only an empty set |
| JobsTheorems.JobsAreConserved | bazarr/app/jobs_queue.py:213-230 | every step and run keeps each issued id in exactly one place |
| JobsTheorems.EveryJobIsSomewhereOnce | bazarr/app/jobs_queue.py:213-230 | from the empty queue: an id is once among pending, running, the finishing gap, failed, completed and dropped if it was issued, and nowhere otherwise |
| JobsTheorems.RecordedConserves | bazarr/app/jobs_queue.py:940-994 | a finish that pushes the oldest entry out of a full history loses no id |
| JobsTheorems.StepKeepsOwners | bazarr/app/jobs_queue.py:280-309 | no step gives a piece of work a second owner |
| JobsTheorems.OwnersStayUnique | bazarr/app/jobs_queue.py:280-309 | over every run no two of the pending jobs, running jobs and inline claims share module, function, args and kwargs without job_id |
| JobsTheorems.FeedFollowsTheOwner | bazarr/app/jobs_queue.py:280-309 | over every run a feed queues its work exactly when nothing owns it, and otherwise answers with the id of its one owner, or refuses |
| JobsTheorems.TheOwner | bazarr/app/jobs_queue.py:1013-1031 | the first match the search finds is the only owner there is |
| JobsProgress.HistoriesAreTheNewest | bazarr/app/jobs_queue.py:213-230 | over every run the two histories are the newest ten finishes since their last clear, in order |
| JobsProgress.RetriesDescend | bazarr/app/jobs_queue.py:477-491 | over every run a retry is younger than what it retries, so chains end |
| JobsProgress.CapacityHolds | bazarr/app/jobs_queue.py:837-854 | over every run, whatever was forced, the jobs nobody forced stay within concurrent_jobs and the translations among them within their lane |
| JobsProgress.ReservedInIdOrder | bazarr/app/jobs_queue.py:864-886 | without moves and forced starts jobs are reserved in the order of their ids |
| JobsProgress.BlockedHeadWaitsForARunningJob | bazarr/app/jobs_queue.py:837-886 | with both limits at least 1 a blocked head means some job is running |
| JobsProgress.QueueDrains | bazarr/app/jobs_queue.py:864-886 | over every run with nothing new fed, whatever is cleared, moved or claimed, twice the pending plus the running jobs never rises and falls with each reserve, finish, forced start and removal; with both limits at least 1 the queue can go on until both are empty |
| JobsProgress.AdvancesUseTheMeasure | bazarr/app/jobs_queue.py:864-886 | a run of reserves and finishes is exactly as long as the measure it uses up |
| JobsProgress.MovedToTheTopRunsNext | bazarr/app/jobs_queue.py:703-742 | a job moved to the top is the next one reserved, and the pending ids stay the same |
| JobsProgress.MovedToTheBottomRunsLast | bazarr/app/jobs_queue.py:703-742 | a job moved to the bottom stays last while another is reserved |
| JobsProgress.FinishedJobsLandByOutcome | bazarr/app/jobs_queue.py:932-994 | a job that broke ends as the newest failed one, any other, cancelled ones included, as the newest completed one, and it runs no more |
| JobsEffects.ReservesExactly | bazarr/app/jobs_queue.py:837-886 | the head is reserved if and only if fewer jobs than concurrent_jobs are running and, for a translation, fewer translations than its lane takes; nothing else moves |
| JobsEffects.JobsRunWhatWasAsked | bazarr/app/jobs_queue.py:237-314 | main theorem: over every run each job, wherever it is, is the module, function and arguments asked for under its id, with its own id filled in only as it starts and where the caller left it out, in the status of its place; and a retry asks for what was asked under the id it retries |
| JobsEffects.RetryAsksForTheSameWork | bazarr/app/jobs_queue.py:477-491 | a failed job can be retried exactly when it is retryable; the retry is queued when nothing owns the work, asks for the same, and names the failed job |
| JobsEffects.ClaimingOwns | bazarr/app/jobs_queue.py:1033-1070 | a claim takes free work and no other, and owns it from then on |
| JobsEffects.ReleasedWorkIsFree | bazarr/app/jobs_queue.py:1072-1096 | a release gives up the one claim of the work, and the next feed of it is queued |
| JobsEffects.PendingJobIsTaken | bazarr/app/jobs_queue.py:675-794 | a forced start, a removal and a move find exactly the named job wherever it waits, and leave the others in their order |
| JobsEffects.NoPendingJobIsTaken | bazarr/app/jobs_queue.py:675-794 | and an id that waits nowhere is not forced, removed or moved |
| JobsEffects.ClearingEmpties | bazarr/app/jobs_queue.py:796-812 | clearing a list empties it, drops its jobs and touches no other list |
| JobsEffects.StartMarksTheJob | bazarr/app/jobs_queue.py:906-912 | a job that starts is running and has its own id where the caller left it out, and is otherwise as it was |
| JobsEffects.FinishMarksTheJob | bazarr/app/jobs_queue.py:932-994 | a job that ends is as it was but for its status, and for whether it may be retried where its failure says so |
| JobsQueue.Queues.FindExistingJob | bazarr/app/jobs_queue.py:1013-1031 | the loop finds the first pending or running job with the work, or none |
| JobsQueue.Queues.FindInlineClaim | bazarr/app/jobs_queue.py:1098-1110 | the loop finds the first claim with the work, or none |
| JobsQueue.Queues.FindOwner | bazarr/app/jobs_queue.py:280-309 | jobs are looked at before claims |
| JobsQueue.Queues.FeedPending | bazarr/app/jobs_queue.py:237-314 | feeding reaches the specified queue and gives the specified answer |
| JobsQueue.Queues.RetryJob | bazarr/app/jobs_queue.py:477-491 | a retry looks its job up, refuses what is not retryable and feeds the cleaned request |
| JobsQueue.Queues.HasCapacityFor | bazarr/app/jobs_queue.py:837-854 | the loop counts the running translations; the limits are those of `JobsEffects.ReservesExactly` |
| JobsQueue.Queues.ReserveNextJob | bazarr/app/jobs_queue.py:864-886 | the head is reserved in place exactly as `JobsEffects.ReservesExactly` says |
| JobsQueue.Queues.ForceStart | bazarr/app/jobs_queue.py:761-794 | a forced start takes the job from anywhere in the queue and skips the limits |
| JobsQueue.Queues.RemoveFromPending | bazarr/app/jobs_queue.py:675-701 | exactly the named pending job goes |
| JobsQueue.Queues.MoveInPending | bazarr/app/jobs_queue.py:703-742 | the job moves to the top or bottom, or is dropped on any other destination |
| JobsQueue.Queues.StartRunning | bazarr/app/jobs_queue.py:888-938 | a started job gets its id as job_id only where the caller left none |
| JobsQueue.Queues.LeaveRunning | bazarr/app/jobs_queue.py:940-985 | a finished job leaves the running queue into the gap before its history |
| JobsQueue.Queues.EnterHistory | bazarr/app/jobs_queue.py:940-994 | the history takes the job and pushes the eleventh out |
| JobsQueue.Queues.EmptyQueue | bazarr/app/jobs_queue.py:796-812 | clearing drops the jobs of the named queue and no other |
| JobsQueue.Queues.ClaimInlineJob | bazarr/app/jobs_queue.py:1033-1070 | a claim succeeds if and only if nothing owns the work |
| JobsQueue.Queues.ReleaseInlineJob | bazarr/app/jobs_queue.py:1072-1096 | a release removes the first matching claim and nothing else |
| RotatingTheorems.NextNameIsNewest | bazarr/app/logger.py:508-517 | the name of a roll is held by nothing, and comes after every rolled file |
| RotatingTheorems.RunKeepsSound | bazarr/app/logger.py:467-627 | over every run no file is dated after the current day, a remembered emptied size is that of what the emptying wrote, and the retry size is 0 unless the last roll failed |
| RotatingLog.SortWithoutOldest | bazarr/app/logger.py:519-524 | deleting some of the oldest names leaves the others in their order |
| RotatingTheorems.RollingReadsTheEnd | bazarr/app/logger.py:602-627 | what can be read after a successful roll is the end of what could be read before it |
| RotatingTheorems.FolderEndsTheHistory | bazarr/app/logger.py:490-627 | main theorem: whatever fails, the newest backupCount files and the live file are together an unbroken end of everything written; while deletes succeed, so is the whole folder |
| RotatingTheorems.FolderEndsTheHistoryFromTheStart | bazarr/app/logger.py:442-465 | the same from the start of the handler |
| RotatingTheorems.NewestAreNeverDeleted | bazarr/app/logger.py:519-551 | no step deletes a file unless backupCount newer ones stay, and none changes what a rolled file holds |
| RotatingTheorems.FolderStaysLimited | bazarr/app/logger.py:519-551 | over every run and from however many files: at most backupCount and the ones that could not be deleted, or what it started with until the first roll |
| RotatingTheorems.FolderStaysBounded | bazarr/app/logger.py:519-551 | the same when listings fail too: each roll whose prune cannot list adds at most one file, and the next prune that can takes all of them back |
| RotatingTheorems.JustRolledStays | bazarr/app/logger.py:519-551 | exactly when a roll keeps the file it set aside, for any dates in the folder |
| RotatingTheorems.LiveFileIsBounded | bazarr/app/logger.py:467-488 | the live file passes its limit by at most what one call writes, and the limit is maxBytes unless the last roll failed |
| RotatingTheorems.EmptyingLosesOnlyTheMark | bazarr/app/logger.py:386-400 | an emptying throws away only what the emptying before it wrote; everything else was set aside in a fresh file, or the emptying was refused with the live file untouched |
| RotatingTheorems.MarkIsTheNote | bazarr/app/logger.py:386-400 | exactly when that is the note alone |
| RotatingTheorems.EmptyingTwiceSpendsOneSlot | bazarr/app/logger.py:576-589 | a second emptying in a row leaves the folder as it is |
| RotatingRolls.OneRollEachDay | bazarr/app/logger.py:602-627 | main theorem: the first record after the deadline rolls the file, once; until the next deadline, and while the file is below its limit, every later record is appended to the file that one began and the folder stays as its roll left it |
| RotatingRolls.RollMovesTheDeadline | bazarr/app/logger.py:625-627 | the deadline after a roll is past the clock, the next one after it exactly when the clock had reached the old one |
| RotatingRolls.QuietRunAppends | bazarr/app/logger.py:553-566 | records before the deadline that find the file below its limit are appended, in order, and nothing else happens |
| RotatingRolls.DueEmitRolls | bazarr/app/logger.py:602-627 | a record that finds a roll due rolls the file, unless that is empty or its rename fails; what a name held stays |
| RotatingRolls.DeviceOnlyMoves | bazarr/app/logger.py:467-488 | on a device only the deadline moves |
| RotatingRolls.NextNameIsTheNextNumber | bazarr/app/logger.py:508-517 | the first file of a day is number 0 and every later one the next after the highest there |
| RotatingRolls.PruneRemembers | bazarr/app/logger.py:526-551 | a prune remembers exactly what it failed at: the listing, or each file past the limit it could not delete |
| RotatingRolls.FailuresAreToldOnce | bazarr/app/logger.py:526-551 | it leaves a notice exactly for failures the prune before did not have |
| RotatingFile.RotatingHandler.constructor | bazarr/app/logger.py:442-465 | a new handler starts sound exactly when no rolled file is dated after the day its deadline ends |
| RotatingFile.RotatingHandler.ShouldRollover | bazarr/app/logger.py:467-488 | due at the deadline or over the size; on a device never, but its deadline moves |
| RotatingFile.RotatingHandler.NextRolledName | bazarr/app/logger.py:508-517 | one above the highest number any entry of the day holds |
| RotatingFile.RotatingHandler.RolledFiles | bazarr/app/logger.py:497-506 | the rolled files, oldest first |
| RotatingFile.RotatingHandler.FilesToDelete | bazarr/app/logger.py:519-524 | exactly the oldest ones past the limit |
| RotatingFile.RotatingHandler.DeleteStale | bazarr/app/logger.py:526-551 | the loop deletes what it can and leaves one notice for each new failure |
| RotatingFile.RotatingHandler.Prune | bazarr/app/logger.py:526-551 | a listing that fails deletes nothing and is reported once |
| RotatingFile.RotatingHandler.DoRollover | bazarr/app/logger.py:602-627 | the roll reaches the specified state: an empty file is not rolled, a failed rename keeps the records and sets the retry size, only midnight moves the deadline |
| RotatingFile.RotatingHandler.Emit | bazarr/app/logger.py:553-566 | the roll, its notices and the record, in that order |
| RotatingFile.RotatingHandler.RollBeforeEmptying | bazarr/app/logger.py:576-591 | refuses if and only if there was something new and its roll failed |
| RotatingFile.RotatingHandler.EmptyLog | bazarr/app/logger.py:386-400 | roll, truncate, note, remember; or an error with nothing truncated |
| SignalrLifecycle.StartKeeps | bazarr/app/signalr_client.py:299-326 | another start() gives no live connection a missing owner |
| SignalrLifecycle.StopKeeps | bazarr/app/signalr_client.py:266-274 | nor does a stop() |
| SignalrLifecycle.AdvanceKeeps | bazarr/app/signalr_client.py:219-264 | nor does any step of a call in flight, whatever the handshake answers |
| SignalrLifecycle.RunKeeps | bazarr/app/signalr_client.py:149-274 | over every run each live connection is the client's own or a call still in flight will close it |
| SignalrLifecycle.NoFeedWithoutOwner | bazarr/app/signalr_client.py:149-274 | main theorem: with no call in flight only the client's current connection can be live, and none after a stop() |
| SignalrLifecycle.StartConnects | bazarr/app/signalr_client.py:229-264 | main theorem: a start() that nothing overtakes, whose server is new enough and whose instance is there, ends only with the client's connection live, however many handshakes fail or idle and whatever earlier calls still do; and once its handshakes open it ends within six steps |
| SignalrLifecycle.OvertakenCallsEnd | bazarr/app/signalr_client.py:187-264 | main theorem: a call that was overtaken is over after at most six more of its steps, whatever it hears |
| SignalrLifecycle.UnwantedCallsEnd | bazarr/app/signalr_client.py:187-227 | a call gives up exactly where it should: server too old, instance gone before a connection or after a failed handshake |
| SignalrLifecycle.OnlyOwnConnections | bazarr/app/signalr_client.py:149-274 | no step closes or opens a connection but its own call's, or the client's own one as a new one takes its place |
| SignalrLifecycle.EachCallRunsAlone | bazarr/app/signalr_client.py:229-264 | main theorem: in every run of all calls each call does to the client exactly what `Start` and `Connect` do with the others' acts in between |
| SignalrLifecycle.SignalrClient.Start | bazarr/app/signalr_client.py:299-324 | the whole start() in place, step by step as the concurrent machine has it, the others acting at any point |
| SignalrLifecycle.OvertakenCallsClose | bazarr/app/signalr_client.py:229-264 | whatever others do between its steps, a call has its connection live at its end only if it is the current one |
| SignalrLifecycle.SignalrClient.BeginGeneration | bazarr/app/signalr_client.py:169-175 | each call gets a generation of its own |
| SignalrLifecycle.SignalrClient.ConfigureIfCurrent | bazarr/app/signalr_client.py:219-227 | an overtaken call configures nothing; a current one replaces and closes the old connection, or gets the old one back when the instance is gone |
| SignalrLifecycle.SignalrClient.Connect | bazarr/app/signalr_client.py:229-264 | the retry loop in place, step by step as the concurrent machine has it; its connection is live at the end only if its generation is still the current one |
| SignalrLifecycle.SignalrClient.Stop | bazarr/app/signalr_client.py:266-274 | a stop begins a generation and closes the client's connection |
| FeedQueue.FilterCleans | bazarr/app/signalr_client.py:573-611 | the filter leaves no removed key where it looks, and leaves a clean value as it was |
| FeedQueue.FilterKeepsTheRest | bazarr/app/signalr_client.py:573-611 | exactly what it takes away: a path leads nowhere in the filtered value if it passes a removed key the filter comes to, and otherwise to the same leaf, list or dictionary as before |
| FeedQueue.FilteredKeys | bazarr/app/signalr_client.py:573-611 | of a dictionary only the removed key goes |
| FeedQueue.FilterIsIdempotent | bazarr/app/signalr_client.py:573-611 | filtering twice is filtering once |
| FeedQueue.ReceivedExactly | bazarr/app/signalr_client.py:614-645 | an event naming series, episode or movie, alone or first of a list, is queued for its dispatcher, filtered and with its instance, unless it repeats the last of that instance and kind |
| FeedQueue.OthersAreLeftAside | bazarr/app/signalr_client.py:614-645 | anything else changes nothing |
| FeedQueue.EachSourceLosesOnlyRepeats | bazarr/app/signalr_client.py:614-645 | over every run the queue holds, for each kind and instance, exactly what that instance sent without its repeats, whatever other instances send in between |
| FeedQueue.Feed.Receive | bazarr/app/signalr_client.py:614-645 | one event in place: unwrapped, filtered, compared, tagged and queued |
| ChunkRelay.BoundedBody | docker/supervisor.py:337-353 | within the limit the pieces join to the body and finished comes once, last; past it only a prefix within the limit goes out and finished never comes; every piece but the last is full, and none larger than a full one and the largest chunk |
| ChunkRelay.FramingOfFullPieces | docker/supervisor.py:84-89 | full pieces are few, so their chunk framing (section 7.1 of RFC 9112) is small |
| ChunkRelay.RelayFitsCeiling | docker/supervisor.py:84-89 | framing adds less than 50 KiB, so a chunked body stays strictly below the backend's ceiling |
| ChunkRelay.RelayBody | docker/supervisor.py:388-450 | what reaches the backend is below its ceiling, and a body is relayed whole exactly when it is below the ceiling with its length, or 64 KiB below it in chunks |
| Activity.RecordedIsStrictest | bazarr/app/activity.py:227-263 | the recorded outcome is one that was reported and none was stricter |
| Activity.OutcomesJoin | bazarr/app/activity.py:227-263 | the order of the reports makes no difference |
| Activity.PhasedIsTruthful | bazarr/app/activity.py:198-224 | a remote report keeps progress measured and the observed time the latest; a late one changes nothing |
| Activity.LatestIsMaximum | bazarr/app/activity.py:198-224 | that time is the maximum of the moments reported |
| Activity.NewestFits | bazarr/app/activity.py:103-112 | trimming leaves at most the cap, each entry unchanged |
| Activity.NewestAreLast | bazarr/app/activity.py:103-112 | and these are the newest, in their order |
| Activity.ExpiredGo | bazarr/app/activity.py:280-287 | exactly the expired observations go from a snapshot, and the others stay as they are |
| Activity.UnexpiredStay | bazarr/app/activity.py:108-110 | exactly the aliases bound before the cutoff go, wherever they stand |
| Activity.TrimmedFits | bazarr/app/activity.py:103-112 | all three maps fit after a trim |
| Activity.StepKeeps | bazarr/app/activity.py:115-287 | every operation keeps the caps and the truth of every observation |
| Activity.RegistryTellsTheTruth | bazarr/app/activity.py:115-287 | main theorem: over every run the maps fit, outcomes are the strictest reported, observed times the latest since submission, and progress satisfies 0 <= value <= total and 0 < total |
| ActivityEffects.RegistryTellsWhatItWasTold | bazarr/app/activity.py:115-287 | main theorem: over every run an observation tells the strictest of the outcomes the operations reported of it since it was registered anew, a retained one those up to its end and after, and a remote job the latest moment it was reported at since it was submitted |
| ActivityEffects.TroubleDominates | bazarr/app/activity.py:18-21 | a success stands only if nothing else was ever reported; partial, cancelled and failed are never told as less |
| ActivityEffects.RegisteredIsActive | bazarr/app/activity.py:115-136 | a registered activity is active, blank if new and as it was otherwise, and no other goes but the oldest of 256 |
| ActivityEffects.FinishedIsRetained | bazarr/app/activity.py:247-263 | a finished one is active no more, and is retained exactly when an outcome was reported |
| ActivityEffects.ProgressIsNoted | bazarr/app/activity.py:155-167 | progress is noted exactly when measured and of an active observation |
| ActivityEffects.SubmissionBinds | bazarr/app/activity.py:179-195 | a submission starts the remote job over and its alias leads to the activity, whatever the trim takes |
| ActivityEffects.PhaseIsNoted | bazarr/app/activity.py:198-224 | a remote report reaches exactly the activity it names or its alias leads to |
| ActivityEffects.PhasedAsReported | bazarr/app/activity.py:198-224 | one that is not late leaves the phase, whole counts and moment reported, and shows progress only while processing |
| ActivityEffects.AliasesTrimmed | bazarr/app/activity.py:108-112 | with room, aliases go by age alone, past 900 seconds |
| ActivityEffects.LookDropsTheExpired | bazarr/app/activity.py:280-287 | a look drops exactly the observations whose time is up |
| Activity.ActivityRegistry.Trim | bazarr/app/activity.py:103-112 | the loops drop the oldest until the caps hold, expired aliases first |
| Activity.ActivityRegistry.TrimAliases | bazarr/app/activity.py:108-112 | expired aliases go wherever they stand, then the oldest past the cap |
| Activity.ActivityRegistry.RegisterActivity | bazarr/app/activity.py:115-136 | a registration adds a blank record or refreshes the one there is |
| Activity.ActivityRegistry.NoteMeasured | bazarr/app/activity.py:155-167 | only measured progress of an active observation is kept |
| Activity.ActivityRegistry.NoteRemoteSubmission | bazarr/app/activity.py:179-195 | the remote job starts over and its alias leads back |
| Activity.ActivityRegistry.NoteRemotePhase | bazarr/app/activity.py:198-224 | the report finds its activity by id or alias and applies unless it is late |
| Activity.ActivityRegistry.NoteOutcome | bazarr/app/activity.py:227-244 | active before retained, and only a stricter outcome replaces |
| Activity.ActivityRegistry.FinishActivity | bazarr/app/activity.py:247-263 | only an observation with an outcome is retained |
| Activity.ActivityRegistry.PruneExpired | bazarr/app/activity.py:280-287 | exactly the expired observations go |
| Throttle.IsoParses | bazarr/app/get_providers.py:934-980 | the text written for a moment reads as that moment, with or without microseconds |
| Throttle.EncodeHolds | bazarr/app/get_providers.py:957-980 | the lines written for a table read back as exactly that table |
| Throttle.LoadedIsSound | bazarr/app/get_providers.py:934-955 | whatever the file was, the process starts with table and file in agreement and the entries of exactly the lines before the first that cannot be read; a file read to its end is left as it is, any other is rewritten |
| Throttle.Load | bazarr/app/get_providers.py:934-955 | the loop over the lines reaches that table |
| Throttle.DeadlinesAreMaxima | bazarr/app/get_providers.py:736-748 | main theorem: over every run the file decodes to the table, and a deadline is the latest recorded since the provider was last removed |
| Throttle.OnlyAResetLiftsABackoff | bazarr/app/get_providers.py:287-329 | over every run: a backoff stays and its deadline only grows as long as no step finds it expired or its provider not enabled, or is a reset that covers it |
| Throttle.UnexpiredBackoffStays | bazarr/app/get_providers.py:287-329 | main theorem, from the steps alone: a backoff of an enabled provider stays over every run in which no release or sweep reads the clock at or after its deadline and every reset is of another provider or for other reasons |
| Throttle.GoneWhenLifted | bazarr/app/get_providers.py:287-329 | it is there throughout a run if and only if no step lifts it |
| Throttle.RemovalHasACause | bazarr/app/get_providers.py:818-850 | exactly when a step removes a backoff; otherwise its deadline only grows |
| Throttle.StepsLeaveExactly | bazarr/app/get_providers.py:736-927 | what each step leaves: a record the later deadline with what came with it, a release and a sweep what is still to come at every look, a reset what it does not cover; and when the file is written |
| Throttle.VisitDecides | bazarr/app/get_providers.py:287-329 | a provider is let through exactly when no backoff of it is left, and turned down only on a deadline still to come; one found free or backed off at the first look is left without the lock |
| Throttle.PassKeeps | bazarr/app/get_providers.py:287-329 | a pass of the reader among other threads keeps table and file in agreement |
| Throttle.PassListsTheFree | bazarr/app/get_providers.py:287-329 | the list holds exactly the providers with no backoff left after their own visit, in the order they are configured |
| Throttle.Throttles.RecordBackoff | bazarr/app/get_providers.py:736-748 | the later deadline stays, with what came with it |
| Throttle.Throttles.ReleaseIfExpired | bazarr/app/get_providers.py:287-329 | exactly an expired entry goes, and the file with it |
| Throttle.Throttles.Decide | bazarr/app/get_providers.py:287-329 | one provider: a look without the lock and a decision with it |
| Throttle.Throttles.GetProviders | bazarr/app/get_providers.py:287-329 | the loop gives what the pass decides for each provider in turn, the clock read anew each time and other threads acting between any two locked sections |
| Throttle.Throttles.SweepExpired | bazarr/app/get_providers.py:818-850 | entries expired at either look at the clock, read anew for each provider, or of providers not enabled go, and no other |
| Throttle.Throttles.SweepOne | bazarr/app/get_providers.py:827-848 | one provider of the sweep, with its two looks at the clock |
| Throttle.Throttles.ResetProvider | bazarr/app/get_providers.py:896-912 | only a credential backoff of that provider goes |
| Throttle.Throttles.ResetProviders | bazarr/app/get_providers.py:915-927 | all of them, or the credential ones, and the file is rewritten either way |
| Backfill.KindConverges | bazarr/arr_instances/backfill.py:74-120 | whatever was committed before a crash, the kind ends where an uninterrupted run ends it |
| Backfill.OtherKindIsNoConcern | bazarr/arr_instances/backfill.py:123-136 | a finished kind stays finished while the other is worked on |
| Backfill.CrashesConverge | bazarr/arr_instances/backfill.py:123-136 | main theorem: any runs stopped after any commits and then one to the end reach what one uninterrupted run reaches, and more runs change nothing |
| Backfill.CrashesLeaveOneDefault | bazarr/arr_instances/backfill.py:123-136 | main theorem: from no instance of a kind, any runs stopped anywhere and then one to the end leave exactly one default of it where there is something to own and none otherwise, no ownerless row, and each row that named an owner as it was |
| Backfill.OneDefaultIsCreated | bazarr/arr_instances/backfill.py:74-120 | from no instance of the kind: exactly one default when there is something to own, under an id above all others, every ownerless row stamped and every other row as it was |
| Backfill.LoneInstanceTakesTheRest | bazarr/arr_instances/backfill.py:75-99 | the one instance of a kind takes exactly the ownerless rows; with several nothing changes; none is created |
| Backfill.UnusedIdIsAbove | bazarr/arr_instances/repository.py:168-189 | the new id is above every id an instance has, every id one had and every id a row of any table names, those of no concern to the backfill included |
| Backfill.UnusedIdIsNext | bazarr/arr_instances/repository.py:168-189 | and it is the next one: the id below it is taken, or it is 1 |
| Backfill.OwnerlessOnlyBesideSeveral | bazarr/arr_instances/backfill.py:74-120 | a finished run leaves a row ownerless exactly when its kind had several instances |
| Backfill.NamedOwnersStay | bazarr/arr_instances/backfill.py:57-71 | through any runs stopped anywhere, rows that named an owner and instances that existed stay as they were |
| Backfill.StampsInOrder | bazarr/arr_instances/backfill.py:57-71 | wherever a run stops, a stamped table has none before it with an ownerless row |
| Backfill.OwnerlessIsSome | bazarr/arr_instances/backfill.py:40-54 | ownerless rows are found exactly where some row of some table names no owner |
| Backfill.Library.HasOwnerlessRows | bazarr/arr_instances/backfill.py:40-54 | true if and only if some table has a row with no owner |
| Backfill.Library.StampTable | bazarr/arr_instances/backfill.py:64-69 | one statement stamps one table's ownerless rows |
| Backfill.Library.StampNullRows | bazarr/arr_instances/backfill.py:57-71 | the loop stamps table by table, as far as its commits reach |
| Backfill.Library.BackfillKind | bazarr/arr_instances/backfill.py:74-120 | create, resume or leave alone, stopped after any commit |
| Backfill.Library.BackfillDefaults | bazarr/arr_instances/backfill.py:123-136 | both kinds in turn, stopped after any commit |

## Left out

- SQL, sessions and row versions: each statement is one step on maps, so lock waits and the snapshot a PostgreSQL reader sees are not modelled; the text comparison of trigger definitions is whether the installed set equals the expected one.
- Statement-level order inside PostgreSQL: a statement that writes several rows is one step for each row.
- The existence check of the owner tables, CREATE TABLE, CREATE INDEX and `remove_ownership_revision` (bazarr/app/ownership_revision.py:99-101, 331-340).
- The reader's path index (bazarr/sportarr/output.py:166-241): a snapshot keeps for each media row exactly what its index entries are computed from.
- OwnershipReinstall.StatementwiseInstallIsSafe: about an install with Sportarr in use; one without it only drops triggers and leaves nothing that verifies.
- OwnershipGuarantees.NoWriteGoesUnnoticed: verifying is one step, and so is taking a snapshot, which `OwnershipReader.ServedIsReread` shows a read of several selects to be; reinstalls at other moments than harmless ones are shut out, and `OwnershipReinstall.ReinstallIsSafe` shows that each of them can lose a write.
- OwnershipBounds.LogStaysBounded: a row entry left behind counts until the log is cleared, also when a later write has removed it or put its row back.
- OwnershipDatabase.Database.DeleteInBulk: the transaction is the caller's; its rollback after a failure is the saved state put back.
- Running a job, its events, the progress flush thread, renaming and listing jobs (bazarr/app/jobs_queue.py:316-475, 513-673): they move no job between queues. Jobs are values, so a caller changing the args it passed in is not modelled.
- `move_job_in_pending_queue` and `remove_job_from_pending_queue` run outside the queue lock; each is one atomic step here.
- RotatingLog: log files changed by another program, records that fail to be formatted or written, messages on stderr and settings changed while the handler runs (bazarr/app/logger.py:364-378). The clock, the day of a moment and the next deadline are parameters: a deadline is later than its moment, and a later moment is on no earlier day.
- SignalR transports that reconnect by themselves, the `connected` flag and the callbacks, whose generation check and action are not one locked section (bazarr/app/signalr_client.py:200-217).
- SignalrLifecycle.SignalrClient.Start: as `SignalrLifecycle.SignalrClient.Connect`, for the schedules in which the call ends.
- SignalrLifecycle.SignalrClient.Connect: for the schedules in which the call ends; in any other it is still retrying and returns nothing.
- The event dispatcher, the version checks and the per-instance client lists (bazarr/app/signalr_client.py:473-570, 648-777).
- The rest of docker/supervisor.py: process supervision, headers, websockets, the static server, and a body that is cut off by its sender.
- Activity scopes, time stamps, publication details and user-run marks (bazarr/app/activity.py:139-152, 296-440).
- Activity.RegistryTellsTheTruth: about the record an id has now; an id registered again after it finished starts a fresh one.
- The five-strike pause and the choice of reason and deadline for an exception (bazarr/app/get_providers.py:587-735, 779-815); a throttle file that cannot be written; a line without a deadline, which the code reads and the model takes for one it cannot read; and the other forms and the calendar that `datetime.fromisoformat` knows: a moment here is its seven numbers, as `isoformat` writes them.
- Backfill: creating an instance is one commit with an unused id, as on SQLite; PostgreSQL takes the id from a sequence. The connection settings copied into the instance are left out.
- The HTTP clients, Flask routes, user interface, authentication, settings validation, database migrations and packaging: they call these components and hold none of the state modelled here.
