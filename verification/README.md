# Aethereal backup: a verified model

This project models the backup core of the Aethereal mobile backup appliance and proves what its
design promises. Cards are copied to a content-addressed store on a destination disk. An object
is named by the digest of its bytes, a SQLite manifest records what was verified, and each job
sees its files through hardlinks in a session directory.

`dafny verify dfyconfig.toml` checks everything.

## How it is built

* `FileSystem`, `Manifest`, `Protocol`, `Runs`: the disk, the tables, the primitive steps (one
  system call or one autocommitted SQL statement each), the write-ahead rule of each step, and
  what every run of them keeps when the power may go between any two. The disk carries the set of
  name tables a power cut may leave: each directory edit since the last fsync of its directory is
  kept or lost on its own, a rename is one edit, and unflushed file contents are arbitrary.
* `Machine`: the imperative counterpart. A `Machine` holds disk and manifest. Whatever the code
  does to them goes through `Do`, and before each step the power may go, so every theorem about
  runs applies to the code.
* `Repository`, `Copier`, `RecoveryGoal`, `RecoveryRuns`, `Recovery`: the data-access layer and the
  finalize journal, copying with three hashes and retries, and start-up recovery. What recovery is
  heading for is a function of the state a cut left. No step of recovery and no cut moves it, so
  all recoveries of one state end in the same place.
* `Restart`: a restart of the process without a power cut, and runs that show what it can lead to.
* `Sorting`, `Sums`, `Totals`, `Capacity`, `Planner`, `Preflight`, `Runner`, `Jobs`, `StateMachine`,
  `Engine`, `Service`, `Backups`, `Appliance`: plan, accounting, job loop, lifecycle, and the end-to-end theorems.
* `Decimals`, `Text`, `Utf8`, `JobIds`, `ObjectStore`: the strings behind job ids and paths. They
  justify that the disk model names files by `Final(digest)`, `Partial(digest)` and
  `Session(job, path)`.
* `Snapshot`: the canonical manifest of a source. `Events`, `EventSocket`: the event bus and the
  WebSocket replay. `Media`: cards, mounts and ejection.

Predicates that quantify over a small enumeration, or over the one value of `Unit`, hold exactly
when their parts do. They let a proof carry a fact by name and open it only where it is needed.

## Hypotheses

* Source reads may fail or return anything, and what reaches the device may be corrupted before it
  is read back. On the destination, rename, link and fsync succeed or the power fails, and nobody
  else touches it. Newly made directories are durable.
* The digest is an abstract function. `SizeDetermined` (equal digests have equal sizes) is assumed
  by the store theorems, because the store is addressed by the digest alone and the readback check
  compares only the digest (src/aethereal/backup/copier.py:122). `CollisionFree` is assumed only
  where contents are compared byte by byte.
* Identities in the manifest are those of some bytes, and the paths of one scan are distinct.

## What the code does not give

* Recovery fsyncs the directory of an object only when it renames it. After a restart without a
  power cut it may mark VERIFIED an object whose name is not durable yet. `Restart` states exactly
  when, and has a run that comes to it. With a power cut before every recovery the guarantee holds.
* A session entry cut off between the two last commits of a copy stays PENDING through recovery
  (`RecoveryRuns.EntryIsVerifiedIff`; `Restart.HalfMarkedEntryStaysPending` has the run).
* A WebSocket client whose number is ahead of the bus, as after a restart of the service, misses
  events (`EventSocket.SinceFromTheFutureMisses`).
* A card swapped in its slot between two polls is offered under the old mount point
  (`Media.SwappedCardKeepsTheOldMount`).
* The comment at src/aethereal/backup/snapshot.py:54-56 rests on paths without newlines. The
  encoding is injective with newlines in paths too, as long as no path has a NUL and no digest a
  newline.

## Model

| member | source | states |
|---|---|---|
| Runs.EveryRunIsSafe | src/aethereal/backup/copier.py:189-214 | the store invariant holds at every instant of every run of the write-ahead steps, with a power cut between any two of them |
| Runs.EveryRunGrows | src/aethereal/backup/recovery.py:86-93 | no step of any job, retry, cancel, cut or recovery loses or changes a VERIFIED object, the link of a VERIFIED entry, or a completed job |
| Runs.VerifiedObjectsAreOnDisk | src/aethereal/backup/copier.py:189-214 | at every instant a VERIFIED row has a durable canonical file of its digest and size, and every canonical file, on either side of a cut, hashes to its own name; so linking an existing one unread is sound |
| Runs.OneRowPerDigest | src/aethereal/db/manifest_repo.py:94-134 | no two object rows ever share a digest |
| Runs.CompletedJobIsCompleteForever | src/aethereal/backup/runner.py:104-172 | once a job row reads completed, in that and every later state each path it was to save has exactly one session entry, VERIFIED, and a durable session name for a file of the identity preflight computed |
| Runs.CompletedJobHoldsTheBytes | src/aethereal/backup/copier.py:112-124 | with a collision-free digest those files are, byte for byte, what preflight read |
| Runs.JobIdsAreSequential | src/aethereal/backup/engine.py:196-199 | at every instant of every run the ids of each date are exactly those numbered 1 to n, whatever the clock and the power did |
| Runs.SessionPathsAreDisjoint | src/aethereal/backup/engine.py:201-205 | the session path strings of two jobs never coincide, and within a job they differ where the relative paths do |
| Protocol.StepKeepsInv | src/aethereal/backup/copier.py:200-214 | each primitive step that respects its write-ahead rule keeps the store invariant and everything verified |
| Protocol.CrashKeepsInv | src/aethereal/backup/copier.py:204-214 | so does a power cut, whichever unsynced directory edits and unflushed bytes it takes |
| Machines.Machine.Do | src/aethereal/backup/copier.py:211-213 | one system call or one autocommitted statement either happens, and extends the run, or the power goes before it |
| Machines.Machine.Boot | src/aethereal/backup/recovery.py:60-76 | after a cut the disk is any of its possible images, with arbitrary contents in unflushed files, and the manifest is as committed |
| Repository.ManifestRepository.HasVerifiedObject | src/aethereal/db/manifest_repo.py:60-68 | if true, the canonical file is there, durable, with the bytes of that very identity; while nothing is pending, true exactly if that name is in sight |
| Repository.VisibleIsVerified | src/aethereal/backup/copier.py:189-191 | between two files of a job a canonical file in sight is durable and VERIFIED, which is why it may be linked unread |
| Repository.ManifestRepository.UpsertContentObjectPending | src/aethereal/db/manifest_repo.py:101-119 | the row of the identity becomes PENDING_FINALIZE, or a new one is made; nothing else changes |
| Repository.ManifestRepository.MarkContentObjectVerified | src/aethereal/db/manifest_repo.py:121-134 | the row of the identity becomes VERIFIED, or a new one is made; nothing else changes |
| Repository.ManifestRepository.InsertSessionEntry | src/aethereal/db/manifest_repo.py:231-246 | adds one entry under an unused row id |
| Repository.ManifestRepository.FinalizeSessionEntry | src/aethereal/db/manifest_repo.py:248-264 | promotes the one entry of the path, or inserts one if there is none |
| Repository.ManifestRepository.CountJobsForDate | src/aethereal/db/manifest_repo.py:146-151 | the number of job ids that begin with the prefix of the date |
| Repository.ManifestRepository.CreateBackupJob | src/aethereal/db/manifest_repo.py:136-144 | adds the row of a new job, whose id is the next of its date |
| Repository.ManifestRepository.FinishBackupJob | src/aethereal/db/manifest_repo.py:204-229 | writes the final state, which can read completed only if everything the job was to save is recorded |
| Repository.JobManifestJournal.RecordPendingFinalize | src/aethereal/backup/manifest_journal.py:22-34 | two separate commits: PENDING_FINALIZE for the object, then a PENDING entry for the link to come |
| Repository.JobManifestJournal.MarkVerified | src/aethereal/backup/manifest_journal.py:36-41 | two separate commits: VERIFIED for the object, then for the entry of the path |
| Identity.HashStream | src/aethereal/backup/identity.py:31-43 | for every positive chunk size, and however short the reads come back, the streamed identity is that of the whole content; other sizes are refused before anything is read |
| Identity.DigestDeterminesIdentity | src/aethereal/backup/identity.py:20-28 | where digests determine sizes, a digest determines the identity |
| Copier.LinkIntoSession | src/aethereal/backup/copier.py:129-138 | afterwards the session name is durable and names the very file of the canonical name; false, changing nothing, exactly if the name is taken by another file |
| Copier.StreamToPartial | src/aethereal/backup/copier.py:95-109 | streams into a fresh partial and digests what was read; an OSError leaves exactly what was read until then; no other file or name is touched |
| Copier.WriteChunks | src/aethereal/backup/copier.py:101-107 | the file holds the chunks joined, and the digest is of the same bytes |
| Copier.CopyAndVerifyOnce | src/aethereal/backup/copier.py:86-126 | a source error exactly if the source does not open or a read fails; else unstable exactly if what was read has not the planned size and digest, a mismatch exactly if it has but the device holds bytes of another digest, and good exactly if both agree; the digests reported are those; a good attempt leaves flushed bytes and a bad one no partial |
| Copier.JoinedJoins | src/aethereal/backup/copier.py:101-107 | joining chunks loses nothing, adds nothing and keeps their order |
| Copier.LinkVerifiedObject | src/aethereal/backup/copier.py:146-170 | links a canonical object unread exactly if it exists, and records the path; it changes no object row and no partial |
| Copier.CommitCopy | src/aethereal/backup/copier.py:204-212 | intent committed, renamed, and the canonical name durable, in this order |
| Copier.PublishCopy | src/aethereal/backup/copier.py:213-214 | linked durably, then object and entry VERIFIED |
| Copier.FinalizeCopy | src/aethereal/backup/copier.py:203-214 | one more VERIFIED object, its path recorded, no other path taken, no partial left |
| Copier.TryAgain | src/aethereal/backup/copier.py:199-225 | the next attempt settles the copy or is one more miss |
| Copier.VerifiedMeansHashesAgree | src/aethereal/backup/copier.py:193-242 | by the reads alone: VERIFIED exactly if one of the first attempt and the retries reads the planned content and the device holds its digest, and those before it mismatched, and then all three digests agree; an OSError exactly if a read fails in that place, and what it leaves is what that read delivered |
| Copier.GivenUpReportsTheLast | src/aethereal/backup/copier.py:225-242 | otherwise exactly retries + 1 attempts were made, and the result says of the last one which digest differed and what it was |
| Copier.CopyNewObject | src/aethereal/backup/copier.py:193-242 | ends as the first deciding attempt does; only VERIFIED adds rows or names; a returned failure leaves no partial; an OSError leaves exactly the partial of the attempt that met it |
| Copier.CopyVerifyFinalize | src/aethereal/backup/copier.py:173-242 | the whole of it, or only a link if the canonical file is there |
| RecoveryGoal.StepKeepsGoal | src/aethereal/backup/recovery.py:60-95 | no step of recovery changes the state that recovery is heading for |
| RecoveryGoal.CrashKeepsGoal | src/aethereal/backup/recovery.py:60-95 | nor does a power cut in the middle of it |
| RecoveryGoal.DoomedHasOnlyPendingEntries | src/aethereal/backup/recovery.py:86-93 | an object that recovery discards has no VERIFIED entry, so its foreign-key delete cannot fail |
| RecoveryRuns.RecoveryRunStaysOnCourse | src/aethereal/backup/recovery.py:49-96 | through any number of steps and cuts recovery keeps the goal it began with |
| RecoveryRuns.RecoveryIsConfluent | src/aethereal/backup/recovery.py:49-96 | two recoveries of one state, interrupted at will and in any row order, that both come to an end leave the same manifest and the same store, down to the bytes |
| RecoveryRuns.TerminalIsGoal | src/aethereal/backup/recovery.py:49-96 | where recovery has nothing left to do, manifest and store are the goal |
| RecoveryRuns.NoFinishedCopyIsLost | src/aethereal/backup/copier.py:203-214 | a pending object whose bytes survive under either name ends VERIFIED, with every entry recorded for it VERIFIED and durably linked to those bytes |
| RecoveryRuns.UnprovableObjectsAreDropped | src/aethereal/backup/recovery.py:86-93 | a pending object without its bytes goes, with all its entries |
| RecoveryRuns.InterruptedJobIsFlagged | src/aethereal/db/manifest_repo.py:196-202 | after any recovery that comes to an end a job left copying, verifying or cancelling reads RECOVERY_REQUIRED, and every other job reads what it read |
| RecoveryRuns.EntryIsVerifiedIff | src/aethereal/backup/manifest_journal.py:39-41 | after recovery a kept entry is VERIFIED exactly if it was, or its object was pending: an entry cut off between the two last commits stays PENDING |
| Recovery.PlaceSessionLink | src/aethereal/backup/copier.py:141-143 | (re)creates the link of a pending entry durably; a path conflict cannot arise |
| Recovery.FinishEntries | src/aethereal/backup/recovery.py:81-83 | every pending entry of the object is linked and promoted, and no other row changes |
| Recovery.RenameSurvivor | src/aethereal/backup/recovery.py:78-80 | a surviving partial becomes the canonical file, durably |
| Recovery.FinalizeRow | src/aethereal/backup/recovery.py:77-85 | the row ends VERIFIED; other objects, names and durability are untouched |
| Recovery.DiscardRow | src/aethereal/backup/recovery.py:86-93 | the row and its entries go; its canonical name was never there to unlink |
| Recovery.RecoverRow | src/aethereal/backup/recovery.py:61-93 | finalized exactly if the surviving file rehashes to the expected identity |
| Recovery.RecoverRows | src/aethereal/backup/recovery.py:60-93 | every pending row is reconciled, in whatever order, and the two counts are exact |
| Recovery.RemoveOrphanPartials | src/aethereal/backup/recovery.py:39-46 | unlinks and counts every partial in sight |
| Recovery.FlagInterruptedJobs | src/aethereal/backup/engine.py:227-228 | every job left running reads RECOVERY_REQUIRED |
| Recovery.RecoverOnStartup | src/aethereal/backup/engine.py:221-237 | finished or cut short it is on course for the goal of the state it began with; finished, nothing is left to do, a row that read copying, verifying or cancelling reads RECOVERY_REQUIRED and every other job row is as it was, and the report counts the pending objects that are there and those that are gone; with nothing to do it changes nothing at all |
| Recovery.BootUntilRecovered | src/aethereal/backup/engine.py:221-237 | however often the power goes during recovery, the machine stays on course for the goal of the first boot, and the jobs that were running are flagged |
| Recovery.RecoverTwice | src/aethereal/backup/recovery.py:49-96 | a second recovery finalizes, discards and removes nothing, and leaves every name, byte and row as the first left it |
| Restart.RelinkEntries | src/aethereal/backup/recovery.py:81-83 | links and promotes every pending entry without making the canonical name any more durable |
| Restart.RecoverRowAfterRestart | src/aethereal/backup/recovery.py:60-93 | after a restart without a power cut, the same decision; an object that is kept ends VERIFIED with its entries, and can be lost to the next cut exactly if its canonical name was in sight and not yet fsynced |
| Restart.KilledAfterRenameIsNotDurable | src/aethereal/backup/copier.py:211-212 | a process killed between rename and fsync leaves just such a name |
| Restart.BothAreReachable | src/aethereal/backup/copier.py:95-214 | the steps of a first copy are lawful, so the states it leaves when it is killed after the rename, or cut off between its last two commits, are states of the program |
| Restart.KilledCopyIsVerifiedAndMayBeLost | src/aethereal/backup/recovery.py:67-84 | from the first of them recovery ends with object and entry VERIFIED, and the next cut may take the object |
| Restart.HalfMarkedEntryStaysPending | src/aethereal/backup/manifest_journal.py:39-41 | from the second the entry of a VERIFIED object stays PENDING through every recovery that comes to an end |
| Totals.IndexAgreesWithStore | src/aethereal/db/manifest_repo.py:187-194 | whenever nothing is pending, the destination totals are the number and the bytes of the canonical files |
| Totals.RowsAreFiles | src/aethereal/db/manifest_repo.py:187-194 | whenever nothing is pending, VERIFIED rows and canonical files are in bijection, with equal sizes |
| Totals.AddingToTotals | src/aethereal/db/manifest_repo.py:187-194 | one more VERIFIED object adds one and its size |
| Totals.PartialBytesChange | src/aethereal/backup/copier.py:95-109 | a copy changes the bytes of the partials by what it does to its own partial |
| Capacity.SufficientLeavesReserveAndMargin | src/aethereal/backup/capacity.py:24-124 | sufficient exactly if reserve and margin are free after all new bytes; the shortfall is exact; the reserve is the least that holds the largest file and the floor, the margin the least that respects the percentage and the minimum |
| Capacity.ErrorTells | src/aethereal/backup/capacity.py:31-57 | an argument error names a quantity that is out of range |
| Planner.PlanInOrder | src/aethereal/backup/planner.py:99-139 | the loop keeps plan, seen set, totals and counters in step with the sorted prefix |
| Planner.BuildPlan | src/aethereal/backup/planner.py:78-154 | the plan: sorted, each new identity copied where it first occurs, new bytes, count and largest taken over the set of distinct new identities, blocked exactly if a file blocks |
| Planner.PlanIsTheSortedScan | src/aethereal/backup/planner.py:85-139 | the files of a plan are those of the scan, in path order, with their identities, sizes and classes |
| Planner.PlanCounts | src/aethereal/backup/planner.py:99-154 | each counter of a plan is the number of files of its class, and a plan is blocked exactly if some file is unreadable or in conflict |
| Planner.CopiesAreTheNewIdentities | src/aethereal/backup/planner.py:114-125 | the copies number, add up to and are bounded by the distinct new identities |
| Planner.PlanIsOrderIndependent | src/aethereal/backup/planner.py:85-154 | for distinct paths the plan does not depend on the order of the scan |
| Planner.OneCopyPerIdentity | src/aethereal/backup/planner.py:114-125 | each distinct new identity is copied exactly once, before every same-job link to it |
| Sorting.SortIsCanonical | src/aethereal/backup/planner.py:85 | sorting by distinct keys gives one result for all orders of the input |
| Sorting.BelowIff | src/aethereal/backup/snapshot.py:72-79 | the order is by code points, ascending: a prefix comes first, and else the lesser at the first difference |
| Sorting.SortIsStable | src/aethereal/backup/snapshot.py:72-79 | files with equal keys stay in the order they came in |
| Preflight.ToClassified | src/aethereal/backup/preflight.py:159-173 | pairs each input with the classification of its path, in order |
| Preflight.ClassifyAll | src/aethereal/backup/preflight.py:205-207 | each path gets the classification of its own input, by the object lookup of the manifest |
| Preflight.RunPreflight | src/aethereal/backup/preflight.py:176-268 | plan of the classified scan, capacity for that plan, and the outcome they call for; the argument error of the capacity check exactly if a quantity is negative or the percentage is not one |
| Preflight.OutcomeTells | src/aethereal/backup/preflight.py:206-245 | BLOCKED exactly if a supported file could not be read or the reserve and margin do not stay free; WARNING exactly if not blocked and a file is unsupported |
| Preflight.ClassOfIff | src/aethereal/backup/classification.py:60-73 | what each file of a scan is taken for, by the scan and by what is verified |
| Preflight.BytesAddUp | src/aethereal/backup/preflight.py:238-245 | the scanned bytes are those of the files with an identity, the backed-up bytes those of the files that are backed up |
| Preflight.NothingNewToPlan | src/aethereal/backup/classification.py:61-73 | a scan whose contents are all verified plans no copy, no new byte and no same-job link |
| Runner.VerdictsAt | src/aethereal/backup/runner.py:104-161 | each verdict is settled by the reads of its own file, and by the store as the files before it left it |
| Runner.RunCopy | src/aethereal/backup/runner.py:112-136 | the verdict is the one that the reads of the file call for: copied if they serve it, failed if they mismatch to the end, or failed by its source, with what that read delivered left behind; and only linked if the object is there |
| Runner.RunLink | src/aethereal/backup/runner.py:138-154 | linked exactly if the canonical file is there; a path conflict cannot arise |
| Runner.RunFile | src/aethereal/backup/runner.py:110-161 | the verdict of each action, as the reads and the store settle it, its effect on the object table, and the record it leaves |
| Runner.RunNextFile | src/aethereal/backup/runner.py:104-167 | the verdicts so far, with the next, are those that reads and store settle, and everything known between two files of a job is known again |
| Runner.Count | src/aethereal/backup/runner.py:132-167 | counters, failures and progress follow the verdict; a failing source is counted, and not reported |
| Runner.CountersTell | src/aethereal/backup/runner.py:94-182 | copied, skipped, failed and verified are the numbers of files that were copied, linked to an object that was there before, failed, and came out backed up |
| Runner.FailuresInOrder | src/aethereal/backup/runner.py:125-158 | the failures are the paths of the files that failed, those and no others, in their order |
| Runner.ProgressTells | src/aethereal/backup/runner.py:163-167 | progress is reported once for each file that its source did not fail, in order, with the number and the bytes of such files so far, out of all that are planned |
| Runner.RunJob | src/aethereal/backup/runner.py:71-182 | a blocked plan never runs; otherwise the verdicts of the files before the cancellation are those that reads and store settle, result and progress are theirs, and all that holds between two files holds at the end |
| Runner.TalliesAddUp | src/aethereal/backup/runner.py:94-182 | verified + failed + unsupported is the number of files, and verified = copied + skipped + same-job links |
| Runner.CompletedIffAllVerified | src/aethereal/backup/runner.py:163-172 | COMPLETED exactly if every file was verified; completed at all exactly if every file was verified or unsupported; cancelled exactly if files are left; failed exactly if none is left and some file failed |
| Runner.ProgressIsMonotone | src/aethereal/backup/runner.py:163-167 | progress counts up one by one, its bytes never fall, and both stay within their totals |
| Runner.ProgressIsComplete | src/aethereal/backup/runner.py:125-128 | every file is reported if no source failed |
| Runner.SpentWithinPlan | src/aethereal/backup/runner.py:132-136 | bytes copied and partials left behind stay within the bytes planned for copying |
| Jobs.PlanSavesTheScan | src/aethereal/backup/planner.py:142-154 | a plan that is not blocked saves every readable file of the scan, and nothing else |
| Jobs.CompletedHasAllRecorded | src/aethereal/backup/runner.py:169-172 | a completed outcome means that everything to be saved is recorded VERIFIED |
| Jobs.CapacityIsRespected | src/aethereal/backup/capacity.py:110-124 | at every file boundary copied bytes equal what the canonical files grew by and are within the plan; if source reads that fail deliver no more than was planned for their file, free space stays at reserve plus margin, partials left behind included |
| Jobs.AllBackedUpIffServed | src/aethereal/backup/runner.py:104-172 | every file of an unblocked plan is backed up or set aside exactly if, for each file to be copied, the first attempt that is not a mismatch comes within the limit and is good |
| Jobs.CopyVerdictIff | src/aethereal/backup/runner.py:112-136 | a file to be copied is copied exactly if its reads serve it, and fails by its source exactly if a read fails |
| Jobs.LinkVerdictIff | src/aethereal/backup/runner.py:138-154 | a same-job link stands or falls with the copy of its content, which comes before it |
| Jobs.RepeatAddsNothing | src/aethereal/backup/classification.py:71-73 | a job over verified contents only links, fails nowhere and leaves the object table alone; it reports none copied, and as skipped the number of saved files |
| Jobs.SameObjectsSameStore | src/aethereal/backup/runner.py:138-148 | equal object tables, with nothing pending, mean the same canonical files with the same bytes |
| StateMachine.JobStateMachine.Transition | src/aethereal/backup/state_machine.py:214-227 | accepted exactly if the map allows it; a rejected transition changes nothing |
| StateMachine.MapReadsBackwards | src/aethereal/backup/state_machine.py:57-162 | the map agrees with its converse, which gives for each state those that may come before it |
| StateMachine.MapAllowsCopyWithoutPreflight | src/aethereal/backup/state_machine.py:61-67 | the map by itself lets a copy start without a preflight |
| Engine.EarnedWhenQueued | src/aethereal/backup/engine.py:266-303 | a job that is queued from IDLE came through the whole of preflight without a gap |
| Engine.ItineraryIsEarned | src/aethereal/backup/engine.py:263-381 | a whole backup keeps that true of every queued job so far |
| Engine.ItineraryTells | src/aethereal/backup/engine.py:263-381 | which states a backup passes through, state by state, by what became of it |
| Engine.RestingIff | src/aethereal/backup/engine.py:39-45 | there is a way back to IDLE exactly from the five states of rest |
| Engine.BackupEngine.GenerateJobId | src/aethereal/backup/engine.py:196-199 | the next id of the date, never used before |
| Engine.BackupEngine.Reset | src/aethereal/backup/engine.py:255-261 | leads to IDLE exactly from the states of rest, by their routes |
| Engine.BackupEngine.EnterPreflight | src/aethereal/backup/engine.py:266-276 | an idle engine goes through all of preflight; any other rejects the first transition and stays put |
| Engine.BackupEngine.EnterQueue | src/aethereal/backup/engine.py:297-303 | ready or warning, then queued |
| Engine.BackupEngine.AssessSource | src/aethereal/backup/engine.py:265-279 | preflight touches no table and no file, and comes to a verdict exactly if the engine was idle and the quantities make sense |
| Engine.FinishJobRow | src/aethereal/backup/engine.py:383-392 | the row gets the state of the outcome, completed only where all is recorded |
| Engine.BackupEngine.RunQueued | src/aethereal/backup/engine.py:303-381 | creates the row before any path of the job is written, runs the plan, writes the outcome, and comes to rest |
| Engine.BackupEngine.RunBackup | src/aethereal/backup/engine.py:263-381 | no transition of a backup from IDLE is rejected; a blocked or clock-untrusted one makes no job row and changes nothing; any other is a job under the next id of its date, which came to what its reads and the store it found call for, and whose row reads a state the engine has just passed through; each can be reset; one that the power cuts short leaves at most a row that reads copying |
| Service.BackupService.Start | src/aethereal/web/app.py:70-83 | at most one backup at a time, and one that is started finds the engine idle |
| Service.BackupService.Work | src/aethereal/web/app.py:80-83 | what was started is never rejected by the state machine |
| Backups.SucceedsIffServed | src/aethereal/backup/runner.py:104-172 | a backup that is let through succeeds exactly if it is not cancelled and every file to be copied is served within its attempts; without a warning exactly if nothing is unsupported besides |
| Backups.TrueReadsSucceed | src/aethereal/backup/copier.py:112-126 | end to end: a backup that is let through and not cancelled succeeds if the first read of each file to be copied delivers, in however many chunks, the content preflight saw and the device takes it down |
| Backups.RowTellsTheEnd | src/aethereal/backup/engine.py:343-381 | the row of a finished job reads cancelled exactly if files are left over, failed exactly if none is and one failed, and completed with warnings or without exactly if none failed; it is a state that the engine passed through in that backup, and no other row changed |
| Backups.LetThroughIff | src/aethereal/backup/engine.py:282-297 | a backup is let through exactly if the clock is trusted, every supported file could be read, and the new bytes leave reserve and margin free; else it changes nothing |
| Backups.SuccessIsAFullCopyForever | src/aethereal/backup/engine.py:356-359 | end to end: after a successful backup every readable file of the card has, for good, one VERIFIED entry and a durable session name for a file of its identity |
| Backups.SuccessIsCompleted | src/aethereal/backup/engine.py:356-359 | the row of a successful backup reads completed and was to save exactly what the scan found |
| Backups.VerifiedContentsAreOnlyLinked | src/aethereal/backup/runner.py:137-148 | a backup whose contents are all verified only links |
| Backups.RepeatIsIdempotent | src/aethereal/backup/classification.py:61-73 | a second backup of an unchanged card plans no object and no byte, copies none, fails nowhere, reports as skipped as many files as the first was to save, leaves object table and store alone, and saves the same contents under the same paths |
| Appliance.RunOne | src/aethereal/web/app.py:70-83 | a request is run to its end, and on record with the states it ran between, exactly if the engine can be reset and its quantities make sense |
| Appliance.CutShort | src/aethereal/backup/engine.py:221-237 | a backup is cut short and recovery comes to an end: the row of its job, if there is one, reads RECOVERY_REQUIRED, and no row is left in a running state |
| Appliance.PowerOn | src/aethereal/appliance.py:53-69 | from any state the power left, a lawful run: recovery and then, if their quantities make sense, all requests in order up to the next cut, each of them accepted, never rejected on the way, ended and on record, and starting where the one before ended |
| Appliance.BackupsAreKept | src/aethereal/backup/runner.py:104-172 | whatever happened since, each file that a recorded successful backup read from the card is there now, durable and VERIFIED |
| Backups.BackupRespectsCapacity | src/aethereal/backup/capacity.py:100-124 | the capacity guarantee for a whole backup, from what the reads of its source deliver |
| JobIds.NextIdIsFresh | src/aethereal/backup/engine.py:196-199 | the next id of a date is not in use |
| JobIds.NextIdKeepsSequence | src/aethereal/backup/engine.py:196-199 | using it keeps the ids of every date numbered 1 to n, whichever date the clock gives |
| JobIds.JobIdIsInjective | src/aethereal/backup/engine.py:199 | equal ids have equal dates and numbers, past 999 too |
| JobIds.JobIdReads | src/aethereal/backup/engine.py:196-199 | an id is its date, a dash, and its number in at least three digits, and just three below a thousand |
| JobIds.SessionRootReads | src/aethereal/backup/engine.py:201-205 | a session root is the year, the dashed date, and the id with the sanitized name |
| JobIds.SessionPathIsInjective | src/aethereal/backup/engine.py:201-205 | a session path tells its job and the path within it, whatever the source was called |
| JobIds.SanitizedHasNameChars | src/aethereal/backup/engine.py:58-59 | a sanitized name is not empty and holds only name characters |
| JobIds.SanitizedKeepsNames | src/aethereal/backup/engine.py:58-59 | every name character is kept, every other is an underscore, and an empty name is SOURCE |
| ObjectStore.ObjectPathsDiffer | src/aethereal/backup/object_store.py:15-31 | objects and partials of different digests, and the two of one digest, are different files |
| ObjectStore.ObjectPathReads | src/aethereal/backup/object_store.py:18-31 | a digest has a path exactly if it has four characters, and which one it is |
| ObjectStore.ShardsAreDirectories | src/aethereal/backup/object_store.py:15-31 | an object and its partial share a directory; two objects do exactly if their digests begin alike |
| Snapshot.NormalizeNormalizes | src/aethereal/backup/snapshot.py:36-48 | what normalization lets through is components joined by slashes, without empty, dot or dot-dot ones |
| Snapshot.NormalizedIsFixed | src/aethereal/backup/snapshot.py:36-48 | its fixed points are exactly the normalized paths, so it is idempotent |
| Snapshot.NormalizeIff | src/aethereal/backup/snapshot.py:36-48 | refused exactly if it begins with a slash of either kind, or has a parent reference between slashes of either kind |
| Snapshot.KeptJoins | src/aethereal/backup/snapshot.py:45-48 | of the components only the empty ones and the dots are dropped, and the order is kept |
| Snapshot.ManifestIff | src/aethereal/backup/snapshot.py:51-79 | a manifest is built exactly of records that can be encoded |
| Snapshot.FirstBadPathTells | src/aethereal/backup/snapshot.py:72-79 | a manifest that cannot be built for a path fails with the error of the first such record |
| Snapshot.EncodeRecordIff | src/aethereal/backup/snapshot.py:58-69 | why a record cannot be encoded: its size first, then its path, then its digest |
| Snapshot.RecordExample | src/aethereal/backup/snapshot.py:58-69 | the bytes of one record |
| Snapshot.ManifestIsCanonical | src/aethereal/backup/snapshot.py:72-79 | for distinct normalized paths every permutation of the records gives the same bytes |
| Snapshot.ParseInvertsText | src/aethereal/backup/snapshot.py:60-69 | a parser inverts field joining, decimal printing and record separation |
| Snapshot.ManifestIsText | src/aethereal/backup/snapshot.py:51-79 | the manifest is the UTF-8 of the text that the parser reads |
| Snapshot.ManifestIsInjective | src/aethereal/backup/snapshot.py:54-56 | equal bytes come from the same set of (path, size, digest); a newline in a path does no harm |
| Snapshot.SnapshotDeterminesContents | src/aethereal/backup/snapshot.py:82-90 | with a collision-free digest, one snapshot identity stands for one set of files |
| Snapshot.SnapshotCounts | src/aethereal/backup/snapshot.py:82-90 | the count and the bytes of a snapshot are those of the set of its files |
| Utf8.EncodeIsInjective | src/aethereal/backup/snapshot.py:63 | equal UTF-8 bytes come from equal strings |
| Utf8.EncodeCharReads | src/aethereal/backup/snapshot.py:63 | lead and continuation bytes in the ranges of section 3 of RFC 3629, which add up to the code point |
| Decimals.DecimalRoundTrip | src/aethereal/backup/snapshot.py:64 | reading inverts decimal printing |
| Decimals.PaddedRoundTrip | src/aethereal/backup/engine.py:199 | reading inverts printing in at least three digits |
| Decimals.PaddedHasThreeDigits | src/aethereal/backup/engine.py:199 | padding is to three digits and no further |
| Events.EventBus.Publish | src/aethereal/common/events.py:109-137 | events are numbered from 1 without a gap, and go to those subscribed when they are recorded; the buffer holds all of them, or as many of the latest as its capacity |
| Events.EventBus.EventsSince | src/aethereal/common/events.py:139-142 | all the published events after the given number if there are no more of them than the capacity, else the whole buffer |
| Events.EventBus.Unsubscribe | src/aethereal/common/events.py:102-105 | takes one registration away, if there is one |
| EventSocket.BacklogIsTheBuffer | src/aethereal/web/app.py:357 | the backlog of the connection model is what the bus returns |
| EventSocket.EveryStreamIsConsistent | src/aethereal/web/app.py:348-366 | every interleaving of publishers, dispatch, subscription, replay and delivery accounts for each event |
| EventSocket.SentIsExact | src/aethereal/web/app.py:357-366 | a client that has caught up got every event above the floor exactly once, and no other |
| EventSocket.NothingIsSentTwice | src/aethereal/web/app.py:362-366 | no client is ever sent an event twice |
| EventSocket.ExactlyOnceIff | src/aethereal/web/app.py:354-366 | reconnection is exactly-once precisely if the gap at the snapshot was no larger than the buffer |
| EventSocket.SinceFromTheFutureMisses | src/aethereal/web/app.py:358-366 | a client whose number is ahead of the bus misses every event up to it |
| EventSocket.Connection.Replay | src/aethereal/web/app.py:356-361 | snapshot, and then one send of the model for each event of the backlog, whatever other threads publish in between |
| EventSocket.Connection.OnQueued | src/aethereal/web/app.py:362-366 | one delivery of the model |
| EventSocket.Connection.Serve | src/aethereal/web/app.py:348-370 | the whole handler is a run of the model, whatever other threads do: no event is sent twice, a client that has caught up got each above the floor once, and no subscription is left behind |
| Media.MediaManager.SourceCandidates | src/aethereal/linux/media.py:111-120 | the present cards whose identity is not suppressed, in order; a card is suppressed from its ejection until a poll finds it gone |
| Media.CardsAreToldApart | src/aethereal/linux/media.py:65-76 | cards with identifiers are the same exactly if those are, in whatever slot; others go by path, and for want of one by name |
| Media.OfferedJoins | src/aethereal/linux/media.py:120 | the cards are offered in the order they are listed |
| Media.ReformattedCardIsOffered | src/aethereal/linux/media.py:69-76 | a card reformatted in its slot is offered at once, although the old one was ejected |
| Media.MediaManager.AwaitingRemoval | src/aethereal/linux/media.py:136-144 | true exactly if a suppressed card is present |
| Media.MediaManager.State | src/aethereal/linux/media.py:146-152 | NO_SOURCE exactly if every present card is suppressed, SINGLE_SOURCE exactly if one is not |
| Media.MediaManager.Eject | src/aethereal/linux/media.py:122-134 | every present card is suppressed, no mount is held, only failed unmounts stay attached, and the count is of the newly ejected |
| Media.MediaManager.EjectAll | src/aethereal/linux/media.py:176-179 | no mount is held, and only mounts whose unmounting failed stay attached |
| Media.MediaManager.ReleaseAbsent | src/aethereal/linux/media.py:206-210 | keeps exactly the mounts whose slot is present |
| Media.MediaManager.EnsureMounted | src/aethereal/linux/media.py:194-204 | the mount of the slot if there is one, else a new one for the card |
| Media.MediaManager.CurrentSource | src/aethereal/linux/media.py:162-174 | afterwards every mount is in the slot of a present card that is not suppressed; the root handed out is that card's own exactly if its slot held no mount of another |
| Media.SwappedCardKeepsTheOldMount | src/aethereal/linux/media.py:194-198 | a card swapped in the same slot between two polls is offered under the mount point of the first |
| Media.SuppressedNext | src/aethereal/linux/media.py:111-134 | how one more poll or ejection changes what is suppressed; an ejection does not count as a poll |
| Media.Mark | src/aethereal/linux/media.py:128-133 | adds the present identities and counts the new ones once each |

## Left out

- SHA-256, SQLite internals and PRAGMAs: an abstract digest, and tables whose single statements commit atomically and durably.
- The content_identity table: its row is folded into the object row. An identity row without an object row has no effect on the modelled queries.
- Timestamps, message strings, and the counters stored in a job row: the states compared are those without them.
- The path columns of an object row and the session paths in a plan: they are functions of the digest (`ObjectStore`), and of the session root and the relative path (`JobIds`).
- Cache eviction before the readback: what reached the device is a parameter of the attempt, so the readback is of the device by construction.
- Destination I/O errors, external deletion, bit rot, and the durability of new directories: outside the fault model. An existing object is linked without being hashed again.
- Exceptional exits of a backup other than a rejected transition or a refused capacity argument: a missing source directory, for one, leaves the engine where it was.
- The directory walk, symbolic links and the extension filter of a scan: a scan is any list of inputs with distinct paths.
- The source snapshot that a preflight puts into its result (src/aethereal/backup/preflight.py:203): `Snapshot` models it by itself, and `Preflight.RunPreflight` does not build it.
- Source scan cache, dry run, cancellation token, and event emission by the engine: the token is what it shows before each file; the rest does not touch the destination.
- Engine.BackupEngine.RunBackup: says nothing of the state machine after a power cut, because it is gone with the process.
- Jobs.CapacityIsRespected: counts file contents. Directory entries and the manifest itself are what the operational reserve is for.
- Copier.CopyNewObject: does not bound the space used while a copy is in flight, only what is left when it ends.
- EventSocket.Connection.Serve: events go by their numbers. A send that finds the client gone counts as not made.
- EventSocket.SentIsExact: says nothing of the order of delivery. Callbacks run outside the lock, so the code does not promise one.
- Media: listing devices, mounting and unmounting are inputs and may fail; display names are not modelled.
- The web API, authentication, telemetry, clock trust, LEDs, configuration and schema migrations: they would only add easy members.
