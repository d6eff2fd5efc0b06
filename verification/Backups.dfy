/** What a finished backup is worth: a full copy, for good, which a second backup finds again. */
module Backups {
  import opened Wrappers
  import opened Identity
  import opened FileSystem
  import opened Manifest
  import opened Protocol
  import opened Runs
  import opened Repository
  import opened Copier
  import opened Sorting
  import opened Capacity
  import opened Planner
  import opened Preflight
  import opened Runner
  import opened Jobs
  import opened StateMachine
  import opened Engine

  /** A backup and its end, as one record. */
  datatype Backup = Backup(before: World, after: World, request: Request, settings: Settings, result: EngineResult,
                           verdicts: seq<Verdict>, progress: seq<Progress>)

  /** It went as `BackupEngine.RunBackup` promises. */
  ghost predicate Took(h: Hash, b: Backup) {
    && BackupEnded(h, b.before, b.after, b.request, b.settings, b.result, b.verdicts, b.progress)
    && DistinctBy(InputPath, b.request.inputs) && AllRealizable(h, b.request.inputs)
  }

  predicate Successful(e: EngineResult) {
    e.job.Some? && e.jobId.Some? && (e.job.value.outcome.COMPLETED? || e.job.value.outcome.COMPLETED_WITH_WARNINGS?)
  }

  /** The job of a successful backup reads completed, and was to save exactly what the scan found. */
  lemma SuccessIsCompleted(h: Hash, b: Backup)
    requires Took(h, b) && Successful(b.result)
    ensures var jobs, id := b.after.db.jobs, b.result.jobId.value;
            && id in jobs && (jobs[id].state == BACKUP_COMPLETED || jobs[id].state == BACKUP_COMPLETED_WITH_WARNINGS)
            && IsWanted(b.request.inputs, jobs[id].wanted)
  {
    UseEnded(h, b.before, b.after, b.request, b.settings, b.result, b.verdicts, b.progress);
    UseAssessed(b.before.db, b.request, b.settings.policy, b.result.preflight);
    PlanSavesTheScan(b.before.db, b.request.inputs, b.result.preflight.plan);
  }

  /**
   End to end: once a backup has ended in success, every file that the scan could read has, in
   that and every later state of any run, one VERIFIED session entry, and a durable session name
   for a file with the very identity that preflight computed from the card.
   */
  lemma SuccessIsAFullCopyForever(h: Hash, run: seq<World>, i: nat, k: nat, b: Backup, file: ClassificationInput)
    requires SizeDetermined(h) && IsRun(h, run) && i <= k < |run|
    requires Took(h, b) && Successful(b.result) && b.after == run[i]
    requires file in b.request.inputs && SavedInput(file)
    ensures Holds(h, run[k].disk, Session(b.result.jobId.value, file.rel), file.identity.value)
    ensures OneVerifiedEntry(run[k].db, b.result.jobId.value, file.rel)
  {
    SuccessIsCompleted(h, b);
    CompletedJobIsCompleteForever(h, run, i, k, b.result.jobId.value);
  }

  /** All that a successful backup saw is verified in every later state in which nothing is pending. */
  lemma AllIsVerified(h: Hash, b: Backup, w: World)
    requires Took(h, b) && Successful(b.result) && Inv(h, b.after) && Grows(b.after, w) && Quiescent(w.db)
    ensures forall i <- b.request.inputs | SavedInput(i) :: HasVerified(w.db, i.identity.value)
  {
    SuccessIsCompleted(h, b);
    var job := b.result.jobId.value;
    assert JobsOk(b.after.db) by {
      UseInv(h, b.after);
    }
    forall i <- b.request.inputs | SavedInput(i)
      ensures HasVerified(w.db, i.identity.value)
    {
      assert Recorded(b.after.db, job, i.rel, i.identity.value);
      RecordedStays(b.after, w, job, i.rel, i.identity.value);
      RecordedIsVerified(w, job, i.rel, i.identity.value);
    }
  }

  /** A backup whose contents are all verified only links, and fails nowhere. */
  lemma VerifiedContentsAreOnlyLinked(h: Hash, b: Backup)
    requires Took(h, b) && b.result.job.Some?
    requires forall i <- b.request.inputs | SavedInput(i) :: HasVerified(b.before.db, i.identity.value)
    ensures b.result.preflight.plan.newObjectCount == 0 && b.result.preflight.plan.newObjectBytes == 0
    ensures b.after.db.objects == b.before.db.objects && Quiescent(b.after.db)
    ensures var job := b.result.job.value;
            && !job.outcome.FAILED? && job.copied == 0 && job.bytesCopied == 0 && job.failed == 0 && job.failures == []
            && job.skipped == job.verified
    ensures forall u <- b.verdicts :: u.LinkedExisting? || u.Unsupported?
    ensures var jobs, id := b.after.db.jobs, b.result.jobId;
            && id.Some? && id.value in jobs && IsWanted(b.request.inputs, jobs[id.value].wanted)
            && (Uncancelled(b) ==> b.result.job.value.skipped == |jobs[id.value].wanted|)
  {
    var plan := b.result.preflight.plan;
    UseEnded(h, b.before, b.after, b.request, b.settings, b.result, b.verdicts, b.progress);
    UseAssessed(b.before.db, b.request, b.settings.policy, b.result.preflight);
    PlayedOut(h, b);
    RepeatAddsNothing(h, b.before, b.after, b.result.jobId.value, b.request.inputs, b.request.usage, b.settings.policy,
                      b.result.preflight, b.request.feeds, b.settings.retries, b.verdicts);
    assert Quiescent(b.after.db) by {
      UseJobRan(b.before, b.after, b.result.jobId.value, plan, b.verdicts);
    }
    PlanSavesTheScan(b.before.db, b.request.inputs, plan);
    if Uncancelled(b) {
      NeverCancelled(b.request.cancelled, |plan.files|);
      WantedCounts(plan.files);
      assert SavedAt(plan.files, |plan.files|) == set k: nat | k < |b.verdicts| && Saved(plan.files[k]);
    }
  }

  /**
   Idempotence: a later backup of an unchanged card plans no new object and no new byte, fails
   nowhere, leaves the object table and the store as they are, and is to save the same contents
   under the same paths.
   */
  lemma RepeatIsIdempotent(h: Hash, first: Backup, second: Backup)
    requires Took(h, first) && Successful(first.result) && Took(h, second) && second.result.job.Some?
    requires second.request.inputs == first.request.inputs
    requires Inv(h, first.after) && Inv(h, second.before) && Inv(h, second.after)
    requires Grows(first.after, second.before) && Grows(second.before, second.after) && Quiescent(second.before.db)
    ensures var v, w := second.before, second.after;
            && second.result.preflight.plan.newObjectCount == 0 && second.result.preflight.plan.newObjectBytes == 0
            && !second.result.job.value.outcome.FAILED? && second.result.job.value.copied == 0
            && second.result.job.value.failed == 0 && second.result.job.value.bytesCopied == 0
            && second.result.job.value.skipped == second.result.job.value.verified
            && w.db.objects == v.db.objects
            && (forall sha: string :: Final(sha) in v.disk.now <==> Final(sha) in w.disk.now)
            && (forall sha: string | Final(sha) in v.disk.now :: SameFile(v.disk, w.disk, Final(sha)))
    ensures var i, j := first.result.jobId, second.result.jobId;
            && i.Some? && j.Some? && i.value in first.after.db.jobs && j.value in second.after.db.jobs
            && second.after.db.jobs[j.value].wanted == first.after.db.jobs[i.value].wanted
            && (Uncancelled(second) ==> second.result.job.value.skipped == |first.after.db.jobs[i.value].wanted|)
  {
    SuccessIsCompleted(h, first);
    AllIsVerified(h, first, second.before);
    VerifiedContentsAreOnlyLinked(h, second);
    WantedIsUnique(first.request.inputs, first.after.db.jobs[first.result.jobId.value].wanted,
                   second.after.db.jobs[second.result.jobId.value].wanted);
    SameObjectsSameStore(h, second.before, second.after);
  }

  /** What became of the files of a job is settled by the store it found and by what its sources delivered. */
  lemma PlayedOut(h: Hash, b: Backup)
    requires Took(h, b) && b.result.job.Some?
    ensures var plan := b.result.preflight.plan;
            && |b.verdicts| == FirstCancelled(b.request.cancelled, |plan.files|)
            && b.verdicts == Verdicts(h, ShasOf(b.before.db.objects), plan.files, b.request.feeds, b.settings.retries, |b.verdicts|)
            && b.result.job == Some(ResultOf(plan, b.verdicts))
  {
    UseEnded(h, b.before, b.after, b.request, b.settings, b.result, b.verdicts, b.progress);
  }

  /**
   At the end of a backup the store has grown by what preflight allowed for, and no more: if
   source reads that fail deliver no more than was planned for their file, the reserve and the
   margin are still free, whatever was left behind.
   */
  lemma BackupRespectsCapacity(h: Hash, b: Backup)
    requires SizeDetermined(h) && Took(h, b) && b.result.job.Some?
    requires Inv(h, b.before) && Inv(h, b.after) && Quiescent(b.before.db)
    ensures var preflight := b.result.preflight;
            && b.result.job.value.bytesCopied <= preflight.plan.newObjectBytes
            && (FailingReadsKeepToThePlan(preflight.plan.files, b.request.feeds) ==>
                  b.request.usage.free - (StoreBytes(b.after.disk) - StoreBytes(b.before.disk))
                  >= preflight.capacity.reserve + preflight.capacity.margin)
  {
    UseEnded(h, b.before, b.after, b.request, b.settings, b.result, b.verdicts, b.progress);
    UseAssessed(b.before.db, b.request, b.settings.policy, b.result.preflight);
    PlayedOut(h, b);
    CapacityIsRespected(h, b.before, b.after, b.result.jobId.value, b.request.usage, b.settings.policy, b.result.preflight,
                        b.request.feeds, b.settings.retries, b.verdicts);
  }

  /** The token is found set before none of the files. */
  predicate Uncancelled(b: Backup) {
    forall k | 0 <= k < |b.result.preflight.plan.files| :: !b.request.cancelled(k)
  }

  /**
   When a backup succeeds: a job that was let through is completed exactly if it is not cancelled
   and, for every file to be copied, the first attempt that is not a mismatch comes within the
   limit and is good; and without a warning exactly if, besides, nothing on the card is unsupported.
   */
  lemma SucceedsIffServed(h: Hash, b: Backup)
    requires SizeDetermined(h) && Took(h, b) && b.result.job.Some?
    requires Inv(h, b.before) && Quiescent(b.before.db)
    ensures var plan := b.result.preflight.plan;
            var served := Uncancelled(b) && AllServed(h, plan.files, b.request.feeds, b.settings.retries);
            && (Successful(b.result) <==> served)
            && (b.result.job.value.outcome.COMPLETED? <==> served && plan.unsupportedCount == 0)
  {
    var plan := b.result.preflight.plan;
    BackupPlan(h, b);
    PlayedOut(h, b);
    NeverCancelled(b.request.cancelled, |plan.files|);
    CompletedWithoutWarning(plan, b.verdicts);
    if Uncancelled(b) {
      assert |b.verdicts| == |plan.files|;
      JobSucceedsIffServed(h, b.before, b.request.inputs, plan, b.request.feeds, b.settings.retries);
    }
  }

  lemma NeverCancelled(cancelled: nat -> bool, n: nat)
    ensures FirstCancelled(cancelled, n) == n <==> forall k | 0 <= k < n :: !cancelled(k)
  {
  }

  /**
   When a backup is let through: exactly if the clock is trusted, every supported file of the card
   could be read, and the new bytes leave the reserve and the margin free.
   */
  lemma LetThroughIff(h: Hash, b: Backup)
    requires Took(h, b)
    ensures b.result.job.Some?
            <==> && b.request.clockTrusted
                 && (forall i <- b.request.inputs :: i.unsupported || (!i.unreadable && i.identity.Some?))
                 && b.request.usage.free - b.result.preflight.plan.newObjectBytes
                    >= b.result.preflight.capacity.reserve + b.result.preflight.capacity.margin
    ensures b.result.job.None? ==> b.after == b.before
    ensures b.result.preflightOutcome.BLOCKED? <==> b.result.job.None?
    ensures b.result.preflightOutcome.WARNING? <==> b.result.job.Some? && exists i <- b.request.inputs :: i.unsupported
  {
    UseEnded(h, b.before, b.after, b.request, b.settings, b.result, b.verdicts, b.progress);
    UseAssessed(b.before.db, b.request, b.settings.policy, b.result.preflight);
    OutcomeTells(b.before.db, b.request.inputs, b.request.usage, b.settings.policy, b.result.preflight);
  }

  /** The device holds bytes of the planned digest, and the source was read to its end with the planned content. */
  ghost predicate FirstReadsAreTrue(h: Hash, plan: Plan, feeds: nat -> Feeds) {
    forall k | 0 <= k < |plan.files| && plan.files[k].action.COPY_VERIFY_OBJECT_AND_LINK? && plan.files[k].identity.Some? ::
      var first, id := feeds(k)(0), plan.files[k].identity.value;
      first.opens && !first.breaks && IdentityOf(h, Joined(first.chunks)) == id && h(first.landed) == id.sha
  }

  /**
   End to end: a backup that is let through and not cancelled succeeds, if the first read of each
   file to be copied comes to the end of a source that is as preflight saw it, in however many
   chunks, and the device takes down bytes of that digest.
   */
  lemma TrueReadsSucceed(h: Hash, b: Backup)
    requires SizeDetermined(h) && Took(h, b) && b.result.job.Some?
    requires Inv(h, b.before) && Quiescent(b.before.db) && b.settings.retries >= 0
    requires Uncancelled(b) && FirstReadsAreTrue(h, b.result.preflight.plan, b.request.feeds)
    ensures Successful(b.result)
  {
    var plan := b.result.preflight.plan;
    BackupPlan(h, b);
    CopiesAreRealizable(h, b.before, b.request.inputs, plan.files);
    TrueReadsServe(h, plan, b.request.feeds, b.settings.retries);
    SucceedsIffServed(h, b);
  }

  lemma TrueReadsServe(h: Hash, plan: Plan, feeds: nat -> Feeds, retries: nat)
    requires forall f <- plan.files | f.action.COPY_VERIFY_OBJECT_AND_LINK? :: f.identity.Some?
    requires FirstReadsAreTrue(h, plan, feeds)
    ensures AllServed(h, plan.files, feeds, retries)
  {
    forall k | 0 <= k < |plan.files| && plan.files[k].action.COPY_VERIFY_OBJECT_AND_LINK?
      ensures plan.files[k].identity.Some? && Serves(h, plan.files[k].identity.value, feeds(k), retries)
    {
      assert plan.files[k] in plan.files;
      assert Faithful(h, plan.files[k].identity.value, feeds(k)(0));
    }
  }

  /**
   What the row of a finished job reads: cancelled exactly if files of the plan are left over,
   failed exactly if none is and some file failed, completed with warnings or without exactly if
   none is and none failed. It is a state that the engine passed through in that backup, and no
   other row has changed.
   */
  lemma RowTellsTheEnd(h: Hash, b: Backup)
    requires Took(h, b) && b.result.job.Some?
    ensures b.result.jobId.Some? && b.result.jobId.value in b.after.db.jobs && b.result.jobId.value !in b.before.db.jobs
    ensures var state, vs, n := b.after.db.jobs[b.result.jobId.value].state, b.verdicts, |b.result.preflight.plan.files|;
            && state in Itinerary(b.result)
            && (state == BACKUP_CANCELLED <==> |vs| < n)
            && (state == BACKUP_FAILED <==> |vs| == n && exists u <- vs :: u.Failed? || u.SourceFailed?)
            && (state == BACKUP_COMPLETED_WITH_WARNINGS
                <==> |vs| == n && (forall u <- vs :: !u.Failed? && !u.SourceFailed?) && exists u <- vs :: u.Unsupported?)
            && (state == BACKUP_COMPLETED
                <==> |vs| == n && forall u <- vs :: u.Copied? || u.LinkedExisting? || u.LinkedSameJob?)
    ensures forall j <- b.after.db.jobs | j != b.result.jobId.value :: j in b.before.db.jobs && b.after.db.jobs[j] == b.before.db.jobs[j]
  {
    var plan := b.result.preflight.plan;
    UseEnded(h, b.before, b.after, b.request, b.settings, b.result, b.verdicts, b.progress);
    BackupPlan(h, b);
    PlayedOut(h, b);
    RowIsOnTheWay(b.result);
    CompletedIffAllVerified(plan, b.verdicts);
    KindsOfVerdict(b.verdicts);
  }

  lemma KindsOfVerdict(vs: seq<Verdict>)
    ensures (forall v <- vs :: BackedUp(v)) <==> forall u <- vs :: u.Copied? || u.LinkedExisting? || u.LinkedSameJob?
    ensures (forall v <- vs :: BackedUp(v) || v.Unsupported?) <==> forall u <- vs :: !u.Failed? && !u.SourceFailed?
    ensures (forall v <- vs :: BackedUp(v) || v.Unsupported?) ==>
              ((forall v <- vs :: BackedUp(v)) <==> !exists u <- vs :: u.Unsupported?)
  {
  }

  /** What a job ran was the plan of the scan, and each verdict is one its action can come to. */
  lemma BackupPlan(h: Hash, b: Backup)
    requires Took(h, b) && b.result.job.Some?
    ensures b.result.jobId.Some?
    ensures var plan := b.result.preflight.plan;
            && IsPlan(Classified(b.before.db, b.request.inputs), plan) && !plan.blocked
            && plan.unsupportedCount == CountOf(plan.files, SKIP_UNSUPPORTED) && AllFit(plan.files, b.verdicts)
  {
    UseEnded(h, b.before, b.after, b.request, b.settings, b.result, b.verdicts, b.progress);
    UseAssessed(b.before.db, b.request, b.settings.policy, b.result.preflight);
    UseJobRan(b.before, b.after, b.result.jobId.value, b.result.preflight.plan, b.verdicts);
  }

  lemma CompletedWithoutWarning(plan: Plan, vs: seq<Verdict>)
    requires |vs| <= |plan.files|
    ensures ResultOf(plan, vs).outcome.COMPLETED? ==> plan.unsupportedCount == 0
    ensures ResultOf(plan, vs).outcome.COMPLETED_WITH_WARNINGS? ==> plan.unsupportedCount > 0
    ensures ResultOf(plan, vs).outcome.CANCELLED? <==> |vs| < |plan.files|
  {
  }
}
