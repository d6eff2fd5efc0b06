/** Recovery, interrupted any number of times, always ends in the same state. */
module RecoveryRuns {
  import opened Wrappers
  import opened Identity
  import opened FileSystem
  import opened Manifest
  import opened Protocol
  import opened Runs
  import opened RecoveryGoal

  /** A step of recovery, or a power cut in the middle of it. */
  ghost predicate RecoveryNext(h: Hash, v: World, w: World) {
    || (exists a: Action :: Enabled(h, v, a) && RecoveryRule(h, v, a) && w == Apply(v, a))
    || (CrashImage(v.disk, w.disk) && w.db == v.db)
  }

  ghost predicate IsRecoveryRun(h: Hash, run: seq<World>) {
    |run| > 0 && forall i, k | 0 <= i < k < |run| && k == i + 1 :: RecoveryNext(h, run[i], run[k])
  }

  lemma BootIsSteady(h: Hash, w: World, e: Disk)
    requires Inv(h, w) && CrashImage(w.disk, e)
    ensures Inv(h, w.(disk := e)) && Steady(h, w.(disk := e))
  {
    CrashKeepsInv(h, w, e);
    UseInv(h, w);
  }

  lemma RecoveryNextStaysOnCourse(h: Hash, v: World, w: World, goal: Goal)
    requires SizeDetermined(h) && Inv(h, v) && OnCourse(h, v, goal) && RecoveryNext(h, v, w)
    ensures Inv(h, w) && OnCourse(h, w, goal)
  {
    if CrashImage(v.disk, w.disk) && w.db == v.db {
      CrashKeepsInv(h, v, w.disk);
      CrashStaysOnCourse(h, v, w.disk, goal);
    } else {
      var a: Action :| Enabled(h, v, a) && RecoveryRule(h, v, a) && w == Apply(v, a);
      StepKeepsInv(h, v, a);
      StepStaysOnCourse(h, v, a, goal);
    }
  }

  /** Through any number of steps and cuts, recovery is heading for the goal it started with. */
  lemma {:induction false} RecoveryRunStaysOnCourse(h: Hash, run: seq<World>, k: nat, goal: Goal)
    requires SizeDetermined(h) && IsRecoveryRun(h, run) && Inv(h, run[0]) && OnCourse(h, run[0], goal) && k < |run|
    ensures Inv(h, run[k]) && OnCourse(h, run[k], goal)
  {
    if k == 0 {
    } else {
      RecoveryRunStaysOnCourse(h, run, k - 1, goal);
      RecoveryNextStaysOnCourse(h, run[k - 1], run[k], goal);
    }
  }

  /** Where recovery has nothing left to do, the manifest and the store are the goal. */
  lemma TerminalIsGoal(h: Hash, w: World)
    requires SizeDetermined(h) && Inv(h, w) && Terminal(w)
    ensures GoalOf(h, w).db == w.db
    ensures GoalOf(h, w).copies.Keys == w.db.objects.Keys
    ensures forall o <- w.db.objects ::
              Final(w.db.objects[o].identity.sha) in w.disk.now
              && GoalOf(h, w).copies[o] == w.disk.now[Final(w.db.objects[o].identity.sha)]
  {
    forall o <- w.db.objects
      ensures Final(w.db.objects[o].identity.sha) in w.disk.now
      ensures SurvivorOf(h, w, o) == Some(w.disk.now[Final(w.db.objects[o].identity.sha)])
    {
      UseInv(h, w);
      FinalSurvives(h, w, o);
    }
    SettledTablesAreGoal(h, w);
  }

  lemma SettledTablesAreGoal(h: Hash, w: World)
    requires Terminal(w)
    ensures GoalOf(h, w).db == w.db
  {
    assert GoalOf(h, w).db.objects == w.db.objects;
    assert GoalOf(h, w).db.entries == w.db.entries;
    assert GoalOf(h, w).db.jobs == w.db.jobs;
  }

  /** Two worlds have the same manifest and the same object store, down to the bytes. */
  ghost predicate SameStore(v: World, w: World) {
    && v.db == w.db
    && (forall sha: string :: Final(sha) in v.disk.now <==> Final(sha) in w.disk.now)
    && (forall sha: string | Final(sha) in v.disk.now && Final(sha) in w.disk.now ::
          && v.disk.now[Final(sha)] == w.disk.now[Final(sha)]
          && v.disk.now[Final(sha)] in v.disk.inodes && v.disk.now[Final(sha)] in w.disk.inodes
          && v.disk.inodes[v.disk.now[Final(sha)]] == w.disk.inodes[v.disk.now[Final(sha)]])
  }

  /**
   Recovery is confluent and may be interrupted at will: whatever the cuts and whatever the
   order of the rows, two recoveries from one state that both come to an end agree.
   */
  lemma RecoveryIsConfluent(h: Hash, run: seq<World>, other: seq<World>)
    requires SizeDetermined(h) && IsRecoveryRun(h, run) && IsRecoveryRun(h, other)
    requires run[0] == other[0] && Inv(h, run[0]) && Steady(h, run[0])
    requires Terminal(run[|run| - 1]) && Terminal(other[|other| - 1])
    ensures SameStore(run[|run| - 1], other[|other| - 1])
  {
    var goal := GoalOf(h, run[0]);
    MakeCourse(h, run[0]);
    RecoveryRunStaysOnCourse(h, run, |run| - 1, goal);
    RecoveryRunStaysOnCourse(h, other, |other| - 1, goal);
    SameGoalSameStore(h, run[|run| - 1], other[|other| - 1], goal);
  }

  /** There is one finished state for a goal. */
  lemma SameGoalSameStore(h: Hash, v: World, w: World, goal: Goal)
    requires SizeDetermined(h) && Inv(h, v) && Inv(h, w) && Terminal(v) && Terminal(w)
    requires OnCourse(h, v, goal) && OnCourse(h, w, goal)
    ensures SameStore(v, w)
  {
    FinishedStateIsGoal(h, v, goal);
    FinishedStateIsGoal(h, w, goal);
    forall sha: string
      ensures Final(sha) in v.disk.now <==> Final(sha) in w.disk.now
      ensures Final(sha) in v.disk.now && Final(sha) in w.disk.now ==>
                v.disk.now[Final(sha)] == w.disk.now[Final(sha)] && v.disk.now[Final(sha)] in v.disk.inodes
    {
      if Final(sha) in v.disk.now {
        FinalHasRow(h, v, sha);
      }
      if Final(sha) in w.disk.now {
        FinalHasRow(h, w, sha);
      }
    }
  }

  lemma FinalHasRow(h: Hash, w: World, sha: string)
    requires Inv(h, w) && Final(sha) in w.disk.now
    ensures HasRow(w.db, sha) && w.disk.now[Final(sha)] in w.disk.inodes
  {
    UseInv(h, w);
  }

  /** Where recovery has come to an end, the manifest and the store are the goal it had. */
  lemma FinishedStateIsGoal(h: Hash, w: World, goal: Goal)
    requires SizeDetermined(h) && Inv(h, w) && Terminal(w) && OnCourse(h, w, goal)
    ensures w.db == goal.db && w.disk.inodes == goal.files
    ensures goal.copies.Keys == w.db.objects.Keys
    ensures forall o <- w.db.objects ::
              Final(w.db.objects[o].identity.sha) in w.disk.now
              && goal.copies[o] == w.disk.now[Final(w.db.objects[o].identity.sha)]
  {
    UseCourse(h, w, goal);
    TerminalIsGoal(h, w);
  }

  /** The verified bytes of `o` are in sight, under its canonical or its partial name. */
  ghost predicate BytesSurvive(h: Hash, w: World, o: Id)
    requires o in w.db.objects
  {
    var id := w.db.objects[o].identity;
    || Final(id.sha) in w.disk.now
    || (&& Partial(id.sha) in w.disk.now && w.disk.now[Partial(id.sha)] in w.disk.inodes
        && IdentityOf(h, w.disk.inodes[w.disk.now[Partial(id.sha)]].data) == id)
  }

  /**
   No finished copy is lost: if the bytes of a pending object are there when recovery starts, a
   recovery that comes to an end has verified the object and every session entry recorded for
   it, with durable names for those very bytes, and no source was needed.
   */
  lemma NoFinishedCopyIsLost(h: Hash, run: seq<World>, o: Id)
    requires SizeDetermined(h) && IsRecoveryRun(h, run) && Inv(h, run[0]) && Steady(h, run[0])
    requires Terminal(run[|run| - 1])
    requires Pending(run[0].db, o) && BytesSurvive(h, run[0], o)
    ensures var v, w := run[0], run[|run| - 1];
            && w.db.objects.Keys >= {o} && w.db.objects[o] == v.db.objects[o].(status := VerifiedObject)
            && Holds(h, w.disk, Final(v.db.objects[o].identity.sha), v.db.objects[o].identity)
            && (forall e <- v.db.entries | v.db.entries[e].obj == o ::
                  && e in w.db.entries && w.db.entries[e] == v.db.entries[e].(state := VerifiedEntry)
                  && Holds(h, w.disk, Session(v.db.entries[e].job, v.db.entries[e].rel), v.db.objects[o].identity))
  {
    var v, w, goal := run[0], run[|run| - 1], GoalOf(h, run[0]);
    MakeCourse(h, v);
    RecoveryRunStaysOnCourse(h, run, |run| - 1, goal);
    FinishedStateIsGoal(h, w, goal);
    if Final(v.db.objects[o].identity.sha) in v.disk.now {
      FinalSurvives(h, v, o);
    }
    GoalKeeps(h, v, o);
    VerifiedIsHeld(h, w, o);
  }

  /** A verified object, and every verified entry of it, holds its bytes. */
  lemma VerifiedIsHeld(h: Hash, w: World, o: Id)
    requires SizeDetermined(h) && Inv(h, w) && o in w.db.objects && w.db.objects[o].status == VerifiedObject
    ensures Holds(h, w.disk, Final(w.db.objects[o].identity.sha), w.db.objects[o].identity)
    ensures forall e <- w.db.entries | w.db.entries[e].obj == o && w.db.entries[e].state == VerifiedEntry ::
              Holds(h, w.disk, Session(w.db.entries[e].job, w.db.entries[e].rel), w.db.objects[o].identity)
  {
    UseInv(h, w);
    FileHasIdentity(h, w.disk, w.db.objects[o].identity);
  }

  lemma GoalKeeps(h: Hash, v: World, o: Id)
    requires Pending(v.db, o) && !Doomed(h, v, o)
    ensures var db := GoalOf(h, v).db;
            && o in db.objects && db.objects[o] == v.db.objects[o].(status := VerifiedObject)
            && (forall e <- v.db.entries | v.db.entries[e].obj == o ::
                  e in db.entries && db.entries[e] == v.db.entries[e].(state := VerifiedEntry))
  {
  }

  /** And nothing else is kept: an object without surviving bytes goes, with its entries. */
  lemma UnprovableObjectsAreDropped(h: Hash, run: seq<World>, o: Id)
    requires SizeDetermined(h) && IsRecoveryRun(h, run) && Inv(h, run[0]) && Steady(h, run[0])
    requires Terminal(run[|run| - 1])
    requires Pending(run[0].db, o) && !BytesSurvive(h, run[0], o)
    ensures var w := run[|run| - 1];
            o !in w.db.objects && forall e <- w.db.entries :: w.db.entries[e].obj != o
  {
    MakeCourse(h, run[0]);
    RecoveryRunStaysOnCourse(h, run, |run| - 1, GoalOf(h, run[0]));
    FinishedStateIsGoal(h, run[|run| - 1], GoalOf(h, run[0]));
    assert Doomed(h, run[0], o);
  }

  /**
   What becomes of a job: after a recovery that comes to an end, a row that read copying,
   verifying or cancelling reads RECOVERY_REQUIRED, and every other row is as it was.
   */
  lemma InterruptedJobIsFlagged(h: Hash, run: seq<World>, j: string)
    requires SizeDetermined(h) && IsRecoveryRun(h, run) && Inv(h, run[0]) && Steady(h, run[0])
    requires Terminal(run[|run| - 1]) && j in run[0].db.jobs
    ensures var before, after := run[0].db.jobs, run[|run| - 1].db.jobs;
            && j in after
            && if before[j].state == BACKUP_COPYING || before[j].state == BACKUP_VERIFYING || before[j].state == BACKUP_CANCELLING
               then after[j] == before[j].(state := RECOVERY_REQUIRED) else after[j] == before[j]
  {
    MakeCourse(h, run[0]);
    RecoveryRunStaysOnCourse(h, run, |run| - 1, GoalOf(h, run[0]));
    FinishedStateIsGoal(h, run[|run| - 1], GoalOf(h, run[0]));
    RunningJobsAreFlagged(h, run[0]);
  }

  /**
   What becomes of a session entry. Recovery only looks at the entries of pending objects: an
   entry left PENDING under an object that is VERIFIED already, by a cut between the two commits
   that end a copy, stays PENDING.
   */
  lemma EntryIsVerifiedIff(h: Hash, run: seq<World>, e: Id)
    requires SizeDetermined(h) && IsRecoveryRun(h, run) && Inv(h, run[0]) && Steady(h, run[0])
    requires Terminal(run[|run| - 1])
    requires e in run[0].db.entries && !Doomed(h, run[0], run[0].db.entries[e].obj)
    ensures var before, after := run[0].db, run[|run| - 1].db;
            && e in after.entries
            && (after.entries[e].state == VerifiedEntry
                <==> before.entries[e].state == VerifiedEntry || Pending(before, before.entries[e].obj))
  {
    MakeCourse(h, run[0]);
    RecoveryRunStaysOnCourse(h, run, |run| - 1, GoalOf(h, run[0]));
    FinishedStateIsGoal(h, run[|run| - 1], GoalOf(h, run[0]));
  }
}
