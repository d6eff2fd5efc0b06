/**
 What recovery is heading for, as a function of the state a power cut left.

 Every step recovery takes, and every power cut while it is taking them, leaves this goal where
 it was; so however often recovery is interrupted, it ends in the same place.
 */
module RecoveryGoal {
  import opened Wrappers
  import opened Identity
  import opened FileSystem
  import opened Manifest
  import opened Protocol
  import opened Runs

  datatype Goal = Goal(db: Manifest, copies: map<Id, Ino>, files: map<Ino, Inode>)

  function Matching(h: Hash, inodes: map<Ino, Inode>, i: Ino, id: ContentIdentity): Option<Ino> {
    if i in inodes && IdentityOf(h, inodes[i].data) == id then Some(i) else None
  }

  /** The bytes of `id` under the canonical name or, failing that name, under the partial one. */
  function Survivor(h: Hash, inodes: map<Ino, Inode>, names: Names, id: ContentIdentity): Option<Ino> {
    if Final(id.sha) in names then Matching(h, inodes, names[Final(id.sha)], id)
    else if Partial(id.sha) in names then Matching(h, inodes, names[Partial(id.sha)], id)
    else None
  }

  function SurvivorOf(h: Hash, w: World, o: Id): Option<Ino>
    requires o in w.db.objects
  {
    Survivor(h, w.disk.inodes, w.disk.now, w.db.objects[o].identity)
  }

  predicate Pending(db: Manifest, o: Id) {
    o in db.objects && db.objects[o].status == PendingFinalize
  }

  predicate Doomed(h: Hash, w: World, o: Id) {
    Pending(w.db, o) && SurvivorOf(h, w, o).None?
  }

  function GoalEntry(db: Manifest, e: Id): EntryRow
    requires e in db.entries
  {
    if Pending(db, db.entries[e].obj) then db.entries[e].(state := VerifiedEntry) else db.entries[e]
  }

  function GoalJob(row: JobRow): JobRow {
    if Interrupted(row.state) then row.(state := RECOVERY_REQUIRED) else row
  }

  /** Pending objects whose bytes survived are verified with all their entries; the rest go. */
  function GoalOf(h: Hash, w: World): Goal {
    var db := w.db;
    Goal(
      Manifest(
        map o | o in db.objects && !Doomed(h, w, o) :: db.objects[o].(status := VerifiedObject),
        map e | e in db.entries && !Doomed(h, w, db.entries[e].obj) :: GoalEntry(db, e),
        map j | j in db.jobs :: GoalJob(db.jobs[j])),
      map o | o in db.objects && SurvivorOf(h, w, o).Some? :: SurvivorOf(h, w, o).value,
      w.disk.inodes)
  }

  /** The jobs that recovery is heading for: a job left copying, verifying or cancelling needs recovery, and no other changes. */
  lemma RunningJobsAreFlagged(h: Hash, w: World)
    ensures var jobs := GoalOf(h, w).db.jobs;
            && jobs.Keys == w.db.jobs.Keys
            && forall j <- w.db.jobs ::
                 var s := w.db.jobs[j].state;
                 jobs[j] == if s == BACKUP_COPYING || s == BACKUP_VERIFYING || s == BACKUP_CANCELLING
                            then w.db.jobs[j].(state := RECOVERY_REQUIRED) else w.db.jobs[j]
  {
  }

  /** All that a cut could bring back has the same survivors as what is in sight. */
  ghost predicate Steady(h: Hash, w: World) {
    && AllFlushed(w.disk)
    && forall m <- w.disk.images, o <- w.db.objects ::
         Survivor(h, w.disk.inodes, m, w.db.objects[o].identity) == SurvivorOf(h, w, o)
  }

  /** Nothing left for recovery to do. */
  ghost predicate Terminal(w: World) {
    && (forall o <- w.db.objects :: w.db.objects[o].status == VerifiedObject)
    && (forall p <- w.disk.now :: !p.Partial?)
    && (forall j <- w.db.jobs :: !Interrupted(w.db.jobs[j].state))
  }

  /** The order recovery keeps to, beyond the rules of the store protocol. */
  ghost predicate RecoveryRule(h: Hash, w: World, a: Action)
    requires Defined(w, a)
  {
    match a
    case UnlinkPartial(sha) =>
      forall o <- w.db.objects | Pending(w.db, o) && w.db.objects[o].identity.sha == sha :: Doomed(h, w, o)
    case Rename(sha) => Still(w.disk, Final(sha)) && Still(w.disk, Partial(sha))
    case SyncDirectory(_) => true
    case Link(_, _, _) => true
    case VerifyEntry(_, o) => Pending(w.db, o)
    case SetObject(o, status) =>
      && status == VerifiedObject
      && forall e <- w.db.entries | w.db.entries[e].obj == o :: w.db.entries[e].state == VerifiedEntry
    case DeletePendingEntries(o) => Doomed(h, w, o)
    case DeleteObject(o) => Doomed(h, w, o)
    case SetJobState(j, state) => Interrupted(w.db.jobs[j].state) && state == RECOVERY_REQUIRED
    case _ => false
  }

  /** A cut leaves recovery with the goal it had. */
  lemma CrashKeepsGoal(h: Hash, w: World, e: Disk)
    requires Inv(h, w) && Steady(h, w) && CrashImage(w.disk, e)
    ensures Steady(h, w.(disk := e)) && GoalOf(h, w.(disk := e)) == GoalOf(h, w)
  {
    UseInv(h, w);
    assert e.inodes == w.disk.inodes;
    var v := w.(disk := e);
    SameSurvivorsSameGoal(h, w, v);
  }

  lemma SameSurvivorsSameGoal(h: Hash, w: World, v: World)
    requires v.db == w.db && v.disk.inodes == w.disk.inodes
    requires forall o <- w.db.objects :: SurvivorOf(h, v, o) == SurvivorOf(h, w, o)
    ensures GoalOf(h, v) == GoalOf(h, w)
  {
  }

  /** A canonical name in sight survives as it is: the store invariant vouches for its bytes. */
  lemma FinalSurvives(h: Hash, w: World, o: Id)
    requires SizeDetermined(h) && Inv(h, w) && o in w.db.objects
    requires Final(w.db.objects[o].identity.sha) in w.disk.now
    ensures SurvivorOf(h, w, o) == Some(w.disk.now[Final(w.db.objects[o].identity.sha)])
  {
    UseInv(h, w);
    FileHasIdentity(h, w.disk, w.db.objects[o].identity);
  }

  predicate Touches(e: Edit, sha: string) {
    match e
    case Bind(p, _) => p == Final(sha) || p == Partial(sha)
    case Unbind(p) => p == Final(sha) || p == Partial(sha)
    case Move(p, q, _) => p == Final(sha) || p == Partial(sha) || q == Final(sha) || q == Partial(sha)
  }

  /** An edit that leaves every survivor alone, in sight and in every image. */
  lemma HarmlessEditKeepsGoal(h: Hash, w: World, e: Edit)
    requires DiskOk(w.disk) && Steady(h, w)
    requires forall o <- w.db.objects, m <- w.disk.images | Touches(e, w.db.objects[o].identity.sha) ::
               Survivor(h, w.disk.inodes, Edited(m, e), w.db.objects[o].identity) == SurvivorOf(h, w, o)
    ensures var v := w.(disk := WithEdit(w.disk, e));
            Steady(h, v) && GoalOf(h, v) == GoalOf(h, w)
  {
    var v := w.(disk := WithEdit(w.disk, e));
    forall o <- w.db.objects, m <- w.disk.images
      ensures Survivor(h, w.disk.inodes, Edited(m, e), w.db.objects[o].identity) == SurvivorOf(h, w, o)
    {
      if !Touches(e, w.db.objects[o].identity.sha) {
        assert Survivor(h, w.disk.inodes, m, w.db.objects[o].identity) == SurvivorOf(h, w, o);
      }
    }
    SameSurvivorsSameGoal(h, w, v);
  }

  lemma UnlinkKeepsGoal(h: Hash, w: World, sha: string)
    requires Inv(h, w) && Steady(h, w)
    requires Enabled(h, w, UnlinkPartial(sha)) && RecoveryRule(h, w, UnlinkPartial(sha))
    ensures var v := Apply(w, UnlinkPartial(sha)); Steady(h, v) && GoalOf(h, v) == GoalOf(h, w)
  {
    UseInv(h, w);
    var e := Unbind(Partial(sha));
    forall o <- w.db.objects, m <- w.disk.images | Touches(e, w.db.objects[o].identity.sha)
      ensures Survivor(h, w.disk.inodes, Edited(m, e), w.db.objects[o].identity) == SurvivorOf(h, w, o)
    {
      assert Survivor(h, w.disk.inodes, m, w.db.objects[o].identity) == SurvivorOf(h, w, o);
      if !Pending(w.db, o) {
        assert Durable(w.disk, Final(sha));
        assert Final(sha) in Edited(m, e);
      }
    }
    HarmlessEditKeepsGoal(h, w, e);
  }

  lemma RenameKeepsGoal(h: Hash, w: World, sha: string)
    requires DiskOk(w.disk) && Steady(h, w)
    requires Enabled(h, w, Rename(sha)) && RecoveryRule(h, w, Rename(sha))
    ensures var v := Apply(w, Rename(sha)); Steady(h, v) && GoalOf(h, v) == GoalOf(h, w)
  {
    HarmlessEditKeepsGoal(h, w, Move(Partial(sha), Final(sha), w.disk.now[Partial(sha)]));
  }

  lemma LinkKeepsGoal(h: Hash, w: World, sha: string, job: string, rel: string)
    requires DiskOk(w.disk) && Steady(h, w) && Enabled(h, w, Link(sha, job, rel))
    ensures var v := Apply(w, Link(sha, job, rel)); Steady(h, v) && GoalOf(h, v) == GoalOf(h, w)
  {
    HarmlessEditKeepsGoal(h, w, Bind(Session(job, rel), w.disk.now[Final(sha)]));
  }

  lemma SyncKeepsGoal(h: Hash, w: World, dir: Directory)
    requires Steady(h, w)
    ensures var v := Apply(w, SyncDirectory(dir)); Steady(h, v) && GoalOf(h, v) == GoalOf(h, w)
  {
    var v := Apply(w, SyncDirectory(dir));
    forall m <- v.disk.images, o <- w.db.objects
      ensures Survivor(h, w.disk.inodes, m, w.db.objects[o].identity) == SurvivorOf(h, w, o)
    {
      var m0 :| m0 in w.disk.images && m == Merged(m0, w.disk.now, dir);
      var id := w.db.objects[o].identity;
      assert Survivor(h, w.disk.inodes, m0, id) == SurvivorOf(h, w, o);
      assert DirectoryOf(Final(id.sha)) == DirectoryOf(Partial(id.sha));
    }
    SameSurvivorsSameGoal(h, w, v);
  }

  lemma VerifyEntryKeepsGoal(h: Hash, w: World, e: Id, o: Id)
    requires Steady(h, w) && Enabled(h, w, VerifyEntry(e, o)) && Pending(w.db, o)
    ensures var v := Apply(w, VerifyEntry(e, o)); Steady(h, v) && GoalOf(h, v) == GoalOf(h, w)
  {
    var v := Apply(w, VerifyEntry(e, o));
    SameIdentitiesSameSurvivors(h, w, v);
    SameGoalEntries(h, w, v);
  }

  /** Where no entry's goal changes, and the same objects are doomed, the entries of the goal are the same. */
  lemma SameGoalEntries(h: Hash, w: World, v: World)
    requires v.db.entries.Keys == w.db.entries.Keys
    requires forall e <- w.db.entries ::
               v.db.entries[e].obj == w.db.entries[e].obj && GoalEntry(v.db, e) == GoalEntry(w.db, e)
    requires forall o: Id :: Doomed(h, v, o) <==> Doomed(h, w, o)
    ensures GoalOf(h, v).db.entries == GoalOf(h, w).db.entries
  {
  }

  lemma SetObjectKeepsGoal(h: Hash, w: World, o: Id)
    requires Steady(h, w) && o in w.db.objects && SurvivorOf(h, w, o).Some?
    requires forall e <- w.db.entries | w.db.entries[e].obj == o :: w.db.entries[e].state == VerifiedEntry
    ensures var v := Apply(w, SetObject(o, VerifiedObject)); Steady(h, v) && GoalOf(h, v) == GoalOf(h, w)
  {
    var v := Apply(w, SetObject(o, VerifiedObject));
    SameIdentitiesSameSurvivors(h, w, v);
    assert forall f <- w.db.entries :: GoalEntry(v.db, f) == GoalEntry(w.db, f);
    assert forall p <- w.db.objects :: Doomed(h, v, p) <==> Doomed(h, w, p);
    assert GoalOf(h, v).db.objects == GoalOf(h, w).db.objects;
    assert GoalOf(h, v).db.entries == GoalOf(h, w).db.entries;
  }

  lemma SameIdentitiesSameSurvivors(h: Hash, w: World, v: World)
    requires Steady(h, w) && v.disk == w.disk && v.db.objects.Keys == w.db.objects.Keys
    requires forall p <- w.db.objects :: v.db.objects[p].identity == w.db.objects[p].identity
    ensures Steady(h, v)
    ensures forall p <- w.db.objects :: SurvivorOf(h, v, p) == SurvivorOf(h, w, p)
    ensures GoalOf(h, v).copies == GoalOf(h, w).copies
  {
  }

  /** A verified entry stands on a durable canonical file, so its object is never given up. */
  lemma DoomedHasOnlyPendingEntries(h: Hash, w: World, o: Id)
    requires SizeDetermined(h) && Inv(h, w) && Doomed(h, w, o)
    ensures forall e <- w.db.entries | w.db.entries[e].obj == o :: w.db.entries[e].state == PendingEntry
  {
    UseInv(h, w);
    forall e <- w.db.entries | w.db.entries[e].obj == o
      ensures w.db.entries[e].state == PendingEntry
    {
      if w.db.entries[e].state == VerifiedEntry {
        FinalSurvives(h, w, o);
      }
    }
  }

  lemma DeletePendingKeepsGoal(h: Hash, w: World, o: Id)
    requires Steady(h, w) && Doomed(h, w, o)
    requires forall e <- w.db.entries | w.db.entries[e].obj == o :: w.db.entries[e].state == PendingEntry
    ensures var v := Apply(w, DeletePendingEntries(o)); Steady(h, v) && GoalOf(h, v) == GoalOf(h, w)
  {
    var v := Apply(w, DeletePendingEntries(o));
    assert forall f <- v.db.entries :: GoalEntry(v.db, f) == GoalEntry(w.db, f);
    assert GoalOf(h, v).db.entries == GoalOf(h, w).db.entries;
  }

  lemma DeleteObjectKeepsGoal(h: Hash, w: World, o: Id)
    requires Steady(h, w) && Doomed(h, w, o) && Defined(w, DeleteObject(o))
    ensures var v := Apply(w, DeleteObject(o)); Steady(h, v) && GoalOf(h, v) == GoalOf(h, w)
  {
    var v := Apply(w, DeleteObject(o));
    assert forall p <- v.db.objects :: SurvivorOf(h, v, p) == SurvivorOf(h, w, p);
    assert forall p <- v.db.objects :: Doomed(h, v, p) <==> Doomed(h, w, p);
    assert forall f <- v.db.entries :: GoalEntry(v.db, f) == GoalEntry(w.db, f);
    assert GoalOf(h, v).db.entries == GoalOf(h, w).db.entries;
    assert GoalOf(h, v).db.objects == GoalOf(h, w).db.objects;
  }

  lemma FlagJobKeepsGoal(h: Hash, w: World, j: string)
    requires Steady(h, w) && j in w.db.jobs && Interrupted(w.db.jobs[j].state)
    ensures var v := Apply(w, SetJobState(j, RECOVERY_REQUIRED));
            Steady(h, v) && GoalOf(h, v) == GoalOf(h, w)
  {
    var v := Apply(w, SetJobState(j, RECOVERY_REQUIRED));
    SameIdentitiesSameSurvivors(h, w, v);
    SameGoalEntries(h, w, v);
    FlaggedJobs(w.db.jobs, j);
  }

  lemma FlaggedJobs(jobs: map<string, JobRow>, j: string)
    requires j in jobs && Interrupted(jobs[j].state)
    ensures var flagged := jobs[j := jobs[j].(state := RECOVERY_REQUIRED)];
            (map k | k in flagged :: GoalJob(flagged[k])) == (map k | k in jobs :: GoalJob(jobs[k]))
  {
  }

  /** No step of recovery moves its goal. */
  lemma StepKeepsGoal(h: Hash, w: World, a: Action)
    requires SizeDetermined(h) && Inv(h, w) && Steady(h, w)
    requires Enabled(h, w, a) && RecoveryRule(h, w, a)
    ensures Steady(h, Apply(w, a)) && GoalOf(h, Apply(w, a)) == GoalOf(h, w)
  {
    UseInv(h, w);
    match a
    case UnlinkPartial(sha) => UnlinkKeepsGoal(h, w, sha);
    case Rename(sha) => RenameKeepsGoal(h, w, sha);
    case SyncDirectory(dir) => SyncKeepsGoal(h, w, dir);
    case Link(sha, job, rel) => LinkKeepsGoal(h, w, sha, job, rel);
    case VerifyEntry(e, o) => VerifyEntryKeepsGoal(h, w, e, o);
    case SetObject(o, _) => FinalSurvives(h, w, o); SetObjectKeepsGoal(h, w, o);
    case DeletePendingEntries(o) => DoomedHasOnlyPendingEntries(h, w, o); DeletePendingKeepsGoal(h, w, o);
    case DeleteObject(o) => DeleteObjectKeepsGoal(h, w, o);
    case SetJobState(j, _) => FlagJobKeepsGoal(h, w, j);
    case _ =>
  }

  /** The two things a recovery in progress keeps. */
  datatype Bearing = Steadily | Aimed

  ghost predicate Bears(h: Hash, w: World, goal: Goal, bearing: Bearing) {
    match bearing
    case Steadily => Steady(h, w)
    case Aimed => GoalOf(h, w) == goal
  }

  /** Recovery is on its way from `w` to `goal`. */
  ghost predicate OnCourse(h: Hash, w: World, goal: Goal) {
    forall bearing: Bearing :: Bears(h, w, goal, bearing)
  }

  lemma UseCourse(h: Hash, w: World, goal: Goal)
    requires OnCourse(h, w, goal)
    ensures Steady(h, w) && GoalOf(h, w) == goal
  {
    assert Bears(h, w, goal, Steadily) && Bears(h, w, goal, Aimed);
  }

  lemma MakeCourse(h: Hash, w: World)
    requires Steady(h, w)
    ensures OnCourse(h, w, GoalOf(h, w))
  {
    forall bearing: Bearing
      ensures Bears(h, w, GoalOf(h, w), bearing)
    {
      match bearing
      case Steadily =>
      case Aimed =>
    }
  }

  lemma StepStaysOnCourse(h: Hash, w: World, a: Action, goal: Goal)
    requires SizeDetermined(h) && Inv(h, w) && OnCourse(h, w, goal)
    requires Enabled(h, w, a) && RecoveryRule(h, w, a)
    ensures OnCourse(h, Apply(w, a), goal)
  {
    UseCourse(h, w, goal);
    StepKeepsGoal(h, w, a);
    MakeCourse(h, Apply(w, a));
  }

  lemma CrashStaysOnCourse(h: Hash, w: World, e: Disk, goal: Goal)
    requires Inv(h, w) && OnCourse(h, w, goal) && CrashImage(w.disk, e)
    ensures OnCourse(h, w.(disk := e), goal)
  {
    UseCourse(h, w, goal);
    CrashKeepsGoal(h, w, e);
    MakeCourse(h, w.(disk := e));
  }
}
