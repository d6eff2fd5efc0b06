/** Every run of the store protocol, with a power cut wherever one likes, is safe. */
module Runs {
  import opened Identity
  import opened FileSystem
  import opened Manifest
  import opened JobIds
  import opened Protocol

  /** One step obeying its rule, or a power cut followed by a boot. */
  ghost predicate Next(h: Hash, v: World, w: World) {
    || (exists a: Action :: Enabled(h, v, a) && w == Apply(v, a))
    || (CrashImage(v.disk, w.disk) && w.db == v.db)
  }

  ghost predicate IsRun(h: Hash, run: seq<World>) {
    && |run| > 0 && run[0] == Blank
    && forall i, k | 0 <= i < k < |run| && k == i + 1 :: Next(h, run[i], run[k])
  }

  lemma RunStep(h: Hash, run: seq<World>, k: nat)
    requires IsRun(h, run) && 0 < k < |run|
    ensures Next(h, run[k - 1], run[k])
  {
  }

  lemma NextKeepsInv(h: Hash, v: World, w: World)
    requires SizeDetermined(h) && Inv(h, v) && Next(h, v, w)
    ensures Inv(h, w) && Grows(v, w)
  {
    if CrashImage(v.disk, w.disk) && w.db == v.db {
      CrashKeepsInv(h, v, w.disk);
    } else {
      var a: Action :| Enabled(h, v, a) && w == Apply(v, a);
      StepKeepsInv(h, v, a);
    }
  }

  lemma {:induction false} EveryRunIsSafe(h: Hash, run: seq<World>, k: nat)
    requires SizeDetermined(h) && IsRun(h, run) && k < |run|
    ensures Inv(h, run[k])
  {
    if k == 0 {
      MakeInv(h, Blank);
    } else {
      EveryRunIsSafe(h, run, k - 1);
      RunStep(h, run, k);
      NextKeepsInv(h, run[k - 1], run[k]);
    }
  }

  lemma GrowsReflexive(h: Hash, w: World)
    requires Inv(h, w)
    ensures Grows(w, w)
  {
    UseInv(h, w);
    MakeGrows(w, w);
  }

  lemma GrowsTransitive(u: World, v: World, w: World)
    requires Grows(u, v) && Grows(v, w)
    ensures Grows(u, w)
  {
    UseGrows(u, v);
    UseGrows(v, w);
    MakeGrows(u, w);
  }

  lemma LastStepGrows(h: Hash, run: seq<World>, k: nat)
    requires SizeDetermined(h) && IsRun(h, run) && 0 < k < |run|
    ensures Grows(run[k - 1], run[k])
  {
    EveryRunIsSafe(h, run, k - 1);
    RunStep(h, run, k);
    NextKeepsInv(h, run[k - 1], run[k]);
  }

  /** What is verified at some instant of a run is there, unchanged, at every later one. */
  lemma {:induction false} EveryRunGrows(h: Hash, run: seq<World>, i: nat, k: nat)
    requires SizeDetermined(h) && IsRun(h, run) && i <= k < |run|
    ensures Grows(run[i], run[k])
    decreases k - i
  {
    if i == k {
      EveryRunIsSafe(h, run, i);
      GrowsReflexive(h, run[i]);
    } else {
      EveryRunGrows(h, run, i, k - 1);
      LastStepGrows(h, run, k);
      GrowsTransitive(run[i], run[k - 1], run[k]);
    }
  }

  /** The job table numbers the jobs of each day from 1, and gives each the session root of its id. */
  ghost predicate WellNamed(jobs: map<string, JobRow>) {
    && Sequential(jobs.Keys)
    && forall j <- jobs :: exists day: Day, name: string :: jobs[j].session == SessionRoot(day, j, name)
  }

  lemma NewJobKeepsNames(jobs: map<string, JobRow>, job: string, row: JobRow)
    requires WellNamed(jobs) && NewJob(jobs.Keys, job, row.session)
    ensures WellNamed(jobs[job := row])
  {
    var day, name := UseNewJob(jobs.Keys, job, row.session);
    NextIdKeepsSequence(jobs.Keys, day);
    assert jobs[job := row].Keys == jobs.Keys + {job};
  }

  lemma SameNames(jobs: map<string, JobRow>, job: string, row: JobRow)
    requires WellNamed(jobs) && job in jobs && row.session == jobs[job].session
    ensures WellNamed(jobs[job := row])
  {
    assert jobs[job := row].Keys == jobs.Keys;
  }

  lemma StepOnJobs(w: World, a: Action)
    requires Defined(w, a)
    ensures Apply(w, a).db.jobs ==
            match a
            case CreateJob(job, row) => w.db.jobs[job := row]
            case SetJobState(job, state) => w.db.jobs[job := w.db.jobs[job].(state := state)]
            case _ => w.db.jobs
  {
  }

  lemma NextKeepsNames(h: Hash, v: World, w: World)
    requires WellNamed(v.db.jobs) && Next(h, v, w)
    ensures WellNamed(w.db.jobs)
  {
    if !(CrashImage(v.disk, w.disk) && w.db == v.db) {
      var a: Action :| Enabled(h, v, a) && w == Apply(v, a);
      StepOnJobs(v, a);
      match a
      case CreateJob(job, row) => NewJobKeepsNames(v.db.jobs, job, row);
      case SetJobState(job, state) => SameNames(v.db.jobs, job, v.db.jobs[job].(state := state));
      case _ =>
    }
  }

  /**
   At every instant of every run, whatever the clock and the power did, the job ids of each date
   are exactly those numbered 1 to n.
   */
  lemma {:induction false} JobIdsAreSequential(h: Hash, run: seq<World>, k: nat)
    requires IsRun(h, run) && k < |run|
    ensures WellNamed(run[k].db.jobs)
  {
    if k > 0 {
      JobIdsAreSequential(h, run, k - 1);
      RunStep(h, run, k);
      NextKeepsNames(h, run[k - 1], run[k]);
    }
  }

  /** The session paths of two jobs never coincide, and within a job a path is its relative path. */
  lemma SessionPathsAreDisjoint(h: Hash, run: seq<World>, k: nat, i: string, j: string, rel: string, other: string)
    requires IsRun(h, run) && k < |run| && i in run[k].db.jobs && j in run[k].db.jobs
    requires SessionPath(run[k].db.jobs[i].session, rel) == SessionPath(run[k].db.jobs[j].session, other)
    ensures i == j && rel == other
  {
    JobIdsAreSequential(h, run, k);
    var jobs := run[k].db.jobs;
    var d0: Day, name0: string :| jobs[i].session == SessionRoot(d0, i, name0);
    var d1: Day, name1: string :| jobs[j].session == SessionRoot(d1, j, name1);
    var day0: Day, k0: nat :| i == JobId(day0, k0);
    var day1: Day, k1: nat :| j == JobId(day1, k1);
    SessionPathIsInjective(d0, day0, k0, name0, rel, d1, day1, k1, name1, other);
  }

  /** `p` names a file with exactly this identity, and no power cut can change that. */
  ghost predicate Holds(h: Hash, d: Disk, p: Path, id: ContentIdentity) {
    Durable(d, p) && d.now[p] in d.inodes && IdentityOf(h, d.inodes[d.now[p]].data) == id
  }

  /**
   At every instant of every run a VERIFIED row has a durable canonical file with its digest and
   size, and every canonical file in sight, on this side of a cut or beyond it, has its name for
   a digest. The second half is why an existing canonical file may be linked unread.
   */
  lemma VerifiedObjectsAreOnDisk(h: Hash, run: seq<World>, k: nat)
    requires SizeDetermined(h) && IsRun(h, run) && k < |run|
    ensures var w := run[k];
            && (forall o <- w.db.objects | w.db.objects[o].status == VerifiedObject ::
                  Holds(h, w.disk, Final(w.db.objects[o].identity.sha), w.db.objects[o].identity))
            && (forall m <- w.disk.images, sha: string | Final(sha) in m ::
                  m[Final(sha)] in w.disk.inodes && h(w.disk.inodes[m[Final(sha)]].data) == sha)
  {
    EveryRunIsSafe(h, run, k);
    var w := run[k];
    UseInv(h, w);
    forall o <- w.db.objects | w.db.objects[o].status == VerifiedObject
      ensures Holds(h, w.disk, Final(w.db.objects[o].identity.sha), w.db.objects[o].identity)
    {
      var id := w.db.objects[o].identity;
      FileHasIdentity(h, w.disk, id);
    }
  }

  lemma FileHasIdentity(h: Hash, d: Disk, id: ContentIdentity)
    requires SizeDetermined(h) && DiskOk(d) && StoreOk(h, d) && Realizable(h, id)
    requires Final(id.sha) in d.now
    ensures d.now[Final(id.sha)] in d.inodes && d.inodes[d.now[Final(id.sha)]].flushed
    ensures IdentityOf(h, d.inodes[d.now[Final(id.sha)]].data) == id
  {
    var data := d.inodes[d.now[Final(id.sha)]].data;
    assert Realizable(h, IdentityOf(h, data));
    DigestDeterminesIdentity(h, IdentityOf(h, data), id);
  }

  /** There is one row for an identity, and while one is left no two rows share a digest. */
  lemma OneRowPerDigest(h: Hash, run: seq<World>, k: nat, o: Id, p: Id)
    requires SizeDetermined(h) && IsRun(h, run) && k < |run|
    requires o in run[k].db.objects && p in run[k].db.objects
    requires run[k].db.objects[o].identity.sha == run[k].db.objects[p].identity.sha
    ensures o == p
  {
    EveryRunIsSafe(h, run, k);
    UseInv(h, run[k]);
    DigestDeterminesIdentity(h, run[k].db.objects[o].identity, run[k].db.objects[p].identity);
  }

  /** The path has exactly one session entry, and that entry is VERIFIED. */
  ghost predicate OneVerifiedEntry(db: Manifest, job: string, rel: string) {
    exists e <- db.entries ::
      && db.entries[e].job == job && db.entries[e].rel == rel && db.entries[e].state == VerifiedEntry
      && forall f <- db.entries | db.entries[f].job == job && db.entries[f].rel == rel :: f == e
  }

  /**
   Once the row of a job reads completed, then in that and in every later state, through any
   number of jobs, power cuts and recoveries, each path it was to save has exactly one session
   entry; that entry is VERIFIED, and a durable session name holds what preflight hashed.
   */
  lemma CompletedJobIsCompleteForever(h: Hash, run: seq<World>, i: nat, k: nat, job: string)
    requires SizeDetermined(h) && IsRun(h, run) && i <= k < |run|
    requires job in run[i].db.jobs
    requires run[i].db.jobs[job].state == BACKUP_COMPLETED || run[i].db.jobs[job].state == BACKUP_COMPLETED_WITH_WARNINGS
    ensures var w, wanted := run[k], run[i].db.jobs[job].wanted;
            && job in w.db.jobs && w.db.jobs[job].state == run[i].db.jobs[job].state
            && (forall rel <- wanted ::
                  Holds(h, w.disk, Session(job, rel), wanted[rel]) && OneVerifiedEntry(w.db, job, rel))
  {
    var w, wanted := run[k], run[i].db.jobs[job].wanted;
    EveryRunGrows(h, run, i, k);
    CompletedJobStays(run[i], w, job);
    EveryRunIsSafe(h, run, k);
    forall rel <- wanted
      ensures Holds(h, w.disk, Session(job, rel), wanted[rel]) && OneVerifiedEntry(w.db, job, rel)
    {
      CompletedPathIsHeld(h, w, job, rel);
    }
  }

  lemma CompletedJobStays(v: World, w: World, job: string)
    requires Grows(v, w) && job in v.db.jobs && Completed(v.db.jobs[job].state)
    ensures job in w.db.jobs && w.db.jobs[job] == v.db.jobs[job]
  {
    UseGrows(v, w);
  }

  lemma CompletedPathIsHeld(h: Hash, w: World, job: string, rel: string)
    requires SizeDetermined(h) && Inv(h, w) && job in w.db.jobs && Completed(w.db.jobs[job].state)
    requires rel in w.db.jobs[job].wanted
    ensures Holds(h, w.disk, Session(job, rel), w.db.jobs[job].wanted[rel]) && OneVerifiedEntry(w.db, job, rel)
  {
    assert Recorded(w.db, job, rel, w.db.jobs[job].wanted[rel]) by {
      UseInv(h, w);
    }
    RecordedIsHeld(h, w, job, rel, w.db.jobs[job].wanted[rel]);
  }

  /** What is recorded VERIFIED is on the disk for good, under the one entry of its path. */
  lemma RecordedIsHeld(h: Hash, w: World, job: string, rel: string, id: ContentIdentity)
    requires SizeDetermined(h) && Inv(h, w) && Recorded(w.db, job, rel, id)
    ensures Holds(h, w.disk, Session(job, rel), id) && OneVerifiedEntry(w.db, job, rel)
  {
    UseInv(h, w);
    var e :| && e in w.db.entries && w.db.entries[e].job == job && w.db.entries[e].rel == rel
             && w.db.entries[e].state == VerifiedEntry
             && w.db.entries[e].obj in w.db.objects && w.db.objects[w.db.entries[e].obj].identity == id;
    assert Realizable(h, id);
    FileHasIdentity(h, w.disk, id);
  }

  /** With a collision-free digest, what a completed job saved for a path is the bytes preflight read. */
  lemma CompletedJobHoldsTheBytes(h: Hash, run: seq<World>, i: nat, k: nat, job: string, rel: string, source: Bytes)
    requires CollisionFree(h) && IsRun(h, run) && i <= k < |run|
    requires job in run[i].db.jobs
    requires run[i].db.jobs[job].state == BACKUP_COMPLETED || run[i].db.jobs[job].state == BACKUP_COMPLETED_WITH_WARNINGS
    requires rel in run[i].db.jobs[job].wanted && run[i].db.jobs[job].wanted[rel] == IdentityOf(h, source)
    ensures var d := run[k].disk;
            && Durable(d, Session(job, rel)) && d.now[Session(job, rel)] in d.inodes
            && d.inodes[d.now[Session(job, rel)]].data == source
  {
    assert SizeDetermined(h);
    CompletedJobIsCompleteForever(h, run, i, k, job);
    var d := run[k].disk;
    assert h(d.inodes[d.now[Session(job, rel)]].data) == h(source);
  }
}
