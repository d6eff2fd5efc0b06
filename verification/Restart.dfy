/**
 A restart without a power cut. The process is killed, and what it saw is still in sight, fsynced
 or not. Recovery fsyncs the shard directory of an object only when it renames it itself, so what
 it marks VERIFIED is not always safe.
 */
module Restart {
  import opened Wrappers
  import opened Identity
  import opened FileSystem
  import opened Manifest
  import opened JobIds
  import opened Protocol
  import opened Runs
  import opened RecoveryGoal
  import opened RecoveryRuns
  import opened Machines
  import opened Recovery

  /** `d` may come back from a power cut without the file it has under `p` now. */
  ghost predicate MayLose(d: Disk, p: Path)
    requires p in d.now
  {
    exists e: Disk :: CrashImage(d, e) && !(p in e.now && e.now[p] == d.now[p])
  }

  lemma MayLoseIffNotDurable(d: Disk, p: Path)
    requires p in d.now
    ensures MayLose(d, p) <==> !Durable(d, p)
  {
    if !Durable(d, p) {
      var m :| m in d.images && !(p in m && m[p] == d.now[p]);
      var e := Disk(d.next, map i | i in d.inodes :: Inode(d.inodes[i].data, true), m, {m});
      assert CrashImage(d, e);
    }
  }

  /** `e` has the canonical file of `sha` that `d` has, and it is as durable. */
  ghost predicate SameFinal(d: Disk, e: Disk, sha: string) {
    && Final(sha) in d.now && Final(sha) in e.now && e.now[Final(sha)] == d.now[Final(sha)]
    && (Durable(e, Final(sha)) <==> Durable(d, Final(sha)))
  }

  lemma LinkKeepsFinal(d: Disk, job: string, rel: string, i: Ino, sha: string)
    requires Final(sha) in d.now
    ensures SameFinal(d, WithEdit(d, Bind(Session(job, rel), i)), sha)
  {
    var e := WithEdit(d, Bind(Session(job, rel), i));
    assert forall m <- d.images :: m in e.images;
  }

  lemma SessionSyncKeepsFinal(d: Disk, dir: Directory, sha: string)
    requires dir.SessionDirectory? && Final(sha) in d.now
    ensures SameFinal(d, WithSync(d, dir), sha)
  {
    var e := WithSync(d, dir);
    forall m <- d.images
      ensures Merged(m, d.now, dir) in e.images
      ensures Final(sha) in Merged(m, d.now, dir) <==> Final(sha) in m
      ensures Final(sha) in m ==> Merged(m, d.now, dir)[Final(sha)] == m[Final(sha)]
    {
    }
    forall m <- e.images
      ensures exists m0 :: m0 in d.images && m == Merged(m0, d.now, dir)
    {
    }
  }

  /** Where a session name recorded for `o` is in sight, it is of the canonical file. */
  ghost predicate NoConflict(w: World, o: Id, sha: string) {
    forall e <- PendingEntries(w.db, o) ::
      var p := Session(w.db.entries[e].job, w.db.entries[e].rel);
      p in w.disk.now ==> Final(sha) in w.disk.now && w.disk.now[p] == w.disk.now[Final(sha)]
  }

  lemma NoConflictAtFirst(h: Hash, w: World, o: Id)
    requires Inv(h, w) && o in w.db.objects
    ensures NoConflict(w, o, w.db.objects[o].identity.sha)
  {
    UseInv(h, w);
  }

  /** Links and promotes one pending entry, as recovery does whether or not the canonical file is durable. */
  method RelinkEntry(w: World, o: Id, e: Id) returns (v: World)
    requires o in w.db.objects && e in PendingEntries(w.db, o)
    requires Final(w.db.objects[o].identity.sha) in w.disk.now && NoConflict(w, o, w.db.objects[o].identity.sha)
    ensures v.db == w.db.(entries := w.db.entries[e := w.db.entries[e].(state := VerifiedEntry)])
    ensures SameFinal(w.disk, v.disk, w.db.objects[o].identity.sha) && NoConflict(v, o, w.db.objects[o].identity.sha)
  {
    var sha, row := w.db.objects[o].identity.sha, w.db.entries[e];
    v := w;
    if Session(row.job, row.rel) !in w.disk.now {
      v := Apply(v, Link(sha, row.job, row.rel));
      LinkKeepsFinal(w.disk, row.job, row.rel, w.disk.now[Final(sha)], sha);
    }
    SessionSyncKeepsFinal(v.disk, DirectoryOf(Session(row.job, row.rel)), sha);
    v := Apply(v, SyncDirectory(DirectoryOf(Session(row.job, row.rel))));
    v := Apply(v, VerifyEntry(e, o));
  }

  /** Links and promotes every pending entry of `o`; the canonical file is no more durable for it. */
  method RelinkEntries(w: World, o: Id) returns (v: World)
    requires o in w.db.objects
    requires Final(w.db.objects[o].identity.sha) in w.disk.now && NoConflict(w, o, w.db.objects[o].identity.sha)
    ensures v.db == w.db.(entries := Promoted(w.db.entries, o))
    ensures SameFinal(w.disk, v.disk, w.db.objects[o].identity.sha)
  {
    v := w;
    while PendingEntries(v.db, o) != {}
      invariant v.db == w.db.(entries := v.db.entries) && Promoted(v.db.entries, o) == Promoted(w.db.entries, o)
      invariant SameFinal(w.disk, v.disk, w.db.objects[o].identity.sha) && NoConflict(v, o, w.db.objects[o].identity.sha)
      decreases PendingEntries(v.db, o)
    {
      var e :| e in PendingEntries(v.db, o);
      PromotingOne(v.db, o, e);
      v := RelinkEntry(v, o, e);
    }
    NoneToPromote(v.db, o);
  }

  /** Renames the surviving partial, and fsyncs the shard directory. */
  method RenameDurably(w: World, sha: string) returns (v: World)
    requires Final(sha) !in w.disk.now && Partial(sha) in w.disk.now
    ensures v.db == w.db && Durable(v.disk, Final(sha))
    ensures forall p: Path | p.Session? :: (p in v.disk.now <==> p in w.disk.now)
  {
    v := Apply(w, Rename(sha));
    SyncMakesDurable(v.disk, Final(sha));
    v := Apply(v, SyncDirectory(DirectoryOf(Final(sha))));
  }

  /** Drops a row, with whatever files it has. */
  method DropAfterRestart(w: World, o: Id) returns (v: World)
    requires o in w.db.objects
    requires forall e <- w.db.entries | w.db.entries[e].obj == o :: w.db.entries[e].state == PendingEntry
    ensures v.db.objects == w.db.objects - {o} && v.db.jobs == w.db.jobs
    ensures Final(w.db.objects[o].identity.sha) !in v.disk.now && Partial(w.db.objects[o].identity.sha) !in v.disk.now
  {
    var sha := w.db.objects[o].identity.sha;
    v := w;
    if Partial(sha) in v.disk.now {
      v := Apply(v, UnlinkPartial(sha));
    }
    if Final(sha) in v.disk.now {
      v := Apply(v, UnlinkFinal(sha));
    }
    v := Apply(v, DeletePendingEntries(o));
    v := Apply(v, DeleteObject(o));
  }

  /**
   What recovery makes of a PENDING_FINALIZE row on the disk that the killed process left. It
   decides as after a power cut, and an object it keeps ends VERIFIED with all its entries; but
   the next power cut may take that object exactly if its canonical name was in sight already,
   and had not been fsynced.
   */
  method RecoverRowAfterRestart(h: Hash, w: World, o: Id, chunkBytes: int) returns (kept: bool, v: World)
    requires SizeDetermined(h) && Inv(h, w) && Pending(w.db, o) && chunkBytes > 0
    ensures kept <==> !Doomed(h, w, o)
    ensures v.db.objects == Reconciled(w.db.objects, o, kept) && v.db.jobs == w.db.jobs
    ensures kept ==> v.db.entries == Promoted(w.db.entries, o)
    ensures var final := Final(w.db.objects[o].identity.sha);
            && (kept <==> final in v.disk.now)
            && (kept ==> (MayLose(v.disk, final) <==> final in w.disk.now && !Durable(w.disk, final)))
  {
    var expected := w.db.objects[o].identity;
    var candidate: Option<Ino> :=
      if Final(expected.sha) in w.disk.now then Some(w.disk.now[Final(expected.sha)])
      else if Partial(expected.sha) in w.disk.now then Some(w.disk.now[Partial(expected.sha)])
      else None;
    kept := false;
    VisibleNamesHaveData(h, w);
    if candidate.Some? {
      var reader := new Reader(w.disk.inodes[candidate.value].data);
      var found := HashStream(h, reader, chunkBytes);
      kept := found.value == expected;
    }
    if !kept {
      DoomedHasOnlyPendingEntries(h, w, o);
      v := DropAfterRestart(w, o);
      return;
    }
    NoConflictAtFirst(h, w, o);
    v := w;
    if Final(expected.sha) !in w.disk.now {
      v := RenameDurably(w, expected.sha);
    }
    v := RelinkEntries(v, o);
    v := Apply(v, SetObject(o, VerifiedObject));
    MayLoseIffNotDurable(v.disk, Final(expected.sha));
  }

  /** And a process killed between the rename of a copy and the fsync that follows leaves just that. */
  lemma KilledAfterRenameIsNotDurable(h: Hash, w: World, sha: string)
    requires Inv(h, w) && Enabled(h, w, Rename(sha))
    ensures var v := Apply(w, Rename(sha));
            Final(sha) in v.disk.now && !Durable(v.disk, Final(sha))
  {
    UseInv(h, w);
    assert w.disk.now in Apply(w, Rename(sha)).disk.images;
  }

  /** A run of the store protocol comes to `w`. */
  ghost predicate Reachable(h: Hash, w: World) {
    exists run: seq<World> :: IsRun(h, run) && run[|run| - 1] == w
  }

  /** `steps`, each obeying its rule, take `w` to `v`. */
  ghost predicate Lawful(h: Hash, w: World, steps: seq<Action>, v: World)
    decreases |steps|
  {
    if steps == [] then v == w
    else exists next: World :: Takes(h, w, steps[0], next) && Lawful(h, next, steps[1..], v)
  }

  /** The step obeys its rule, and takes `v` to `w`. */
  ghost predicate Takes(h: Hash, v: World, a: Action, w: World) {
    Enabled(h, v, a) && Apply(v, a) == w
  }

  lemma {:induction false} LawfulIsReachable(h: Hash, w: World, steps: seq<Action>, v: World)
    requires Reachable(h, w) && Lawful(h, w, steps, v)
    ensures Reachable(h, v)
    decreases |steps|
  {
    if steps != [] {
      var next: World :| Takes(h, w, steps[0], next) && Lawful(h, next, steps[1..], v);
      var run: seq<World> :| IsRun(h, run) && run[|run| - 1] == w;
      assert Next(h, w, next);
      LongerRun(h, run, next);
      assert (run + [next])[|run| + 1 - 1] == next;
      LawfulIsReachable(h, next, steps[1..], v);
    }
  }

  lemma ReachableIsSafe(h: Hash, w: World)
    requires SizeDetermined(h) && Reachable(h, w)
    ensures Inv(h, w)
  {
    var run: seq<World> :| IsRun(h, run) && run[|run| - 1] == w;
    var last := |run| - 1;
    EveryRunIsSafe(h, run, last);
    assert run[last] == w;
  }

  lemma BlankIsReachable(h: Hash)
    ensures Reachable(h, Blank)
  {
    assert IsRun(h, [Blank]);
  }

  /** A first copy: of `data`, for the path `rel` of a first job. */
  datatype Copy = Copy(job: string, session: string, rel: string, data: Bytes)

  ghost predicate FirstCopy(c: Copy) {
    c.data != [] && NewJob({}, c.job, c.session)
  }

  function JobOf(h: Hash, c: Copy): JobRow {
    JobRow(BACKUP_COPYING, c.session, map[c.rel := IdentityOf(h, c.data)])
  }

  /** The steps that the backup takes for it, up to the rename. */
  function CopySteps(h: Hash, c: Copy): seq<Action> {
    [CreateJob(c.job, JobOf(h, c)), CreatePartial(h(c.data)), Append(0, c.data), FsyncFile(0, c.data),
     InsertObject(1, ObjectRow(IdentityOf(h, c.data), PendingFinalize)),
     InsertEntry(1, EntryRow(c.job, 1, c.rel, PendingEntry)), Rename(h(c.data))]
  }

  /** The steps from there up to the first of its last two commits. */
  function MarkSteps(h: Hash, c: Copy): seq<Action> {
    [SyncDirectory(DirectoryOf(Final(h(c.data)))), Link(h(c.data), c.job, c.rel),
     SyncDirectory(DirectoryOf(Session(c.job, c.rel))), SetObject(1, VerifiedObject)]
  }

  function TablesOf(h: Hash, c: Copy, status: ObjectStatus): Manifest {
    Manifest(map[1 := ObjectRow(IdentityOf(h, c.data), status)],
             map[1 := EntryRow(c.job, 1, c.rel, PendingEntry)],
             map[c.job := JobOf(h, c)])
  }

  function PartialOnly(h: Hash, c: Copy): Names {
    map[Partial(h(c.data)) := 0]
  }

  function FinalOnly(h: Hash, c: Copy): Names {
    map[Final(h(c.data)) := 0]
  }

  function BothNames(h: Hash, c: Copy): Names {
    map[Final(h(c.data)) := 0, Session(c.job, c.rel) := 0]
  }

  function OneFile(data: Bytes, flushed: bool, now: Names, images: set<Names>): Disk {
    Disk(1, map[0 := Inode(data, flushed)], now, images)
  }

  /** What the process leaves if it is killed after the rename. */
  function Killed(h: Hash, c: Copy): World {
    World(OneFile(c.data, true, FinalOnly(h, c), {map[], PartialOnly(h, c), FinalOnly(h, c)}), TablesOf(h, c, PendingFinalize))
  }

  /** What it leaves if the power goes between the two commits. */
  function HalfMarked(h: Hash, c: Copy): World {
    World(OneFile(c.data, true, BothNames(h, c), {BothNames(h, c)}), TablesOf(h, c, VerifiedObject))
  }

  lemma EditedPair(d: Disk, e: Edit, a: Names, b: Names)
    requires d.images == {a, b}
    ensures WithEdit(d, e).images == {a, b, Edited(a, e), Edited(b, e)}
  {
  }

  lemma MergedTriple(d: Disk, dir: Directory, a: Names, b: Names, c: Names)
    requires d.images == {a, b, c}
    ensures WithSync(d, dir).images == {Merged(a, d.now, dir), Merged(b, d.now, dir), Merged(c, d.now, dir)}
  {
  }

  lemma DiskOfRename(h: Hash, c: Copy)
    ensures WithEdit(OneFile(c.data, true, PartialOnly(h, c), {map[], PartialOnly(h, c)}),
                     Move(Partial(h(c.data)), Final(h(c.data)), 0))
            == Killed(h, c).disk
  {
    var d := OneFile(c.data, true, PartialOnly(h, c), {map[], PartialOnly(h, c)});
    var e := Move(Partial(h(c.data)), Final(h(c.data)), 0);
    EditedPair(d, e, map[], PartialOnly(h, c));
    assert Edited(map[], e) == FinalOnly(h, c) == Edited(PartialOnly(h, c), e);
  }

  lemma DiskOfShardSync(h: Hash, c: Copy)
    ensures WithSync(Killed(h, c).disk, DirectoryOf(Final(h(c.data)))) == OneFile(c.data, true, FinalOnly(h, c), {FinalOnly(h, c)})
  {
    var d, dir := Killed(h, c).disk, DirectoryOf(Final(h(c.data)));
    MergedTriple(d, dir, map[], PartialOnly(h, c), FinalOnly(h, c));
    assert Merged(map[], d.now, dir) == FinalOnly(h, c);
    assert Merged(PartialOnly(h, c), d.now, dir) == FinalOnly(h, c);
    assert Merged(FinalOnly(h, c), d.now, dir) == FinalOnly(h, c);
  }

  lemma DiskOfLink(h: Hash, c: Copy)
    ensures WithEdit(OneFile(c.data, true, FinalOnly(h, c), {FinalOnly(h, c)}), Bind(Session(c.job, c.rel), 0))
            == OneFile(c.data, true, BothNames(h, c), {FinalOnly(h, c), BothNames(h, c)})
  {
    var d, e := OneFile(c.data, true, FinalOnly(h, c), {FinalOnly(h, c)}), Bind(Session(c.job, c.rel), 0);
    EditedPair(d, e, FinalOnly(h, c), FinalOnly(h, c));
    assert Edited(FinalOnly(h, c), e) == BothNames(h, c);
  }

  lemma DiskOfSessionSync(h: Hash, c: Copy)
    ensures WithSync(OneFile(c.data, true, BothNames(h, c), {FinalOnly(h, c), BothNames(h, c)}), DirectoryOf(Session(c.job, c.rel)))
            == HalfMarked(h, c).disk
  {
    var d := OneFile(c.data, true, BothNames(h, c), {FinalOnly(h, c), BothNames(h, c)});
    var dir := DirectoryOf(Session(c.job, c.rel));
    MergedTriple(d, dir, FinalOnly(h, c), BothNames(h, c), BothNames(h, c));
    MergedSessions(h, c, FinalOnly(h, c));
    MergedSessions(h, c, BothNames(h, c));
  }

  lemma MergedSessions(h: Hash, c: Copy, names: Names)
    requires names == FinalOnly(h, c) || names == BothNames(h, c)
    ensures Merged(names, BothNames(h, c), DirectoryOf(Session(c.job, c.rel))) == BothNames(h, c)
  {
    var final, session := Final(h(c.data)), Session(c.job, c.rel);
    assert DirectoryOf(final) != DirectoryOf(session);
    var merged := Merged(names, BothNames(h, c), DirectoryOf(session));
    assert merged.Keys == {final, session};
  }

  /** The disk and the tables while the copy is streamed, `data` being what the file has. */
  function Streaming(h: Hash, c: Copy, data: Bytes, flushed: bool): World {
    World(OneFile(data, flushed, PartialOnly(h, c), {map[], PartialOnly(h, c)}), EmptyManifest.(jobs := map[c.job := JobOf(h, c)]))
  }

  /** The tables while its intent is committed. */
  function Intended(h: Hash, c: Copy, entries: map<Id, EntryRow>): World {
    Streaming(h, c, c.data, true).(db := TablesOf(h, c, PendingFinalize).(entries := entries))
  }

  lemma StreamingIsLawful(h: Hash, c: Copy)
    requires FirstCopy(c)
    ensures Lawful(h, Blank, CopySteps(h, c)[..4], Streaming(h, c, c.data, true))
  {
    JobIsCreated(h, c);
    PartialIsWritten(h, c);
    FourSteps(h, Blank, Begun(h, c), Streaming(h, c, [], false), Streaming(h, c, c.data, false), Streaming(h, c, c.data, true),
              CopySteps(h, c)[..4]);
  }

  function Begun(h: Hash, c: Copy): World {
    World(EmptyDisk, EmptyManifest.(jobs := map[c.job := JobOf(h, c)]))
  }

  lemma JobIsCreated(h: Hash, c: Copy)
    requires FirstCopy(c)
    ensures Takes(h, Blank, CreateJob(c.job, JobOf(h, c)), Begun(h, c))
    ensures Takes(h, Begun(h, c), CreatePartial(h(c.data)), Streaming(h, c, [], false))
  {
    assert Blank.db.jobs.Keys == {};
    assert Edited(map[], Bind(Partial(h(c.data)), 0)) == PartialOnly(h, c);
  }

  lemma PartialIsWritten(h: Hash, c: Copy)
    ensures Takes(h, Streaming(h, c, [], false), Append(0, c.data), Streaming(h, c, c.data, false))
    ensures Takes(h, Streaming(h, c, c.data, false), FsyncFile(0, c.data), Streaming(h, c, c.data, true))
  {
    assert [] + c.data == c.data;
  }

  lemma FourSteps(h: Hash, v0: World, v1: World, v2: World, v3: World, v4: World, steps: seq<Action>)
    requires |steps| == 4
    requires Takes(h, v0, steps[0], v1) && Takes(h, v1, steps[1], v2) && Takes(h, v2, steps[2], v3) && Takes(h, v3, steps[3], v4)
    ensures Lawful(h, v0, steps, v4)
  {
    assert Lawful(h, v4, steps[4..], v4);
    StepBefore(h, v3, v4, steps[3..], v4);
    StepBefore(h, v2, v3, steps[2..], v4);
    StepBefore(h, v1, v2, steps[1..], v4);
    StepBefore(h, v0, v1, steps, v4);
  }

  lemma StepBefore(h: Hash, v: World, next: World, steps: seq<Action>, w: World)
    requires steps != [] && Takes(h, v, steps[0], next) && Lawful(h, next, steps[1..], w)
    ensures Lawful(h, v, steps, w)
  {
  }

  lemma CommittingIsLawful(h: Hash, c: Copy)
    requires FirstCopy(c)
    ensures Lawful(h, Streaming(h, c, c.data, true), CopySteps(h, c)[4..], Killed(h, c))
  {
    var steps := CopySteps(h, c)[4..];
    var entries := TablesOf(h, c, PendingFinalize).entries;
    assert Takes(h, Streaming(h, c, c.data, true), steps[0], Intended(h, c, map[])) by {
      assert Realizable(h, IdentityOf(h, c.data));
    }
    assert Takes(h, Intended(h, c, map[]), steps[1], Intended(h, c, entries));
    assert Takes(h, Intended(h, c, entries), steps[2], Killed(h, c)) by {
      DiskOfRename(h, c);
      assert 1 in Intended(h, c, entries).db.objects;
    }
    assert Lawful(h, Killed(h, c), steps[3..], Killed(h, c));
    StepBefore(h, Intended(h, c, entries), Killed(h, c), steps[2..], Killed(h, c));
    StepBefore(h, Intended(h, c, map[]), Intended(h, c, entries), steps[1..], Killed(h, c));
    StepBefore(h, Streaming(h, c, c.data, true), Intended(h, c, map[]), steps, Killed(h, c));
  }

  lemma MarkingIsLawful(h: Hash, c: Copy)
    requires FirstCopy(c)
    ensures Lawful(h, Killed(h, c), MarkSteps(h, c), HalfMarked(h, c))
  {
    var synced := Placed(h, c, FinalOnly(h, c), {FinalOnly(h, c)});
    var linked := Placed(h, c, BothNames(h, c), {FinalOnly(h, c), BothNames(h, c)});
    var durable := Placed(h, c, BothNames(h, c), {BothNames(h, c)});
    SyncsAreLawful(h, c);
    LinkIsLawful(h, c);
    MarkIsLawful(h, c);
    FourSteps(h, Killed(h, c), synced, linked, durable, HalfMarked(h, c), MarkSteps(h, c));
  }

  /** The intent is committed, and the object has its canonical name. */
  function Placed(h: Hash, c: Copy, now: Names, images: set<Names>): World {
    World(OneFile(c.data, true, now, images), TablesOf(h, c, PendingFinalize))
  }

  lemma SyncsAreLawful(h: Hash, c: Copy)
    ensures Takes(h, Killed(h, c), SyncDirectory(DirectoryOf(Final(h(c.data)))), Placed(h, c, FinalOnly(h, c), {FinalOnly(h, c)}))
    ensures Takes(h, Placed(h, c, BothNames(h, c), {FinalOnly(h, c), BothNames(h, c)}),
                  SyncDirectory(DirectoryOf(Session(c.job, c.rel))), Placed(h, c, BothNames(h, c), {BothNames(h, c)}))
  {
    DiskOfShardSync(h, c);
    DiskOfSessionSync(h, c);
  }

  lemma LinkIsLawful(h: Hash, c: Copy)
    ensures Takes(h, Placed(h, c, FinalOnly(h, c), {FinalOnly(h, c)}), Link(h(c.data), c.job, c.rel),
                  Placed(h, c, BothNames(h, c), {FinalOnly(h, c), BothNames(h, c)}))
  {
    DiskOfLink(h, c);
  }

  lemma MarkIsLawful(h: Hash, c: Copy)
    ensures Takes(h, Placed(h, c, BothNames(h, c), {BothNames(h, c)}), SetObject(1, VerifiedObject), HalfMarked(h, c))
  {
  }

  /** Both are states of the program. */
  lemma BothAreReachable(h: Hash, c: Copy)
    requires FirstCopy(c)
    ensures Reachable(h, Killed(h, c)) && Reachable(h, HalfMarked(h, c))
  {
    BlankIsReachable(h);
    StreamingIsLawful(h, c);
    LawfulIsReachable(h, Blank, CopySteps(h, c)[..4], Streaming(h, c, c.data, true));
    CommittingIsLawful(h, c);
    LawfulIsReachable(h, Streaming(h, c, c.data, true), CopySteps(h, c)[4..], Killed(h, c));
    MarkingIsLawful(h, c);
    LawfulIsReachable(h, Killed(h, c), MarkSteps(h, c), HalfMarked(h, c));
  }

  lemma KilledIsKept(h: Hash, c: Copy)
    ensures var w, final := Killed(h, c), Final(h(c.data));
            && Pending(w.db, 1) && !Doomed(h, w, 1) && final in w.disk.now && !Durable(w.disk, final)
            && Reconciled(w.db.objects, 1, true) == map[1 := ObjectRow(IdentityOf(h, c.data), VerifiedObject)]
            && Promoted(w.db.entries, 1) == map[1 := EntryRow(c.job, 1, c.rel, VerifiedEntry)]
  {
    assert map[] in Killed(h, c).disk.images;
  }

  /**
   So it does happen: a copy is killed after its rename, recovery marks object and entry VERIFIED,
   and the next power cut may take the object.
   */
  method KilledCopyIsVerifiedAndMayBeLost(h: Hash, c: Copy, chunkBytes: int) returns (v: World)
    requires SizeDetermined(h) && FirstCopy(c) && chunkBytes > 0
    ensures Reachable(h, Killed(h, c))
    ensures v.db.objects == map[1 := ObjectRow(IdentityOf(h, c.data), VerifiedObject)]
    ensures v.db.entries == map[1 := EntryRow(c.job, 1, c.rel, VerifiedEntry)]
    ensures Final(h(c.data)) in v.disk.now && MayLose(v.disk, Final(h(c.data)))
  {
    var w := Killed(h, c);
    BothAreReachable(h, c);
    ReachableIsSafe(h, w);
    KilledIsKept(h, c);
    var kept;
    kept, v := RecoverRowAfterRestart(h, w, 1, chunkBytes);
  }

  /**
   The power goes between the two commits that end a copy: the entry of a VERIFIED object is still
   PENDING, and no recovery that comes to an end changes that.
   */
  lemma HalfMarkedEntryStaysPending(h: Hash, c: Copy, run: seq<World>)
    requires SizeDetermined(h) && FirstCopy(c) && IsRecoveryRun(h, run) && Terminal(run[|run| - 1])
    requires CrashImage(HalfMarked(h, c).disk, run[0].disk) && run[0].db == HalfMarked(h, c).db
    ensures Reachable(h, HalfMarked(h, c)) && run[0].db.objects[1].status == VerifiedObject
    ensures var after := run[|run| - 1].db;
            && 1 in after.objects && after.objects[1].status == VerifiedObject
            && 1 in after.entries && after.entries[1].state == PendingEntry
  {
    BothAreReachable(h, c);
    ReachableIsSafe(h, HalfMarked(h, c));
    BootIsSteady(h, HalfMarked(h, c), run[0].disk);
    EntryIsVerifiedIff(h, run, 1);
    EntryHasObject(h, run);
  }

  lemma EntryHasObject(h: Hash, run: seq<World>)
    requires SizeDetermined(h) && IsRecoveryRun(h, run) && Inv(h, run[0]) && Steady(h, run[0]) && Terminal(run[|run| - 1])
    ensures forall o <- run[0].db.objects | run[0].db.objects[o].status == VerifiedObject ::
              o in run[|run| - 1].db.objects && run[|run| - 1].db.objects[o].status == VerifiedObject
  {
    MakeCourse(h, run[0]);
    RecoveryRunStaysOnCourse(h, run, |run| - 1, GoalOf(h, run[0]));
    FinishedStateIsGoal(h, run[|run| - 1], GoalOf(h, run[0]));
  }
}
