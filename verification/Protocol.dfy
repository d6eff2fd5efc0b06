/**
 The store protocol: the primitive steps (system calls and autocommitted SQL statements) that
 the backup takes on the disk and the manifest, the rule each has to respect, and what every
 run of them keeps when the power may go between any two.
 */
module Protocol {
  import opened Identity
  import opened FileSystem
  import opened Manifest
  import opened JobIds

  datatype World = World(disk: Disk, db: Manifest)

  const Blank := World(EmptyDisk, EmptyManifest)

  datatype Action =
    | CreatePartial(sha: string)
    | Append(ino: Ino, chunk: Bytes)
    | FsyncFile(ino: Ino, landed: Bytes)
    | UnlinkPartial(sha: string)
    | UnlinkFinal(sha: string)
    | Rename(sha: string)
    | SyncDirectory(dir: Directory)
    | Link(sha: string, job: string, rel: string)
    | InsertObject(obj: Id, row: ObjectRow)
    | SetObject(obj: Id, status: ObjectStatus)
    | InsertEntry(entry: Id, entryRow: EntryRow)
    | VerifyEntry(entry: Id, obj: Id)
    | DeletePendingEntries(obj: Id)
    | DeleteObject(obj: Id)
    | CreateJob(job: string, jobRow: JobRow)
    | SetJobState(job: string, state: BackupState)

  /** What the step does, whether or not it is wise. */
  function Apply(w: World, a: Action): World
    requires Defined(w, a)
  {
    var d, db := w.disk, w.db;
    match a
    case CreatePartial(sha) => w.(disk := WithFile(d, Partial(sha)))
    case Append(i, chunk) => w.(disk := WithData(d, i, d.inodes[i].data + chunk, false))
    case FsyncFile(i, landed) => w.(disk := WithData(d, i, landed, true))
    case UnlinkPartial(sha) => w.(disk := WithEdit(d, Unbind(Partial(sha))))
    case UnlinkFinal(sha) => w.(disk := WithEdit(d, Unbind(Final(sha))))
    case Rename(sha) => w.(disk := WithEdit(d, Move(Partial(sha), Final(sha), d.now[Partial(sha)])))
    case SyncDirectory(dir) => w.(disk := WithSync(d, dir))
    case Link(sha, job, rel) => w.(disk := WithEdit(d, Bind(Session(job, rel), d.now[Final(sha)])))
    case InsertObject(o, row) => w.(db := db.(objects := db.objects[o := row]))
    case SetObject(o, status) =>
      w.(db := db.(objects := db.objects[o := db.objects[o].(status := status)]))
    case InsertEntry(e, row) => w.(db := db.(entries := db.entries[e := row]))
    case VerifyEntry(e, o) =>
      w.(db := db.(entries := db.entries[e := db.entries[e].(obj := o, state := VerifiedEntry)]))
    case DeletePendingEntries(o) => w.(db := db.(entries := WithoutPending(db.entries, o)))
    case DeleteObject(o) => w.(db := db.(objects := db.objects - {o}))
    case CreateJob(job, row) => w.(db := db.(jobs := db.jobs[job := row]))
    case SetJobState(job, state) =>
      w.(db := db.(jobs := db.jobs[job := db.jobs[job].(state := state)]))
  }

  function WithoutPending(entries: map<Id, EntryRow>, o: Id): map<Id, EntryRow> {
    map e | e in entries && !(entries[e].obj == o && entries[e].state == PendingEntry) :: entries[e]
  }

  /** The step names things that exist. */
  predicate Defined(w: World, a: Action) {
    var d, db := w.disk, w.db;
    match a
    case CreatePartial(sha) => Partial(sha) !in d.now
    case Append(i, _) => i in d.inodes
    case FsyncFile(i, _) => i in d.inodes
    case UnlinkPartial(sha) => Partial(sha) in d.now
    case UnlinkFinal(sha) => Final(sha) in d.now
    case Rename(sha) => Partial(sha) in d.now
    case SyncDirectory(_) => true
    case Link(sha, job, rel) => Final(sha) in d.now && Session(job, rel) !in d.now
    case InsertObject(o, _) => o !in db.objects
    case SetObject(o, _) => o in db.objects
    case InsertEntry(e, row) => e !in db.entries && row.obj in db.objects && row.job in db.jobs
    case VerifyEntry(e, o) => e in db.entries && o in db.objects
    case DeletePendingEntries(_) => true
    case DeleteObject(o) =>
      o in db.objects && forall e <- db.entries :: db.entries[e].obj != o
    case CreateJob(job, _) => job !in db.jobs
    case SetJobState(job, _) => job in db.jobs
  }

  /** A canonical name, durable, and a durable session name for the same file. */
  ghost predicate Linked(d: Disk, sha: string, job: string, rel: string) {
    && Durable(d, Final(sha)) && Durable(d, Session(job, rel))
    && d.now[Final(sha)] == d.now[Session(job, rel)]
  }

  /** The session name, where it is visible, already stands for the durable object `sha`. */
  ghost predicate LinkAgrees(d: Disk, sha: string, job: string, rel: string) {
    Session(job, rel) in d.now ==>
      Durable(d, Final(sha)) && d.now[Final(sha)] == d.now[Session(job, rel)]
  }

  ghost predicate PathTaken(db: Manifest, job: string, rel: string) {
    exists e <- db.entries :: db.entries[e].job == job && db.entries[e].rel == rel
  }

  ghost predicate HasRow(db: Manifest, sha: string) {
    exists o <- db.objects :: db.objects[o].identity.sha == sha
  }

  predicate HasIdentity(db: Manifest, id: ContentIdentity) {
    exists o <- db.objects :: db.objects[o].identity == id
  }

  /** `rel` of `job` is recorded VERIFIED with content `id`. */
  predicate Recorded(db: Manifest, job: string, rel: string, id: ContentIdentity) {
    exists e <- db.entries ::
      && db.entries[e].job == job && db.entries[e].rel == rel && db.entries[e].state == VerifiedEntry
      && db.entries[e].obj in db.objects && db.objects[db.entries[e].obj].identity == id
  }

  predicate AllRecorded(db: Manifest, job: string, wanted: map<string, ContentIdentity>) {
    forall rel <- wanted :: Recorded(db, job, rel, wanted[rel])
  }

  /** The write-ahead rule of each step. */
  ghost predicate Enabled(h: Hash, w: World, a: Action) {
    var d, db := w.disk, w.db;
    && Defined(w, a)
    && match a
       case Append(i, _) => !d.inodes[i].flushed
       case FsyncFile(i, _) => !d.inodes[i].flushed
       case UnlinkFinal(sha) => false
       case Rename(sha) =>
         && Final(sha) !in d.now && HasRow(db, sha)
         && d.now[Partial(sha)] in d.inodes
         && d.inodes[d.now[Partial(sha)]].flushed
         && h(d.inodes[d.now[Partial(sha)]].data) == sha
       case Link(sha, job, rel) =>
         && Durable(d, Final(sha)) && job in db.jobs
         && forall e <- db.entries | db.entries[e].job == job && db.entries[e].rel == rel ::
              db.entries[e].obj in db.objects && db.objects[db.entries[e].obj].identity.sha == sha
       case InsertObject(o, row) =>
         && !HasIdentity(db, row.identity) && Realizable(h, row.identity)
         && (row.status == VerifiedObject ==> Durable(d, Final(row.identity.sha)))
       case SetObject(o, status) =>
         var row := db.objects[o];
         if status == VerifiedObject then Durable(d, Final(row.identity.sha)) else row.status == status
       case InsertEntry(e, row) =>
         var sha := db.objects[row.obj].identity.sha;
         && !PathTaken(db, row.job, row.rel)
         && (row.state == VerifiedEntry ==> Linked(d, sha, row.job, row.rel))
         && LinkAgrees(d, sha, row.job, row.rel)
       case VerifyEntry(e, o) =>
         var row := db.entries[e];
         row.obj == o && Linked(d, db.objects[o].identity.sha, row.job, row.rel)
       case DeletePendingEntries(o) => true
       case DeleteObject(o) => Final(db.objects[o].identity.sha) !in d.now
       case CreateJob(job, row) => !Completed(row.state) && NewJob(db.jobs.Keys, job, row.session)
       case SetJobState(job, state) =>
         && !Completed(db.jobs[job].state)
         && (Completed(state) ==> AllRecorded(db, job, db.jobs[job].wanted))
       case _ => true
  }

  ghost predicate ObjectsOk(h: Hash, d: Disk, db: Manifest) {
    && (forall o <- db.objects :: Realizable(h, db.objects[o].identity))
    && (forall o <- db.objects :: db.objects[o].status == VerifiedObject ==>
          Durable(d, Final(db.objects[o].identity.sha)))
    && (forall o <- db.objects, p <- db.objects ::
          db.objects[o].identity == db.objects[p].identity ==> o == p)
    && (forall sha: string :: Final(sha) in d.now ==> HasRow(db, sha))
  }

  ghost predicate EntriesOk(d: Disk, db: Manifest) {
    && (forall e <- db.entries :: db.entries[e].obj in db.objects && db.entries[e].job in db.jobs)
    && (forall e <- db.entries, f <- db.entries ::
          db.entries[e].job == db.entries[f].job && db.entries[e].rel == db.entries[f].rel ==> e == f)
    && (forall e <- db.entries ::
          var row := db.entries[e];
          var sha := db.objects[row.obj].identity.sha;
          && LinkAgrees(d, sha, row.job, row.rel)
          && (row.state == VerifiedEntry ==> Linked(d, sha, row.job, row.rel)))
    && (forall job: string, rel: string :: Session(job, rel) in d.now ==> job in db.jobs)
  }

  ghost predicate JobsOk(db: Manifest) {
    forall j <- db.jobs :: Completed(db.jobs[j].state) ==> AllRecorded(db, j, db.jobs[j].wanted)
  }

  /** What holds at every instant, between any two primitive steps, in five parts. */
  datatype Part = OnDisk | OnStore | OnObjects | OnEntries | OnJobs

  ghost predicate HoldsPart(h: Hash, w: World, part: Part) {
    match part
    case OnDisk => DiskOk(w.disk)
    case OnStore => DiskOk(w.disk) && StoreOk(h, w.disk)
    case OnObjects => ObjectsOk(h, w.disk, w.db)
    case OnEntries => EntriesOk(w.disk, w.db)
    case OnJobs => JobsOk(w.db)
  }

  /** Quantified over the parts, so that a proof only looks into the parts it asks for. */
  ghost predicate Inv(h: Hash, w: World) {
    forall part: Part :: HoldsPart(h, w, part)
  }

  lemma UseInv(h: Hash, w: World)
    requires Inv(h, w)
    ensures DiskOk(w.disk) && StoreOk(h, w.disk)
    ensures ObjectsOk(h, w.disk, w.db) && EntriesOk(w.disk, w.db) && JobsOk(w.db)
  {
    assert HoldsPart(h, w, OnDisk) && HoldsPart(h, w, OnStore);
    assert HoldsPart(h, w, OnObjects) && HoldsPart(h, w, OnEntries) && HoldsPart(h, w, OnJobs);
  }

  lemma MakeInv(h: Hash, w: World)
    requires DiskOk(w.disk) && StoreOk(h, w.disk)
    requires ObjectsOk(h, w.disk, w.db) && EntriesOk(w.disk, w.db) && JobsOk(w.db)
    ensures Inv(h, w)
  {
    forall part: Part
      ensures HoldsPart(h, w, part)
    {
      match part
      case OnDisk =>
      case OnStore =>
      case OnObjects =>
      case OnEntries =>
      case OnJobs =>
    }
  }

  /** `p` names the same file, with the same data, before and after. */
  ghost predicate SameFile(d: Disk, e: Disk, p: Path) {
    && p in d.now && p in e.now && d.now[p] == e.now[p]
    && d.now[p] in d.inodes && d.now[p] in e.inodes
    && e.inodes[d.now[p]] == d.inodes[d.now[p]]
  }

  ghost predicate ObjectsGrow(v: World, w: World) {
    forall o <- v.db.objects | v.db.objects[o].status == VerifiedObject ::
      && o in w.db.objects && w.db.objects[o] == v.db.objects[o]
      && SameFile(v.disk, w.disk, Final(v.db.objects[o].identity.sha))
  }

  ghost predicate EntriesGrow(v: World, w: World) {
    forall e <- v.db.entries | v.db.entries[e].state == VerifiedEntry ::
      && e in w.db.entries && w.db.entries[e] == v.db.entries[e]
      && v.db.entries[e].obj in v.db.objects && v.db.entries[e].obj in w.db.objects
      && w.db.objects[v.db.entries[e].obj].identity == v.db.objects[v.db.entries[e].obj].identity
      && SameFile(v.disk, w.disk, Session(v.db.entries[e].job, v.db.entries[e].rel))
  }

  ghost predicate JobsGrow(v: World, w: World) {
    forall j <- v.db.jobs ::
      && j in w.db.jobs && w.db.jobs[j].session == v.db.jobs[j].session && w.db.jobs[j].wanted == v.db.jobs[j].wanted
      && (Completed(v.db.jobs[j].state) ==> w.db.jobs[j].state == v.db.jobs[j].state)
  }

  ghost predicate GrowsPart(v: World, w: World, part: Part) {
    match part
    case OnObjects => ObjectsGrow(v, w)
    case OnEntries => EntriesGrow(v, w)
    case OnJobs => JobsGrow(v, w)
    case _ => true
  }

  /** Nothing verified, and no completed job, is lost or changed from `v` to `w`. */
  ghost predicate Grows(v: World, w: World) {
    forall part: Part :: GrowsPart(v, w, part)
  }

  lemma UseGrows(v: World, w: World)
    requires Grows(v, w)
    ensures ObjectsGrow(v, w) && EntriesGrow(v, w) && JobsGrow(v, w)
  {
    assert GrowsPart(v, w, OnObjects) && GrowsPart(v, w, OnEntries) && GrowsPart(v, w, OnJobs);
  }

  lemma MakeGrows(v: World, w: World)
    requires ObjectsGrow(v, w) && EntriesGrow(v, w) && JobsGrow(v, w)
    ensures Grows(v, w)
  {
    forall part: Part
      ensures GrowsPart(v, w, part)
    {
      match part
      case OnObjects =>
      case OnEntries =>
      case OnJobs =>
      case _ =>
    }
  }

  /** A disk step that leaves canonical and session names, and flushed data, as they were. */
  ghost predicate Quiet(d: Disk, e: Disk) {
    && Carries(d, e)
    && (forall p: Path | !p.Partial? && p in e.now :: p in d.now)
  }

  /** A disk step that only adds canonical and session names. */
  ghost predicate Carries(d: Disk, e: Disk) {
    && (forall p: Path | !p.Partial? && p in d.now :: p in e.now && e.now[p] == d.now[p])
    && (forall p: Path | !p.Partial? && Durable(d, p) :: Durable(e, p))
    && (forall i | i in d.inodes && d.inodes[i].flushed :: i in e.inodes && e.inodes[i] == d.inodes[i])
  }

  lemma CarryingGrows(h: Hash, w: World, e: Disk)
    requires Inv(h, w) && Carries(w.disk, e)
    ensures Grows(w, w.(disk := e))
  {
    UseInv(h, w);
    MakeGrows(w, w.(disk := e));
  }

  lemma QuietKeepsRows(h: Hash, w: World, e: Disk)
    requires Inv(h, w) && Quiet(w.disk, e)
    ensures ObjectsOk(h, e, w.db) && EntriesOk(e, w.db)
  {
    UseInv(h, w);
  }

  lemma FileStepKeepsInv(h: Hash, w: World, a: Action)
    requires Inv(h, w) && Enabled(h, w, a)
    requires a.CreatePartial? || a.Append? || a.FsyncFile?
    ensures Inv(h, Apply(w, a)) && Grows(w, Apply(w, a))
  {
    var e := Apply(w, a).disk;
    FileStepKeepsStore(h, w, a);
    QuietKeepsRows(h, w, e);
    CarryingGrows(h, w, e);
    assert JobsOk(w.db) by {
      UseInv(h, w);
    }
    MakeInv(h, w.(disk := e));
  }

  lemma FileStepKeepsStore(h: Hash, w: World, a: Action)
    requires Inv(h, w) && Enabled(h, w, a)
    requires a.CreatePartial? || a.Append? || a.FsyncFile?
    ensures var e := Apply(w, a).disk; DiskOk(e) && StoreOk(h, e) && Quiet(w.disk, e)
  {
    UseInv(h, w);
    match a
    case CreatePartial(sha) => CreatingKeepsStore(h, w.disk, sha);
    case Append(i, chunk) => WritingKeepsStore(h, w.disk, i, Inode(w.disk.inodes[i].data + chunk, false));
    case FsyncFile(i, landed) => WritingKeepsStore(h, w.disk, i, Inode(landed, true));
  }

  lemma CreatingKeepsStore(h: Hash, d: Disk, sha: string)
    requires DiskOk(d) && StoreOk(h, d) && Partial(sha) !in d.now
    ensures var e := WithFile(d, Partial(sha)); DiskOk(e) && StoreOk(h, e) && Quiet(d, e)
  {
  }

  lemma WritingKeepsStore(h: Hash, d: Disk, i: Ino, inode: Inode)
    requires DiskOk(d) && StoreOk(h, d) && i in d.inodes && !d.inodes[i].flushed
    ensures var e := WithData(d, i, inode.data, inode.flushed); DiskOk(e) && StoreOk(h, e) && Quiet(d, e)
  {
  }

  lemma UnlinkKeepsInv(h: Hash, w: World, sha: string)
    requires Inv(h, w) && Enabled(h, w, UnlinkPartial(sha))
    ensures Inv(h, Apply(w, UnlinkPartial(sha))) && Grows(w, Apply(w, UnlinkPartial(sha)))
  {
    UseInv(h, w);
    var e := Apply(w, UnlinkPartial(sha)).disk;
    assert DiskOk(e) && StoreOk(h, e);
    assert Quiet(w.disk, e);
    QuietKeepsRows(h, w, e);
    CarryingGrows(h, w, e);
    MakeInv(h, Apply(w, UnlinkPartial(sha)));
  }

  lemma SyncKeepsInv(h: Hash, w: World, dir: Directory)
    requires Inv(h, w)
    ensures Inv(h, Apply(w, SyncDirectory(dir))) && Grows(w, Apply(w, SyncDirectory(dir)))
  {
    UseInv(h, w);
    SyncKeepsDisk(h, w.disk, dir);
    QuietKeepsRows(h, w, WithSync(w.disk, dir));
    CarryingGrows(h, w, WithSync(w.disk, dir));
    MakeInv(h, Apply(w, SyncDirectory(dir)));
  }

  lemma RenameKeepsInv(h: Hash, w: World, sha: string)
    requires Inv(h, w) && Enabled(h, w, Rename(sha))
    ensures Inv(h, Apply(w, Rename(sha))) && Grows(w, Apply(w, Rename(sha)))
  {
    UseInv(h, w);
    var e := Apply(w, Rename(sha)).disk;
    RenameKeepsStore(h, w.disk, sha);
    RenameKeepsRows(h, w.disk, w.db, sha);
    CarryingGrows(h, w, e);
    MakeInv(h, w.(disk := e));
  }

  lemma RenameKeepsStore(h: Hash, d: Disk, sha: string)
    requires DiskOk(d) && StoreOk(h, d) && Partial(sha) in d.now && Final(sha) !in d.now
    requires d.inodes[d.now[Partial(sha)]].flushed && h(d.inodes[d.now[Partial(sha)]].data) == sha
    ensures var e := WithEdit(d, Move(Partial(sha), Final(sha), d.now[Partial(sha)]));
            DiskOk(e) && StoreOk(h, e) && Carries(d, e)
  {
  }

  lemma RenameKeepsRows(h: Hash, d: Disk, db: Manifest, sha: string)
    requires ObjectsOk(h, d, db) && EntriesOk(d, db)
    requires Partial(sha) in d.now && Final(sha) !in d.now && HasRow(db, sha)
    ensures var e := WithEdit(d, Move(Partial(sha), Final(sha), d.now[Partial(sha)]));
            ObjectsOk(h, e, db) && EntriesOk(e, db)
  {
    var e := WithEdit(d, Move(Partial(sha), Final(sha), d.now[Partial(sha)]));
    assert forall p: Path | !p.Partial? && Durable(d, p) :: Durable(e, p) && e.now[p] == d.now[p];
  }

  lemma LinkKeepsInv(h: Hash, w: World, sha: string, job: string, rel: string)
    requires Inv(h, w) && Enabled(h, w, Link(sha, job, rel))
    ensures Inv(h, Apply(w, Link(sha, job, rel))) && Grows(w, Apply(w, Link(sha, job, rel)))
  {
    UseInv(h, w);
    var e := Apply(w, Link(sha, job, rel)).disk;
    LinkKeepsStore(h, w.disk, sha, job, rel);
    LinkKeepsRows(h, w.disk, w.db, sha, job, rel);
    CarryingGrows(h, w, e);
    MakeInv(h, w.(disk := e));
  }

  lemma LinkKeepsStore(h: Hash, d: Disk, sha: string, job: string, rel: string)
    requires DiskOk(d) && StoreOk(h, d) && Final(sha) in d.now && Session(job, rel) !in d.now
    ensures var e := WithEdit(d, Bind(Session(job, rel), d.now[Final(sha)]));
            DiskOk(e) && StoreOk(h, e) && Carries(d, e)
  {
  }

  lemma LinkKeepsRows(h: Hash, d: Disk, db: Manifest, sha: string, job: string, rel: string)
    requires ObjectsOk(h, d, db) && EntriesOk(d, db)
    requires Durable(d, Final(sha)) && Session(job, rel) !in d.now && job in db.jobs
    requires forall e <- db.entries | db.entries[e].job == job && db.entries[e].rel == rel ::
               db.objects[db.entries[e].obj].identity.sha == sha
    ensures var e := WithEdit(d, Bind(Session(job, rel), d.now[Final(sha)]));
            ObjectsOk(h, e, db) && EntriesOk(e, db)
  {
    var e := WithEdit(d, Bind(Session(job, rel), d.now[Final(sha)]));
    assert forall p: Path | Durable(d, p) :: Durable(e, p) && e.now[p] == d.now[p];
  }

  /** Verified entries, with the identities they stand for, and the job rows are all still there. */
  ghost predicate KeepsRecords(db: Manifest, after: Manifest) {
    && after.jobs == db.jobs
    && forall e <- db.entries | db.entries[e].state == VerifiedEntry && db.entries[e].obj in db.objects ::
         && e in after.entries && after.entries[e] == db.entries[e]
         && db.entries[e].obj in after.objects
         && after.objects[db.entries[e].obj].identity == db.objects[db.entries[e].obj].identity
  }

  lemma RecordsGrow(h: Hash, w: World, db: Manifest)
    requires Inv(h, w) && KeepsRecords(w.db, db)
    requires forall o <- w.db.objects | w.db.objects[o].status == VerifiedObject ::
               o in db.objects && db.objects[o] == w.db.objects[o]
    ensures Grows(w, w.(db := db)) && JobsOk(db)
  {
    UseInv(h, w);
    RecordsKeepJobs(w.db, db);
    MakeGrows(w, w.(db := db));
  }

  lemma EntryStepKeepsRecords(db: Manifest, e: Id, row: EntryRow)
    requires e !in db.entries || db.entries[e] == row || db.entries[e].state == PendingEntry
    ensures KeepsRecords(db, db.(entries := db.entries[e := row]))
  {
  }

  lemma RecordsKeepJobs(db: Manifest, after: Manifest)
    requires JobsOk(db) && KeepsRecords(db, after)
    ensures JobsOk(after)
  {
    forall j <- after.jobs, rel <- after.jobs[j].wanted | Completed(after.jobs[j].state)
      ensures Recorded(after, j, rel, after.jobs[j].wanted[rel])
    {
      assert Recorded(db, j, rel, db.jobs[j].wanted[rel]);
    }
  }

  lemma InsertObjectKeepsInv(h: Hash, w: World, o: Id, row: ObjectRow)
    requires Inv(h, w) && Enabled(h, w, InsertObject(o, row))
    ensures Inv(h, Apply(w, InsertObject(o, row))) && Grows(w, Apply(w, InsertObject(o, row)))
  {
    UseInv(h, w);
    var db := Apply(w, InsertObject(o, row)).db;
    RecordsGrow(h, w, db);
    InsertingKeepsObjects(h, w.disk, w.db, o, row);
    InsertingKeepsEntries(w.disk, w.db, o, row);
    MakeInv(h, w.(db := db));
  }

  lemma InsertingKeepsObjects(h: Hash, d: Disk, db: Manifest, o: Id, row: ObjectRow)
    requires ObjectsOk(h, d, db) && o !in db.objects && !HasIdentity(db, row.identity) && Realizable(h, row.identity)
    requires row.status == VerifiedObject ==> Durable(d, Final(row.identity.sha))
    ensures ObjectsOk(h, d, db.(objects := db.objects[o := row]))
  {
    var after := db.(objects := db.objects[o := row]);
    forall sha: string | HasRow(db, sha)
      ensures HasRow(after, sha)
    {
      var p :| p in db.objects && db.objects[p].identity.sha == sha;
      assert after.objects[p].identity.sha == sha;
    }
  }

  lemma InsertingKeepsEntries(d: Disk, db: Manifest, o: Id, row: ObjectRow)
    requires EntriesOk(d, db) && o !in db.objects
    ensures EntriesOk(d, db.(objects := db.objects[o := row]))
  {
  }

  lemma SetObjectKeepsInv(h: Hash, w: World, o: Id, status: ObjectStatus)
    requires Inv(h, w) && Enabled(h, w, SetObject(o, status))
    ensures Inv(h, Apply(w, SetObject(o, status))) && Grows(w, Apply(w, SetObject(o, status)))
  {
    UseInv(h, w);
    var db := Apply(w, SetObject(o, status)).db;
    if w.db.objects[o].status == status {
      assert db.objects == w.db.objects;
      assert Apply(w, SetObject(o, status)) == w;
    } else {
      VerifyingKeepsObjects(h, w.disk, w.db, o);
      SameIdentitiesKeepEntries(w.disk, w.db, db);
    }
    RecordsGrow(h, w, db);
    MakeInv(h, w.(db := db));
  }

  lemma VerifyingKeepsObjects(h: Hash, d: Disk, db: Manifest, o: Id)
    requires ObjectsOk(h, d, db) && o in db.objects && Durable(d, Final(db.objects[o].identity.sha))
    ensures ObjectsOk(h, d, db.(objects := db.objects[o := db.objects[o].(status := VerifiedObject)]))
  {
    var after := db.(objects := db.objects[o := db.objects[o].(status := VerifiedObject)]);
    forall sha: string | HasRow(db, sha)
      ensures HasRow(after, sha)
    {
      var p :| p in db.objects && db.objects[p].identity.sha == sha;
      assert after.objects[p].identity.sha == sha;
    }
  }

  lemma SameIdentitiesKeepEntries(d: Disk, db: Manifest, after: Manifest)
    requires EntriesOk(d, db)
    requires after.entries == db.entries && after.jobs == db.jobs && after.objects.Keys == db.objects.Keys
    requires forall o <- db.objects :: after.objects[o].identity == db.objects[o].identity
    ensures EntriesOk(d, after)
  {
  }

  lemma DeletingKeepsObjects(h: Hash, d: Disk, db: Manifest, o: Id)
    requires ObjectsOk(h, d, db) && o in db.objects && Final(db.objects[o].identity.sha) !in d.now
    ensures ObjectsOk(h, d, db.(objects := db.objects - {o}))
  {
    var after := db.(objects := db.objects - {o});
    forall sha: string | Final(sha) in d.now
      ensures HasRow(after, sha)
    {
      var p :| p in db.objects && db.objects[p].identity.sha == sha;
      assert after.objects[p].identity.sha == sha;
    }
  }

  lemma DeletingKeepsEntries(d: Disk, db: Manifest, o: Id)
    requires EntriesOk(d, db) && forall e <- db.entries :: db.entries[e].obj != o
    ensures EntriesOk(d, db.(objects := db.objects - {o}))
  {
  }

  lemma DeleteObjectKeepsInv(h: Hash, w: World, o: Id)
    requires Inv(h, w) && Enabled(h, w, DeleteObject(o))
    ensures Inv(h, Apply(w, DeleteObject(o))) && Grows(w, Apply(w, DeleteObject(o)))
  {
    UseInv(h, w);
    var db := Apply(w, DeleteObject(o)).db;
    DeletingKeepsObjects(h, w.disk, w.db, o);
    DeletingKeepsEntries(w.disk, w.db, o);
    RecordsGrow(h, w, db);
    MakeInv(h, w.(db := db));
  }

  lemma InsertEntryKeepsInv(h: Hash, w: World, e: Id, row: EntryRow)
    requires Inv(h, w) && Enabled(h, w, InsertEntry(e, row))
    ensures Inv(h, Apply(w, InsertEntry(e, row))) && Grows(w, Apply(w, InsertEntry(e, row)))
  {
    var db := Apply(w, InsertEntry(e, row)).db;
    EntryStepKeepsRecords(w.db, e, row);
    RecordsGrow(h, w, db);
    UseInv(h, w);
    SameObjectsKeepObjects(h, w.disk, w.db, db);
    AddingKeepsEntries(w.disk, w.db, e, row);
    MakeInv(h, w.(db := db));
  }

  lemma SameObjectsKeepObjects(h: Hash, d: Disk, db: Manifest, after: Manifest)
    requires ObjectsOk(h, d, db) && after.objects == db.objects
    ensures ObjectsOk(h, d, after)
  {
    assert forall sha: string :: HasRow(db, sha) ==> HasRow(after, sha);
  }

  lemma AddingKeepsEntries(d: Disk, db: Manifest, e: Id, row: EntryRow)
    requires EntriesOk(d, db) && e !in db.entries && row.obj in db.objects && row.job in db.jobs
    requires !PathTaken(db, row.job, row.rel)
    requires var sha := db.objects[row.obj].identity.sha;
             && (row.state == VerifiedEntry ==> Linked(d, sha, row.job, row.rel))
             && LinkAgrees(d, sha, row.job, row.rel)
    ensures EntriesOk(d, db.(entries := db.entries[e := row]))
  {
  }

  lemma VerifyEntryKeepsInv(h: Hash, w: World, e: Id, o: Id)
    requires Inv(h, w) && Enabled(h, w, VerifyEntry(e, o))
    ensures Inv(h, Apply(w, VerifyEntry(e, o))) && Grows(w, Apply(w, VerifyEntry(e, o)))
  {
    var db := Apply(w, VerifyEntry(e, o)).db;
    EntryStepKeepsRecords(w.db, e, w.db.entries[e].(state := VerifiedEntry));
    RecordsGrow(h, w, db);
    UseInv(h, w);
    SameObjectsKeepObjects(h, w.disk, w.db, db);
    PromotingKeepsEntries(w.disk, w.db, e);
    MakeInv(h, w.(db := db));
  }

  lemma PromotingKeepsEntries(d: Disk, db: Manifest, e: Id)
    requires EntriesOk(d, db) && e in db.entries
    requires var row := db.entries[e]; Linked(d, db.objects[row.obj].identity.sha, row.job, row.rel)
    ensures EntriesOk(d, db.(entries := db.entries[e := db.entries[e].(state := VerifiedEntry)]))
  {
  }

  lemma DeletePendingKeepsInv(h: Hash, w: World, o: Id)
    requires Inv(h, w)
    ensures Inv(h, Apply(w, DeletePendingEntries(o))) && Grows(w, Apply(w, DeletePendingEntries(o)))
  {
    UseInv(h, w);
    var db := Apply(w, DeletePendingEntries(o)).db;
    SameObjectsKeepObjects(h, w.disk, w.db, db);
    assert EntriesOk(w.disk, db);
    RecordsGrow(h, w, db);
    MakeInv(h, w.(db := db));
  }

  lemma JobStepKeepsInv(h: Hash, w: World, a: Action)
    requires Inv(h, w) && Enabled(h, w, a)
    requires a.CreateJob? || a.SetJobState?
    ensures Inv(h, Apply(w, a)) && Grows(w, Apply(w, a))
  {
    UseInv(h, w);
    var db := Apply(w, a).db;
    assert JobsGrow(w, w.(db := db));
    JobStepKeepsJobs(w.db, db);
    SameObjectsKeepObjects(h, w.disk, w.db, db);
    MoreJobsKeepEntries(w.disk, w.db, db);
    MakeInv(h, w.(db := db));
    MakeGrows(w, w.(db := db));
  }

  lemma MoreJobsKeepEntries(d: Disk, db: Manifest, after: Manifest)
    requires EntriesOk(d, db) && after.objects == db.objects && after.entries == db.entries
    requires db.jobs.Keys <= after.jobs.Keys
    ensures EntriesOk(d, after)
  {
  }

  lemma JobStepKeepsJobs(db: Manifest, after: Manifest)
    requires JobsOk(db) && after.objects == db.objects && after.entries == db.entries
    requires forall j <- after.jobs | Completed(after.jobs[j].state) ::
               if j in db.jobs && after.jobs[j] == db.jobs[j] then true
               else AllRecorded(db, j, after.jobs[j].wanted)
    ensures JobsOk(after)
  {
    forall j <- after.jobs, rel <- after.jobs[j].wanted | Completed(after.jobs[j].state)
      ensures Recorded(after, j, rel, after.jobs[j].wanted[rel])
    {
      assert Recorded(db, j, rel, after.jobs[j].wanted[rel]);
    }
  }

  lemma StepKeepsInv(h: Hash, w: World, a: Action)
    requires SizeDetermined(h) && Inv(h, w) && Enabled(h, w, a)
    ensures Inv(h, Apply(w, a)) && Grows(w, Apply(w, a))
  {
    match a
    case CreatePartial(_) => FileStepKeepsInv(h, w, a);
    case Append(_, _) => FileStepKeepsInv(h, w, a);
    case FsyncFile(_, _) => FileStepKeepsInv(h, w, a);
    case UnlinkPartial(sha) => UnlinkKeepsInv(h, w, sha);
    case UnlinkFinal(_) =>
    case Rename(sha) => RenameKeepsInv(h, w, sha);
    case SyncDirectory(dir) => SyncKeepsInv(h, w, dir);
    case Link(sha, job, rel) => LinkKeepsInv(h, w, sha, job, rel);
    case InsertObject(o, row) => InsertObjectKeepsInv(h, w, o, row);
    case SetObject(o, status) => SetObjectKeepsInv(h, w, o, status);
    case DeleteObject(o) => DeleteObjectKeepsInv(h, w, o);
    case InsertEntry(e, row) => InsertEntryKeepsInv(h, w, e, row);
    case VerifyEntry(e, o) => VerifyEntryKeepsInv(h, w, e, o);
    case DeletePendingEntries(o) => DeletePendingKeepsInv(h, w, o);
    case CreateJob(_, _) => JobStepKeepsInv(h, w, a);
    case SetJobState(_, _) => JobStepKeepsInv(h, w, a);
  }

  lemma CrashKeepsDisk(h: Hash, d: Disk, e: Disk)
    requires DiskOk(d) && StoreOk(h, d) && CrashImage(d, e)
    ensures DiskOk(e) && StoreOk(h, e)
    ensures forall p: Path | !p.Partial? && p in e.now :: p in d.now && e.now[p] == d.now[p]
    ensures forall p: Path | Durable(d, p) :: Durable(e, p) && e.now[p] == d.now[p]
  {
  }

  lemma CrashKeepsRows(h: Hash, d: Disk, e: Disk, db: Manifest)
    requires ObjectsOk(h, d, db) && EntriesOk(d, db)
    requires forall p: Path | !p.Partial? && p in e.now :: p in d.now && e.now[p] == d.now[p]
    requires forall p: Path | Durable(d, p) :: Durable(e, p) && e.now[p] == d.now[p]
    ensures ObjectsOk(h, e, db) && EntriesOk(e, db)
  {
  }

  /** A power cut keeps the invariant, and everything verified, whatever image the disk comes back with. */
  lemma CrashKeepsInv(h: Hash, w: World, e: Disk)
    requires Inv(h, w) && CrashImage(w.disk, e)
    ensures Inv(h, w.(disk := e)) && Grows(w, w.(disk := e))
  {
    UseInv(h, w);
    CrashKeepsDisk(h, w.disk, e);
    CrashKeepsRows(h, w.disk, e, w.db);
    MakeInv(h, w.(disk := e));
    forall p: Path | Durable(w.disk, p) && !p.Partial?
      ensures SameFile(w.disk, e, p)
    {
      assert w.disk.now[p] in w.disk.inodes && w.disk.inodes[w.disk.now[p]].flushed;
    }
    MakeGrows(w, w.(disk := e));
  }
}
