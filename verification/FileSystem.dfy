/**
 The destination disk, with what a power cut may leave of it.

 `now` is what a running program sees. `images` is the set of name tables the disk may come
 back with: every edit since the last fsync of its directory is kept or lost on its own, and a
 rename is one edit. An fsync of a directory makes all images agree with `now` on it.
 */
module FileSystem {
  import opened Identity

  type Ino = nat

  /** Where a file may be: the canonical object, its partial, or a path inside one job's session. */
  datatype Path =
    | Final(sha: string)
    | Partial(sha: string)
    | Session(job: string, rel: string)

  datatype Directory =
    | Shard(prefix: string)
    | SessionDirectory(job: string, parent: string)

  type Names = map<Path, Ino>

  /** `flushed` says that the data has reached the device and is read back from there. */
  datatype Inode = Inode(data: Bytes, flushed: bool)

  datatype Disk = Disk(next: Ino, inodes: map<Ino, Inode>, now: Names, images: set<Names>)

  const EmptyDisk := Disk(0, map[], map[], {map[]})

  /** The part of a relative path before its last slash. */
  function ParentOf(rel: string): string {
    if rel == "" then ""
    else if rel[|rel| - 1] == '/' then rel[..|rel| - 1]
    else ParentOf(rel[..|rel| - 1])
  }

  /** A path is its parent, a slash, and a name without one; the parent of a path without slashes is empty. */
  lemma {:induction false} ParentAndName(rel: string) returns (name: string)
    ensures '/' in rel ==> rel == ParentOf(rel) + "/" + name
    ensures '/' !in rel ==> ParentOf(rel) == "" && name == rel
    ensures '/' !in name
  {
    name := "";
    if rel != "" {
      var front, last := rel[..|rel| - 1], rel[|rel| - 1];
      assert rel == front + [last];
      if last != '/' {
        var rest := ParentAndName(front);
        name := rest + [last];
        if '/' in front {
          assert ParentOf(rel) + "/" + name == (ParentOf(front) + "/" + rest) + [last];
        }
      }
    }
  }

  function DirectoryOf(p: Path): Directory {
    match p
    case Final(sha) => Shard(if |sha| < 4 then sha else sha[..4])
    case Partial(sha) => Shard(if |sha| < 4 then sha else sha[..4])
    case Session(job, rel) => SessionDirectory(job, ParentOf(rel))
  }

  datatype Edit =
    | Bind(path: Path, ino: Ino)
    | Unbind(path: Path)
    | Move(source: Path, target: Path, ino: Ino)

  function Edited(names: Names, e: Edit): Names {
    match e
    case Bind(p, i) => names[p := i]
    case Unbind(p) => names - {p}
    case Move(p, q, i) => (names - {p})[q := i]
  }

  function WithEdit(d: Disk, e: Edit): Disk {
    d.(now := Edited(d.now, e), images := d.images + set m | m in d.images :: Edited(m, e))
  }

  /** `names`, with the directory `dir` as it is in `now`. */
  function Merged(names: Names, now: Names, dir: Directory): Names {
    (map p | p in names && DirectoryOf(p) != dir :: names[p])
    + (map p | p in now && DirectoryOf(p) == dir :: now[p])
  }

  function WithSync(d: Disk, dir: Directory): Disk {
    d.(images := set m | m in d.images :: Merged(m, d.now, dir))
  }

  /** A new empty file under `p`. */
  function WithFile(d: Disk, p: Path): Disk {
    WithEdit(d.(next := d.next + 1, inodes := d.inodes[d.next := Inode([], false)]), Bind(p, d.next))
  }

  function WithData(d: Disk, i: Ino, data: Bytes, flushed: bool): Disk {
    d.(inodes := d.inodes[i := Inode(data, flushed)])
  }

  /** `after` is what `before` may look like once the power is back. */
  ghost predicate CrashImage(before: Disk, after: Disk) {
    && after.next == before.next
    && after.now in before.images
    && after.images == {after.now}
    && after.inodes.Keys == before.inodes.Keys
    && forall i <- before.inodes ::
         after.inodes[i].flushed && (before.inodes[i].flushed ==> after.inodes[i] == before.inodes[i])
  }

  /** Of a file that was not flushed, a power cut may make anything. */
  lemma UnflushedMayBeAnything(d: Disk, i: Ino, data: Bytes)
    requires i in d.inodes && !d.inodes[i].flushed && d.now in d.images
    ensures exists e: Disk :: CrashImage(d, e) && e.inodes[i].data == data
  {
    var inodes := map j | j in d.inodes :: if d.inodes[j].flushed then d.inodes[j] else Inode(data, true);
    var e := Disk(d.next, inodes, d.now, {d.now});
    assert CrashImage(d, e) && e.inodes[i].data == data;
  }

  /** The size of the file in sight under `p`. */
  function FileSize(d: Disk, p: Path): nat {
    if p in d.now && d.now[p] in d.inodes then |d.inodes[d.now[p]].data| else 0
  }

  /** No power cut can take `p` away or make it name another file. */
  ghost predicate Durable(d: Disk, p: Path) {
    p in d.now && forall m <- d.images :: p in m && m[p] == d.now[p]
  }

  /** Every image agrees with what is visible at `p`. */
  ghost predicate Still(d: Disk, p: Path) {
    forall m <- d.images :: (p in m <==> p in d.now) && (p in d.now ==> m[p] == d.now[p])
  }

  ghost predicate AllFlushed(d: Disk) {
    forall i <- d.inodes :: d.inodes[i].flushed
  }

  ghost predicate DiskOk(d: Disk) {
    && d.now in d.images
    && (forall i <- d.inodes :: i < d.next)
    && (forall m <- d.images, p <- m :: m[p] in d.inodes)
  }

  /**
   What makes the store content-addressed: whatever a cut leaves, a canonical name or a session
   name is bound as it is now, to flushed data, and a canonical name is the digest of that data.
   */
  ghost predicate StoreOk(h: Hash, d: Disk)
    requires DiskOk(d)
  {
    forall m <- d.images, p <- m | !p.Partial? ::
      && p in d.now && m[p] == d.now[p]
      && d.inodes[m[p]].flushed
      && (p.Final? ==> h(d.inodes[m[p]].data) == p.sha)
  }

  lemma SyncMakesDurable(d: Disk, p: Path)
    requires p in d.now
    ensures Durable(WithSync(d, DirectoryOf(p)), p)
  {
  }

  lemma SyncKeepsName(d: Disk, dir: Directory, p: Path)
    ensures Durable(d, p) ==> Durable(WithSync(d, dir), p)
    ensures Still(d, p) ==> Still(WithSync(d, dir), p)
  {
    forall m | m in WithSync(d, dir).images
      ensures exists m0 :: m0 in d.images && m == Merged(m0, d.now, dir)
    {
    }
  }

  lemma SyncKeepsDisk(h: Hash, d: Disk, dir: Directory)
    requires DiskOk(d) && StoreOk(h, d)
    ensures DiskOk(WithSync(d, dir)) && StoreOk(h, WithSync(d, dir))
    ensures forall p | Durable(d, p) :: Durable(WithSync(d, dir), p)
    ensures forall p | Still(d, p) :: Still(WithSync(d, dir), p)
  {
    assert Merged(d.now, d.now, dir) == d.now;
    SyncedImagesAreOk(h, d, dir);
    forall p
      ensures Durable(d, p) ==> Durable(WithSync(d, dir), p)
      ensures Still(d, p) ==> Still(WithSync(d, dir), p)
    {
      SyncKeepsName(d, dir, p);
    }
  }

  lemma SyncedImagesAreOk(h: Hash, d: Disk, dir: Directory)
    requires DiskOk(d) && StoreOk(h, d)
    ensures forall m <- WithSync(d, dir).images, p <- m ::
              && m[p] in d.inodes
              && (!p.Partial? ==>
                    && p in d.now && m[p] == d.now[p] && d.inodes[m[p]].flushed
                    && (p.Final? ==> h(d.inodes[m[p]].data) == p.sha))
  {
    forall m <- WithSync(d, dir).images
      ensures exists m0 :: m0 in d.images && m == Merged(m0, d.now, dir)
    {
    }
  }
}
