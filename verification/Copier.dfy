/**
 Copying one object: stream it to a partial, check three hashes, commit the intent, rename,
 link into the session, and only then mark it VERIFIED.
 */
module Copier {
  import opened Wrappers
  import opened Identity
  import opened FileSystem
  import opened Manifest
  import opened Protocol
  import opened Runs
  import opened Machines
  import opened Repository

  /** What a read returns before end of file. */
  type Chunk = c: Bytes | c != [] witness [0]

  /**
   One attempt as the world around it decides it: whether the source opens, what its reads
   return, whether they end in an error, and what reached the device of what was written.
   */
  datatype Feed = Feed(opens: bool, chunks: seq<Chunk>, breaks: bool, landed: Bytes)

  /** The feeds of the successive attempts at one file. */
  type Feeds = nat -> Feed

  function Joined(chunks: seq<Chunk>): Bytes {
    if chunks == [] then [] else Joined(chunks[..|chunks| - 1]) + chunks[|chunks| - 1]
  }

  /** Joining chunks loses nothing, adds nothing and keeps their order. */
  lemma {:induction false} JoinedJoins(a: seq<Chunk>, b: seq<Chunk>)
    ensures Joined(a + b) == Joined(a) + Joined(b)
    ensures |b| == 1 ==> Joined(b) == b[0]
    decreases |b|
  {
    if b == [] {
      assert a + b == a;
    } else {
      JoinedJoins(a, b[..|b| - 1]);
      assert (a + b)[..|a + b| - 1] == a + b[..|b| - 1];
      assert Joined(a) + (Joined(b[..|b| - 1]) + b[|b| - 1]) == (Joined(a) + Joined(b[..|b| - 1])) + b[|b| - 1];
    }
  }

  lemma JoinedStep(chunks: seq<Chunk>, k: nat)
    requires k < |chunks|
    ensures Joined(chunks[..k + 1]) == Joined(chunks[..k]) + chunks[k]
  {
    assert chunks[..k + 1][..k] == chunks[..k];
  }

  /** How much an attempt is given to read before its source fails. */
  function Delivered(feed: Feed): nat {
    if feed.opens then |Joined(feed.chunks)| else 0
  }

  /** The source is read to its end and has the planned content, and the device holds bytes of its digest. */
  predicate Faithful(h: Hash, id: ContentIdentity, feed: Feed) {
    feed.opens && !feed.breaks && IdentityOf(h, Joined(feed.chunks)) == id && h(feed.landed) == id.sha
  }

  /** The source is read to its end, but its content or what the device holds is not as planned. */
  predicate Mismatches(h: Hash, id: ContentIdentity, feed: Feed) {
    feed.opens && !feed.breaks && (IdentityOf(h, Joined(feed.chunks)) != id || h(feed.landed) != id.sha)
  }

  datatype Attempt = Good | SourceUnstable | DestinationMismatch | SourceError

  function Judge(h: Hash, id: ContentIdentity, feed: Feed): Attempt {
    if !feed.opens || feed.breaks then SourceError
    else if IdentityOf(h, Joined(feed.chunks)) != id then SourceUnstable
    else if h(feed.landed) != id.sha then DestinationMismatch
    else Good
  }

  /** The copy-stream hash and the destination hash that an attempt gets as far as. */
  function Evidence(h: Hash, id: ContentIdentity, feed: Feed): (Option<string>, Option<string>) {
    match Judge(h, id, feed)
    case SourceError => (None, None)
    case SourceUnstable => (Some(h(Joined(feed.chunks))), None)
    case DestinationMismatch => (Some(id.sha), Some(h(feed.landed)))
    case Good => (Some(id.sha), Some(id.sha))
  }

  /** The number of leading attempts, at most `limit`, that call for another one. */
  function Misses(h: Hash, id: ContentIdentity, feeds: Feeds, limit: nat): (k: nat)
    ensures k <= limit
    ensures forall a | 0 <= a < k :: Judge(h, id, feeds(a)).SourceUnstable? || Judge(h, id, feeds(a)).DestinationMismatch?
    ensures k < limit ==> Judge(h, id, feeds(k)).Good? || Judge(h, id, feeds(k)).SourceError?
  {
    if limit == 0 then 0
    else
      var k := Misses(h, id, feeds, limit - 1);
      if k < limit - 1 then k
      else if Judge(h, id, feeds(k)).Good? || Judge(h, id, feeds(k)).SourceError? then k
      else limit
  }

  datatype CopyOutcome = VERIFIED | SOURCE_UNSTABLE | DESTINATION_MISMATCH

  datatype CopyResult = CopyResult(
    outcome: CopyOutcome,
    expected: string,
    copyStream: Option<string>,
    destination: Option<string>,
    bytesWritten: nat,
    attempts: nat)

  datatype CopyEnd = Returned(result: CopyResult) | RaisedOSError

  datatype LinkEnd = LinkedIn(result: CopyResult) | RaisedFileNotFound | RaisedPathConflict

  /** The session path `rel` of `job` has not been used for anything. */
  ghost predicate FreshPath(w: World, job: string, rel: string) {
    !PathTaken(w.db, job, rel) && Session(job, rel) !in w.disk.now
  }

  /** From `v` to `w` no session path but this one has been taken. */
  ghost predicate OnlyPath(v: World, w: World, job: string, rel: string) {
    forall j: string, r: string | FreshPath(v, j, r) && !(j == job && r == rel) :: FreshPath(w, j, r)
  }

  /** No file that was there has been written to. */
  ghost predicate KeepsFiles(d: Disk, e: Disk) {
    forall i <- d.inodes :: i in e.inodes && e.inodes[i] == d.inodes[i]
  }

  ghost predicate SameName(d: Disk, e: Disk, p: Path) {
    (p in e.now <==> p in d.now) && (p in d.now ==> e.now[p] == d.now[p])
  }

  /** Of the partials only that of `sha` may have changed. */
  ghost predicate OthersStay(d: Disk, e: Disk, sha: string) {
    forall u: Unit :: OthersStayFacts(d, e, sha, u)
  }

  ghost predicate OthersStayFacts(d: Disk, e: Disk, sha: string, u: Unit) {
    KeepsFiles(d, e) && forall other: string | other != sha :: SameName(d, e, Partial(other))
  }

  /** The partials are as they were. */
  ghost predicate PartialsStay(d: Disk, e: Disk) {
    forall u: Unit :: PartialsStayFacts(d, e, u)
  }

  ghost predicate PartialsStayFacts(d: Disk, e: Disk, u: Unit) {
    KeepsFiles(d, e) && forall sha: string :: SameName(d, e, Partial(sha))
  }

  lemma OthersStayChain(d: Disk, e: Disk, f: Disk, sha: string)
    requires OthersStay(d, e, sha) && OthersStay(e, f, sha)
    ensures OthersStay(d, f, sha)
  {
    assert OthersStayFacts(d, e, sha, Unit) && OthersStayFacts(e, f, sha, Unit);
    assert OthersStayFacts(d, f, sha, Unit);
  }

  /** Nothing but the partial of `sha` has changed. */
  ghost predicate OnlyPartial(v: World, w: World, sha: string) {
    forall u: Unit :: OnlyPartialFacts(v, w, sha, u)
  }

  ghost predicate OnlyPartialFacts(v: World, w: World, sha: string, u: Unit) {
    && w.db == v.db && KeepsFiles(v.disk, w.disk)
    && (forall p: Path | p != Partial(sha) :: (p in w.disk.now <==> p in v.disk.now)
                                              && (p in v.disk.now ==> w.disk.now[p] == v.disk.now[p]))
  }

  lemma UseOnlyPartial(v: World, w: World, sha: string)
    requires OnlyPartial(v, w, sha)
    ensures OnlyPartialFacts(v, w, sha, Unit)
    ensures forall job: string, rel: string :: FreshPath(v, job, rel) <==> FreshPath(w, job, rel)
    ensures OthersStay(v.disk, w.disk, sha)
  {
    assert OnlyPartialFacts(v, w, sha, Unit);
    assert OthersStayFacts(v.disk, w.disk, sha, Unit);
  }

  lemma MakeOnlyPartial(v: World, w: World, sha: string)
    requires OnlyPartialFacts(v, w, sha, Unit)
    ensures OnlyPartial(v, w, sha)
  {
  }

  lemma OnlyPartialChain(u: World, v: World, w: World, sha: string)
    requires OnlyPartial(u, v, sha) && OnlyPartial(v, w, sha)
    ensures OnlyPartial(u, w, sha)
  {
    assert OnlyPartialFacts(u, v, sha, Unit) && OnlyPartialFacts(v, w, sha, Unit);
    MakeOnlyPartial(u, w, sha);
  }

  lemma CopiedAfterPartials(u: World, v: World, w: World, job: string, rel: string, id: ContentIdentity)
    requires OnlyPartial(u, v, id.sha) && CopyMade(v, w, job, rel, id)
    ensures CopyMade(u, w, job, rel, id)
  {
    UseOnlyPartial(u, v, id.sha);
    OthersStayChain(u.disk, v.disk, w.disk, id.sha);
  }

  /** Hardlinks the object into the session and fsyncs the session directory; false is a path conflict. */
  method LinkIntoSession(m: Machine, sha: string, job: string, rel: string) returns (r: Power<bool>)
    requires m.Valid() && Durable(m.disk, Final(sha)) && job in m.db.jobs
    requires Session(job, rel) !in m.disk.now ==>
               forall e <- m.db.entries | m.db.entries[e].job == job && m.db.entries[e].rel == rel ::
                 m.db.entries[e].obj in m.db.objects && m.db.objects[m.db.entries[e].obj].identity.sha == sha
    modifies m
    ensures m.Valid() && old(m.trace) <= m.trace && m.db == old(m.db)
    ensures r == On(true) ==> Linked(m.disk, sha, job, rel)
    ensures r == On(true) ==> m.disk.now == old(m.disk.now)[Session(job, rel) := old(m.disk.now)[Final(sha)]]
    ensures r == On(false) ==> m.W() == old(m.W())
    ensures r.On? ==> (r.value <==> (Session(job, rel) in old(m.disk.now) ==>
                         old(m.disk.now)[Session(job, rel)] == old(m.disk.now)[Final(sha)]))
    ensures m.disk.inodes == old(m.disk.inodes)
  {
    var session := Session(job, rel);
    if session in m.disk.now {
      if m.disk.now[session] != m.disk.now[Final(sha)] {
        return On(false);
      }
    } else {
      var _ :- m.Do(Link(sha, job, rel));
    }
    ghost var d := m.disk;
    var _ :- m.Do(SyncDirectory(DirectoryOf(session)));
    SyncMakesDurable(d, session);
    return On(true);
  }

  /** Streams the source into a new partial; None is an OSError from the source. */
  method StreamToPartial(m: Machine, sha: string, feed: Feed) returns (r: Power<Option<(Ino, Bytes)>>)
    requires m.Valid()
    modifies m
    ensures m.Valid() && old(m.trace) <= m.trace && OnlyPartialFacts(old(m.W()), m.W(), sha, Unit)
    ensures r.On? ==> (r.value.None? <==> !feed.opens || feed.breaks)
    ensures r.On? && r.value.None? ==> FileSize(m.disk, Partial(sha)) == Delivered(feed)
    ensures r.On? && r.value.Some? ==>
              && r.value.value.1 == Joined(feed.chunks) && r.value.value.0 !in old(m.disk.inodes)
              && r.value.value.0 in m.disk.inodes && !m.disk.inodes[r.value.value.0].flushed
              && Partial(sha) in m.disk.now && m.disk.now[Partial(sha)] == r.value.value.0
  {
    var partial := Partial(sha);
    if partial in m.disk.now {
      var _ :- m.Do(UnlinkPartial(sha));
    }
    if !feed.opens {
      return On(None);
    }
    m.Now();
    NextIsNew(m.hash, m.W());
    var _ :- m.Do(CreatePartial(sha));
    var file := m.disk.now[partial];
    var digested :- WriteChunks(m, file, feed.chunks);
    return On(if feed.breaks then None else Some((file, digested)));
  }

  lemma NextIsNew(h: Hash, w: World)
    requires Inv(h, w)
    ensures w.disk.next !in w.disk.inodes
  {
    UseInv(h, w);
  }

  /** Appends the chunks to a new file, digesting them on the way. */
  method WriteChunks(m: Machine, file: Ino, chunks: seq<Chunk>) returns (r: Power<Bytes>)
    requires m.Valid() && file in m.disk.inodes && m.disk.inodes[file] == Inode([], false)
    modifies m
    ensures m.Valid() && old(m.trace) <= m.trace && m.db == old(m.db) && m.disk.now == old(m.disk.now)
    ensures forall i <- old(m.disk.inodes) | i != file :: i in m.disk.inodes && m.disk.inodes[i] == old(m.disk.inodes)[i]
    ensures r.On? ==> r.value == Joined(chunks) && file in m.disk.inodes && m.disk.inodes[file] == Inode(Joined(chunks), false)
  {
    var digested: Bytes := [];
    var k := 0;
    while k < |chunks|
      invariant 0 <= k <= |chunks|
      invariant m.Valid() && old(m.trace) <= m.trace && m.disk.now == old(m.disk.now) && m.db == old(m.db)
      invariant forall i <- old(m.disk.inodes) | i != file :: i in m.disk.inodes && m.disk.inodes[i] == old(m.disk.inodes)[i]
      invariant file in m.disk.inodes && m.disk.inodes[file] == Inode(digested, false)
      invariant digested == Joined(chunks[..k])
    {
      var _ :- m.Do(Append(file, chunks[k]));
      digested := digested + chunks[k];
      JoinedStep(chunks, k);
      k := k + 1;
    }
    assert chunks[..k] == chunks;
    return On(digested);
  }

  /** One attempt. A source error may leave the partial it was writing; nothing else does. */
  method CopyAndVerifyOnce(m: Machine, id: ContentIdentity, feed: Feed, chunkBytes: int)
    returns (r: Power<(Attempt, Option<string>, Option<string>, nat)>)
    requires m.Valid() && chunkBytes > 0
    modifies m
    ensures m.Valid() && old(m.trace) <= m.trace && OnlyPartialFacts(old(m.W()), m.W(), id.sha, Unit)
    ensures r.On? && r.value.0.SourceError? ==> FileSize(m.disk, Partial(id.sha)) == Delivered(feed)
    ensures r.On? ==> r.value.0 == Judge(m.hash, id, feed) && (r.value.1, r.value.2) == Evidence(m.hash, id, feed)
    ensures r.On? ==> (r.value.0.SourceError? <==> !feed.opens || feed.breaks)
    ensures r.On? && !r.value.0.SourceError? ==>
              var read := IdentityOf(m.hash, Joined(feed.chunks));
              && (r.value.0.SourceUnstable? <==> read != id)
              && (r.value.0.DestinationMismatch? <==> read == id && m.hash(feed.landed) != id.sha)
              && (r.value.0.Good? <==> read == id && m.hash(feed.landed) == id.sha)
              && r.value.1 == Some(read.sha) && r.value.2 == if read == id then Some(m.hash(feed.landed)) else None
    ensures r.On? && (r.value.0.SourceUnstable? || r.value.0.DestinationMismatch?) ==> Partial(id.sha) !in m.disk.now
    ensures r.On? && r.value.0.Good? ==>
              && Partial(id.sha) in m.disk.now && m.disk.now[Partial(id.sha)] in m.disk.inodes
              && m.disk.inodes[m.disk.now[Partial(id.sha)]] == Inode(feed.landed, true)
              && r.value.3 == id.size
  {
    var streamed :- StreamToPartial(m, id.sha, feed);
    if streamed.None? {
      return On((SourceError, None, None, 0));
    }
    var (file, digested) := streamed.value;
    var _ :- m.Do(FsyncFile(file, feed.landed));

    var size, h2 := |digested|, m.hash(digested);
    if size != id.size || h2 != id.sha {
      var _ :- m.Do(UnlinkPartial(id.sha));
      return On((SourceUnstable, Some(h2), None, size));
    }

    var reader := new Reader(m.disk.inodes[file].data);
    var read := HashStream(m.hash, reader, chunkBytes);
    var h3 := read.value.sha;
    if h3 != id.sha {
      var _ :- m.Do(UnlinkPartial(id.sha));
      return On((DestinationMismatch, Some(h2), Some(h3), size));
    }
    return On((Good, Some(h2), Some(h3), size));
  }

  lemma LinkKeepsPartials(d: Disk, e: Disk, job: string, rel: string, file: Ino)
    requires e.inodes == d.inodes && e.now == d.now[Session(job, rel) := file]
    ensures PartialsStay(d, e)
  {
    assert PartialsStayFacts(d, e, Unit);
  }

  /** Links the canonical object of `id` into the session, unread, if there is one. */
  method LinkVerifiedObject(m: Machine, journal: JobManifestJournal, id: ContentIdentity, rel: string)
    returns (r: Power<LinkEnd>)
    requires m.Valid() && journal.repo.m == m && journal.job in m.db.jobs
    requires Quiescent(m.db) && Realizable(m.hash, id)
    requires Session(journal.job, rel) !in m.disk.now ==> !PathTaken(m.db, journal.job, rel)
    modifies m
    ensures m.Valid() && old(m.trace) <= m.trace
    ensures m.db.jobs == old(m.db.jobs)
    ensures r.On? ==> m.db.objects == old(m.db.objects)
    ensures r.On? ==> OnlyPath(old(m.W()), m.W(), journal.job, rel)
    ensures r.On? ==> PartialsStay(old(m.disk), m.disk)
    ensures r.On? ==> (r.value.RaisedFileNotFound? <==> Final(id.sha) !in old(m.disk.now))
    ensures r.On? && r.value.RaisedPathConflict? ==>
              Session(journal.job, rel) in old(m.disk.now)
              && old(m.disk.now)[Session(journal.job, rel)] != old(m.disk.now)[Final(id.sha)]
    ensures r.On? && !r.value.LinkedIn? ==> m.W() == old(m.W())
    ensures r.On? && r.value.LinkedIn? ==>
              && r.value.result == CopyResult(VERIFIED, id.sha, None, None, 0, 0)
              && Recorded(m.db, journal.job, rel, id)
  {
    ghost var d := m.disk;
    m.Now();
    assert PartialsStayFacts(d, d, Unit);
    if Final(id.sha) !in m.disk.now {
      return On(RaisedFileNotFound);
    }
    VisibleIsVerified(m.hash, m.W(), id);
    var linked :- LinkIntoSession(m, id.sha, journal.job, rel);
    if !linked {
      return On(RaisedPathConflict);
    }
    LinkKeepsPartials(d, m.disk, journal.job, rel, d.now[Final(id.sha)]);
    ghost var before := m.db;
    var o :- journal.MarkVerified(id, rel);
    assert m.db.objects == before.objects;
    return On(LinkedIn(CopyResult(VERIFIED, id.sha, None, None, 0, 0)));
  }

  /** A verified partial of `id` is in sight. */
  ghost predicate ReadyToCommit(h: Hash, d: Disk, id: ContentIdentity) {
    && Final(id.sha) !in d.now && Partial(id.sha) in d.now
    && d.now[Partial(id.sha)] in d.inodes && d.inodes[d.now[Partial(id.sha)]].flushed
    && h(d.inodes[d.now[Partial(id.sha)]].data) == id.sha
  }

  /** Commits the intent, renames the partial to its canonical name, and fsyncs that name. */
  method CommitCopy(m: Machine, journal: JobManifestJournal, id: ContentIdentity, rel: string)
    returns (r: Power<Id>)
    requires m.Valid() && journal.repo.m == m && journal.job in m.db.jobs
    requires Quiescent(m.db) && Realizable(m.hash, id) && FreshPath(m.W(), journal.job, rel)
    requires ReadyToCommit(m.hash, m.disk, id)
    modifies m
    ensures m.Valid() && old(m.trace) <= m.trace
    ensures r.On? ==> r.value !in old(m.db.objects) && !HasIdentity(old(m.db), id)
    ensures r.On? ==> m.db.objects == old(m.db.objects)[r.value := ObjectRow(id, PendingFinalize)]
    ensures m.db.jobs == old(m.db.jobs)
    ensures r.On? ==>
              exists e: Id :: (e !in old(m.db.entries)
                && m.db.entries == old(m.db.entries)[e := EntryRow(journal.job, r.value, rel, PendingEntry)])
    ensures r.On? ==> Durable(m.disk, Final(id.sha)) && m.disk.inodes == old(m.disk.inodes)
    ensures r.On? ==> m.disk.now == Edited(old(m.disk.now), Move(Partial(id.sha), Final(id.sha), old(m.disk.now)[Partial(id.sha)]))
  {
    var o :- journal.RecordPendingFinalize(id, rel);
    assert m.db.objects[o].identity.sha == id.sha;
    assert HasRow(m.db, id.sha);
    var _ :- m.Do(Rename(id.sha));
    ghost var d := m.disk;
    var _ :- m.Do(SyncDirectory(DirectoryOf(Final(id.sha))));
    SyncMakesDurable(d, Final(id.sha));
    return On(o);
  }

  /**
   Makes a verified partial the canonical object and puts it into the session. Each name is
   durable before the row that speaks of it.
   */
  method FinalizeCopy(m: Machine, journal: JobManifestJournal, id: ContentIdentity, rel: string)
    returns (r: Power<()>)
    requires m.Valid() && journal.repo.m == m && journal.job in m.db.jobs
    requires Quiescent(m.db) && Realizable(m.hash, id) && FreshPath(m.W(), journal.job, rel)
    requires ReadyToCommit(m.hash, m.disk, id)
    modifies m
    ensures m.Valid() && old(m.trace) <= m.trace
    ensures m.db.jobs == old(m.db.jobs)
    ensures r.On? ==> AddsObject(old(m.db), m.db, id)
    ensures r.On? ==> Recorded(m.db, journal.job, rel, id)
    ensures r.On? ==> OnlyPath(old(m.W()), m.W(), journal.job, rel)
    ensures r.On? ==> Partial(id.sha) !in m.disk.now && OthersStay(old(m.disk), m.disk, id.sha)
  {
    ghost var v := m.W();
    var o :- CommitCopy(m, journal, id, rel);
    ghost var e: Id :| e !in v.db.entries && m.db.entries == v.db.entries[e := EntryRow(journal.job, o, rel, PendingEntry)];
    assert m.db.objects[o].identity == id && m.db.entries[e].rel == rel;
    OneEntryPerPath(v.db, m.db, e, EntryRow(journal.job, o, rel, PendingEntry));
    var _ :- PublishCopy(m, journal, id, rel, o, e);
    assert m.db.objects == v.db.objects[o := ObjectRow(id, VerifiedObject)];
    TakesOnePath(v, m.W(), journal.job, rel);
    assert OthersStayFacts(v.disk, m.disk, id.sha, Unit);
    return On(());
  }

  /** Links a committed object into the session, and marks it and its entry VERIFIED. */
  method PublishCopy(m: Machine, journal: JobManifestJournal, id: ContentIdentity, rel: string, ghost o: Id, ghost e: Id)
    returns (r: Power<()>)
    requires m.Valid() && journal.repo.m == m && journal.job in m.db.jobs && Realizable(m.hash, id)
    requires o in m.db.objects && m.db.objects[o].identity == id && Durable(m.disk, Final(id.sha))
    requires e in m.db.entries && m.db.entries[e] == EntryRow(journal.job, o, rel, PendingEntry)
    requires forall f <- m.db.entries | m.db.entries[f].job == journal.job && m.db.entries[f].rel == rel :: f == e
    requires Session(journal.job, rel) !in m.disk.now
    modifies m
    ensures m.Valid() && old(m.trace) <= m.trace
    ensures m.db.jobs == old(m.db.jobs)
    ensures r.On? ==> m.db.objects == old(m.db.objects)[o := ObjectRow(id, VerifiedObject)]
    ensures r.On? ==> m.db.entries == old(m.db.entries)[e := EntryRow(journal.job, o, rel, VerifiedEntry)]
    ensures r.On? ==> m.disk.now == old(m.disk.now)[Session(journal.job, rel) := old(m.disk.now)[Final(id.sha)]]
    ensures r.On? ==> m.disk.inodes == old(m.disk.inodes)
    ensures r.On? ==> Recorded(m.db, journal.job, rel, id)
  {
    m.Now();
    OneRow(m.hash, m.W(), o);
    assert PathTaken(m.db, journal.job, rel);
    var linked :- LinkIntoSession(m, id.sha, journal.job, rel);
    assert linked;
    var p :- journal.MarkVerified(id, rel);
    return On(());
  }

  lemma OneRow(h: Hash, w: World, o: Id)
    requires Inv(h, w) && o in w.db.objects
    ensures forall p <- w.db.objects | w.db.objects[p].identity == w.db.objects[o].identity :: p == o
  {
    UseInv(h, w);
  }

  lemma OneEntryPerPath(db: Manifest, after: Manifest, e: Id, row: EntryRow)
    requires e !in db.entries && after.entries == db.entries[e := row] && !PathTaken(db, row.job, row.rel)
    ensures forall f <- after.entries | after.entries[f].job == row.job && after.entries[f].rel == row.rel :: f == e
  {
  }

  lemma TakesOnePath(v: World, w: World, job: string, rel: string)
    requires forall f <- w.db.entries ::
               (w.db.entries[f].job == job && w.db.entries[f].rel == rel)
               || (f in v.db.entries && w.db.entries[f] == v.db.entries[f])
    requires forall p <- w.disk.now | p.Session? :: p in v.disk.now || p == Session(job, rel)
    ensures OnlyPath(v, w, job, rel)
  {
    forall j: string, r: string | FreshPath(v, j, r) && !(j == job && r == rel)
      ensures FreshPath(w, j, r)
    {
    }
  }

  /** `after` has one more object than `before`: the VERIFIED object of `id`. */
  ghost predicate AddsObject(before: Manifest, after: Manifest, id: ContentIdentity) {
    exists o: Id ::
      o !in before.objects && after.objects == before.objects[o := ObjectRow(id, VerifiedObject)]
  }

  function Limit(retries: int): nat {
    if retries < 0 then 0 else retries + 1
  }

  /** How a copy of a new object has to end, from what its successive attempts meet. */
  function CopySpec(h: Hash, id: ContentIdentity, feeds: Feeds, retries: int): CopyEnd {
    var k := Misses(h, id, feeds, Limit(retries));
    if k < Limit(retries) then
      if Judge(h, id, feeds(k)).SourceError? then RaisedOSError
      else Returned(CopyResult(VERIFIED, id.sha, Some(id.sha), Some(id.sha), id.size, k + 1))
    else Returned(GivenUp(h, id, feeds, k))
  }

  /** The result after `k` attempts that all missed. */
  function GivenUp(h: Hash, id: ContentIdentity, feeds: Feeds, k: nat): CopyResult {
    if k == 0 then CopyResult(SOURCE_UNSTABLE, id.sha, None, None, 0, 0)
    else
      var (copyStream, destination) := Evidence(h, id, feeds(k - 1));
      var outcome := if Judge(h, id, feeds(k - 1)).SourceUnstable? then SOURCE_UNSTABLE else DESTINATION_MISMATCH;
      CopyResult(outcome, id.sha, copyStream, destination, 0, k)
  }

  /** The size of the partial that is left where the copy ends in an OSError. */
  function Leavings(h: Hash, id: ContentIdentity, feeds: Feeds, retries: int): nat {
    Delivered(feeds(Misses(h, id, feeds, Limit(retries))))
  }

  /** Some attempt of the first and the retries is faithful, and those before it mismatched. */
  predicate Serves(h: Hash, id: ContentIdentity, feeds: Feeds, retries: int) {
    exists k | 0 <= k <= retries :: Faithful(h, id, feeds(k)) && forall a | 0 <= a < k :: Mismatches(h, id, feeds(a))
  }

  /** Some attempt of the first and the retries cannot read its source to the end, and those before it mismatched. */
  predicate Fails(h: Hash, id: ContentIdentity, feeds: Feeds, retries: int) {
    exists k | 0 <= k <= retries :: FailsAt(h, id, feeds, k)
  }

  predicate FailsAt(h: Hash, id: ContentIdentity, feeds: Feeds, k: nat) {
    (!feeds(k).opens || feeds(k).breaks) && forall a | 0 <= a < k :: Mismatches(h, id, feeds(a))
  }

  /**
   How a copy ends, by its reads alone. It is VERIFIED exactly if the source serves it, and then
   the planned, the streamed and the readback digest agree in the last attempt. It raises an
   OSError exactly if a read fails, and leaves what that read delivered. Otherwise it has used up
   all its attempts, and reports what differed in the last one.
   */
  lemma VerifiedMeansHashesAgree(h: Hash, id: ContentIdentity, feeds: Feeds, retries: int)
    ensures var end := CopySpec(h, id, feeds, retries);
            && (end.Returned? && end.result.outcome == VERIFIED <==> Serves(h, id, feeds, retries))
            && (end.RaisedOSError? <==> Fails(h, id, feeds, retries))
            && (end.Returned? ==> end.result.expected == id.sha)
            && (end.Returned? && end.result.outcome == VERIFIED ==>
                  && 0 < end.result.attempts <= retries + 1 && end.result.bytesWritten == id.size
                  && end.result.copyStream == end.result.destination == Some(id.sha)
                  && Faithful(h, id, feeds(end.result.attempts - 1)))
    ensures forall k: nat | k <= retries && FailsAt(h, id, feeds, k) ::
              Leavings(h, id, feeds, retries) == if feeds(k).opens then |Joined(feeds(k).chunks)| else 0
  {
    var k := Misses(h, id, feeds, Limit(retries));
    MissesMismatch(h, id, feeds, Limit(retries));
    if Serves(h, id, feeds, retries) {
      var g :| 0 <= g <= retries && Faithful(h, id, feeds(g)) && forall a | 0 <= a < g :: Mismatches(h, id, feeds(a));
      assert !(k < g) && !(g < k);
    }
    forall g: nat | g <= retries && FailsAt(h, id, feeds, g)
      ensures k == g
    {
      assert !(k < g) && !(g < k);
    }
    if CopySpec(h, id, feeds, retries).RaisedOSError? {
      assert FailsAt(h, id, feeds, k);
    }
  }

  /** The leading attempts that call for another one are those that mismatch. */
  lemma MissesMismatch(h: Hash, id: ContentIdentity, feeds: Feeds, limit: nat)
    ensures var k := Misses(h, id, feeds, limit);
            && (forall a | 0 <= a < k :: Mismatches(h, id, feeds(a)))
            && (k < limit ==> !Mismatches(h, id, feeds(k)))
  {
  }

  /** What a copy reports that has used up its attempts: what was read the last time, and what the device held of it. */
  lemma GivenUpReportsTheLast(h: Hash, id: ContentIdentity, feeds: Feeds, retries: int)
    requires !Serves(h, id, feeds, retries) && !Fails(h, id, feeds, retries)
    ensures CopySpec(h, id, feeds, retries).Returned?
    ensures var result := CopySpec(h, id, feeds, retries).result;
            && result.bytesWritten == 0 && result.attempts == (if retries < 0 then 0 else retries + 1)
            && (retries < 0 ==> result.outcome == SOURCE_UNSTABLE && result.copyStream.None? && result.destination.None?)
            && (retries >= 0 ==>
                  var read := IdentityOf(h, Joined(feeds(retries).chunks));
                  && Mismatches(h, id, feeds(retries))
                  && result.outcome == (if read == id then DESTINATION_MISMATCH else SOURCE_UNSTABLE)
                  && result.copyStream == Some(read.sha)
                  && result.destination == if read == id then Some(h(feeds(retries).landed)) else None)
  {
    VerifiedMeansHashesAgree(h, id, feeds, retries);
    MissesMismatch(h, id, feeds, Limit(retries));
    if retries >= 0 {
      assert Mismatches(h, id, feeds(retries));
    }
  }

  lemma MissesStep(h: Hash, id: ContentIdentity, feeds: Feeds, k: nat, limit: nat)
    requires k < limit && Misses(h, id, feeds, k) == k
    ensures Misses(h, id, feeds, k + 1) == k ==> Misses(h, id, feeds, limit) == k
    ensures Misses(h, id, feeds, k + 1) == k || Misses(h, id, feeds, k + 1) == k + 1
    ensures Misses(h, id, feeds, k + 1) == k <==>
              Judge(h, id, feeds(k)).Good? || Judge(h, id, feeds(k)).SourceError?
  {
    if Misses(h, id, feeds, k + 1) == k && k + 1 < limit {
      MissesStep(h, id, feeds, k, limit - 1);
    }
  }

  /** One attempt, and if it is good, everything up to VERIFIED. */
  method AttemptCopy(m: Machine, journal: JobManifestJournal, id: ContentIdentity, rel: string,
                     feed: Feed, chunkBytes: int)
    returns (r: Power<(Attempt, Option<string>, Option<string>, nat)>)
    requires m.Valid() && journal.repo.m == m && journal.job in m.db.jobs && chunkBytes > 0
    requires Quiescent(m.db) && Realizable(m.hash, id) && FreshPath(m.W(), journal.job, rel)
    requires Final(id.sha) !in m.disk.now
    modifies m
    ensures m.Valid() && old(m.trace) <= m.trace && m.db.jobs == old(m.db.jobs)
    ensures r.On? ==> r.value.0 == Judge(m.hash, id, feed) && (r.value.1, r.value.2) == Evidence(m.hash, id, feed)
    ensures r.On? && r.value.0.Good? ==> r.value.3 == id.size && CopyMade(old(m.W()), m.W(), journal.job, rel, id)
    ensures r.On? && !r.value.0.Good? ==> OnlyPartial(old(m.W()), m.W(), id.sha)
    ensures r.On? && !r.value.0.SourceError? ==> Partial(id.sha) !in m.disk.now
    ensures r.On? && r.value.0.SourceError? ==> FileSize(m.disk, Partial(id.sha)) == Delivered(feed)
  {
    ghost var start := m.W();
    var attempt :- CopyAndVerifyOnce(m, id, feed, chunkBytes);
    MakeOnlyPartial(start, m.W(), id.sha);
    if attempt.0 == Good {
      UseOnlyPartial(start, m.W(), id.sha);
      ghost var v := m.W();
      var _ :- FinalizeCopy(m, journal, id, rel);
      CopiedAfterPartials(start, v, m.W(), journal.job, rel, id);
    }
    return On(attempt);
  }

  /** From `v` to `w` one object was added and one session path recorded for it. */
  ghost predicate CopyMade(v: World, w: World, job: string, rel: string, id: ContentIdentity) {
    && w.db.jobs == v.db.jobs && AddsObject(v.db, w.db, id) && Recorded(w.db, job, rel, id)
    && OnlyPath(v, w, job, rel) && OthersStay(v.disk, w.disk, id.sha)
  }

  /** From `v` to `w` one session path was recorded, for an object that was there. */
  ghost predicate LinkedOnly(v: World, w: World, job: string, rel: string, id: ContentIdentity) {
    && w.db.jobs == v.db.jobs && w.db.objects == v.db.objects && Recorded(w.db, job, rel, id)
    && OnlyPath(v, w, job, rel) && PartialsStay(v.disk, w.disk)
  }

  /** Unlinks the partial of `sha`, where there is one. */
  method UnlinkIfThere(m: Machine, sha: string, ghost start: World) returns (r: Power<()>)
    requires m.Valid() && OnlyPartial(start, m.W(), sha)
    modifies m
    ensures m.Valid() && old(m.trace) <= m.trace && OnlyPartial(start, m.W(), sha) && m.db.jobs == old(m.db.jobs)
    ensures r.On? ==> Partial(sha) !in m.disk.now
  {
    if Partial(sha) in m.disk.now {
      ghost var v := m.W();
      var _ :- m.Do(UnlinkPartial(sha));
      assert OnlyPartialFacts(v, m.W(), sha, Unit);
      OnlyPartialChain(start, v, m.W(), sha);
    }
    return On(());
  }

  /** The attempt after `k` that missed decides the copy, or is one more that missed. */
  lemma AttemptDecides(h: Hash, id: ContentIdentity, feeds: Feeds, k: nat, retries: int)
    requires k < Limit(retries) && Misses(h, id, feeds, k) == k
    ensures match Judge(h, id, feeds(k))
            case Good =>
              CopySpec(h, id, feeds, retries) == Returned(CopyResult(VERIFIED, id.sha, Some(id.sha), Some(id.sha), id.size, k + 1))
            case SourceError =>
              CopySpec(h, id, feeds, retries) == RaisedOSError && Leavings(h, id, feeds, retries) == Delivered(feeds(k))
            case _ => Misses(h, id, feeds, k + 1) == k + 1
  {
    MissesStep(h, id, feeds, k, Limit(retries));
  }

  /** What the variables of the retry loop hold after `k` attempts. */
  ghost predicate LastAttempt(h: Hash, id: ContentIdentity, feeds: Feeds, k: nat,
                              last: Attempt, h2: Option<string>, h3: Option<string>)
  {
    forall u: Unit :: LastAttemptFacts(h, id, feeds, k, last, h2, h3, u)
  }

  ghost predicate LastAttemptFacts(h: Hash, id: ContentIdentity, feeds: Feeds, k: nat,
                                   last: Attempt, h2: Option<string>, h3: Option<string>, u: Unit)
  {
    && Misses(h, id, feeds, k) == k
    && if k == 0 then last == SourceUnstable && h2 == None && h3 == None
       else last == Judge(h, id, feeds(k - 1)) && (h2, h3) == Evidence(h, id, feeds(k - 1))
  }

  lemma GivesUp(h: Hash, id: ContentIdentity, feeds: Feeds, retries: int, last: Attempt, h2: Option<string>, h3: Option<string>)
    requires LastAttempt(h, id, feeds, Limit(retries), last, h2, h3)
    ensures var outcome := if last == SourceUnstable then SOURCE_UNSTABLE else DESTINATION_MISMATCH;
            CopySpec(h, id, feeds, retries) == Returned(CopyResult(outcome, id.sha, h2, h3, 0, Limit(retries)))
  {
    assert LastAttemptFacts(h, id, feeds, Limit(retries), last, h2, h3, Unit);
  }

  /** The next attempt of a copy whose first `k` attempts missed. */
  method TryAgain(m: Machine, journal: JobManifestJournal, id: ContentIdentity, rel: string, feeds: Feeds, k: nat,
                  chunkBytes: int, ghost retries: int, ghost start: World,
                  ghost last: Attempt, ghost h2: Option<string>, ghost h3: Option<string>)
    returns (r: Power<(Attempt, Option<string>, Option<string>, nat)>)
    requires m.Valid() && journal.repo.m == m && journal.job in m.db.jobs && chunkBytes > 0
    requires Quiescent(m.db) && Realizable(m.hash, id) && FreshPath(m.W(), journal.job, rel)
    requires Final(id.sha) !in m.disk.now && OnlyPartial(start, m.W(), id.sha)
    requires k < Limit(retries) && LastAttempt(m.hash, id, feeds, k, last, h2, h3)
    modifies m
    ensures m.Valid() && old(m.trace) <= m.trace && m.db.jobs == old(m.db.jobs)
    ensures r.On? && r.value.0.Good? ==>
              && CopyMade(start, m.W(), journal.job, rel, id) && Partial(id.sha) !in m.disk.now
              && CopySpec(m.hash, id, feeds, retries)
                 == Returned(CopyResult(VERIFIED, id.sha, r.value.1, r.value.2, r.value.3, k + 1))
    ensures r.On? && !r.value.0.Good? ==> OnlyPartial(start, m.W(), id.sha)
    ensures r.On? && r.value.0.SourceError? ==>
              CopySpec(m.hash, id, feeds, retries) == RaisedOSError && FileSize(m.disk, Partial(id.sha)) == Leavings(m.hash, id, feeds, retries)
    ensures r.On? && (r.value.0.SourceUnstable? || r.value.0.DestinationMismatch?) ==>
              LastAttempt(m.hash, id, feeds, k + 1, r.value.0, r.value.1, r.value.2)
  {
    assert LastAttemptFacts(m.hash, id, feeds, k, last, h2, h3, Unit);
    ghost var v := m.W();
    r := AttemptCopy(m, journal, id, rel, feeds(k), chunkBytes);
    AttemptDecides(m.hash, id, feeds, k, retries);
    if r.On? {
      if r.value.0 == Good {
        CopiedAfterPartials(start, v, m.W(), journal.job, rel, id);
      } else {
        OnlyPartialChain(start, v, m.W(), id.sha);
        if r.value.0 != SourceError {
          assert LastAttemptFacts(m.hash, id, feeds, k + 1, r.value.0, r.value.1, r.value.2, Unit);
        }
      }
    }
  }

  /** Copies a new object with retries. */
  method CopyNewObject(m: Machine, journal: JobManifestJournal, id: ContentIdentity, rel: string,
                       feeds: Feeds, retries: int, chunkBytes: int)
    returns (r: Power<CopyEnd>)
    requires m.Valid() && journal.repo.m == m && journal.job in m.db.jobs && chunkBytes > 0
    requires Quiescent(m.db) && Realizable(m.hash, id) && FreshPath(m.W(), journal.job, rel)
    requires Final(id.sha) !in m.disk.now
    modifies m
    ensures m.Valid() && old(m.trace) <= m.trace && m.db.jobs == old(m.db.jobs)
    ensures r.On? ==> r.value == CopySpec(m.hash, id, feeds, retries)
    ensures r.On? ==> if r.value.Returned? && r.value.result.outcome == VERIFIED
                      then CopyMade(old(m.W()), m.W(), journal.job, rel, id)
                      else OnlyPartial(old(m.W()), m.W(), id.sha)
    ensures r.On? && r.value.Returned? ==> Partial(id.sha) !in m.disk.now
    ensures r.On? && r.value.RaisedOSError? ==> FileSize(m.disk, Partial(id.sha)) == Leavings(m.hash, id, feeds, retries)
  {
    ghost var start := m.W();
    MakeOnlyPartial(start, start, id.sha);
    var last := SourceUnstable;
    var h2: Option<string> := None;
    var h3: Option<string> := None;
    var attempts := 0;
    assert LastAttemptFacts(m.hash, id, feeds, 0, last, h2, h3, Unit);
    while attempts < retries + 1
      invariant 0 <= attempts <= Limit(retries)
      invariant m.Valid() && old(m.trace) <= m.trace && OnlyPartial(start, m.W(), id.sha) && m.db.jobs == start.db.jobs
      invariant LastAttempt(m.hash, id, feeds, attempts, last, h2, h3)
    {
      assert Quiescent(m.db) && FreshPath(m.W(), journal.job, rel) && journal.job in m.db.jobs && Final(id.sha) !in m.disk.now by {
        UseOnlyPartial(start, m.W(), id.sha);
      }
      var attempt :- TryAgain(m, journal, id, rel, feeds, attempts, chunkBytes, retries, start, last, h2, h3);
      last, h2, h3 := attempt.0, attempt.1, attempt.2;
      attempts := attempts + 1;
      if last == SourceError {
        return On(RaisedOSError);
      }
      if last == Good {
        return On(Returned(CopyResult(VERIFIED, id.sha, h2, h3, attempt.3, attempts)));
      }
    }

    GivesUp(m.hash, id, feeds, retries, last, h2, h3);
    var _ :- UnlinkIfThere(m, id.sha, start);
    var outcome := if last == SourceUnstable then SOURCE_UNSTABLE else DESTINATION_MISMATCH;
    return On(Returned(CopyResult(outcome, id.sha, h2, h3, 0, attempts)));
  }

  /** Copies an object into the store and the session; one that is already there is only linked. */
  method CopyVerifyFinalize(m: Machine, journal: JobManifestJournal, id: ContentIdentity, rel: string,
                            feeds: Feeds, retries: int, chunkBytes: int)
    returns (r: Power<CopyEnd>)
    requires m.Valid() && journal.repo.m == m && journal.job in m.db.jobs && chunkBytes > 0
    requires Quiescent(m.db) && Realizable(m.hash, id) && FreshPath(m.W(), journal.job, rel)
    modifies m
    ensures m.Valid() && old(m.trace) <= m.trace && m.db.jobs == old(m.db.jobs)
    ensures r.On? ==> r.value == if Final(id.sha) in old(m.disk.now)
                                 then Returned(CopyResult(VERIFIED, id.sha, None, None, 0, 0))
                                 else CopySpec(m.hash, id, feeds, retries)
    ensures r.On? ==> if Final(id.sha) in old(m.disk.now) then LinkedOnly(old(m.W()), m.W(), journal.job, rel, id)
                      else if r.value.Returned? && r.value.result.outcome == VERIFIED
                      then CopyMade(old(m.W()), m.W(), journal.job, rel, id)
                      else OnlyPartial(old(m.W()), m.W(), id.sha)
    ensures r.On? && r.value.Returned? && Final(id.sha) !in old(m.disk.now) ==> Partial(id.sha) !in m.disk.now
    ensures r.On? && r.value.RaisedOSError? ==> FileSize(m.disk, Partial(id.sha)) == Leavings(m.hash, id, feeds, retries)
  {
    if Final(id.sha) in m.disk.now {
      var end :- LinkVerifiedObject(m, journal, id, rel);
      return On(Returned(end.result));
    }
    r := CopyNewObject(m, journal, id, rel, feeds, retries, chunkBytes);
  }
}
