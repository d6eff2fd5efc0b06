/** The data-access layer over the manifest, and the finalize journal built on it. */
module Repository {
  import opened Wrappers
  import opened Identity
  import opened FileSystem
  import opened Manifest
  import opened JobIds
  import opened Protocol
  import opened Runs
  import opened Machines

  ghost predicate UniquePath(db: Manifest, job: string, rel: string, e: Id) {
    e in db.entries && db.entries[e].job == job && db.entries[e].rel == rel
  }

  /** Between two files of a job, and before the first: no object is half-way through finalizing. */
  ghost predicate Quiescent(db: Manifest) {
    forall o <- db.objects :: db.objects[o].status == VerifiedObject
  }

  predicate HasVerified(db: Manifest, id: ContentIdentity) {
    exists o <- db.objects :: db.objects[o].identity == id && db.objects[o].status == VerifiedObject
  }

  /** An entry whose session name is linked to an object is an entry for that object. */
  lemma EntryOfLinkedPath(h: Hash, w: World, e: Id, o: Id)
    requires SizeDetermined(h) && Inv(h, w) && e in w.db.entries && o in w.db.objects
    requires Linked(w.disk, w.db.objects[o].identity.sha, w.db.entries[e].job, w.db.entries[e].rel)
    ensures w.db.entries[e].obj == o
  {
    UseInv(h, w);
    var p := w.db.entries[e].obj;
    var sha, other := w.db.objects[o].identity.sha, w.db.objects[p].identity.sha;
    assert LinkAgrees(w.disk, other, w.db.entries[e].job, w.db.entries[e].rel);
    assert w.disk.now in w.disk.images;
    assert sha == h(w.disk.inodes[w.disk.now[Final(sha)]].data) == other;
    DigestDeterminesIdentity(h, w.db.objects[o].identity, w.db.objects[p].identity);
  }

  /** While nothing is pending, a canonical file in sight is one that a VERIFIED row stands for. */
  lemma VisibleIsVerified(h: Hash, w: World, id: ContentIdentity)
    requires SizeDetermined(h) && Inv(h, w) && Quiescent(w.db) && Realizable(h, id)
    requires Final(id.sha) in w.disk.now
    ensures Durable(w.disk, Final(id.sha)) && HasVerified(w.db, id)
    ensures forall o <- w.db.objects | w.db.objects[o].identity == id :: w.db.objects[o] == ObjectRow(id, VerifiedObject)
  {
    UseInv(h, w);
    var o :| o in w.db.objects && w.db.objects[o].identity.sha == id.sha;
    DigestDeterminesIdentity(h, w.db.objects[o].identity, id);
  }

  /** A VERIFIED row stands for a durable file of its identity. */
  lemma VerifiedIsHeld(h: Hash, w: World, id: ContentIdentity)
    requires SizeDetermined(h) && Inv(h, w) && HasVerified(w.db, id)
    ensures Holds(h, w.disk, Final(id.sha), id)
  {
    UseInv(h, w);
    FileHasIdentity(h, w.disk, id);
  }

  class ManifestRepository {
    const m: Machine

    constructor (m: Machine)
      ensures this.m == m
    {
      this.m := m;
    }

    /** Whether the content is stored: durably, byte for byte; and, while nothing is pending, whether its file is in sight. */
    method HasVerifiedObject(id: ContentIdentity) returns (found: bool)
      requires m.Valid()
      ensures found ==> Holds(m.hash, m.disk, Final(id.sha), id)
      ensures Quiescent(m.db) && Realizable(m.hash, id) ==> (found <==> Final(id.sha) in m.disk.now)
      ensures found == HasVerified(m.db, id)
    {
      m.Now();
      found := exists o :: o in m.db.objects && m.db.objects[o].identity == id && m.db.objects[o].status == VerifiedObject;
      if found {
        VerifiedIsHeld(m.hash, m.W(), id);
      } else if Quiescent(m.db) && Realizable(m.hash, id) && Final(id.sha) in m.disk.now {
        VisibleIsVerified(m.hash, m.W(), id);
      }
    }

    /** Records the object of `id` as PENDING_FINALIZE: updates its row if there is one. */
    method UpsertContentObjectPending(id: ContentIdentity) returns (r: Power<Id>)
      requires m.Valid() && Realizable(m.hash, id) && Final(id.sha) !in m.disk.now
      modifies m
      ensures m.Valid() && old(m.trace) <= m.trace && m.disk == old(m.disk)
      ensures m.db == if r.On? then old(m.db).(objects := m.db.objects) else old(m.db)
      ensures r.On? ==> m.db.objects == old(m.db.objects)[r.value := ObjectRow(id, PendingFinalize)]
      ensures r.On? && Quiescent(old(m.db)) ==> r.value !in old(m.db.objects) && !HasIdentity(old(m.db), id)
    {
      m.Now();
      UseInv(m.hash, m.W());
      if o :| o in m.db.objects && m.db.objects[o].identity == id {
        var _ :- m.Do(SetObject(o, PendingFinalize));
        return On(o);
      }
      var o := NextId(m.db.objects.Keys);
      var _ :- m.Do(InsertObject(o, ObjectRow(id, PendingFinalize)));
      return On(o);
    }

    /** Transitions the object of `id` to VERIFIED, or creates it so. */
    method MarkContentObjectVerified(id: ContentIdentity) returns (r: Power<Id>)
      requires m.Valid() && Realizable(m.hash, id) && Durable(m.disk, Final(id.sha))
      modifies m
      ensures m.Valid() && old(m.trace) <= m.trace && m.disk == old(m.disk)
      ensures m.db == if r.On? then old(m.db).(objects := m.db.objects) else old(m.db)
      ensures r.On? ==> m.db.objects == old(m.db.objects)[r.value := ObjectRow(id, VerifiedObject)]
      ensures r.On? ==> if HasIdentity(old(m.db), id) then r.value in old(m.db.objects) && old(m.db.objects)[r.value].identity == id
                        else r.value !in old(m.db.objects)
    {
      if o :| o in m.db.objects && m.db.objects[o].identity == id {
        var _ :- m.Do(SetObject(o, VerifiedObject));
        return On(o);
      }
      var o := NextId(m.db.objects.Keys);
      var _ :- m.Do(InsertObject(o, ObjectRow(id, VerifiedObject)));
      return On(o);
    }

    method InsertSessionEntry(job: string, o: Id, rel: string, state: EntryState) returns (r: Power<Id>)
      requires m.Valid() && o in m.db.objects && job in m.db.jobs && !PathTaken(m.db, job, rel)
      requires LinkAgrees(m.disk, m.db.objects[o].identity.sha, job, rel)
      requires state == VerifiedEntry ==> Linked(m.disk, m.db.objects[o].identity.sha, job, rel)
      modifies m
      ensures m.Valid() && old(m.trace) <= m.trace && m.disk == old(m.disk)
      ensures m.db == if r.On? then old(m.db).(entries := m.db.entries) else old(m.db)
      ensures r.On? ==> r.value !in old(m.db.entries)
      ensures r.On? ==> m.db.entries == old(m.db.entries)[r.value := EntryRow(job, o, rel, state)]
    {
      var e := NextId(m.db.entries.Keys);
      var _ :- m.Do(InsertEntry(e, EntryRow(job, o, rel, state)));
      return On(e);
    }

    /** Promotes the entry of a session path to VERIFIED, or inserts one if there is none. */
    method FinalizeSessionEntry(job: string, o: Id, rel: string) returns (r: Power<Id>)
      requires m.Valid() && o in m.db.objects && job in m.db.jobs
      requires Linked(m.disk, m.db.objects[o].identity.sha, job, rel)
      modifies m
      ensures m.Valid() && old(m.trace) <= m.trace && m.disk == old(m.disk)
      ensures m.db == if r.On? then old(m.db).(entries := m.db.entries) else old(m.db)
      ensures r.On? ==> (r.value in old(m.db.entries) <==> PathTaken(old(m.db), job, rel))
      ensures r.On? && r.value in old(m.db.entries) ==> UniquePath(old(m.db), job, rel, r.value)
      ensures r.On? ==> m.db.entries == old(m.db.entries)[r.value := EntryRow(job, o, rel, VerifiedEntry)]
    {
      if e :| e in m.db.entries && m.db.entries[e].job == job && m.db.entries[e].rel == rel {
        m.Now();
        EntryOfLinkedPath(m.hash, m.W(), e, o);
        var _ :- m.Do(VerifyEntry(e, o));
        return On(e);
      }
      r := InsertSessionEntry(job, o, rel, VerifiedEntry);
    }

    method CountJobsForDate(day: Day) returns (n: nat)
      ensures n == |OfDay(m.db.jobs.Keys, day)|
    {
      n := |set j | j in m.db.jobs && PrefixOf(day) <= j|;
      assert OfDay(m.db.jobs.Keys, day) == set j | j in m.db.jobs && PrefixOf(day) <= j;
    }

    method CreateBackupJob(job: string, state: BackupState, session: string, wanted: map<string, ContentIdentity>)
      returns (r: Power<()>)
      requires m.Valid() && job !in m.db.jobs && !Completed(state) && NewJob(m.db.jobs.Keys, job, session)
      modifies m
      ensures m.Valid() && old(m.trace) <= m.trace && m.disk == old(m.disk)
      ensures m.db == if r.On? then old(m.db).(jobs := old(m.db.jobs)[job := JobRow(state, session, wanted)]) else old(m.db)
    {
      r := m.Do(CreateJob(job, JobRow(state, session, wanted)));
    }

    method FinishBackupJob(job: string, state: BackupState) returns (r: Power<()>)
      requires m.Valid() && job in m.db.jobs && !Completed(m.db.jobs[job].state)
      requires Completed(state) ==> AllRecorded(m.db, job, m.db.jobs[job].wanted)
      modifies m
      ensures m.Valid() && old(m.trace) <= m.trace && m.disk == old(m.disk)
      ensures m.db == if r.On?
                      then old(m.db).(jobs := old(m.db.jobs)[job := old(m.db.jobs[job]).(state := state)])
                      else old(m.db)
    {
      r := m.Do(SetJobState(job, state));
    }
  }

  /** The finalize journal of one job: each method is a sequence of separate commits. */
  class JobManifestJournal {
    const repo: ManifestRepository
    const job: string

    constructor (repo: ManifestRepository, job: string)
      ensures this.repo == repo && this.job == job
    {
      this.repo := repo;
      this.job := job;
    }

    /** PENDING_FINALIZE for the object, then a PENDING entry for the link to come. */
    method RecordPendingFinalize(id: ContentIdentity, rel: string) returns (r: Power<Id>)
      requires repo.m.Valid() && Realizable(repo.m.hash, id) && job in repo.m.db.jobs
      requires Final(id.sha) !in repo.m.disk.now && !PathTaken(repo.m.db, job, rel)
      requires Session(job, rel) !in repo.m.disk.now
      modifies repo.m
      ensures repo.m.Valid() && old(repo.m.trace) <= repo.m.trace && repo.m.disk == old(repo.m.disk)
      ensures repo.m.db.jobs == old(repo.m.db.jobs)
      ensures r.On? ==> repo.m.db.objects == old(repo.m.db.objects)[r.value := ObjectRow(id, PendingFinalize)]
      ensures r.On? && Quiescent(old(repo.m.db)) ==>
                r.value !in old(repo.m.db.objects) && !HasIdentity(old(repo.m.db), id)
      ensures r.On? ==>
                exists e: Id :: (e !in old(repo.m.db.entries)
                             && repo.m.db.entries == old(repo.m.db.entries)[e := EntryRow(job, r.value, rel, PendingEntry)])
    {
      var o :- repo.UpsertContentObjectPending(id);
      var e :- repo.InsertSessionEntry(job, o, rel, PendingEntry);
      assert repo.m.db.entries == old(repo.m.db.entries)[e := EntryRow(job, o, rel, PendingEntry)];
      return On(o);
    }

    /** VERIFIED for the object, then for the entry. */
    method MarkVerified(id: ContentIdentity, rel: string) returns (r: Power<Id>)
      requires repo.m.Valid() && Realizable(repo.m.hash, id) && job in repo.m.db.jobs
      requires Linked(repo.m.disk, id.sha, job, rel)
      modifies repo.m
      ensures repo.m.Valid() && old(repo.m.trace) <= repo.m.trace && repo.m.disk == old(repo.m.disk)
      ensures repo.m.db.jobs == old(repo.m.db.jobs)
      ensures r.On? ==> repo.m.db.objects == old(repo.m.db.objects)[r.value := ObjectRow(id, VerifiedObject)]
      ensures r.On? ==> if HasIdentity(old(repo.m.db), id)
                        then r.value in old(repo.m.db.objects) && old(repo.m.db.objects)[r.value].identity == id
                        else r.value !in old(repo.m.db.objects)
      ensures r.On? ==> Recorded(repo.m.db, job, rel, id)
      ensures r.On? ==>
                exists e: Id :: ((e in old(repo.m.db.entries) <==> PathTaken(old(repo.m.db), job, rel))
                             && (e in old(repo.m.db.entries) ==> UniquePath(old(repo.m.db), job, rel, e))
                             && repo.m.db.entries == old(repo.m.db.entries)[e := EntryRow(job, r.value, rel, VerifiedEntry)])
    {
      var o :- repo.MarkContentObjectVerified(id);
      assert PathTaken(repo.m.db, job, rel) <==> PathTaken(old(repo.m.db), job, rel);
      var e :- repo.FinalizeSessionEntry(job, o, rel);
      assert repo.m.db.entries == old(repo.m.db.entries)[e := EntryRow(job, o, rel, VerifiedEntry)];
      assert repo.m.db.entries[e] == EntryRow(job, o, rel, VerifiedEntry);
      return On(o);
    }
  }
}
