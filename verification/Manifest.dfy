/** The tables of the destination manifest that the backup writes. */
module Manifest {
  import opened Identity

  type Id = nat

  datatype ObjectStatus = PendingFinalize | VerifiedObject

  datatype ObjectRow = ObjectRow(identity: ContentIdentity, status: ObjectStatus)

  datatype EntryState = PendingEntry | VerifiedEntry

  /** A session entry: `job` and `rel` together are its session path. */
  datatype EntryRow = EntryRow(job: string, obj: Id, rel: string, state: EntryState)

  /** The states of a backup job (also the persisted state of a job row). */
  datatype BackupState =
    | IDLE
    | SOURCE_DETECTED
    | MULTIPLE_SOURCES_DETECTED
    | SOURCE_MOUNTING
    | SOURCE_PROTECTION_FAILURE
    | SOURCE_READY
    | PREFLIGHT_SCANNING
    | PREFLIGHT_HASHING
    | PREFLIGHT_COMPARING
    | PREFLIGHT_CAPACITY_CHECK
    | PREFLIGHT_READY
    | PREFLIGHT_WARNING
    | PREFLIGHT_BLOCKED
    | BACKUP_QUEUED
    | BACKUP_COPYING
    | BACKUP_CANCELLING
    | BACKUP_VERIFYING
    | BACKUP_COMPLETED
    | BACKUP_COMPLETED_WITH_WARNINGS
    | BACKUP_CANCELLED
    | BACKUP_FAILED
    | SOURCE_SAFE_TO_REMOVE
    | RECOVERY_REQUIRED
    | RECOVERING

  predicate Completed(s: BackupState) {
    s == BACKUP_COMPLETED || s == BACKUP_COMPLETED_WITH_WARNINGS
  }

  predicate Interrupted(s: BackupState) {
    s == BACKUP_COPYING || s == BACKUP_VERIFYING || s == BACKUP_CANCELLING
  }

  /**
   `session` is the session root, below the backup root. `wanted` is a history variable: what
   preflight hashed for each supported path of the job.
   */
  datatype JobRow = JobRow(state: BackupState, session: string, wanted: map<string, ContentIdentity>)

  datatype Manifest = Manifest(
    objects: map<Id, ObjectRow>,
    entries: map<Id, EntryRow>,
    jobs: map<string, JobRow>)

  const EmptyManifest := Manifest(map[], map[], map[])

  /** The row id SQLite gives to a new row: one more than the largest in use. */
  function NextId(used: set<Id>): (id: Id)
    ensures id !in used && forall u <- used :: u < id
    ensures if used == {} then id == 1 else id - 1 in used
  {
    if used == {} then 1
    else
      LargestExists(used);
      var m :| m in used && forall u <- used :: u <= m;
      m + 1
  }

  lemma LargestExists(s: set<Id>)
    requires s != {}
    ensures exists m <- s :: forall u <- s :: u <= m
  {
    var x :| x in s;
    var rest := s - {x};
    if rest == {} {
      assert s == {x};
      assert x in s && forall u <- s :: u <= x;
    } else {
      LargestExists(rest);
      var m :| m in rest && forall u <- rest :: u <= m;
      assert forall u <- s :: u == x || u in rest;
      LargerOfTwo(s, x, m);
    }
  }

  lemma LargerOfTwo(s: set<Id>, x: Id, m: Id)
    requires x in s && m in s && forall u <- s :: u == x || u <= m
    ensures exists top <- s :: forall u <- s :: u <= top
  {
    var top := if m < x then x else m;
    assert top in s && forall u <- s :: u <= top;
  }
}
