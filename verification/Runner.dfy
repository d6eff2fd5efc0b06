/** Executes a plan file by file and tallies what became of each. */
module Runner {
  import opened Wrappers
  import opened Identity
  import opened FileSystem
  import opened Manifest
  import opened Protocol
  import opened Runs
  import opened Machines
  import opened Repository
  import opened Copier
  import opened Planner
  import opened Totals

  datatype JobOutcome = COMPLETED | COMPLETED_WITH_WARNINGS | CANCELLED | FAILED

  datatype JobRunResult = JobRunResult(
    outcome: JobOutcome, verified: nat, copied: nat, skipped: nat, failed: nat, bytesCopied: nat, failures: seq<string>)

  datatype RunEnd = Finished(result: JobRunResult) | RaisedBlockedPlan

  datatype Progress = Progress(done: nat, total: nat, bytesDone: nat, bytesTotal: nat, rel: string)

  /**
   What became of one planned file. `added` says that a new object was written for it; `left` is
   the size of the partial that a failing source left behind.
   */
  datatype Verdict =
    | Copied(added: bool, bytes: nat)
    | LinkedExisting
    | LinkedSameJob
    | Unsupported
    | Failed
    | SourceFailed(left: nat)

  predicate BackedUp(v: Verdict) {
    v.Copied? || v.LinkedExisting? || v.LinkedSameJob?
  }

  /** As the plan delivers it: a file to copy or link has an identity that some bytes have. */
  ghost predicate Executable(h: Hash, f: PlannedFile) {
    (f.action.COPY_VERIFY_OBJECT_AND_LINK? || f.action.LINK_EXISTING_VERIFIED_OBJECT? || f.action.LINK_NEW_OBJECT_SAME_JOB?)
    ==> f.identity.Some? && Realizable(h, f.identity.value) && f.size == f.identity.value.size
  }

  /** What a file with verdict `v` does to the object table. */
  ghost predicate Effect(before: Manifest, after: Manifest, f: PlannedFile, v: Verdict) {
    if v.Copied? && v.added then
      f.identity.Some? && v.bytes == f.size == f.identity.value.size && AddsObject(before, after, f.identity.value)
    else after.objects == before.objects && (v.Copied? ==> v.bytes == 0)
  }

  /** The bytes of partials that a file with verdict `v` adds. */
  function Leftover(v: Verdict): nat {
    if v.SourceFailed? then v.left else 0
  }

  /** The verdict on a copy of a new object, from what its source delivers. */
  function CopyVerdict(h: Hash, id: ContentIdentity, feeds: Feeds, retries: int): Verdict {
    match CopySpec(h, id, feeds, retries)
    case RaisedOSError => SourceFailed(Leavings(h, id, feeds, retries))
    case Returned(result) => if result.outcome == VERIFIED then Copied(true, id.size) else Failed
  }

  /** What has to become of a planned file, where the objects named in `shelf` are in the store. */
  function VerdictOf(h: Hash, f: PlannedFile, feeds: Feeds, retries: int, shelf: set<string>): Verdict {
    var there := f.identity.Some? && f.identity.value.sha in shelf;
    match f.action
    case COPY_VERIFY_OBJECT_AND_LINK =>
      if there then Copied(false, 0)
      else if f.identity.Some? then CopyVerdict(h, f.identity.value, feeds, retries)
      else Failed
    case LINK_EXISTING_VERIFIED_OBJECT => if there then LinkedExisting else Failed
    case LINK_NEW_OBJECT_SAME_JOB => if there then LinkedSameJob else Failed
    case SKIP_UNSUPPORTED => Unsupported
    case _ => Failed
  }

  /** The digests of the objects in a table. */
  function ShasOf(objects: map<Id, ObjectRow>): set<string> {
    set o | o in objects :: objects[o].identity.sha
  }

  /** The digests of the objects that the first files of a plan were copied to. */
  function Written(files: seq<PlannedFile>, vs: seq<Verdict>): set<string>
    requires |vs| <= |files|
  {
    if vs == [] then {}
    else
      var k := |vs| - 1;
      Written(files, vs[..k]) + if vs[k].Copied? && files[k].identity.Some? then {files[k].identity.value.sha} else {}
  }

  /** What has to become of the first `n` files, from the store they find and what their sources deliver. */
  function Verdicts(h: Hash, shelf: set<string>, files: seq<PlannedFile>, feeds: nat -> Feeds, retries: int,
                    n: nat): (vs: seq<Verdict>)
    requires n <= |files|
    ensures |vs| == n
  {
    if n == 0 then []
    else
      var vs := Verdicts(h, shelf, files, feeds, retries, n - 1);
      vs + [VerdictOf(h, files[n - 1], feeds(n - 1), retries, shelf + Written(files, vs))]
  }

  lemma VerdictsNext(h: Hash, shelf: set<string>, files: seq<PlannedFile>, feeds: nat -> Feeds, retries: int, k: nat)
    requires k < |files|
    ensures var vs := Verdicts(h, shelf, files, feeds, retries, k);
            Verdicts(h, shelf, files, feeds, retries, k + 1)
            == vs + [VerdictOf(h, files[k], feeds(k), retries, shelf + Written(files, vs))]
  {
  }

  lemma {:induction false} VerdictsFront(h: Hash, shelf: set<string>, files: seq<PlannedFile>, feeds: nat -> Feeds,
                                         retries: int, n: nat, k: nat)
    requires k <= n <= |files|
    ensures Verdicts(h, shelf, files, feeds, retries, n)[..k] == Verdicts(h, shelf, files, feeds, retries, k)
    decreases n
  {
    if k < n {
      VerdictsFront(h, shelf, files, feeds, retries, n - 1, k);
      VerdictsNext(h, shelf, files, feeds, retries, n - 1);
    }
  }

  /** Each verdict is settled by its own sources, and by the store as the files before it have left it. */
  lemma VerdictsAt(h: Hash, shelf: set<string>, files: seq<PlannedFile>, feeds: nat -> Feeds, retries: int, n: nat, k: nat)
    requires k < n <= |files|
    ensures Verdicts(h, shelf, files, feeds, retries, n)[..k] == Verdicts(h, shelf, files, feeds, retries, k)
    ensures Verdicts(h, shelf, files, feeds, retries, n)[k]
            == VerdictOf(h, files[k], feeds(k), retries, shelf + Written(files, Verdicts(h, shelf, files, feeds, retries, k)))
  {
    VerdictsFront(h, shelf, files, feeds, retries, n, k);
    VerdictsFront(h, shelf, files, feeds, retries, n, k + 1);
    VerdictsNext(h, shelf, files, feeds, retries, k);
  }

  lemma {:induction false} WrittenIff(files: seq<PlannedFile>, vs: seq<Verdict>, sha: string)
    requires |vs| <= |files|
    ensures sha in Written(files, vs) <==>
              exists j :: 0 <= j < |vs| && vs[j].Copied? && files[j].identity.Some? && files[j].identity.value.sha == sha
  {
    if vs != [] {
      var k := |vs| - 1;
      WrittenIff(files, vs[..k], sha);
      if j :| 0 <= j < |vs| && vs[j].Copied? && files[j].identity.Some? && files[j].identity.value.sha == sha {
        if j < k {
          assert vs[..k][j] == vs[j];
        }
      }
      if j :| 0 <= j < k && vs[..k][j].Copied? && files[j].identity.Some? && files[j].identity.value.sha == sha {
        assert vs[j] == vs[..k][j];
      }
    }
  }

  /** While nothing is pending, the canonical files in sight are those of the object table. */
  lemma VisibleIffShelved(h: Hash, w: World, sha: string)
    requires Inv(h, w) && Quiescent(w.db)
    ensures Final(sha) in w.disk.now <==> sha in ShasOf(w.db.objects)
  {
    UseInv(h, w);
    if Final(sha) in w.disk.now {
      var o :| o in w.db.objects && w.db.objects[o].identity.sha == sha;
    }
  }

  /** Copies one planned file. */
  method RunCopy(m: Machine, journal: JobManifestJournal, f: PlannedFile, feeds: Feeds, retries: int, chunkBytes: int)
    returns (r: Power<Verdict>)
    requires m.Valid() && journal.repo.m == m && journal.job in m.db.jobs && chunkBytes > 0
    requires Quiescent(m.db) && f.action.COPY_VERIFY_OBJECT_AND_LINK? && Executable(m.hash, f)
    requires FreshPath(m.W(), journal.job, f.rel)
    modifies m
    ensures m.Valid() && old(m.trace) <= m.trace && m.db.jobs == old(m.db.jobs)
    ensures r.On? ==> Quiescent(m.db)
    ensures r.On? ==> OnlyPath(old(m.W()), m.W(), journal.job, f.rel)
    ensures r.On? ==> Effect(old(m.db), m.db, f, r.value)
    ensures r.On? ==> PartialBytes(m.disk) <= PartialBytes(old(m.disk)) + Leftover(r.value)
    ensures r.On? && BackedUp(r.value) ==> Recorded(m.db, journal.job, f.rel, f.identity.value)
    ensures r.On? ==> r.value == VerdictOf(m.hash, f, feeds, retries, ShasOf(old(m.db.objects)))
    ensures r.On? ==>
              var id := f.identity.value;
              if Final(id.sha) in old(m.disk.now) then r.value == Copied(false, 0)
              else if Serves(m.hash, id, feeds, retries) then r.value == Copied(true, id.size)
              else if Fails(m.hash, id, feeds, retries) then r.value.SourceFailed? && r.value.left == FileSize(m.disk, Partial(id.sha))
              else r.value == Failed
  {
    var id := f.identity.value;
    ghost var v := m.W();
    m.Now();
    VisibleIffShelved(m.hash, v, id.sha);
    VerifiedMeansHashesAgree(m.hash, id, feeds, retries);
    var end :- CopyVerifyFinalize(m, journal, id, f.rel, feeds, retries, chunkBytes);
    CopyEffect(m.hash, v, m.W(), journal.job, f.rel, id, end.Returned? && end.result.outcome == VERIFIED);
    if end.RaisedOSError? {
      return On(SourceFailed(FileSize(m.disk, Partial(id.sha))));
    }
    if end.result.outcome == VERIFIED {
      return On(Copied(end.result.attempts > 0, end.result.bytesWritten));
    }
    return On(Failed);
  }

  /** What a copy leaves, however it ended. */
  lemma CopyEffect(h: Hash, v: World, w: World, job: string, rel: string, id: ContentIdentity, verified: bool)
    requires Inv(h, v) && Quiescent(v.db)
    requires if Final(id.sha) in v.disk.now then LinkedOnly(v, w, job, rel, id)
             else if verified then CopyMade(v, w, job, rel, id)
             else OnlyPartial(v, w, id.sha)
    ensures Quiescent(w.db) && w.db.jobs == v.db.jobs && OnlyPath(v, w, job, rel)
    ensures if Final(id.sha) !in v.disk.now && verified then AddsObject(v.db, w.db, id) else w.db.objects == v.db.objects
    ensures PartialBytes(w.disk) <= PartialBytes(v.disk) + if Final(id.sha) in v.disk.now then 0 else FileSize(w.disk, Partial(id.sha))
  {
    var linked := Final(id.sha) in v.disk.now;
    if !linked && !verified {
      UseOnlyPartial(v, w, id.sha);
    }
    BoundPartials(h, v, w, id.sha, linked);
  }

  lemma BoundPartials(h: Hash, v: World, w: World, sha: string, linked: bool)
    requires Inv(h, v)
    requires if linked then PartialsStay(v.disk, w.disk) else OthersStay(v.disk, w.disk, sha)
    ensures PartialBytes(w.disk) <= PartialBytes(v.disk) + if linked then 0 else FileSize(w.disk, Partial(sha))
  {
    UseInv(h, v);
    if linked {
      PartialBytesStay(v.disk, w.disk);
    } else {
      PartialBytesChange(v.disk, w.disk, sha);
    }
  }

  /** Links one planned file to an object that is there already. */
  method RunLink(m: Machine, journal: JobManifestJournal, f: PlannedFile) returns (r: Power<bool>)
    requires m.Valid() && journal.repo.m == m && journal.job in m.db.jobs
    requires Quiescent(m.db) && f.identity.Some? && Realizable(m.hash, f.identity.value)
    requires FreshPath(m.W(), journal.job, f.rel)
    modifies m
    ensures m.Valid() && old(m.trace) <= m.trace && m.db.jobs == old(m.db.jobs)
    ensures r.On? ==> m.db.objects == old(m.db.objects)
    ensures r.On? ==> OnlyPath(old(m.W()), m.W(), journal.job, f.rel)
    ensures r.On? ==> PartialBytes(m.disk) == PartialBytes(old(m.disk))
    ensures r.On? ==> r.value == (f.identity.value.sha in ShasOf(old(m.db.objects)))
    ensures r.On? && r.value ==> Recorded(m.db, journal.job, f.rel, f.identity.value)
  {
    ghost var v := m.W();
    m.Now();
    VisibleIffShelved(m.hash, v, f.identity.value.sha);
    var end :- LinkVerifiedObject(m, journal, f.identity.value, f.rel);
    assert PartialBytes(m.disk) == PartialBytes(v.disk) by {
      UseInv(m.hash, v);
      PartialBytesStay(v.disk, m.disk);
    }
    return On(end.LinkedIn?);
  }

  /** Executes one planned file. */
  method RunFile(m: Machine, journal: JobManifestJournal, f: PlannedFile, feeds: Feeds, retries: int, chunkBytes: int)
    returns (r: Power<Verdict>)
    requires m.Valid() && journal.repo.m == m && journal.job in m.db.jobs && chunkBytes > 0
    requires Quiescent(m.db) && Executable(m.hash, f) && FreshPath(m.W(), journal.job, f.rel)
    modifies m
    ensures m.Valid() && old(m.trace) <= m.trace && m.db.jobs == old(m.db.jobs)
    ensures r.On? ==> Quiescent(m.db)
    ensures r.On? ==> OnlyPath(old(m.W()), m.W(), journal.job, f.rel)
    ensures r.On? ==> Effect(old(m.db), m.db, f, r.value)
    ensures r.On? ==> PartialBytes(m.disk) <= PartialBytes(old(m.disk)) + Leftover(r.value)
    ensures r.On? && BackedUp(r.value) ==> f.identity.Some? && Recorded(m.db, journal.job, f.rel, f.identity.value)
    ensures r.On? ==> r.value == VerdictOf(m.hash, f, feeds, retries, ShasOf(old(m.db.objects)))
  {
    match f.action {
      case COPY_VERIFY_OBJECT_AND_LINK =>
        r := RunCopy(m, journal, f, feeds, retries, chunkBytes);
      case LINK_EXISTING_VERIFIED_OBJECT =>
        var linked :- RunLink(m, journal, f);
        return On(if linked then LinkedExisting else Failed);
      case LINK_NEW_OBJECT_SAME_JOB =>
        var linked :- RunLink(m, journal, f);
        return On(if linked then LinkedSameJob else Failed);
      case SKIP_UNSUPPORTED =>
        return On(Unsupported);
      case _ =>
        return On(Failed);
    }
  }

  /** The tallies of a run, as functions of what became of its files. */
  datatype Tallies = Tallies(verified: nat, copied: nat, skipped: nat, linkedSameJob: nat, unsupported: nat, failed: nat, bytes: nat)

  function TalliesOf(vs: seq<Verdict>): Tallies {
    if vs == [] then Tallies(0, 0, 0, 0, 0, 0, 0)
    else Tallied(TalliesOf(vs[..|vs| - 1]), vs[|vs| - 1])
  }

  function Tallied(t: Tallies, v: Verdict): Tallies {
    match v
    case Copied(_, bytes) => t.(verified := t.verified + 1, copied := t.copied + 1, bytes := t.bytes + bytes)
    case LinkedExisting => t.(verified := t.verified + 1, skipped := t.skipped + 1)
    case LinkedSameJob => t.(verified := t.verified + 1, linkedSameJob := t.linkedSameJob + 1)
    case Unsupported => t.(unsupported := t.unsupported + 1)
    case Failed => t.(failed := t.failed + 1)
    case SourceFailed(_) => t.(failed := t.failed + 1)
  }

  /** Conservation: every file is verified, failed or unsupported, and every verified one was copied, skipped or linked. */
  lemma {:induction false} TalliesAddUp(vs: seq<Verdict>)
    ensures var t := TalliesOf(vs);
            t.verified + t.failed + t.unsupported == |vs| && t.verified == t.copied + t.skipped + t.linkedSameJob
  {
    if vs != [] {
      TalliesAddUp(vs[..|vs| - 1]);
    }
  }

  predicate IsCopied(v: Verdict) { v.Copied? }

  predicate IsSkipped(v: Verdict) { v.LinkedExisting? }

  predicate IsLinkedWithin(v: Verdict) { v.LinkedSameJob? }

  predicate IsUnsupported(v: Verdict) { v.Unsupported? }

  predicate IsFailed(v: Verdict) { v.Failed? || v.SourceFailed? }

  /** The indices of the verdicts of one kind. */
  function Where(vs: seq<Verdict>, kind: Verdict -> bool): set<nat> {
    set k: nat | k < |vs| && kind(vs[k])
  }

  lemma WhereNext(front: seq<Verdict>, last: Verdict, kind: Verdict -> bool)
    ensures |Where(front + [last], kind)| == |Where(front, kind)| + if kind(last) then 1 else 0
  {
    var more := if kind(last) then {|front|} else {};
    assert Where(front + [last], kind) == Where(front, kind) + more;
  }

  lemma {:induction false} TalliesAreCounts(vs: seq<Verdict>)
    ensures var t := TalliesOf(vs);
            && t.copied == |Where(vs, IsCopied)| && t.skipped == |Where(vs, IsSkipped)|
            && t.linkedSameJob == |Where(vs, IsLinkedWithin)| && t.unsupported == |Where(vs, IsUnsupported)|
            && t.failed == |Where(vs, IsFailed)| && t.verified == |Where(vs, BackedUp)|
  {
    if vs != [] {
      var front, last := vs[..|vs| - 1], vs[|vs| - 1];
      TalliesAreCounts(front);
      assert vs == front + [last];
      WhereNext(front, last, IsCopied);
      WhereNext(front, last, IsSkipped);
      WhereNext(front, last, IsLinkedWithin);
      WhereNext(front, last, IsUnsupported);
      WhereNext(front, last, IsFailed);
      WhereNext(front, last, BackedUp);
    }
  }

  /**
   What the counters of a result mean: how many files were copied, how many were linked to an
   object that was there before, how many failed, and how many came out backed up.
   */
  lemma CountersTell(plan: Plan, vs: seq<Verdict>)
    requires |vs| <= |plan.files|
    ensures var r := ResultOf(plan, vs);
            && r.copied == |set k: nat | k < |vs| && vs[k].Copied?|
            && r.skipped == |set k: nat | k < |vs| && vs[k].LinkedExisting?|
            && r.failed == |set k: nat | k < |vs| && (vs[k].Failed? || vs[k].SourceFailed?)|
            && r.verified == |set k: nat | k < |vs| && (vs[k].Copied? || vs[k].LinkedExisting? || vs[k].LinkedSameJob?)|
  {
    TalliesAreCounts(vs);
    assert Where(vs, IsCopied) == set k: nat | k < |vs| && vs[k].Copied?;
    assert Where(vs, IsSkipped) == set k: nat | k < |vs| && vs[k].LinkedExisting?;
    assert Where(vs, IsFailed) == set k: nat | k < |vs| && (vs[k].Failed? || vs[k].SourceFailed?);
    assert Where(vs, BackedUp) == set k: nat | k < |vs| && (vs[k].Copied? || vs[k].LinkedExisting? || vs[k].LinkedSameJob?);
  }

  /** Nothing failed, or was unsupported, exactly when the tallies say so. */
  lemma {:induction false} TalliesTell(vs: seq<Verdict>)
    ensures TalliesOf(vs).failed == 0 <==> forall v <- vs :: BackedUp(v) || v.Unsupported?
    ensures TalliesOf(vs).unsupported == 0 <==> forall v <- vs :: !v.Unsupported?
  {
    if vs != [] {
      var front, last := vs[..|vs| - 1], vs[|vs| - 1];
      TalliesTell(front);
      TellsNext(front, last);
      assert vs == front + [last];
    }
  }

  lemma TellsNext(front: seq<Verdict>, last: Verdict)
    ensures (forall v <- front + [last] :: BackedUp(v) || v.Unsupported?)
            <==> (forall v <- front :: BackedUp(v) || v.Unsupported?) && (BackedUp(last) || last.Unsupported?)
    ensures (forall v <- front + [last] :: !v.Unsupported?) <==> (forall v <- front :: !v.Unsupported?) && !last.Unsupported?
  {
    var vs := front + [last];
    assert last in vs && forall v <- front :: v in vs;
    assert forall v <- vs :: v in front || v == last;
  }

  ghost predicate DistinctPaths(files: seq<PlannedFile>) {
    forall i, j | 0 <= i < j < |files| :: files[i].rel != files[j].rel
  }

  /** Every good verdict is on record for its file. */
  ghost predicate OnRecord(db: Manifest, job: string, files: seq<PlannedFile>, vs: seq<Verdict>) {
    && |vs| <= |files|
    && forall k | 0 <= k < |vs| && BackedUp(vs[k]) ::
         files[k].identity.Some? && Recorded(db, job, files[k].rel, files[k].identity.value)
  }

  /** The paths of the files from `k` on have not been used. */
  ghost predicate StillFresh(w: World, job: string, files: seq<PlannedFile>, k: nat) {
    forall i | k <= i < |files| :: FreshPath(w, job, files[i].rel)
  }

  lemma RecordedStays(v: World, w: World, job: string, rel: string, id: ContentIdentity)
    requires Grows(v, w) && Recorded(v.db, job, rel, id)
    ensures Recorded(w.db, job, rel, id)
  {
    UseGrows(v, w);
    var e :| && e in v.db.entries && v.db.entries[e].job == job && v.db.entries[e].rel == rel
             && v.db.entries[e].state == VerifiedEntry
             && v.db.entries[e].obj in v.db.objects && v.db.objects[v.db.entries[e].obj].identity == id;
    assert w.db.entries[e] == v.db.entries[e];
  }

  lemma OnRecordNext(v: World, w: World, job: string, files: seq<PlannedFile>, vs: seq<Verdict>, verdict: Verdict)
    requires Grows(v, w) && OnRecord(v.db, job, files, vs) && |vs| < |files|
    requires BackedUp(verdict) ==> files[|vs|].identity.Some? && Recorded(w.db, job, files[|vs|].rel, files[|vs|].identity.value)
    ensures OnRecord(w.db, job, files, vs + [verdict])
  {
    forall k | 0 <= k < |vs| && BackedUp(vs[k])
      ensures Recorded(w.db, job, files[k].rel, files[k].identity.value)
    {
      RecordedStays(v, w, job, files[k].rel, files[k].identity.value);
    }
  }

  lemma StillFreshNext(v: World, w: World, job: string, files: seq<PlannedFile>, k: nat)
    requires k < |files| && DistinctPaths(files) && StillFresh(v, job, files, k) && OnlyPath(v, w, job, files[k].rel)
    ensures StillFresh(w, job, files, k + 1)
  {
  }

  /** What a run adds to the totals of the destination. */
  ghost predicate TotalsGrow(before: Manifest, after: Manifest, t: Tallies) {
    && DestinationTotals(after).1 == DestinationTotals(before).1 + t.bytes
    && DestinationTotals(before).0 <= DestinationTotals(after).0 <= DestinationTotals(before).0 + t.copied
  }

  lemma TotalsNext(start: Manifest, before: Manifest, after: Manifest, t: Tallies, f: PlannedFile, v: Verdict)
    requires TotalsGrow(start, before, t) && Effect(before, after, f, v)
    ensures TotalsGrow(start, after, Tallied(t, v))
  {
    if v.Copied? && v.added {
      AddingToTotals(before, after, f.identity.value);
    } else {
      SameTotals(before, after);
    }
  }

  function PlannedBytes(files: seq<PlannedFile>): nat {
    if files == [] then 0 else PlannedBytes(files[..|files| - 1]) + files[|files| - 1].size
  }

  lemma {:induction false} PrefixBytes(files: seq<PlannedFile>, k: nat)
    requires k <= |files|
    ensures PlannedBytes(files[..k]) <= PlannedBytes(files) && CopyBytes(files[..k]) <= CopyBytes(files)
    decreases |files|
  {
    if k == |files| {
      assert files[..k] == files;
    } else {
      PrefixBytes(files[..|files| - 1], k);
      assert files[..|files| - 1][..k] == files[..k];
    }
  }

  lemma NextPrefix(files: seq<PlannedFile>, k: nat)
    requires k < |files|
    ensures PlannedBytes(files[..k + 1]) == PlannedBytes(files[..k]) + files[k].size
    ensures CopyBytes(files[..k + 1]) == CopyBytes(files[..k]) + if files[k].action.COPY_VERIFY_OBJECT_AND_LINK? then files[k].size else 0
  {
    assert files[..k + 1][..k] == files[..k];
  }

  function OutcomeOf(cancelled: bool, failed: nat, unsupported: nat): JobOutcome {
    if cancelled then CANCELLED
    else if failed > 0 then FAILED
    else if unsupported > 0 then COMPLETED_WITH_WARNINGS
    else COMPLETED
  }

  /** The number of files dealt with before the token is found set. */
  function FirstCancelled(cancelled: nat -> bool, n: nat): (k: nat)
    ensures k <= n && (forall i | 0 <= i < k :: !cancelled(i)) && (k < n ==> cancelled(k))
  {
    if n == 0 then 0
    else
      var k := FirstCancelled(cancelled, n - 1);
      if k < n - 1 || cancelled(k) then k else n
  }

  /** The verdicts an action can come to. */
  predicate Fits(f: PlannedFile, v: Verdict) {
    match f.action
    case COPY_VERIFY_OBJECT_AND_LINK => v.Copied? || v.Failed? || v.SourceFailed?
    case LINK_EXISTING_VERIFIED_OBJECT => v.LinkedExisting? || v.Failed?
    case LINK_NEW_OBJECT_SAME_JOB => v.LinkedSameJob? || v.Failed?
    case SKIP_UNSUPPORTED => v.Unsupported?
    case _ => v.Failed?
  }

  /** The object table can only have changed through a copy. */
  predicate CopiesOnly(start: Manifest, db: Manifest, files: seq<PlannedFile>, vs: seq<Verdict>) {
    (forall v <- vs :: !v.Copied?) ==> db.objects == start.objects
  }

  /** The store has the objects it had, and those that were copied. */
  predicate Stocked(start: Manifest, db: Manifest, files: seq<PlannedFile>, vs: seq<Verdict>) {
    |vs| <= |files| && ShasOf(db.objects) == ShasOf(start.objects) + Written(files, vs)
  }

  lemma StockedNext(start: Manifest, before: Manifest, after: Manifest, files: seq<PlannedFile>, vs: seq<Verdict>,
                    verdict: Verdict)
    requires Stocked(start, before, files, vs) && |vs| < |files|
    requires Effect(before, after, files[|vs|], verdict)
    requires verdict.Copied? && !verdict.added && files[|vs|].identity.Some? ==>
               files[|vs|].identity.value.sha in ShasOf(before.objects)
    ensures Stocked(start, after, files, vs + [verdict])
  {
    assert (vs + [verdict])[..|vs|] == vs;
    if verdict.Copied? && verdict.added {
      var id := files[|vs|].identity.value;
      var o: Id :| o !in before.objects && after.objects == before.objects[o := ObjectRow(id, VerifiedObject)];
      MoreShas(before.objects, o, ObjectRow(id, VerifiedObject));
    }
  }

  lemma MoreShas(objects: map<Id, ObjectRow>, o: Id, row: ObjectRow)
    requires o !in objects
    ensures ShasOf(objects[o := row]) == ShasOf(objects) + {row.identity.sha}
  {
    var more := objects[o := row];
    forall sha: string
      ensures sha in ShasOf(more) <==> sha in ShasOf(objects) + {row.identity.sha}
    {
      if sha in ShasOf(objects) {
        var p :| p in objects && objects[p].identity.sha == sha;
        assert more[p] == objects[p];
      }
      assert more[o] == row;
    }
  }

  function LeftoversOf(vs: seq<Verdict>): nat {
    if vs == [] then 0 else LeftoversOf(vs[..|vs| - 1]) + Leftover(vs[|vs| - 1])
  }

  lemma {:induction false} SpentWithinPlan(files: seq<PlannedFile>, vs: seq<Verdict>)
    requires |vs| <= |files| && forall k | 0 <= k < |vs| :: Fits(files[k], vs[k]) && Within(files[k], vs[k])
    ensures TalliesOf(vs).bytes + LeftoversOf(vs) <= CopyBytes(files[..|vs|])
  {
    if vs != [] {
      SpentWithinPlan(files, vs[..|vs| - 1]);
      NextPrefix(files, |vs| - 1);
    }
  }

  /** Each verdict is one that the action can come to, and a copy is of no more than the planned size. */
  ghost predicate AllFit(files: seq<PlannedFile>, vs: seq<Verdict>) {
    |vs| <= |files| && forall k | 0 <= k < |vs| :: Fits(files[k], vs[k]) && (vs[k].Copied? ==> vs[k].bytes <= files[k].size)
  }

  lemma AllFitNext(files: seq<PlannedFile>, vs: seq<Verdict>, verdict: Verdict)
    requires AllFit(files, vs) && |vs| < |files| && Fits(files[|vs|], verdict)
    requires verdict.Copied? ==> verdict.bytes <= files[|vs|].size
    ensures AllFit(files, vs + [verdict])
    ensures LeftoversOf(vs + [verdict]) == LeftoversOf(vs) + Leftover(verdict)
  {
    assert (vs + [verdict])[..|vs|] == vs;
  }

  /** The source delivered no more than was planned, and a copy is of the planned size. */
  predicate Within(f: PlannedFile, v: Verdict) {
    Leftover(v) <= f.size && (v.Copied? ==> v.bytes <= f.size)
  }

  /** All that is known between two files of a run. */
  ghost predicate Underway(start: World, w: World, job: string, files: seq<PlannedFile>, vs: seq<Verdict>) {
    forall u: Unit :: UnderwayFacts(start, w, job, files, vs, u)
  }

  ghost predicate UnderwayFacts(start: World, w: World, job: string, files: seq<PlannedFile>, vs: seq<Verdict>, u: Unit) {
    && |vs| <= |files|
    && Quiescent(w.db) && w.db.jobs == start.db.jobs
    && OnRecord(w.db, job, files, vs) && StillFresh(w, job, files, |vs|)
    && TotalsGrow(start.db, w.db, TalliesOf(vs)) && TalliesOf(vs).bytes <= CopyBytes(files[..|vs|])
    && CopiesOnly(start.db, w.db, files, vs) && Stocked(start.db, w.db, files, vs)
    && AllFit(files, vs) && PartialBytes(w.disk) <= PartialBytes(start.disk) + LeftoversOf(vs)
  }

  lemma UseUnderway(start: World, w: World, job: string, files: seq<PlannedFile>, vs: seq<Verdict>)
    requires Underway(start, w, job, files, vs)
    ensures UnderwayFacts(start, w, job, files, vs, Unit)
  {
  }

  lemma UnderwayAtStart(w: World, job: string, files: seq<PlannedFile>)
    requires Quiescent(w.db) && StillFresh(w, job, files, 0)
    ensures Underway(w, w, job, files, [])
  {
    assert UnderwayFacts(w, w, job, files, [], Unit);
  }

  lemma CopiesOnlyNext(start: Manifest, before: Manifest, after: Manifest, files: seq<PlannedFile>, vs: seq<Verdict>,
                       verdict: Verdict)
    requires CopiesOnly(start, before, files, vs) && (verdict.Copied? || after.objects == before.objects)
    ensures CopiesOnly(start, after, files, vs + [verdict])
  {
    var longer := vs + [verdict];
    assert verdict in longer && forall u <- vs :: u in longer;
  }

  lemma UnderwayNext(start: World, v: World, w: World, job: string, files: seq<PlannedFile>, vs: seq<Verdict>, verdict: Verdict)
    requires Underway(start, v, job, files, vs) && |vs| < |files| && DistinctPaths(files)
    requires Grows(v, w)
    requires Quiescent(w.db) && w.db.jobs == v.db.jobs && OnlyPath(v, w, job, files[|vs|].rel)
    requires Effect(v.db, w.db, files[|vs|], verdict) && Fits(files[|vs|], verdict)
    requires PartialBytes(w.disk) <= PartialBytes(v.disk) + Leftover(verdict)
    requires BackedUp(verdict) ==> files[|vs|].identity.Some? && Recorded(w.db, job, files[|vs|].rel, files[|vs|].identity.value)
    requires verdict.Copied? && !verdict.added && files[|vs|].identity.Some? ==>
               files[|vs|].identity.value.sha in ShasOf(v.db.objects)
    ensures Underway(start, w, job, files, vs + [verdict])
  {
    UseUnderway(start, v, job, files, vs);
    AllFitNext(files, vs, verdict);
    OnRecordNext(v, w, job, files, vs, verdict);
    StillFreshNext(v, w, job, files, |vs|);
    BytesNext(start.db, v.db, w.db, files, vs, verdict);
    StockedNext(start.db, v.db, w.db, files, vs, verdict);
    CopiesOnlyNext(start.db, v.db, w.db, files, vs, verdict);
    assert UnderwayFacts(start, w, job, files, vs + [verdict], Unit);
  }

  lemma BytesNext(start: Manifest, before: Manifest, after: Manifest, files: seq<PlannedFile>, vs: seq<Verdict>, verdict: Verdict)
    requires |vs| < |files| && Effect(before, after, files[|vs|], verdict) && Fits(files[|vs|], verdict)
    requires TotalsGrow(start, before, TalliesOf(vs)) && TalliesOf(vs).bytes <= CopyBytes(files[..|vs|])
    ensures TotalsGrow(start, after, TalliesOf(vs + [verdict]))
    ensures TalliesOf(vs + [verdict]).bytes <= CopyBytes(files[..|vs| + 1])
  {
    assert (vs + [verdict])[..|vs|] == vs;
    TotalsNext(start, before, after, TalliesOf(vs), files[|vs|], verdict);
    NextPrefix(files, |vs|);
  }

  lemma VerdictFits(h: Hash, f: PlannedFile, feeds: Feeds, retries: int, shelf: set<string>)
    ensures var v := VerdictOf(h, f, feeds, retries, shelf);
            && Fits(f, v)
            && (v.Copied? && !v.added && f.identity.Some? ==> f.identity.value.sha in shelf)
  {
  }

  /** Executes the next file of a run, which began at `start`. */
  method RunNextFile(m: Machine, journal: JobManifestJournal, files: seq<PlannedFile>, ghost vs: seq<Verdict>, k: nat,
                     feeds: nat -> Feeds, retries: int, chunkBytes: int, ghost start: World)
    returns (r: Power<Verdict>)
    requires m.Valid() && journal.repo.m == m && journal.job in m.db.jobs && chunkBytes > 0
    requires |vs| == k < |files| && DistinctPaths(files) && Executable(m.hash, files[k])
    requires Underway(start, m.W(), journal.job, files, vs)
    requires vs == Verdicts(m.hash, ShasOf(start.db.objects), files, feeds, retries, k)
    modifies m
    ensures m.Valid() && old(m.trace) <= m.trace && m.db.jobs == old(m.db.jobs)
    ensures r.On? ==> Underway(start, m.W(), journal.job, files, vs + [r.value])
    ensures r.On? ==> vs + [r.value] == Verdicts(m.hash, ShasOf(start.db.objects), files, feeds, retries, k + 1)
  {
    ghost var v, sofar := m.W(), m.trace;
    assert Quiescent(m.db) && FreshPath(m.W(), journal.job, files[k].rel) by {
      UseUnderway(start, v, journal.job, files, vs);
    }
    assert ShasOf(m.db.objects) == ShasOf(start.db.objects) + Written(files, vs) by {
      UseUnderway(start, v, journal.job, files, vs);
    }
    assert |sofar| > 0 && sofar[|sofar| - 1] == v by {
      UseHistory(m.hash, m.trace, m.W());
    }
    r := RunFile(m, journal, files[k], feeds(k), retries, chunkBytes);
    if r.On? {
      VerdictsNext(m.hash, ShasOf(start.db.objects), files, feeds, retries, k);
      assert Grows(v, m.W()) by {
        m.HasGrown(sofar);
      }
      VerdictFits(m.hash, files[k], feeds(k), retries, ShasOf(v.db.objects));
      UnderwayNext(start, v, m.W(), journal.job, files, vs, r.value);
    }
  }

  /** The paths of the files that failed, in order. */
  function FailuresOf(files: seq<PlannedFile>, vs: seq<Verdict>): seq<string>
    requires |vs| <= |files|
  {
    if vs == [] then []
    else
      var k := |vs| - 1;
      FailuresOf(files, vs[..k]) + if vs[k].Failed? || vs[k].SourceFailed? then [files[k].rel] else []
  }

  /** The indices of the verdicts of one kind, in order. */
  function Picked(vs: seq<Verdict>, kind: Verdict -> bool): seq<nat> {
    if vs == [] then []
    else
      var k := |vs| - 1;
      Picked(vs[..k], kind) + if kind(vs[k]) then [k] else []
  }

  ghost predicate Rising(at: seq<nat>) {
    forall i, j | 0 <= i < j < |at| :: at[i] < at[j]
  }

  lemma {:induction false} PickedAt(vs: seq<Verdict>, kind: Verdict -> bool, i: nat)
    requires i < |Picked(vs, kind)|
    ensures Picked(vs, kind)[i] < |vs| && kind(vs[Picked(vs, kind)[i]])
    ensures i > 0 ==> Picked(vs, kind)[i - 1] < Picked(vs, kind)[i]
  {
    var k := |vs| - 1;
    var before := Picked(vs[..k], kind);
    if i < |before| {
      PickedAt(vs[..k], kind, i);
    } else if i > 0 {
      PickedAt(vs[..k], kind, i - 1);
    }
  }

  lemma {:induction false} PickedAll(vs: seq<Verdict>, kind: Verdict -> bool, k: nat)
    requires k < |vs| && kind(vs[k])
    ensures k in Picked(vs, kind)
  {
    var last := |vs| - 1;
    if k < last {
      PickedAll(vs[..last], kind, k);
      assert Picked(vs, kind) == Picked(vs[..last], kind) + if kind(vs[last]) then [last] else [];
    }
  }

  lemma {:induction false} PickedRises(vs: seq<Verdict>, kind: Verdict -> bool, i: nat, j: nat)
    requires i < j < |Picked(vs, kind)|
    ensures Picked(vs, kind)[i] < Picked(vs, kind)[j]
    decreases j
  {
    PickedAt(vs, kind, j);
    if i < j - 1 {
      PickedRises(vs, kind, i, j - 1);
    }
  }

  lemma PickedIff(vs: seq<Verdict>, kind: Verdict -> bool)
    ensures Rising(Picked(vs, kind))
    ensures forall k: nat :: k in Picked(vs, kind) <==> k < |vs| && kind(vs[k])
  {
    var at := Picked(vs, kind);
    forall i, j | 0 <= i < j < |at|
      ensures at[i] < at[j]
    {
      PickedRises(vs, kind, i, j);
    }
    forall k: nat
      ensures k in at <==> k < |vs| && kind(vs[k])
    {
      if k in at {
        var i :| 0 <= i < |at| && at[i] == k;
        PickedAt(vs, kind, i);
      }
      if k < |vs| && kind(vs[k]) {
        PickedAll(vs, kind, k);
      }
    }
  }

  lemma {:induction false} FailuresAreThose(files: seq<PlannedFile>, vs: seq<Verdict>, i: nat)
    requires |vs| <= |files|
    ensures |FailuresOf(files, vs)| == |Picked(vs, IsFailed)|
    ensures i < |Picked(vs, IsFailed)| ==>
              Picked(vs, IsFailed)[i] < |vs| && FailuresOf(files, vs)[i] == files[Picked(vs, IsFailed)[i]].rel
  {
    if vs != [] {
      FailuresAreThose(files, vs[..|vs| - 1], i);
    }
  }

  /** The failures of a result are the paths of the files that failed, those and no others, in their order. */
  lemma FailuresInOrder(files: seq<PlannedFile>, vs: seq<Verdict>) returns (at: seq<nat>)
    requires |vs| <= |files|
    ensures |at| == |FailuresOf(files, vs)| && Rising(at)
    ensures forall k: nat :: k in at <==> k < |vs| && (vs[k].Failed? || vs[k].SourceFailed?)
    ensures forall i | 0 <= i < |at| :: at[i] < |files| && FailuresOf(files, vs)[i] == files[at[i]].rel
  {
    at := Picked(vs, IsFailed);
    PickedIff(vs, IsFailed);
    FailuresAreThose(files, vs, 0);
    forall i | 0 <= i < |at|
      ensures at[i] < |files| && FailuresOf(files, vs)[i] == files[at[i]].rel
    {
      FailuresAreThose(files, vs, i);
    }
  }

  /** The progress reported for the files dealt with: none for one whose source failed. */
  function ProgressOf(files: seq<PlannedFile>, vs: seq<Verdict>): seq<Progress>
    requires |vs| <= |files|
  {
    if vs == [] then []
    else
      var k := |vs| - 1;
      var ps := ProgressOf(files, vs[..k]);
      if vs[k].SourceFailed? then ps else ps + [NextProgress(files, k, ps)]
  }

  /** What is reported once the file at `k` is dealt with, after `ps`. */
  function NextProgress(files: seq<PlannedFile>, k: nat, ps: seq<Progress>): Progress
    requires k < |files|
  {
    Progress(|ps| + 1, |files|, LastBytes(ps) + files[k].size, PlannedBytes(files), files[k].rel)
  }

  function LastBytes(ps: seq<Progress>): nat {
    if ps == [] then 0 else ps[|ps| - 1].bytesDone
  }

  /** Counts up one by one, with bytes that never fall, and with both within their totals. */
  ghost predicate Monotone(ps: seq<Progress>, total: nat, totalBytes: nat) {
    && (forall i | 0 <= i < |ps| ::
          ps[i].done == i + 1 <= ps[i].total == total && ps[i].bytesDone <= ps[i].bytesTotal == totalBytes)
    && (forall i, j | 0 <= i < j < |ps| :: ps[i].bytesDone <= ps[j].bytesDone)
  }

  lemma MonotoneNext(ps: seq<Progress>, p: Progress, total: nat, totalBytes: nat)
    requires Monotone(ps, total, totalBytes) && LastBytes(ps) <= p.bytesDone <= p.bytesTotal == totalBytes
    requires p.done == |ps| + 1 <= p.total == total
    ensures Monotone(ps + [p], total, totalBytes)
  {
  }

  lemma {:induction false} ProgressWithinBytes(files: seq<PlannedFile>, vs: seq<Verdict>)
    requires |vs| <= |files|
    ensures |ProgressOf(files, vs)| <= |vs| && LastBytes(ProgressOf(files, vs)) <= PlannedBytes(files[..|vs|])
  {
    if vs != [] {
      ProgressWithinBytes(files, vs[..|vs| - 1]);
      NextPrefix(files, |vs| - 1);
    }
  }

  lemma {:induction false} ProgressIsMonotone(files: seq<PlannedFile>, vs: seq<Verdict>)
    requires |vs| <= |files|
    ensures |ProgressOf(files, vs)| <= |vs| && Monotone(ProgressOf(files, vs), |files|, PlannedBytes(files))
  {
    ProgressWithinBytes(files, vs);
    if vs != [] {
      var k := |vs| - 1;
      ProgressIsMonotone(files, vs[..k]);
      ProgressWithinBytes(files, vs[..k]);
      ProgressNext(files, k, ProgressOf(files, vs[..k]));
    }
  }

  lemma ProgressNext(files: seq<PlannedFile>, k: nat, ps: seq<Progress>)
    requires k < |files| && Monotone(ps, |files|, PlannedBytes(files))
    requires |ps| <= k && LastBytes(ps) <= PlannedBytes(files[..k])
    ensures Monotone(ps + [NextProgress(files, k, ps)], |files|, PlannedBytes(files))
  {
    var p := NextProgress(files, k, ps);
    assert p.bytesDone <= p.bytesTotal by {
      NextPrefix(files, k);
      PrefixBytes(files, k + 1);
    }
    MonotoneNext(ps, p, |files|, PlannedBytes(files));
  }

  /** The bytes of a list of files are those of its parts, and those of one file are its size. */
  lemma {:induction false} PlannedBytesAddUp(files: seq<PlannedFile>, more: seq<PlannedFile>)
    ensures PlannedBytes(files + more) == PlannedBytes(files) + PlannedBytes(more)
    ensures |more| == 1 ==> PlannedBytes(more) == more[0].size
    decreases |more|
  {
    if more == [] {
      assert files + more == files;
    } else {
      PlannedBytesAddUp(files, more[..|more| - 1]);
      assert (files + more)[..|files + more| - 1] == files + more[..|more| - 1];
    }
  }

  predicate IsReported(v: Verdict) { !v.SourceFailed? }

  /** The files whose verdicts are of one kind, in order. */
  function FilesPicked(files: seq<PlannedFile>, vs: seq<Verdict>, kind: Verdict -> bool): seq<PlannedFile>
    requires |vs| <= |files|
  {
    if vs == [] then []
    else
      var k := |vs| - 1;
      FilesPicked(files, vs[..k], kind) + if kind(vs[k]) then [files[k]] else []
  }

  lemma {:induction false} FilesPickedAt(files: seq<PlannedFile>, vs: seq<Verdict>, kind: Verdict -> bool, i: nat)
    requires |vs| <= |files|
    ensures |FilesPicked(files, vs, kind)| == |Picked(vs, kind)|
    ensures i < |Picked(vs, kind)| ==>
              Picked(vs, kind)[i] < |vs| && FilesPicked(files, vs, kind)[i] == files[Picked(vs, kind)[i]]
  {
    if vs != [] {
      FilesPickedAt(files, vs[..|vs| - 1], kind, i);
    }
  }

  lemma {:induction false} ReportedAreThose(files: seq<PlannedFile>, vs: seq<Verdict>, i: nat)
    requires |vs| <= |files|
    ensures var ps, reported := ProgressOf(files, vs), FilesPicked(files, vs, IsReported);
            && |ps| == |reported| && LastBytes(ps) == PlannedBytes(reported)
            && (i < |ps| ==>
                  ps[i] == Progress(i + 1, |files|, PlannedBytes(reported[..i + 1]), PlannedBytes(files), reported[i].rel))
  {
    if vs != [] {
      var k := |vs| - 1;
      var before := FilesPicked(files, vs[..k], IsReported);
      ReportedAreThose(files, vs[..k], i);
      if vs[k].SourceFailed? {
        assert ProgressOf(files, vs) == ProgressOf(files, vs[..k]) && FilesPicked(files, vs, IsReported) == before;
      } else {
        assert FilesPicked(files, vs, IsReported) == before + [files[k]];
        ReportedNext(files, k, ProgressOf(files, vs[..k]), before, i);
      }
    }
  }

  lemma ReportedNext(files: seq<PlannedFile>, k: nat, ps: seq<Progress>, before: seq<PlannedFile>, i: nat)
    requires k < |files| && |ps| == |before| && LastBytes(ps) == PlannedBytes(before)
    requires i < |ps| ==>
               ps[i] == Progress(i + 1, |files|, PlannedBytes(before[..i + 1]), PlannedBytes(files), before[i].rel)
    ensures var longer, reported := ps + [NextProgress(files, k, ps)], before + [files[k]];
            && LastBytes(longer) == PlannedBytes(reported)
            && (i < |longer| ==>
                  longer[i] == Progress(i + 1, |files|, PlannedBytes(reported[..i + 1]), PlannedBytes(files), reported[i].rel))
  {
    var reported := before + [files[k]];
    assert reported[..|reported| - 1] == before;
    if i < |before| {
      assert reported[..i + 1] == before[..i + 1];
    } else if i == |before| {
      assert reported[..i + 1] == reported;
    }
  }

  /**
   What is reported: once for each file that its source did not fail, in order, with the number
   and the bytes of such files so far out of all that are planned.
   */
  lemma ProgressTells(files: seq<PlannedFile>, vs: seq<Verdict>) returns (at: seq<nat>, reported: seq<PlannedFile>)
    requires |vs| <= |files|
    ensures |at| == |reported| == |ProgressOf(files, vs)| && Rising(at)
    ensures forall k: nat :: k in at <==> k < |vs| && !vs[k].SourceFailed?
    ensures forall i | 0 <= i < |at| :: at[i] < |files| && reported[i] == files[at[i]]
    ensures forall i | 0 <= i < |at| ::
              ProgressOf(files, vs)[i]
              == Progress(i + 1, |files|, PlannedBytes(reported[..i + 1]), PlannedBytes(files), reported[i].rel)
  {
    at, reported := Picked(vs, IsReported), FilesPicked(files, vs, IsReported);
    PickedIff(vs, IsReported);
    FilesPickedAt(files, vs, IsReported, 0);
    ReportedAreThose(files, vs, 0);
    forall i | 0 <= i < |at|
      ensures at[i] < |files| && reported[i] == files[at[i]]
      ensures ProgressOf(files, vs)[i]
              == Progress(i + 1, |files|, PlannedBytes(reported[..i + 1]), PlannedBytes(files), reported[i].rel)
    {
      FilesPickedAt(files, vs, IsReported, i);
      ReportedAreThose(files, vs, i);
    }
  }

  /** A run that is never cut short by a failing source reports every file. */
  lemma {:induction false} ProgressIsComplete(files: seq<PlannedFile>, vs: seq<Verdict>)
    requires |vs| <= |files| && forall v <- vs :: !v.SourceFailed?
    ensures |ProgressOf(files, vs)| == |vs| && LastBytes(ProgressOf(files, vs)) == PlannedBytes(files[..|vs|])
    ensures forall i | 0 <= i < |vs| :: ProgressOf(files, vs)[i].rel == files[i].rel
  {
    if vs != [] {
      ProgressIsComplete(files, vs[..|vs| - 1]);
      NextPrefix(files, |vs| - 1);
    }
  }

  /** The result of a run whose files came to `vs`, all of them unless it was cancelled. */
  function ResultOf(plan: Plan, vs: seq<Verdict>): JobRunResult
    requires |vs| <= |plan.files|
  {
    var t := TalliesOf(vs);
    JobRunResult(OutcomeOf(|vs| < |plan.files|, t.failed, plan.unsupportedCount),
                 t.verified, t.copied, t.skipped, t.failed, t.bytes, FailuresOf(plan.files, vs))
  }

  /** The variables of the loop over the files. */
  datatype Tally = Tally(
    verified: nat, copied: nat, skipped: nat, failed: nat, bytes: nat, done: nat, bytesDone: nat, failures: seq<string>)

  /** The variables, and the progress reported, agree with what became of the files. */
  ghost predicate Agrees(files: seq<PlannedFile>, vs: seq<Verdict>, c: Tally, ps: seq<Progress>)
    requires |vs| <= |files|
  {
    forall u: Unit :: AgreesFacts(files, vs, c, ps, u)
  }

  ghost predicate AgreesFacts(files: seq<PlannedFile>, vs: seq<Verdict>, c: Tally, ps: seq<Progress>, u: Unit)
    requires |vs| <= |files|
  {
    var t := TalliesOf(vs);
    && (c.verified, c.copied, c.skipped, c.failed, c.bytes) == (t.verified, t.copied, t.skipped, t.failed, t.bytes)
    && c.failures == FailuresOf(files, vs) && ps == ProgressOf(files, vs)
    && c.done == |ps| && c.bytesDone == LastBytes(ps)
  }

  /** Counts one more file. */
  method Count(files: seq<PlannedFile>, k: nat, v: Verdict, c: Tally, ps: seq<Progress>, totalBytes: nat, ghost vs: seq<Verdict>)
    returns (d: Tally, qs: seq<Progress>)
    requires k == |vs| < |files| && Agrees(files, vs, c, ps) && totalBytes == PlannedBytes(files)
    ensures Agrees(files, vs + [v], d, qs)
  {
    assert AgreesFacts(files, vs, c, ps, Unit);
    assert (vs + [v])[..|vs|] == vs;
    d, qs := c, ps;
    match v {
      case Copied(_, bytes) => d := d.(verified := d.verified + 1, copied := d.copied + 1, bytes := d.bytes + bytes);
      case LinkedExisting => d := d.(verified := d.verified + 1, skipped := d.skipped + 1);
      case LinkedSameJob => d := d.(verified := d.verified + 1);
      case Unsupported =>
      case Failed => d := d.(failed := d.failed + 1, failures := d.failures + [files[k].rel]);
      case SourceFailed(_) => d := d.(failed := d.failed + 1, failures := d.failures + [files[k].rel]);
    }
    if !v.SourceFailed? {
      d := d.(done := d.done + 1, bytesDone := d.bytesDone + files[k].size);
      qs := qs + [Progress(d.done, |files|, d.bytesDone, totalBytes, files[k].rel)];
    }
    assert AgreesFacts(files, vs + [v], d, qs, Unit);
  }

  method TotalBytes(files: seq<PlannedFile>) returns (n: nat)
    ensures n == PlannedBytes(files)
  {
    n := 0;
    for k := 0 to |files|
      invariant n == PlannedBytes(files[..k])
    {
      NextPrefix(files, k);
      n := n + files[k].size;
    }
    assert files[..|files|] == files;
  }

  /** The loop over the files of a plan, which ends where the token is found set; true if it was. */
  method RunFiles(m: Machine, journal: JobManifestJournal, files: seq<PlannedFile>, feeds: nat -> Feeds, cancelled: nat -> bool,
                  retries: int, chunkBytes: int)
    returns (r: Power<(bool, Tally)>, progress: seq<Progress>, ghost vs: seq<Verdict>)
    requires m.Valid() && journal.repo.m == m && journal.job in m.db.jobs && chunkBytes > 0
    requires Quiescent(m.db) && DistinctPaths(files) && StillFresh(m.W(), journal.job, files, 0)
    requires forall f <- files :: Executable(m.hash, f)
    modifies m
    ensures m.Valid() && old(m.trace) <= m.trace && m.db.jobs == old(m.db.jobs)
    ensures r.On? ==>
              && vs == Verdicts(m.hash, ShasOf(old(m.db.objects)), files, feeds, retries, FirstCancelled(cancelled, |files|))
              && (r.value.0 <==> |vs| < |files|) && Agrees(files, vs, r.value.1, progress)
              && Underway(old(m.W()), m.W(), journal.job, files, vs)
  {
    ghost var start, stop := m.W(), FirstCancelled(cancelled, |files|);
    UnderwayAtStart(start, journal.job, files);
    vs, progress := [], [];
    var totalBytes := TotalBytes(files);
    var c := Tally(0, 0, 0, 0, 0, 0, 0, []);
    assert AgreesFacts(files, [], c, [], Unit);
    var stopped := false;
    var k := 0;
    while k < |files| && !stopped
      invariant 0 <= k == |vs| <= |files| && journal.job in m.db.jobs
      invariant m.Valid() && old(m.trace) <= m.trace && m.db.jobs == start.db.jobs
      invariant Underway(start, m.W(), journal.job, files, vs)
      invariant Agrees(files, vs, c, progress)
      invariant vs == Verdicts(m.hash, ShasOf(start.db.objects), files, feeds, retries, k)
      invariant k <= stop && (stopped ==> k == stop < |files|)
      decreases |files| - k, !stopped
    {
      if cancelled(k) {
        stopped := true;
      } else {
        var step := RunNextFile(m, journal, files, vs, k, feeds, retries, chunkBytes, start);
        if step.Cut? {
          return Cut, progress, vs;
        }
        c, progress := Count(files, k, step.value, c, progress, totalBytes, vs);
        vs := vs + [step.value];
        k := k + 1;
      }
    }
    return On((stopped, c)), progress, vs;
  }

  /**
   Executes a plan. `cancelled` is what the token shows before each file, `feeds` what the source
   holds in store for each, and `vs` records what became of them, as these and the store settle
   it. A blocked plan never runs.
   */
  method RunJob(m: Machine, journal: JobManifestJournal, plan: Plan, feeds: nat -> Feeds, cancelled: nat -> bool,
                retries: int, chunkBytes: int)
    returns (r: Power<RunEnd>, progress: seq<Progress>, ghost vs: seq<Verdict>)
    requires m.Valid() && journal.repo.m == m && journal.job in m.db.jobs && chunkBytes > 0
    requires Quiescent(m.db) && DistinctPaths(plan.files) && StillFresh(m.W(), journal.job, plan.files, 0)
    requires forall f <- plan.files :: Executable(m.hash, f)
    modifies m
    ensures m.Valid() && old(m.trace) <= m.trace && m.db.jobs == old(m.db.jobs)
    ensures plan.blocked ==> r == On(RaisedBlockedPlan) && m.W() == old(m.W())
    ensures r.On? && !plan.blocked ==>
              && vs == Verdicts(m.hash, ShasOf(old(m.db.objects)), plan.files, feeds, retries, FirstCancelled(cancelled, |plan.files|))
              && r.value == Finished(ResultOf(plan, vs)) && progress == ProgressOf(plan.files, vs)
              && Underway(old(m.W()), m.W(), journal.job, plan.files, vs)
  {
    ghost var start := m.W();
    if plan.blocked {
      return On(RaisedBlockedPlan), [], [];
    }
    var ran;
    ran, progress, vs := RunFiles(m, journal, plan.files, feeds, cancelled, retries, chunkBytes);
    if ran.Cut? {
      return Cut, progress, vs;
    }
    var (stopped, c) := ran.value;
    assert AgreesFacts(plan.files, vs, c, progress, Unit);
    var outcome :=
      if stopped then CANCELLED
      else if c.failed > 0 then FAILED
      else if plan.unsupportedCount > 0 then COMPLETED_WITH_WARNINGS
      else COMPLETED;
    return On(Finished(JobRunResult(outcome, c.verified, c.copied, c.skipped, c.failed, c.bytes, c.failures))), progress, vs;
  }

  /** The copied files are those that read copied, one by one: those whose bytes count, each once. */
  lemma {:induction false} BytesAreOfTheAdded(vs: seq<Verdict>, more: seq<Verdict>)
    ensures TalliesOf(vs + more).bytes == TalliesOf(vs).bytes + TalliesOf(more).bytes
    ensures |more| == 1 ==> TalliesOf(more).bytes == if more[0].Copied? then more[0].bytes else 0
    decreases |more|
  {
    if more == [] {
      assert vs + more == vs;
    } else {
      BytesAreOfTheAdded(vs, more[..|more| - 1]);
      assert (vs + more)[..|vs + more| - 1] == vs + more[..|more| - 1];
    }
  }

  /** A run reads completed exactly when every file it was given was verified, or set aside as unsupported. */
  lemma CompletedIffAllVerified(plan: Plan, vs: seq<Verdict>)
    requires |vs| <= |plan.files| && plan.unsupportedCount == CountOf(plan.files, SKIP_UNSUPPORTED)
    requires forall k | 0 <= k < |vs| :: Fits(plan.files[k], vs[k])
    ensures ResultOf(plan, vs).outcome.COMPLETED? <==> |vs| == |plan.files| && forall v <- vs :: BackedUp(v)
    ensures ResultOf(plan, vs).outcome.COMPLETED? || ResultOf(plan, vs).outcome.COMPLETED_WITH_WARNINGS?
            <==> |vs| == |plan.files| && forall v <- vs :: BackedUp(v) || v.Unsupported?
    ensures ResultOf(plan, vs).outcome.CANCELLED? <==> |vs| < |plan.files|
    ensures ResultOf(plan, vs).outcome.FAILED?
            <==> |vs| == |plan.files| && exists v <- vs :: v.Failed? || v.SourceFailed?
  {
    TalliesAddUp(vs);
    TalliesTell(vs);
    if |vs| == |plan.files| {
      UnsupportedAgrees(plan.files, vs);
      assert plan.files[..|vs|] == plan.files;
    }
  }

  lemma {:induction false} UnsupportedAgrees(files: seq<PlannedFile>, vs: seq<Verdict>)
    requires |vs| <= |files| && forall k | 0 <= k < |vs| :: Fits(files[k], vs[k])
    ensures CountOf(files[..|vs|], SKIP_UNSUPPORTED) == TalliesOf(vs).unsupported
  {
    if vs != [] {
      var k := |vs| - 1;
      UnsupportedAgrees(files, vs[..k]);
      assert files[..|vs|][..k] == files[..k];
    }
  }
}
