/** What a whole job does to the destination, and what its outcome says of it. */
module Jobs {
  import opened Wrappers
  import opened Identity
  import opened FileSystem
  import opened Manifest
  import opened Protocol
  import opened Runs
  import opened Repository
  import opened Copier
  import opened Sorting
  import opened Capacity
  import opened Planner
  import opened Preflight
  import opened Totals
  import opened Runner

  /** The file is copied or linked, and not set aside. */
  predicate Saved(f: PlannedFile) {
    f.identity.Some?
    && (f.action.COPY_VERIFY_OBJECT_AND_LINK? || f.action.LINK_EXISTING_VERIFIED_OBJECT? || f.action.LINK_NEW_OBJECT_SAME_JOB?)
  }

  /** What a plan is to save under each path. */
  function WantedOf(files: seq<PlannedFile>): map<string, ContentIdentity> {
    if files == [] then map[]
    else
      var front, f := WantedOf(files[..|files| - 1]), files[|files| - 1];
      if Saved(f) then front[f.rel := f.identity.value] else front
  }

  lemma LastIsNotWanted(front: seq<PlannedFile>, last: PlannedFile)
    requires DistinctPaths(front + [last])
    ensures DistinctPaths(front) && last.rel !in WantedOf(front)
  {
    var files := front + [last];
    assert files[..|front|] == front;
    forall i, j | 0 <= i < j < |front|
      ensures front[i].rel != front[j].rel
    {
      assert files[i].rel != files[j].rel;
    }
    WantedIsSaved(front);
    forall f <- front
      ensures f.rel != last.rel
    {
      var i :| 0 <= i < |front| && front[i] == f;
      assert files[i] == f && files[|front|] == last;
    }
  }

  /** There is one path to be saved for each saved file. */
  lemma {:induction false} WantedCounts(files: seq<PlannedFile>)
    requires DistinctPaths(files)
    ensures |WantedOf(files)| == |SavedAt(files, |files|)|
  {
    if files != [] {
      var front, last := files[..|files| - 1], files[|files| - 1];
      assert files == front + [last];
      LastIsNotWanted(front, last);
      WantedCounts(front);
      SavedAtNext(files, |front|);
      assert SavedAt(files, |front|) == SavedAt(front, |front|);
      if Saved(last) {
        OneMoreKey(WantedOf(front), last.rel, last.identity.value);
      }
    }
  }

  lemma OneMoreKey(m: map<string, ContentIdentity>, k: string, v: ContentIdentity)
    requires k !in m
    ensures |m[k := v]| == |m| + 1
  {
    assert m[k := v].Keys == m.Keys + {k};
    assert |m[k := v]| == |m[k := v].Keys| && |m| == |m.Keys|;
  }

  /** The indices below `n` of the saved files. */
  function SavedAt(files: seq<PlannedFile>, n: nat): set<nat>
    requires n <= |files|
  {
    set k: nat | k < n && Saved(files[k])
  }

  lemma SavedAtNext(files: seq<PlannedFile>, n: nat)
    requires n < |files|
    ensures |SavedAt(files, n + 1)| == |SavedAt(files, n)| + if Saved(files[n]) then 1 else 0
  {
    var more := if Saved(files[n]) then {n} else {};
    assert SavedAt(files, n + 1) == SavedAt(files, n) + more;
  }

  /** `wanted` maps the paths of the saved files to their contents. */
  ghost predicate MapsSaved(files: seq<PlannedFile>, wanted: map<string, ContentIdentity>) {
    && (forall rel <- wanted :: exists f <- files :: Saved(f) && f.rel == rel && f.identity.value == wanted[rel])
    && (forall f <- files | Saved(f) :: f.rel in wanted && wanted[f.rel] == f.identity.value)
  }

  lemma MapsOneMore(front: seq<PlannedFile>, last: PlannedFile, wanted: map<string, ContentIdentity>)
    requires MapsSaved(front, wanted) && forall f <- front :: f.rel != last.rel
    ensures MapsSaved(front + [last], if Saved(last) then wanted[last.rel := last.identity.value] else wanted)
  {
    var files, more := front + [last], if Saved(last) then wanted[last.rel := last.identity.value] else wanted;
    assert last in files && forall f <- front :: f in files;
    forall rel <- more
      ensures exists f <- files :: Saved(f) && f.rel == rel && f.identity.value == more[rel]
    {
      if rel in wanted && rel != last.rel {
        var f :| f in front && Saved(f) && f.rel == rel && f.identity.value == wanted[rel];
        assert f in files;
      }
    }
  }

  lemma {:induction false} WantedIsSaved(files: seq<PlannedFile>)
    requires DistinctPaths(files)
    ensures MapsSaved(files, WantedOf(files))
  {
    if files != [] {
      var front, last := files[..|files| - 1], files[|files| - 1];
      WantedIsSaved(front);
      forall f <- front
        ensures f.rel != last.rel
      {
        var i :| 0 <= i < |front| && front[i] == f;
        assert files[i] == f;
      }
      MapsOneMore(front, last, WantedOf(front));
      assert files == front + [last];
    }
  }

  /** The scan has these contents, and no other, to be saved. */
  ghost predicate IsWanted(inputs: seq<ClassificationInput>, wanted: map<string, ContentIdentity>) {
    && (forall i <- inputs | SavedInput(i) :: i.rel in wanted && wanted[i.rel] == i.identity.value)
    && (forall rel <- wanted ::
          exists i <- inputs :: i.rel == rel && SavedInput(i) && i.identity.value == wanted[rel])
  }

  /** There is only one such map. */
  lemma WantedIsUnique(inputs: seq<ClassificationInput>, a: map<string, ContentIdentity>, b: map<string, ContentIdentity>)
    requires IsWanted(inputs, a) && IsWanted(inputs, b)
    ensures a == b
  {
  }

  /** `f` is what the plan makes of the input `i`. */
  predicate Plans(db: Manifest, i: ClassificationInput, f: PlannedFile) {
    && f.rel == i.rel && f.identity == i.identity && f.classification == ClassOf(db, i) && Acts(f)
    && (f.identity.Some? ==> f.size == f.identity.value.size)
  }

  /** The action agrees with the classification. */
  predicate Acts(f: PlannedFile) {
    match f.classification
    case UNREADABLE => f.action.BLOCK_UNREADABLE?
    case POTENTIAL_CONFLICT => f.action.BLOCK_CONFLICT?
    case ALREADY_BACKED_UP => f.action.LINK_EXISTING_VERIFIED_OBJECT?
    case UNSUPPORTED => f.action.SKIP_UNSUPPORTED?
    case NEW => f.action.COPY_VERIFY_OBJECT_AND_LINK? || f.action.LINK_NEW_OBJECT_SAME_JOB?
  }

  lemma PlannedPlans(db: Manifest, inputs: seq<ClassificationInput>, sorted: seq<ClassifiedFile>, j: nat, k: nat)
    requires j < |inputs| && k < |sorted| && sorted[k] == Classified(db, inputs)[j]
    ensures Plans(db, inputs[j], PlannedAt(sorted, k))
  {
  }

  /** Every file of a plan is for an input of the scan. */
  lemma PlanHasInput(db: Manifest, inputs: seq<ClassificationInput>, files: seq<PlannedFile>, f: PlannedFile)
    returns (i: ClassificationInput)
    requires files == PlannedFiles(SortBy(PathOf, Classified(db, inputs))) && f in files
    ensures i in inputs && Plans(db, i, f)
  {
    var items := Classified(db, inputs);
    var sorted := SortBy(PathOf, items);
    SortSorts(PathOf, items);
    SameElements(sorted, items);
    var k :| 0 <= k < |files| && files[k] == f;
    assert sorted[k] in items;
    var j :| 0 <= j < |items| && items[j] == sorted[k];
    PlannedPlans(db, inputs, sorted, j, k);
    i := inputs[j];
  }

  /** Every input of the scan has a file in the plan. */
  lemma InputHasPlan(db: Manifest, inputs: seq<ClassificationInput>, files: seq<PlannedFile>, i: ClassificationInput)
    returns (f: PlannedFile)
    requires files == PlannedFiles(SortBy(PathOf, Classified(db, inputs))) && i in inputs
    ensures f in files && Plans(db, i, f)
  {
    var items := Classified(db, inputs);
    var sorted := SortBy(PathOf, items);
    SortSorts(PathOf, items);
    SameElements(sorted, items);
    var j :| 0 <= j < |inputs| && inputs[j] == i;
    assert items[j] in sorted;
    var k :| 0 <= k < |sorted| && sorted[k] == items[j];
    PlannedPlans(db, inputs, sorted, j, k);
    f := files[k];
  }

  lemma PlanHasDistinctPaths(db: Manifest, inputs: seq<ClassificationInput>, files: seq<PlannedFile>)
    requires DistinctBy(InputPath, inputs) && files == PlannedFiles(SortBy(PathOf, Classified(db, inputs)))
    ensures DistinctPaths(files)
  {
    var items := Classified(db, inputs);
    var sorted := SortBy(PathOf, items);
    ClassifiedIsWell(db, inputs);
    SortSorts(PathOf, items);
    DistinctIsInvariant(PathOf, items, sorted);
    forall i, j | 0 <= i < j < |files|
      ensures files[i].rel != files[j].rel
    {
      assert PathOf(sorted[i]) != PathOf(sorted[j]);
    }
  }

  lemma SupportedIsSaved(db: Manifest, i: ClassificationInput, f: PlannedFile)
    requires Plans(db, i, f) && !Blocks(f)
    ensures Saved(f) <==> SavedInput(i)
  {
  }

  /** A plan that is not blocked saves all the content of the scan, and nothing else. */
  lemma PlanSavesTheScan(db: Manifest, inputs: seq<ClassificationInput>, p: Plan)
    requires DistinctBy(InputPath, inputs) && IsPlan(Classified(db, inputs), p) && !p.blocked
    ensures DistinctPaths(p.files) && IsWanted(inputs, WantedOf(p.files))
  {
    var wanted := WantedOf(p.files);
    PlanHasDistinctPaths(db, inputs, p.files);
    WantedIsSaved(p.files);
    assert forall f <- p.files :: !Blocks(f);
    forall i <- inputs | SavedInput(i)
      ensures i.rel in wanted && wanted[i.rel] == i.identity.value
    {
      var f := InputHasPlan(db, inputs, p.files, i);
      SupportedIsSaved(db, i, f);
    }
    forall rel <- wanted
      ensures exists i <- inputs :: i.rel == rel && SavedInput(i) && i.identity.value == wanted[rel]
    {
      var f :| f in p.files && Saved(f) && f.rel == rel && f.identity.value == wanted[rel];
      var i := PlanHasInput(db, inputs, p.files, f);
      SupportedIsSaved(db, i, f);
    }
  }

  /** From `v` to `w` a job has dealt with the first files of its plan, which came to `vs`. */
  ghost predicate JobRan(v: World, w: World, job: string, plan: Plan, vs: seq<Verdict>) {
    forall u: Unit :: JobRanFacts(v, w, job, plan, vs, u)
  }

  ghost predicate JobRanFacts(v: World, w: World, job: string, plan: Plan, vs: seq<Verdict>, u: Unit) {
    && |vs| <= |plan.files| && Quiescent(w.db)
    && OnRecord(w.db, job, plan.files, vs)
    && TotalsGrow(v.db, w.db, TalliesOf(vs)) && TalliesOf(vs).bytes <= CopyBytes(plan.files[..|vs|])
    && CopiesOnly(v.db, w.db, plan.files, vs) && Stocked(v.db, w.db, plan.files, vs)
    && AllFit(plan.files, vs) && PartialBytes(w.disk) <= PartialBytes(v.disk) + LeftoversOf(vs)
  }

  lemma UseJobRan(v: World, w: World, job: string, plan: Plan, vs: seq<Verdict>)
    requires JobRan(v, w, job, plan, vs)
    ensures JobRanFacts(v, w, job, plan, vs, Unit)
  {
  }

  /** The job table plays no part in it. */
  lemma UnderwayHasRan(v: World, start: World, end: World, w: World, job: string, plan: Plan, vs: seq<Verdict>)
    requires Underway(start, end, job, plan.files, vs)
    requires start.db.objects == v.db.objects && w.db.objects == end.db.objects && w.db.entries == end.db.entries
    requires start.disk == v.disk && w.disk == end.disk
    ensures JobRan(v, w, job, plan, vs)
  {
    UseUnderway(start, end, job, plan.files, vs);
    SameGrowth(v.db, start.db, end.db, w.db, plan.files, vs);
    SameRecords(end.db, w.db, job, plan.files, vs);
    assert JobRanFacts(v, w, job, plan, vs, Unit);
  }

  lemma SameGrowth(v: Manifest, start: Manifest, end: Manifest, w: Manifest, files: seq<PlannedFile>, vs: seq<Verdict>)
    requires start.objects == v.objects && w.objects == end.objects && TotalsGrow(start, end, TalliesOf(vs))
    requires CopiesOnly(start, end, files, vs) && Stocked(start, end, files, vs)
    ensures TotalsGrow(v, w, TalliesOf(vs)) && CopiesOnly(v, w, files, vs) && Stocked(v, w, files, vs)
  {
    SameTotals(v, start);
    SameTotals(end, w);
  }

  lemma SameRecords(before: Manifest, after: Manifest, job: string, files: seq<PlannedFile>, vs: seq<Verdict>)
    requires OnRecord(before, job, files, vs) && after.objects == before.objects && after.entries == before.entries
    ensures OnRecord(after, job, files, vs)
  {
  }

  /** A job whose outcome is completed has recorded everything it was to save. */
  lemma CompletedHasAllRecorded(v: World, w: World, job: string, plan: Plan, vs: seq<Verdict>)
    requires JobRan(v, w, job, plan, vs) && DistinctPaths(plan.files)
    requires plan.unsupportedCount == CountOf(plan.files, SKIP_UNSUPPORTED)
    requires |vs| <= |plan.files|
    requires ResultOf(plan, vs).outcome.COMPLETED? || ResultOf(plan, vs).outcome.COMPLETED_WITH_WARNINGS?
    ensures AllRecorded(w.db, job, WantedOf(plan.files))
  {
    UseJobRan(v, w, job, plan, vs);
    assert |vs| == |plan.files| && forall u <- vs :: BackedUp(u) || u.Unsupported? by {
      CompletedIffAllVerified(plan, vs);
    }
    WantedIsSaved(plan.files);
    var wanted := WantedOf(plan.files);
    forall rel <- wanted
      ensures Recorded(w.db, job, rel, wanted[rel])
    {
      var f :| f in plan.files && Saved(f) && f.rel == rel && f.identity.value == wanted[rel];
      SavedIsRecorded(w.db, job, plan.files, vs, f);
    }
  }

  lemma SavedIsRecorded(db: Manifest, job: string, files: seq<PlannedFile>, vs: seq<Verdict>, f: PlannedFile)
    requires |vs| == |files| && OnRecord(db, job, files, vs) && forall k | 0 <= k < |vs| :: Fits(files[k], vs[k])
    requires forall u <- vs :: BackedUp(u) || u.Unsupported?
    requires f in files && Saved(f)
    ensures Recorded(db, job, f.rel, f.identity.value)
  {
    var k :| 0 <= k < |files| && files[k] == f;
    assert vs[k] in vs && Fits(f, vs[k]);
  }

  /** The bytes of the canonical files and of the partials in sight. */
  ghost function StoreBytes(d: Disk): nat {
    StoreTotals(d).1 + PartialBytes(d)
  }

  /** No read of a file to be copied that ends in an error delivers more than is planned for the file. */
  ghost predicate FailingReadsKeepToThePlan(files: seq<PlannedFile>, feeds: nat -> Feeds) {
    forall k, a: nat | 0 <= k < |files| && files[k].action.COPY_VERIFY_OBJECT_AND_LINK? && feeds(k)(a).opens && feeds(k)(a).breaks ::
      Delivered(feeds(k)(a)) <= files[k].size
  }

  lemma LeavingsWithin(h: Hash, id: ContentIdentity, feeds: Feeds, retries: int, size: nat)
    requires CopySpec(h, id, feeds, retries).RaisedOSError?
    requires forall a: nat | feeds(a).opens && feeds(a).breaks :: Delivered(feeds(a)) <= size
    ensures Leavings(h, id, feeds, retries) <= size
  {
    VerifiedMeansHashesAgree(h, id, feeds, retries);
    var k :| 0 <= k <= retries && FailsAt(h, id, feeds, k);
  }

  /** Then what a failing source leaves behind is no more than is planned either. */
  lemma LeftoversWithin(h: Hash, shelf: set<string>, files: seq<PlannedFile>, feeds: nat -> Feeds, retries: int, n: nat, k: nat)
    requires k < n <= |files| && FailingReadsKeepToThePlan(files, feeds)
    ensures Leftover(Verdicts(h, shelf, files, feeds, retries, n)[k]) <= files[k].size
  {
    var f := files[k];
    VerdictsAt(h, shelf, files, feeds, retries, n, k);
    if Verdicts(h, shelf, files, feeds, retries, n)[k].SourceFailed? {
      LeavingsWithin(h, f.identity.value, feeds(k), retries, f.size);
    }
  }

  /**
   The capacity guarantee. At every file boundary of a job that preflight let through, what it
   reports as copied is what it has added to the canonical files, and no more than preflight
   planned. If source reads that fail deliver no more than was planned for their file, then,
   partials left behind included, what was free before less what was added leaves the reserve and
   the margin.
   */
  lemma CapacityIsRespected(
      h: Hash, v: World, w: World, job: string, usage: DiskUsage, policy: Policy, r: PreflightResult,
      feeds: nat -> Feeds, retries: int, vs: seq<Verdict>)
    requires SizeDetermined(h) && Inv(h, v) && Inv(h, w) && Quiescent(v.db)
    requires r.plan.newObjectBytes == CopyBytes(r.plan.files) && r.capacity.sufficient
    requires AssessCapacity(usage.total, usage.free, r.plan.newObjectBytes, r.plan.largestNewObjectBytes, policy) == Success(r.capacity)
    requires JobRan(v, w, job, r.plan, vs) && |vs| <= |r.plan.files|
    requires vs == Verdicts(h, ShasOf(v.db.objects), r.plan.files, feeds, retries, |vs|)
    ensures StoreTotals(w.disk).1 - StoreTotals(v.disk).1 == TalliesOf(vs).bytes <= r.plan.newObjectBytes
    ensures FailingReadsKeepToThePlan(r.plan.files, feeds) ==>
              && StoreBytes(w.disk) - StoreBytes(v.disk) <= r.plan.newObjectBytes
              && usage.free - (StoreBytes(w.disk) - StoreBytes(v.disk)) >= r.capacity.reserve + r.capacity.margin
  {
    UseJobRan(v, w, job, r.plan, vs);
    TotalsAreOfTheStore(h, v);
    TotalsAreOfTheStore(h, w);
    PrefixBytes(r.plan.files, |vs|);
    if FailingReadsKeepToThePlan(r.plan.files, feeds) {
      forall k | 0 <= k < |vs|
        ensures Leftover(vs[k]) <= r.plan.files[k].size
      {
        LeftoversWithin(h, ShasOf(v.db.objects), r.plan.files, feeds, retries, |vs|, k);
      }
      SpentWithinPlan(r.plan.files, vs);
    }
    SufficientLeavesReserveAndMargin(usage.total, usage.free, r.plan.newObjectBytes, r.plan.largestNewObjectBytes, policy, r.capacity);
  }

  /** What a job has recorded is verified once nothing is pending. */
  lemma RecordedIsVerified(w: World, job: string, rel: string, id: ContentIdentity)
    requires Quiescent(w.db) && Recorded(w.db, job, rel, id)
    ensures HasVerified(w.db, id)
  {
  }

  /**
   Backup is idempotent: a job over a scan whose contents are all verified already plans no new
   object, copies nothing and fails nowhere, and leaves the object table as it was.
   */
  lemma RepeatAddsNothing(
      h: Hash, v: World, w: World, job: string, inputs: seq<ClassificationInput>, usage: DiskUsage, policy: Policy,
      r: PreflightResult, feeds: nat -> Feeds, retries: int, vs: seq<Verdict>)
    requires IsPreflight(v.db, inputs, usage, policy, r) && !r.plan.blocked
    requires forall i <- inputs | SavedInput(i) :: HasVerified(v.db, i.identity.value)
    requires JobRan(v, w, job, r.plan, vs) && |vs| <= |r.plan.files|
    requires vs == Verdicts(h, ShasOf(v.db.objects), r.plan.files, feeds, retries, |vs|)
    ensures r.plan.newObjectCount == 0 && r.plan.newObjectBytes == 0
    ensures w.db.objects == v.db.objects
    ensures forall u <- vs :: u.LinkedExisting? || u.Unsupported?
    ensures var result := ResultOf(r.plan, vs);
            && !result.outcome.FAILED? && result.copied == 0 && result.bytesCopied == 0 && result.failed == 0 && result.failures == []
            && result.skipped == result.verified == |set k: nat | k < |vs| && Saved(r.plan.files[k])|
  {
    assert CopiesOnly(v.db, w.db, r.plan.files, vs) by {
      UseJobRan(v, w, job, r.plan, vs);
    }
    NothingNewToPlan(v.db, inputs, usage, policy, r);
    forall k | 0 <= k < |vs|
      ensures if Saved(r.plan.files[k]) then vs[k].LinkedExisting? else vs[k].Unsupported?
    {
      assert r.plan.files[k] in r.plan.files && !Blocks(r.plan.files[k]);
      OldIsLinked(h, v.db, inputs, r.plan.files, feeds, retries, |vs|, k);
    }
    OnlyLinked(r.plan, vs);
  }

  /** What is reported of a job that only links. */
  lemma OnlyLinked(plan: Plan, vs: seq<Verdict>)
    requires |vs| <= |plan.files|
    requires forall k | 0 <= k < |vs| :: if Saved(plan.files[k]) then vs[k].LinkedExisting? else vs[k].Unsupported?
    ensures var result := ResultOf(plan, vs);
            && !result.outcome.FAILED?
            && result.copied == 0 && result.bytesCopied == 0 && result.failed == 0 && result.failures == []
            && result.skipped == result.verified == |set k: nat | k < |vs| && Saved(plan.files[k])|
  {
    CountersTell(plan, vs);
    var saved := set k: nat | k < |vs| && Saved(plan.files[k]);
    assert (set k: nat | k < |vs| && vs[k].Copied?) == {};
    assert (set k: nat | k < |vs| && (vs[k].Failed? || vs[k].SourceFailed?)) == {};
    assert (set k: nat | k < |vs| && vs[k].LinkedExisting?) == saved;
    assert (set k: nat | k < |vs| && (vs[k].Copied? || vs[k].LinkedExisting? || vs[k].LinkedSameJob?)) == saved;
    NothingCopied(vs);
    var at := FailuresInOrder(plan.files, vs);
    if at != [] {
      FirstIsIn(at);
    }
  }

  lemma FirstIsIn(at: seq<nat>)
    requires at != []
    ensures exists k: nat :: k in at
  {
    assert at[0] in at;
  }

  lemma {:induction false} NothingCopied(vs: seq<Verdict>)
    requires forall k | 0 <= k < |vs| :: vs[k].LinkedExisting? || vs[k].Unsupported?
    ensures TalliesOf(vs).bytes == 0
  {
    if vs != [] {
      NothingCopied(vs[..|vs| - 1]);
    }
  }

  /** A file whose content is in the store is linked to it, or set aside, whatever its source does. */
  lemma OldIsLinked(h: Hash, db: Manifest, inputs: seq<ClassificationInput>, files: seq<PlannedFile>,
                    feeds: nat -> Feeds, retries: int, n: nat, k: nat)
    requires files == PlannedFiles(SortBy(PathOf, Classified(db, inputs))) && k < n <= |files|
    requires files[k].action.LINK_EXISTING_VERIFIED_OBJECT? || files[k].action.SKIP_UNSUPPORTED?
    ensures var u := Verdicts(h, ShasOf(db.objects), files, feeds, retries, n)[k];
            if Saved(files[k]) then u.LinkedExisting? else u.Unsupported?
  {
    VerdictsAt(h, ShasOf(db.objects), files, feeds, retries, n, k);
    if files[k].action.LINK_EXISTING_VERIFIED_OBJECT? {
      var i := PlanHasInput(db, inputs, files, files[k]);
      LinkedIsShelved(db, i, files[k]);
    }
  }

  /** A file planned as a link to an object is linked to one that is there. */
  lemma LinkedIsShelved(db: Manifest, i: ClassificationInput, f: PlannedFile)
    requires Plans(db, i, f) && f.action.LINK_EXISTING_VERIFIED_OBJECT?
    ensures f.identity.Some? && f.identity.value.sha in ShasOf(db.objects)
  {
    var o :| o in db.objects && db.objects[o].identity == f.identity.value && db.objects[o].status == VerifiedObject;
  }

  lemma CopiedIsNew(db: Manifest, i: ClassificationInput, f: PlannedFile)
    requires Plans(db, i, f) && f.action.COPY_VERIFY_OBJECT_AND_LINK?
    ensures f.identity.Some? && f.identity == i.identity && f.size == f.identity.value.size && !HasVerified(db, f.identity.value)
  {
  }

  lemma UnverifiedIsNotShelved(h: Hash, v: World, id: ContentIdentity)
    requires SizeDetermined(h) && Inv(h, v) && Quiescent(v.db) && Realizable(h, id) && !HasVerified(v.db, id)
    ensures id.sha !in ShasOf(v.db.objects)
  {
    if o :| o in v.db.objects && v.db.objects[o].identity.sha == id.sha {
      UseInv(h, v);
      DigestDeterminesIdentity(h, v.db.objects[o].identity, id);
    }
  }

  /** An object that is to be copied is not in the store when the job begins. */
  lemma NewIsNotShelved(h: Hash, v: World, inputs: seq<ClassificationInput>, files: seq<PlannedFile>, f: PlannedFile)
    requires SizeDetermined(h) && Inv(h, v) && Quiescent(v.db) && AllRealizable(h, inputs)
    requires files == PlannedFiles(SortBy(PathOf, Classified(v.db, inputs))) && f in files
    requires f.action.COPY_VERIFY_OBJECT_AND_LINK?
    ensures f.identity.Some? && Realizable(h, f.identity.value) && f.size == f.identity.value.size
    ensures f.identity.value.sha !in ShasOf(v.db.objects)
  {
    var i := PlanHasInput(v.db, inputs, files, f);
    CopiedIsNew(v.db, i, f);
    UnverifiedIsNotShelved(h, v, f.identity.value);
  }

  /** Nor has an earlier file of the job put it there. */
  lemma NewIsNotWritten(h: Hash, sorted: seq<ClassifiedFile>, vs: seq<Verdict>, k: nat)
    requires SizeDetermined(h) && |vs| == k < |sorted| && AllFit(PlannedFiles(sorted), vs)
    requires forall f <- PlannedFiles(sorted) | f.action.COPY_VERIFY_OBJECT_AND_LINK? ::
               f.identity.Some? && Realizable(h, f.identity.value)
    requires ActionAt(sorted, k).COPY_VERIFY_OBJECT_AND_LINK?
    ensures sorted[k].identity.Some? && sorted[k].identity.value.sha !in Written(PlannedFiles(sorted), vs)
  {
    var files := PlannedFiles(sorted);
    assert files[k] in files;
    var sha := sorted[k].identity.value.sha;
    WrittenIff(files, vs, sha);
    if j :| 0 <= j < |vs| && vs[j].Copied? && files[j].identity.Some? && files[j].identity.value.sha == sha {
      assert files[j] in files && Fits(files[j], vs[j]);
      DigestDeterminesIdentity(h, files[j].identity.value, files[k].identity.value);
      assert IsNew(sorted[j], sorted[k].identity);
    }
  }

  /** A same-job link comes after the copy it links to. */
  lemma LinkHasCopy(sorted: seq<ClassifiedFile>, k: nat) returns (j: nat)
    requires WellClassified(sorted) && k < |sorted| && ActionAt(sorted, k).LINK_NEW_OBJECT_SAME_JOB?
    ensures j < k && ActionAt(sorted, j).COPY_VERIFY_OBJECT_AND_LINK?
    ensures sorted[j].identity == sorted[k].identity && sorted[k].identity.Some?
  {
    assert sorted[k] in sorted;
    var id := sorted[k].identity.value;
    var i :| 0 <= i < k && IsNew(sorted[i], Some(id));
    j := FirstNew(sorted, id, i);
    FirstIsCopied(sorted, id, j);
  }

  /** Every file to be copied is served by its source. */
  ghost predicate AllServed(h: Hash, files: seq<PlannedFile>, feeds: nat -> Feeds, retries: int) {
    forall k | 0 <= k < |files| && files[k].action.COPY_VERIFY_OBJECT_AND_LINK? ::
      files[k].identity.Some? && Serves(h, files[k].identity.value, feeds(k), retries)
  }

  lemma {:induction false} VerdictsFit(h: Hash, shelf: set<string>, files: seq<PlannedFile>, feeds: nat -> Feeds,
                                       retries: int, n: nat)
    requires n <= |files| && forall f <- files | f.action.COPY_VERIFY_OBJECT_AND_LINK? :: f.identity.Some? && f.size == f.identity.value.size
    ensures AllFit(files, Verdicts(h, shelf, files, feeds, retries, n))
  {
    forall k | 0 <= k < n
      ensures Fits(files[k], Verdicts(h, shelf, files, feeds, retries, n)[k])
      ensures var u := Verdicts(h, shelf, files, feeds, retries, n)[k]; u.Copied? ==> u.bytes <= files[k].size
    {
      VerdictsAt(h, shelf, files, feeds, retries, n, k);
      assert files[k] in files;
    }
  }

  /** A file to be copied is backed up exactly if its source serves it. */
  lemma CopyVerdictIff(h: Hash, v: World, inputs: seq<ClassificationInput>, files: seq<PlannedFile>,
                       feeds: nat -> Feeds, retries: int, k: nat)
    requires SizeDetermined(h) && Inv(h, v) && Quiescent(v.db) && AllRealizable(h, inputs)
    requires files == PlannedFiles(SortBy(PathOf, Classified(v.db, inputs)))
    requires k < |files| && files[k].action.COPY_VERIFY_OBJECT_AND_LINK?
    ensures files[k].identity.Some?
    ensures var u := Verdicts(h, ShasOf(v.db.objects), files, feeds, retries, |files|)[k];
            && (u.Copied? <==> Serves(h, files[k].identity.value, feeds(k), retries))
            && (u.SourceFailed? <==> Fails(h, files[k].identity.value, feeds(k), retries))
            && (u.Copied? || u.SourceFailed? || u.Failed?)
            && (u.Copied? ==> u.added && u.bytes == files[k].size)
  {
    var shelf, vs := ShasOf(v.db.objects), Verdicts(h, ShasOf(v.db.objects), files, feeds, retries, k);
    assert files[k] in files;
    CopiesAreRealizable(h, v, inputs, files);
    NewIsNotShelved(h, v, inputs, files, files[k]);
    assert files[k].identity.value.sha !in shelf + Written(files, vs) by {
      VerdictsFit(h, shelf, files, feeds, retries, k);
      NewIsNotWritten(h, SortBy(PathOf, Classified(v.db, inputs)), vs, k);
    }
    VerdictsAt(h, shelf, files, feeds, retries, |files|, k);
    NewVerdictIff(h, files[k], feeds(k), retries, shelf + Written(files, vs));
  }

  lemma NewVerdictIff(h: Hash, f: PlannedFile, feeds: Feeds, retries: int, shelf: set<string>)
    requires f.action.COPY_VERIFY_OBJECT_AND_LINK? && f.identity.Some? && f.identity.value.sha !in shelf
    ensures var u := VerdictOf(h, f, feeds, retries, shelf);
            && (u.Copied? <==> Serves(h, f.identity.value, feeds, retries))
            && (u.SourceFailed? <==> Fails(h, f.identity.value, feeds, retries))
            && (u.Copied? || u.SourceFailed? || u.Failed?)
            && (u.Copied? ==> u.added && u.bytes == f.identity.value.size)
  {
    VerifiedMeansHashesAgree(h, f.identity.value, feeds, retries);
  }

  /** A same-job link finds its object if the copy before it was served. */
  lemma ServedLinkIsThere(h: Hash, v: World, inputs: seq<ClassificationInput>, files: seq<PlannedFile>,
                          feeds: nat -> Feeds, retries: int, k: nat)
    requires SizeDetermined(h) && Inv(h, v) && Quiescent(v.db) && AllRealizable(h, inputs)
    requires files == PlannedFiles(SortBy(PathOf, Classified(v.db, inputs))) && AllServed(h, files, feeds, retries)
    requires k < |files| && files[k].action.LINK_NEW_OBJECT_SAME_JOB?
    ensures BackedUp(Verdicts(h, ShasOf(v.db.objects), files, feeds, retries, |files|)[k])
  {
    var sorted, shelf := SortBy(PathOf, Classified(v.db, inputs)), ShasOf(v.db.objects);
    SortedIsWell(v.db, inputs);
    var j := LinkHasCopy(sorted, k);
    CopyVerdictIff(h, v, inputs, files, feeds, retries, j);
    LinkFindsCopy(h, shelf, files, feeds, retries, j, k);
  }

  lemma LinkFindsCopy(h: Hash, shelf: set<string>, files: seq<PlannedFile>, feeds: nat -> Feeds, retries: int, j: nat, k: nat)
    requires j < k < |files| && Verdicts(h, shelf, files, feeds, retries, |files|)[j].Copied?
    requires files[k].action.LINK_NEW_OBJECT_SAME_JOB? && files[j].identity == files[k].identity && files[k].identity.Some?
    ensures Verdicts(h, shelf, files, feeds, retries, |files|)[k].LinkedSameJob?
  {
    var all, vs := Verdicts(h, shelf, files, feeds, retries, |files|), Verdicts(h, shelf, files, feeds, retries, k);
    VerdictsAt(h, shelf, files, feeds, retries, |files|, k);
    assert vs[j] == all[..k][j] == all[j];
    WrittenIff(files, vs, files[k].identity.value.sha);
  }

  /** A same-job link stands or falls with the copy of its content, which comes before it. */
  lemma LinkVerdictIff(h: Hash, v: World, inputs: seq<ClassificationInput>, files: seq<PlannedFile>,
                       feeds: nat -> Feeds, retries: int, k: nat) returns (j: nat)
    requires SizeDetermined(h) && Inv(h, v) && Quiescent(v.db) && AllRealizable(h, inputs)
    requires files == PlannedFiles(SortBy(PathOf, Classified(v.db, inputs)))
    requires k < |files| && files[k].action.LINK_NEW_OBJECT_SAME_JOB?
    ensures j < k && files[j].action.COPY_VERIFY_OBJECT_AND_LINK? && files[j].identity == files[k].identity && files[k].identity.Some?
    ensures Verdicts(h, ShasOf(v.db.objects), files, feeds, retries, |files|)[k]
            == if Serves(h, files[k].identity.value, feeds(j), retries) then LinkedSameJob else Failed
  {
    var sorted, shelf := SortBy(PathOf, Classified(v.db, inputs)), ShasOf(v.db.objects);
    SortedIsWell(v.db, inputs);
    j := LinkHasCopy(sorted, k);
    CopyVerdictIff(h, v, inputs, files, feeds, retries, j);
    if Serves(h, files[k].identity.value, feeds(j), retries) {
      LinkFindsCopy(h, shelf, files, feeds, retries, j, k);
    } else {
      NewIsNotShelved(h, v, inputs, files, files[j]);
      CopiesAreRealizable(h, v, inputs, files);
      LinkMissesCopy(h, shelf, sorted, feeds, retries, j, k);
    }
  }

  lemma CopiesAreRealizable(h: Hash, v: World, inputs: seq<ClassificationInput>, files: seq<PlannedFile>)
    requires SizeDetermined(h) && Inv(h, v) && Quiescent(v.db) && AllRealizable(h, inputs)
    requires files == PlannedFiles(SortBy(PathOf, Classified(v.db, inputs)))
    ensures forall f <- files | f.action.COPY_VERIFY_OBJECT_AND_LINK? ::
              f.identity.Some? && Realizable(h, f.identity.value) && f.size == f.identity.value.size
  {
    forall f <- files | f.action.COPY_VERIFY_OBJECT_AND_LINK?
      ensures f.identity.Some? && Realizable(h, f.identity.value) && f.size == f.identity.value.size
    {
      NewIsNotShelved(h, v, inputs, files, f);
    }
  }

  lemma LinkMissesCopy(h: Hash, shelf: set<string>, sorted: seq<ClassifiedFile>, feeds: nat -> Feeds, retries: int,
                       j: nat, k: nat)
    requires SizeDetermined(h) && j < k < |sorted| && ActionAt(sorted, k).LINK_NEW_OBJECT_SAME_JOB?
    requires forall f <- PlannedFiles(sorted) | f.action.COPY_VERIFY_OBJECT_AND_LINK? ::
               f.identity.Some? && Realizable(h, f.identity.value) && f.size == f.identity.value.size
    requires ActionAt(sorted, j).COPY_VERIFY_OBJECT_AND_LINK? && sorted[j].identity == sorted[k].identity && sorted[k].identity.Some?
    requires sorted[k].identity.value.sha !in shelf
    requires !Verdicts(h, shelf, PlannedFiles(sorted), feeds, retries, |sorted|)[j].Copied?
    ensures Verdicts(h, shelf, PlannedFiles(sorted), feeds, retries, |sorted|)[k].Failed?
  {
    var files := PlannedFiles(sorted);
    var all, vs := Verdicts(h, shelf, files, feeds, retries, |files|), Verdicts(h, shelf, files, feeds, retries, k);
    assert all[..k] == vs && all[k] == VerdictOf(h, files[k], feeds(k), retries, shelf + Written(files, vs)) by {
      VerdictsAt(h, shelf, files, feeds, retries, |files|, k);
    }
    assert vs[j] == all[j];
    VerdictsFit(h, shelf, files, feeds, retries, k);
    NotWrittenWithoutCopy(h, sorted, vs, j, k);
    NoObjectNoLink(h, files[k], feeds(k), retries, shelf + Written(files, vs));
  }

  lemma NoObjectNoLink(h: Hash, f: PlannedFile, feeds: Feeds, retries: int, shelf: set<string>)
    requires f.action.LINK_NEW_OBJECT_SAME_JOB? && f.identity.Some? && f.identity.value.sha !in shelf
    ensures VerdictOf(h, f, feeds, retries, shelf).Failed?
  {
  }

  lemma NotWrittenWithoutCopy(h: Hash, sorted: seq<ClassifiedFile>, vs: seq<Verdict>, j: nat, k: nat)
    requires SizeDetermined(h) && |vs| == k && j < k < |sorted| && AllFit(PlannedFiles(sorted), vs) && !vs[j].Copied?
    requires forall f <- PlannedFiles(sorted) | f.action.COPY_VERIFY_OBJECT_AND_LINK? ::
               f.identity.Some? && Realizable(h, f.identity.value)
    requires ActionAt(sorted, j).COPY_VERIFY_OBJECT_AND_LINK? && sorted[j].identity == sorted[k].identity && sorted[k].identity.Some?
    ensures sorted[k].identity.value.sha !in Written(PlannedFiles(sorted), vs)
  {
    var files := PlannedFiles(sorted);
    assert files[j] in files;
    var sha := sorted[k].identity.value.sha;
    WrittenIff(files, vs, sha);
    if i :| 0 <= i < |vs| && vs[i].Copied? && files[i].identity.Some? && files[i].identity.value.sha == sha {
      assert files[i] in files && Fits(files[i], vs[i]);
      DigestDeterminesIdentity(h, files[i].identity.value, files[j].identity.value);
      OneCopyOnly(sorted, i, j);
    }
  }

  lemma OneCopyOnly(sorted: seq<ClassifiedFile>, i: nat, j: nat)
    requires i < |sorted| && j < |sorted| && sorted[i].identity == sorted[j].identity
    requires ActionAt(sorted, i).COPY_VERIFY_OBJECT_AND_LINK? && ActionAt(sorted, j).COPY_VERIFY_OBJECT_AND_LINK?
    ensures i == j
  {
    assert IsNew(sorted[i], sorted[j].identity) && IsNew(sorted[j], sorted[i].identity);
  }

  lemma SortedIsWell(db: Manifest, inputs: seq<ClassificationInput>)
    ensures WellClassified(SortBy(PathOf, Classified(db, inputs)))
  {
    ClassifiedIsWell(db, inputs);
    SortSorts(PathOf, Classified(db, inputs));
    SameElements(SortBy(PathOf, Classified(db, inputs)), Classified(db, inputs));
  }

  /**
   When a job succeeds: every file of an unblocked plan is backed up, or set aside as unsupported,
   exactly if for every file to be copied the first attempt that is not a mismatch comes within
   the limit, and is good.
   */
  lemma AllBackedUpIffServed(h: Hash, v: World, inputs: seq<ClassificationInput>, p: Plan, feeds: nat -> Feeds, retries: int)
    requires SizeDetermined(h) && Inv(h, v) && Quiescent(v.db) && AllRealizable(h, inputs)
    requires IsPlan(Classified(v.db, inputs), p) && !p.blocked
    ensures (forall u <- Verdicts(h, ShasOf(v.db.objects), p.files, feeds, retries, |p.files|) :: BackedUp(u) || u.Unsupported?)
            <==> AllServed(h, p.files, feeds, retries)
  {
    var vs := Verdicts(h, ShasOf(v.db.objects), p.files, feeds, retries, |p.files|);
    if AllServed(h, p.files, feeds, retries) {
      forall k | 0 <= k < |vs|
        ensures BackedUp(vs[k]) || vs[k].Unsupported?
      {
        ServedIsBackedUp(h, v, inputs, p, feeds, retries, k);
      }
    } else {
      NotServedIsNotBackedUp(h, v, inputs, p.files, feeds, retries);
    }
  }

  lemma NotServedIsNotBackedUp(h: Hash, v: World, inputs: seq<ClassificationInput>, files: seq<PlannedFile>,
                               feeds: nat -> Feeds, retries: int)
    requires SizeDetermined(h) && Inv(h, v) && Quiescent(v.db) && AllRealizable(h, inputs)
    requires files == PlannedFiles(SortBy(PathOf, Classified(v.db, inputs))) && !AllServed(h, files, feeds, retries)
    ensures !forall u <- Verdicts(h, ShasOf(v.db.objects), files, feeds, retries, |files|) :: BackedUp(u) || u.Unsupported?
  {
    var k :| 0 <= k < |files| && files[k].action.COPY_VERIFY_OBJECT_AND_LINK?
             && !(files[k].identity.Some? && Serves(h, files[k].identity.value, feeds(k), retries));
    CopyVerdictIff(h, v, inputs, files, feeds, retries, k);
    var u := Verdicts(h, ShasOf(v.db.objects), files, feeds, retries, |files|)[k];
    assert !(BackedUp(u) || u.Unsupported?);
  }

  lemma ServedIsBackedUp(h: Hash, v: World, inputs: seq<ClassificationInput>, p: Plan, feeds: nat -> Feeds, retries: int, k: nat)
    requires SizeDetermined(h) && Inv(h, v) && Quiescent(v.db) && AllRealizable(h, inputs)
    requires IsPlan(Classified(v.db, inputs), p) && !p.blocked && AllServed(h, p.files, feeds, retries) && k < |p.files|
    ensures var u := Verdicts(h, ShasOf(v.db.objects), p.files, feeds, retries, |p.files|)[k]; BackedUp(u) || u.Unsupported?
  {
    var f := p.files[k];
    assert f in p.files && !Blocks(f);
    match f.action
    case COPY_VERIFY_OBJECT_AND_LINK => CopyVerdictIff(h, v, inputs, p.files, feeds, retries, k);
    case LINK_NEW_OBJECT_SAME_JOB => ServedLinkIsThere(h, v, inputs, p.files, feeds, retries, k);
    case LINK_EXISTING_VERIFIED_OBJECT => OldIsLinked(h, v.db, inputs, p.files, feeds, retries, |p.files|, k);
    case SKIP_UNSUPPORTED => OldIsLinked(h, v.db, inputs, p.files, feeds, retries, |p.files|, k);
    case _ =>
  }

  /** So an uncancelled job is completed, with or without warnings, exactly then. */
  lemma JobSucceedsIffServed(h: Hash, v: World, inputs: seq<ClassificationInput>, plan: Plan, feeds: nat -> Feeds, retries: int)
    requires SizeDetermined(h) && Inv(h, v) && Quiescent(v.db) && AllRealizable(h, inputs)
    requires IsPlan(Classified(v.db, inputs), plan) && !plan.blocked
    requires plan.unsupportedCount == CountOf(plan.files, SKIP_UNSUPPORTED)
    requires AllFit(plan.files, Verdicts(h, ShasOf(v.db.objects), plan.files, feeds, retries, |plan.files|))
    ensures var vs := Verdicts(h, ShasOf(v.db.objects), plan.files, feeds, retries, |plan.files|);
            ResultOf(plan, vs).outcome.COMPLETED? || ResultOf(plan, vs).outcome.COMPLETED_WITH_WARNINGS?
            <==> AllServed(h, plan.files, feeds, retries)
  {
    AllBackedUpIffServed(h, v, inputs, plan, feeds, retries);
    CompletedIffAllVerified(plan, Verdicts(h, ShasOf(v.db.objects), plan.files, feeds, retries, |plan.files|));
  }

  /** Where the object table is the same and nothing is pending, so is the store, name by name and byte by byte. */
  lemma SameObjectsSameStore(h: Hash, v: World, w: World)
    requires Inv(h, v) && Inv(h, w) && Grows(v, w) && Quiescent(v.db) && Quiescent(w.db) && w.db.objects == v.db.objects
    ensures forall sha: string :: Final(sha) in v.disk.now <==> Final(sha) in w.disk.now
    ensures forall sha: string | Final(sha) in v.disk.now :: SameFile(v.disk, w.disk, Final(sha))
  {
    UseInv(h, v);
    UseInv(h, w);
    UseGrows(v, w);
    forall sha: string
      ensures Final(sha) in v.disk.now ==> SameFile(v.disk, w.disk, Final(sha))
      ensures Final(sha) in w.disk.now ==> Final(sha) in v.disk.now
    {
      if HasRow(v.db, sha) {
        var o :| o in v.db.objects && v.db.objects[o].identity.sha == sha;
      }
      assert HasRow(w.db, sha) ==> HasRow(v.db, sha);
    }
  }
}
