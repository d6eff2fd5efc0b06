/** Preflight: classify a scan, plan it, and assess the capacity for it. */
module Preflight {
  import opened Wrappers
  import opened Identity
  import opened Manifest
  import opened Sorting
  import opened Capacity
  import opened Planner
  import opened Repository

  datatype DiskUsage = DiskUsage(total: int, free: int)

  datatype PreflightOutcome = READY | WARNING | BLOCKED

  datatype PreflightResult = PreflightResult(
    outcome: PreflightOutcome,
    plan: Plan,
    capacity: CapacityAssessment,
    sourceBytes: nat,
    alreadyBackedUpBytes: nat)

  function InputPath(i: ClassificationInput): string {
    i.rel
  }

  /** The scan read the file and can save it. */
  predicate SavedInput(i: ClassificationInput) {
    !i.unsupported && !i.unreadable && i.identity.Some?
  }

  /** Every identity of the scan was computed from some bytes. */
  ghost predicate AllRealizable(h: Hash, inputs: seq<ClassificationInput>) {
    forall i <- inputs | i.identity.Some? :: Realizable(h, i.identity.value)
  }

  /** The engine gives no occupant lookup. */
  function NoOccupant(rel: string): Option<ContentIdentity> {
    None
  }

  /** The classification of an input against the manifest. */
  function ClassOf(db: Manifest, item: ClassificationInput): FileClassification {
    Classify(item, id => HasVerified(db, id), NoOccupant)
  }

  function ClassifiedInput(db: Manifest, item: ClassificationInput): ClassifiedFile {
    ClassifiedFile(item.rel, item.identity, if item.identity.Some? then item.identity.value.size else 0,
                   ClassOf(db, item))
  }

  function Classified(db: Manifest, inputs: seq<ClassificationInput>): seq<ClassifiedFile> {
    seq(|inputs|, i requires 0 <= i < |inputs| => ClassifiedInput(db, inputs[i]))
  }

  lemma ClassifiedIsWell(db: Manifest, inputs: seq<ClassificationInput>)
    ensures WellClassified(Classified(db, inputs))
    ensures DistinctBy(InputPath, inputs) ==> DistinctBy(PathOf, Classified(db, inputs))
  {
  }

  /** Pairs each input with the classification its path was given. */
  method ToClassified(inputs: seq<ClassificationInput>, classes: map<string, FileClassification>)
    returns (r: seq<ClassifiedFile>)
    requires forall i <- inputs :: i.rel in classes
    ensures |r| == |inputs|
    ensures forall k | 0 <= k < |r| ::
              r[k] == ClassifiedFile(inputs[k].rel, inputs[k].identity,
                                     if inputs[k].identity.Some? then inputs[k].identity.value.size else 0,
                                     classes[inputs[k].rel])
  {
    r := [];
    for k := 0 to |inputs|
      invariant |r| == k
      invariant forall j | 0 <= j < k ::
                  r[j] == ClassifiedFile(inputs[j].rel, inputs[j].identity,
                                         if inputs[j].identity.Some? then inputs[j].identity.value.size else 0,
                                         classes[inputs[j].rel])
    {
      var item := inputs[k];
      var size := if item.identity.Some? then item.identity.value.size else 0;
      r := r + [ClassifiedFile(item.rel, item.identity, size, classes[item.rel])];
    }
  }

  /** The planned bytes of the files that carry an identity, and of those already backed up. */
  function SourceBytes(files: seq<PlannedFile>): nat {
    if files == [] then 0
    else SourceBytes(files[..|files| - 1]) + if files[|files| - 1].identity.Some? then files[|files| - 1].size else 0
  }

  function AlreadyBytes(files: seq<PlannedFile>): nat {
    if files == [] then 0
    else AlreadyBytes(files[..|files| - 1])
         + if files[|files| - 1].classification.ALREADY_BACKED_UP? then files[|files| - 1].size else 0
  }

  /** Both add up over the parts of a list. */
  lemma {:induction false} BytesAddUp(files: seq<PlannedFile>, more: seq<PlannedFile>)
    ensures SourceBytes(files + more) == SourceBytes(files) + SourceBytes(more)
    ensures AlreadyBytes(files + more) == AlreadyBytes(files) + AlreadyBytes(more)
    ensures |more| == 1 ==> SourceBytes(more) == if more[0].identity.Some? then more[0].size else 0
    ensures |more| == 1 ==> AlreadyBytes(more) == if more[0].classification.ALREADY_BACKED_UP? then more[0].size else 0
    decreases |more|
  {
    if more == [] {
      assert files + more == files;
    } else {
      BytesAddUp(files, more[..|more| - 1]);
      assert (files + more)[..|files + more| - 1] == files + more[..|more| - 1];
    }
  }

  /** What an input is taken for, by the scan and by what is verified. */
  lemma ClassOfIff(db: Manifest, item: ClassificationInput)
    ensures var c := ClassOf(db, item);
            var readable := !item.unsupported && !item.unreadable && item.identity.Some?;
            && (c.UNSUPPORTED? <==> item.unsupported)
            && (c.UNREADABLE? <==> !item.unsupported && !readable)
            && (c.ALREADY_BACKED_UP? <==> readable && HasVerified(db, item.identity.value))
            && (c.NEW? <==> readable && !HasVerified(db, item.identity.value))
            && !c.POTENTIAL_CONFLICT?
  {
    ClassifyIff(item, id => HasVerified(db, id), NoOccupant);
  }

  /** What preflight says about a scan, given the manifest and the disk it sees. */
  ghost predicate IsPreflight(db: Manifest, inputs: seq<ClassificationInput>, usage: DiskUsage, policy: Policy,
                              r: PreflightResult)
  {
    && IsPlan(Classified(db, inputs), r.plan)
    && AssessCapacity(usage.total, usage.free, r.plan.newObjectBytes, r.plan.largestNewObjectBytes, policy) == Success(r.capacity)
    && (r.outcome.BLOCKED? <==> r.plan.blocked || !r.capacity.sufficient)
    && (r.outcome.WARNING? <==> !r.outcome.BLOCKED? && r.plan.unsupportedCount > 0)
    && r.sourceBytes == SourceBytes(r.plan.files) && r.alreadyBackedUpBytes == AlreadyBytes(r.plan.files)
  }

  method ClassifyAll(repo: ManifestRepository, inputs: seq<ClassificationInput>)
    returns (classes: map<string, FileClassification>)
    requires repo.m.Valid() && DistinctBy(InputPath, inputs)
    ensures forall k | 0 <= k < |inputs| ::
              inputs[k].rel in classes && classes[inputs[k].rel] == ClassOf(repo.m.db, inputs[k])
  {
    classes := map[];
    for k := 0 to |inputs|
      invariant forall j | 0 <= j < k ::
                  inputs[j].rel in classes && classes[inputs[j].rel] == ClassOf(repo.m.db, inputs[j])
    {
      assert forall j | 0 <= j < k :: InputPath(inputs[j]) != InputPath(inputs[k]);
      var found := false;
      if inputs[k].identity.Some? {
        found := repo.HasVerifiedObject(inputs[k].identity.value);
      }
      classes := classes[inputs[k].rel := Classify(inputs[k], _ => found, NoOccupant)];
    }
  }

  /** The quantities that capacity is assessed from make sense. */
  predicate Assessable(usage: DiskUsage, policy: Policy) {
    usage.total >= 0 && usage.free >= 0 && ValidPolicy(policy)
  }

  /** Runs preflight on a scan whose paths are distinct. */
  method RunPreflight(repo: ManifestRepository, inputs: seq<ClassificationInput>, usage: DiskUsage, policy: Policy)
    returns (r: Result<PreflightResult, ArgumentError>)
    requires repo.m.Valid() && DistinctBy(InputPath, inputs)
    ensures r.Success? <==> Assessable(usage, policy)
    ensures r.Success? ==> IsPreflight(repo.m.db, inputs, usage, policy, r.value)
    ensures r.Failure? ==>
              exists p :: (IsPlan(Classified(repo.m.db, inputs), p)
                && AssessCapacity(usage.total, usage.free, p.newObjectBytes, p.largestNewObjectBytes, policy) == Failure(r.error))
  {
    var classes := ClassifyAll(repo, inputs);
    var classified := ToClassified(inputs, classes);
    assert classified == Classified(repo.m.db, inputs);
    ClassifiedIsWell(repo.m.db, inputs);
    var plan := BuildPlan(classified);
    var capacity := AssessCapacity(usage.total, usage.free, plan.newObjectBytes, plan.largestNewObjectBytes, policy);
    AssessmentIff(usage.total, usage.free, plan.newObjectBytes, plan.largestNewObjectBytes, policy);
    if capacity.Failure? {
      return Failure(capacity.error);
    }
    var outcome :=
      if plan.blocked || !capacity.value.sufficient then BLOCKED
      else if plan.unsupportedCount > 0 then WARNING
      else READY;
    return Success(PreflightResult(outcome, plan, capacity.value, SourceBytes(plan.files), AlreadyBytes(plan.files)));
  }

  /** A scan all of whose contents are verified on the destination plans no new object. */
  lemma NothingNewToPlan(db: Manifest, inputs: seq<ClassificationInput>, usage: DiskUsage, policy: Policy, r: PreflightResult)
    requires IsPreflight(db, inputs, usage, policy, r)
    requires forall i <- inputs | SavedInput(i) :: HasVerified(db, i.identity.value)
    ensures r.plan.newObjectCount == 0 && r.plan.newObjectBytes == 0
    ensures forall f <- r.plan.files :: !f.classification.NEW?
    ensures forall f <- r.plan.files :: !f.action.COPY_VERIFY_OBJECT_AND_LINK? && !f.action.LINK_NEW_OBJECT_SAME_JOB?
  {
    var items := Classified(db, inputs);
    forall f <- items
      ensures !f.classification.NEW?
    {
      var k :| 0 <= k < |items| && items[k] == f;
      assert inputs[k] in inputs;
    }
    assert NewIdentities(items) == {};
    PlanFilesComeFrom(items, r.plan);
  }

  /**
   What the outcome of a preflight means. It is BLOCKED exactly if some file that is supported
   could not be read, or the new bytes do not leave the reserve and the margin free; and WARNING
   exactly if it is not blocked and some file is not supported.
   */
  lemma OutcomeTells(db: Manifest, inputs: seq<ClassificationInput>, usage: DiskUsage, policy: Policy, r: PreflightResult)
    requires IsPreflight(db, inputs, usage, policy, r)
    ensures r.outcome.BLOCKED?
            <==> (exists i <- inputs :: !i.unsupported && (i.unreadable || i.identity.None?))
                 || usage.free - r.plan.newObjectBytes < r.capacity.reserve + r.capacity.margin
    ensures r.outcome.WARNING? <==> !r.outcome.BLOCKED? && exists i <- inputs :: i.unsupported
  {
    var items := Classified(db, inputs);
    PlanCounts(items, r.plan);
    BlockedByInputs(db, inputs);
    SufficientLeavesReserveAndMargin(usage.total, usage.free, r.plan.newObjectBytes, r.plan.largestNewObjectBytes, policy, r.capacity);
    UnsupportedInputs(db, inputs, r.plan);
  }

  lemma BlockedByInputs(db: Manifest, inputs: seq<ClassificationInput>)
    ensures (exists f <- Classified(db, inputs) :: f.classification.UNREADABLE? || f.classification.POTENTIAL_CONFLICT?)
            <==> exists i <- inputs :: !i.unsupported && (i.unreadable || i.identity.None?)
  {
    var items := Classified(db, inputs);
    if f :| f in items && (f.classification.UNREADABLE? || f.classification.POTENTIAL_CONFLICT?) {
      var k :| 0 <= k < |items| && items[k] == f;
      ClassOfIff(db, inputs[k]);
      assert inputs[k] in inputs;
    }
    if i :| i in inputs && !i.unsupported && (i.unreadable || i.identity.None?) {
      var k :| 0 <= k < |inputs| && inputs[k] == i;
      ClassOfIff(db, i);
      assert items[k] in items;
    }
  }

  lemma UnsupportedInputs(db: Manifest, inputs: seq<ClassificationInput>, p: Plan)
    requires IsPlan(Classified(db, inputs), p)
    ensures p.unsupportedCount > 0 <==> exists i <- inputs :: i.unsupported
  {
    var items := Classified(db, inputs);
    PlanCounts(items, p);
    var sorted := PlanIsTheSortedScan(items, p);
    SameElements(sorted, items);
    SomeUnsupported(sorted, p.files);
    UnsupportedItems(db, inputs);
  }

  lemma SomeUnsupported(sorted: seq<ClassifiedFile>, files: seq<PlannedFile>)
    requires |files| == |sorted| && forall k | 0 <= k < |sorted| :: files[k].classification == sorted[k].classification
    ensures |set k: nat | k < |files| && files[k].classification.UNSUPPORTED?| > 0 <==> exists f <- sorted :: f.classification.UNSUPPORTED?
  {
    var at := set k: nat | k < |files| && files[k].classification.UNSUPPORTED?;
    if at != {} {
      var k :| k in at;
      assert sorted[k] in sorted;
    }
    if f :| f in sorted && f.classification.UNSUPPORTED? {
      var k :| 0 <= k < |sorted| && sorted[k] == f;
      assert k in at;
    }
  }

  lemma UnsupportedItems(db: Manifest, inputs: seq<ClassificationInput>)
    ensures (exists f <- Classified(db, inputs) :: f.classification.UNSUPPORTED?) <==> exists i <- inputs :: i.unsupported
  {
    var items := Classified(db, inputs);
    if f :| f in items && f.classification.UNSUPPORTED? {
      var k :| 0 <= k < |items| && items[k] == f;
      ClassOfIff(db, inputs[k]);
      assert inputs[k] in inputs;
    }
    if i :| i in inputs && i.unsupported {
      var k :| 0 <= k < |inputs| && inputs[k] == i;
      ClassOfIff(db, i);
      assert items[k] in items;
    }
  }

  lemma PlanFilesComeFrom(items: seq<ClassifiedFile>, p: Plan)
    requires p.files == PlannedFiles(SortBy(PathOf, items)) && forall f <- items :: !f.classification.NEW?
    ensures forall f <- p.files :: !f.classification.NEW?
    ensures forall f <- p.files :: !f.action.COPY_VERIFY_OBJECT_AND_LINK? && !f.action.LINK_NEW_OBJECT_SAME_JOB?
  {
    SortSorts(PathOf, items);
    SameElements(SortBy(PathOf, items), items);
    forall k | 0 <= k < |p.files|
      ensures !p.files[k].classification.NEW?
    {
      assert SortBy(PathOf, items)[k] in items;
    }
  }
}
