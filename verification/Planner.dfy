/** Classification of source files and the immutable plan made from it. */
module Planner {
  import opened Wrappers
  import opened Identity
  import opened Sorting
  import opened Sums

  datatype FileClassification = NEW | ALREADY_BACKED_UP | POTENTIAL_CONFLICT | UNSUPPORTED | UNREADABLE

  datatype ClassificationInput = ClassificationInput(
    rel: string, identity: Option<ContentIdentity>, unreadable: bool, unsupported: bool)

  /** Precedence: unsupported, unreadable, conflict, already backed up, new. */
  function Classify(item: ClassificationInput, verified: ContentIdentity -> bool,
                    occupant: string -> Option<ContentIdentity>): FileClassification
  {
    if item.unsupported then UNSUPPORTED
    else if item.unreadable || item.identity.None? then UNREADABLE
    else if occupant(item.rel).Some? && occupant(item.rel) != item.identity then POTENTIAL_CONFLICT
    else if verified(item.identity.value) then ALREADY_BACKED_UP
    else NEW
  }

  /** A readable file is new unless its place is taken by other content or its content is verified. */
  lemma ClassifyIff(item: ClassificationInput, verified: ContentIdentity -> bool, occupant: string -> Option<ContentIdentity>)
    ensures var c := Classify(item, verified, occupant);
            var readable := !item.unsupported && !item.unreadable && item.identity.Some?;
            && (c.UNSUPPORTED? <==> item.unsupported)
            && (c.UNREADABLE? <==> !item.unsupported && !readable)
            && (c.POTENTIAL_CONFLICT? <==> readable && exists id :: occupant(item.rel) == Some(id) && Some(id) != item.identity)
            && (c.ALREADY_BACKED_UP? <==> readable && !c.POTENTIAL_CONFLICT? && verified(item.identity.value))
            && (c.NEW? <==> readable && !c.POTENTIAL_CONFLICT? && !verified(item.identity.value))
  {
    if occupant(item.rel).Some? {
      assert occupant(item.rel) == Some(occupant(item.rel).value);
    }
  }

  datatype FileAction =
    | COPY_VERIFY_OBJECT_AND_LINK
    | LINK_EXISTING_VERIFIED_OBJECT
    | LINK_NEW_OBJECT_SAME_JOB
    | SKIP_UNSUPPORTED
    | BLOCK_CONFLICT
    | BLOCK_UNREADABLE

  datatype ClassifiedFile = ClassifiedFile(
    rel: string, identity: Option<ContentIdentity>, size: nat, classification: FileClassification)

  datatype PlannedFile = PlannedFile(
    rel: string, identity: Option<ContentIdentity>, classification: FileClassification,
    action: FileAction, size: nat)

  datatype Plan = Plan(
    files: seq<PlannedFile>,
    newObjectBytes: nat,
    newObjectCount: nat,
    alreadyBackedUpCount: nat,
    intraJobDuplicateCount: nat,
    conflictCount: nat,
    unreadableCount: nat,
    unsupportedCount: nat,
    largestNewObjectBytes: nat,
    blocked: bool,
    blockedPaths: seq<string>)

  function PathOf(f: ClassifiedFile): string {
    f.rel
  }

  /** As the classifier delivers it: a new file has an identity, whose size is the file's. */
  predicate WellClassified(items: seq<ClassifiedFile>) {
    forall f <- items :: f.classification.NEW? ==> f.identity.Some? && f.size == f.identity.value.size
  }

  predicate IsNew(f: ClassifiedFile, id: Option<ContentIdentity>) {
    f.classification.NEW? && f.identity == id
  }

  /** What is done with the file at `k` of a sorted scan: a new identity is copied where it first occurs. */
  function ActionAt(sorted: seq<ClassifiedFile>, k: nat): FileAction
    requires k < |sorted|
  {
    match sorted[k].classification
    case UNREADABLE => BLOCK_UNREADABLE
    case POTENTIAL_CONFLICT => BLOCK_CONFLICT
    case ALREADY_BACKED_UP => LINK_EXISTING_VERIFIED_OBJECT
    case UNSUPPORTED => SKIP_UNSUPPORTED
    case NEW =>
      if exists i :: 0 <= i < k && IsNew(sorted[i], sorted[k].identity) then LINK_NEW_OBJECT_SAME_JOB
      else COPY_VERIFY_OBJECT_AND_LINK
  }

  function PlannedAt(sorted: seq<ClassifiedFile>, k: nat): PlannedFile
    requires k < |sorted|
  {
    var f := sorted[k];
    PlannedFile(f.rel, f.identity, f.classification, ActionAt(sorted, k), f.size)
  }

  function PlannedFiles(sorted: seq<ClassifiedFile>): seq<PlannedFile> {
    seq(|sorted|, k requires 0 <= k < |sorted| => PlannedAt(sorted, k))
  }

  function NewIdentities(items: seq<ClassifiedFile>): set<ContentIdentity> {
    set f | f in items && f.classification.NEW? && f.identity.Some? :: f.identity.value
  }

  function CountOf(files: seq<PlannedFile>, action: FileAction): nat {
    if files == [] then 0
    else CountOf(files[..|files| - 1], action) + if files[|files| - 1].action == action then 1 else 0
  }

  /** The bytes of the files that are to be copied. */
  function CopyBytes(files: seq<PlannedFile>): nat {
    if files == [] then 0
    else CopyBytes(files[..|files| - 1])
         + if files[|files| - 1].action.COPY_VERIFY_OBJECT_AND_LINK? then files[|files| - 1].size else 0
  }

  /** The size of the largest file that is to be copied. */
  function LargestCopy(files: seq<PlannedFile>): nat {
    if files == [] then 0
    else
      var rest, last := LargestCopy(files[..|files| - 1]), files[|files| - 1];
      if last.action.COPY_VERIFY_OBJECT_AND_LINK? && last.size > rest then last.size else rest
  }

  predicate Blocks(f: PlannedFile) {
    f.action.BLOCK_CONFLICT? || f.action.BLOCK_UNREADABLE?
  }

  function BlockedPaths(files: seq<PlannedFile>): seq<string> {
    if files == [] then []
    else BlockedPaths(files[..|files| - 1]) + if Blocks(files[|files| - 1]) then [files[|files| - 1].rel] else []
  }

  function SizeOf(id: ContentIdentity): nat {
    id.size
  }

  /** The sum of the sizes of a set of identities. */
  ghost function TotalSize(ids: set<ContentIdentity>): nat {
    SumOver(ids, SizeOf)
  }

  ghost predicate IsLargest(ids: set<ContentIdentity>, n: nat) {
    && (forall id <- ids :: id.size <= n)
    && (if ids == {} then n == 0 else exists id <- ids :: id.size == n)
  }

  /** What a plan for `items` is, without saying how it is computed. */
  ghost predicate IsPlan(items: seq<ClassifiedFile>, p: Plan) {
    var ids := NewIdentities(items);
    && p.files == PlannedFiles(SortBy(PathOf, items))
    && p.newObjectBytes == TotalSize(ids) == CopyBytes(p.files)
    && p.newObjectCount == |ids| == CountOf(p.files, COPY_VERIFY_OBJECT_AND_LINK)
    && IsLargest(ids, p.largestNewObjectBytes)
    && p.alreadyBackedUpCount == CountOf(p.files, LINK_EXISTING_VERIFIED_OBJECT)
    && p.intraJobDuplicateCount == CountOf(p.files, LINK_NEW_OBJECT_SAME_JOB)
    && p.conflictCount == CountOf(p.files, BLOCK_CONFLICT)
    && p.unreadableCount == CountOf(p.files, BLOCK_UNREADABLE)
    && p.unsupportedCount == CountOf(p.files, SKIP_UNSUPPORTED)
    && (p.blocked <==> exists f <- p.files :: Blocks(f))
    && p.blockedPaths == BlockedPaths(p.files)
  }

  /** The counters of a plan, one for each action but copying. */
  datatype Counters = Counters(already: nat, dupes: nat, conflicts: nat, unreadable: nat, unsupported: nat)

  function CountersOf(planned: seq<PlannedFile>): Counters {
    Counters(CountOf(planned, LINK_EXISTING_VERIFIED_OBJECT), CountOf(planned, LINK_NEW_OBJECT_SAME_JOB),
             CountOf(planned, BLOCK_CONFLICT), CountOf(planned, BLOCK_UNREADABLE), CountOf(planned, SKIP_UNSUPPORTED))
  }

  lemma SeenGrows(sorted: seq<ClassifiedFile>, k: nat)
    requires k < |sorted| && WellClassified(sorted)
    ensures NewIdentities(sorted[..k + 1]) ==
            NewIdentities(sorted[..k]) + if sorted[k].classification.NEW? then {sorted[k].identity.value} else {}
    ensures sorted[k].classification.NEW? ==>
              (sorted[k].identity.value in NewIdentities(sorted[..k])
               <==> exists i :: 0 <= i < k && IsNew(sorted[i], sorted[k].identity))
  {
    assert sorted[..k + 1] == sorted[..k] + [sorted[k]];
  }

  lemma LargestGrows(ids: set<ContentIdentity>, largest: nat, id: ContentIdentity)
    requires IsLargest(ids, largest)
    ensures IsLargest(ids + {id}, if id.size > largest then id.size else largest)
  {
    var all := ids + {id};
    if id.size > largest || ids == {} {
      assert id in all;
    } else {
      var top :| top in ids && top.size == largest;
      assert top in all;
    }
  }

  lemma PrefixOfPlan(sorted: seq<ClassifiedFile>, k: nat)
    requires k < |sorted|
    ensures PlannedFiles(sorted)[..k + 1] == PlannedFiles(sorted)[..k] + [PlannedAt(sorted, k)]
    ensures PlannedFiles(sorted)[..k + 1][..k] == PlannedFiles(sorted)[..k]
  {
  }

  /** The new objects of a plan: how many, how many bytes, and the largest. */
  datatype NewObjects = NewObjects(count: nat, bytes: nat, largest: nat)

  function NewObjectsOf(planned: seq<PlannedFile>): NewObjects {
    NewObjects(CountOf(planned, COPY_VERIFY_OBJECT_AND_LINK), CopyBytes(planned), LargestCopy(planned))
  }

  lemma CountersGrow(planned: seq<PlannedFile>, f: PlannedFile)
    ensures CountersOf(planned + [f]) == Bumped(CountersOf(planned), f.action)
    ensures NewObjectsOf(planned + [f]) ==
            if f.action.COPY_VERIFY_OBJECT_AND_LINK? then Added(NewObjectsOf(planned), f.size) else NewObjectsOf(planned)
    ensures BlockedPaths(planned + [f]) == BlockedPaths(planned) + if Blocks(f) then [f.rel] else []
  {
    assert (planned + [f])[..|planned + [f]| - 1] == planned;
  }

  /** `n` counts, adds up and compares the identities of `ids`. */
  ghost predicate Measures(n: NewObjects, ids: set<ContentIdentity>) {
    n.count == |ids| && n.bytes == TotalSize(ids) && IsLargest(ids, n.largest)
  }

  lemma AddedMeasures(n: NewObjects, ids: set<ContentIdentity>, id: ContentIdentity)
    requires Measures(n, ids) && id !in ids
    ensures Measures(Added(n, id.size), ids + {id})
  {
    SumOverAdds(ids, id, SizeOf);
    LargestGrows(ids, n.largest, id);
  }

  /** Going over the copies of a plan amounts to going over the set of new identities. */
  lemma {:induction false} CopiesAreTheNewIdentities(sorted: seq<ClassifiedFile>, k: nat)
    requires WellClassified(sorted) && k <= |sorted|
    ensures Measures(NewObjectsOf(PlannedFiles(sorted)[..k]), NewIdentities(sorted[..k]))
  {
    if k > 0 {
      CopiesAreTheNewIdentities(sorted, k - 1);
      NextMeasures(sorted, k - 1);
    }
  }

  lemma NextMeasures(sorted: seq<ClassifiedFile>, k: nat)
    requires WellClassified(sorted) && k < |sorted|
    requires Measures(NewObjectsOf(PlannedFiles(sorted)[..k]), NewIdentities(sorted[..k]))
    ensures Measures(NewObjectsOf(PlannedFiles(sorted)[..k + 1]), NewIdentities(sorted[..k + 1]))
  {
    var files, ids := PlannedFiles(sorted)[..k], NewIdentities(sorted[..k]);
    var copied := ActionAt(sorted, k).COPY_VERIFY_OBJECT_AND_LINK?;
    assert NewObjectsOf(PlannedFiles(sorted)[..k + 1]) ==
           if copied then Added(NewObjectsOf(files), sorted[k].size) else NewObjectsOf(files) by {
      PrefixOfPlan(sorted, k);
      CountersGrow(files, PlannedAt(sorted, k));
    }
    IdentitiesGrow(sorted, k);
    if copied {
      AddedMeasures(NewObjectsOf(files), ids, sorted[k].identity.value);
    }
  }

  lemma IdentitiesGrow(sorted: seq<ClassifiedFile>, k: nat)
    requires WellClassified(sorted) && k < |sorted|
    ensures var ids := NewIdentities(sorted[..k]);
            if ActionAt(sorted, k).COPY_VERIFY_OBJECT_AND_LINK? then
              && sorted[k].identity.Some? && sorted[k].identity.value !in ids
              && sorted[k].size == sorted[k].identity.value.size
              && NewIdentities(sorted[..k + 1]) == ids + {sorted[k].identity.value}
            else NewIdentities(sorted[..k + 1]) == ids
  {
    SeenGrows(sorted, k);
    if sorted[k].classification.NEW? && sorted[k].identity.value in NewIdentities(sorted[..k]) {
      assert NewIdentities(sorted[..k]) + {sorted[k].identity.value} == NewIdentities(sorted[..k]);
    }
  }

  /** The variables of the planning loop. */
  datatype Planning = Planning(
    planned: seq<PlannedFile>, seen: set<ContentIdentity>, objects: NewObjects, counters: Counters, blockedPaths: seq<string>)

  /** The loop of `BuildPlan` has dealt with the first `k` files. */
  ghost predicate Progress(sorted: seq<ClassifiedFile>, k: nat, s: Planning)
    requires k <= |sorted|
  {
    forall u: Unit :: ProgressFacts(sorted, k, s, u)
  }

  ghost predicate ProgressFacts(sorted: seq<ClassifiedFile>, k: nat, s: Planning, u: Unit)
    requires k <= |sorted|
  {
    && s.planned == PlannedFiles(sorted)[..k] && s.seen == NewIdentities(sorted[..k])
    && s.objects == NewObjectsOf(s.planned) && s.counters == CountersOf(s.planned)
    && s.blockedPaths == BlockedPaths(s.planned)
  }

  /** One turn of the loop, at a file `f`. */
  predicate Turn(f: ClassifiedFile, s: Planning, t: Planning) {
    var first := f.classification.NEW? && f.identity.Some? && f.identity.value !in s.seen;
    var action :=
      match f.classification
      case UNREADABLE => BLOCK_UNREADABLE
      case POTENTIAL_CONFLICT => BLOCK_CONFLICT
      case ALREADY_BACKED_UP => LINK_EXISTING_VERIFIED_OBJECT
      case UNSUPPORTED => SKIP_UNSUPPORTED
      case NEW => if first then COPY_VERIFY_OBJECT_AND_LINK else LINK_NEW_OBJECT_SAME_JOB;
    && t.planned == s.planned + [PlannedFile(f.rel, f.identity, f.classification, action, f.size)]
    && t.seen == (if first then s.seen + {f.identity.value} else s.seen)
    && t.objects == (if first then Added(s.objects, f.size) else s.objects)
    && t.counters == Bumped(s.counters, action)
    && t.blockedPaths == if action.BLOCK_CONFLICT? || action.BLOCK_UNREADABLE? then s.blockedPaths + [f.rel] else s.blockedPaths
  }

  function Added(n: NewObjects, size: nat): NewObjects {
    NewObjects(n.count + 1, n.bytes + size, if size > n.largest then size else n.largest)
  }

  function Bumped(c: Counters, action: FileAction): Counters {
    match action
    case COPY_VERIFY_OBJECT_AND_LINK => c
    case LINK_EXISTING_VERIFIED_OBJECT => c.(already := c.already + 1)
    case LINK_NEW_OBJECT_SAME_JOB => c.(dupes := c.dupes + 1)
    case BLOCK_CONFLICT => c.(conflicts := c.conflicts + 1)
    case BLOCK_UNREADABLE => c.(unreadable := c.unreadable + 1)
    case SKIP_UNSUPPORTED => c.(unsupported := c.unsupported + 1)
  }

  lemma TurnMakesProgress(sorted: seq<ClassifiedFile>, k: nat, s: Planning, t: Planning)
    requires k < |sorted| && WellClassified(sorted) && Progress(sorted, k, s) && Turn(sorted[k], s, t)
    ensures Progress(sorted, k + 1, t)
  {
    assert ProgressFacts(sorted, k, s, Unit);
    SeenGrows(sorted, k);
    PrefixOfPlan(sorted, k);
    CountersGrow(s.planned, PlannedAt(sorted, k));
    assert t.planned == s.planned + [PlannedAt(sorted, k)];
    assert ProgressFacts(sorted, k + 1, t, Unit);
  }

  /** Goes over the files in path order, deduplicating identical new content within the job. */
  method PlanInOrder(ordered: seq<ClassifiedFile>) returns (s: Planning)
    requires WellClassified(ordered)
    ensures Progress(ordered, |ordered|, s)
  {
    s := Planning([], {}, NewObjects(0, 0, 0), Counters(0, 0, 0, 0, 0), []);
    assert ProgressFacts(ordered, 0, s, Unit);
    var k := 0;
    while k < |ordered|
      invariant 0 <= k <= |ordered|
      invariant Progress(ordered, k, s)
    {
      var f := ordered[k];
      ghost var before := s;
      var action := SKIP_UNSUPPORTED;
      match f.classification {
        case UNREADABLE =>
          action := BLOCK_UNREADABLE;
          s := s.(blockedPaths := s.blockedPaths + [f.rel]);
        case POTENTIAL_CONFLICT =>
          action := BLOCK_CONFLICT;
          s := s.(blockedPaths := s.blockedPaths + [f.rel]);
        case ALREADY_BACKED_UP =>
          action := LINK_EXISTING_VERIFIED_OBJECT;
        case NEW =>
          if f.identity.value in s.seen {
            action := LINK_NEW_OBJECT_SAME_JOB;
          } else {
            action := COPY_VERIFY_OBJECT_AND_LINK;
            s := s.(seen := s.seen + {f.identity.value}, objects := Added(s.objects, f.size));
          }
        case UNSUPPORTED =>
      }
      s := s.(counters := Bumped(s.counters, action),
              planned := s.planned + [PlannedFile(f.rel, f.identity, f.classification, action, f.size)]);
      assert Turn(f, before, s);
      TurnMakesProgress(ordered, k, before, s);
      k := k + 1;
    }
  }

  /** Builds the immutable plan of a scan. */
  method BuildPlan(items: seq<ClassifiedFile>) returns (p: Plan)
    requires WellClassified(items)
    ensures IsPlan(items, p)
  {
    var ordered := SortBy(PathOf, items);
    SortSorts(PathOf, items);
    SameElements(ordered, items);
    var s := PlanInOrder(ordered);
    p := Plan(s.planned, s.objects.bytes, s.objects.count, s.counters.already, s.counters.dupes, s.counters.conflicts,
              s.counters.unreadable, s.counters.unsupported, s.objects.largest,
              s.counters.conflicts > 0 || s.counters.unreadable > 0, s.blockedPaths);
    assert ProgressFacts(ordered, |ordered|, s, Unit);
    assert PlannedFiles(ordered)[..|ordered|] == PlannedFiles(ordered);
    PlanIsMet(items, s.planned, s.objects);
  }

  lemma PlanIsMet(items: seq<ClassifiedFile>, planned: seq<PlannedFile>, objects: NewObjects)
    requires WellClassified(items) && planned == PlannedFiles(SortBy(PathOf, items)) && objects == NewObjectsOf(planned)
    ensures objects.bytes == TotalSize(NewIdentities(items)) && objects.count == |NewIdentities(items)|
    ensures IsLargest(NewIdentities(items), objects.largest)
    ensures CountOf(planned, BLOCK_CONFLICT) + CountOf(planned, BLOCK_UNREADABLE) > 0 <==> exists f <- planned :: Blocks(f)
  {
    var sorted := SortBy(PathOf, items);
    SortSorts(PathOf, items);
    SameElements(sorted, items);
    CopiesAreTheNewIdentities(sorted, |sorted|);
    assert sorted[..|sorted|] == sorted && planned[..|planned|] == planned;
    assert NewIdentities(sorted) == NewIdentities(items);
    BlockedCount(planned);
  }

  lemma {:induction false} BlockedCount(files: seq<PlannedFile>)
    ensures CountOf(files, BLOCK_CONFLICT) + CountOf(files, BLOCK_UNREADABLE) > 0 <==> exists f <- files :: Blocks(f)
  {
    if files != [] {
      var front, last := files[..|files| - 1], files[|files| - 1];
      BlockedCount(front);
      if Blocks(last) {
        assert last in files;
      } else if f :| f in front && Blocks(f) {
        assert f in files;
      } else {
        assert forall f <- files :: f in front || f == last;
      }
    }
  }

  /** The indices of the files with an action. */
  function With(files: seq<PlannedFile>, action: FileAction): set<nat> {
    set k: nat | k < |files| && files[k].action == action
  }

  lemma WithNext(front: seq<PlannedFile>, last: PlannedFile, action: FileAction)
    ensures |With(front + [last], action)| == |With(front, action)| + if last.action == action then 1 else 0
  {
    var more := if last.action == action then {|front|} else {};
    assert With(front + [last], action) == With(front, action) + more;
  }

  lemma {:induction false} CountsAreIndices(files: seq<PlannedFile>, action: FileAction)
    ensures CountOf(files, action) == |With(files, action)|
  {
    if files != [] {
      var front, last := files[..|files| - 1], files[|files| - 1];
      CountsAreIndices(front, action);
      WithNext(front, last, action);
      assert files == front + [last];
    }
  }

  /** Each classification calls for its own action; only a new file leaves a choice. */
  lemma ActionIff(sorted: seq<ClassifiedFile>, k: nat)
    requires k < |sorted|
    ensures var f, c := PlannedAt(sorted, k), sorted[k].classification;
            && (f.action.BLOCK_UNREADABLE? <==> c.UNREADABLE?)
            && (f.action.BLOCK_CONFLICT? <==> c.POTENTIAL_CONFLICT?)
            && (f.action.LINK_EXISTING_VERIFIED_OBJECT? <==> c.ALREADY_BACKED_UP?)
            && (f.action.SKIP_UNSUPPORTED? <==> c.UNSUPPORTED?)
            && (f.action.COPY_VERIFY_OBJECT_AND_LINK? || f.action.LINK_NEW_OBJECT_SAME_JOB? <==> c.NEW?)
            && f.rel == sorted[k].rel && f.identity == sorted[k].identity && f.size == sorted[k].size && f.classification == c
  {
  }

  /** A plan has the scan itself, in the order of its paths. */
  lemma PlanIsTheSortedScan(items: seq<ClassifiedFile>, p: Plan) returns (sorted: seq<ClassifiedFile>)
    requires IsPlan(items, p)
    ensures multiset(sorted) == multiset(items) && SortedBy(PathOf, sorted) && |p.files| == |sorted|
    ensures forall k | 0 <= k < |sorted| ::
              && p.files[k].rel == sorted[k].rel && p.files[k].identity == sorted[k].identity
              && p.files[k].size == sorted[k].size && p.files[k].classification == sorted[k].classification
  {
    sorted := SortBy(PathOf, items);
    SortSorts(PathOf, items);
  }

  /** What the counters of a plan mean, by the classifications of its files. */
  lemma PlanCounts(items: seq<ClassifiedFile>, p: Plan)
    requires IsPlan(items, p)
    ensures p.alreadyBackedUpCount == |set k: nat | k < |p.files| && p.files[k].classification.ALREADY_BACKED_UP?|
    ensures p.conflictCount == |set k: nat | k < |p.files| && p.files[k].classification.POTENTIAL_CONFLICT?|
    ensures p.unreadableCount == |set k: nat | k < |p.files| && p.files[k].classification.UNREADABLE?|
    ensures p.unsupportedCount == |set k: nat | k < |p.files| && p.files[k].classification.UNSUPPORTED?|
    ensures p.intraJobDuplicateCount + p.newObjectCount == |set k: nat | k < |p.files| && p.files[k].classification.NEW?|
    ensures p.blocked <==> exists f <- items :: f.classification.UNREADABLE? || f.classification.POTENTIAL_CONFLICT?
  {
    var sorted := SortBy(PathOf, items);
    forall k: nat | k < |sorted|
      ensures var a, c := p.files[k].action, p.files[k].classification;
              && (a.BLOCK_UNREADABLE? <==> c.UNREADABLE?) && (a.BLOCK_CONFLICT? <==> c.POTENTIAL_CONFLICT?)
              && (a.LINK_EXISTING_VERIFIED_OBJECT? <==> c.ALREADY_BACKED_UP?) && (a.SKIP_UNSUPPORTED? <==> c.UNSUPPORTED?)
              && (a.COPY_VERIFY_OBJECT_AND_LINK? || a.LINK_NEW_OBJECT_SAME_JOB? <==> c.NEW?) && c == sorted[k].classification
    {
      ActionIff(sorted, k);
    }
    ClassesAreCounted(p.files);
    BlocksIff(items, p);
  }

  lemma ClassesAreCounted(files: seq<PlannedFile>)
    requires forall k: nat | k < |files| ::
               var a, c := files[k].action, files[k].classification;
               && (a.BLOCK_UNREADABLE? <==> c.UNREADABLE?) && (a.BLOCK_CONFLICT? <==> c.POTENTIAL_CONFLICT?)
               && (a.LINK_EXISTING_VERIFIED_OBJECT? <==> c.ALREADY_BACKED_UP?) && (a.SKIP_UNSUPPORTED? <==> c.UNSUPPORTED?)
               && (a.COPY_VERIFY_OBJECT_AND_LINK? || a.LINK_NEW_OBJECT_SAME_JOB? <==> c.NEW?)
    ensures CountOf(files, LINK_EXISTING_VERIFIED_OBJECT) == |set k: nat | k < |files| && files[k].classification.ALREADY_BACKED_UP?|
    ensures CountOf(files, BLOCK_CONFLICT) == |set k: nat | k < |files| && files[k].classification.POTENTIAL_CONFLICT?|
    ensures CountOf(files, BLOCK_UNREADABLE) == |set k: nat | k < |files| && files[k].classification.UNREADABLE?|
    ensures CountOf(files, SKIP_UNSUPPORTED) == |set k: nat | k < |files| && files[k].classification.UNSUPPORTED?|
    ensures CountOf(files, LINK_NEW_OBJECT_SAME_JOB) + CountOf(files, COPY_VERIFY_OBJECT_AND_LINK)
            == |set k: nat | k < |files| && files[k].classification.NEW?|
  {
    CountsAreIndices(files, LINK_EXISTING_VERIFIED_OBJECT);
    assert With(files, LINK_EXISTING_VERIFIED_OBJECT) == set k: nat | k < |files| && files[k].classification.ALREADY_BACKED_UP?;
    CountsAreIndices(files, BLOCK_CONFLICT);
    assert With(files, BLOCK_CONFLICT) == set k: nat | k < |files| && files[k].classification.POTENTIAL_CONFLICT?;
    CountsAreIndices(files, BLOCK_UNREADABLE);
    assert With(files, BLOCK_UNREADABLE) == set k: nat | k < |files| && files[k].classification.UNREADABLE?;
    CountsAreIndices(files, SKIP_UNSUPPORTED);
    assert With(files, SKIP_UNSUPPORTED) == set k: nat | k < |files| && files[k].classification.UNSUPPORTED?;
    CountsAreIndices(files, LINK_NEW_OBJECT_SAME_JOB);
    CountsAreIndices(files, COPY_VERIFY_OBJECT_AND_LINK);
    var links, copies := With(files, LINK_NEW_OBJECT_SAME_JOB), With(files, COPY_VERIFY_OBJECT_AND_LINK);
    assert links * copies == {};
    assert links + copies == set k: nat | k < |files| && files[k].classification.NEW?;
  }

  lemma BlocksIff(items: seq<ClassifiedFile>, p: Plan)
    requires IsPlan(items, p)
    ensures p.blocked <==> exists f <- items :: f.classification.UNREADABLE? || f.classification.POTENTIAL_CONFLICT?
  {
    var sorted := SortBy(PathOf, items);
    SortSorts(PathOf, items);
    SameElements(sorted, items);
    SomeBlocksIff(sorted, p.files);
  }

  lemma SomeBlocksIff(sorted: seq<ClassifiedFile>, files: seq<PlannedFile>)
    requires files == PlannedFiles(sorted)
    ensures (exists f <- files :: Blocks(f)) <==> exists f <- sorted :: f.classification.UNREADABLE? || f.classification.POTENTIAL_CONFLICT?
  {
    if f :| f in sorted && (f.classification.UNREADABLE? || f.classification.POTENTIAL_CONFLICT?) {
      var k :| 0 <= k < |sorted| && sorted[k] == f;
      ActionIff(sorted, k);
      assert files[k] in files;
    }
    if b :| b in files && Blocks(b) {
      var k :| 0 <= k < |files| && files[k] == b;
      ActionIff(sorted, k);
      assert sorted[k] in sorted;
    }
  }

  /** One file more is listed exactly if it is a conflict or unreadable. */
  lemma BlockedPathsNext(files: seq<PlannedFile>, f: PlannedFile)
    ensures BlockedPaths([f]) == if f.action.BLOCK_CONFLICT? || f.action.BLOCK_UNREADABLE? then [f.rel] else []
    ensures BlockedPaths(files + [f]) == BlockedPaths(files) + BlockedPaths([f])
  {
    assert (files + [f])[..|files|] == files && [f][..0] == [];
  }

  /** Where paths differ, the plan does not depend on the order in which the scan found them. */
  lemma PlanIsOrderIndependent(items: seq<ClassifiedFile>, others: seq<ClassifiedFile>, p: Plan, q: Plan)
    requires DistinctBy(PathOf, items) && multiset(items) == multiset(others)
    requires IsPlan(items, p) && IsPlan(others, q)
    ensures p == q
  {
    SortIsCanonical(PathOf, items, others);
    SameElements(items, others);
    assert NewIdentities(items) == NewIdentities(others);
    var ids := NewIdentities(items);
    if ids != {} {
      var a :| a in ids && a.size == p.largestNewObjectBytes;
      var b :| b in ids && b.size == q.largestNewObjectBytes;
    }
  }

  predicate Copies(f: PlannedFile, id: ContentIdentity) {
    f.action.COPY_VERIFY_OBJECT_AND_LINK? && f.identity == Some(id)
  }

  predicate LinksWithin(f: PlannedFile, id: ContentIdentity) {
    f.action.LINK_NEW_OBJECT_SAME_JOB? && f.identity == Some(id)
  }

  /** Each new identity is copied exactly once, and before every same-job link to it. */
  lemma OneCopyPerIdentity(items: seq<ClassifiedFile>, p: Plan, id: ContentIdentity) returns (k: nat)
    requires WellClassified(items) && IsPlan(items, p) && id in NewIdentities(items)
    ensures k < |p.files| && Copies(p.files[k], id)
    ensures forall j | 0 <= j < |p.files| && j != k :: !Copies(p.files[j], id)
    ensures forall j | 0 <= j < |p.files| && LinksWithin(p.files[j], id) :: k < j
  {
    var sorted := SortBy(PathOf, items);
    var i := FirstIndexed(items, id);
    k := FirstNew(sorted, id, i);
    FirstIsCopied(sorted, id, k);
  }

  lemma FirstIndexed(items: seq<ClassifiedFile>, id: ContentIdentity) returns (i: nat)
    requires id in NewIdentities(items)
    ensures i < |SortBy(PathOf, items)| && IsNew(SortBy(PathOf, items)[i], Some(id))
  {
    var sorted := SortBy(PathOf, items);
    SortSorts(PathOf, items);
    SameElements(sorted, items);
    var f :| f in items && f.classification.NEW? && f.identity.Some? && f.identity.value == id;
    assert f in sorted;
    i :| 0 <= i < |sorted| && sorted[i] == f;
  }

  lemma FirstIsCopied(sorted: seq<ClassifiedFile>, id: ContentIdentity, k: nat)
    requires k < |sorted| && IsNew(sorted[k], Some(id)) && forall j | 0 <= j < k :: !IsNew(sorted[j], Some(id))
    ensures Copies(PlannedAt(sorted, k), id)
    ensures forall j | 0 <= j < |sorted| && j != k :: !Copies(PlannedAt(sorted, j), id)
    ensures forall j | 0 <= j < |sorted| && LinksWithin(PlannedAt(sorted, j), id) :: k < j
  {
  }

  lemma FirstNew(sorted: seq<ClassifiedFile>, id: ContentIdentity, i: nat) returns (k: nat)
    requires i < |sorted| && IsNew(sorted[i], Some(id))
    ensures k <= i && IsNew(sorted[k], Some(id)) && forall j | 0 <= j < k :: !IsNew(sorted[j], Some(id))
  {
    if j :| 0 <= j < i && IsNew(sorted[j], Some(id)) {
      k := FirstNew(sorted, id, j);
    } else {
      k := i;
    }
  }
}
