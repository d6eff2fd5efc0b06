/** The engine: one job from preflight to its final state, and the states it passes through. */
module Engine {
  import opened Wrappers
  import opened Identity
  import opened FileSystem
  import opened Manifest
  import opened JobIds
  import opened Protocol
  import opened Runs
  import opened Machines
  import opened Repository
  import opened Copier
  import opened Sorting
  import opened Capacity
  import opened Planner
  import opened Preflight
  import opened Runner
  import opened Jobs
  import opened StateMachine

  /** What the surroundings contribute to one backup. */
  datatype Request = Request(
    day: Day,
    name: string,
    inputs: seq<ClassificationInput>,
    usage: DiskUsage,
    clockTrusted: bool,
    feeds: nat -> Feeds,
    cancelled: nat -> bool)

  /** How an engine is configured. */
  datatype Settings = Settings(policy: Policy, retries: int, chunkBytes: int)

  datatype EngineResult = EngineResult(
    state: BackupState,
    preflightOutcome: PreflightOutcome,
    preflight: PreflightResult,
    job: Option<JobRunResult>,
    jobId: Option<string>)

  datatype EngineEnd =
    | Ended(result: EngineResult)
    | RaisedInvalidTransition
    | RaisedArgumentError(error: ArgumentError)

  const PREFLIGHT_CHAIN := [
    SOURCE_DETECTED, SOURCE_MOUNTING, SOURCE_READY,
    PREFLIGHT_SCANNING, PREFLIGHT_HASHING, PREFLIGHT_COMPARING, PREFLIGHT_CAPACITY_CHECK]

  function StateOf(outcome: JobOutcome): BackupState {
    match outcome
    case COMPLETED => BACKUP_COMPLETED
    case COMPLETED_WITH_WARNINGS => BACKUP_COMPLETED_WITH_WARNINGS
    case CANCELLED => BACKUP_CANCELLED
    case FAILED => BACKUP_FAILED
  }

  function ReadyState(outcome: PreflightOutcome): BackupState {
    if outcome.WARNING? then PREFLIGHT_WARNING else PREFLIGHT_READY
  }

  /** The states a job passes through once it is queued, up to where it comes to rest. */
  function Course(outcome: JobOutcome): seq<BackupState> {
    match outcome
    case COMPLETED => [BACKUP_COPYING, BACKUP_VERIFYING, BACKUP_COMPLETED, SOURCE_SAFE_TO_REMOVE]
    case COMPLETED_WITH_WARNINGS => [BACKUP_COPYING, BACKUP_VERIFYING, BACKUP_COMPLETED_WITH_WARNINGS, SOURCE_SAFE_TO_REMOVE]
    case CANCELLED => [BACKUP_COPYING, BACKUP_CANCELLING, BACKUP_CANCELLED, SOURCE_SAFE_TO_REMOVE]
    case FAILED => [BACKUP_COPYING, BACKUP_VERIFYING, BACKUP_FAILED]
  }

  /** The states a backup passes through, by its end. */
  function Itinerary(e: EngineResult): seq<BackupState> {
    if e.job.None? then PREFLIGHT_CHAIN + [PREFLIGHT_BLOCKED]
    else PREFLIGHT_CHAIN + [ReadyState(e.preflightOutcome), BACKUP_QUEUED] + Course(e.job.value.outcome)
  }

  /**
   Which states a backup passes through, by what became of it. Whatever comes of it, it goes
   through preflight; it is blocked exactly if no job came of it, and warned of exactly if preflight
   warned; a job that runs to its end is verifying and one that is cancelled is cancelling; it
   ends as its outcome says, and rests where the source may be removed unless it failed.
   */
  lemma ItineraryTells(e: EngineResult, s: BackupState)
    ensures s in Itinerary(e) <==>
            match s
            case SOURCE_DETECTED => true
            case SOURCE_MOUNTING => true
            case SOURCE_READY => true
            case PREFLIGHT_SCANNING => true
            case PREFLIGHT_HASHING => true
            case PREFLIGHT_COMPARING => true
            case PREFLIGHT_CAPACITY_CHECK => true
            case PREFLIGHT_BLOCKED => e.job.None?
            case PREFLIGHT_WARNING => e.job.Some? && e.preflightOutcome.WARNING?
            case PREFLIGHT_READY => e.job.Some? && !e.preflightOutcome.WARNING?
            case BACKUP_QUEUED => e.job.Some?
            case BACKUP_COPYING => e.job.Some?
            case BACKUP_VERIFYING => e.job.Some? && !e.job.value.outcome.CANCELLED?
            case BACKUP_CANCELLING => e.job.Some? && e.job.value.outcome.CANCELLED?
            case BACKUP_CANCELLED => e.job.Some? && e.job.value.outcome.CANCELLED?
            case BACKUP_FAILED => e.job.Some? && e.job.value.outcome.FAILED?
            case BACKUP_COMPLETED => e.job.Some? && e.job.value.outcome.COMPLETED?
            case BACKUP_COMPLETED_WITH_WARNINGS => e.job.Some? && e.job.value.outcome.COMPLETED_WITH_WARNINGS?
            case SOURCE_SAFE_TO_REMOVE => e.job.Some? && !e.job.value.outcome.FAILED?
            case _ => false
  {
  }

  /** The state that a job leaves in its row is one that the engine passes through in that backup. */
  lemma RowIsOnTheWay(e: EngineResult)
    requires e.job.Some?
    ensures StateOf(e.job.value.outcome) in Itinerary(e)
  {
    ItineraryTells(e, StateOf(e.job.value.outcome));
  }

  /** The way back to IDLE from a state of rest. */
  function ResetRoute(s: BackupState): Option<seq<BackupState>> {
    match s
    case IDLE => Some([])
    case SOURCE_SAFE_TO_REMOVE => Some([IDLE])
    case PREFLIGHT_BLOCKED => Some([IDLE])
    case BACKUP_FAILED => Some([SOURCE_SAFE_TO_REMOVE, IDLE])
    case BACKUP_CANCELLED => Some([SOURCE_SAFE_TO_REMOVE, IDLE])
    case _ => None
  }

  /** Every time a job was queued, it came from IDLE through the whole of preflight, without a gap. */
  ghost predicate Earned(path: seq<BackupState>) {
    forall i | 0 <= i < |path| && path[i] == BACKUP_QUEUED ::
      && i >= 9 && path[i - 9] == IDLE && path[i - 8..i - 1] == PREFLIGHT_CHAIN
      && (path[i - 1] == PREFLIGHT_READY || path[i - 1] == PREFLIGHT_WARNING)
  }

  lemma EarnedWithout(path: seq<BackupState>, tail: seq<BackupState>)
    requires Earned(path) && BACKUP_QUEUED !in tail
    ensures Earned(path + tail)
  {
    var longer := path + tail;
    assert forall j | |path| <= j < |longer| :: longer[j] in tail;
    forall i | 0 <= i < |longer| && longer[i] == BACKUP_QUEUED
      ensures && i >= 9 && longer[i - 9] == IDLE && longer[i - 8..i - 1] == PREFLIGHT_CHAIN
              && (longer[i - 1] == PREFLIGHT_READY || longer[i - 1] == PREFLIGHT_WARNING)
    {
      assert longer[i - 8..i - 1] == path[i - 8..i - 1];
    }
  }

  lemma EarnedWhenQueued(path: seq<BackupState>, ready: BackupState)
    requires Earned(path) && path != [] && path[|path| - 1] == IDLE
    requires ready == PREFLIGHT_READY || ready == PREFLIGHT_WARNING
    ensures Earned(path + PREFLIGHT_CHAIN + [ready, BACKUP_QUEUED])
  {
    var front := path + PREFLIGHT_CHAIN + [ready];
    var longer := front + [BACKUP_QUEUED];
    assert Earned(front) by {
      EarnedWithout(path, PREFLIGHT_CHAIN + [ready]);
      assert front == path + (PREFLIGHT_CHAIN + [ready]);
    }
    assert longer == path + PREFLIGHT_CHAIN + [ready, BACKUP_QUEUED];
    forall i | 0 <= i < |longer| && longer[i] == BACKUP_QUEUED
      ensures && i >= 9 && longer[i - 9] == IDLE && longer[i - 8..i - 1] == PREFLIGHT_CHAIN
              && (longer[i - 1] == PREFLIGHT_READY || longer[i - 1] == PREFLIGHT_WARNING)
    {
      if i < |front| {
        assert front[i] == BACKUP_QUEUED;
        assert longer[i - 8..i - 1] == front[i - 8..i - 1];
      } else {
        assert longer[i - 8..i - 1] == PREFLIGHT_CHAIN;
        assert longer[i - 9] == path[|path| - 1];
      }
    }
  }

  lemma CourseQueuesNothing(outcome: JobOutcome)
    ensures BACKUP_QUEUED !in Course(outcome)
  {
  }

  /** A backup that starts from IDLE keeps the record of queued jobs earned. */
  lemma ItineraryIsEarned(path: seq<BackupState>, e: EngineResult)
    requires Earned(path) && path != [] && path[|path| - 1] == IDLE
    ensures Earned(path + Itinerary(e))
  {
    if e.job.None? {
      EarnedWithout(path, Itinerary(e));
    } else {
      var ready := ReadyState(e.preflightOutcome);
      EarnedWhenQueued(path, ready);
      var queued := path + PREFLIGHT_CHAIN + [ready, BACKUP_QUEUED];
      CourseQueuesNothing(e.job.value.outcome);
      EarnedWithout(queued, Course(e.job.value.outcome));
      assert queued + Course(e.job.value.outcome) == path + Itinerary(e);
    }
  }

  /** A path of a new job has not been used. */
  lemma NewJobIsFresh(h: Hash, v: World, w: World, job: string, files: seq<PlannedFile>)
    requires Inv(h, v) && job !in v.db.jobs && w.disk == v.disk && w.db.entries == v.db.entries
    ensures StillFresh(w, job, files, 0)
  {
    UseInv(h, v);
  }

  lemma PlanIsExecutable(h: Hash, db: Manifest, inputs: seq<ClassificationInput>, p: Plan)
    requires IsPlan(Classified(db, inputs), p)
    requires AllRealizable(h, inputs)
    ensures forall f <- p.files :: Executable(h, f)
  {
    forall f <- p.files
      ensures Executable(h, f)
    {
      var i := PlanHasInput(db, inputs, p.files, f);
    }
  }

  method CreateRow(m: Machine, repo: ManifestRepository, job: string, session: string, plan: Plan) returns (r: Power<()>)
    requires m.Valid() && repo.m == m && job !in m.db.jobs && NewJob(m.db.jobs.Keys, job, session)
    modifies m
    ensures m.Valid() && old(m.trace) <= m.trace && m.disk == old(m.disk)
    ensures m.db.objects == old(m.db.objects) && m.db.entries == old(m.db.entries)
    ensures r.On? ==> m.db.jobs == old(m.db.jobs)[job := JobRow(BACKUP_COPYING, session, WantedOf(plan.files))]
    ensures r.On? ==> StillFresh(m.W(), job, plan.files, 0)
    ensures r.Cut? ==> m.db.jobs == old(m.db.jobs)
  {
    ghost var v := m.W();
    m.Now();
    r := repo.CreateBackupJob(job, BACKUP_COPYING, session, WantedOf(plan.files));
    NewJobIsFresh(m.hash, v, m.W(), job, plan.files);
  }

  /** Runs the plan of a job whose row was just added to those of `v`. */
  method RunCreated(m: Machine, repo: ManifestRepository, job: string, plan: Plan, feeds: nat -> Feeds,
                    cancelled: nat -> bool, retries: int, chunkBytes: int, ghost v: World)
    returns (r: Power<JobRunResult>, progress: seq<Progress>, ghost vs: seq<Verdict>)
    requires m.Valid() && repo.m == m && chunkBytes > 0 && Quiescent(m.db) && job in m.db.jobs
    requires m.db.objects == v.db.objects && m.disk == v.disk && StillFresh(m.W(), job, plan.files, 0)
    requires !plan.blocked && DistinctPaths(plan.files) && forall f <- plan.files :: Executable(m.hash, f)
    modifies m
    ensures m.Valid() && old(m.trace) <= m.trace && m.db.jobs == old(m.db.jobs)
    ensures r.On? ==>
              && vs == Verdicts(m.hash, ShasOf(v.db.objects), plan.files, feeds, retries, FirstCancelled(cancelled, |plan.files|))
              && r.value == ResultOf(plan, vs) && progress == ProgressOf(plan.files, vs)
              && JobRan(v, m.W(), job, plan, vs)
  {
    ghost var start := m.W();
    var journal := new JobManifestJournal(repo, job);
    var ran: Power<RunEnd>;
    ran, progress, vs := RunJob(m, journal, plan, feeds, cancelled, retries, chunkBytes);
    if ran.Cut? {
      return Cut, progress, vs;
    }
    UnderwayHasRan(v, start, m.W(), m.W(), job, plan, vs);
    return On(ran.value.result), progress, vs;
  }

  /** Writes the outcome of a job into its row. It can only read completed if all it was to save is recorded. */
  method FinishJobRow(m: Machine, repo: ManifestRepository, job: string, plan: Plan, result: JobRunResult,
                      ghost v: World, ghost vs: seq<Verdict>)
    returns (r: Power<()>)
    requires m.Valid() && repo.m == m && job in m.db.jobs && m.db.jobs[job].wanted == WantedOf(plan.files)
    requires m.db.jobs[job].state == BACKUP_COPYING && DistinctPaths(plan.files)
    requires plan.unsupportedCount == CountOf(plan.files, SKIP_UNSUPPORTED)
    requires |vs| <= |plan.files| && result == ResultOf(plan, vs) && JobRan(v, m.W(), job, plan, vs)
    modifies m
    ensures m.Valid() && old(m.trace) <= m.trace
    ensures r.On? ==> JobRan(v, m.W(), job, plan, vs)
    ensures r.On? ==> m.db.jobs == old(m.db.jobs)[job := old(m.db.jobs)[job].(state := StateOf(result.outcome))]
    ensures r.Cut? ==> m.db.jobs == old(m.db.jobs)
  {
    ghost var end := m.W();
    assert Completed(StateOf(result.outcome)) ==> AllRecorded(m.db, job, m.db.jobs[job].wanted) by {
      if Completed(StateOf(result.outcome)) {
        CompletedHasAllRecorded(v, end, job, plan, vs);
      }
    }
    r := repo.FinishBackupJob(job, StateOf(result.outcome));
    if r.On? {
      RanStays(v, end, m.W(), job, plan, vs);
    }
  }

  lemma RanStays(v: World, end: World, w: World, job: string, plan: Plan, vs: seq<Verdict>)
    requires JobRan(v, end, job, plan, vs) && w.db.objects == end.db.objects && w.db.entries == end.db.entries
    requires w.disk == end.disk
    ensures JobRan(v, w, job, plan, vs)
  {
    UseJobRan(v, end, job, plan, vs);
    SameGrowth(v.db, v.db, end.db, w.db, plan.files, vs);
    SameRecords(end.db, w.db, job, plan.files, vs);
    assert JobRanFacts(v, w, job, plan, vs, Unit);
  }

  function Rest(outcome: JobOutcome): BackupState {
    if outcome.FAILED? then BACKUP_FAILED else SOURCE_SAFE_TO_REMOVE
  }

  /** The engine itself never goes to these. */
  predicate Unassisted(route: seq<BackupState>) {
    BACKUP_QUEUED !in route && MULTIPLE_SOURCES_DETECTED !in route && SOURCE_PROTECTION_FAILURE !in route
  }

  lemma ChainIsLegal()
    ensures Legal(PREFLIGHT_CHAIN) && Unassisted(PREFLIGHT_CHAIN) && |PREFLIGHT_CHAIN| == 7
    ensures PREFLIGHT_CHAIN[0] == SOURCE_DETECTED && PREFLIGHT_CHAIN[6] == PREFLIGHT_CAPACITY_CHECK
    ensures [SOURCE_DETECTED] + PREFLIGHT_CHAIN[1..] == PREFLIGHT_CHAIN
  {
  }

  /** The end of a job, once it is copying, in two legs: the row is written between them. */
  function Legs(outcome: JobOutcome): (seq<BackupState>, seq<BackupState>) {
    match outcome
    case CANCELLED => ([], [BACKUP_CANCELLING, BACKUP_CANCELLED, SOURCE_SAFE_TO_REMOVE])
    case FAILED => ([BACKUP_VERIFYING, BACKUP_FAILED], [])
    case _ => ([BACKUP_VERIFYING, StateOf(outcome)], [SOURCE_SAFE_TO_REMOVE])
  }

  lemma LegsAreLegal(outcome: JobOutcome)
    ensures var (first, second) := Legs(outcome);
            && Unassisted(first) && Unassisted(second)
            && Legal([BACKUP_COPYING] + first) && Legal([([BACKUP_COPYING] + first)[|first|]] + second)
            && ([([BACKUP_COPYING] + first)[|first|]] + second)[|second|] == Rest(outcome)
  {
    match outcome
    case COMPLETED =>
    case COMPLETED_WITH_WARNINGS =>
    case CANCELLED =>
    case FAILED =>
  }

  lemma CourseParts(queued: seq<BackupState>, copying: seq<BackupState>, path: seq<BackupState>, outcome: JobOutcome)
    requires copying == queued + [BACKUP_COPYING] && path == copying + Legs(outcome).0 + Legs(outcome).1
    ensures path == queued + Course(outcome)
  {
    match outcome
    case COMPLETED =>
    case COMPLETED_WITH_WARNINGS =>
    case CANCELLED =>
    case FAILED =>
  }

  /** Every way back to IDLE is one the map allows. */
  lemma RouteIsLegal(s: BackupState)
    requires ResetRoute(s).Some?
    ensures forall t <- ResetRoute(s).value :: t == SOURCE_SAFE_TO_REMOVE || t == IDLE
    ensures var route := ResetRoute(s).value;
            Legal([s] + route) && Unassisted(route) && ([s] + route)[|route|] == IDLE
  {
  }

  /** The states of rest, from which alone there is a way back. */
  lemma RestingIff(s: BackupState)
    ensures ResetRoute(s).Some?
            <==> s == IDLE || s == SOURCE_SAFE_TO_REMOVE || s == PREFLIGHT_BLOCKED || s == BACKUP_FAILED || s == BACKUP_CANCELLED
  {
  }

  lemma FinishedRow(jobs: map<string, JobRow>, id: string, row: JobRow, state: BackupState)
    ensures jobs[id := row][id := jobs[id := row][id].(state := state)] == jobs[id := row.(state := state)]
  {
  }

  /** What has to become of the files of a request up to its cancellation. */
  function Played(h: Hash, v: World, request: Request, plan: Plan, retries: int): (vs: seq<Verdict>)
    ensures |vs| == FirstCancelled(request.cancelled, |plan.files|)
  {
    Verdicts(h, ShasOf(v.db.objects), plan.files, request.feeds, retries, FirstCancelled(request.cancelled, |plan.files|))
  }

  /** What a backup that got as far as a job has done to the destination. */
  ghost predicate JobDone(h: Hash, v: World, w: World, request: Request, retries: int, e: EngineResult, vs: seq<Verdict>) {
    var id := NextJobId(v.db.jobs.Keys, request.day);
    var plan := e.preflight.plan;
    && e.jobId == Some(id) && id !in v.db.jobs && !plan.blocked
    && vs == Played(h, v, request, plan, retries) && e.job == Some(ResultOf(plan, vs))
    && JobRan(v, w, id, plan, vs)
    && w.db.jobs == v.db.jobs[id := JobRow(StateOf(e.job.value.outcome), SessionRoot(request.day, id, request.name), WantedOf(plan.files))]
  }

  /** The plan of a preflight that was let through may be run. */
  ghost predicate Runnable(h: Hash, plan: Plan) {
    && !plan.blocked && DistinctPaths(plan.files) && (forall f <- plan.files :: Executable(h, f))
    && plan.unsupportedCount == CountOf(plan.files, SKIP_UNSUPPORTED)
  }

  lemma PreflightIsRunnable(h: Hash, db: Manifest, inputs: seq<ClassificationInput>, usage: DiskUsage, policy: Policy,
                            r: PreflightResult)
    requires IsPreflight(db, inputs, usage, policy, r) && !r.outcome.BLOCKED? && DistinctBy(InputPath, inputs)
    requires AllRealizable(h, inputs)
    ensures Runnable(h, r.plan)
  {
    PlanHasDistinctPaths(db, inputs, r.plan.files);
    PlanIsExecutable(h, db, inputs, r.plan);
  }

  /** What preflight says of a request. */
  ghost predicate Assessed(db: Manifest, request: Request, policy: Policy, r: PreflightResult) {
    forall u: Unit :: AssessedFacts(db, request, policy, r, u)
  }

  ghost predicate AssessedFacts(db: Manifest, request: Request, policy: Policy, r: PreflightResult, u: Unit) {
    IsPreflight(db, request.inputs, request.usage, policy, r)
  }

  lemma UseAssessed(db: Manifest, request: Request, policy: Policy, r: PreflightResult)
    requires Assessed(db, request, policy, r)
    ensures IsPreflight(db, request.inputs, request.usage, policy, r)
  {
    assert AssessedFacts(db, request, policy, r, Unit);
  }

  lemma MakeAssessed(db: Manifest, request: Request, policy: Policy, r: PreflightResult)
    requires IsPreflight(db, request.inputs, request.usage, policy, r)
    ensures Assessed(db, request, policy, r)
  {
  }

  lemma AssessedIsRunnable(h: Hash, db: Manifest, request: Request, policy: Policy, r: PreflightResult)
    requires Assessed(db, request, policy, r) && !r.outcome.BLOCKED? && DistinctBy(InputPath, request.inputs)
    requires AllRealizable(h, request.inputs)
    ensures Runnable(h, r.plan)
  {
    UseAssessed(db, request, policy, r);
    PreflightIsRunnable(h, db, request.inputs, request.usage, policy, r);
  }

  lemma ItineraryParts(path: seq<BackupState>, e: EngineResult)
    requires e.job.Some?
    ensures path + PREFLIGHT_CHAIN + [ReadyState(e.preflightOutcome), BACKUP_QUEUED] + Course(e.job.value.outcome) == path + Itinerary(e)
    ensures ResetRoute(Rest(e.job.value.outcome)).Some?
  {
  }

  /**
   What a backup that has ended did between `v` and `w`: nothing if it was not let through; and
   otherwise a job of its own, which dealt with the plan of its preflight.
   */
  ghost predicate BackupEnded(h: Hash, v: World, w: World, request: Request, settings: Settings, e: EngineResult,
                              vs: seq<Verdict>, progress: seq<Progress>)
  {
    forall u: Unit :: BackupEndedFacts(h, v, w, request, settings, e, vs, progress, u)
  }

  ghost predicate BackupEndedFacts(h: Hash, v: World, w: World, request: Request, settings: Settings, e: EngineResult,
                                   vs: seq<Verdict>, progress: seq<Progress>, u: Unit)
  {
    && Assessed(v.db, request, settings.policy, e.preflight)
    && (e.job.None? <==> e.preflight.outcome.BLOCKED? || !request.clockTrusted)
    && (if e.job.None? then w == v && e.jobId.None? && e.preflightOutcome.BLOCKED?
        else e.preflightOutcome == e.preflight.outcome && JobDone(h, v, w, request, settings.retries, e, vs)
             && |vs| <= |e.preflight.plan.files| && progress == ProgressOf(e.preflight.plan.files, vs))
  }

  lemma UseEnded(h: Hash, v: World, w: World, request: Request, settings: Settings, e: EngineResult, vs: seq<Verdict>,
                 progress: seq<Progress>)
    requires BackupEnded(h, v, w, request, settings, e, vs, progress)
    ensures BackupEndedFacts(h, v, w, request, settings, e, vs, progress, Unit)
  {
  }

  lemma MakeEnded(h: Hash, v: World, w: World, request: Request, settings: Settings, e: EngineResult, vs: seq<Verdict>,
                  progress: seq<Progress>)
    requires BackupEndedFacts(h, v, w, request, settings, e, vs, progress, Unit)
    ensures BackupEnded(h, v, w, request, settings, e, vs, progress)
  {
  }

  /** A backup that the power cuts short leaves no row, or one of its own that reads copying. */
  predicate CutOff(before: map<string, JobRow>, after: map<string, JobRow>, id: string) {
    after == before || (id in after && after[id].state == BACKUP_COPYING && after == before[id := after[id]])
  }

  lemma EndLeavesRow(h: Hash, v: World, w: World, request: Request, settings: Settings, e: EngineResult, vs: seq<Verdict>,
                     progress: seq<Progress>)
    requires BackupEnded(h, v, w, request, settings, e, vs, progress)
    ensures e.job.Some? ==> e.jobId.Some? && e.jobId.value in w.db.jobs && w.db.jobs[e.jobId.value].state in Itinerary(e)
  {
    UseEnded(h, v, w, request, settings, e, vs, progress);
    if e.job.Some? {
      RowIsOnTheWay(e);
    }
  }

  lemma CopyingIsCutOff(before: map<string, JobRow>, id: string, row: JobRow)
    requires row.state == BACKUP_COPYING
    ensures CutOff(before, before[id := row], id)
  {
  }

  class BackupEngine {
    const m: Machine
    const repo: ManifestRepository
    const sm: JobStateMachine
    const settings: Settings

    /** Whatever happens, every job that was ever queued earned it. */
    ghost predicate Valid()
      reads this, m, sm
    {
      && repo.m == m && m.Valid() && sm.Valid() && Earned(sm.visited) && settings.chunkBytes > 0
      && sm.state != MULTIPLE_SOURCES_DETECTED && sm.state != SOURCE_PROTECTION_FAILURE
    }

    constructor (m: Machine, settings: Settings)
      requires m.Valid() && settings.chunkBytes > 0
      ensures Valid() && this.m == m && this.settings == settings
      ensures fresh(sm) && sm.state == IDLE && sm.visited == [IDLE]
    {
      this.m := m;
      this.settings := settings;
      repo := new ManifestRepository(m);
      sm := new JobStateMachine(IDLE);
    }

    method GenerateJobId(day: Day) returns (id: string)
      requires Valid()
      ensures id == NextJobId(m.db.jobs.Keys, day) && id !in m.db.jobs
    {
      var n := repo.CountJobsForDate(day);
      id := JobId(day, n + 1);
      m.JobsAreNamed();
      NextIdIsFresh(m.db.jobs.Keys, day);
    }

    /** Goes through states that the map allows in this order. */
    method Follow(route: seq<BackupState>)
      requires Valid() && Legal([sm.state] + route) && Unassisted(route)
      modifies sm
      ensures Valid() && sm.visited == old(sm.visited) + route
      ensures sm.state == ([old(sm.state)] + route)[|route|]
    {
      ghost var path := sm.visited;
      ghost var whole := [sm.state] + route;
      var k := 0;
      while k < |route|
        invariant 0 <= k <= |route|
        invariant sm.Valid() && m.Valid() && repo.m == m && settings.chunkBytes > 0
        invariant sm.visited == path + route[..k] && sm.state == whole[k]
      {
        assert CanTransition(whole[k], whole[k + 1]);
        var entered := sm.Transition(route[k]);
        k := k + 1;
      }
      assert route[..k] == route && whole[|route|] in whole;
      EarnedWithout(path, route);
    }

    /** Goes through the states of preflight; false if the first transition is rejected. */
    method EnterPreflight() returns (entered: bool)
      requires Valid()
      modifies sm
      ensures Valid()
      ensures entered == (old(sm.state) == IDLE)
      ensures sm.visited == if entered then old(sm.visited) + PREFLIGHT_CHAIN else old(sm.visited)
      ensures sm.state == if entered then PREFLIGHT_CAPACITY_CHECK else old(sm.state)
    {
      ghost var path := sm.visited;
      entered := Detect();
      if entered {
        ChainIsLegal();
        Follow(PREFLIGHT_CHAIN[1..]);
        assert sm.visited == path + ([SOURCE_DETECTED] + PREFLIGHT_CHAIN[1..]);
      }
    }

    /** The first transition, which only an idle engine accepts. */
    method Detect() returns (entered: bool)
      requires Valid()
      modifies sm
      ensures Valid()
      ensures entered == (old(sm.state) == IDLE)
      ensures sm.visited == if entered then old(sm.visited) + [SOURCE_DETECTED] else old(sm.visited)
      ensures sm.state == if entered then SOURCE_DETECTED else old(sm.state)
    {
      ghost var path := sm.visited;
      var first := sm.Transition(SOURCE_DETECTED);
      EarnedWithout(path, [SOURCE_DETECTED]);
      return first.Success?;
    }

    /** From the end of a preflight that came from IDLE to the copying state. */
    method EnterQueue(ready: BackupState, ghost path: seq<BackupState>)
      requires Valid() && sm.state == PREFLIGHT_CAPACITY_CHECK && (ready == PREFLIGHT_READY || ready == PREFLIGHT_WARNING)
      requires Earned(path) && path != [] && path[|path| - 1] == IDLE && sm.visited == path + PREFLIGHT_CHAIN
      modifies sm
      ensures Valid() && sm.state == BACKUP_QUEUED
      ensures sm.visited == path + PREFLIGHT_CHAIN + [ready, BACKUP_QUEUED]
    {
      Follow([ready]);
      var queued := sm.Transition(BACKUP_QUEUED);
      EarnedWhenQueued(path, ready);
      assert sm.visited == path + PREFLIGHT_CHAIN + [ready, BACKUP_QUEUED];
    }

    /** Goes back to IDLE, where there is a way. */
    method Reset() returns (r: Result<(), BackupState>)
      requires Valid()
      modifies sm
      ensures Valid()
      ensures r.Success? <==> ResetRoute(old(sm.state)).Some?
      ensures r.Success? ==> sm.state == IDLE && sm.visited == old(sm.visited) + ResetRoute(old(sm.state)).value
      ensures r.Failure? ==> r.error == old(sm.state) == sm.state && sm.visited == old(sm.visited)
    {
      var route := ResetRoute(sm.state);
      if route.None? {
        return Failure(sm.state);
      }
      RouteIsLegal(sm.state);
      Follow(route.value);
      return Success(());
    }

    /** Runs a job that has just been queued, and takes it to where it comes to rest. */
    method RunQueued(request: Request, plan: Plan, id: string, session: string)
      returns (r: Power<JobRunResult>, progress: seq<Progress>, ghost vs: seq<Verdict>)
      requires Valid() && Quiescent(m.db) && sm.state == BACKUP_QUEUED && Runnable(m.hash, plan)
      requires id !in m.db.jobs && NewJob(m.db.jobs.Keys, id, session)
      modifies m, sm
      ensures Valid() && old(m.trace) <= m.trace
      ensures r.Cut? ==> CutOff(old(m.db.jobs), m.db.jobs, id)
      ensures r.On? ==>
                && vs == Played(m.hash, old(m.W()), request, plan, settings.retries)
                && r.value == ResultOf(plan, vs) && progress == ProgressOf(plan.files, vs)
                && JobRan(old(m.W()), m.W(), id, plan, vs)
                && m.db.jobs == old(m.db.jobs)[id := JobRow(StateOf(r.value.outcome), session, WantedOf(plan.files))]
                && sm.visited == old(sm.visited) + Course(r.value.outcome) && sm.state == Rest(r.value.outcome)
    {
      ghost var v, queued := m.W(), sm.visited;
      progress, vs := [], [];
      var begun := BeginJob(plan, id, session);
      if begun.Cut? {
        return Cut, progress, vs;
      }
      ghost var copying := sm.visited;
      CopyingIsCutOff(v.db.jobs, id, m.db.jobs[id]);
      r, progress, vs := RunBegun(request, plan, id, v);
      if r.On? {
        CourseParts(queued, copying, sm.visited, r.value.outcome);
        FinishedRow(v.db.jobs, id, JobRow(BACKUP_COPYING, session, WantedOf(plan.files)), StateOf(r.value.outcome));
      }
    }

    /** Runs a job whose row was just added to those of `v`, and writes its outcome into it. */
    method RunBegun(request: Request, plan: Plan, id: string, ghost v: World)
      returns (r: Power<JobRunResult>, progress: seq<Progress>, ghost vs: seq<Verdict>)
      requires Valid() && Quiescent(m.db) && sm.state == BACKUP_COPYING && Runnable(m.hash, plan)
      requires id in m.db.jobs && m.db.jobs[id].wanted == WantedOf(plan.files) && m.db.jobs[id].state == BACKUP_COPYING
      requires m.db.objects == v.db.objects && m.disk == v.disk && StillFresh(m.W(), id, plan.files, 0)
      modifies m, sm
      ensures Valid() && old(m.trace) <= m.trace
      ensures r.Cut? ==> m.db.jobs == old(m.db.jobs)
      ensures r.On? ==>
                && vs == Played(m.hash, v, request, plan, settings.retries)
                && r.value == ResultOf(plan, vs) && progress == ProgressOf(plan.files, vs)
                && JobRan(v, m.W(), id, plan, vs)
                && m.db.jobs == old(m.db.jobs)[id := old(m.db.jobs)[id].(state := StateOf(r.value.outcome))]
                && sm.visited == old(sm.visited) + Legs(r.value.outcome).0 + Legs(r.value.outcome).1
                && sm.state == Rest(r.value.outcome)
    {
      r, progress, vs := RunCreated(m, repo, id, plan, request.feeds, request.cancelled, settings.retries, settings.chunkBytes, v);
      if r.Cut? {
        return;
      }
      var finished := FinishJob(id, plan, r.value, v, vs);
      if finished.Cut? {
        return Cut, progress, vs;
      }
    }

    /** Records a queued job, and starts copying. */
    method BeginJob(plan: Plan, id: string, session: string) returns (r: Power<()>)
      requires Valid() && sm.state == BACKUP_QUEUED && id !in m.db.jobs && NewJob(m.db.jobs.Keys, id, session)
      modifies m, sm
      ensures Valid() && old(m.trace) <= m.trace
      ensures m.db.objects == old(m.db.objects) && m.disk == old(m.disk)
      ensures r.On? ==> m.db.jobs == old(m.db.jobs)[id := JobRow(BACKUP_COPYING, session, WantedOf(plan.files))]
      ensures r.Cut? ==> m.db.jobs == old(m.db.jobs)
      ensures r.On? ==> StillFresh(m.W(), id, plan.files, 0)
      ensures r.On? ==> sm.state == BACKUP_COPYING && sm.visited == old(sm.visited) + [BACKUP_COPYING]
    {
      var _ :- CreateRow(m, repo, id, session, plan);
      Follow([BACKUP_COPYING]);
      return On(());
    }

    /** Takes a job that has been run to its final states, and writes its outcome into its row on the way. */
    method FinishJob(id: string, plan: Plan, result: JobRunResult, ghost v: World, ghost vs: seq<Verdict>)
      returns (r: Power<()>)
      requires Valid() && sm.state == BACKUP_COPYING && Runnable(m.hash, plan)
      requires id in m.db.jobs && m.db.jobs[id].wanted == WantedOf(plan.files) && m.db.jobs[id].state == BACKUP_COPYING
      requires |vs| <= |plan.files| && result == ResultOf(plan, vs) && JobRan(v, m.W(), id, plan, vs)
      modifies m, sm
      ensures Valid() && old(m.trace) <= m.trace
      ensures r.Cut? ==> m.db.jobs == old(m.db.jobs)
      ensures r.On? ==>
                && JobRan(v, m.W(), id, plan, vs)
                && m.db.jobs == old(m.db.jobs)[id := old(m.db.jobs)[id].(state := StateOf(result.outcome))]
                && sm.visited == old(sm.visited) + Legs(result.outcome).0 + Legs(result.outcome).1
                && sm.state == Rest(result.outcome)
    {
      var (first, second) := Legs(result.outcome);
      LegsAreLegal(result.outcome);
      Follow(first);
      var _ :- FinishJobRow(m, repo, id, plan, result, v, vs);
      Follow(second);
      return On(());
    }

    /** Goes through preflight up to its verdict; no job row is made, and nothing is copied. */
    method AssessSource(request: Request) returns (r: Result<PreflightResult, EngineEnd>)
      requires Valid() && DistinctBy(InputPath, request.inputs)
      modifies sm
      ensures Valid()
      ensures r.Success? ==>
                && Assessed(m.db, request, settings.policy, r.value) && old(sm.state) == IDLE
                && sm.state == PREFLIGHT_CAPACITY_CHECK && sm.visited == old(sm.visited) + PREFLIGHT_CHAIN
      ensures r.Failure? ==>
                if old(sm.state) != IDLE then
                  r.error == RaisedInvalidTransition && sm.state == old(sm.state) && sm.visited == old(sm.visited)
                else r.error.RaisedArgumentError? && sm.state == PREFLIGHT_CAPACITY_CHECK
      ensures r.Success? <==> old(sm.state) == IDLE && Assessable(request.usage, settings.policy)
    {
      var entered := EnterPreflight();
      if !entered {
        return Failure(RaisedInvalidTransition);
      }
      var preflight := RunPreflight(repo, request.inputs, request.usage, settings.policy);
      if preflight.Failure? {
        return Failure(RaisedArgumentError(preflight.error));
      }
      MakeAssessed(m.db, request, settings.policy, preflight.value);
      return Success(preflight.value);
    }

    /**
     Runs a full preflight and, if it is let through and the clock is trusted, the backup. Only an
     idle engine starts one. A blocked one makes no job row and touches nothing; any other is a job
     with the next id of its day, whose row says what became of it. Either way the engine passes
     through the states of its itinerary, none of which the map rejects, and can be reset.
     */
    method RunBackup(request: Request)
      returns (r: Power<EngineEnd>, progress: seq<Progress>, ghost vs: seq<Verdict>)
      requires Valid() && Quiescent(m.db) && DistinctBy(InputPath, request.inputs)
      requires AllRealizable(m.hash, request.inputs)
      modifies m, sm
      ensures Valid() && old(m.trace) <= m.trace
      ensures r.Cut? ==> CutOff(old(m.db.jobs), m.db.jobs, NextJobId(old(m.db.jobs).Keys, request.day))
      ensures r.On? ==> Quiescent(m.db)
      ensures r.On? ==> (r.value.RaisedInvalidTransition? <==> old(sm.state) != IDLE)
      ensures r.On? ==> (r.value.Ended? <==> old(sm.state) == IDLE && Assessable(request.usage, settings.policy))
      ensures r.On? && !r.value.Ended? ==> m.W() == old(m.W())
      ensures r.On? && r.value.RaisedInvalidTransition? ==> sm.state == old(sm.state) && sm.visited == old(sm.visited)
      ensures r.On? && r.value.RaisedArgumentError? ==> ResetRoute(sm.state).None?
      ensures r.On? && r.value.Ended? ==>
                && BackupEnded(m.hash, old(m.W()), m.W(), request, settings, r.value.result, vs, progress)
                && sm.visited == old(sm.visited) + Itinerary(r.value.result)
                && sm.state == r.value.result.state && ResetRoute(sm.state).Some?
      ensures r.On? && r.value.Ended? && r.value.result.job.Some? ==>
                && r.value.result.jobId.Some? && r.value.result.jobId.value in m.db.jobs
                && m.db.jobs[r.value.result.jobId.value].state in sm.visited[|old(sm.visited)|..]
    {
      progress, vs := [], [];
      var assessed := AssessSource(request);
      if assessed.Failure? {
        return On(assessed.error), progress, vs;
      }
      if assessed.value.outcome.BLOCKED? || !request.clockTrusted {
        var blocked := Block(request, assessed.value, old(sm.visited));
        return On(Ended(blocked)), progress, vs;
      }
      var ran: Power<EngineResult>;
      ran, progress, vs := RunReady(request, assessed.value, old(sm.visited));
      if ran.Cut? {
        return Cut, progress, vs;
      }
      EndLeavesRow(m.hash, old(m.W()), m.W(), request, settings, ran.value, vs, progress);
      return On(Ended(ran.value)), progress, vs;
    }

    /** The end of a backup that is not let through. */
    method Block(request: Request, preflight: PreflightResult, ghost path: seq<BackupState>) returns (e: EngineResult)
      requires Valid() && sm.state == PREFLIGHT_CAPACITY_CHECK && Assessed(m.db, request, settings.policy, preflight)
      requires preflight.outcome.BLOCKED? || !request.clockTrusted
      requires sm.visited == path + PREFLIGHT_CHAIN
      modifies sm
      ensures Valid() && BackupEnded(m.hash, m.W(), m.W(), request, settings, e, [], []) && e.job.None?
      ensures sm.visited == path + Itinerary(e) && sm.state == e.state && ResetRoute(sm.state).Some?
    {
      Follow([PREFLIGHT_BLOCKED]);
      e := EngineResult(sm.state, BLOCKED, preflight, None, None);
      MakeEnded(m.hash, m.W(), m.W(), request, settings, e, [], []);
      assert path + PREFLIGHT_CHAIN + [PREFLIGHT_BLOCKED] == path + Itinerary(e);
    }

    /** The rest of a backup that is let through. */
    method RunReady(request: Request, preflight: PreflightResult, ghost path: seq<BackupState>)
      returns (r: Power<EngineResult>, progress: seq<Progress>, ghost vs: seq<Verdict>)
      requires Valid() && Quiescent(m.db) && sm.state == PREFLIGHT_CAPACITY_CHECK && DistinctBy(InputPath, request.inputs)
      requires AllRealizable(m.hash, request.inputs)
      requires Assessed(m.db, request, settings.policy, preflight) && !preflight.outcome.BLOCKED? && request.clockTrusted
      requires Earned(path) && path != [] && path[|path| - 1] == IDLE && sm.visited == path + PREFLIGHT_CHAIN
      modifies m, sm
      ensures Valid() && old(m.trace) <= m.trace
      ensures r.Cut? ==> CutOff(old(m.db.jobs), m.db.jobs, NextJobId(old(m.db.jobs).Keys, request.day))
      ensures r.On? ==> BackupEnded(m.hash, old(m.W()), m.W(), request, settings, r.value, vs, progress) && Quiescent(m.db)
      ensures r.On? ==> sm.visited == path + Itinerary(r.value) && sm.state == r.value.state && ResetRoute(sm.state).Some?
    {
      ghost var v := m.W();
      AssessedIsRunnable(m.hash, m.db, request, settings.policy, preflight);
      var id := GenerateJobId(request.day);
      EnterQueue(ReadyState(preflight.outcome), path);
      var job: Power<JobRunResult>;
      job, progress, vs := RunNewJob(request, preflight.plan, id);
      if job.Cut? {
        return Cut, progress, vs;
      }
      var e := EngineResult(sm.state, preflight.outcome, preflight, Some(job.value), Some(id));
      MakeEnded(m.hash, v, m.W(), request, settings, e, vs, progress);
      assert Quiescent(m.db) by {
        UseJobRan(v, m.W(), id, preflight.plan, vs);
      }
      ItineraryParts(path, e);
      return On(e), progress, vs;
    }

    /** Runs a queued job under the next id of its day. */
    method RunNewJob(request: Request, plan: Plan, id: string)
      returns (r: Power<JobRunResult>, progress: seq<Progress>, ghost vs: seq<Verdict>)
      requires Valid() && Quiescent(m.db) && sm.state == BACKUP_QUEUED && Runnable(m.hash, plan)
      requires id == NextJobId(m.db.jobs.Keys, request.day) && id !in m.db.jobs
      modifies m, sm
      ensures Valid() && old(m.trace) <= m.trace
      ensures r.Cut? ==> CutOff(old(m.db.jobs), m.db.jobs, id)
      ensures r.On? ==>
                && vs == Played(m.hash, old(m.W()), request, plan, settings.retries)
                && r.value == ResultOf(plan, vs) && progress == ProgressOf(plan.files, vs)
                && JobRan(old(m.W()), m.W(), id, plan, vs)
                && m.db.jobs == old(m.db.jobs)[id :=
                     JobRow(StateOf(r.value.outcome), SessionRoot(request.day, id, request.name), WantedOf(plan.files))]
                && sm.visited == old(sm.visited) + Course(r.value.outcome) && sm.state == Rest(r.value.outcome)
    {
      MakeNewJob(m.db.jobs.Keys, request.day, request.name);
      r, progress, vs := RunQueued(request, plan, id, SessionRoot(request.day, id, request.name));
    }
  }
}
