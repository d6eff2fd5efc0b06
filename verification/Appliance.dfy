/** One power-on of the appliance: recovery first, then one backup after another until the power goes. */
module Appliance {
  import opened Wrappers
  import opened Identity
  import opened FileSystem
  import opened Manifest
  import opened JobIds
  import opened Protocol
  import opened Runs
  import opened Machines
  import opened Repository
  import opened Recovery
  import opened Sorting
  import opened Capacity
  import opened Planner
  import opened Preflight
  import opened Runner
  import opened Engine
  import opened Service
  import opened Backups

  ghost predicate WellFormed(h: Hash, request: Request) {
    DistinctBy(InputPath, request.inputs) && AllRealizable(h, request.inputs)
  }

  /** The backup was taken, and how it ended is on record in the history. */
  ghost predicate OnHistory(h: Hash, trace: seq<World>, b: Backup) {
    Took(h, b) && exists k :: 0 <= k < |trace| && trace[k] == b.after
  }

  lemma LongerHistory(h: Hash, trace: seq<World>, longer: seq<World>, b: Backup)
    requires trace <= longer && OnHistory(h, trace, b)
    ensures OnHistory(h, longer, b)
  {
    var k :| 0 <= k < |trace| && trace[k] == b.after;
    assert longer[k] == b.after;
  }

  lemma LatestIsOnHistory(m: Machine, b: Backup)
    requires m.Valid() && Took(m.hash, b) && b.after == m.W()
    ensures OnHistory(m.hash, m.trace, b)
  {
    UseHistory(m.hash, m.trace, m.W());
    assert m.trace[|m.trace| - 1] == b.after;
  }

  /** Runs a backup that has been started; it is on record exactly if it ended, which only its arguments can prevent. */
  method RunStarted(m: Machine, service: BackupService, request: Request) returns (r: Power<()>, ghost taken: Option<Backup>)
    requires service.Valid() && service.engine.m == m && service.running && Quiescent(m.db) && WellFormed(m.hash, request)
    modifies m, service, service.engine.sm
    ensures m.Valid() && old(m.trace) <= m.trace
    ensures r.On? ==> service.Valid() && !service.running && Quiescent(m.db)
    ensures r.Cut? ==> CutOff(old(m.db.jobs), m.db.jobs, NextJobId(old(m.db.jobs).Keys, request.day))
    ensures r.On? ==> (taken.Some? <==> Assessable(request.usage, service.engine.settings.policy))
    ensures r.On? && taken.Some? ==>
              && OnHistory(m.hash, m.trace, taken.value) && taken.value.request == request
              && taken.value.before == old(m.W()) && taken.value.after == m.W()
              && ResetRoute(service.engine.sm.state).Some?
  {
    taken := None;
    ghost var v := m.W();
    ghost var vs;
    var end, progress;
    end, progress, vs := service.Work(request);
    if end.Cut? {
      return Cut, None;
    }
    if end.value.Ended? {
      taken := Some(Backup(v, m.W(), request, service.engine.settings, end.value.result, vs, progress));
      LatestIsOnHistory(m, taken.value);
    }
    return On(()), taken;
  }

  /**
   A backup is cut short, the power comes back, and recovery comes to an end however often it is
   interrupted itself. If the job had its row, that row reads RECOVERY_REQUIRED; and no row is
   left that reads copying, verifying or cancelling.
   */
  method CutShort(m: Machine, service: BackupService, request: Request, boots: nat,
                  chunkBytes: int) returns (cut: bool, r: Power<RecoveryReport>)
    requires service.Valid() && service.engine.m == m && service.running && Quiescent(m.db) && WellFormed(m.hash, request)
    requires chunkBytes > 0
    modifies m, service, service.engine.sm
    ensures m.Valid() && old(m.trace) <= m.trace
    ensures cut && r.On? ==>
              var id := NextJobId(old(m.db.jobs).Keys, request.day);
              && (id in m.db.jobs && id !in old(m.db.jobs) ==> m.db.jobs[id].state == RECOVERY_REQUIRED)
              && forall j <- m.db.jobs ::
                   && (j in old(m.db.jobs) || j == id)
                   && m.db.jobs[j].state !in {BACKUP_COPYING, BACKUP_VERIFYING, BACKUP_CANCELLING}
  {
    ghost var before := m.db.jobs;
    var ran;
    ghost var taken;
    ran, taken := RunStarted(m, service, request);
    if ran.On? {
      return false, Cut;
    }
    ghost var after := m.db.jobs;
    ghost var first;
    r, first := BootUntilRecovered(m, boots, chunkBytes);
    if r.On? {
      CutOffIsFlagged(before, after, m.db.jobs, NextJobId(before.Keys, request.day));
    }
    return true, r;
  }

  lemma CutOffIsFlagged(before: map<string, JobRow>, after: map<string, JobRow>, flagged: map<string, JobRow>, id: string)
    requires CutOff(before, after, id) && Flagged(after, flagged)
    ensures id in flagged && id !in before ==> flagged[id].state == RECOVERY_REQUIRED
    ensures forall j <- flagged ::
              (j in before || j == id) && flagged[j].state !in {BACKUP_COPYING, BACKUP_VERIFYING, BACKUP_CANCELLING}
  {
  }

  /** Starts one backup, and runs it if it is accepted, as it is where the engine can be reset. */
  method RunOne(m: Machine, service: BackupService, request: Request) returns (r: Power<()>, ghost taken: Option<Backup>)
    requires service.Valid() && service.engine.m == m && !service.running && Quiescent(m.db) && WellFormed(m.hash, request)
    modifies m, service, service.engine.sm
    ensures m.Valid() && old(m.trace) <= m.trace
    ensures r.On? ==> service.Valid() && !service.running && Quiescent(m.db)
    ensures r.On? ==> (taken.Some? <==> ResetRoute(old(service.engine.sm.state)).Some?
                                        && Assessable(request.usage, service.engine.settings.policy))
    ensures r.On? && taken.Some? ==>
              && OnHistory(m.hash, m.trace, taken.value) && taken.value.request == request
              && taken.value.before == old(m.W()) && taken.value.after == m.W()
              && ResetRoute(service.engine.sm.state).Some?
  {
    var started := service.Start(true);
    if !started.Accepted? {
      return On(()), None;
    }
    r, taken := RunStarted(m, service, request);
  }

  /** The requests make sense to an engine with these settings. */
  ghost predicate AllAssessable(requests: seq<Request>, settings: Settings) {
    forall q <- requests :: Assessable(q.usage, settings.policy)
  }

  /** `backups` are those of the first requests, in order, each on record and each starting where the one before ended. */
  ghost predicate Served(h: Hash, trace: seq<World>, requests: seq<Request>, backups: seq<Backup>) {
    && |backups| <= |requests|
    && (forall i | 0 <= i < |backups| :: OnHistory(h, trace, backups[i]) && backups[i].request == requests[i])
    && (forall i, k | 0 <= i < k < |backups| && k == i + 1 :: backups[k].before == backups[i].after)
  }

  lemma ServedNext(h: Hash, trace: seq<World>, longer: seq<World>, requests: seq<Request>, backups: seq<Backup>, b: Backup)
    requires Served(h, trace, requests, backups) && trace <= longer && |backups| < |requests|
    requires OnHistory(h, longer, b) && b.request == requests[|backups|]
    requires backups != [] ==> b.before == backups[|backups| - 1].after
    ensures Served(h, longer, requests, backups + [b])
  {
    ServedStays(h, trace, longer, requests, backups);
  }

  lemma ServedStays(h: Hash, trace: seq<World>, longer: seq<World>, requests: seq<Request>, backups: seq<Backup>)
    requires Served(h, trace, requests, backups) && trace <= longer
    ensures Served(h, longer, requests, backups)
  {
    forall i | 0 <= i < |backups|
      ensures OnHistory(h, longer, backups[i])
    {
      LongerHistory(h, trace, longer, backups[i]);
    }
  }

  /**
   If the requests make sense, the first `i` of them have been served, the last one ending in `w`,
   and the engine can take the next.
   */
  ghost predicate UpTo(h: Hash, trace: seq<World>, requests: seq<Request>, settings: Settings, backups: seq<Backup>, i: nat,
                       w: World, state: BackupState)
  {
    AllAssessable(requests, settings) ==>
      && Served(h, trace, requests, backups) && |backups| == i
      && (backups != [] ==> backups[|backups| - 1].after == w) && ResetRoute(state).Some?
  }

  /** Serves the request at `i`. */
  method ServeNext(m: Machine, service: BackupService, requests: seq<Request>, i: nat, ghost backups: seq<Backup>)
    returns (r: Power<()>, ghost more: seq<Backup>)
    requires service.Valid() && service.engine.m == m && !service.running && Quiescent(m.db)
    requires i < |requests| && WellFormed(m.hash, requests[i])
    requires UpTo(m.hash, m.trace, requests, service.engine.settings, backups, i, m.W(), service.engine.sm.state)
    modifies m, service, service.engine.sm
    ensures m.Valid() && old(m.trace) <= m.trace
    ensures r.Cut? && AllAssessable(requests, service.engine.settings) ==> Served(m.hash, m.trace, requests, more)
    ensures r.On? ==> service.Valid() && !service.running && Quiescent(m.db)
    ensures r.On? ==> UpTo(m.hash, m.trace, requests, service.engine.settings, more, i + 1, m.W(), service.engine.sm.state)
  {
    ghost var before := m.trace;
    ghost var taken;
    r, taken := RunOne(m, service, requests[i]);
    more := if r.On? && taken.Some? then backups + [taken.value] else backups;
    if AllAssessable(requests, service.engine.settings) {
      assert requests[i] in requests;
      if r.Cut? {
        ServedStays(m.hash, before, m.trace, requests, backups);
      } else {
        ServedNext(m.hash, before, m.trace, requests, backups, taken.value);
      }
    }
  }

  /**
   Whatever state the power left, everything the appliance does until it goes again is lawful.
   Where the requests make sense, every one of them is accepted, none meets a rejected transition,
   each ends and is on record, each starts where the one before ended, and after each the engine
   can be reset for the next. The power alone can cut the sequence short.
   */
  method PowerOn(m: Machine, requests: seq<Request>, settings: Settings, boots: nat)
    returns (r: Power<()>, ghost backups: seq<Backup>)
    requires m.Valid() && settings.chunkBytes > 0 && forall q <- requests :: WellFormed(m.hash, q)
    modifies m
    ensures m.Valid() && old(m.trace) <= m.trace
    ensures AllAssessable(requests, settings) ==> Served(m.hash, m.trace, requests, backups)
    ensures AllAssessable(requests, settings) && r.On? ==> |backups| == |requests|
  {
    backups := [];
    var recovered;
    ghost var first;
    recovered, first := BootUntilRecovered(m, boots, settings.chunkBytes);
    if recovered.Cut? {
      return Cut, backups;
    }
    var engine := new BackupEngine(m, settings);
    var service := new BackupService(engine);
    for i := 0 to |requests|
      invariant service.Valid() && !service.running && Quiescent(m.db) && old(m.trace) <= m.trace
      invariant UpTo(m.hash, m.trace, requests, settings, backups, i, m.W(), engine.sm.state)
    {
      r, backups := ServeNext(m, service, requests, i, backups);
      if r.Cut? {
        return Cut, backups;
      }
    }
    return On(()), backups;
  }

  lemma FileIsKept(h: Hash, trace: seq<World>, now: World, k: nat, b: Backup, file: ClassificationInput)
    requires History(h, trace, now) && k < |trace| && trace[k] == b.after && Took(h, b) && Successful(b.result)
    requires file in b.request.inputs && SavedInput(file)
    ensures Holds(h, now.disk, Session(b.result.jobId.value, file.rel), file.identity.value)
    ensures OneVerifiedEntry(now.db, b.result.jobId.value, file.rel)
  {
    var last := |trace| - 1;
    assert SizeDetermined(h) && IsRun(h, trace) && trace[last] == now by {
      UseHistory(h, trace, now);
    }
    SuccessIsAFullCopyForever(h, trace, k, last, b, file);
    assert now == trace[last];
  }

  /** Whatever has happened since, each file that a successful backup read from the card is there now. */
  lemma BackupsAreKept(h: Hash, trace: seq<World>, now: World, b: Backup, file: ClassificationInput)
    requires History(h, trace, now) && OnHistory(h, trace, b) && Successful(b.result)
    requires file in b.request.inputs && SavedInput(file)
    ensures Holds(h, now.disk, Session(b.result.jobId.value, file.rel), file.identity.value)
    ensures OneVerifiedEntry(now.db, b.result.jobId.value, file.rel)
  {
    var k :| 0 <= k < |trace| && trace[k] == b.after;
    FileIsKept(h, trace, now, k, b, file);
  }
}
