/** The service that starts backups: one at a time, each on an idle engine. */
module Service {
  import opened Wrappers
  import opened Manifest
  import opened Identity
  import opened JobIds
  import opened Repository
  import opened Sorting
  import opened Capacity
  import opened Preflight
  import opened Runner
  import opened Engine

  datatype Started = Accepted | AlreadyRunning | NoSource | CannotReset(state: BackupState)

  class BackupService {
    const engine: BackupEngine
    /** A backup has been handed to the worker and is not done. */
    var running: bool

    /** A backup that is handed over and not begun finds the engine idle. */
    ghost predicate Valid()
      reads this, engine, engine.m, engine.sm
    {
      engine.Valid() && (running ==> engine.sm.state == IDLE)
    }

    constructor (engine: BackupEngine)
      requires engine.Valid()
      ensures Valid() && this.engine == engine && !running
    {
      this.engine := engine;
      running := false;
    }

    /** Hands a backup to the worker, unless one is running, and resets the engine for it. */
    method Start(sourcePresent: bool) returns (r: Started)
      requires Valid()
      modifies this, engine.sm
      ensures Valid()
      ensures r.AlreadyRunning? <==> old(running)
      ensures r.NoSource? <==> !old(running) && !sourcePresent
      ensures r.CannotReset? <==> !old(running) && sourcePresent && ResetRoute(old(engine.sm.state)).None?
      ensures if r.Accepted? then running && engine.sm.state == IDLE
              else running == old(running) && engine.sm.state == old(engine.sm.state) && engine.sm.visited == old(engine.sm.visited)
    {
      if running {
        return AlreadyRunning;
      }
      if !sourcePresent {
        return NoSource;
      }
      if engine.sm.state != IDLE {
        var reset := engine.Reset();
        if reset.Failure? {
          return CannotReset(reset.error);
        }
      }
      running := true;
      return Accepted;
    }

    /** The worker runs what was handed to it. No transition is rejected, and if it ends another may start. */
    method Work(request: Request)
      returns (r: Power<EngineEnd>, progress: seq<Progress>, ghost vs: seq<Verdict>)
      requires Valid() && running && Quiescent(engine.m.db) && DistinctBy(InputPath, request.inputs)
      requires AllRealizable(engine.m.hash, request.inputs)
      modifies this, engine.m, engine.sm
      ensures engine.m.Valid() && old(engine.m.trace) <= engine.m.trace
      ensures r.On? ==> Valid() && Quiescent(engine.m.db) && !running && !r.value.RaisedInvalidTransition?
      ensures r.Cut? ==> CutOff(old(engine.m.db.jobs), engine.m.db.jobs, NextJobId(old(engine.m.db.jobs).Keys, request.day))
      ensures r.On? ==> (r.value.Ended? <==> Assessable(request.usage, engine.settings.policy))
      ensures r.On? && r.value.Ended? ==>
                && BackupEnded(engine.m.hash, old(engine.m.W()), engine.m.W(), request, engine.settings, r.value.result, vs, progress)
                && ResetRoute(engine.sm.state).Some?
    {
      r, progress, vs := engine.RunBackup(request);
      running := false;
    }
  }
}
