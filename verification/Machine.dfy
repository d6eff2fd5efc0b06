/**
 The running machine: its disk, its manifest connection, and the history of both.

 Everything the program does to either goes through `Do`, one system call or one autocommitted
 SQL statement at a time, and before each the power may go. A method that comes back with `Cut`
 stopped there; `Boot` is what happens next.
 */
module Machines {
  import opened Wrappers
  import opened Identity
  import opened FileSystem
  import opened Manifest
  import opened Protocol
  import opened Runs
  import opened RecoveryGoal
  import opened RecoveryRuns

  /** The two things a history says of the present. */
  datatype Aspect = Lawful | Sound

  ghost predicate HistorySays(h: Hash, trace: seq<World>, w: World, aspect: Aspect) {
    match aspect
    case Lawful => SizeDetermined(h) && IsRun(h, trace) && trace[|trace| - 1] == w
    case Sound => Inv(h, w)
  }

  /** `trace` is a run of the store protocol that has come to `w`. */
  ghost predicate History(h: Hash, trace: seq<World>, w: World) {
    forall aspect: Aspect :: HistorySays(h, trace, w, aspect)
  }

  lemma UseHistory(h: Hash, trace: seq<World>, w: World)
    requires History(h, trace, w)
    ensures SizeDetermined(h) && IsRun(h, trace) && trace[|trace| - 1] == w && Inv(h, w)
  {
    assert HistorySays(h, trace, w, Lawful) && HistorySays(h, trace, w, Sound);
  }

  lemma MakeHistory(h: Hash, trace: seq<World>, w: World)
    requires SizeDetermined(h) && IsRun(h, trace) && trace[|trace| - 1] == w && Inv(h, w)
    ensures History(h, trace, w)
  {
    forall aspect: Aspect
      ensures HistorySays(h, trace, w, aspect)
    {
      match aspect
      case Lawful =>
      case Sound =>
    }
  }

  lemma HistoryStep(h: Hash, trace: seq<World>, v: World, w: World)
    requires History(h, trace, v) && Next(h, v, w)
    ensures History(h, trace + [w], w)
  {
    UseHistory(h, trace, v);
    NextKeepsInv(h, v, w);
    LongerRun(h, trace, w);
    MakeHistory(h, trace + [w], w);
  }

  lemma LongerRun(h: Hash, run: seq<World>, w: World)
    requires IsRun(h, run) && Next(h, run[|run| - 1], w)
    ensures IsRun(h, run + [w])
  {
    var longer := run + [w];
    forall i, k | 0 <= i < k < |longer| && k == i + 1
      ensures Next(h, longer[i], longer[k])
    {
      if k < |run| {
        RunStep(h, run, k);
      }
    }
  }

  class Machine {
    const hash: Hash
    var disk: Disk
    var db: Manifest
    ghost var trace: seq<World>

    function W(): World
      reads this
    {
      World(disk, db)
    }

    /** All that was ever done is a run of the store protocol, so every run theorem applies. */
    ghost predicate Valid()
      reads this
    {
      History(hash, trace, W())
    }

    constructor (hash: Hash)
      requires SizeDetermined(hash)
      ensures Valid() && this.hash == hash && W() == Blank
    {
      this.hash := hash;
      disk, db := EmptyDisk, EmptyManifest;
      trace := [Blank];
      new;
      EveryRunIsSafe(hash, trace, 0);
      MakeHistory(hash, trace, W());
    }

    method Do(a: Action) returns (r: Power<()>)
      requires Valid() && Enabled(hash, W(), a)
      modifies this
      ensures Valid() && old(trace) <= trace
      ensures W() == if r.On? then Apply(old(W()), a) else old(W())
    {
      if * {
        return Cut;
      }
      var w := Apply(World(disk, db), a);
      assert Next(hash, W(), w);
      HistoryStep(hash, trace, W(), w);
      trace := trace + [w];
      disk, db := w.disk, w.db;
      return On(());
    }

    lemma Now()
      requires Valid()
      ensures SizeDetermined(hash) && Inv(hash, W())
    {
      UseHistory(hash, trace, W());
    }

    /** A step taken by recovery, which leaves its goal alone. */
    method Recovering(a: Action, ghost goal: Goal) returns (r: Power<()>)
      requires Valid() && OnCourse(hash, W(), goal) && Enabled(hash, W(), a) && RecoveryRule(hash, W(), a)
      modifies this
      ensures Valid() && old(trace) <= trace && OnCourse(hash, W(), goal)
      ensures W() == if r.On? then Apply(old(W()), a) else old(W())
    {
      UseHistory(hash, trace, W());
      StepStaysOnCourse(hash, W(), a, goal);
      r := Do(a);
    }

    /** The power goes and comes back: the disk is any of its images, and unflushed data is anything. */
    method Boot()
      requires Valid()
      modifies this
      ensures Valid() && old(trace) <= trace
      ensures CrashImage(old(disk), disk) && db == old(db) && Steady(hash, W())
    {
      UseHistory(hash, trace, W());
      UseInv(hash, W());
      var names: Names :| names in disk.images;
      var junk: Bytes := *;
      var inodes := map i | i in disk.inodes ::
        if disk.inodes[i].flushed then disk.inodes[i] else Inode(junk, true);
      var booted := Disk(disk.next, inodes, names, {names});
      assert CrashImage(disk, booted);
      BootIsSteady(hash, W(), booted);
      assert Next(hash, W(), World(booted, db));
      HistoryStep(hash, trace, W(), World(booted, db));
      trace := trace + [World(booted, db)];
      disk := booted;
    }

    lemma JobsAreNamed()
      requires Valid()
      ensures WellNamed(db.jobs)
    {
      UseHistory(hash, trace, W());
      JobIdsAreSequential(hash, trace, |trace| - 1);
    }

    /** Nothing verified has been lost since the instant at which the history was `before`. */
    lemma HasGrown(before: seq<World>)
      requires Valid() && |before| > 0 && before <= trace
      ensures Grows(before[|before| - 1], W())
    {
      UseHistory(hash, trace, W());
      EveryRunGrows(hash, trace, |before| - 1, |trace| - 1);
    }
  }
}
