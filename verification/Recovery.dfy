/** Start-up recovery: reconcile what a power cut left of the manifest and of the disk. */
module Recovery {
  import opened Wrappers
  import opened Identity
  import opened FileSystem
  import opened Manifest
  import opened Protocol
  import opened Runs
  import opened RecoveryGoal
  import opened RecoveryRuns
  import opened Machines

  /** No edit of the object's own names is waiting for an fsync. */
  ghost predicate Settled(d: Disk, sha: string) {
    Still(d, Final(sha)) && Still(d, Partial(sha))
  }

  /** Names of other objects are as settled, and as visible, as they were. */
  ghost predicate LeavesOthers(d: Disk, e: Disk, sha: string) {
    forall other: string | other != sha ::
      && (Settled(d, other) ==> Settled(e, other))
      && (Final(other) in e.now <==> Final(other) in d.now)
      && (Partial(other) in e.now <==> Partial(other) in d.now)
  }

  lemma SurvivorIsLinkable(h: Hash, w: World, e: Id)
    requires Inv(h, w) && e in w.db.entries
    ensures w.db.entries[e].obj in w.db.objects && w.db.entries[e].job in w.db.jobs
    ensures LinkAgrees(w.disk, w.db.objects[w.db.entries[e].obj].identity.sha, w.db.entries[e].job, w.db.entries[e].rel)
    ensures forall f <- w.db.entries |
              w.db.entries[f].job == w.db.entries[e].job && w.db.entries[f].rel == w.db.entries[e].rel :: f == e
  {
    UseInv(h, w);
  }

  /** Object names are as visible, as settled and as durable in `e` as in `d`. */
  ghost predicate StoreAlone(d: Disk, e: Disk) {
    forall p: Path | !p.Session? ::
      && (p in e.now <==> p in d.now)
      && (Still(d, p) ==> Still(e, p))
      && (Durable(d, p) ==> Durable(e, p))
  }

  lemma LinkLeavesStoreAlone(d: Disk, job: string, rel: string, i: Ino)
    ensures StoreAlone(d, WithEdit(d, Bind(Session(job, rel), i)))
  {
  }

  lemma SyncLeavesStoreAlone(d: Disk, e: Disk, dir: Directory)
    requires StoreAlone(d, e)
    ensures StoreAlone(d, WithSync(e, dir))
  {
    forall p: Path | !p.Session?
      ensures Still(e, p) ==> Still(WithSync(e, dir), p)
      ensures Durable(e, p) ==> Durable(WithSync(e, dir), p)
    {
      SyncKeepsName(e, dir, p);
    }
  }

  /** (Re)creates the session link of a pending entry and fsyncs it. A path conflict cannot arise. */
  method PlaceSessionLink(m: Machine, e: Id, ghost goal: Goal) returns (r: Power<()>)
    requires m.Valid() && OnCourse(m.hash, m.W(), goal)
    requires e in m.db.entries && Pending(m.db, m.db.entries[e].obj)
    requires Durable(m.disk, Final(m.db.objects[m.db.entries[e].obj].identity.sha))
    modifies m
    ensures m.Valid() && old(m.trace) <= m.trace && OnCourse(m.hash, m.W(), goal) && m.db == old(m.db)
    ensures r.On? ==> StoreAlone(old(m.disk), m.disk)
    ensures r.On? ==> Linked(m.disk, m.db.objects[m.db.entries[e].obj].identity.sha, m.db.entries[e].job, m.db.entries[e].rel)
  {
    var row := m.db.entries[e];
    var sha := m.db.objects[row.obj].identity.sha;
    m.Now();
    SurvivorIsLinkable(m.hash, m.W(), e);
    if Session(row.job, row.rel) in m.disk.now {
      assert m.disk.now[Session(row.job, row.rel)] == m.disk.now[Final(sha)];
    } else {
      var _ :- m.Recovering(Link(sha, row.job, row.rel), goal);
    }
    ghost var d := m.disk;
    assert StoreAlone(old(m.disk), d) by {
      LinkLeavesStoreAlone(old(m.disk), row.job, row.rel, old(m.disk).now[Final(sha)]);
    }
    var _ :- m.Recovering(SyncDirectory(DirectoryOf(Session(row.job, row.rel))), goal);
    SyncMakesDurable(d, Session(row.job, row.rel));
    SyncLeavesStoreAlone(old(m.disk), d, DirectoryOf(Session(row.job, row.rel)));
    return On(());
  }

  /** `entries` with every entry of `o` promoted. */
  function Promoted(entries: map<Id, EntryRow>, o: Id): map<Id, EntryRow> {
    map e | e in entries :: if entries[e].obj == o then entries[e].(state := VerifiedEntry) else entries[e]
  }

  function PendingEntries(db: Manifest, o: Id): set<Id> {
    set e | e in db.entries && db.entries[e].obj == o && db.entries[e].state == PendingEntry
  }

  lemma PromotingOne(db: Manifest, o: Id, e: Id)
    requires e in PendingEntries(db, o)
    ensures var after := db.(entries := db.entries[e := db.entries[e].(state := VerifiedEntry)]);
            && PendingEntries(after, o) == PendingEntries(db, o) - {e}
            && Promoted(after.entries, o) == Promoted(db.entries, o)
  {
  }

  lemma NoneToPromote(db: Manifest, o: Id)
    requires PendingEntries(db, o) == {}
    ensures Promoted(db.entries, o) == db.entries
  {
    forall e <- db.entries
      ensures Promoted(db.entries, o)[e] == db.entries[e]
    {
      assert e !in PendingEntries(db, o);
    }
  }

  /** Links and promotes one pending entry. */
  method FinishEntry(m: Machine, o: Id, e: Id, ghost goal: Goal) returns (r: Power<()>)
    requires m.Valid() && OnCourse(m.hash, m.W(), goal) && e in PendingEntries(m.db, o)
    requires Pending(m.db, o) && Durable(m.disk, Final(m.db.objects[o].identity.sha))
    modifies m
    ensures m.Valid() && old(m.trace) <= m.trace && OnCourse(m.hash, m.W(), goal)
    ensures r.On? ==> m.db == old(m.db).(entries := old(m.db.entries)[e := old(m.db.entries)[e].(state := VerifiedEntry)])
    ensures r.On? ==> StoreAlone(old(m.disk), m.disk)
  {
    var _ :- PlaceSessionLink(m, e, goal);
    var _ :- m.Recovering(VerifyEntry(e, o), goal);
    return On(());
  }

  /** Links and promotes every pending entry of an object whose canonical file is durable. */
  method FinishEntries(m: Machine, o: Id, ghost goal: Goal) returns (r: Power<()>)
    requires m.Valid() && OnCourse(m.hash, m.W(), goal)
    requires Pending(m.db, o) && Durable(m.disk, Final(m.db.objects[o].identity.sha))
    modifies m
    ensures m.Valid() && old(m.trace) <= m.trace && OnCourse(m.hash, m.W(), goal)
    ensures r.On? ==> m.db == old(m.db).(entries := Promoted(old(m.db.entries), o))
    ensures r.On? ==> StoreAlone(old(m.disk), m.disk)
  {
    while PendingEntries(m.db, o) != {}
      invariant m.Valid() && old(m.trace) <= m.trace && OnCourse(m.hash, m.W(), goal)
      invariant m.db == old(m.db).(entries := m.db.entries) && StoreAlone(old(m.disk), m.disk)
      invariant Promoted(m.db.entries, o) == Promoted(old(m.db.entries), o)
      decreases PendingEntries(m.db, o)
    {
      var e :| e in PendingEntries(m.db, o);
      PromotingOne(m.db, o, e);
      var _ :- FinishEntry(m, o, e, goal);
    }
    NoneToPromote(m.db, o);
    return On(());
  }

  /** The identity of a file on disk, streamed. */
  method ContentIdentityOfFile(m: Machine, i: Ino, chunkBytes: int) returns (id: ContentIdentity)
    requires i in m.disk.inodes && chunkBytes > 0
    ensures id == IdentityOf(m.hash, m.disk.inodes[i].data)
  {
    var reader := new Reader(m.disk.inodes[i].data);
    var read := HashStream(m.hash, reader, chunkBytes);
    return read.value;
  }

  /** Brings the surviving partial of `o` to its canonical name, durably. */
  method RenameSurvivor(m: Machine, o: Id, ghost goal: Goal) returns (r: Power<()>)
    requires m.Valid() && OnCourse(m.hash, m.W(), goal)
    requires Pending(m.db, o) && Settled(m.disk, m.db.objects[o].identity.sha)
    requires Final(m.db.objects[o].identity.sha) !in m.disk.now && Partial(m.db.objects[o].identity.sha) in m.disk.now
    requires SurvivorOf(m.hash, m.W(), o).Some?
    modifies m
    ensures m.Valid() && old(m.trace) <= m.trace && OnCourse(m.hash, m.W(), goal) && m.db == old(m.db)
    ensures r.On? ==> Durable(m.disk, Final(m.db.objects[o].identity.sha))
    ensures r.On? ==> Partial(m.db.objects[o].identity.sha) !in m.disk.now
    ensures r.On? ==> LeavesOthers(old(m.disk), m.disk, m.db.objects[o].identity.sha)
  {
    var sha := m.db.objects[o].identity.sha;
    UseCourse(m.hash, m.W(), goal);
    assert HasRow(m.db, sha);
    var _ :- m.Recovering(Rename(sha), goal);
    ghost var d := m.disk;
    assert LeavesOthers(old(m.disk), d, sha);
    var _ :- m.Recovering(SyncDirectory(DirectoryOf(Final(sha))), goal);
    SyncMakesDurable(d, Final(sha));
    SyncLeavesOthers(old(m.disk), d, DirectoryOf(Final(sha)), sha);
    return On(());
  }

  lemma SyncLeavesOthers(d: Disk, e: Disk, dir: Directory, sha: string)
    requires LeavesOthers(d, e, sha)
    ensures LeavesOthers(d, WithSync(e, dir), sha)
  {
    forall other: string | other != sha
      ensures Settled(e, other) ==> Settled(WithSync(e, dir), other)
    {
      SyncKeepsName(e, dir, Final(other));
      SyncKeepsName(e, dir, Partial(other));
    }
  }

  lemma AloneLeavesOthers(d: Disk, e: Disk, f: Disk, sha: string)
    requires LeavesOthers(d, e, sha) && StoreAlone(e, f)
    ensures LeavesOthers(d, f, sha)
  {
  }

  /** Drops an object whose bytes did not survive. Its canonical name never exists, and no VERIFIED entry refers to it. */
  method DiscardRow(m: Machine, o: Id, ghost goal: Goal) returns (r: Power<()>)
    requires m.Valid() && OnCourse(m.hash, m.W(), goal) && Doomed(m.hash, m.W(), o)
    modifies m
    ensures m.Valid() && old(m.trace) <= m.trace && OnCourse(m.hash, m.W(), goal)
    ensures r.On? ==> m.db.objects == old(m.db.objects) - {o} && m.db.jobs == old(m.db.jobs)
    ensures r.On? ==> LeavesOthers(old(m.disk), m.disk, old(m.db.objects)[o].identity.sha)
    ensures r.On? ==> Partial(old(m.db.objects)[o].identity.sha) !in m.disk.now
    ensures Final(old(m.db.objects)[o].identity.sha) !in old(m.disk.now)
  {
    var sha := m.db.objects[o].identity.sha;
    m.Now();
    DoomedIsInvisible(m.hash, m.W(), o);
    if Partial(sha) in m.disk.now {
      assert forall p <- m.db.objects | Pending(m.db, p) && m.db.objects[p].identity.sha == sha :: Doomed(m.hash, m.W(), p) by {
        DoomedTogether(m.hash, m.W(), o);
      }
      var _ :- m.Recovering(UnlinkPartial(sha), goal);
    }
    assert Doomed(m.hash, m.W(), o);
    var _ :- DropRow(m, o, goal);
    return On(());
  }

  /** Deletes the entries of a doomed object, and then its row. */
  method DropRow(m: Machine, o: Id, ghost goal: Goal) returns (r: Power<()>)
    requires m.Valid() && OnCourse(m.hash, m.W(), goal) && Doomed(m.hash, m.W(), o)
    modifies m
    ensures m.Valid() && old(m.trace) <= m.trace && OnCourse(m.hash, m.W(), goal) && m.disk == old(m.disk)
    ensures r.On? ==> m.db.objects == old(m.db.objects) - {o} && m.db.jobs == old(m.db.jobs)
  {
    m.Now();
    DoomedIsInvisible(m.hash, m.W(), o);
    DoomedHasOnlyPendingEntries(m.hash, m.W(), o);
    var _ :- m.Recovering(DeletePendingEntries(o), goal);
    assert Doomed(m.hash, m.W(), o);
    var _ :- m.Recovering(DeleteObject(o), goal);
    return On(());
  }

  lemma DoomedIsInvisible(h: Hash, w: World, o: Id)
    requires SizeDetermined(h) && Inv(h, w) && Doomed(h, w, o)
    ensures Final(w.db.objects[o].identity.sha) !in w.disk.now
  {
    if Final(w.db.objects[o].identity.sha) in w.disk.now {
      FinalSurvives(h, w, o);
    }
  }

  lemma DoomedTogether(h: Hash, w: World, o: Id)
    requires SizeDetermined(h) && Inv(h, w) && Doomed(h, w, o)
    ensures forall p <- w.db.objects | w.db.objects[p].identity.sha == w.db.objects[o].identity.sha :: p == o
  {
    UseInv(h, w);
    forall p <- w.db.objects | w.db.objects[p].identity.sha == w.db.objects[o].identity.sha
      ensures p == o
    {
      DigestDeterminesIdentity(h, w.db.objects[o].identity, w.db.objects[p].identity);
    }
  }

  /** What reconciling the row of `o` leaves of the object table. */
  function Reconciled(objects: map<Id, ObjectRow>, o: Id, kept: bool): map<Id, ObjectRow>
    requires o in objects
  {
    if kept then objects[o := objects[o].(status := VerifiedObject)] else objects - {o}
  }

  /** Finalizes an object whose bytes survive under either name. */
  method FinalizeRow(m: Machine, o: Id, ghost goal: Goal) returns (r: Power<()>)
    requires m.Valid() && OnCourse(m.hash, m.W(), goal)
    requires Pending(m.db, o) && Settled(m.disk, m.db.objects[o].identity.sha) && !Doomed(m.hash, m.W(), o)
    modifies m
    ensures m.Valid() && old(m.trace) <= m.trace && OnCourse(m.hash, m.W(), goal)
    ensures r.On? ==> m.db.objects == Reconciled(old(m.db.objects), o, true) && m.db.jobs == old(m.db.jobs)
    ensures r.On? ==> LeavesOthers(old(m.disk), m.disk, old(m.db.objects)[o].identity.sha)
    ensures r.On? ==> var sha := old(m.db.objects)[o].identity.sha;
                      Partial(sha) in m.disk.now <==> Partial(sha) in old(m.disk.now) && Final(sha) in old(m.disk.now)
  {
    var sha := m.db.objects[o].identity.sha;
    if Final(sha) !in m.disk.now {
      var _ :- RenameSurvivor(m, o, goal);
    }
    assert Durable(m.disk, Final(sha));
    ghost var d := m.disk;
    var _ :- FinishEntries(m, o, goal);
    AloneLeavesOthers(old(m.disk), d, m.disk, sha);
    var _ :- m.Recovering(SetObject(o, VerifiedObject), goal);
    return On(());
  }

  /** Reconciles one PENDING_FINALIZE row; true if it was finalized, false if it was discarded. */
  method RecoverRow(m: Machine, o: Id, chunkBytes: int, ghost goal: Goal) returns (r: Power<bool>)
    requires m.Valid() && OnCourse(m.hash, m.W(), goal) && chunkBytes > 0
    requires Pending(m.db, o) && Settled(m.disk, m.db.objects[o].identity.sha)
    modifies m
    ensures m.Valid() && old(m.trace) <= m.trace && OnCourse(m.hash, m.W(), goal)
    ensures r.On? ==> r.value == !Doomed(m.hash, old(m.W()), o)
    ensures r.On? ==> m.db.objects == Reconciled(old(m.db.objects), o, r.value) && m.db.jobs == old(m.db.jobs)
    ensures r.On? ==> LeavesOthers(old(m.disk), m.disk, old(m.db.objects)[o].identity.sha)
    ensures r.On? ==> var sha := old(m.db.objects)[o].identity.sha;
                      Partial(sha) in m.disk.now <==> Partial(sha) in old(m.disk.now) && Final(sha) in old(m.disk.now)
  {
    var expected := m.db.objects[o].identity;
    var candidate: Option<Ino> :=
      if Final(expected.sha) in m.disk.now then Some(m.disk.now[Final(expected.sha)])
      else if Partial(expected.sha) in m.disk.now then Some(m.disk.now[Partial(expected.sha)])
      else None;
    var proven := false;
    m.Now();
    VisibleNamesHaveData(m.hash, m.W());
    if candidate.Some? {
      var found := ContentIdentityOfFile(m, candidate.value, chunkBytes);
      proven := found == expected;
    }
    assert proven == !Doomed(m.hash, m.W(), o);
    if proven {
      var _ :- FinalizeRow(m, o, goal);
    } else {
      var _ :- DiscardRow(m, o, goal);
    }
    return On(proven);
  }

  lemma VisibleNamesHaveData(h: Hash, w: World)
    requires Inv(h, w)
    ensures forall p <- w.disk.now :: w.disk.now[p] in w.disk.inodes
  {
    UseInv(h, w);
  }

  function PendingRows(db: Manifest): set<Id> {
    set o | o in db.objects && db.objects[o].status == PendingFinalize
  }

  function Partials(names: Names): set<Path> {
    set p | p in names && p.Partial?
  }

  /** `o` is a row of `rows` whose file has only its partial name. */
  predicate Claims(w: World, o: Id, sha: string) {
    o in w.db.objects && w.db.objects[o].identity.sha == sha && Final(sha) !in w.disk.now
  }

  /** What is left of the partials of `w` once its rows `done` are reconciled. */
  ghost predicate PartialsAfter(w: World, names: Names, done: set<Id>) {
    forall sha: string ::
      Partial(sha) in names <==> Partial(sha) in w.disk.now && forall o <- done :: !Claims(w, o, sha)
  }

  lemma RowsHaveDistinctDigests(h: Hash, w: World)
    requires SizeDetermined(h) && Inv(h, w)
    ensures forall o <- w.db.objects, p <- w.db.objects ::
              w.db.objects[o].identity.sha == w.db.objects[p].identity.sha ==> o == p
  {
    UseInv(h, w);
    forall o <- w.db.objects, p <- w.db.objects | w.db.objects[o].identity.sha == w.db.objects[p].identity.sha
      ensures o == p
    {
      DigestDeterminesIdentity(h, w.db.objects[o].identity, w.db.objects[p].identity);
    }
  }

  /** The first pass of recovery, over the rows that were PENDING_FINALIZE when it began. */
  ghost predicate RowsDone(w: World, v: World, done: set<Id>) {
    forall u: Unit :: RowsDoneFacts(w, v, done, u)
  }

  lemma UseRowsDone(w: World, v: World, done: set<Id>)
    requires RowsDone(w, v, done)
    ensures RowsDoneFacts(w, v, done, Unit)
  {
  }

  ghost predicate RowsDoneFacts(w: World, v: World, done: set<Id>, u: Unit) {
    && v.db.jobs == w.db.jobs
    && (forall o <- PendingRows(w.db) - done ::
          && o in v.db.objects && v.db.objects[o] == w.db.objects[o]
          && Settled(v.disk, w.db.objects[o].identity.sha)
          && (Final(w.db.objects[o].identity.sha) in v.disk.now <==> Final(w.db.objects[o].identity.sha) in w.disk.now))
    && PendingRows(v.db) == PendingRows(w.db) - done
    && PartialsAfter(w, v.disk.now, done)
  }

  lemma RowDone(w: World, v: World, u: World, done: set<Id>, o: Id, kept: bool)
    requires RowsDone(w, v, done) && o in PendingRows(w.db) && o !in done
    requires forall p <- w.db.objects, q <- w.db.objects ::
               w.db.objects[p].identity.sha == w.db.objects[q].identity.sha ==> p == q
    requires o in v.db.objects && u.db.objects == Reconciled(v.db.objects, o, kept) && u.db.jobs == v.db.jobs
    requires LeavesOthers(v.disk, u.disk, w.db.objects[o].identity.sha)
    requires var sha := w.db.objects[o].identity.sha;
             Partial(sha) in u.disk.now <==> Partial(sha) in v.disk.now && Final(sha) in v.disk.now
    ensures RowsDone(w, u, done + {o})
  {
    UseRowsDone(w, v, done);
    assert PendingRows(u.db) == PendingRows(v.db) - {o} by {
      assert forall p :: p in u.db.objects ==> p in v.db.objects && (p != o ==> u.db.objects[p] == v.db.objects[p]);
      assert forall p :: p in v.db.objects && p != o ==> p in u.db.objects;
    }
    var mine := w.db.objects[o].identity.sha;
    forall sha: string
      ensures Partial(sha) in u.disk.now <==>
                Partial(sha) in w.disk.now && forall p <- done + {o} :: !Claims(w, p, sha)
    {
      if sha == mine {
        assert forall p <- done :: p in w.db.objects && w.db.objects[p].identity.sha == mine ==> p == o;
        assert Claims(w, o, sha) <==> Final(sha) !in w.disk.now;
      } else {
        assert !Claims(w, o, sha);
      }
    }
    assert PartialsAfter(w, u.disk.now, done + {o});
    assert RowsDoneFacts(w, u, done + {o}, Unit);
  }

  lemma NoRowsDone(w: World)
    requires forall o <- PendingRows(w.db) :: Settled(w.disk, w.db.objects[o].identity.sha)
    ensures RowsDone(w, w, {})
  {
    assert RowsDoneFacts(w, w, {}, Unit);
  }

  /** How many of `done` were finalized, and how many discarded. */
  function Tally(done: set<Id>, goal: Goal): (nat, nat) {
    (|done * goal.db.objects.Keys|, |done - goal.db.objects.Keys|)
  }

  lemma TallyNext(done: set<Id>, o: Id, goal: Goal)
    requires o !in done
    ensures Tally(done + {o}, goal) ==
            if o in goal.db.objects then (Tally(done, goal).0 + 1, Tally(done, goal).1)
            else (Tally(done, goal).0, Tally(done, goal).1 + 1)
  {
    CountNext(done, o, goal.db.objects.Keys);
  }

  lemma CountNext(done: set<Id>, o: Id, keys: set<Id>)
    requires o !in done
    ensures |(done + {o}) * keys| == |done * keys| + if o in keys then 1 else 0
    ensures |(done + {o}) - keys| == |done - keys| + if o in keys then 0 else 1
  {
    if o in keys {
      assert (done + {o}) * keys == (done * keys) + {o};
      assert (done + {o}) - keys == done - keys;
    } else {
      assert (done + {o}) * keys == done * keys;
      assert (done + {o}) - keys == (done - keys) + {o};
    }
  }

  /** Reconciles the row `o`, after those of `done`. */
  method RecoverNextRow(m: Machine, o: Id, chunkBytes: int, ghost start: World, ghost done: set<Id>, ghost goal: Goal)
    returns (r: Power<bool>)
    requires m.Valid() && OnCourse(m.hash, m.W(), goal) && chunkBytes > 0
    requires Inv(m.hash, start) && RowsDone(start, m.W(), done) && o in PendingRows(start.db) - done
    modifies m
    ensures m.Valid() && old(m.trace) <= m.trace && OnCourse(m.hash, m.W(), goal)
    ensures r.On? ==> RowsDone(start, m.W(), done + {o}) && r.value == (o in goal.db.objects)
  {
    ghost var v := m.W();
    UseRowsDone(start, v, done);
    assert o in goal.db.objects <==> !Doomed(m.hash, v, o) by {
      UseCourse(m.hash, v, goal);
    }
    m.Now();
    var kept :- RecoverRow(m, o, chunkBytes, goal);
    RowsHaveDistinctDigests(m.hash, start);
    RowDone(start, v, m.W(), done, o, kept);
    return On(kept);
  }

  /** Reconciles every PENDING_FINALIZE row, in whatever order they come. */
  method RecoverRows(m: Machine, chunkBytes: int, ghost goal: Goal) returns (r: Power<(nat, nat)>)
    requires m.Valid() && OnCourse(m.hash, m.W(), goal) && chunkBytes > 0
    requires forall o <- PendingRows(m.db) :: Settled(m.disk, m.db.objects[o].identity.sha)
    modifies m
    ensures m.Valid() && old(m.trace) <= m.trace && OnCourse(m.hash, m.W(), goal)
    ensures r.On? ==> RowsDone(old(m.W()), m.W(), PendingRows(old(m.db)))
    ensures r.On? ==> r.value == Tally(PendingRows(old(m.db)), goal)
    ensures PendingRows(old(m.db)) == {} ==> r.On? && m.W() == old(m.W())
  {
    m.Now();
    NoRowsDone(m.W());
    ghost var start := m.W();
    var tally := (0, 0);
    var rest := PendingRows(m.db);
    ghost var pending := rest;
    ghost var done: set<Id> := {};
    while rest != {}
      invariant done <= pending && rest == pending - done && pending == PendingRows(start.db)
      invariant m.Valid() && old(m.trace) <= m.trace && OnCourse(m.hash, m.W(), goal)
      invariant RowsDone(start, m.W(), done) && tally == Tally(done, goal)
      invariant pending == {} ==> m.W() == start
      decreases |rest|
    {
      var o := AnyOf(rest);
      var kept :- RecoverNextRow(m, o, chunkBytes, start, done, goal);
      TallyNext(done, o, goal);
      tally := if kept then (tally.0 + 1, tally.1) else (tally.0, tally.1 + 1);
      DoneNext(pending, done, o);
      rest, done := rest - {o}, done + {o};
    }
    DoneAll(pending, done);
    return On(tally);
  }

  lemma DoneNext(pending: set<Id>, done: set<Id>, o: Id)
    requires done <= pending && o in pending - done
    ensures done + {o} <= pending && pending - (done + {o}) == pending - done - {o}
  {
  }

  lemma DoneAll(pending: set<Id>, done: set<Id>)
    requires done <= pending && pending - done == {}
    ensures done == pending
  {
    forall o | o in pending
      ensures o in done
    {
      assert o in done || o in pending - done;
    }
  }

  method AnyOf(s: set<Id>) returns (o: Id)
    requires s != {}
    ensures o in s
  {
    o :| o in s;
  }

  /** Unlinks every partial in sight, once no row is pending. */
  method RemoveOrphanPartials(m: Machine, ghost goal: Goal) returns (r: Power<nat>)
    requires m.Valid() && OnCourse(m.hash, m.W(), goal) && PendingRows(m.db) == {}
    modifies m
    ensures m.Valid() && old(m.trace) <= m.trace && OnCourse(m.hash, m.W(), goal) && m.db == old(m.db)
    ensures r.On? ==> r.value == |Partials(old(m.disk.now))| && Partials(m.disk.now) == {}
    ensures Partials(old(m.disk.now)) == {} ==> r.On? && m.W() == old(m.W())
  {
    var removed := 0;
    ghost var all := Partials(m.disk.now);
    while Partials(m.disk.now) != {}
      invariant m.Valid() && old(m.trace) <= m.trace && OnCourse(m.hash, m.W(), goal) && m.db == old(m.db)
      invariant removed + |Partials(m.disk.now)| == |all| && (all == {} ==> m.W() == old(m.W()))
      decreases |Partials(m.disk.now)|
    {
      var p :| p in Partials(m.disk.now);
      ghost var left := Partials(m.disk.now);
      NothingPending(m.db);
      var _ :- m.Recovering(UnlinkPartial(p.sha), goal);
      assert Partials(m.disk.now) == left - {p};
      removed := removed + 1;
    }
    return On(removed);
  }

  lemma NothingPending(db: Manifest)
    requires PendingRows(db) == {}
    ensures forall o <- db.objects :: db.objects[o].status == VerifiedObject
  {
    forall o <- db.objects
      ensures db.objects[o].status == VerifiedObject
    {
      assert o !in PendingRows(db);
    }
  }

  function InterruptedJobs(db: Manifest): set<string> {
    set j | j in db.jobs && Interrupted(db.jobs[j].state)
  }

  lemma FlaggingOne(db: Manifest, j: string)
    requires j in InterruptedJobs(db)
    ensures InterruptedJobs(db.(jobs := db.jobs[j := db.jobs[j].(state := RECOVERY_REQUIRED)])) == InterruptedJobs(db) - {j}
  {
  }

  method FlagJob(m: Machine, j: string, ghost goal: Goal) returns (r: Power<()>)
    requires m.Valid() && OnCourse(m.hash, m.W(), goal) && j in InterruptedJobs(m.db)
    modifies m
    ensures m.Valid() && old(m.trace) <= m.trace && OnCourse(m.hash, m.W(), goal) && m.disk == old(m.disk)
    ensures m.db == if r.On?
                    then old(m.db).(jobs := old(m.db.jobs)[j := old(m.db.jobs)[j].(state := RECOVERY_REQUIRED)])
                    else old(m.db)
  {
    r := m.Recovering(SetJobState(j, RECOVERY_REQUIRED), goal);
  }

  /** Marks every job that was left in a running state as needing recovery. */
  method FlagInterruptedJobs(m: Machine, ghost goal: Goal) returns (r: Power<()>)
    requires m.Valid() && OnCourse(m.hash, m.W(), goal)
    modifies m
    ensures m.Valid() && old(m.trace) <= m.trace && OnCourse(m.hash, m.W(), goal)
    ensures m.disk == old(m.disk) && m.db.objects == old(m.db.objects)
    ensures r.On? ==> InterruptedJobs(m.db) == {}
    ensures InterruptedJobs(old(m.db)) == {} ==> r.On? && m.W() == old(m.W())
  {
    while InterruptedJobs(m.db) != {}
      invariant m.Valid() && old(m.trace) <= m.trace && OnCourse(m.hash, m.W(), goal)
      invariant m.disk == old(m.disk) && m.db.objects == old(m.db.objects)
      invariant InterruptedJobs(old(m.db)) == {} ==> m.W() == old(m.W())
      decreases |InterruptedJobs(m.db)|
    {
      var j :| j in InterruptedJobs(m.db);
      FlaggingOne(m.db, j);
      var _ :- FlagJob(m, j, goal);
    }
    return On(());
  }

  datatype RecoveryReport = RecoveryReport(finalized: nat, discarded: nat, orphanPartialsRemoved: nat)

  function DoomedRows(h: Hash, w: World): set<Id> {
    set o | o in PendingRows(w.db) && Doomed(h, w, o)
  }

  /** The partials that no pending row would have renamed or unlinked. */
  function Orphans(w: World): set<Path> {
    set p | p in Partials(w.disk.now) && (forall o <- PendingRows(w.db) :: !Claims(w, o, p.sha))
  }

  /** The report counts what recovery had to finalize, to discard and to remove in `w`. */
  ghost predicate Accounts(h: Hash, w: World, report: RecoveryReport) {
    && report.finalized == |PendingRows(w.db) - DoomedRows(h, w)|
    && report.discarded == |DoomedRows(h, w)|
    && report.orphanPartialsRemoved == |Orphans(w)|
  }

  lemma ReportAccounts(h: Hash, w: World, v: World, report: RecoveryReport, goal: Goal)
    requires OnCourse(h, w, goal) && RowsDone(w, v, PendingRows(w.db))
    requires (report.finalized, report.discarded) == Tally(PendingRows(w.db), goal)
    requires report.orphanPartialsRemoved == |Partials(v.disk.now)|
    ensures Accounts(h, w, report)
  {
    var pending, keys := PendingRows(w.db), goal.db.objects.Keys;
    DoomedAreNotInGoal(h, w, goal);
    assert pending - DoomedRows(h, w) == pending * keys;
    OrphansAreLeft(w, v);
  }

  lemma DoomedAreNotInGoal(h: Hash, w: World, goal: Goal)
    requires OnCourse(h, w, goal)
    ensures DoomedRows(h, w) == PendingRows(w.db) - goal.db.objects.Keys
  {
    UseCourse(h, w, goal);
  }

  lemma OrphansAreLeft(w: World, v: World)
    requires RowsDone(w, v, PendingRows(w.db))
    ensures Orphans(w) == Partials(v.disk.now)
  {
    UseRowsDone(w, v, PendingRows(w.db));
    forall p: Path
      ensures p in Orphans(w) <==> p in Partials(v.disk.now)
    {
      if p.Partial? {
        assert p == Partial(p.sha);
      }
    }
  }

  /**
   Startup recovery. Finished or cut short, it is on course for the goal of the state it began
   with; finished, there is nothing left to do, and the report counts exactly what there was.
   */
  method RecoverOnStartup(m: Machine, chunkBytes: int, ghost goal: Goal) returns (r: Power<RecoveryReport>)
    requires m.Valid() && OnCourse(m.hash, m.W(), goal) && chunkBytes > 0
    requires forall o <- PendingRows(m.db) :: Settled(m.disk, m.db.objects[o].identity.sha)
    modifies m
    ensures m.Valid() && old(m.trace) <= m.trace && OnCourse(m.hash, m.W(), goal)
    ensures r.On? ==> Terminal(m.W()) && m.db == goal.db && Accounts(m.hash, old(m.W()), r.value)
    ensures r.On? ==>
              && m.db.jobs.Keys == old(m.db.jobs).Keys
              && forall j <- m.db.jobs ::
                   var s := old(m.db.jobs)[j].state;
                   m.db.jobs[j] == if s == BACKUP_COPYING || s == BACKUP_VERIFYING || s == BACKUP_CANCELLING
                                   then old(m.db.jobs)[j].(state := RECOVERY_REQUIRED) else old(m.db.jobs)[j]
    ensures r.On? ==>
              var pending := set o | o in old(m.db.objects) && old(m.db.objects)[o].status == PendingFinalize;
              && r.value.finalized == |set o | o in pending && o in m.db.objects|
              && r.value.discarded == |set o | o in pending && o !in m.db.objects|
    ensures Terminal(old(m.W())) ==> r == On(RecoveryReport(0, 0, 0)) && m.W() == old(m.W())
  {
    if Terminal(m.W()) {
      NothingToDo(m.hash, m.W());
    }
    var tally :- RecoverRows(m, chunkBytes, goal);
    ghost var v := m.W();
    assert PendingRows(m.db) == {} by {
      UseRowsDone(old(m.W()), v, PendingRows(old(m.db)));
    }
    var removed :- RemoveOrphanPartials(m, goal);
    var report := RecoveryReport(tally.0, tally.1, removed);
    ReportAccounts(m.hash, old(m.W()), v, report, goal);
    var _ :- FlagInterruptedJobs(m, goal);
    NothingLeft(m.W());
    m.Now();
    FinishedStateIsGoal(m.hash, m.W(), goal);
    RecoveredFrom(m.hash, old(m.W()), m.W(), report, goal);
    return On(report);
  }

  lemma RecoveredFrom(h: Hash, v: World, w: World, report: RecoveryReport, goal: Goal)
    requires OnCourse(h, v, goal) && w.db == goal.db
    requires (report.finalized, report.discarded) == Tally(PendingRows(v.db), goal)
    ensures w.db.jobs.Keys == v.db.jobs.Keys
    ensures forall j <- w.db.jobs ::
              var s := v.db.jobs[j].state;
              w.db.jobs[j] == if s == BACKUP_COPYING || s == BACKUP_VERIFYING || s == BACKUP_CANCELLING
                              then v.db.jobs[j].(state := RECOVERY_REQUIRED) else v.db.jobs[j]
    ensures var pending := set o | o in v.db.objects && v.db.objects[o].status == PendingFinalize;
            && report.finalized == |set o | o in pending && o in w.db.objects|
            && report.discarded == |set o | o in pending && o !in w.db.objects|
  {
    UseCourse(h, v, goal);
    RunningJobsAreFlagged(h, v);
    CountsTell(v.db.objects, PendingRows(v.db), w.db.objects);
  }

  lemma CountsTell(before: map<Id, ObjectRow>, rows: set<Id>, after: map<Id, ObjectRow>)
    requires rows == set o | o in before && before[o].status == PendingFinalize
    ensures var pending := set o | o in before && before[o].status == PendingFinalize;
            && |rows * after.Keys| == |set o | o in pending && o in after|
            && |rows - after.Keys| == |set o | o in pending && o !in after|
  {
    var pending := set o | o in before && before[o].status == PendingFinalize;
    assert rows * after.Keys == set o | o in pending && o in after;
    assert rows - after.Keys == set o | o in pending && o !in after;
  }

  lemma NothingLeft(w: World)
    requires PendingRows(w.db) == {} && Partials(w.disk.now) == {} && InterruptedJobs(w.db) == {}
    ensures Terminal(w)
  {
    NothingPending(w.db);
    forall p <- w.disk.now
      ensures !p.Partial?
    {
      assert p !in Partials(w.disk.now);
    }
    forall j <- w.db.jobs
      ensures !Interrupted(w.db.jobs[j].state)
    {
      assert j !in InterruptedJobs(w.db);
    }
  }

  /** The jobs left in a running state, and they alone, have come to need recovery. */
  predicate Flagged(before: map<string, JobRow>, after: map<string, JobRow>) {
    && after.Keys == before.Keys
    && forall j <- before ::
         var s := before[j].state;
         after[j] == if s == BACKUP_COPYING || s == BACKUP_VERIFYING || s == BACKUP_CANCELLING
                     then before[j].(state := RECOVERY_REQUIRED) else before[j]
  }

  /**
   Power returns, recovery starts, and the power may go again, any number of times. If a
   recovery is ever allowed to finish, the machine is where a first undisturbed one would have
   taken it.
   */
  method BootUntilRecovered(m: Machine, boots: nat, chunkBytes: int)
    returns (r: Power<RecoveryReport>, ghost first: World)
    requires m.Valid() && chunkBytes > 0
    modifies m
    ensures m.Valid() && old(m.trace) <= m.trace
    ensures CrashImage(old(m.disk), first.disk) && first.db == old(m.db)
    ensures OnCourse(m.hash, m.W(), GoalOf(m.hash, first))
    ensures r.On? ==> Terminal(m.W()) && m.db == GoalOf(m.hash, first).db && Flagged(old(m.db.jobs), m.db.jobs)
  {
    m.Boot();
    first := m.W();
    ghost var goal := GoalOf(m.hash, first);
    MakeCourse(m.hash, first);
    RunningJobsAreFlagged(m.hash, first);
    BootedIsSettled(m.disk);
    r := RecoverOnStartup(m, chunkBytes, goal);
    var left := boots;
    while r.Cut? && left > 0
      invariant m.Valid() && old(m.trace) <= m.trace && OnCourse(m.hash, m.W(), goal)
      invariant r.On? ==> Terminal(m.W()) && m.db == goal.db
    {
      ghost var w := m.W();
      m.Now();
      m.Boot();
      CrashStaysOnCourse(m.hash, w, m.disk, goal);
      BootedIsSettled(m.disk);
      r := RecoverOnStartup(m, chunkBytes, goal);
      left := left - 1;
    }
  }

  lemma BootedIsSettled(d: Disk)
    requires d.images == {d.now}
    ensures forall sha: string :: Settled(d, sha)
  {
  }

  lemma NothingToDo(h: Hash, w: World)
    requires Terminal(w)
    ensures PendingRows(w.db) == {} && Partials(w.disk.now) == {} && InterruptedJobs(w.db) == {}
    ensures DoomedRows(h, w) == {} && Orphans(w) == {}
  {
  }

  /** A second recovery finds nothing to do, and leaves every name, every byte and every row as the first left it. */
  method RecoverTwice(m: Machine, chunkBytes: int, ghost goal: Goal) returns (r: Power<RecoveryReport>, ghost between: World)
    requires m.Valid() && OnCourse(m.hash, m.W(), goal) && chunkBytes > 0
    requires forall o <- PendingRows(m.db) :: Settled(m.disk, m.db.objects[o].identity.sha)
    modifies m
    ensures m.Valid() && old(m.trace) <= m.trace && OnCourse(m.hash, m.W(), goal)
    ensures r.On? ==> Terminal(between) && r.value == RecoveryReport(0, 0, 0) && m.W() == between
  {
    r := RecoverOnStartup(m, chunkBytes, goal);
    between := m.W();
    if r.On? {
      NothingToDo(m.hash, m.W());
      r := RecoverOnStartup(m, chunkBytes, goal);
    }
  }
}
