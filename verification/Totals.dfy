/** The destination totals, and their agreement with the files in the store. */
module Totals {
  import opened Wrappers
  import opened Identity
  import opened FileSystem
  import opened Manifest
  import opened Protocol
  import opened Runs
  import opened RecoveryGoal
  import opened Repository
  import opened Copier
  import opened Sums

  function VerifiedRows(db: Manifest): set<Id> {
    set o | o in db.objects && db.objects[o].status == VerifiedObject
  }

  function RowSize(db: Manifest, o: Id): nat {
    if o in db.objects then db.objects[o].identity.size else 0
  }

  function Sizes(db: Manifest): Id -> nat {
    o => RowSize(db, o)
  }

  /** The count and the bytes of the VERIFIED objects. */
  ghost function DestinationTotals(db: Manifest): (nat, nat) {
    (|VerifiedRows(db)|, SumOver(VerifiedRows(db), Sizes(db)))
  }

  lemma OneMoreRow(before: Manifest, after: Manifest, o: Id, id: ContentIdentity)
    requires o !in before.objects && after.objects == before.objects[o := ObjectRow(id, VerifiedObject)]
    ensures o !in VerifiedRows(before) && VerifiedRows(after) == VerifiedRows(before) + {o}
    ensures RowSize(after, o) == id.size && forall p <- VerifiedRows(before) :: RowSize(before, p) == RowSize(after, p)
  {
  }

  lemma AddingToTotals(before: Manifest, after: Manifest, id: ContentIdentity)
    requires AddsObject(before, after, id)
    ensures DestinationTotals(after).0 == DestinationTotals(before).0 + 1
    ensures DestinationTotals(after).1 == DestinationTotals(before).1 + id.size
  {
    var o: Id :| o !in before.objects && after.objects == before.objects[o := ObjectRow(id, VerifiedObject)];
    OneMoreRow(before, after, o, id);
    SumOverAdds(VerifiedRows(before), o, Sizes(after));
    SumOverAgrees(VerifiedRows(before), Sizes(before), Sizes(after));
  }

  lemma SameTotals(before: Manifest, after: Manifest)
    requires before.objects == after.objects
    ensures DestinationTotals(after) == DestinationTotals(before)
  {
    assert VerifiedRows(after) == VerifiedRows(before);
    SumOverAgrees(VerifiedRows(before), Sizes(before), Sizes(after));
  }

  function StoreFiles(d: Disk): set<Path> {
    set p | p in d.now && p.Final?
  }

  function Lengths(d: Disk): Path -> nat {
    p => FileSize(d, p)
  }

  /** The number and the bytes of the canonical files in sight. */
  ghost function StoreTotals(d: Disk): (nat, nat) {
    (|StoreFiles(d)|, SumOver(StoreFiles(d), Lengths(d)))
  }

  function PartialFiles(d: Disk): set<Path> {
    set p | p in d.now && p.Partial?
  }

  /** The bytes of the partials in sight. */
  ghost function PartialBytes(d: Disk): nat {
    SumOver(PartialFiles(d), Lengths(d))
  }

  lemma OtherPartials(d: Disk, e: Disk, sha: string)
    requires DiskOk(d) && OthersStay(d, e, sha)
    ensures PartialFiles(e) - {Partial(sha)} == PartialFiles(d) - {Partial(sha)}
    ensures forall p <- PartialFiles(d) - {Partial(sha)} :: FileSize(e, p) == FileSize(d, p)
  {
    assert OthersStayFacts(d, e, sha, Unit);
    forall p: Path | p.Partial? && p != Partial(sha)
      ensures p in PartialFiles(e) <==> p in PartialFiles(d)
      ensures p in PartialFiles(d) ==> FileSize(e, p) == FileSize(d, p)
    {
      assert SameName(d, e, Partial(p.sha));
      assert d.now in d.images;
    }
  }

  lemma BytesWithout(d: Disk, p: Path)
    requires p.Partial?
    ensures PartialBytes(d) == SumOver(PartialFiles(d) - {p}, Lengths(d)) + FileSize(d, p)
  {
    if p in PartialFiles(d) {
      SumOverAdds(PartialFiles(d) - {p}, p, Lengths(d));
      assert (PartialFiles(d) - {p}) + {p} == PartialFiles(d);
    } else {
      assert PartialFiles(d) - {p} == PartialFiles(d);
    }
  }

  /** Where only one partial may have changed, the bytes of the partials change by what it changed. */
  lemma PartialBytesChange(d: Disk, e: Disk, sha: string)
    requires DiskOk(d) && OthersStay(d, e, sha)
    ensures PartialBytes(e) + FileSize(d, Partial(sha)) == PartialBytes(d) + FileSize(e, Partial(sha))
  {
    OtherPartials(d, e, sha);
    BytesWithout(d, Partial(sha));
    BytesWithout(e, Partial(sha));
    SumOverAgrees(PartialFiles(d) - {Partial(sha)}, Lengths(d), Lengths(e));
  }

  lemma PartialBytesStay(d: Disk, e: Disk)
    requires DiskOk(d) && PartialsStay(d, e)
    ensures PartialBytes(e) == PartialBytes(d)
  {
    assert PartialsStayFacts(d, e, Unit);
    forall p: Path | p.Partial?
      ensures p in PartialFiles(e) <==> p in PartialFiles(d)
      ensures p in PartialFiles(d) ==> FileSize(e, p) == FileSize(d, p)
    {
      assert SameName(d, e, Partial(p.sha));
      assert d.now in d.images;
    }
    assert PartialFiles(e) == PartialFiles(d);
    SumOverAgrees(PartialFiles(d), Lengths(d), Lengths(e));
  }

  function FinalOf(db: Manifest, o: Id): Path {
    Final(if o in db.objects then db.objects[o].identity.sha else "")
  }

  lemma RowsAreFiles(h: Hash, w: World)
    requires SizeDetermined(h) && Inv(h, w) && Quiescent(w.db)
    ensures StoreFiles(w.disk) == set o | o in VerifiedRows(w.db) :: FinalOf(w.db, o)
    ensures forall o, p | o in VerifiedRows(w.db) && p in VerifiedRows(w.db) && FinalOf(w.db, o) == FinalOf(w.db, p) :: o == p
    ensures forall o | o in VerifiedRows(w.db) :: RowSize(w.db, o) == FileSize(w.disk, FinalOf(w.db, o))
  {
    UseInv(h, w);
    forall o | o in VerifiedRows(w.db)
      ensures FinalOf(w.db, o) in w.disk.now && RowSize(w.db, o) == FileSize(w.disk, FinalOf(w.db, o))
    {
      FileHasIdentity(h, w.disk, w.db.objects[o].identity);
    }
    forall o, p | o in VerifiedRows(w.db) && p in VerifiedRows(w.db) && FinalOf(w.db, o) == FinalOf(w.db, p)
      ensures o == p
    {
      DigestDeterminesIdentity(h, w.db.objects[o].identity, w.db.objects[p].identity);
    }
    forall p | p in StoreFiles(w.disk)
      ensures exists o :: o in VerifiedRows(w.db) && FinalOf(w.db, o) == p
    {
      var o :| o in w.db.objects && w.db.objects[o].identity.sha == p.sha;
      assert p == Final(p.sha) && o in VerifiedRows(w.db);
    }
  }

  /**
   The index agrees with the store: whenever no object is pending (after recovery, and between
   any two files of a job), the VERIFIED rows are in bijection with the canonical files, and the
   destination totals are their number and their bytes.
   */
  lemma IndexAgreesWithStore(h: Hash, run: seq<World>, k: nat)
    requires SizeDetermined(h) && IsRun(h, run) && k < |run| && Quiescent(run[k].db)
    ensures DestinationTotals(run[k].db) == StoreTotals(run[k].disk)
  {
    EveryRunIsSafe(h, run, k);
    TotalsAreOfTheStore(h, run[k]);
  }

  lemma TotalsAreOfTheStore(h: Hash, w: World)
    requires SizeDetermined(h) && Inv(h, w) && Quiescent(w.db)
    ensures DestinationTotals(w.db) == StoreTotals(w.disk)
  {
    RowsAreFiles(h, w);
    SumOverImage(VerifiedRows(w.db), StoreFiles(w.disk), o => FinalOf(w.db, o), Sizes(w.db), Lengths(w.disk));
  }
}
