/** What a merge is for: the space it gives back. */
module Reclaim {
  import opened Bytes
  import opened Records
  import opened Log
  import opened Engine
  import opened Invariant
  import opened Compaction
  import opened Usage

  // Every record on disk is the newest of its key, and a put: nothing is there that the index does
  // not lead to.
  ghost predicate Tight(fs: Files, ix: Index) {
    && (forall k :: k in ix ==> !ix[k].tomb)
    && (forall id :: id in fs ==> TightFile(fs, ix, id))
  }

  ghost predicate TightFile(fs: Files, ix: Index, id: nat)
    requires id in fs
  {
    var rs := fs[id].recs;
    fs[id].tail == [] && forall i :: 0 <= i < |rs| ==> rs[i].key in ix && ix[rs[i].key] == Locate(id, rs, i)
  }

  // --- counting ------------------------------------------------------------------------------------

  lemma {:induction false} FileFull(fs: Files, ix: Index, id: nat, n: nat)
    requires Pointing(fs, ix) && Tight(fs, ix) && id in fs && n <= |fs[id].recs|
    ensures Sum(InFile(ix, id, SizeAll(fs[id].recs[..n])), Bytes1) == SizeAll(fs[id].recs[..n])
    decreases n
  {
    hide Pointing, Sum;
    var rs := fs[id].recs;
    if n == 0 {
      assert InFile(ix, id, SizeAll(rs[..0])) == map[];
      NothingSums(Bytes1);
    } else {
      FileFull(fs, ix, id, n - 1);
      OneKey(fs, ix, id, n - 1);
      assert rs[..n][..n - 1] == rs[..n - 1];
      assert SizeAll(rs[..n]) == SizeAll(rs[..n - 1]) + Size(rs[n - 1]);
      assert TightFile(fs, ix, id);
      hide SizeAll;
      var b, k := InFile(ix, id, SizeAll(rs[..n])), rs[n - 1].key;
      assert k in b && k !in InFile(ix, id, SizeAll(rs[..n - 1]));
      SumRemove(b, k, Bytes1);
    }
  }

  lemma FileTaken(fs: Files, ix: Index, id: nat)
    requires Pointing(fs, ix) && Tight(fs, ix) && id in fs
    ensures Sum(OfFile(ix, id), Bytes1) == FileSize(fs[id])
  {
    hide Sum, SizeAll, At;
    var rs := fs[id].recs;
    assert rs[..|rs|] == rs && TightFile(fs, ix, id);
    FileFull(fs, ix, id, |rs|);
    FileReach(fs, ix, id);
  }

  lemma StillTight(fs: Files, ix: Index, id: nat)
    requires Tight(fs, ix)
    ensures Tight(fs - {id}, NotOfFile(ix, id))
  {
    hide SizeAll;
    var gs, jx := fs - {id}, NotOfFile(ix, id);
    forall j | j in gs ensures TightFile(gs, jx, j) {
      assert TightFile(fs, ix, j);
    }
  }

  lemma NothingIndexed(ix: Index)
    requires Pointing(map[], ix)
    ensures ix == map[]
  {
    assert forall k :: k in ix ==> Points(map[], k, ix[k]);
  }

  // Then the bytes on disk are the live bytes: there is nothing left to reclaim.
  lemma {:induction false} TightTotal(fs: Files, ix: Index)
    requires Pointing(fs, ix) && Tight(fs, ix)
    ensures Total(fs) == Sum(ix, Bytes1)
    decreases |fs|
  {
    hide Sum, Total, At, Tight, FileSize, Pointing;
    if fs == map[] {
      NothingIndexed(ix);
      NothingSums(Bytes1);
      NoFiles();
    } else {
      var id :| id in fs;
      TotalRemove(fs, id);
      FileTaken(fs, ix, id);
      StillPointing(fs, ix, id);
      StillTight(fs, ix, id);
      TightTotal(fs - {id}, NotOfFile(ix, id));
      SumSplit(OfFile(ix, id), NotOfFile(ix, id), Bytes1);
      assert OfFile(ix, id) + NotOfFile(ix, id) == ix;
    }
  }

  // --- a merge with nobody else at work ----------------------------------------------------------------

  // Beside the merge set and the outputs there is only an empty active file, and the outputs hold
  // one record for each item moved.
  ghost predicate Solo(db: Db) {
    && db.active in db.files && db.files[db.active] == File([], [])
    && db.files.Keys == db.merge.ids + OutSet(db.merge.outs) + {db.active}
    && forall id, i :: id in db.merge.outs && id in db.files && 0 <= i < |db.files[id].recs| ==>
         MovedTo(db.merge.moved, id, db.files[id].recs, i)
  }

  ghost predicate MovedTo(moved: seq<Entry>, id: nat, rs: seq<Record>, i: nat)
    requires i < |rs|
  {
    exists j :: 0 <= j < |moved| && moved[j] == Locate(id, rs, i)
  }

  lemma SealSolo(db: Db, ledger: map<nat, Record>)
    requires Sound(db, ledger) && db.merge.phase == Idle
    ensures var d := Seal(db);
            && d.files[d.active] == File([], []) && db.files.Keys <= d.files.Keys && d.sn == db.sn
            && (d.active in db.files ==> d.active == db.active && FileSize(db.files[db.active]) == 0)
            && (if d.merge.phase == Idle then d == db && d.files.Keys == {d.active}
                else Solo(d) && d.merge.phase == Sealed && d.merge.barrier == db.sn
                     && d.files.Keys == d.merge.ids + {d.active})
            && (d.merge.phase == Idle <==> db.files.Keys == {db.active} && FileSize(db.files[db.active]) == 0)
  {
    hide SizeAll, Points, Ledgered, Pointing, Newest, Forgotten, Split, Collected, Moved, OnlyCopies, Awaiting;
    if FileSize(db.files[db.active]) == 0 {
      NoBytes(db.files[db.active].recs);
    }
    assert db.nextID !in db.files;
    assert OutSet([]) == {};
    var d := Seal(db);
    var ids := d.files.Keys - {d.active};
    assert d.files.Keys == ids + {d.active};
  }

  lemma CopySolo(db: Db, ledger: map<nat, Record>)
    requires Sound(db, ledger) && db.merge.phase == Copying && |db.merge.moved| < |db.merge.items| && Solo(db)
    ensures Solo(Copy(db))
  {
    hide Sound, Copy, Points, SizeAll, Lifted, Tomb, Solo;
    var r := NextItem(db, ledger);
    LiftedTwice(r);
    OutputsApart(db, ledger);
    var out := CopyTarget(db, ledger, r);
    CopiedSolo(db, out, Lifted(r), Copy(db));
  }

  lemma OutputsApart(db: Db, ledger: map<nat, Record>)
    requires Sound(db, ledger)
    ensures forall id :: id in db.merge.outs ==> id in db.files && id != db.active && db.files[id].tail == []
    ensures db.nextID !in db.files
  {
  }

  lemma CopiedSolo(db: Db, out: nat, l: Record, d: Db)
    requires Solo(db) && CopiedTo(db, out, l, d) && !Tomb(l) && db.nextID !in db.files
    requires forall id :: id in db.merge.outs ==> id in db.files && id != db.active && db.files[id].tail == []
    ensures Solo(d)
  {
    hide Tomb, SizeAll;
    forall id, i | id in d.merge.outs && id in d.files && 0 <= i < |d.files[id].recs|
      ensures MovedTo(d.merge.moved, id, d.files[id].recs, i)
    {
      var was := if id in db.files then db.files[id].recs else [];
      if i < |was| {
        assert MovedTo(db.merge.moved, id, was, i);
        var j :| 0 <= j < |db.merge.moved| && db.merge.moved[j] == Locate(id, was, i);
        assert d.files[id].recs[..i] == was[..i];
        assert d.merge.moved[j] == Locate(id, d.files[id].recs, i);
      } else {
        assert d.files[id].recs[..i] == was;
        assert d.merge.moved[|db.merge.moved|] == Locate(id, d.files[id].recs, i);
      }
    }
  }

  // --- the unlink ------------------------------------------------------------------------------------------

  // In any interleaving: what is left at or below the watermark are puts, and of each key only one
  // version.
  lemma UnlinkSheds(db: Db, ledger: map<nat, Record>, id: nat, r: Record)
    requires Sound(db, ledger) && db.merge.phase == Dropping
    requires Holds(Unlink(db).files, id, r) && r.sn <= db.merge.barrier
    ensures !Tomb(r)
    ensures forall other, q :: Holds(Unlink(db).files, other, q) && q.key == r.key && q.sn <= db.merge.barrier ==>
              Lifted(q) == Lifted(r)
  {
    hide Sound, Tomb, Lifted, KeyOrdered;
    var j := ShedItem(db, ledger, id, r);
    forall other, q | Holds(Unlink(db).files, other, q) && q.key == r.key && q.sn <= db.merge.barrier
      ensures Lifted(q) == Lifted(r)
    {
      var i := ShedItem(db, ledger, other, q);
      ItemsDiffer(db, ledger, i, j);
    }
  }

  lemma ItemsDiffer(db: Db, ledger: map<nat, Record>, i: nat, j: nat)
    requires Sound(db, ledger) && i < |db.merge.items| && j < |db.merge.items|
    requires db.merge.items[i].key == db.merge.items[j].key
    ensures i == j
  {
    hide KeyOrdered;
    SameKeySameItem(db.merge.items, i, j);
  }

  // Such a record is the copy of an item.
  lemma ShedItem(db: Db, ledger: map<nat, Record>, id: nat, r: Record) returns (j: nat)
    requires Sound(db, ledger) && db.merge.phase == Dropping
    requires Holds(Unlink(db).files, id, r) && r.sn <= db.merge.barrier
    ensures id in db.merge.outs && j < |db.merge.items| && db.merge.items[j].key == r.key
    ensures db.merge.items[j].e.sn == r.sn && !Tomb(r) && r.sn in ledger && ledger[r.sn] == Lifted(r)
  {
    hide KeyOrdered, Tomb, Lifted, Points, Awaiting, Moved, Newest, Pointing;
    assert Holds(db.files, id, r);
    assert CopyOf(db.merge.items, r);
    j :| 0 <= j < |db.merge.items| && db.merge.items[j].key == r.key && db.merge.items[j].e.sn == r.sn;
    assert CollectedItem(db.files, db.merge.ids, db.merge.items[j], false);
    PointsHolds(db.files, db.merge.items[j].key, db.merge.items[j].e);
    var q :| Holds(db.files, db.merge.items[j].e.file, q) && q.sn == r.sn && !Tomb(q);
    LiftedTwice(q);
    LiftedTwice(r);
  }

  // With nobody else at work nothing else is left, and nothing that the index does not lead to.
  lemma SoloTight(db: Db, ledger: map<nat, Record>)
    requires Sound(db, ledger) && db.merge.phase == Dropping && Solo(db)
    ensures Unlink(db).files.Keys == OutSet(db.merge.outs) + {db.active}
    ensures Tight(Unlink(db).files, db.index)
  {
    hide Sound;
    SoloFiles(db, ledger);
    SoloLive(db, ledger);
    var fs := Unlink(db).files;
    forall id | id in fs ensures TightFile(fs, db.index, id) {
      if id != db.active {
        forall i | 0 <= i < |fs[id].recs|
          ensures fs[id].recs[i].key in db.index && db.index[fs[id].recs[i].key] == Locate(id, fs[id].recs, i)
        {
          SoloIndexed(db, ledger, id, i);
        }
      }
    }
  }

  lemma SoloFiles(db: Db, ledger: map<nat, Record>)
    requires Sound(db, ledger) && Solo(db)
    ensures Unlink(db).files.Keys == OutSet(db.merge.outs) + {db.active}
    ensures forall id :: id in Unlink(db).files ==> Unlink(db).files[id].tail == []
    ensures forall id :: id in Unlink(db).files ==> Unlink(db).files[id] == db.files[id]
  {
    hide Bounded, Ledgered, Pointing, Newest, Forgotten, Split, Collected, Moved, OnlyCopies, Awaiting, Untouched;
    assert (db.files - db.merge.ids).Keys == db.files.Keys - db.merge.ids;
  }

  // Every entry leads into an output, where the record is one of those moved.
  lemma SoloEntry(db: Db, ledger: map<nat, Record>, k: Bytes) returns (i: nat, j: nat)
    requires Sound(db, ledger) && db.merge.phase == Dropping && Solo(db) && k in db.index
    ensures j < |db.merge.items| == |db.merge.moved| && db.merge.items[j].key == k
    ensures db.index[k] == db.merge.moved[j] && !db.index[k].tomb
  {
    hide Sound, Tomb, SizeAll, At, Locate;
    UnlinkSound(db, ledger);
    var e := db.index[k];
    Entered(db, ledger, k);
    var rs := db.files[e.file].recs;
    i := IndexAt(rs, e.pos);
    assert MovedTo(db.merge.moved, e.file, rs, i);
    j :| 0 <= j < |db.merge.moved| && db.merge.moved[j] == Locate(e.file, rs, i);
    MovedKey(db, ledger, j);
    LocateAt(e.file, rs, i);
  }

  // The entry of a key once its file is one of the outputs.
  lemma Entered(db: Db, ledger: map<nat, Record>, k: Bytes)
    requires Sound(db, ledger) && db.merge.phase == Dropping && Solo(db) && k in db.index
    ensures db.index[k].file in db.merge.outs && db.index[k].file in db.files && Points(db.files, k, db.index[k])
  {
    hide Points, Ledgered, Bounded, Newest, Forgotten, Split, Collected, Moved, OnlyCopies, MovedTo;
    NothingAwaits(db.index, db.merge);
    assert Points(db.files, k, db.index[k]);
    PointsHolds(db.files, k, db.index[k]);
  }

  lemma MovedKey(db: Db, ledger: map<nat, Record>, j: nat)
    requires Sound(db, ledger) && db.merge.phase == Dropping && j < |db.merge.moved|
    ensures |db.merge.items| == |db.merge.moved| && Points(db.files, db.merge.items[j].key, db.merge.moved[j])
    ensures !db.merge.moved[j].tomb
  {
    hide Points, Ledgered, Bounded, Newest, Forgotten, Split, Collected, OnlyCopies;
    assert MovedItem(db.files, db.merge.outs, db.merge.items[j], db.merge.moved[j]);
  }

  lemma LocateAt(id: nat, rs: seq<Record>, i: nat)
    requires i < |rs|
    ensures At(rs, Locate(id, rs, i).pos) == Some(rs[i]) && Locate(id, rs, i).file == id
    ensures Locate(id, rs, i) == Entry(SizeAll(rs[..i]), rs[i].sn, id, Size(rs[i]), Tomb(rs[i]))
  {
    AtIndex(rs, i);
  }

  lemma SoloLive(db: Db, ledger: map<nat, Record>)
    requires Sound(db, ledger) && db.merge.phase == Dropping && Solo(db)
    ensures forall k :: k in db.index ==> !db.index[k].tomb
  {
    hide Sound, Solo;
    forall k | k in db.index ensures !db.index[k].tomb {
      var i, j := SoloEntry(db, ledger, k);
    }
  }

  lemma SoloIndexed(db: Db, ledger: map<nat, Record>, id: nat, i: nat)
    requires Sound(db, ledger) && db.merge.phase == Dropping && Solo(db)
    requires id in db.merge.outs && id in db.files && i < |db.files[id].recs|
    ensures var rs := db.files[id].recs; rs[i].key in db.index && db.index[rs[i].key] == Locate(id, rs, i)
  {
    hide Sound, Locate, SizeAll, At;
    var rs := db.files[id].recs;
    var k := rs[i].key;
    assert MovedTo(db.merge.moved, id, rs, i);
    var j :| 0 <= j < |db.merge.moved| && db.merge.moved[j] == Locate(id, rs, i);
    MovedKey(db, ledger, j);
    LocateAt(id, rs, i);
    StillKnown(db, ledger, id, rs[i]);
    var _, n := SoloEntry(db, ledger, k);
    ItemsDiffer(db, ledger, n, j);
  }

  // A key with a record outside the merge set is in the index.
  lemma StillKnown(db: Db, ledger: map<nat, Record>, id: nat, r: Record)
    requires Sound(db, ledger) && Holds(db.files, id, r) && id in db.merge.outs
    ensures r.key in db.index
  {
    hide Pointing, Ledgered, Bounded, Newest, Split, Collected, OnlyCopies, Awaiting;
  }
}
