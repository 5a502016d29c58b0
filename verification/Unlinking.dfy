/** A process killed inside the unlink of a merge. The merged files are removed one by one, in
    ascending order, and a tombstone may be in a lower one than the put it shadows. */
module Unlinking {
  import opened Bytes
  import opened Records
  import opened Log
  import opened Engine
  import opened Invariant
  import opened Writing
  import opened Compaction
  import opened Hints
  import opened Recovery
  import opened Crash
  import opened Runs
  import opened Restarts

  // The merged files below m: what the loop has removed when it comes to m.
  function Removed(db: Db, m: nat): set<nat> { set id | id in db.merge.ids && id < m }

  // The disk a kill leaves then. Nothing else is lost.
  function Halfway(db: Db, m: nat): Disk
    requires Cut(db, Uncut(db)) && forall id :: id in db.files ==> AllValid(db.files[id].recs)
  {
    var disk := CrashDisk(db, Uncut(db));
    disk.(data := disk.data - Removed(db, m), hints := disk.hints - Removed(db, m))
  }

  ghost predicate Killed(w: World, m: nat, ids: seq<nat>) {
    && w.db.merge.phase == Dropping && Cut(w.db, Uncut(w.db))
    && (forall id :: id in w.db.files ==> AllValid(w.db.files[id].recs))
    && Listing(ids, w.db.files.Keys - Removed(w.db, m))
  }

  ghost predicate NewestIn(fs: Files, k: Bytes, r: Record) {
    r.key == k && (exists id :: Holds(fs, id, r)) && forall id, q :: Holds(fs, id, q) && q.key == k ==> q.sn <= r.sn
  }

  // The newest record of k that is left is a put, and not its newest record.
  ghost predicate Resurfaces(db: Db, m: nat, k: Bytes) {
    exists r, q :: ResurfacesAs(db, m, k, r, q)
  }

  ghost predicate ResurfacesAs(db: Db, m: nat, k: Bytes, r: Record, q: Record) {
    NewestIn(db.files - Removed(db, m), k, r) && !Tomb(r) && NewestIn(db.files, k, q) && r.sn < q.sn
  }

  // --- what recovery finds ------------------------------------------------------------------------

  // Every file that is left loads as it was.
  lemma HalfwayLoads(w: World, m: nat)
    requires Phys(w) && Cut(w.db, Uncut(w.db)) && forall id :: id in w.db.files ==> AllValid(w.db.files[id].recs)
    ensures Load(Halfway(w.db, m).data) == w.db.files - Removed(w.db, m)
  {
    hide Phys, Sound, LoadFile, CutBytes, FileBytes, AllValid, HintBytes, FileSize;
    PhysParts(w);
    forall id | id in w.db.files ensures LoadFile(CutBytes(w.db.files[id], Uncut(w.db)[id])) == w.db.files[id] {
      FileLoads(w.db, w.ledger, id);
      WholeCut(w.db.files[id], Uncut(w.db)[id]);
    }
  }

  lemma FileLoads(db: Db, ledger: map<nat, Record>, id: nat)
    requires Sound(db, ledger) && Tidy(db) && id in db.files
    ensures Loadable(db.files[id])
  {
    hide Bounded, Ledgered, Pointing, Newest, Forgotten, Merging, ModeOf, Intact, LoadFile, FileBytes, Immutable;
    if db.files[id].tail == [] {
      WholeLoads(db.files[id]);
    }
  }

  lemma HalfwayReadable(w: World, m: nat)
    requires Phys(w) && Cut(w.db, Uncut(w.db)) && forall id :: id in w.db.files ==> AllValid(w.db.files[id].recs)
    ensures Recovery.Readable(Halfway(w.db, m))
  {
    hide Phys, Sound, CutBytes, AllValid, HintBytes, ModeOf, Intact, HintTrue;
    PhysParts(w);
    CrashReadable(w.db, w.ledger, Uncut(w.db));
    var disk, half := CrashDisk(w.db, Uncut(w.db)), Halfway(w.db, m);
    forall id | id in half.hints && id in half.data ensures HintTrue(half, id) {
      assert HintTrue(disk, id);
      SameHint(disk, half, id);
    }
  }

  lemma SameHint(disk: Disk, half: Disk, id: nat)
    requires id in disk.hints && id in disk.data && id in half.hints && id in half.data
    requires half.hints[id] == disk.hints[id] && half.data[id] == disk.data[id]
    ensures HintTrue(disk, id) == HintTrue(half, id)
  {
    hide ModeOf, Intact, ReadHint;
  }

  // The index recovery builds is at the newest record that is left of every key.
  ghost predicate AtNewest(fs: Files, jx: Index) {
    Pointing(fs, jx) && forall id, r :: Holds(fs, id, r) ==> r.key in jx && r.sn <= jx[r.key].sn
  }

  lemma HalfwayIndex(w: World, m: nat, ids: seq<nat>)
    requires Phys(w) && Killed(w, m, ids)
    ensures forall i :: 0 <= i < |ids| ==> ids[i] in Halfway(w.db, m).data
    ensures AtNewest(w.db.files - Removed(w.db, m), Opened(Halfway(w.db, m), ids, w.db.maxSize).index)
  {
    hide Phys, Opened, CutBytes, HintBytes, AllValid, RecoverIndex, Recovery.Readable, CleanHints, Points;
    var gs, disk := w.db.files - Removed(w.db, m), Halfway(w.db, m);
    HalfwayLoads(w, m);
    HalfwayReadable(w, m);
    assert disk.data.Keys == gs.Keys;
    OpenedReadable(disk, ids, w.db.maxSize);
    RestartIndex(w.db.maxSize, disk.data, CleanHints(disk), disk.mergeSn, ids);
    RecoveredCovers(gs, ids, |ids|);
    ListedCovers(gs, ids, RecoverIndex(gs, ids, |ids|));
  }

  lemma RestartIndex(maxSize: nat, data: map<nat, Bytes>, hinted: set<nat>, mergeSn: nat, ids: seq<nat>)
    requires forall i :: 0 <= i < |ids| ==> ids[i] in data
    ensures Restart(maxSize, data, hinted, mergeSn, ids).index == RecoverIndex(Load(data), ids, |ids|)
  {
    hide LoadFile, RecoverSn;
    if ids == [] {
      assert RecoverIndex(Load(data), ids, 0) == map[];
    }
  }

  lemma ListedCovers(fs: Files, ids: seq<nat>, jx: Index)
    requires Listing(ids, fs.Keys) && Covers(fs, ids, |ids|, jx)
    ensures AtNewest(fs, jx)
  {
    hide Pointing;
    forall id, r | Holds(fs, id, r) ensures r.key in jx && r.sn <= jx[r.key].sn {
      assert id in ids;
    }
  }

  // --- what it denotes ----------------------------------------------------------------------------

  // A number names one record, so records with the same number agree.
  lemma SameRecord(fs: Files, ledger: map<nat, Record>, id: nat, r: Record, id': nat, q: Record)
    requires Ledgered(fs, ledger) && Holds(fs, id, r) && Holds(fs, id', q) && r.sn == q.sn
    ensures Tomb(r) == Tomb(q) && r.value == q.value && r.sn in ledger && ledger[r.sn].value == r.value
  {
    assert Lifted(r) == Lifted(q);
  }

  // The record an entry of the recovered index leads to.
  lemma FoundNewest(db: Db, gone: set<nat>, jx: Index, k: Bytes) returns (r: Record)
    requires AtNewest(db.files - gone, jx) && k in jx
    ensures NewestIn(db.files - gone, k, r) && r.sn == jx[k].sn && Tomb(r) == jx[k].tomb
    ensures Holds(db.files - gone, jx[k].file, r) && Holds(db.files, jx[k].file, r)
  {
    hide At, Tomb;
    assert Points(db.files - gone, k, jx[k]);
    r := Deref(db.files - gone, jx[k]).value;
  }

  // An indexed key is recovered as it is.
  lemma IndexedKey(db: Db, ledger: map<nat, Record>, m: nat, jx: Index, k: Bytes)
    requires Sound(db, ledger) && db.merge.phase == Dropping && k in db.index && AtNewest(db.files - Removed(db, m), jx)
    ensures k in jx && jx[k].sn == db.index[k].sn && jx[k].tomb == db.index[k].tomb && !Resurfaces(db, m, k)
  {
    hide Shaped, Bounded, Merging, At, Tomb, Removed;
    var e, gs := db.index[k], db.files - Removed(db, m);
    IndexedOutside(db, ledger, m, k);
    assert Points(db.files, k, e);
    var r := Deref(db.files, e).value;
    assert Holds(gs, e.file, r) && Holds(db.files, e.file, r);
    var q := FoundNewest(db, Removed(db, m), jx, k);
    SameRecord(db.files, ledger, e.file, r, jx[k].file, q);
  }

  lemma IndexedOutside(db: Db, ledger: map<nat, Record>, m: nat, k: Bytes)
    requires Sound(db, ledger) && db.merge.phase == Dropping && k in db.index
    ensures db.index[k].file !in Removed(db, m)
  {
    hide Shaped, Bounded, Ledgered, Pointing, Newest, Forgotten, MergeFiles, Split, Progress, Collected, Moved,
         OnlyCopies, Untouched;
    NothingAwaits(db.index, db.merge);
  }

  // A key that is not indexed was deleted, and its tombstone is in the merge set.
  lemma RetiredNewest(db: Db, ledger: map<nat, Record>, id: nat, r: Record) returns (at: nat, q: Record)
    requires Sound(db, ledger) && db.merge.phase == Dropping && Holds(db.files, id, r) && r.key !in db.index
    ensures Holds(db.files, at, q) && NewestIn(db.files, r.key, q) && Tomb(q)
  {
    hide Shaped, Bounded, Ledgered, Pointing, Newest, MergeFiles, Split, Progress, Moved, OnlyCopies, Untouched,
         Awaiting, At, Tomb;
    var k, ms := r.key, db.merge;
    assert k in RetiredKeys(ms);
    var j :| 0 <= j < RetiredDone(ms) && j < |ms.retired| && ms.retired[j].key == k;
    var it := ms.retired[j];
    assert CollectedItem(db.files, ms.ids, it, true);
    at, q := it.e.file, Deref(db.files, it.e).value;
    forall id', p | Holds(db.files, id', p) && p.key == k ensures p.sn <= q.sn {
      assert id' in ms.ids;
    }
    assert Holds(db.files, at, q);
  }

  lemma ForgottenKey(db: Db, ledger: map<nat, Record>, m: nat, jx: Index, k: Bytes)
    requires Sound(db, ledger) && db.merge.phase == Dropping && k !in db.index
    requires AtNewest(db.files - Removed(db, m), jx)
    ensures k in jx && !jx[k].tomb <==> Resurfaces(db, m, k)
  {
    hide Sound, Tomb, Removed, AtNewest;
    SoundLedgered(db, ledger);
    var gone := Removed(db, m);
    if k in jx && !jx[k].tomb {
      var r := FoundNewest(db, gone, jx, k);
      var at, q := RetiredNewest(db, ledger, jx[k].file, r);
      if r.sn == q.sn {
        SameRecord(db.files, ledger, jx[k].file, r, at, q);
      }
      assert ResurfacesAs(db, m, k, r, q);
    }
    if Resurfaces(db, m, k) {
      var r, q :| ResurfacesAs(db, m, k, r, q);
      SurvivorIndexed(db, ledger, gone, jx, k, r);
    }
  }

  lemma SoundLedgered(db: Db, ledger: map<nat, Record>)
    requires Sound(db, ledger)
    ensures Ledgered(db.files, ledger)
  {
    hide Shaped, Bounded, Ledgered, Pointing, Newest, Forgotten, Merging;
  }

  lemma SurvivorIndexed(db: Db, ledger: map<nat, Record>, gone: set<nat>, jx: Index, k: Bytes, r: Record)
    requires Ledgered(db.files, ledger) && AtNewest(db.files - gone, jx) && NewestIn(db.files - gone, k, r)
    ensures k in jx && jx[k].tomb == Tomb(r)
  {
    hide Tomb, Pointing, Ledgered;
    var id :| Holds(db.files - gone, id, r);
    var q := FoundNewest(db, gone, jx, k);
    assert Holds(db.files, id, r);
    SameRecord(db.files, ledger, id, r, jx[k].file, q);
  }

  // Key by key.
  lemma HalfwayKey(db: Db, ledger: map<nat, Record>, m: nat, jx: Index, k: Bytes)
    requires Sound(db, ledger) && db.merge.phase == Dropping && AtNewest(db.files - Removed(db, m), jx)
    ensures k in View(jx, ledger) <==> k in View(db.index, ledger) || Resurfaces(db, m, k)
    ensures k in View(db.index, ledger) ==> k in View(jx, ledger) && View(jx, ledger)[k] == View(db.index, ledger)[k]
    ensures k in View(db.index, ledger) ==> !Resurfaces(db, m, k)
  {
    hide Sound, Resurfaces, Removed;
    SoundLedgered(db, ledger);
    if k in db.index {
      IndexedKey(db, ledger, m, jx, k);
    } else {
      ForgottenKey(db, ledger, m, jx, k);
    }
    if k in jx {
      FoundLedger(db, ledger, Removed(db, m), jx, k);
    }
  }

  lemma FoundLedger(db: Db, ledger: map<nat, Record>, gone: set<nat>, jx: Index, k: Bytes)
    requires Ledgered(db.files, ledger) && AtNewest(db.files - gone, jx) && k in jx
    ensures jx[k].sn in ledger
  {
    hide AtNewest, Tomb;
    var r := FoundNewest(db, gone, jx, k);
  }

  lemma HalfwayView(db: Db, ledger: map<nat, Record>, m: nat, jx: Index)
    requires Sound(db, ledger) && db.merge.phase == Dropping && AtNewest(db.files - Removed(db, m), jx)
    ensures View(jx, ledger) == View(db.index, ledger) <==> forall k :: !Resurfaces(db, m, k)
  {
    hide Sound, Resurfaces, View, AtNewest, Removed;
    var was, now := View(db.index, ledger), View(jx, ledger);
    forall k ensures k in now <==> k in was || Resurfaces(db, m, k) {
      HalfwayKey(db, ledger, m, jx, k);
    }
    forall k | k in was ensures k in now && now[k] == was[k] && !Resurfaces(db, m, k) {
      HalfwayKey(db, ledger, m, jx, k);
    }
    assert (forall k :: !Resurfaces(db, m, k)) ==> now == was;
  }

  // A restart after a kill inside the unlink, wherever the loop had come to, recovers exactly the live
  // map if and only if no key's newest surviving record is a put older than its newest record.
  lemma KilledIff(w: World, m: nat, ids: seq<nat>)
    requires Phys(w) && Killed(w, m, ids)
    ensures forall i :: 0 <= i < |ids| ==> ids[i] in Halfway(w.db, m).data
    ensures View(Opened(Halfway(w.db, m), ids, w.db.maxSize).index, w.ledger) == View(w.db.index, w.ledger)
            <==> forall k :: !Resurfaces(w.db, m, k)
  {
    hide Phys, Sound, Opened, Halfway, Resurfaces, View, AtNewest, Cut, AllValid, Listing;
    PhysParts(w);
    HalfwayIndex(w, m, ids);
    HalfwayView(w.db, w.ledger, m, Opened(Halfway(w.db, m), ids, w.db.maxSize).index);
  }

  // Then that key is back.
  lemma ResurfacesLive(w: World, m: nat, ids: seq<nat>, k: Bytes)
    requires Phys(w) && Killed(w, m, ids) && Resurfaces(w.db, m, k)
    ensures forall i :: 0 <= i < |ids| ==> ids[i] in Halfway(w.db, m).data
    ensures k !in View(w.db.index, w.ledger)
    ensures k in View(Opened(Halfway(w.db, m), ids, w.db.maxSize).index, w.ledger)
  {
    hide Phys, Sound, Opened, Halfway, Resurfaces, View, AtNewest, Cut, AllValid, Listing;
    PhysParts(w);
    HalfwayIndex(w, m, ids);
    HalfwayKey(w.db, w.ledger, m, Opened(Halfway(w.db, m), ids, w.db.maxSize).index, k);
  }
}
