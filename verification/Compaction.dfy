/** Every phase of a merge keeps the invariant and the live map. */
module Compaction {
  import opened Bytes
  import opened Records
  import opened Log
  import opened Engine
  import opened Invariant
  import opened Writing

  lemma BeginMergeSound(d: Db, ledger: map<nat, Record>, ids: set<nat>)
    requires Sound(d, ledger) && d.merge.phase == Idle && d.files[d.active].recs == []
    requires ids == d.files.Keys - {d.active}
    ensures Sound(d.(merge := NO_MERGE.(phase := Sealed, ids := ids, barrier := d.sn)), ledger)
  {
    hide Points, Shaped, Ledgered, KeyOrdered;
    var m := NO_MERGE.(phase := Sealed, ids := ids, barrier := d.sn);
    assert d.merge == NO_MERGE;
    assert KeyOrdered(m.items) && KeyOrdered(m.retired);
    Active(d, ledger);
  }

  lemma SealSound(db: Db, ledger: map<nat, Record>)
    requires Sound(db, ledger) && db.merge.phase == Idle
    ensures Sound(Seal(db), ledger) && Seal(db).index == db.index
  {
    hide Sound, SizeAll;
    Active(db, ledger);
    OpenNewActiveSound(db, ledger);
    var d := if FileSize(db.files[db.active]) > 0 then OpenNewActive(db) else db;
    Active(d, ledger);
    NoSize();
    NoBytes(d.files[d.active].recs);
    BeginMergeSound(d, ledger, d.files.Keys - {d.active});
  }

  lemma SnapshotSound(db: Db, ledger: map<nat, Record>, items: seq<Item>, retired: seq<Item>)
    requires Sound(db, ledger) && db.merge.phase == Sealed && Collects(db.index, db.merge.ids, items, retired)
    ensures Sound(Snapshot(db, items, retired), ledger)
  {
    hide Points, Shaped, Less;
    var m := Snapshot(db, items, retired).merge;
    forall j | 0 <= j < |items| ensures CollectedItem(db.files, m.ids, items[j], false) {
      assert items[j] in items;
    }
    forall j | 0 <= j < |retired| ensures CollectedItem(db.files, m.ids, retired[j], true) {
      assert retired[j] in retired;
    }
    forall j, id, r | 0 <= j < |items| && Holds(db.files, id, r) && id in m.ids && r.key == items[j].key
      ensures r.sn <= items[j].e.sn
    {
      assert items[j] in items;
    }
    forall j, id, r | 0 <= j < |retired| && Holds(db.files, id, r) && id in m.ids && r.key == retired[j].key
      ensures r.sn <= retired[j].e.sn
    {
      assert retired[j] in retired;
    }
    forall i, j | 0 <= i < |items| && 0 <= j < |retired| ensures items[i].key != retired[j].key {
      assert items[i] in items && retired[j] in retired;
    }
    forall k | k in db.index && db.index[k].file in m.ids ensures AwaitingKey(m, Item(k, db.index[k])) {
      assert if db.index[k].tomb then Item(k, db.index[k]) in retired else Item(k, db.index[k]) in items;
    }
  }

  // --- copying -------------------------------------------------------------------------

  lemma LiftedTwice(r: Record)
    ensures Lifted(Lifted(r)) == Lifted(r) && Lifted(r).key == r.key && Lifted(r).sn == r.sn
    ensures Tomb(Lifted(r)) == Tomb(r) && Size(Lifted(r)) == Size(r) && !InBatch(Lifted(r))
    ensures Valid(r) ==> Valid(Lifted(r))
  {
  }

  // The next item is on disk, live, and still indexed.
  lemma NextItem(db: Db, ledger: map<nat, Record>) returns (r: Record)
    requires Sound(db, ledger) && db.merge.phase == Copying && |db.merge.moved| < |db.merge.items|
    ensures var it := db.merge.items[|db.merge.moved|];
            && Deref(db.files, it.e) == Some(r) && Holds(db.files, it.e.file, r) && it.e.file in db.merge.ids
            && r.key == it.key && r.sn == it.e.sn && !Tomb(r) && it.key in db.index
            && Valid(r) && r.sn <= db.sn && r.sn in ledger && ledger[r.sn] == Lifted(r)
            && r.sn <= db.index[r.key].sn
  {
    hide ModeOf, Tomb, Lifted, Moved, OnlyCopies, Awaiting, Untouched, Split;
    var it := db.merge.items[|db.merge.moved|];
    assert CollectedItem(db.files, db.merge.ids, it, false);
    r := Deref(db.files, it.e).value;
    assert RetiredKeys(db.merge) == {};
    assert r in db.files[it.e.file].recs;
  }

  // Extending an output file (possibly a new one) with one plain record l that is a copy
  // of a record on disk.
  ghost predicate CopiedTo(db: Db, out: nat, l: Record, d: Db) {
    && (out in db.files ==> out in db.merge.outs)
    && (out !in db.files ==> out == db.nextID)
    && var f := if out in db.files then db.files[out] else File([], []);
    && d.files == db.files[out := File(f.recs + [l], f.tail)]
    && d.nextID == (if out in db.files then db.nextID else db.nextID + 1)
    && d.index == db.index && d.active == db.active && d.sn == db.sn && d.synced == db.synced
    && d.hinted == db.hinted && d.mergeSn == db.mergeSn && d.maxSize == db.maxSize
    && d.merge == db.merge.(outs := if out in db.files then db.merge.outs else db.merge.outs + [out],
                            moved := db.merge.moved + [Entry(FileSize(f), l.sn, out, Size(l), false)])
  }

  lemma CopyFiles(db: Db, ledger: map<nat, Record>, out: nat, l: Record, d: Db)
    requires Sound(db, ledger) && CopiedTo(db, out, l, d)
    requires !InBatch(l) && Valid(l) && l.sn <= db.sn && l.sn in ledger && ledger[l.sn] == Lifted(l)
    requires l.key in db.index && l.sn <= db.index[l.key].sn
    ensures Shaped(d.files, d.active, d.nextID, d.synced) && Bounded(d.files, d.sn) && Ledgered(d.files, ledger)
    ensures Grows(db.files, d.files) && Newest(d.files, d.index) && Pointing(d.files, d.index)
    ensures forall id, r :: Holds(d.files, id, r) ==> Holds(db.files, id, r) || (id == out && r == l)
  {
    hide ModeOf, Points, Lifted, InBatch, Valid, Collected, Moved, OnlyCopies, Awaiting, Split, SizeAll;
    var f := if out in db.files then db.files[out] else File([], []);
    EmptyClosed();
    assert ModeOf(f.recs) == Closed;
    CloseOne(f.recs, l);
    assert Grows(db.files, d.files);
    forall id, r | Holds(d.files, id, r) ensures Holds(db.files, id, r) || (id == out && r == l) {
    }
    forall k | k in d.index ensures Points(d.files, k, d.index[k]) {
      PointsGrows(db.files, d.files, k, d.index[k]);
    }
  }

  lemma CloseOne(rs: seq<Record>, l: Record)
    requires ModeOf(rs) == Closed && !InBatch(l)
    ensures ModeOf(rs + [l]) == Closed
  {
    OperationCloses(rs, [l]);
  }

  lemma EntryFiles(fs: Files, ix: Index)
    requires Pointing(fs, ix)
    ensures forall k :: k in ix ==> ix[k].file in fs
  {
  }

  lemma CopyItems(db: Db, ledger: map<nat, Record>, out: nat, l: Record, d: Db)
    requires Sound(db, ledger) && CopiedTo(db, out, l, d) && Grows(db.files, d.files)
    requires db.merge.phase == Copying && |db.merge.moved| < |db.merge.items|
    requires var it := db.merge.items[|db.merge.moved|]; l.key == it.key && l.sn == it.e.sn && !Tomb(l)
    ensures Moved(d.files, d.merge)
    ensures forall j :: 0 <= j < |d.merge.items| ==> CollectedItem(d.files, d.merge.ids, d.merge.items[j], false)
    ensures forall j :: 0 <= j < |d.merge.retired| ==> CollectedItem(d.files, d.merge.ids, d.merge.retired[j], true)
  {
    hide ModeOf, Points, Valid, Ledgered, Lifted, Tomb, SizeAll, Awaiting, Untouched, OnlyCopies, Split, KeyOrdered;
    var m, n := db.merge, d.merge;
    forall j | 0 <= j < |m.items| ensures CollectedItem(d.files, n.ids, n.items[j], false) {
      PointsGrows(db.files, d.files, m.items[j].key, m.items[j].e);
    }
    forall j | 0 <= j < |m.retired| ensures CollectedItem(d.files, n.ids, n.retired[j], true) {
      PointsGrows(db.files, d.files, m.retired[j].key, m.retired[j].e);
    }
    forall j | 0 <= j < |n.moved| && j < |n.items| ensures MovedItem(d.files, n.outs, n.items[j], n.moved[j]) {
      if j < |m.moved| {
        assert MovedItem(db.files, m.outs, m.items[j], m.moved[j]);
        PointsGrows(db.files, d.files, m.items[j].key, m.moved[j]);
      } else {
        CopyPoints(db, out, l, d);
      }
    }
  }

  lemma CopyMerge(db: Db, ledger: map<nat, Record>, out: nat, l: Record, d: Db)
    requires Sound(db, ledger) && CopiedTo(db, out, l, d) && Grows(db.files, d.files)
    requires db.merge.phase == Copying && |db.merge.moved| < |db.merge.items|
    requires var it := db.merge.items[|db.merge.moved|]; l.key == it.key && l.sn == it.e.sn && !Tomb(l)
    requires forall id, r :: Holds(d.files, id, r) ==> Holds(db.files, id, r) || (id == out && r == l)
    ensures Merging(d.files, d.index, d.active, d.merge)
  {
    hide ModeOf, CollectedItem, MovedItem, Moved, Valid, Ledgered, Lifted, Tomb, SizeAll, KeyOrdered, Pointing;
    var m, n := db.merge, d.merge;
    CopyItems(db, ledger, out, l, d);
    EntryFiles(db.files, db.index);
    assert out !in m.ids && out != db.active;
    forall id, r | Holds(d.files, id, r) && id in n.outs ensures CopyOf(n.items, r) {
      if id == out && r == l {
        assert n.items[|m.moved|].key == r.key;
      } else {
        assert Holds(db.files, id, r);
      }
    }
  }

  lemma CopyPoints(db: Db, out: nat, l: Record, d: Db)
    requires CopiedTo(db, out, l, d) && !Tomb(l) && (out in db.files ==> db.files[out].tail == [])
    ensures Points(d.files, l.key, d.merge.moved[|db.merge.moved|])
  {
    var f := if out in db.files then db.files[out] else File([], []);
    var rs := f.recs + [l];
    assert rs[..|f.recs|] == f.recs;
    AtIndex(rs, |f.recs|);
  }

  lemma CopySound(db: Db, ledger: map<nat, Record>)
    requires Sound(db, ledger) && db.merge.phase == Copying && |db.merge.moved| < |db.merge.items|
    ensures Sound(Copy(db), ledger) && Copy(db).index == db.index
    ensures |Copy(db).merge.moved| == |db.merge.moved| + 1
  {
    hide Sound, Points, Lifted, Tomb, InBatch;
    var r := NextItem(db, ledger);
    LiftedTwice(r);
    var d, l := Copy(db), Lifted(r);
    var out := CopyTarget(db, ledger, r);
    CopyFiles(db, ledger, out, l, d);
    CopyMerge(db, ledger, out, l, d);
    CopyForgotten(db, ledger, out, l, d);
  }

  lemma CopyTarget(db: Db, ledger: map<nat, Record>, r: Record) returns (out: nat)
    requires Sound(db, ledger) && db.merge.phase == Copying && |db.merge.moved| < |db.merge.items|
    requires Deref(db.files, db.merge.items[|db.merge.moved|].e) == Some(r)
    ensures CopiedTo(db, out, Lifted(r), Copy(db))
  {
    hide Points, Lifted, ModeOf, SizeAll, CopiedTo, Copy;
    out := OutputFor(db, r);
  }

  // The output the next copy goes to.
  lemma OutputFor(db: Db, r: Record) returns (out: nat)
    requires MergeFiles(db.files, db.active, db.merge) && (forall id :: id in db.files ==> id < db.nextID)
    requires |db.merge.moved| < |db.merge.items| && Deref(db.files, db.merge.items[|db.merge.moved|].e) == Some(r)
    ensures CopiedTo(db, out, Lifted(r), Copy(db))
  {
    hide Lifted, SizeAll;
    var m := db.merge;
    if m.outs == [] || FileSize(db.files[m.outs[|m.outs| - 1]]) + Size(Lifted(r)) > db.maxSize {
      out := db.nextID;
    } else {
      out := m.outs[|m.outs| - 1];
    }
  }

  lemma CopyForgotten(db: Db, ledger: map<nat, Record>, out: nat, l: Record, d: Db)
    requires Sound(db, ledger) && CopiedTo(db, out, l, d) && l.key in db.index && db.merge.phase == Copying
    requires Shaped(d.files, d.active, d.nextID, d.synced) && Bounded(d.files, d.sn) && Ledgered(d.files, ledger)
    requires Newest(d.files, d.index) && Pointing(d.files, d.index) && Merging(d.files, d.index, d.active, d.merge)
    requires forall id, r :: Holds(d.files, id, r) ==> Holds(db.files, id, r) || (id == out && r == l)
    ensures Sound(d, ledger)
  {
    hide Shaped, Bounded, Ledgered, Newest, Pointing, Merging, SizeAll;
    assert RetiredKeys(d.merge) == RetiredKeys(db.merge);
  }

  // --- committing and giving up -----------------------------------------------------------

  lemma SyncOutsSound(db: Db, ledger: map<nat, Record>)
    requires Sound(db, ledger) && db.merge.phase == Copying && |db.merge.moved| == |db.merge.items|
    ensures Sound(SyncOuts(db), ledger)
  {
    hide Shaped, Bounded, Ledgered, Pointing, Newest, Points, KeyOrdered;
    var m, n := db.merge, SyncOuts(db).merge;
    assert RetiredKeys(n) == RetiredKeys(m);
    PhaseKeepsAwaiting(db.index, m, n);
  }

  // A change of phase that neither advances nor resets progress.
  lemma PhaseKeepsAwaiting(ix: Index, m: Merge, n: Merge)
    requires Awaiting(ix, m) && m.phase in {Copying, Synced, Repointing, Retiring, Dropping}
    requires n.ids == m.ids && n.items == m.items && n.retired == m.retired
    requires ItemsDone(n) == ItemsDone(m) && RetiredDone(n) == RetiredDone(m)
    ensures Awaiting(ix, n)
  {
    forall k | k in ix && ix[k].file in n.ids ensures AwaitingKey(n, Item(k, ix[k])) {
      assert AwaitingKey(m, Item(k, ix[k]));
    }
  }

  lemma AbortSound(db: Db, ledger: map<nat, Record>)
    requires Sound(db, ledger) && db.merge.phase in {Sealed, Copying, Synced}
    ensures Sound(Abort(db), ledger)
  {
    hide ModeOf, Ledgered, Split, Collected, Moved, OnlyCopies, Awaiting, KeyOrdered;
    var d := Abort(db);
    assert RetiredKeys(db.merge) == {};
    assert KeyOrdered(NO_MERGE.items) && KeyOrdered(NO_MERGE.retired) by { NothingOrdered(); }
    forall id, r | Holds(d.files, id, r) ensures Holds(db.files, id, r) {
    }
    forall k | k in d.index ensures Points(d.files, k, d.index[k]) {
      assert Points(db.files, k, db.index[k]);
    }
    LedgeredSubset(db.files, d.files, ledger);
    IdleMerging(d.files, d.index, d.active);
  }

  lemma NothingOrdered()
    ensures KeyOrdered([])
  {
  }

  lemma IdleMerging(fs: Files, ix: Index, active: nat)
    ensures Merging(fs, ix, active, NO_MERGE)
  {
    hide Points;
  }

  lemma LedgeredSubset(fs: Files, gs: Files, ledger: map<nat, Record>)
    requires Ledgered(fs, ledger) && forall id, r :: Holds(gs, id, r) ==> Holds(fs, id, r)
    ensures Ledgered(gs, ledger)
  {
  }

  lemma BeginRepointSound(db: Db, ledger: map<nat, Record>)
    requires Sound(db, ledger) && db.merge.phase == Synced
    ensures Sound(BeginRepoint(db), ledger)
  {
    hide Shaped, Bounded, Ledgered, Pointing, Newest, Points, KeyOrdered;
    var m, n := db.merge, BeginRepoint(db).merge;
    assert RetiredKeys(n) == RetiredKeys(m);
    PhaseKeepsAwaiting(db.index, m, n);
  }

  // --- repointing --------------------------------------------------------------------------

  lemma SameKeySameItem(items: seq<Item>, i: nat, j: nat)
    requires KeyOrdered(items) && i < |items| && j < |items| && items[i].key == items[j].key
    ensures i == j
  {
    if i < j { LessTrichotomy(items[i].key, items[j].key); }
    if j < i { LessTrichotomy(items[j].key, items[i].key); }
  }

  lemma RepointAwaiting(ix: Index, jx: Index, m: Merge, fs: Files, active: nat)
    requires Awaiting(ix, m) && Progress(m) && Moved(fs, m) && MergeFiles(fs, active, m)
    requires m.phase == Repointing && m.done < |m.items|
    requires jx == RepointOne(ix, m.items[m.done], m.moved[m.done])
    ensures Awaiting(jx, m.(done := m.done + 1))
  {
    hide Points, Less, KeyOrdered;
    var n := m.(done := m.done + 1);
    forall k | k in jx && jx[k].file in m.ids ensures AwaitingKey(n, Item(k, jx[k])) {
      assert MovedItem(fs, m.outs, m.items[m.done], m.moved[m.done]);
      assert k in ix && ix[k] == jx[k];
      assert AwaitingKey(m, Item(k, ix[k]));
      if !ix[k].tomb {
        var j :| m.done <= j < |m.items| && m.items[j] == Item(k, ix[k]);
      }
    }
  }

  lemma MergeAdvances(fs: Files, ix: Index, jx: Index, active: nat, m: Merge)
    requires Merging(fs, ix, active, m) && m.phase in {Repointing, Retiring}
    requires Awaiting(jx, m.(done := m.done + 1)) && Progress(m.(done := m.done + 1))
    ensures Merging(fs, jx, active, m.(done := m.done + 1))
  {
    hide MovedItem, KeyOrdered, Awaiting, Progress, CopyOf;
  }

  lemma RepointIndex(db: Db, ledger: map<nat, Record>, it: Item, e: Entry)
    requires Sound(db, ledger) && db.merge.phase == Repointing && e.sn == it.e.sn && Points(db.files, it.key, e)
    ensures var jx := RepointOne(db.index, it, e);
            Pointing(db.files, jx) && Newest(db.files, jx)
              && Forgotten(db.files, jx, db.merge.(done := db.merge.done + 1))
  {
    hide Shaped, Bounded, Ledgered, Points, Merging;
    assert RetiredKeys(db.merge.(done := db.merge.done + 1)) == RetiredKeys(db.merge);
  }

  lemma RepointOneSound(db: Db, ledger: map<nat, Record>)
    requires Sound(db, ledger) && db.merge.phase == Repointing && db.merge.done < |db.merge.items|
    ensures Sound(Repoint(db, db.merge.done + 1), ledger)
    ensures View(Repoint(db, db.merge.done + 1).index, ledger) == View(db.index, ledger)
  {
    hide Shaped, Bounded, Ledgered, Points, KeyOrdered, Awaiting, Collected, OnlyCopies, Split, Pointing, Newest,
         Forgotten, View, Untouched;
    var d, m := Repoint(db, db.merge.done + 1), db.merge;
    var it, e := m.items[m.done], m.moved[m.done];
    assert RepointTo(db.index, m.items, m.moved, m.done, m.done) == db.index;
    assert d.index == RepointOne(db.index, it, e);
    assert MovedItem(db.files, m.outs, it, e);
    RepointIndex(db, ledger, it, e);
    RepointAwaiting(db.index, d.index, m, db.files, db.active);
    MergeAdvances(db.files, db.index, d.index, db.active, m);
    RepointView(db, ledger, it, e);
  }

  lemma RepointView(db: Db, ledger: map<nat, Record>, it: Item, e: Entry)
    requires Sound(db, ledger) && e.sn == it.e.sn && !e.tomb && Points(db.files, it.key, e)
    ensures View(RepointOne(db.index, it, e), ledger) == View(db.index, ledger)
  {
    hide Sound;
    IndexLedgered(db, ledger);
    if it.key in db.index && db.index[it.key].sn == it.e.sn {
      assert Holds(db.files, e.file, Deref(db.files, e).value);
      LedgerOf(db, ledger, e.file, Deref(db.files, e).value);
    }
  }

  lemma LedgerOf(db: Db, ledger: map<nat, Record>, id: nat, r: Record)
    requires Sound(db, ledger) && Holds(db.files, id, r)
    ensures r.sn in ledger && Tomb(ledger[r.sn]) == Tomb(r) && ledger[r.sn].key == r.key
    ensures ledger[r.sn].value == r.value
  {
    hide Shaped, Bounded, Pointing, Newest, Merging;
  }

  lemma {:induction false} RepointSound(db: Db, ledger: map<nat, Record>, hi: nat)
    requires Sound(db, ledger) && db.merge.phase == Repointing
    requires db.merge.done <= hi <= |db.merge.items| == |db.merge.moved|
    ensures Sound(Repoint(db, hi), ledger) && View(Repoint(db, hi).index, ledger) == View(db.index, ledger)
    decreases hi
  {
    hide Sound, View;
    if db.merge.done == hi {
      assert Repoint(db, hi) == db;
    } else {
      var d := Repoint(db, hi - 1);
      RepointSound(db, ledger, hi - 1);
      RepointOneSound(d, ledger);
      assert RepointTo(d.index, d.merge.items, d.merge.moved, hi - 1, hi - 1) == d.index;
      assert Repoint(d, hi) == Repoint(db, hi);
    }
  }

  // --- retiring ------------------------------------------------------------------------------

  lemma BeginRetireSound(db: Db, ledger: map<nat, Record>)
    requires Sound(db, ledger) && db.merge.phase == Repointing && db.merge.done == |db.merge.items|
    ensures Sound(BeginRetire(db), ledger)
  {
    hide Shaped, Bounded, Ledgered, Pointing, Newest, Points, KeyOrdered;
    var m, n := db.merge, BeginRetire(db).merge;
    assert RetiredKeys(n) == RetiredKeys(m);
    PhaseKeepsAwaiting(db.index, m, n);
  }

  lemma RetireAwaiting(ix: Index, jx: Index, m: Merge)
    requires Awaiting(ix, m) && Progress(m) && m.phase == Retiring && m.done < |m.retired|
    requires jx == RetireOne(ix, m.retired[m.done])
    ensures Awaiting(jx, m.(done := m.done + 1))
  {
    hide Less, KeyOrdered;
    var n := m.(done := m.done + 1);
    forall k | k in jx && jx[k].file in m.ids ensures AwaitingKey(n, Item(k, jx[k])) {
      assert AwaitingKey(m, Item(k, ix[k]));
      if ix[k].tomb {
        var j :| m.done <= j < |m.retired| && m.retired[j] == Item(k, ix[k]);
      }
    }
  }

  // Once a tombstone leaves the index, every record of its key is in the merge set.
  lemma RetireForgotten(db: Db, ledger: map<nat, Record>)
    requires Sound(db, ledger) && db.merge.phase == Retiring && db.merge.done < |db.merge.retired|
    ensures var m := db.merge;
            Forgotten(db.files, RetireOne(db.index, m.retired[m.done]), m.(done := m.done + 1))
  {
    hide Shaped, Bounded, Ledgered, Points, KeyOrdered, Awaiting, Moved, Untouched;
    var m := db.merge;
    var it, n := m.retired[m.done], m.(done := m.done + 1);
    assert n.retired[m.done].key in RetiredKeys(n);
    assert RetiredKeys(m) <= RetiredKeys(n);
    assert CollectedItem(db.files, m.ids, it, true);
    forall id, r | Holds(db.files, id, r) && r.key !in RetireOne(db.index, it)
      ensures id in m.ids && r.key in RetiredKeys(n)
    {
      if r.key in db.index {
        assert r.key == it.key && r.sn <= it.e.sn;
        assert it.e.sn <= m.barrier by { PointsHolds(db.files, it.key, it.e); }
        assert id in m.outs ==> CopyOf(m.items, r);
      }
    }
  }

  lemma PointsHolds(fs: Files, k: Bytes, e: Entry)
    requires Points(fs, k, e)
    ensures exists r :: Holds(fs, e.file, r) && r.key == k && r.sn == e.sn && Tomb(r) == e.tomb
  {
    assert Holds(fs, e.file, Deref(fs, e).value);
  }

  lemma RetireOneSound(db: Db, ledger: map<nat, Record>)
    requires Sound(db, ledger) && db.merge.phase == Retiring && db.merge.done < |db.merge.retired|
    ensures Sound(Retire(db, db.merge.done + 1), ledger)
    ensures View(Retire(db, db.merge.done + 1).index, ledger) == View(db.index, ledger)
  {
    hide Shaped, Bounded, Ledgered, Points, KeyOrdered, Awaiting, Forgotten;
    var d, m := Retire(db, db.merge.done + 1), db.merge;
    var it := m.retired[m.done];
    assert d.index == RetireOne(db.index, it) by {
      assert RetireTo(db.index, m.retired, m.done, m.done) == db.index;
    }
    RetireAwaiting(db.index, d.index, m);
    RetireForgotten(db, ledger);
    assert CollectedItem(db.files, m.ids, it, true);
    RetireView(db, ledger, it);
  }

  lemma RetireView(db: Db, ledger: map<nat, Record>, it: Item)
    requires Sound(db, ledger) && it.e.tomb && Points(db.files, it.key, it.e)
    ensures View(RetireOne(db.index, it), ledger) == View(db.index, ledger)
  {
    hide Sound;
    IndexLedgered(db, ledger);
    if it.key in db.index && db.index[it.key].sn == it.e.sn {
      LedgerOf(db, ledger, it.e.file, Deref(db.files, it.e).value);
    }
  }

  lemma {:induction false} RetireSound(db: Db, ledger: map<nat, Record>, hi: nat)
    requires Sound(db, ledger) && db.merge.phase == Retiring && db.merge.done <= hi <= |db.merge.retired|
    ensures Sound(Retire(db, hi), ledger) && View(Retire(db, hi).index, ledger) == View(db.index, ledger)
    decreases hi
  {
    hide Sound, View;
    if db.merge.done == hi {
      assert Retire(db, hi) == db;
    } else {
      var d := Retire(db, hi - 1);
      RetireSound(db, ledger, hi - 1);
      RetireOneSound(d, ledger);
      assert RetireTo(d.index, d.merge.retired, hi - 1, hi - 1) == d.index;
      assert Retire(d, hi) == Retire(db, hi);
    }
  }

  // --- dropping the merged files ------------------------------------------------------------

  lemma RaiseMarkSound(db: Db, ledger: map<nat, Record>)
    requires Sound(db, ledger) && db.merge.phase == Retiring && db.merge.done == |db.merge.retired|
    ensures Sound(RaiseMark(db), ledger)
  {
    hide Shaped, Bounded, Ledgered, Pointing, Newest, Points, KeyOrdered;
    var m, n := db.merge, RaiseMark(db).merge;
    assert RetiredKeys(n) == RetiredKeys(m);
    PhaseKeepsAwaiting(db.index, m, n);
  }

  // By then nothing in the index points into the merge set.
  lemma NothingAwaits(ix: Index, m: Merge)
    requires Awaiting(ix, m) && m.phase == Dropping
    ensures forall k :: k in ix ==> ix[k].file !in m.ids
  {
    forall k | k in ix ensures ix[k].file !in m.ids {
      assert ix[k].file in m.ids ==> AwaitingKey(m, Item(k, ix[k]));
    }
  }

  lemma UnlinkSound(db: Db, ledger: map<nat, Record>)
    requires Sound(db, ledger) && db.merge.phase == Dropping
    ensures Sound(Unlink(db), ledger)
  {
    hide ModeOf, Ledgered, Split, Collected, Moved, OnlyCopies, Awaiting, KeyOrdered;
    var d := Unlink(db);
    NothingAwaits(db.index, db.merge);
    forall id, r | Holds(d.files, id, r) ensures Holds(db.files, id, r) {
    }
    forall k | k in d.index ensures Points(d.files, k, d.index[k]) {
      assert Points(db.files, k, db.index[k]);
    }
    LedgeredSubset(db.files, d.files, ledger);
    IdleMerging(d.files, d.index, d.active);
  }
}
