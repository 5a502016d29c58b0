/** What a crash cannot take: the newest stable record of every key, through every step. */
module Durability {
  import opened Bytes
  import opened Records
  import opened Log
  import opened Engine
  import opened Invariant
  import opened Writing
  import opened Compaction

  // The records that survive any crash: everything but the unsynced end of the active file.
  function Stable(fs: Files, active: nat, synced: nat): Files
    requires active in fs && synced <= |fs[active].recs|
  {
    fs[active := File(fs[active].recs[..synced], [])]
  }

  ghost predicate Present(fs: Files, k: Bytes, s: nat) {
    exists id, r :: Holds(fs, id, r) && r.key == k && r.sn == s
  }

  // top is the newest sequence number of every key on file.
  ghost predicate IsTop(fs: Files, top: map<Bytes, nat>) {
    && (forall id, r :: Holds(fs, id, r) ==> r.key in top && r.sn <= top[r.key])
    && (forall k :: k in top ==> Present(fs, k, top[k]))
  }

  // The live map those records denote.
  function Live(top: map<Bytes, nat>, ledger: map<nat, Record>): map<Bytes, Bytes> {
    map k | k in top && top[k] in ledger && !Tomb(ledger[top[k]]) :: ledger[top[k]].value
  }

  function Tops(ix: Index): map<Bytes, nat> { map k | k in ix :: ix[k].sn }

  lemma TopUnique(fs: Files, s: map<Bytes, nat>, t: map<Bytes, nat>)
    requires IsTop(fs, s) && IsTop(fs, t)
    ensures s == t
  {
    forall k | k in s ensures k in t && s[k] <= t[k] {
      assert Present(fs, k, s[k]);
    }
    forall k | k in t ensures k in s && t[k] <= s[k] {
      assert Present(fs, k, t[k]);
    }
  }

  lemma PointsPresent(fs: Files, k: Bytes, e: Entry)
    requires Points(fs, k, e)
    ensures Present(fs, k, e.sn)
  {
    assert Holds(fs, e.file, Deref(fs, e).value);
  }

  // An index covering every record on file is its top.
  lemma IndexTop(fs: Files, ix: Index)
    requires Pointing(fs, ix) && Newest(fs, ix)
    requires forall id, r :: Holds(fs, id, r) ==> r.key in ix
    ensures IsTop(fs, Tops(ix))
  {
    hide Points, Present;
    forall k | k in Tops(ix) ensures Present(fs, k, Tops(ix)[k]) {
      PointsPresent(fs, k, ix[k]);
    }
  }

  lemma TopsView(db: Db, ledger: map<nat, Record>)
    requires Sound(db, ledger)
    ensures Live(Tops(db.index), ledger) == View(db.index, ledger)
  {
    hide Sound;
    IndexLedgered(db, ledger);
  }

  // --- steps ---------------------------------------------------------------------------

  ghost predicate Kept(db: Db, top: map<Bytes, nat>) {
    && db.active in db.files && db.synced <= |db.files[db.active].recs|
    && IsTop(Stable(db.files, db.active, db.synced), top)
  }

  // Once everything is synced the index says what is stable, except for keys whose
  // tombstone has just been retired.
  lemma AllStable(db: Db, ledger: map<nat, Record>, top: map<Bytes, nat>)
    requires Sound(db, ledger) && Kept(db, top)
    ensures IsTop(db.files, top + Tops(db.index))
  {
    hide Points, Ledgered, ModeOf, Split, Collected, Moved, OnlyCopies, Awaiting, Progress;
    var st, t := Stable(db.files, db.active, db.synced), top + Tops(db.index);
    forall id, r | Holds(db.files, id, r) ensures r.key in t && r.sn <= t[r.key] {
      if r.key !in db.index {
        assert id in db.merge.ids;
        assert Holds(st, id, r);
      }
    }
    forall k | k in t ensures Present(db.files, k, t[k]) {
      if k in db.index {
        PointsPresent(db.files, k, db.index[k]);
      } else {
        var id, r :| Holds(st, id, r) && r.key == k && r.sn == top[k];
        assert Holds(db.files, id, r);
      }
    }
  }

  lemma SameHolds(fs: Files, gs: Files, top: map<Bytes, nat>)
    requires IsTop(fs, top) && forall id, r :: Holds(fs, id, r) <==> Holds(gs, id, r)
    ensures IsTop(gs, top)
  {
    forall k | k in top ensures Present(gs, k, top[k]) {
      assert Present(fs, k, top[k]);
      var id, r :| Holds(fs, id, r) && r.key == k && r.sn == top[k];
      assert Holds(gs, id, r);
    }
  }

  lemma SyncKept(db: Db, ledger: map<nat, Record>, top: map<Bytes, nat>)
    requires Sound(db, ledger) && Kept(db, top)
    ensures Kept(Sync(db), top + Tops(db.index))
  {
    hide IsTop, Sound;
    AllStable(db, ledger, top);
    var rs := db.files[db.active].recs;
    assert rs[..|rs|] == rs;
    SameHolds(db.files, Stable(db.files, db.active, |rs|), top + Tops(db.index));
  }

  lemma OpenNewActiveKept(db: Db, ledger: map<nat, Record>, top: map<Bytes, nat>)
    requires Sound(db, ledger) && Kept(db, top)
    ensures Kept(OpenNewActive(db), top + Tops(db.index))
  {
    hide IsTop, Points, Ledgered, ModeOf, Merging;
    AllStable(db, ledger, top);
    var d := OpenNewActive(db);
    SameHolds(db.files, Stable(d.files, d.active, d.synced), top + Tops(db.index));
  }

  lemma ExtendKept(db: Db, ledger: map<nat, Record>, top: map<Bytes, nat>, g: seq<Record>)
    requires Sound(db, ledger) && Kept(db, top)
    ensures Kept(Extend(db, g), top)
  {
    hide IsTop, Sound, Replay;
    var d := Extend(db, g);
    var rs := db.files[db.active].recs;
    assert (rs + g)[..db.synced] == rs[..db.synced];
    assert Stable(d.files, d.active, d.synced) == Stable(db.files, db.active, db.synced);
  }

  // A copy adds nothing: its original is in the sealed files.
  lemma CopyKept(db: Db, ledger: map<nat, Record>, top: map<Bytes, nat>)
    requires Sound(db, ledger) && Kept(db, top) && db.merge.phase == Copying && |db.merge.moved| < |db.merge.items|
    ensures Kept(Copy(db), top)
  {
    hide Sound, Points, Lifted, Tomb, InBatch, Present;
    var r := NextItem(db, ledger);
    LiftedTwice(r);
    var out := CopyTarget(db, ledger, r);
    CopyFiles(db, ledger, out, Lifted(r), Copy(db));
    CopyStable(db, ledger, top, out, Lifted(r), Copy(db), db.merge.items[|db.merge.moved|].e.file, r);
  }

  lemma CopyStable(db: Db, ledger: map<nat, Record>, top: map<Bytes, nat>, out: nat, l: Record, d: Db, src: nat,
                   r: Record)
    requires Sound(db, ledger) && Kept(db, top) && CopiedTo(db, out, l, d) && Grows(db.files, d.files)
    requires Holds(db.files, src, r) && src in db.merge.ids && r.key == l.key && r.sn == l.sn
    ensures Kept(d, top)
  {
    hide Points, Ledgered, ModeOf, Split, Collected, Moved, OnlyCopies, Awaiting, Progress, Pointing, Newest, SizeAll;
    var st, su := Stable(db.files, db.active, db.synced), Stable(d.files, d.active, d.synced);
    assert Holds(st, src, r);
    assert out != db.active;
    forall id, q | Holds(su, id, q) ensures q.key in top && q.sn <= top[q.key] {
      assert Holds(st, id, q) || q == l;
    }
    forall k | k in top ensures Present(su, k, top[k]) {
      var id, q :| Holds(st, id, q) && q.key == k && q.sn == top[k];
      assert Holds(su, id, q);
    }
  }

  // What an output holds is also in the sealed files.
  lemma Original(db: Db, ledger: map<nat, Record>, id: nat, r: Record) returns (src: nat, q: Record)
    requires Sound(db, ledger) && Holds(db.files, id, r) && id in db.merge.outs
    ensures Holds(db.files, src, q) && src in db.merge.ids && q.key == r.key && q.sn == r.sn
  {
    hide Shaped, Bounded, Ledgered, Pointing, Newest, Forgotten, Moved, Awaiting, Split, Untouched;
    assert CopyOf(db.merge.items, r);
    var j :| 0 <= j < |db.merge.items| && db.merge.items[j].key == r.key && db.merge.items[j].e.sn == r.sn;
    var e := db.merge.items[j].e;
    assert CollectedItem(db.files, db.merge.ids, db.merge.items[j], false);
    src, q := e.file, Deref(db.files, e).value;
  }

  lemma AbortKept(db: Db, ledger: map<nat, Record>, top: map<Bytes, nat>)
    requires Sound(db, ledger) && Kept(db, top) && db.merge.phase in {Sealed, Copying, Synced}
    ensures Kept(Abort(db), top)
  {
    hide Points, Shaped, Bounded, Ledgered, Pointing, Newest, Forgotten, Split, Collected, Moved, OnlyCopies, Awaiting,
         Progress, Untouched;
    var d := Abort(db);
    var st, su := Stable(db.files, db.active, db.synced), Stable(d.files, d.active, d.synced);
    forall id, q | Holds(su, id, q) ensures q.key in top && q.sn <= top[q.key] {
      assert Holds(st, id, q);
    }
    forall k | k in top ensures Present(su, k, top[k]) {
      assert Present(st, k, top[k]);
      var id, q :| Holds(st, id, q) && q.key == k && q.sn == top[k];
      if id in db.merge.outs {
        assert Holds(db.files, id, q);
        var src, o := Original(db, ledger, id, q);
        assert Holds(su, src, o);
      } else {
        assert Holds(su, id, q);
      }
    }
  }

  // --- unlinking ---------------------------------------------------------------------------

  predicate HasItem(m: Merge, k: Bytes) { exists j :: 0 <= j < |m.items| && m.items[j].key == k }

  // The newest record of k in the files about to be unlinked is a put.
  ghost predicate MergedPut(db: Db, k: Bytes) {
    exists id, r :: Holds(db.files, id, r) && id in db.merge.ids && r.key == k && !Tomb(r) && NewestMerged(db, k, r.sn)
  }

  ghost predicate NewestMerged(db: Db, k: Bytes, sn: nat) {
    forall id, q :: Holds(db.files, id, q) && id in db.merge.ids && q.key == k ==> q.sn <= sn
  }

  // k has been written since the seal, and that write is stable.
  ghost predicate SyncedSince(db: Db, k: Bytes)
    requires HasActive(db) && db.synced <= |db.files[db.active].recs|
  {
    exists id, q :: Holds(Stable(db.files, db.active, db.synced), id, q) && q.key == k && q.sn > db.merge.barrier
  }

  // A key the unlink takes from disk: its merged value was not copied, and nothing newer is
  // stable.
  ghost predicate Exposed(db: Db, k: Bytes) {
    && HasActive(db) && db.synced <= |db.files[db.active].recs|
    && MergedPut(db, k) && !HasItem(db.merge, k) && !SyncedSince(db, k)
  }

  // The same, read off the stable table.
  ghost predicate Shed(m: Merge, ledger: map<nat, Record>, top: map<Bytes, nat>, k: Bytes) {
    && k in top && top[k] <= m.barrier && !HasItem(m, k)
    && top[k] in ledger && !Tomb(ledger[top[k]])
  }

  // The stable table once the merged files are gone.
  function Dropped(m: Merge, top: map<Bytes, nat>): map<Bytes, nat> {
    map k | k in top && (top[k] > m.barrier || HasItem(m, k)) :: top[k]
  }

  // An item is the newest stable record of its key, or that is younger than the barrier.
  lemma ItemIsTop(db: Db, ledger: map<nat, Record>, top: map<Bytes, nat>, j: nat)
    requires Sound(db, ledger) && Kept(db, top) && j < |db.merge.items| && db.merge.items[j].key in top
    requires top[db.merge.items[j].key] <= db.merge.barrier
    ensures top[db.merge.items[j].key] == db.merge.items[j].e.sn
  {
    hide Ledgered, ModeOf, Moved, Awaiting, Pointing, Newest, Forgotten, Shaped, KeyOrdered;
    var m := db.merge;
    var it, k := m.items[j], m.items[j].key;
    var st := Stable(db.files, db.active, db.synced);
    assert CollectedItem(db.files, m.ids, it, false);
    assert Holds(st, it.e.file, Deref(db.files, it.e).value);
    assert Present(st, k, top[k]);
    var id, r :| Holds(st, id, r) && r.key == k && r.sn == top[k];
    assert Holds(db.files, id, r);
    if id in m.outs {
      assert CopyOf(m.items, r);
      var i :| 0 <= i < |m.items| && m.items[i].key == r.key && m.items[i].e.sn == r.sn;
      SameKeySameItem(m.items, i, j);
    }
  }

  lemma DroppedPresent(db: Db, ledger: map<nat, Record>, top: map<Bytes, nat>, k: Bytes)
    requires Sound(db, ledger) && Kept(db, top) && db.merge.phase == Dropping && k in Dropped(db.merge, top)
    requires HasActive(Unlink(db))
    ensures Present(Stable(Unlink(db).files, db.active, db.synced), k, top[k])
  {
    hide Ledgered, ModeOf, Awaiting, Pointing, Newest, Forgotten, Shaped, KeyOrdered, Collected, OnlyCopies, Points;
    var m, d := db.merge, Unlink(db);
    var st, su := Stable(db.files, db.active, db.synced), Stable(d.files, db.active, db.synced);
    if top[k] > m.barrier {
      assert Present(st, k, top[k]);
      var id, r :| Holds(st, id, r) && r.key == k && r.sn == top[k];
      assert Holds(db.files, id, r);
      assert Holds(su, id, r);
    } else {
      var j :| 0 <= j < |m.items| && m.items[j].key == k;
      ItemIsTop(db, ledger, top, j);
      assert MovedItem(db.files, m.outs, m.items[j], m.moved[j]);
      var e := m.moved[j];
      PointsHolds(db.files, k, e);
      var r :| Holds(db.files, e.file, r) && r.key == k && r.sn == e.sn;
      assert Holds(su, e.file, r);
    }
  }

  lemma UnlinkKept(db: Db, ledger: map<nat, Record>, top: map<Bytes, nat>)
    requires Sound(db, ledger) && Kept(db, top) && db.merge.phase == Dropping
    ensures Kept(Unlink(db), Dropped(db.merge, top))
  {
    hide Ledgered, ModeOf, Awaiting, Pointing, Newest, Forgotten, Shaped, KeyOrdered, Collected, Points, Moved,
         Progress, Present;
    var m, d := db.merge, Unlink(db);
    var st, su := Stable(db.files, db.active, db.synced), Stable(d.files, db.active, db.synced);
    var t := Dropped(m, top);
    forall id, r | Holds(su, id, r) ensures r.key in t && r.sn <= t[r.key] {
      assert Holds(st, id, r) && Holds(db.files, id, r);
      if id in m.outs {
        assert CopyOf(m.items, r);
      }
    }
    forall k | k in t ensures Present(su, k, t[k]) {
      DroppedPresent(db, ledger, top, k);
    }
  }

  lemma ShedKeepsStable(m: Merge, ledger: map<nat, Record>, top: map<Bytes, nat>)
    ensures Live(Dropped(m, top), ledger) == Live(top, ledger) <==> forall k :: !Shed(m, ledger, top, k)
  {
    hide HasItem, Tomb;
    var t := Dropped(m, top);
    if k :| Shed(m, ledger, top, k) {
      assert k in Live(top, ledger) && k !in Live(t, ledger);
    } else {
      forall k | k in Live(top, ledger) ensures k in Live(t, ledger) {
        assert !Shed(m, ledger, top, k);
      }
    }
  }

  // A stable record at or below the barrier, of a key with no item, lies in the merged files.
  lemma OldIsMerged(db: Db, ledger: map<nat, Record>, id: nat, r: Record)
    requires Sound(db, ledger) && db.merge.phase == Dropping && Holds(db.files, id, r)
    requires r.sn <= db.merge.barrier && !HasItem(db.merge, r.key)
    ensures id in db.merge.ids
  {
    hide Shaped, Ledgered, Pointing, Newest, Forgotten, Collected, Moved, Awaiting, Progress, Points;
    assert id in db.merge.outs ==> CopyOf(db.merge.items, r);
  }

  lemma MergedIsStable(db: Db, ledger: map<nat, Record>, id: nat, r: Record)
    requires Sound(db, ledger) && Holds(db.files, id, r) && id in db.merge.ids
    ensures HasActive(db) && db.synced <= |db.files[db.active].recs|
    ensures Holds(Stable(db.files, db.active, db.synced), id, r) && r.sn <= db.merge.barrier
  {
    hide Ledgered, Pointing, Newest, Forgotten, Collected, Moved, Awaiting, Progress, Points, ModeOf;
  }

  lemma ShedIsExposed(db: Db, ledger: map<nat, Record>, top: map<Bytes, nat>, k: Bytes)
    requires Sound(db, ledger) && Kept(db, top) && db.merge.phase == Dropping
    ensures Shed(db.merge, ledger, top, k) ==> Exposed(db, k)
  {
    hide Sound, HasItem, Tomb;
    if Shed(db.merge, ledger, top, k) {
      var st := Stable(db.files, db.active, db.synced);
      assert Present(st, k, top[k]);
      var id, r :| Holds(st, id, r) && r.key == k && r.sn == top[k];
      assert Holds(db.files, id, r);
      OldIsMerged(db, ledger, id, r);
      LedgerOf(db, ledger, id, r);
      forall at, q | Holds(db.files, at, q) && at in db.merge.ids && q.key == k ensures q.sn <= r.sn {
        MergedIsStable(db, ledger, at, q);
      }
      assert MergedPut(db, k);
    }
  }

  lemma ExposedIsShed(db: Db, ledger: map<nat, Record>, top: map<Bytes, nat>, k: Bytes)
    requires Sound(db, ledger) && Kept(db, top) && db.merge.phase == Dropping && Exposed(db, k)
    ensures Shed(db.merge, ledger, top, k)
  {
    hide Sound, HasItem, Tomb;
    var st := Stable(db.files, db.active, db.synced);
    var id, r :| Holds(db.files, id, r) && id in db.merge.ids && r.key == k && !Tomb(r) && NewestMerged(db, k, r.sn);
    MergedIsStable(db, ledger, id, r);
    assert k in top && Present(st, k, top[k]);
    var at, q :| Holds(st, at, q) && q.key == k && q.sn == top[k];
    assert Holds(db.files, at, q) && q.sn <= db.merge.barrier;
    OldIsMerged(db, ledger, at, q);
    LedgerOf(db, ledger, id, r);
  }

  // What is stable on disk denotes the same map after the unlink as before it exactly when no
  // key is exposed.
  lemma UnlinkKeepsStable(db: Db, ledger: map<nat, Record>, top: map<Bytes, nat>, left: map<Bytes, nat>)
    requires Sound(db, ledger) && Kept(db, top) && db.merge.phase == Dropping && Kept(Unlink(db), left)
    ensures Live(left, ledger) == Live(top, ledger) <==> forall k :: !Exposed(db, k)
  {
    hide Sound, IsTop, Live, Shed, Exposed, Dropped;
    UnlinkKept(db, ledger, top);
    var d := Unlink(db);
    TopUnique(Stable(d.files, d.active, d.synced), left, Dropped(db.merge, top));
    ShedKeepsStable(db.merge, ledger, top);
    forall k ensures Shed(db.merge, ledger, top, k) <==> Exposed(db, k) {
      ShedIsExposed(db, ledger, top, k);
      if Exposed(db, k) {
        ExposedIsShed(db, ledger, top, k);
      }
    }
  }

  // Syncing the active file at any time before the unlink leaves no key exposed.
  lemma SyncedIsSafe(db: Db, ledger: map<nat, Record>)
    requires Sound(db, ledger) && db.merge.phase == Dropping
    requires HasActive(db) && db.synced == |db.files[db.active].recs|
    ensures forall k :: !Exposed(db, k)
  {
    hide Sound, Tomb, HasItem;
    var rs := db.files[db.active].recs;
    assert rs[..|rs|] == rs;
    forall k | MergedPut(db, k) && !HasItem(db.merge, k) ensures SyncedSince(db, k) {
      var id, r :| Holds(db.files, id, r) && id in db.merge.ids && r.key == k && !Tomb(r) && NewestMerged(db, k, r.sn);
      if k in db.index {
        IndexedSafe(db, ledger, k);
        var at, q := IndexedRecord(db, ledger, k);
        assert Holds(Stable(db.files, db.active, db.synced), at, q);
      } else {
        var at, q := Grave(db, ledger, id, r);
        LedgerOf(db, ledger, at, q);
        LedgerOf(db, ledger, id, r);
      }
    }
  }

  lemma IndexedRecord(db: Db, ledger: map<nat, Record>, k: Bytes) returns (id: nat, r: Record)
    requires Sound(db, ledger) && k in db.index
    ensures Holds(db.files, id, r) && r.key == k && r.sn == db.index[k].sn
  {
    hide Shaped, Bounded, Ledgered, Newest, Forgotten, Merging;
    assert Points(db.files, k, db.index[k]);
    id, r := db.index[k].file, Deref(db.files, db.index[k]).value;
  }

  lemma IndexedSafe(db: Db, ledger: map<nat, Record>, k: Bytes)
    requires Sound(db, ledger) && db.merge.phase == Dropping && k in db.index
    ensures db.index[k].sn > db.merge.barrier || HasItem(db.merge, k)
  {
    hide Shaped, Bounded, Ledgered, Newest, Forgotten, Moved, Collected;
    NothingAwaits(db.index, db.merge);
    assert Points(db.files, k, db.index[k]);
    var r := Deref(db.files, db.index[k]).value;
    assert db.index[k].file in db.merge.outs ==> CopyOf(db.merge.items, r);
  }

  // A key that left the index has its tombstone on file, newer than everything else it has.
  lemma Grave(db: Db, ledger: map<nat, Record>, id: nat, r: Record) returns (at: nat, q: Record)
    requires Sound(db, ledger) && Holds(db.files, id, r) && r.key !in db.index
    ensures Holds(db.files, at, q) && at in db.merge.ids && q.key == r.key && Tomb(q) && r.sn <= q.sn
  {
    hide Shaped, Bounded, Newest, Pointing, Ledgered, Moved, Awaiting, Split, OnlyCopies, Untouched, Tomb, Points,
         KeyOrdered;
    var m := db.merge;
    assert r.key in RetiredKeys(m);
    var j :| 0 <= j < RetiredDone(m) && j < |m.retired| && m.retired[j].key == r.key;
    assert CollectedItem(db.files, m.ids, m.retired[j], true);
    at := m.retired[j].e.file;
    PointsHolds(db.files, r.key, m.retired[j].e);
    q :| Holds(db.files, at, q) && q.key == r.key && q.sn == m.retired[j].e.sn && Tomb(q);
  }

  lemma RetiredSafe(db: Db, ledger: map<nat, Record>, top: map<Bytes, nat>, k: Bytes)
    requires Sound(db, ledger) && IsTop(db.files, top) && k in top && k !in db.index
    ensures top[k] in ledger && Tomb(ledger[top[k]])
  {
    hide Sound, Tomb;
    assert Present(db.files, k, top[k]);
    var id, r :| Holds(db.files, id, r) && r.key == k && r.sn == top[k];
    var at, q := Grave(db, ledger, id, r);
    LedgerOf(db, ledger, at, q);
  }
}
