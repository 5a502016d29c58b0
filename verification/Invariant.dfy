/** What every step of the engine keeps.

    A world is an engine together with what its history says it holds: a ledger of every
    record by sequence number, the newest stable sequence number of each key, and the
    operations acknowledged so far, split into those a crash cannot touch and those
    still at its mercy. */
module Invariant {
  import opened Bytes
  import opened Records
  import opened Log
  import opened Engine

  // --- files and index ---------------------------------------------------------------

  ghost predicate Shaped(fs: Files, active: nat, nextID: nat, synced: nat) {
    && active in fs && fs[active].tail == []
    && synced <= |fs[active].recs| && ModeOf(fs[active].recs[..synced]) == Closed
    && (forall id :: id in fs ==> id < nextID && AllValid(fs[id].recs) && ModeOf(fs[id].recs) == Closed)
  }

  ghost predicate Bounded(fs: Files, sn: nat) {
    forall id, r :: Holds(fs, id, r) ==> r.sn <= sn
  }

  // A sequence number names one record, whatever file and batch it is in.
  ghost predicate Ledgered(fs: Files, ledger: map<nat, Record>) {
    forall id, r :: Holds(fs, id, r) ==> r.sn in ledger && ledger[r.sn] == Lifted(r)
  }

  // The locator finds a record with exactly that key, sequence number and tombstone flag.
  ghost predicate Points(fs: Files, k: Bytes, e: Entry) {
    && Deref(fs, e).Some?
    && var r := Deref(fs, e).value;
    r.key == k && r.sn == e.sn && Tomb(r) == e.tomb && Size(r) == e.size
  }

  ghost predicate Pointing(fs: Files, ix: Index) {
    forall k :: k in ix ==> Points(fs, k, ix[k])
  }

  ghost predicate Newest(fs: Files, ix: Index) {
    forall id, r :: Holds(fs, id, r) && r.key in ix ==> r.sn <= ix[r.key].sn
  }

  // A key missing from the index has records only in files about to be unlinked, and
  // only when its tombstone has just been retired.
  ghost predicate Forgotten(fs: Files, ix: Index, m: Merge) {
    forall id, r :: Holds(fs, id, r) && r.key !in ix ==> id in m.ids && r.key in RetiredKeys(m)
  }

  function RetiredDone(m: Merge): nat {
    if m.phase == Retiring then m.done else if m.phase == Dropping then |m.retired| else 0
  }

  function ItemsDone(m: Merge): nat {
    if m.phase == Repointing then m.done else if m.phase in {Retiring, Dropping} then |m.items| else 0
  }

  ghost function RetiredKeys(m: Merge): set<Bytes>
  {
    set j | 0 <= j < RetiredDone(m) && j < |m.retired| :: m.retired[j].key
  }

  // --- the merge -----------------------------------------------------------------------

  ghost predicate MergeFiles(fs: Files, active: nat, m: Merge) {
    && m.ids <= fs.Keys && active !in m.ids && active !in m.outs
    && (forall id :: id in m.outs ==> id in fs && id !in m.ids && fs[id].tail == [])
    && (m.phase == Idle ==> m == NO_MERGE)
    && (m.phase == Sealed ==> m == NO_MERGE.(phase := Sealed, ids := m.ids, barrier := m.barrier))
  }

  // Everything sealed is at or below the barrier, everything written since is above it.
  ghost predicate Split(fs: Files, m: Merge) {
    && (forall id, r :: Holds(fs, id, r) && id in m.ids ==> r.sn <= m.barrier)
    && (m.phase != Idle ==>
          forall id, r :: Holds(fs, id, r) && id !in m.ids && id !in m.outs ==> m.barrier < r.sn)
  }

  ghost predicate Progress(m: Merge) {
    && |m.moved| <= |m.items|
    && (m.phase in {Synced, Repointing, Retiring, Dropping} ==> |m.moved| == |m.items|)
    && (m.phase == Repointing ==> m.done <= |m.items|)
    && (m.phase == Retiring ==> m.done <= |m.retired|)
    && KeyOrdered(m.items) && KeyOrdered(m.retired)
    && (forall i, j :: 0 <= i < |m.items| && 0 <= j < |m.retired| ==> m.items[i].key != m.retired[j].key)
  }

  // A collected item is the newest record of its key inside the merge set.
  ghost predicate Collected(fs: Files, ids: set<nat>, items: seq<Item>, tomb: bool) {
    && (forall j :: 0 <= j < |items| ==> CollectedItem(fs, ids, items[j], tomb))
    && (forall j, id, r :: 0 <= j < |items| && Holds(fs, id, r) && id in ids && r.key == items[j].key
                           ==> r.sn <= items[j].e.sn)
  }

  ghost predicate CollectedItem(fs: Files, ids: set<nat>, it: Item, tomb: bool) {
    it.e.tomb == tomb && it.e.file in ids && Points(fs, it.key, it.e)
  }

  ghost predicate Moved(fs: Files, m: Merge) {
    forall j :: 0 <= j < |m.moved| && j < |m.items| ==> MovedItem(fs, m.outs, m.items[j], m.moved[j])
  }

  ghost predicate MovedItem(fs: Files, outs: seq<nat>, it: Item, e: Entry) {
    e.sn == it.e.sn && !e.tomb && e.file in outs && Points(fs, it.key, e)
  }

  // An output holds nothing but copies of items.
  ghost predicate OnlyCopies(fs: Files, m: Merge) {
    forall id, r :: Holds(fs, id, r) && id in m.outs ==> CopyOf(m.items, r)
  }

  ghost predicate CopyOf(items: seq<Item>, r: Record) {
    exists j :: 0 <= j < |items| && items[j].key == r.key && items[j].e.sn == r.sn
  }

  // Every index entry still in the merge set is waiting to be repointed or retired.
  ghost predicate Awaiting(ix: Index, m: Merge) {
    m.phase in {Copying, Synced, Repointing, Retiring, Dropping} ==>
      forall k :: k in ix && ix[k].file in m.ids ==> AwaitingKey(m, Item(k, ix[k]))
  }

  ghost predicate AwaitingKey(m: Merge, it: Item) {
    if it.e.tomb then exists j :: RetiredDone(m) <= j < |m.retired| && m.retired[j] == it
    else exists j :: ItemsDone(m) <= j < |m.items| && m.items[j] == it
  }

  // Until the outputs are durable no entry points into one.
  ghost predicate Untouched(ix: Index, m: Merge) {
    m.phase in {Sealed, Copying, Synced} ==> forall k :: k in ix ==> ix[k].file !in m.outs
  }

  ghost predicate Merging(fs: Files, ix: Index, active: nat, m: Merge) {
    && MergeFiles(fs, active, m) && Split(fs, m) && Progress(m)
    && Collected(fs, m.ids, m.items, false) && Collected(fs, m.ids, m.retired, true)
    && Moved(fs, m) && OnlyCopies(fs, m) && Awaiting(ix, m) && Untouched(ix, m)
  }

  // --- the whole ---------------------------------------------------------------------------

  ghost predicate Sound(db: Db, ledger: map<nat, Record>) {
    && Shaped(db.files, db.active, db.nextID, db.synced)
    && Bounded(db.files, db.sn)
    && Ledgered(db.files, ledger)
    && Pointing(db.files, db.index)
    && Newest(db.files, db.index)
    && Forgotten(db.files, db.index, db.merge)
    && Merging(db.files, db.index, db.active, db.merge)
    && db.merge.barrier <= db.sn
  }

  lemma ApartFromActive(db: Db, ledger: map<nat, Record>)
    requires Sound(db, ledger)
    ensures db.active !in db.merge.ids && db.active !in db.merge.outs
  {
    hide Bounded, Ledgered, Pointing, Newest, Forgotten;
  }

  lemma BelowNextID(db: Db, ledger: map<nat, Record>)
    requires Sound(db, ledger)
    ensures forall id :: id in db.files ==> id < db.nextID
    ensures forall id :: id in db.merge.outs ==> id < db.nextID
  {
  }

  // --- growth ------------------------------------------------------------------------------

  ghost predicate Grows(fs: Files, gs: Files) {
    forall id :: id in fs ==> id in gs && fs[id].recs <= gs[id].recs
  }

  lemma PointsGrows(fs: Files, gs: Files, k: Bytes, e: Entry)
    requires Points(fs, k, e) && Grows(fs, gs)
    ensures Points(gs, k, e) && Deref(gs, e) == Deref(fs, e)
  {
    hide At;
    var a, b := fs[e.file].recs, gs[e.file].recs;
    assert b == a + b[|a|..];
    AtAppend(a, b[|a|..], e.pos);
  }

  // Adding records that are not in the merge set, and index entries that point outside it,
  // disturbs no merge in flight.
  lemma MergeGrows(fs: Files, gs: Files, ix: Index, jx: Index, active: nat, active': nat, m: Merge)
    requires Merging(fs, ix, active, m) && Grows(fs, gs)
    requires active' !in m.ids && active' !in m.outs
    requires forall id :: id in m.ids || id in m.outs ==> gs[id] == fs[id]
    requires m.phase != Idle ==> forall id, r :: Holds(gs, id, r) && id !in m.ids && id !in m.outs ==> m.barrier < r.sn
    requires forall k :: k in jx && (jx[k].file in m.ids || jx[k].file in m.outs) ==> k in ix && ix[k] == jx[k]
    ensures Merging(gs, jx, active', m)
  {
    hide Points;
    forall j | 0 <= j < |m.items| ensures CollectedItem(gs, m.ids, m.items[j], false) {
      PointsGrows(fs, gs, m.items[j].key, m.items[j].e);
    }
    forall j | 0 <= j < |m.retired| ensures CollectedItem(gs, m.ids, m.retired[j], true) {
      PointsGrows(fs, gs, m.retired[j].key, m.retired[j].e);
    }
    forall j | 0 <= j < |m.moved| && j < |m.items| ensures MovedItem(gs, m.outs, m.items[j], m.moved[j]) {
      PointsGrows(fs, gs, m.items[j].key, m.moved[j]);
    }
    forall id, r | Holds(gs, id, r) && (id in m.ids || id in m.outs) ensures Holds(fs, id, r) {
    }
  }
}
