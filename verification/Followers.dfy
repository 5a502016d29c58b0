/** The follower's own engine: records arrive out of order and more than once while it merges.
    What its index leads to changes as the table of Following does. */
module Followers {
  import opened Bytes
  import opened Records
  import opened Log
  import opened Engine
  import opened Invariant
  import opened Writing
  import opened Compaction
  import opened Durability
  import opened Runs
  import opened Versions
  import opened Replica
  import opened Following

  // --- what every step keeps ---------------------------------------------------------------------

  // Items are records in the merge set. They need not be the newest of their keys.
  ghost predicate Gathered(fs: Files, m: Merge) {
    && (forall j :: 0 <= j < |m.items| ==> CollectedItem(fs, m.ids, m.items[j], false))
    && (forall j :: 0 <= j < |m.retired| ==> CollectedItem(fs, m.ids, m.retired[j], true))
  }

  ghost predicate Handling(fs: Files, ix: Index, active: nat, m: Merge) {
    MergeFiles(fs, active, m) && Progress(m) && Gathered(fs, m) && Moved(fs, m) && Awaiting(ix, m) && Untouched(ix, m)
  }

  ghost predicate Upright(db: Db, ledger: map<nat, Record>) {
    Standing(db) && Ledgered(db.files, ledger) && Handling(db.files, db.index, db.active, db.merge)
  }

  ghost function Held(db: Db): Table
    requires Pointing(db.files, db.index)
  {
    TableOf(db.files, db.index)
  }

  // A record the leader wrote.
  ghost predicate Entered(ledger: map<nat, Record>, r: Record) { r.sn in ledger && ledger[r.sn] == Lifted(r) }

  lemma UprightParts(db: Db, ledger: map<nat, Record>)
    requires Upright(db, ledger)
    ensures Standing(db) && Ledgered(db.files, ledger) && Handling(db.files, db.index, db.active, db.merge)
    ensures HasActive(db) && Pointing(db.files, db.index)
  {
    hide Pointing, Ledgered, Handling;
  }

  // Growth outside the merge disturbs no merge in flight.
  lemma HandlingGrows(fs: Files, gs: Files, ix: Index, jx: Index, active: nat, active': nat, m: Merge)
    requires Handling(fs, ix, active, m) && Grows(fs, gs) && active' !in m.ids && active' !in m.outs
    requires forall id :: id in m.ids || id in m.outs ==> gs[id] == fs[id]
    requires forall k :: k in jx && (jx[k].file in m.ids || jx[k].file in m.outs) ==> k in ix && ix[k] == jx[k]
    ensures Handling(gs, jx, active', m)
  {
    hide Points, Progress;
    forall j | 0 <= j < |m.items| ensures CollectedItem(gs, m.ids, m.items[j], false) {
      assert CollectedItem(fs, m.ids, m.items[j], false);
      PointsGrows(fs, gs, m.items[j].key, m.items[j].e);
    }
    forall j | 0 <= j < |m.retired| ensures CollectedItem(gs, m.ids, m.retired[j], true) {
      assert CollectedItem(fs, m.ids, m.retired[j], true);
      PointsGrows(fs, gs, m.retired[j].key, m.retired[j].e);
    }
    forall j | 0 <= j < |m.moved| && j < |m.items| ensures MovedItem(gs, m.outs, m.items[j], m.moved[j]) {
      assert MovedItem(fs, m.outs, m.items[j], m.moved[j]);
      PointsGrows(fs, gs, m.items[j].key, m.moved[j]);
    }
  }

  // --- records arrive -------------------------------------------------------------------------------

  lemma OpenUpright(db: Db, ledger: map<nat, Record>)
    requires Upright(db, ledger)
    ensures Upright(OpenNewActive(db), ledger) && Held(OpenNewActive(db)) == Held(db)
  {
    hide Pointing, Handling;
    var d := OpenNewActive(db);
    OpenTable(db);
    MergeBelow(db, ledger);
    forall id, r | Holds(d.files, id, r) ensures Holds(db.files, id, r) {
    }
    HandlingGrows(db.files, d.files, db.index, db.index, db.active, d.active, db.merge);
  }

  lemma MergeBelow(db: Db, ledger: map<nat, Record>)
    requires Upright(db, ledger)
    ensures forall id :: id in db.merge.ids || id in db.merge.outs ==>
              id in db.files && id < db.nextID && id != db.active
  {
    hide Pointing, Ledgered, Progress, Gathered, Moved, Awaiting, Untouched;
  }

  lemma WriteUpright(db: Db, ledger: map<nat, Record>, g: seq<Record>, d: Db)
    requires Upright(db, ledger) && SizeAll(g) <= U32 && forall r :: r in g ==> Entered(ledger, r)
    requires var f := db.files[db.active];
             && d.files == db.files[db.active := File(f.recs + g, f.tail)] && d.active == db.active
             && d.nextID == db.nextID
             && d.index == ApplyWritten(db.index, db.active, FileSize(f), g, |g|) && d.merge == db.merge
    ensures Upright(d, ledger)
  {
    hide Pointing, Handling, SizeAll, ApplyWritten, Replay, Lifted;
    var rs := db.files[db.active].recs;
    WriteTable(db, g, d);
    WrittenIsReplay(db.index, db.active, rs, g, |g|);
    MergeBelow(db, ledger);
    forall k | k in d.index && d.index[k].file != db.active ensures k in db.index && db.index[k] == d.index[k] {
      ReplaySource(db.index, db.active, rs + g, |rs|, |rs + g|, k);
    }
    forall id, r | Holds(d.files, id, r) ensures Entered(ledger, r) {
      assert Holds(db.files, id, r) || r in g;
    }
    HandlingGrows(db.files, d.files, db.index, d.index, db.active, d.active, db.merge);
  }

  lemma InstallUpright(db: Db, ledger: map<nat, Record>, g: seq<Record>, always: bool)
    requires Upright(db, ledger) && SizeAll(g) <= U32 && forall r :: r in g ==> Entered(ledger, r)
    ensures var d := Install(db, g, always);
            Upright(d, ledger) && d.sn == HighestAll(db.sn, g) && Held(d) == ReceiveAll(Held(db), g)
  {
    hide Upright, SizeAll, ApplyWritten, TableOf, HighestAll, ReceiveAll, Pointing, Entered;
    UprightParts(db, ledger);
    InstallTable(db, g, always);
    if g != [] {
      OpenUpright(db, ledger);
      var r := Rotate(db, SizeAll(g));
      assert r == db || r == OpenNewActive(db);
      WriteUpright(r, ledger, g, Install(db, g, always));
    }
  }

  // --- the follower merges ----------------------------------------------------------------------------

  // Files, index and progress as before: what is held has not changed.
  lemma StillUpright(db: Db, ledger: map<nat, Record>, d: Db)
    requires Upright(db, ledger) && d.files == db.files && d.index == db.index && d.active == db.active
    requires d.nextID == db.nextID
    requires Handling(d.files, d.index, d.active, d.merge)
    ensures Upright(d, ledger) && Held(d) == Held(db)
  {
    hide Pointing, Handling, Ledgered;
  }

  lemma SealUpright(db: Db, ledger: map<nat, Record>)
    requires Upright(db, ledger) && db.merge.phase == Idle
    ensures HasActive(db) && Upright(Seal(db), ledger) && Held(Seal(db)) == Held(db)
  {
    hide Upright, Pointing, SizeAll, Ledgered;
    UprightParts(db, ledger);
    OpenUpright(db, ledger);
    var d := if FileSize(db.files[db.active]) > 0 then OpenNewActive(db) else db;
    UprightParts(d, ledger);
    IdleHandling(d.files, d.index, d.active);
    if Seal(db) != d {
      StillUpright(d, ledger, Seal(db));
    }
  }

  lemma IdleHandling(fs: Files, ix: Index, active: nat)
    requires active in fs
    ensures Handling(fs, ix, active, NO_MERGE)
    ensures forall barrier ::
              Handling(fs, ix, active, NO_MERGE.(phase := Sealed, ids := fs.Keys - {active}, barrier := barrier))
  {
    hide Points;
    NothingOrdered();
  }

  lemma SnapshotUpright(db: Db, ledger: map<nat, Record>, items: seq<Item>, retired: seq<Item>)
    requires Upright(db, ledger) && db.merge.phase == Sealed && Collects(db.index, db.merge.ids, items, retired)
    ensures Upright(Snapshot(db, items, retired), ledger) && Held(Snapshot(db, items, retired)) == Held(db)
  {
    hide Points, Less, Ledgered;
    var d := Snapshot(db, items, retired);
    forall j | 0 <= j < |items| ensures CollectedItem(db.files, d.merge.ids, items[j], false) {
      assert items[j] in items;
    }
    forall j | 0 <= j < |retired| ensures CollectedItem(db.files, d.merge.ids, retired[j], true) {
      assert retired[j] in retired;
    }
    forall i, j | 0 <= i < |items| && 0 <= j < |retired| ensures items[i].key != retired[j].key {
      assert items[i] in items && retired[j] in retired;
    }
    forall k | k in db.index && db.index[k].file in d.merge.ids ensures AwaitingKey(d.merge, Item(k, db.index[k])) {
      assert if db.index[k].tomb then Item(k, db.index[k]) in retired else Item(k, db.index[k]) in items;
    }
    StillUpright(db, ledger, d);
  }

  lemma CopyUpright(db: Db, ledger: map<nat, Record>)
    requires Upright(db, ledger) && db.merge.phase == Copying && |db.merge.moved| < |db.merge.items|
    ensures Upright(Copy(db), ledger) && Held(Copy(db)) == Held(db)
  {
    hide Points, Lifted, Tomb, Copy, TableOf, Progress, Ledgered, Pointing;
    var it := db.merge.items[|db.merge.moved|];
    assert CollectedItem(db.files, db.merge.ids, it, false);
    var r := ItemRecord(db.files, it);
    var out := OutputFor(db, r);
    CopiedUpright(db, ledger, out, Lifted(r), Copy(db), r);
  }

  lemma ItemRecord(fs: Files, it: Item) returns (r: Record)
    requires Points(fs, it.key, it.e)
    ensures Deref(fs, it.e) == Some(r) && Holds(fs, it.e.file, r) && r.key == it.key && r.sn == it.e.sn
    ensures Tomb(r) == it.e.tomb
  {
    r := Deref(fs, it.e).value;
  }

  lemma CopiedUpright(db: Db, ledger: map<nat, Record>, out: nat, l: Record, d: Db, r: Record)
    requires Upright(db, ledger) && db.merge.phase == Copying && |db.merge.moved| < |db.merge.items|
    requires CopiedTo(db, out, l, d) && l == Lifted(r) && Holds(db.files, db.merge.items[|db.merge.moved|].e.file, r)
    requires !Tomb(r)
    requires var it := db.merge.items[|db.merge.moved|]; r.key == it.key && r.sn == it.e.sn
    ensures Upright(d, ledger) && Held(d) == Held(db)
  {
    hide Pointing, TableOf, Points, Handling, Lifted, Tomb;
    LiftedTwice(r);
    MergeBelow(db, ledger);
    assert Grows(db.files, d.files);
    TableGrows(db.files, d.files, db.index);
    forall id, q | Holds(d.files, id, q) ensures Entered(ledger, q) {
      assert Holds(db.files, id, q) || q == l;
    }
    CopiedHandling(db, ledger, out, l, d);
  }

  lemma CopiedHandling(db: Db, ledger: map<nat, Record>, out: nat, l: Record, d: Db)
    requires Upright(db, ledger) && db.merge.phase == Copying && |db.merge.moved| < |db.merge.items|
    requires CopiedTo(db, out, l, d) && Grows(db.files, d.files) && !Tomb(l)
    requires var it := db.merge.items[|db.merge.moved|]; l.key == it.key && l.sn == it.e.sn
    ensures Handling(d.files, d.index, d.active, d.merge)
  {
    hide Ledgered, Points, KeyOrdered, SizeAll, Lifted, Tomb;
    var m, n := db.merge, d.merge;
    forall j | 0 <= j < |m.items| ensures CollectedItem(d.files, n.ids, n.items[j], false) {
      assert CollectedItem(db.files, m.ids, m.items[j], false);
      PointsGrows(db.files, d.files, m.items[j].key, m.items[j].e);
    }
    forall j | 0 <= j < |m.retired| ensures CollectedItem(d.files, n.ids, n.retired[j], true) {
      assert CollectedItem(db.files, m.ids, m.retired[j], true);
      PointsGrows(db.files, d.files, m.retired[j].key, m.retired[j].e);
    }
    forall j | 0 <= j < |n.moved| && j < |n.items| ensures MovedItem(d.files, n.outs, n.items[j], n.moved[j]) {
      if j < |m.moved| {
        assert MovedItem(db.files, m.outs, m.items[j], m.moved[j]);
        PointsGrows(db.files, d.files, m.items[j].key, m.moved[j]);
      } else {
        CopyPoints(db, out, l, d);
      }
    }
    EntryFiles(db.files, db.index);
    PhaseKeepsAwaiting(db.index, m, n);
  }

  // A change of phase that neither advances nor resets progress.
  lemma PhaseUpright(db: Db, ledger: map<nat, Record>, d: Db)
    requires Upright(db, ledger) && d.files == db.files && d.index == db.index && d.active == db.active
    requires d.nextID == db.nextID
    requires var m, n := db.merge, d.merge;
             && m.phase in {Copying, Synced, Repointing, Retiring}
             && n.phase in {Synced, Repointing, Retiring, Dropping}
             && n == m.(phase := n.phase, done := n.done) && |m.moved| == |m.items|
             && (n.phase == Repointing ==> n.done <= |m.items|)
             && (n.phase == Retiring ==> n.done <= |m.retired|) && (n.phase == Synced ==> m.phase == Copying)
             && ItemsDone(n) == ItemsDone(m) && RetiredDone(n) == RetiredDone(m)
    ensures Upright(d, ledger) && Held(d) == Held(db)
  {
    hide Points, Less, Ledgered, Pointing, KeyOrdered;
    PhaseKeepsAwaiting(db.index, db.merge, d.merge);
    StillUpright(db, ledger, d);
  }

  // Unlinking files nothing in the index leads to.
  lemma UnlinkedUpright(db: Db, ledger: map<nat, Record>, d: Db, gone: set<nat>)
    requires Upright(db, ledger) && d.files == db.files - gone && d.index == db.index && d.active == db.active
    requires d.nextID == db.nextID && d.merge == NO_MERGE && db.active !in gone
    requires forall k :: k in db.index ==> db.index[k].file !in gone
    ensures Upright(d, ledger) && Held(d) == Held(db)
  {
    hide Handling, At;
    forall k | k in d.index
      ensures Points(d.files, k, d.index[k]) && Deref(d.files, d.index[k]) == Deref(db.files, d.index[k])
    {
      assert Points(db.files, k, db.index[k]);
    }
    forall id, r | Holds(d.files, id, r) ensures Holds(db.files, id, r) {
    }
    IdleHandling(d.files, d.index, d.active);
  }

  lemma AbortUpright(db: Db, ledger: map<nat, Record>)
    requires Upright(db, ledger) && db.merge.phase in {Sealed, Copying, Synced}
    ensures Upright(Abort(db), ledger) && Held(Abort(db)) == Held(db)
  {
    hide Points, Ledgered, Pointing, Progress, Gathered, Moved, Awaiting;
    UnlinkedUpright(db, ledger, Abort(db), OutSet(db.merge.outs));
  }

  lemma DropUpright(db: Db, ledger: map<nat, Record>)
    requires Upright(db, ledger) && db.merge.phase == Dropping
    ensures Upright(Unlink(db), ledger) && Held(Unlink(db)) == Held(db)
  {
    hide Points, Ledgered, Pointing, Progress, Gathered, Moved, Awaiting;
    NothingAwaits(db.index, db.merge);
    UnlinkedUpright(db, ledger, Unlink(db), db.merge.ids);
  }

  // --- repointing and retiring --------------------------------------------------------------------------

  // Entries with the same number lead to the same version, wherever it is stored.
  lemma SameEntry(fs: Files, ledger: map<nat, Record>, k: Bytes, d: Entry, e: Entry)
    requires Ledgered(fs, ledger) && Points(fs, k, d) && Points(fs, k, e) && d.sn == e.sn
    ensures VersionOf(Deref(fs, d).value) == VersionOf(Deref(fs, e).value) && d.tomb == e.tomb
  {
    hide At;
    var r, q := Deref(fs, d).value, Deref(fs, e).value;
    assert Holds(fs, d.file, r) && Holds(fs, e.file, q);
    assert Lifted(r) == Lifted(q);
  }

  lemma RepointHeld(fs: Files, ledger: map<nat, Record>, ix: Index, it: Item, e: Entry)
    requires Ledgered(fs, ledger) && Pointing(fs, ix) && Points(fs, it.key, e) && e.sn == it.e.sn
    ensures var jx := RepointOne(ix, it, e); Pointing(fs, jx) && TableOf(fs, jx) == TableOf(fs, ix)
  {
    hide Points, Ledgered, Deref, VersionOf;
    var jx := RepointOne(ix, it, e);
    assert Pointing(fs, jx);
    if it.key in ix && ix[it.key].sn == it.e.sn {
      SameEntry(fs, ledger, it.key, ix[it.key], e);
    }
    assert forall k :: k in jx ==> TableOf(fs, jx)[k] == TableOf(fs, ix)[k];
  }

  lemma RepointOneUpright(db: Db, ledger: map<nat, Record>)
    requires Upright(db, ledger) && db.merge.phase == Repointing && db.merge.done < |db.merge.items|
    ensures Upright(Repoint(db, db.merge.done + 1), ledger) && Held(Repoint(db, db.merge.done + 1)) == Held(db)
  {
    hide Ledgered, Pointing, Points, KeyOrdered, Awaiting, TableOf, Gathered;
    var d, m := Repoint(db, db.merge.done + 1), db.merge;
    var it, e := m.items[m.done], m.moved[m.done];
    assert RepointTo(db.index, m.items, m.moved, m.done, m.done) == db.index;
    assert d.index == RepointOne(db.index, it, e);
    assert MovedItem(db.files, m.outs, it, e);
    RepointHeld(db.files, ledger, db.index, it, e);
    RepointAwaiting(db.index, d.index, m, db.files, db.active);
    GatheredSame(db.files, m, d.merge);
  }

  lemma GatheredSame(fs: Files, m: Merge, n: Merge)
    requires Gathered(fs, m) && n.items == m.items && n.retired == m.retired && n.ids == m.ids
    ensures Gathered(fs, n)
  {
    hide CollectedItem;
  }

  lemma {:induction false} RepointUpright(db: Db, ledger: map<nat, Record>, hi: nat)
    requires Upright(db, ledger) && db.merge.phase == Repointing
    requires db.merge.done <= hi <= |db.merge.items| == |db.merge.moved|
    ensures Upright(Repoint(db, hi), ledger) && Held(Repoint(db, hi)) == Held(db)
    decreases hi
  {
    hide Upright, TableOf, Pointing;
    UprightParts(db, ledger);
    if db.merge.done == hi {
      assert Repoint(db, hi) == db;
    } else {
      var d := Repoint(db, hi - 1);
      RepointUpright(db, ledger, hi - 1);
      RepointOneUpright(d, ledger);
      UprightParts(Repoint(d, hi), ledger);
      assert RepointTo(d.index, d.merge.items, d.merge.moved, hi - 1, hi - 1) == d.index;
      assert Repoint(d, hi) == Repoint(db, hi);
    }
  }

  lemma RetireHeld(fs: Files, ledger: map<nat, Record>, ix: Index, it: Item) returns (ks: set<Bytes>)
    requires Ledgered(fs, ledger) && Pointing(fs, ix) && Points(fs, it.key, it.e) && it.e.tomb
    ensures var jx := RetireOne(ix, it); Pointing(fs, jx) && TableOf(fs, jx) == Forget(TableOf(fs, ix), ks)
  {
    hide Ledgered, Deref;
    var jx := RetireOne(ix, it);
    ks := ix.Keys - jx.Keys;
    assert Pointing(fs, jx);
    if it.key in ix && ix[it.key].sn == it.e.sn {
      SameEntry(fs, ledger, it.key, ix[it.key], it.e);
      assert TableOf(fs, ix)[it.key].tomb;
    }
    assert TableOf(fs, jx) == Forget(TableOf(fs, ix), ks);
  }

  lemma RetireOneUpright(db: Db, ledger: map<nat, Record>) returns (ks: set<Bytes>)
    requires Upright(db, ledger) && db.merge.phase == Retiring && db.merge.done < |db.merge.retired|
    ensures Upright(Retire(db, db.merge.done + 1), ledger)
    ensures Held(Retire(db, db.merge.done + 1)) == Forget(Held(db), ks)
  {
    hide Ledgered, Pointing, Points, KeyOrdered, Awaiting, TableOf, Forget, Moved;
    var d, m := Retire(db, db.merge.done + 1), db.merge;
    var it := m.retired[m.done];
    assert RetireTo(db.index, m.retired, m.done, m.done) == db.index;
    assert d.index == RetireOne(db.index, it);
    assert CollectedItem(db.files, m.ids, it, true);
    ks := RetireHeld(db.files, ledger, db.index, it);
    RetireAwaiting(db.index, d.index, m);
    MovedSame(db.files, m, d.merge);
  }

  lemma MovedSame(fs: Files, m: Merge, n: Merge)
    requires Moved(fs, m) && n.items == m.items && n.moved == m.moved && n.outs == m.outs
    ensures Moved(fs, n)
  {
    hide MovedItem;
  }

  lemma ForgetTwice(t: Table, ks: set<Bytes>, ls: set<Bytes>)
    ensures Forget(Forget(t, ks), ls) == Forget(t, ks + ls)
  {
  }

  lemma ForgetNothing(t: Table)
    ensures Forget(t, {}) == t
  {
  }

  lemma {:induction false} RetireUpright(db: Db, ledger: map<nat, Record>, hi: nat) returns (ks: set<Bytes>)
    requires Upright(db, ledger) && db.merge.phase == Retiring && db.merge.done <= hi <= |db.merge.retired|
    ensures Upright(Retire(db, hi), ledger) && Held(Retire(db, hi)) == Forget(Held(db), ks)
    decreases hi
  {
    hide Upright, TableOf, Pointing, Forget;
    UprightParts(db, ledger);
    if db.merge.done == hi {
      assert Retire(db, hi) == db;
      ks := {};
      ForgetNothing(Held(db));
    } else {
      var d := Retire(db, hi - 1);
      var before := RetireUpright(db, ledger, hi - 1);
      var last := RetireOneUpright(d, ledger);
      UprightParts(d, ledger);
      UprightParts(Retire(d, hi), ledger);
      assert RetireTo(d.index, d.merge.retired, hi - 1, hi - 1) == d.index;
      assert Retire(d, hi) == Retire(db, hi);
      ForgetTwice(Held(db), before, last);
      ks := before + last;
    }
  }

  // --- whole runs ------------------------------------------------------------------------------------------

  // A frame is installed, or a merge, a sync or a hint builder takes a step.
  datatype Move = Got(g: seq<Record>, always: bool) | Tidying(a: Action)

  ghost function Tidied(db: Db, a: Action): Db { Runs.Next(World(db, map[], map[], [], []), a).db }

  ghost function Taken(db: Db, m: Move): Db {
    match m
    case Got(g, always) => if HasActive(db) then Install(db, g, always) else db
    case Tidying(a) => if a.Put? || a.Reboot? then db else Tidied(db, a)
  }

  ghost function AllTaken(db: Db, ms: seq<Move>): Db {
    if ms == [] then db else Taken(AllTaken(db, ms[..|ms| - 1]), ms[|ms| - 1])
  }

  function Arrivals(ms: seq<Move>): seq<Record> {
    if ms == [] then []
    else Arrivals(ms[..|ms| - 1]) + match ms[|ms| - 1] case Got(g, _) => g case Tidying(_) => []
  }

  ghost predicate FromLeader(ledger: map<nat, Record>, ms: seq<Move>) {
    forall i :: 0 <= i < |ms| && ms[i].Got? ==>
      SizeAll(ms[i].g) <= U32 && forall r :: r in ms[i].g ==> Entered(ledger, r)
  }

  lemma TidiedUpright(db: Db, ledger: map<nat, Record>, a: Action) returns (ks: set<Bytes>)
    requires Upright(db, ledger) && !a.Put? && !a.Reboot?
    ensures Upright(Tidied(db, a), ledger) && Tidied(db, a).sn == db.sn && Held(Tidied(db, a)) == Forget(Held(db), ks)
  {
    hide Upright, Collects, Forget, TableOf, RepointTo, RetireTo, Copy, Seal, Pointing, Immutable, Tops;
    var w := World(db, map[], map[], [], []);
    ks := {};
    UprightParts(db, ledger);
    ForgetNothing(Held(db));
    TidiedNumber(db, a);
    if Enabled(w, a) {
      match a
      case SealActive => SealUpright(db, ledger);
      case Collect(items, retired) => SnapshotUpright(db, ledger, items, retired);
      case CopyNext => CopyUpright(db, ledger);
      case GiveUp => AbortUpright(db, ledger);
      case RepointChunk(hi) => RepointUpright(db, ledger, hi);
      case RetireChunk(hi) => ks := RetireUpright(db, ledger, hi);
      case Drop => DropUpright(db, ledger);
      case _ => PhaseTidied(db, ledger, a);
    }
  }

  lemma PhaseTidied(db: Db, ledger: map<nat, Record>, a: Action)
    requires Upright(db, ledger) && Enabled(World(db, map[], map[], [], []), a)
    requires a.Fsync? || a.BuildHint? || a.FsyncOuts? || a.StartRepoint? || a.StartRetire? || a.Raise?
    ensures Upright(Tidied(db, a), ledger) && Held(Tidied(db, a)) == Held(db)
  {
    hide Upright, TableOf, Pointing, Immutable, Tops, OutSet, Handling;
    UprightParts(db, ledger);
    var d := Tidied(db, a);
    if a.Fsync? || a.BuildHint? {
      StillUpright(db, ledger, d);
    } else {
      HandlingMoved(db);
      PhaseUpright(db, ledger, d);
    }
  }

  lemma HandlingMoved(db: Db)
    requires Handling(db.files, db.index, db.active, db.merge)
    ensures db.merge.phase in {Synced, Repointing, Retiring} ==> |db.merge.moved| == |db.merge.items|
  {
    hide MergeFiles, Gathered, Moved, Awaiting, Untouched, KeyOrdered;
  }

  lemma TidiedNumber(db: Db, a: Action)
    requires !a.Put? && !a.Reboot?
    ensures Tidied(db, a).sn == db.sn
  {
    hide Collects, RepointTo, RetireTo, Tops, SizeAll, Immutable;
  }

  // --- and the table -----------------------------------------------------------------------------------------

  lemma {:induction false} FollowPrefix(t: Table, rs: seq<Record>, fs: seq<set<Bytes>>, qs: seq<Record>,
                                        gs: seq<set<Bytes>>, n: nat)
    requires n <= |rs| < |fs| && rs <= qs && |qs| < |gs| && fs[..n + 1] == gs[..n + 1]
    ensures Follow(t, rs, fs, n) == Follow(t, qs, gs, n)
    decreases n
  {
    hide Forget, Receive;
    assert fs[n] == fs[..n + 1][n] == gs[..n + 1][n] == gs[n];
    if n != 0 {
      assert fs[..n] == fs[..n + 1][..n] && gs[..n] == gs[..n + 1][..n];
      FollowPrefix(t, rs, fs, qs, gs, n - 1);
    }
  }

  // A frame arrives: nothing is forgotten while it is installed.
  lemma {:induction false} FollowFrame(t: Table, rs: seq<Record>, fs: seq<set<Bytes>>, g: seq<Record>, n: nat)
    requires |fs| == |rs| + 1 && n <= |g|
    ensures Follow(t, rs + g, fs + Never(|g|), |rs| + n) == ReceiveAll(Follow(t, rs, fs, |rs|), g[..n])
    decreases n
  {
    hide Forget, Receive;
    var all, gs := rs + g, fs + Never(|g|);
    if n == 0 {
      FollowPrefix(t, rs, fs, all, gs, |rs|);
    } else {
      FollowFrame(t, rs, fs, g, n - 1);
      ForgetNothing(Receive(Follow(t, all, gs, |rs| + n - 1), g[n - 1]));
      assert g[..n][..n - 1] == g[..n - 1];
      assert all[|rs| + n - 1] == g[n - 1] && gs[|rs| + n] == {};
    }
  }

  lemma FollowForget(t: Table, rs: seq<Record>, fs: seq<set<Bytes>>, ks: set<Bytes>)
    requires |fs| == |rs| + 1
    ensures Follow(t, rs, fs[|rs| := fs[|rs|] + ks], |rs|) == Forget(Follow(t, rs, fs, |rs|), ks)
  {
    hide Forget, Receive;
    var gs, n := fs[|rs| := fs[|rs|] + ks], |rs|;
    if n == 0 {
      ForgetTwice(t, fs[0], ks);
    } else {
      assert fs[..n] == gs[..n];
      FollowPrefix(t, rs, fs, rs, gs, n - 1);
      ForgetTwice(Receive(Follow(t, rs, fs, n - 1), rs[n - 1]), fs[n], ks);
    }
  }

  lemma NothingGot(db: Db, t: Table, fs: seq<set<Bytes>>)
    requires |fs| == 1 && fs[0] == {}
    ensures Follow(t, [], fs, 0) == t && HighestAll(db.sn, []) == db.sn
  {
  }

  // Whatever the follower's merges do between and during sessions, its engine stays sound, is at
  // the highest number that arrived, and leads to what receiving the records and forgetting some
  // tombstones in between leaves.
  lemma {:induction false} RunFollows(db: Db, ledger: map<nat, Record>, ms: seq<Move>) returns (fs: seq<set<Bytes>>)
    requires Upright(db, ledger) && FromLeader(ledger, ms)
    ensures var d, rs := AllTaken(db, ms), Arrivals(ms);
            && Upright(d, ledger) && d.sn == HighestAll(db.sn, rs)
            && |fs| == |rs| + 1 && Held(d) == Follow(Held(db), rs, fs, |rs|)
    decreases |ms|
  {
    hide Upright, Follow, HighestAll, ReceiveAll, Forget, TableOf, Entered, SizeAll, Install, Tidied, Pointing;
    UprightParts(db, ledger);
    if ms == [] {
      fs := [{}];
      NothingGot(db, Held(db), fs);
    } else {
      var init, m := ms[..|ms| - 1], ms[|ms| - 1];
      var gs := RunFollows(db, ledger, init);
      var d, rs := AllTaken(db, init), Arrivals(init);
      UprightParts(d, ledger);
      match m
      case Got(g, always) =>
        InstallUpright(d, ledger, g, always);
        HighestAllConcat(db.sn, rs, g);
        FollowFrame(Held(db), rs, gs, g, |g|);
        assert g[..|g|] == g;
        fs := gs + Never(|g|);
      case Tidying(a) =>
        assert rs + [] == rs;
        fs := gs;
        if !a.Put? && !a.Reboot? {
          var ks := TidiedUpright(d, ledger, a);
          FollowForget(Held(db), rs, gs, ks);
          fs := gs[|rs| := gs[|rs|] + ks];
        }
    }
  }
}
