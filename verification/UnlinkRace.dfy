/** A deleted key that comes back. The promise that a merge never resurrects a key is false of a
    process killed inside the unlink: this module exhibits the run. */
module UnlinkRace {
  import opened Bytes
  import opened Records
  import opened Log
  import opened Engine
  import opened Invariant
  import opened Writing
  import opened Recovery
  import opened Crash
  import opened Runs
  import opened Restarts
  import opened Followers
  import opened Mirroring
  import opened WalkRace
  import opened Unlinking
  import ScanRace
  import Exposure

  // The first merge leaves an empty active file below its output.
  ghost predicate Inverted(db: Db, k: Bytes) {
    && ScanRace.OnlyKey(db, k) && db.sn == 1 && db.active < db.index[k].file && db.files[db.active] == File([], [])
  }

  lemma FirstMerge(w: World, k: Bytes)
    requires Inv(w) && ScanRace.OnlyKey(w.db, k) && w.db.sn == 1 && FileSize(w.db.files[w.db.active]) > 0
    ensures var x := Run(w, ScanRace.Relocation(w, k)); Inv(x) && Inverted(x.db, k)
  {
    hide Phys, Denotes, SizeAll, Run, Points, ScanRace.Copied;
    ScanRace.SmallRecord(w, k);
    ScanRace.LiveMergeRun(w, k);
    ScanRace.MergeAgain(w, k);
    ScanRace.SealLive(w.db, k);
    ScanRace.CopyLive(w.db, k);
    var c := ScanRace.Copied(w.db, Item(k, w.db.index[k]));
    SwitchedShape(c, Seal(w.db).nextID, k);
  }

  lemma SwitchedShape(c: Db, out: nat, k: Bytes)
    requires |c.merge.items| == |c.merge.moved| == 1 && c.merge.items[0].key == k && c.merge.moved[0].file == out
    requires HasActive(c) && c.active !in c.merge.ids && c.index == map[k := c.merge.items[0].e]
    ensures var d := ScanRace.Switched(c, out);
            && d.active == c.active && d.sn == c.sn && HasActive(d) && d.files[d.active] == c.files[c.active]
            && d.index == map[k := c.merge.moved[0]]
  {
    assert RepointTo(c.index, c.merge.items, c.merge.moved, 0, 0) == c.index;
  }

  // The second merge, up to its unlink.
  function SecondMerge(k: Bytes, e: Entry): seq<Action> {
    [SealActive, Collect([], [Item(k, e)]), FsyncOuts, StartRepoint, StartRetire, RetireChunk(1), Raise]
  }

  lemma SecondMergeRun(w: World, k: Bytes)
    requires OnlyTombstone(w.db, k)
    ensures var z := Run(w, SecondMerge(k, w.db.index[k])).db;
            && z.merge.phase == Dropping && z.index == map[] && z.merge.ids == w.db.files.Keys
            && z.files == w.db.files[w.db.nextID := File([], [])]
  {
    hide Run, AllTaken, SizeAll;
    var e := w.db.index[k];
    var ms := Forgetful(k, e);
    ForgetfulRun(w.db, k);
    TakenLast(w.db, ms, Tidying(Raise));
    RunTidied(w, SecondMerge(k, e), ms + [Tidying(Raise)]);
    assert w.db.nextID !in w.db.files;
    var d := AllTaken(w.db, ms);
    assert d.files.Keys - {w.db.nextID} == w.db.files.Keys;
  }

  // The put is in a higher file than the tombstone.
  lemma PutLeft(x: Db, ledger: map<nat, Record>, z: Db, k: Bytes)
    requires Sound(x, ledger) && Inverted(x, k) && z.merge.ids == x.files.Keys
    requires z.files == x.files[x.active := File([Deletion(k).(sn := 2)], [])][x.nextID := File([], [])]
    ensures Resurfaces(z, x.active + 1, k)
  {
    hide Merging, Ledgered, Forgotten, Shaped, At, Tomb;
    var e, del, gone := x.index[k], Deletion(k).(sn := 2), Removed(z, x.active + 1);
    var r := Deref(x.files, e).value;
    assert Holds(x.files, e.file, r);
    var gs := z.files - gone;
    forall id, q | Holds(gs, id, q) ensures Holds(x.files, id, q) {
    }
    assert Holds(gs, e.file, r);
    forall id, q | Holds(z.files, id, q) ensures Holds(x.files, id, q) || q == del {
    }
    assert Holds(z.files, x.active, del);
    assert ResurfacesAs(z, x.active + 1, k, r, del);
  }

  // Not live before the kill, live after it.
  ghost predicate ComesBack(w: World, m: nat, ids: seq<nat>, k: Bytes) {
    && Killed(w, m, ids) && (forall i :: 0 <= i < |ids| ==> ids[i] in Halfway(w.db, m).data)
    && k !in View(w.db.index, w.ledger) && k in View(Opened(Halfway(w.db, m), ids, w.db.maxSize).index, w.ledger)
  }

  // Put a key, merge, delete it, merge again, every write synced; the process is killed when the files
  // up to the tombstone's are removed. The restart has the key.
  lemma DeletedKeyRecovered(maxSize: nat, k: Bytes, v: Bytes) returns (acts: seq<Action>, m: nat)
    requires Exposure.Storable(k, v)
    ensures Uninterrupted(acts)
    ensures var z := Run(Start(maxSize), acts);
            forall ids :: Listing(ids, z.db.files.Keys - Removed(z.db, m)) ==> ComesBack(z, m, ids, k)
  {
    hide Phys, Denotes, Sound, Run, Runs.Next, Start, Exposure.Plain, ScanRace.OnlyKey, OnlyTombstone, Resurfaces,
         ComesBack, Removed, ScanRace.Relocation, Inverted, Listing, FileSize;
    var put, del := Put([Exposure.Plain(k, v)], true), Put([Deletion(k)], true);
    var w := Runs.Next(Start(maxSize), put);
    OnePutShape(maxSize, k, v);
    FirstMerge(w, k);
    var first := ScanRace.Relocation(w, k);
    var x := Run(w, first);
    PhysParts(x);
    InvertedShape(x.db, x.ledger, k);
    DeletedTombstone(x, k, true);
    var y := Runs.Next(x, del);
    TombstoneShape(y.db, k);
    SecondMergeRun(y, k);
    var second := SecondMerge(k, y.db.index[k]);
    var z := Run(y, second);
    acts, m := [put] + (first + ([del] + second)), x.db.active + 1;
    RunWhole(Start(maxSize), put, first, del, second);
    ScanRace.MergesDoNotPut(w, k);
    ScanRace.MergeAgain(w, k);
    PutLeft(x.db, x.ledger, z.db, k);
    NextPhys(x, del);
    RunPhys(y, second);
    forall ids | Listing(ids, z.db.files.Keys - Removed(z.db, m)) ensures ComesBack(z, m, ids, k) {
      BackAgain(z, m, ids, k);
    }
  }

  lemma BackAgain(z: World, m: nat, ids: seq<nat>, k: Bytes)
    requires Phys(z) && z.db.merge.phase == Dropping && Listing(ids, z.db.files.Keys - Removed(z.db, m))
    requires Resurfaces(z.db, m, k)
    ensures ComesBack(z, m, ids, k)
  {
    hide Phys, Sound, Opened, Halfway, Resurfaces, View, Cut, AllValid, Listing, Removed;
    PhysParts(z);
    UncutIsCut(z.db, z.ledger);
    ValidRecords(z.db, z.ledger);
    ResurfacesLive(z, m, ids, k);
  }

  lemma OnePutShape(maxSize: nat, k: Bytes, v: Bytes)
    requires Exposure.Storable(k, v)
    ensures var w := Runs.Next(Start(maxSize), Put([Exposure.Plain(k, v)], true));
            && Inv(w) && ScanRace.OnlyKey(w.db, k) && w.db.sn == 1 && HasActive(w.db)
            && FileSize(w.db.files[w.db.active]) > 0 && k in w.db.index
  {
    hide Phys, Denotes, Runs.Next, ScanRace.OnlyKey;
    ScanRace.OnePut(maxSize, k, v);
    Exposure.First(maxSize, k, v);
    Exposure.PlainRecord(k, v, 0);
    assert [Exposure.Plain(k, v).(sn := 1)][..0] == [];
  }

  lemma InvertedShape(db: Db, ledger: map<nat, Record>, k: Bytes)
    requires Sound(db, ledger) && Inverted(db, k)
    ensures HasActive(db) && db.sn == 1 && db.merge == NO_MERGE && db.files[db.active] == File([], [])
    ensures db.index.Keys == {k} && db.index[k].sn <= 1
  {
    hide Shaped, Ledgered, Pointing, Newest, Forgotten, Merging, At;
    assert Holds(db.files, db.index[k].file, Deref(db.files, db.index[k]).value);
  }

  lemma TombstoneShape(db: Db, k: Bytes)
    requires OnlyTombstone(db, k)
    ensures HasActive(db) && k in db.index
  {
  }

  lemma RunWhole(w: World, a: Action, first: seq<Action>, b: Action, second: seq<Action>)
    ensures Run(w, [a] + (first + ([b] + second))) == Run(Runs.Next(Run(Runs.Next(w, a), first), b), second)
  {
    hide Runs.Next, Run;
    Exposure.RunCons(w, a, first + ([b] + second));
    RunConcat(Runs.Next(w, a), first, [b] + second);
    Exposure.RunCons(Run(Runs.Next(w, a), first), b, second);
  }

  lemma {:induction false} RunConcat(w: World, a: seq<Action>, b: seq<Action>)
    ensures Run(w, a + b) == Run(Run(w, a), b)
    decreases |b|
  {
    hide Runs.Next;
    if b == [] {
      assert a + b == a;
    } else {
      assert (a + b)[..|a + b| - 1] == a + b[..|b| - 1];
      RunConcat(w, a, b[..|b| - 1]);
    }
  }
}
