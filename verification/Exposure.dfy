/** A run that loses a durable key. The promise that a crash costs only operations after the
    last sync is false of the merge: this module exhibits the failing family. */
module Exposure {
  import opened Bytes
  import opened Records
  import opened Log
  import opened Engine
  import opened Invariant
  import opened Writing
  import opened Compaction
  import opened Durability
  import opened Crash
  import opened Runs

  function Plain(k: Bytes, v: Bytes): Record { Record(0, 0, 0, k, v) }

  // Put k, start a merge, overwrite k before the merge takes its snapshot, finish the merge
  // up to its unlink.
  function Overwritten(k: Bytes, v: Bytes, v': Bytes): seq<Action> {
    [Put([Plain(k, v)], true), SealActive, Put([Plain(k, v')], false), Collect([], []), FsyncOuts,
     StartRepoint, StartRetire, Raise]
  }

  predicate Storable(k: Bytes, v: Bytes) { 0 < |k| <= MAX_KEY && |v| <= MAX_VALUE }

  ghost predicate Shape(w: World, files: Files, active: nat, synced: nat, sn: nat, m: Merge) {
    w.db.files == files && w.db.active == active && w.db.synced == synced && w.db.sn == sn && w.db.merge == m
  }

  lemma PlainRecord(k: Bytes, v: Bytes, sn: nat)
    requires Storable(k, v) && sn < 100
    ensures var r, s := Plain(k, v), Plain(k, v).(sn := sn + 1);
            && Stamp([r], sn) == [s] && AllValid([s]) && Operation([r]) && Numbered([s], sn)
            && 0 < SizeAll([r]) == SizeAll([s]) == Size(s) <= U32 && Lifted(s) == s && !Tomb(s)
  {
    var r, s := Plain(k, v), Plain(k, v).(sn := sn + 1);
    assert Stamp([r], sn) == [s];
    assert [r][..0] == [] && [s][..0] == [];
  }

  // A write into an empty active file.
  lemma PutEmpty(w: World, k: Bytes, v: Bytes, always: bool)
    requires Storable(k, v) && HasActive(w.db) && w.db.files[w.db.active] == File([], []) && w.db.sn < 100
    requires k in w.db.index ==> w.db.index[k].sn <= w.db.sn
    ensures var s := Plain(k, v).(sn := w.db.sn + 1);
            var x := Written(w, [Plain(k, v)], always);
            && Enabled(w, Put([Plain(k, v)], always))
            && Shape(x, w.db.files[w.db.active := File([s], [])], w.db.active,
                     if always then 1 else w.db.synced, s.sn, w.db.merge)
            && x.db.index == w.db.index[k := Entry(0, s.sn, w.db.active, Size(s), false)]
            && x.db.nextID == w.db.nextID && x.db.hinted == w.db.hinted
            && x.ledger == w.ledger[s.sn := s]
            && x.top == (if always then w.top + Tops(x.db.index) else w.top)
            && x.volatile == (if always then [] else w.volatile + [[s]])
  {
    hide Tops, Lifted, Tomb, Operation, AllValid;
    var s := Plain(k, v).(sn := w.db.sn + 1);
    PlainRecord(k, v, w.db.sn);
    assert Stamp([Plain(k, v)], w.db.sn) == [s];
    EmptyFile();
    assert [] + [s] == [s];
    assert [s][..0] == [];
    ReplayOne(w.db.index, w.db.active, s);
    EnterOne(w.ledger, s, w.db.sn);
  }

  lemma ReplayOne(ix: Index, id: nat, s: Record)
    requires (s.key in ix ==> ix[s.key].sn < s.sn) && !Tomb(s)
    ensures Replay(ix, id, [s], 0, 1) == ix[s.key := Entry(0, s.sn, id, Size(s), false)]
  {
    hide Tomb;
    assert [s][..0] == [];
    assert Replay(ix, id, [s], 0, 0) == ix;
  }

  lemma EnterOne(ledger: map<nat, Record>, s: Record, sn: nat)
    requires Numbered([s], sn) && Lifted(s) == s
    ensures Enter(ledger, [s], sn) == ledger[s.sn := s]
  {
    hide Lifted;
    assert [s][..0] == [];
  }

  // --- the run, step by step -------------------------------------------------------------

  lemma First(maxSize: nat, k: Bytes, v: Bytes)
    requires Storable(k, v)
    ensures var s := Plain(k, v).(sn := 1);
            var w := Runs.Next(Start(maxSize), Put([Plain(k, v)], true));
            && Shape(w, map[0 := File([s], [])], 0, 1, 1, NO_MERGE)
            && w.db.index == map[k := Entry(0, 1, 0, Size(s), false)] && w.db.nextID == 1
            && w.ledger == map[1 := s] && w.top == map[k := 1] && w.volatile == []
  {
    hide Written, Enabled, Plain;
    PutEmpty(Start(maxSize), k, v, true);
  }

  lemma Second(w: World, k: Bytes, s: Record)
    requires Shape(w, map[0 := File([s], [])], 0, 1, 1, NO_MERGE)
    requires w.db.index == map[k := Entry(0, 1, 0, Size(s), false)] && w.db.nextID == 1
    requires w.top == map[k := 1] && w.volatile == []
    ensures var x := Runs.Next(w, SealActive);
            && Shape(x, map[0 := File([s], []), 1 := File([], [])], 1, 0, 1,
                     NO_MERGE.(phase := Sealed, ids := {0}, barrier := 1))
            && x.db.index == w.db.index && x.ledger == w.ledger && x.top == map[k := 1] && x.volatile == []
  {
    assert [s][..0] == [];
    assert SizeAll([s]) > 0;
    var d := OpenNewActive(w.db);
    assert d.files.Keys - {1} == {0};
    assert w.top + Tops(w.db.index) == map[k := 1];
  }

  lemma Third(w: World, k: Bytes, s: Record, v: Bytes, m: Merge)
    requires Storable(k, v) && Shape(w, map[0 := File([s], []), 1 := File([], [])], 1, 0, 1, m)
    requires w.db.index == map[k := Entry(0, 1, 0, Size(s), false)]
    requires w.top == map[k := 1] && w.volatile == [] && w.ledger == map[1 := s]
    ensures var t := Plain(k, v).(sn := 2);
            var x := Runs.Next(w, Put([Plain(k, v)], false));
            && Shape(x, map[0 := File([s], []), 1 := File([t], [])], 1, 0, 2, m)
            && x.db.index == map[k := Entry(0, 2, 1, Size(t), false)] && x.ledger == map[1 := s, 2 := t]
            && x.top == map[k := 1] && x.volatile == [[t]]
  {
    hide Written, Enabled, Plain;
    PutEmpty(w, k, v, false);
  }

  lemma Fourth(w: World, k: Bytes, e: Entry)
    requires HasActive(w.db) && w.db.merge == NO_MERGE.(phase := Sealed, ids := {0}, barrier := 1)
    requires w.db.index == map[k := e] && e.file == 1
    ensures Runs.Next(w, Collect([], [])) == w.(db := w.db.(merge := w.db.merge.(phase := Copying)))
  {
    assert Collects(w.db.index, w.db.merge.ids, [], []);
  }

  // The steps of a merge with nothing to copy and nothing to retire.
  lemma HollowSteps(w: World)
    requires HasActive(w.db) && w.db.merge.items == w.db.merge.retired == [] && w.db.merge.moved == []
    requires w.db.merge.outs == [] && w.db.merge.done == 0
    ensures w.db.merge.phase == Copying ==> Runs.Next(w, FsyncOuts) == In(w, Synced)
    ensures w.db.merge.phase == Synced ==> Runs.Next(w, StartRepoint) == In(w, Repointing)
    ensures w.db.merge.phase == Repointing ==> Runs.Next(w, StartRetire) == In(w, Retiring)
    ensures w.db.merge.phase == Retiring ==>
              Runs.Next(w, Raise) == In(w.(db := w.db.(mergeSn := w.db.merge.barrier)), Dropping)
  {
    assert OutSet([]) == {};
  }

  function In(w: World, p: Phase): World { w.(db := w.db.(merge := w.db.merge.(phase := p))) }

  lemma Hollow(w: World)
    requires HasActive(w.db) && w.db.merge == NO_MERGE.(phase := Copying, ids := {0}, barrier := 1)
    ensures Run(w, [FsyncOuts, StartRepoint, StartRetire, Raise])
            == In(w.(db := w.db.(mergeSn := 1)), Dropping)
  {
    hide Run, Runs.Next;
    assert [FsyncOuts, StartRepoint, StartRetire, Raise] == [FsyncOuts] + [StartRepoint, StartRetire, Raise];
    assert [StartRepoint, StartRetire, Raise] == [StartRepoint] + [StartRetire, Raise];
    assert [StartRetire, Raise] == [StartRetire] + [Raise];
    assert [Raise] == [Raise] + [];
    HollowSteps(w);
    HollowSteps(In(w, Synced));
    HollowSteps(In(w, Repointing));
    HollowSteps(In(w, Retiring));
    RunCons(w, FsyncOuts, [StartRepoint, StartRetire, Raise]);
    RunCons(In(w, Synced), StartRepoint, [StartRetire, Raise]);
    RunCons(In(w, Repointing), StartRetire, [Raise]);
    RunCons(In(w, Retiring), Raise, []);
    RunNone(Runs.Next(In(w, Retiring), Raise));
  }

  lemma RunNone(w: World)
    ensures Run(w, []) == w
  {
  }

  lemma {:induction false} RunCons(w: World, a: Action, acts: seq<Action>)
    ensures Run(w, [a] + acts) == Run(Runs.Next(w, a), acts)
    decreases |acts|
  {
    hide Runs.Next;
    var all := [a] + acts;
    if acts == [] {
      assert all == [a] && all[..0] == [];
    } else {
      assert all[..|all| - 1] == [a] + acts[..|acts| - 1];
      RunCons(w, a, acts[..|acts| - 1]);
    }
  }

  // The state just before the unlink.
  ghost predicate Doomed(w: World, k: Bytes, v: Bytes, v': Bytes) {
    var s, t := Plain(k, v).(sn := 1), Plain(k, v').(sn := 2);
    && Shape(w, map[0 := File([s], []), 1 := File([t], [])], 1, 0, 2,
             NO_MERGE.(phase := Dropping, ids := {0}, barrier := 1))
    && w.ledger == map[1 := s, 2 := t] && w.top == map[k := 1] && w.volatile == [[t]]
  }

  lemma OverwrittenRun(maxSize: nat, k: Bytes, v: Bytes, v': Bytes)
    requires Storable(k, v) && Storable(k, v')
    ensures Doomed(Run(Start(maxSize), Overwritten(k, v, v')), k, v, v')
  {
    hide Run, Runs.Next, Start, Plain;
    var w := Start(maxSize);
    var s, t := Plain(k, v).(sn := 1), Plain(k, v').(sn := 2);
    var put, again := Put([Plain(k, v)], true), Put([Plain(k, v')], false);
    var tail := [FsyncOuts, StartRepoint, StartRetire, Raise];
    First(maxSize, k, v);
    var w1 := Runs.Next(w, put);
    Second(w1, k, s);
    var w2 := Runs.Next(w1, SealActive);
    Third(w2, k, s, v', w2.db.merge);
    var w3 := Runs.Next(w2, again);
    Fourth(w3, k, w3.db.index[k]);
    var w4 := Runs.Next(w3, Collect([], []));
    Hollow(w4);
    RunCons(w3, Collect([], []), tail);
    RunCons(w2, again, [Collect([], [])] + tail);
    RunCons(w1, SealActive, [again] + ([Collect([], [])] + tail));
    RunCons(w, put, [SealActive] + ([again] + ([Collect([], [])] + tail)));
    assert Overwritten(k, v, v') == [put] + ([SealActive] + ([again] + ([Collect([], [])] + tail)));
  }

  lemma DoomedExposed(w: World, k: Bytes, v: Bytes, v': Bytes)
    requires Storable(k, v) && Storable(k, v') && Doomed(w, k, v, v')
    ensures Exposed(w.db, k)
  {
    hide Plain, Tomb;
    PlainRecord(k, v, 0);
    var s, t := Plain(k, v).(sn := 1), Plain(k, v').(sn := 2);
    assert Holds(w.db.files, 0, s) && [t][..0] == [];
    assert s.key == k && NewestMerged(w.db, k, s.sn) by { PlainKey(k, v); }
  }

  lemma PlainKey(k: Bytes, v: Bytes)
    ensures Plain(k, v).key == k
  {
  }

  // The crash: nothing of the file written since the seal reached the disk.
  lemma DoomedCrash(w: World, k: Bytes, v: Bytes, v': Bytes)
    requires Storable(k, v) && Storable(k, v') && Doomed(w, k, v, v')
    ensures CrashAfterDrop(w, map[1 := 0], [1])
  {
    hide Plain, AllValid;
    PlainRecord(k, v', 1);
    var x := Runs.Next(w, Drop);
    var t := Plain(k, v').(sn := 2);
    assert x.db.files == map[1 := File([t], [])];
    assert [t][..0] == [];
    assert x.volatile[..0] == [];
    FlatOne([t]);
  }

  lemma NoDrop(w: World, acts: seq<Action>)
    requires forall i :: 0 <= i < |acts| ==> !acts[i].Drop?
    ensures Prudent(w, acts)
    decreases |acts|
  {
    hide Run, Enabled;
    if acts != [] {
      NoDrop(w, acts[..|acts| - 1]);
    }
  }

  // For every key and every two values: the key is put and synced, so it is durable; after
  // the merge and the crash the recovered engine does not have it at all.
  ghost predicate Lost(maxSize: nat, k: Bytes, v: Bytes, v': Bytes) {
    var w := Run(Start(maxSize), Overwritten(k, v, v'));
    var x := Runs.Next(w, Drop);
    && CanReboot(x.db, map[1 := 0], [1])
    && k in After(w.durable) && k !in View(Rebooted(x, map[1 := 0], [1]).db.index, w.ledger)
  }

  lemma DurableKeyLost(maxSize: nat, k: Bytes, v: Bytes, v': Bytes)
    requires Storable(k, v) && Storable(k, v')
    ensures Lost(maxSize, k, v, v')
  {
    hide Run, Runs.Next, Start, Prudent, Phys, Denotes, Safe, Exposed, CanReboot, Survivors, Rebooted, After, View;
    var w := Run(Start(maxSize), Overwritten(k, v, v'));
    OverwrittenRun(maxSize, k, v, v');
    StartInv(maxSize);
    NoDrop(Start(maxSize), Overwritten(k, v, v'));
    RunSafe(Start(maxSize), Overwritten(k, v, v'));
    DoomedExposed(w, k, v, v');
    DoomedCrash(w, k, v, v');
    ExposedIsLost(w, k, map[1 := 0], [1]);
  }

  // --- where exposure comes from ----------------------------------------------------------------

  // The merge in flight is the same one, and the files it merges are as they were.
  ghost predicate SameMerge(db: Db, d: Db) {
    && d.merge.phase != Idle && d.merge.ids == db.merge.ids && d.merge.items == db.merge.items
    && d.merge.barrier == db.merge.barrier
    && forall id :: id in db.merge.ids ==> id in db.files && id in d.files && d.files[id] == db.files[id]
  }

  // A step that neither ends the merge nor restarts.
  predicate Continues(a: Action) { !a.Drop? && !a.GiveUp? && !a.Reboot? && !a.Collect? }

  lemma AppendSameMerge(db: Db, g: seq<Record>, always: bool)
    requires HasActive(db) && db.active !in db.merge.ids && db.nextID !in db.merge.ids
    ensures var d := Append(db, g, always);
            && d.merge == db.merge
            && forall id :: id in db.merge.ids && id in db.files ==> id in d.files && d.files[id] == db.files[id]
  {
    hide Stamp, SizeAll, ApplyWritten;
    RotateCases(db.(sn := db.sn + |g|), SizeAll(Stamp(g, db.sn)));
  }

  lemma MergedApart(db: Db, ledger: map<nat, Record>)
    requires Sound(db, ledger)
    ensures db.active !in db.merge.ids && db.nextID !in db.merge.ids
    ensures forall id :: id in db.merge.ids ==> id in db.files && id !in db.merge.outs
  {
  }

  lemma NextSameMerge(db: Db, w: World, a: Action)
    requires Phys(w) && SameMerge(db, w.db) && Continues(a)
    ensures SameMerge(db, Runs.Next(w, a).db)
  {
    hide Phys, Sound, Written, Copy, Collects, RepointTo, RetireTo, Dropped, Tops, Writable, Append, SizeAll, CopiedTo;
    PhysParts(w);
    MergedApart(w.db, w.ledger);
    if Enabled(w, a) {
      if a.Put? {
        WrittenIsAppend(w, a.g, a.always);
        AppendSameMerge(w.db, a.g, a.always);
      } else if a.CopyNext? {
        var r := NextItem(w.db, w.ledger);
        var out := CopyTarget(w.db, w.ledger, r);
        CopySameMerge(db, w.db, out, Lifted(r), Copy(w.db));
      }
    }
  }

  lemma CopySameMerge(db: Db, c: Db, out: nat, l: Record, d: Db)
    requires SameMerge(db, c) && CopiedTo(c, out, l, d)
    requires forall id :: id in c.merge.ids ==> id in c.files && id !in c.merge.outs
    ensures SameMerge(db, d)
  {
    hide FileSize, Size;
  }

  lemma {:induction false} RunSameMerge(w: World, acts: seq<Action>)
    requires Phys(w) && w.db.merge.phase != Idle && forall i :: 0 <= i < |acts| ==> Continues(acts[i])
    ensures Phys(Run(w, acts)) && SameMerge(w.db, Run(w, acts).db)
    decreases |acts|
  {
    hide Phys, Runs.Next;
    RunPhys(w, acts);
    if acts == [] {
      PhysParts(w);
      MergedApart(w.db, w.ledger);
    } else {
      RunSameMerge(w, acts[..|acts| - 1]);
      NextSameMerge(w.db, Run(w, acts[..|acts| - 1]), acts[|acts| - 1]);
    }
  }

  // At the snapshot, a key whose newest merged record is a put either is an item or has been
  // written since the seal.
  lemma PutCollected(db: Db, ledger: map<nat, Record>, items: seq<Item>, retired: seq<Item>, id: nat, r: Record)
    requires Sound(db, ledger) && db.merge.phase == Sealed && Collects(db.index, db.merge.ids, items, retired)
    requires Holds(db.files, id, r) && id in db.merge.ids && !Tomb(r) && NewestMerged(db, r.key, r.sn)
    ensures r.key in db.index
    ensures (exists j :: 0 <= j < |items| && items[j].key == r.key) || db.index[r.key].sn > db.merge.barrier
  {
    hide Shaped, Bounded, Collected, Moved, OnlyCopies, Progress, Awaiting, Tomb, At, KeyOrdered, Lifted;
    var k := r.key;
    assert RetiredKeys(db.merge) == {};
    assert k in db.index && Points(db.files, k, db.index[k]);
    var e := db.index[k];
    var q := Deref(db.files, e).value;
    if e.file in db.merge.ids {
      LedgerOf(db, ledger, e.file, q);
      LedgerOf(db, ledger, id, r);
      assert Item(k, e) in items;
    }
  }

  lemma OverwrittenSince(db: Db, ledger: map<nat, Record>, items: seq<Item>, retired: seq<Item>, d: Db, k: Bytes)
    requires Sound(db, ledger) && db.merge.phase == Sealed && Collects(db.index, db.merge.ids, items, retired)
    requires SameMerge(Snapshot(db, items, retired), d) && MergedPut(d, k) && !HasItem(d.merge, k)
    ensures k in db.index && db.merge.barrier < db.index[k].sn <= db.sn
  {
    hide Sound, Collects, Tomb;
    var id, r :| Holds(d.files, id, r) && id in d.merge.ids && r.key == k && !Tomb(r) && NewestMerged(d, k, r.sn);
    assert Holds(db.files, id, r);
    forall at, q | Holds(db.files, at, q) && at in db.merge.ids && q.key == k ensures q.sn <= r.sn {
      assert Holds(d.files, at, q);
    }
    PutCollected(db, ledger, items, retired, id, r);
    IndexLedgered(db, ledger);
  }

  lemma CollectStep(w: World, items: seq<Item>, retired: seq<Item>)
    requires HasActive(w.db) && w.db.merge.phase == Sealed && Collects(w.db.index, w.db.merge.ids, items, retired)
    ensures Runs.Next(w, Collect(items, retired)) == w.(db := Snapshot(w.db, items, retired))
  {
    hide Collects;
  }

  // A key exposed at the unlink was overwritten after the seal and before the snapshot, and no
  // write of it since the seal is synced yet.
  lemma ExposedWasOverwritten(w: World, items: seq<Item>, retired: seq<Item>, acts: seq<Action>, k: Bytes)
    requires Phys(w) && w.db.merge.phase == Sealed && Collects(w.db.index, w.db.merge.ids, items, retired)
    requires forall i :: 0 <= i < |acts| ==> Continues(acts[i])
    requires Exposed(Run(Runs.Next(w, Collect(items, retired)), acts).db, k)
    ensures k in w.db.index && w.db.merge.barrier < w.db.index[k].sn <= w.db.sn
    ensures !SyncedSince(Run(Runs.Next(w, Collect(items, retired)), acts).db, k)
  {
    hide Phys, Sound, Tidy, Kept, Recent, Run, Runs.Next, Collects, SyncedSince, SameMerge, MergedPut, HasItem,
         Snapshot;
    PhysParts(w);
    PhysActive(w);
    CollectStep(w, items, retired);
    var x := Runs.Next(w, Collect(items, retired));
    NextPhys(w, Collect(items, retired));
    InFlight(w.db, items, retired);
    RunSameMerge(x, acts);
    OverwrittenSince(w.db, w.ledger, items, retired, Run(x, acts).db, k);
  }

  lemma InFlight(db: Db, items: seq<Item>, retired: seq<Item>)
    ensures Snapshot(db, items, retired).merge.phase == Copying
  {
  }
}
