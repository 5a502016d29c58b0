/** A range scan that two merges overtake. The promise that a scan is never silently lossy is
    false when a reference's file is unlinked, and unlinked again between the second look at the
    index and the second read: this module exhibits the run. */
module ScanRace {
  import opened Bytes
  import opened Records
  import opened Log
  import opened Engine
  import opened Invariant
  import opened Writing
  import opened Compaction
  import opened Durability
  import opened Crash
  import opened Runs
  import opened Reads
  import LogReplay
  import Exposure
  import opened RangeScans
  import Scanning

  // Idle, with one key, and that live.
  ghost predicate OnlyKey(db: Db, k: Bytes) {
    && HasActive(db) && db.merge == NO_MERGE && db.index.Keys == {k} && !db.index[k].tomb
    && Points(db.files, k, db.index[k])
    && (forall id :: id in db.files ==> id < db.nextID)
  }

  // The phases of its merge, on the engine alone.
  function Copied(db: Db, it: Item): Db
    requires HasActive(db) && db.merge == NO_MERGE
  {
    var d := Snapshot(Seal(db), [it], []);
    Copy(d)
  }

  function Switched(d: Db, out: nat): Db
    requires |d.merge.items| == |d.merge.moved| == 1
  {
    Unlink(RaiseMark(BeginRetire(Repoint(BeginRepoint(Hint(SyncOuts(d), out)), 1))))
  }

  lemma SealLive(db: Db, k: Bytes)
    requires OnlyKey(db, k)
    ensures var d, e := Seal(db), db.index[k];
            && HasActive(d) && d.index == map[k := e] && d.merge.phase == Sealed && e.file in d.merge.ids
            && d.merge == NO_MERGE.(phase := Sealed, ids := d.files.Keys - {d.active}, barrier := d.merge.barrier)
            && Deref(d.files, e) == Deref(db.files, e) && (forall id :: id in d.files ==> id < d.nextID)
  {
    hide At;
    var e := db.index[k];
    assert db.index == map[k := e];
    if FileSize(db.files[db.active]) == 0 {
      NoBytes(db.files[db.active].recs);
      assert At([], e.pos) == None by { NothingAt(e.pos); }
      assert e.file != db.active;
    }
    var d := if FileSize(db.files[db.active]) > 0 then OpenNewActive(db) else db;
    assert e.file in d.files.Keys - {d.active};
  }

  lemma NothingAt(pos: nat)
    ensures At([], pos) == None
  {
  }

  lemma CopyLive(db: Db, k: Bytes)
    requires OnlyKey(db, k)
    ensures var s, d, e := Seal(db), Copied(db, Item(k, db.index[k])), db.index[k];
            var l := Lifted(Deref(db.files, e).value);
            && d == s.(files := s.files[s.nextID := File([l], [])], nextID := s.nextID + 1,
                       merge := s.merge.(phase := Copying, items := [Item(k, e)], outs := [s.nextID],
                                         moved := [Entry(0, l.sn, s.nextID, Size(l), false)]))
            && l.sn == e.sn && l.key == k && !Tomb(l)
  {
    hide At, Seal;
    SealLive(db, k);
    assert FileSize(File([], [])) == 0;
    assert [] + [Lifted(Deref(db.files, db.index[k]).value)] == [Lifted(Deref(db.files, db.index[k]).value)];
  }

  lemma SwitchLive(db: Db, k: Bytes)
    requires OnlyKey(db, k)
    ensures var c := Copied(db, Item(k, db.index[k]));
            && |c.merge.items| == |c.merge.moved| == 1
            && var d := Switched(c, c.merge.moved[0].file);
            OnlyKey(d, k) && db.index[k].file !in d.files
  {
    hide At, Seal, Copied, SizeAll, Lifted;
    SealLive(db, k);
    CopyLive(db, k);
    var s, c, e := Seal(db), Copied(db, Item(k, db.index[k])), db.index[k];
    var l, m := Lifted(Deref(db.files, e).value), c.merge.moved[0];
    var d := Switched(c, m.file);
    assert RepointTo(c.index, c.merge.items, c.merge.moved, 0, 0) == c.index;
    assert d.index == map[k := m];
    AtIndex([l], 0);
    assert [l][..0] == [];
    NoSize();
    assert d.files[m.file] == File([l], []) && Deref(d.files, m) == Some(l);
  }

  // --- the run -----------------------------------------------------------------------------------------

  function LiveMerge(it: Item, out: nat): seq<Action> {
    [SealActive, Collect([it], []), CopyNext, FsyncOuts, BuildHint(out), StartRepoint, RepointChunk(1),
     StartRetire, Raise, Drop]
  }

  // Whatever the history, the action takes the engine from d to d'.
  ghost predicate Takes(d: Db, a: Action, d': Db) { forall x: World :: x.db == d ==> Runs.Next(x, a).db == d' }

  lemma EarlySteps(db: Db, k: Bytes)
    requires OnlyKey(db, k)
    ensures var it, d := Item(k, db.index[k]), Seal(db);
            && Takes(db, SealActive, d) && Takes(d, Collect([it], []), Snapshot(d, [it], []))
            && Takes(Snapshot(d, [it], []), CopyNext, Copied(db, it))
  {
    hide SizeAll, Tops, Less, Copy, Seal, Points;
    SealLive(db, k);
    var it, d := Item(k, db.index[k]), Seal(db);
    assert KeyOrdered([it]) && KeyOrdered([]);
    assert Collects(d.index, d.merge.ids, [it], []);
  }

  // The engine after its one item has been copied.
  ghost predicate CopiedOne(c: Db, out: nat) {
    && HasActive(c) && out in c.files && out != c.active && c.files[out].tail == [] && SizeAll(c.files[out].recs) < U64
    && c.merge.outs == [out] && c.merge.phase == Copying && |c.merge.items| == |c.merge.moved| == 1
    && c.merge.retired == [] && c.merge.done == 0 && c.active !in c.merge.ids
  }

  lemma LateSteps(c: Db, out: nat)
    requires CopiedOne(c, out)
    ensures var d := Hint(SyncOuts(c), out);
            var r := Repoint(BeginRepoint(d), 1);
            && Takes(c, FsyncOuts, SyncOuts(c)) && Takes(SyncOuts(c), BuildHint(out), d)
            && Takes(d, StartRepoint, BeginRepoint(d)) && Takes(BeginRepoint(d), RepointChunk(1), r)
  {
    hide SizeAll, Tops, Collects, RepointTo;
    assert OutSet([out]) == {out};
  }

  lemma LastSteps(r: Db)
    requires HasActive(r) && r.merge.phase == Repointing && r.merge.done == |r.merge.items| && r.merge.retired == []
    ensures Takes(r, StartRetire, BeginRetire(r)) && Takes(BeginRetire(r), Raise, RaiseMark(BeginRetire(r)))
    ensures Takes(RaiseMark(BeginRetire(r)), Drop, Unlink(RaiseMark(BeginRetire(r))))
  {
    hide SizeAll, Tops, Collects, RepointTo, Dropped;
  }

  lemma {:induction false} RunTakes(w: World, acts: seq<Action>, ds: seq<Db>)
    requires |ds| == |acts| + 1 && ds[0] == w.db && forall i :: 0 <= i < |acts| ==> Takes(ds[i], acts[i], ds[i + 1])
    ensures Run(w, acts).db == ds[|acts|]
    decreases |acts|
  {
    hide Takes, Runs.Next;
    if acts != [] {
      var n := |acts| - 1;
      RunTakes(w, acts[..n], ds[..n + 1]);
      TakesAt(Run(w, acts[..n]), acts[n], ds[n + 1]);
    }
  }

  lemma TakesAt(x: World, a: Action, d: Db)
    requires Takes(x.db, a, d)
    ensures Runs.Next(x, a).db == d
  {
    hide Runs.Next;
  }

  lemma CopiedIsOne(db: Db, k: Bytes)
    requires OnlyKey(db, k) && SizeAll([Lifted(Deref(db.files, db.index[k]).value)]) < U64
    ensures CopiedOne(Copied(db, Item(k, db.index[k])), Seal(db).nextID)
  {
    hide SizeAll, Points, Seal, Copied;
    SealLive(db, k);
    CopyLive(db, k);
  }

  // A whole merge leaves the key live, in another file.
  lemma LiveMergeRun(w: World, k: Bytes)
    requires OnlyKey(w.db, k) && SizeAll([Lifted(Deref(w.db.files, w.db.index[k]).value)]) < U64
    ensures var x := Run(w, LiveMerge(Item(k, w.db.index[k]), Seal(w.db).nextID));
            && OnlyKey(x.db, k) && w.db.index[k].file !in x.db.files
            && var c := Copied(w.db, Item(k, w.db.index[k]));
            |c.merge.items| == |c.merge.moved| == 1 && x.db == Switched(c, Seal(w.db).nextID)
  {
    hide SizeAll, Points, Seal, Copied, Takes, Run;
    var db := w.db;
    SealLive(db, k);
    CopyLive(db, k);
    CopiedIsOne(db, k);
    SwitchLive(db, k);
    var it, out := Item(k, db.index[k]), Seal(db).nextID;
    var c := Copied(db, it);
    var h := Hint(SyncOuts(c), out);
    var r := Repoint(BeginRepoint(h), 1);
    EarlySteps(db, k);
    LateSteps(c, out);
    LastSteps(r);
    var ds := [db, Seal(db), Snapshot(Seal(db), [it], []), c, SyncOuts(c), h, BeginRepoint(h), r, BeginRetire(r),
               RaiseMark(BeginRetire(r)), Unlink(RaiseMark(BeginRetire(r)))];
    RunTakes(w, LiveMerge(it, out), ds);
  }

  // --- the scan ---------------------------------------------------------------------------------------------

  function Leads(acts: seq<Action>): seq<Tick> { seq(|acts|, i requires 0 <= i < |acts| => Lead(acts[i])) }

  lemma {:induction false} TicksConcat(g: Range, p: Race, a: seq<Tick>, b: seq<Tick>)
    ensures Ticks(g, p, a + b) == Ticks(g, Ticks(g, p, a), b)
    decreases |b|
  {
    hide Ticked;
    if b == [] {
      assert a + b == a;
    } else {
      assert (a + b)[..|a + b| - 1] == a + b[..|b| - 1];
      TicksConcat(g, p, a, b[..|b| - 1]);
    }
  }

  lemma {:induction false} TicksLeads(g: Range, p: Race, acts: seq<Action>)
    requires Uninterrupted(acts)
    ensures Ticks(g, p, Leads(acts)) == Race(Run(p.w, acts), p.s)
    decreases |acts|
  {
    hide Runs.Next, Looked, Read;
    if acts != [] {
      var init := acts[..|acts| - 1];
      TicksLeads(g, p, init);
      assert Leads(acts)[..|acts| - 1] == Leads(init);
    }
  }

  // Without writes the key stays live.
  lemma {:induction false} QuietMoment(g: Range, w: World, es: seq<Tick>)
    requires Inv(w) && forall i :: 0 <= i < |es| && es[i].Lead? ==> !es[i].a.Put?
    ensures Inv(Moment(g, w, es).w) && LogReplay.History(Moment(g, w, es).w) == LogReplay.History(w)
    decreases |es|
  {
    hide Phys, Denotes, LogReplay.History, Runs.Next, Looked, Read, ReadValue, Dealt;
    if es != [] {
      var init, e := es[..|es| - 1], es[|es| - 1];
      QuietMoment(g, w, init);
      if e.Lead? && !e.a.Reboot? {
        NextInv(Moment(g, w, init).w, e.a);
        LogReplay.NextHistory(Moment(g, w, init).w, e.a);
      }
    }
  }

  lemma StaysLive(w: World, x: World, k: Bytes)
    requires Inv(w) && Inv(x) && LogReplay.History(x) == LogReplay.History(w) && LiveIn(w, k)
    ensures LiveIn(x, k)
  {
    hide Phys, Denotes, Flat, Fold;
    InvDenotes(w);
    InvDenotes(x);
    var v := IndexedServes(w, k);
  }

  lemma QuietLive(g: Range, w: World, es: seq<Tick>, k: Bytes)
    requires Inv(w) && LiveIn(w, k) && forall i :: 0 <= i < |es| && es[i].Lead? ==> !es[i].a.Put?
    ensures LiveThroughout(g, w, es, k)
  {
    hide Phys, Denotes, LogReplay.History, Moment, LiveIn;
    forall i | 0 <= i <= |es| ensures LiveIn(Moment(g, w, es[..i]).w, k) {
      QuietMoment(g, w, es[..i]);
      StaysLive(w, Moment(g, w, es[..i]).w, k);
    }
  }

  lemma SmallRecord(w: World, k: Bytes)
    requires Phys(w) && OnlyKey(w.db, k)
    ensures SizeAll([Lifted(Deref(w.db.files, w.db.index[k]).value)]) < U64
  {
    hide Phys, Sound, At;
    PhysParts(w);
    ValidRecords(w.db, w.ledger);
    var e := w.db.index[k];
    var r := Deref(w.db.files, e).value;
    assert Holds(w.db.files, e.file, r);
    LiftedTwice(r);
    assert [Lifted(r)][..0] == [];
  }

  function Relocation(w: World, k: Bytes): seq<Action>
    requires k in w.db.index && HasActive(w.db)
  {
    LiveMerge(Item(k, w.db.index[k]), Seal(w.db).nextID)
  }

  lemma MergeAgain(w: World, k: Bytes)
    requires Inv(w) && OnlyKey(w.db, k)
    ensures Uninterrupted(Relocation(w, k))
    ensures var x := Run(w, Relocation(w, k)); Inv(x) && OnlyKey(x.db, k) && w.db.index[k].file !in x.db.files
  {
    hide Phys, Denotes, SizeAll, Run, Seal, Points;
    SmallRecord(w, k);
    LiveMergeRun(w, k);
    RunInv(w, Relocation(w, k));
  }

  lemma FirstLook(g: Range, w: World, k: Bytes)
    requires OnlyKey(w.db, k) && Asked(g, k)
    ensures var it := Item(k, w.db.index[k]);
            Ticked(g, Race(w, Begin(g)), Look([it], k, true, false)).s
            == Scan(k, true, false, [it], false, None, [], {}, false, false)
  {
    hide Points, Less;
    var it := Item(k, w.db.index[k]);
    LessTrichotomy(k, k);
    assert it in [it] && KeyOrdered([it]);
    forall x | Less(k, x) ensures Scanning.Ahead(g.start, false, x) {
      if Less(g.start, k) {
        LessTransitive(g.start, k, x);
      }
    }
    assert w.db.index.Keys == {k};
  }

  lemma LastLook(g: Range, w: World, k: Bytes, s: Scan)
    requires OnlyKey(w.db, k) && Asked(g, k) && s.cursor == k && s.exclusive && s.refs == [] && !s.done
    ensures var t := Ticked(g, Race(w, s), Look([], k, true, false)).s;
            t.done && t.out == s.out && t.lost == s.lost && t.failed == s.failed
  {
    hide Points, Less;
    LessTrichotomy(k, k);
    assert KeyOrdered([]);
    assert w.db.index.Keys == {k};
  }

  lemma ReadsGone(w: World, e: Entry)
    requires Phys(w) && e.file !in w.db.files
    ensures Decodable(w.db.files) && ReadValue(w.db.files, e) == Gone
  {
    hide Phys, Sound;
    PhysParts(w);
    ValidRecords(w.db, w.ledger);
  }

  // The scan: a look, a merge, a read and a second look, another merge, a second read.
  function Overtaking(k: Bytes, it: Item, first: seq<Action>, second: seq<Action>): seq<Tick> {
    [Look([it], k, true, false)]
    + (Leads(first) + ([Try, Resolve] + (Leads(second) + [Retry, Look([], k, true, false)])))
  }

  // The key is live from beginning to end, and the scan finishes without it and without an error.
  lemma LiveKeyLost(g: Range, w: World, k: Bytes)
    requires Inv(w) && OnlyKey(w.db, k) && Asked(g, k)
    ensures HasActive(w.db) && HasActive(Run(w, Relocation(w, k)).db) && k in Run(w, Relocation(w, k)).db.index
    ensures var es := Overtaking(k, Item(k, w.db.index[k]), Relocation(w, k), Relocation(Run(w, Relocation(w, k)), k));
            && LiveThroughout(g, w, es, k)
            && var s := Moment(g, w, es).s;
            s.done && !s.failed && s.out == [] && s.lost == {k}
  {
    hide Phys, Denotes, Run, Ticked, OnlyKey, Relocation, LiveThroughout, Ticks, Asked;
    OnlyKeyParts(w.db, k);
    MergeAgain(w, k);
    var x := Run(w, Relocation(w, k));
    OnlyKeyParts(x.db, k);
    MergeAgain(x, k);
    var y := Run(x, Relocation(x, k));
    var it := Item(k, w.db.index[k]);
    var es := Overtaking(k, it, Relocation(w, k), Relocation(x, k));
    MergesDoNotPut(w, k);
    MergesDoNotPut(x, k);
    QuietLive(g, w, es, k);
    Stages(g, w, k, it, Relocation(w, k), Relocation(x, k));
    FirstLook(g, w, k);
    LookStays(g, Race(w, Begin(g)), [it], k);
    Overtake(g, x, Scan(k, true, false, [it], false, None, [], {}, false, false), k);
    LosesIt(g, y, k, Scan(k, true, false, [it], false, Some(x.db.index[k]), [], {}, false, false));
  }

  lemma OnlyKeyParts(db: Db, k: Bytes)
    requires OnlyKey(db, k)
    ensures HasActive(db) && k in db.index && !db.index[k].tomb
  {
  }

  lemma MergesDoNotPut(w: World, k: Bytes)
    requires k in w.db.index && HasActive(w.db)
    ensures forall i :: 0 <= i < |Relocation(w, k)| ==> !Relocation(w, k)[i].Put?
  {
    hide Seal;
  }

  lemma LookStays(g: Range, p: Race, refs: seq<Item>, k: Bytes)
    ensures Ticked(g, p, Look(refs, k, true, false)).w == p.w
  {
    hide Looked;
  }

  // The file is gone; the index has another locator.
  lemma Overtake(g: Range, x: World, s: Scan, k: Bytes)
    requires Inv(x) && LiveIn(x, k) && |s.refs| == 1 && s.refs[0].key == k && s.refs[0].e.file !in x.db.files
    requires !s.done && !s.stale && s.again == None
    ensures Ticked(g, Ticked(g, Race(x, s), Try), Resolve) == Race(x, s.(again := Some(x.db.index[k])))
  {
    hide Phys, Denotes, ReadValue;
    ReadsGone(x, s.refs[0].e);
  }

  lemma LosesIt(g: Range, y: World, k: Bytes, s: Scan)
    requires Inv(y) && OnlyKey(y.db, k) && Asked(g, k) && s.cursor == k && s.exclusive && !s.atEnd && !s.done
    requires !s.failed
    requires |s.refs| == 1 && s.refs[0].key == k && s.again.Some? && s.again.value.file !in y.db.files && s.out == []
    requires s.lost == {}
    ensures var t := Ticked(g, Ticked(g, Race(y, s), Retry), Look([], k, true, false)).s;
            t.done && !t.failed && t.out == [] && t.lost == {k}
  {
    hide Phys, Denotes, ReadValue, OnlyKey, Looked;
    ReadsGone(y, s.again.value);
    var t := Ticked(g, Race(y, s), Retry).s;
    assert t.refs == [] && t.out == [] && t.lost == {k};
    LastLook(g, y, k, t);
  }

  lemma Stages(g: Range, w: World, k: Bytes, it: Item, first: seq<Action>, second: seq<Action>)
    requires Uninterrupted(first) && Uninterrupted(second)
    ensures var a := Ticked(g, Race(w, Begin(g)), Look([it], k, true, false));
            var b := Ticked(g, Ticked(g, Race(Run(a.w, first), a.s), Try), Resolve);
            var c := Ticked(g, Ticked(g, Race(Run(b.w, second), b.s), Retry), Look([], k, true, false));
            Moment(g, w, Overtaking(k, it, first, second)) == c
  {
    hide Ticked, Run;
    var look, last := Look([it], k, true, false), Look([], k, true, false);
    var p := Race(w, Begin(g));
    var tail := Leads(second) + [Retry, last];
    var a := Ticked(g, p, look);
    TicksConcat(g, p, [look], Leads(first) + ([Try, Resolve] + tail));
    TicksOne(g, p, look);
    TicksConcat(g, a, Leads(first), [Try, Resolve] + tail);
    TicksLeads(g, a, first);
    var q := Race(Run(a.w, first), a.s);
    TicksConcat(g, q, [Try, Resolve], tail);
    TicksPair(g, q, Try, Resolve);
    var b := Ticked(g, Ticked(g, q, Try), Resolve);
    TicksConcat(g, b, Leads(second), [Retry, last]);
    TicksLeads(g, b, second);
    TicksPair(g, Race(Run(b.w, second), b.s), Retry, last);
  }

  lemma TicksOne(g: Range, p: Race, e: Tick)
    ensures Ticks(g, p, [e]) == Ticked(g, p, e)
  {
    hide Ticked;
    assert [e][..0] == [];
  }

  lemma TicksPair(g: Range, p: Race, e: Tick, f: Tick)
    ensures Ticks(g, p, [e, f]) == Ticked(g, Ticked(g, p, e), f)
  {
    hide Ticked;
    TicksOne(g, p, e);
    assert [e, f][..1] == [e];
  }

  // One put is enough to be in danger.
  lemma OnePut(maxSize: nat, k: Bytes, v: Bytes)
    requires Exposure.Storable(k, v)
    ensures var w := Runs.Next(Start(maxSize), Put([Exposure.Plain(k, v)], true)); Inv(w) && OnlyKey(w.db, k)
  {
    hide Phys, Denotes, Sound, Runs.Next, Points;
    var w, put := Start(maxSize), Put([Exposure.Plain(k, v)], true);
    StartInv(maxSize);
    NextInv(w, put);
    Exposure.First(maxSize, k, v);
    var x := Runs.Next(w, put);
    PhysParts(x);
    IndexPoints(x.db, x.ledger, k);
  }
}
