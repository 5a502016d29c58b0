/** Catching a follower up from the log: what RecordsSince emits, and why a follower that is
    cut off anywhere can resume from its own sequence number. */
module LogReplay {
  import opened Bytes
  import opened Records
  import opened Log
  import opened Engine
  import opened Invariant
  import opened Writing
  import opened Compaction
  import opened Durability
  import opened Recovery
  import opened Crash
  import opened Runs
  import opened Versions

  // The records above a sequence number, in order.
  function Above(rs: seq<Record>, from: nat): seq<Record> {
    if rs == [] then []
    else Above(rs[..|rs| - 1], from) + (if rs[|rs| - 1].sn > from then [rs[|rs| - 1]] else [])
  }

  function Part(fs: Files, outs: set<nat>, id: nat, from: nat): seq<Record> {
    if id in fs && id !in outs then Above(fs[id].recs, from) else []
  }

  // Every file below n by ascending id, skipping the outputs of a merge in flight.
  function Tail(fs: Files, outs: set<nat>, n: nat, from: nat): seq<Record> {
    if n == 0 then [] else Tail(fs, outs, n - 1, from) + Part(fs, outs, n - 1, from)
  }

  lemma {:induction false} AboveConcat(a: seq<Record>, b: seq<Record>, from: nat)
    ensures Above(a + b, from) == Above(a, from) + Above(b, from)
  {
    if b == [] {
      assert a + b == a;
    } else {
      assert (a + b)[..|a + b| - 1] == a + b[..|b| - 1];
      AboveConcat(a, b[..|b| - 1], from);
    }
  }

  lemma {:induction false} AboveTwice(rs: seq<Record>, from: nat, to: nat)
    requires from <= to
    ensures Above(Above(rs, from), to) == Above(rs, to)
  {
    if rs != [] {
      var init, r := rs[..|rs| - 1], rs[|rs| - 1];
      AboveTwice(init, from, to);
      assert Above(init, from) + [] == Above(init, from);
      AboveConcat(Above(init, from), [r], to);
      assert [r][..0] == [] && Above([r], to) == if r.sn > to then [r] else [];
    }
  }

  lemma {:induction false} AboveAll(rs: seq<Record>, from: nat)
    requires forall i :: 0 <= i < |rs| ==> rs[i].sn > from
    ensures Above(rs, from) == rs
  {
    if rs != [] {
      AboveAll(rs[..|rs| - 1], from);
    }
  }

  lemma {:induction false} AboveNone(rs: seq<Record>, from: nat)
    requires forall i :: 0 <= i < |rs| ==> rs[i].sn <= from
    ensures Above(rs, from) == []
  {
    if rs != [] {
      AboveNone(rs[..|rs| - 1], from);
    }
  }

  lemma {:induction false} TailTwice(fs: Files, outs: set<nat>, n: nat, from: nat, to: nat)
    requires from <= to
    ensures Above(Tail(fs, outs, n, from), to) == Tail(fs, outs, n, to)
  {
    hide Above;
    if n == 0 {
      NothingAbove(to);
    } else {
      TailTwice(fs, outs, n - 1, from, to);
      AboveConcat(Tail(fs, outs, n - 1, from), Part(fs, outs, n - 1, from), to);
      if n - 1 in fs {
        AboveTwice(fs[n - 1].recs, from, to);
      }
      NothingAbove(to);
    }
  }

  lemma NothingAbove(from: nat)
    ensures Above([], from) == []
  {
  }

  lemma {:induction false} TailSame(fs: Files, gs: Files, outs: set<nat>, outs': set<nat>, n: nat, from: nat)
    requires forall id :: 0 <= id < n ==> Part(fs, outs, id, from) == Part(gs, outs', id, from)
    ensures Tail(fs, outs, n, from) == Tail(gs, outs', n, from)
  {
    hide Part;
    if n != 0 {
      TailSame(fs, gs, outs, outs', n - 1, from);
    }
  }

  // Files above the active one add nothing, so what is appended to it ends the tail.
  lemma {:induction false} TailExtend(fs: Files, gs: Files, outs: set<nat>, n: nat, active: nat, s: seq<Record>,
                                      from: nat)
    requires active < n && active in fs && active !in outs
    requires gs == fs[active := File(fs[active].recs + s, fs[active].tail)]
    requires forall id :: active < id < n ==> Part(fs, outs, id, from) == []
    requires forall i :: 0 <= i < |s| ==> s[i].sn > from
    ensures Tail(gs, outs, n, from) == Tail(fs, outs, n, from) + s
  {
    hide Above;
    if n - 1 == active {
      TailSame(fs, gs, outs, outs, active, from);
      AboveConcat(fs[active].recs, s, from);
      AboveAll(s, from);
      assert Tail(gs, outs, n, from) == Tail(fs, outs, active, from) + (Part(fs, outs, active, from) + s);
    } else {
      TailExtend(fs, gs, outs, n - 1, active, s, from);
      assert Part(gs, outs, n - 1, from) == Part(fs, outs, n - 1, from) == [];
    }
  }

  // --- the invariant of a leader that has not restarted ------------------------------------

  function History(w: World): seq<Record> { Flat(w.durable + w.volatile) }

  ghost predicate Spent(fs: Files, outs: set<nat>, active: nat, mark: nat) {
    forall id, r :: Holds(fs, id, r) && active < id && id !in outs ==> r.sn <= mark
  }

  // The watermark is at most the barrier, and a merge writes above what it reads.
  ghost predicate Marked(db: Db) {
    && (forall i, o :: i in db.merge.ids && o in db.merge.outs ==> i < o)
    && db.mergeSn <= db.sn
    && (db.merge.phase != Idle ==> db.mergeSn <= db.merge.barrier)
    && (db.merge.phase == Dropping ==> db.mergeSn == db.merge.barrier)
  }

  // No file has a torn end: only a restart leaves one.
  ghost predicate Untorn(fs: Files) { forall id :: id in fs ==> fs[id].tail == [] }

  // The log above the merge watermark is the history above it.
  ghost predicate Logged(w: World) {
    var db, outs := w.db, OutSet(w.db.merge.outs);
    && Counted(History(w), db.sn) && Marked(db) && Untorn(db.files) && Spent(db.files, outs, db.active, db.mergeSn)
    && Tail(db.files, outs, db.nextID, db.mergeSn) == History(w)[db.mergeSn..]
  }

  lemma CountedAbove(h: seq<Record>, sn: nat, mark: nat, from: nat)
    requires Counted(h, sn) && mark <= from <= sn
    ensures Above(h[mark..], from) == h[from..]
  {
    hide Above;
    assert h[mark..] == h[mark..from] + h[from..];
    AboveConcat(h[mark..from], h[from..], from);
    AboveNone(h[mark..from], from);
    AboveAll(h[from..], from);
  }

  lemma StartLogged(maxSize: nat)
    ensures Logged(Start(maxSize))
  {
    var w := Start(maxSize);
    assert w.durable + w.volatile == [];
    assert OutSet([]) == {};
    assert Tail(w.db.files, {}, 0, 0) == [];
  }

  // --- every step keeps it ---------------------------------------------------------------------

  // A step that touches neither the files nor the history.
  lemma StillLogged(w: World, x: World)
    requires Logged(w) && Marked(x.db) && x.db.mergeSn == w.db.mergeSn && x.db.sn == w.db.sn
    requires x.db.files == w.db.files && x.db.active == w.db.active && x.db.nextID == w.db.nextID
    requires x.db.merge.outs == w.db.merge.outs && x.durable + x.volatile == w.durable + w.volatile
    ensures Logged(x)
  {
    hide Tail, Flat, Counted, Spent, OutSet;
  }

  lemma SettleHistory(w: World, db: Db)
    ensures History(Settle(w, db)) == History(w)
  {
    hide Flat, Tops;
    assert (w.durable + w.volatile) + [] == w.durable + w.volatile;
  }

  lemma OpenLogged(w: World, x: World)
    requires Logged(w) && Sound(w.db, w.ledger)
    requires x.db.files == OpenNewActive(w.db).files && x.db.active == w.db.nextID && x.db.nextID == w.db.nextID + 1
    requires x.db.sn == w.db.sn && x.db.mergeSn == w.db.mergeSn && x.db.merge.outs == w.db.merge.outs && Marked(x.db)
    requires History(x) == History(w)
    ensures Logged(x)
  {
    hide Flat, Counted, Marked, History, Merging, Ledgered, Pointing, Newest, Forgotten, ModeOf;
    var fs, gs, outs, n := w.db.files, x.db.files, OutSet(w.db.merge.outs), w.db.nextID;
    assert n !in fs;
    TailSame(fs, gs, outs, outs, n, w.db.mergeSn);
    assert Tail(gs, outs, n + 1, w.db.mergeSn) == Tail(gs, outs, n, w.db.mergeSn) + [];
    assert forall id :: id in gs ==> id <= x.db.active;
  }

  lemma SpentParts(fs: Files, outs: set<nat>, active: nat, mark: nat, id: nat)
    requires Spent(fs, outs, active, mark) && active < id
    ensures Part(fs, outs, id, mark) == []
  {
    hide Above;
    if id in fs && id !in outs {
      forall i | 0 <= i < |fs[id].recs| ensures fs[id].recs[i].sn <= mark {
        assert Holds(fs, id, fs[id].recs[i]);
      }
      AboveNone(fs[id].recs, mark);
    }
  }

  lemma ExtendedLogged(w: World, s: seq<Record>)
    requires Logged(w) && Sound(w.db, w.ledger) && HasActive(w.db) && Numbered(s, w.db.sn)
    ensures Logged(Extended(w, s))
  {
    hide Flat, Merging, Ledgered, Pointing, Newest, Forgotten, ModeOf, Enter, Replay, Tail, Part, OutSet;
    var x, db, outs := Extended(w, s), w.db, OutSet(w.db.merge.outs);
    ActiveApart(db, w.ledger);
    forall id | db.active < id < db.nextID ensures Part(db.files, outs, id, db.mergeSn) == [] {
      SpentParts(db.files, outs, db.active, db.mergeSn, id);
    }
    TailExtend(db.files, x.db.files, outs, db.nextID, db.active, s, db.mergeSn);
    FlatConcat(w.durable + w.volatile, [s]);
    FlatOne(s);
    assert x.durable + x.volatile == (w.durable + w.volatile) + [s];
    var h := History(w);
    assert (h + s)[db.mergeSn..] == h[db.mergeSn..] + s;
    forall id, r | Holds(x.db.files, id, r) && db.active < id ensures Holds(db.files, id, r) {
    }
  }

  lemma ActiveApart(db: Db, ledger: map<nat, Record>)
    requires Sound(db, ledger)
    ensures db.active < db.nextID && db.active !in OutSet(db.merge.outs)
  {
  }

  lemma WrittenLogged(w: World, g: seq<Record>, always: bool)
    requires Logged(w) && Phys(w) && Writable(w.db, g)
    ensures HasActive(w.db) && Logged(Written(w, g, always))
  {
    hide Logged, Phys, Operation, Extend, Enter, SizeAll, Rotate, Stamp, AllValid, Sound, Tops, OutSet, Tail, Flat,
         Spent, Counted;
    PhysActive(w);
    PhysParts(w);
    var s := Stamp(g, w.db.sn);
    StampOperation(g, w.db.sn);
    var o := Settle(w, OpenNewActive(w.db));
    OpenKeeps(w);
    PhysParts(o);
    SettleHistory(w, OpenNewActive(w.db));
    LoggedMarked(w);
    OpenLogged(w, o);
    var r := if Rotate(w.db, SizeAll(s)) == w.db then w else o;
    ExtendedLogged(r, s);
    if always {
      ExtendedKeeps(r, s);
      PhysActive(Extended(r, s));
      SyncLogged(Extended(r, s));
    }
  }

  lemma LoggedMarked(w: World)
    requires Logged(w)
    ensures Marked(w.db)
  {
    hide Marked, Tail, Counted, Spent, History, OutSet;
  }

  lemma SyncLogged(w: World)
    requires Logged(w) && HasActive(w.db)
    ensures Logged(Settle(w, Sync(w.db)))
  {
    hide Logged, Flat, Tops, Tail, Spent, Counted;
    LoggedMarked(w);
    var x := Settle(w, Sync(w.db));
    assert x.durable + x.volatile == w.durable + w.volatile;
    StillLogged(w, x);
  }

  lemma SealLogged(w: World)
    requires Logged(w) && Phys(w) && w.db.merge.phase == Idle
    ensures Logged(Runs.Next(w, SealActive))
  {
    hide Logged, Phys, Sound, Flat, Tops, Tail, Spent, Counted, SizeAll, OutSet;
    PhysActive(w);
    PhysParts(w);
    NoMerge(w.db, w.ledger);
    LoggedMarked(w);
    var d := Seal(w.db);
    var x := Runs.Next(w, SealActive);
    if FileSize(w.db.files[w.db.active]) > 0 {
      SettleHistory(w, d);
      OpenLogged(w, x);
    } else {
      StillLogged(w, x);
    }
  }

  lemma CopyLogged(w: World)
    requires Logged(w) && Phys(w) && w.db.merge.phase == Copying && |w.db.merge.moved| < |w.db.merge.items|
    ensures Logged(w.(db := Copy(w.db)))
  {
    hide Phys, Sound, Copy, Points, Lifted, Tomb, Flat, Above, Counted, Tail, Part, OutSet, Size, FileSize;
    PhysParts(w);
    var r := NextItem(w.db, w.ledger);
    var out := CopyTarget(w.db, w.ledger, r);
    var d := Copy(w.db);
    BelowNextID(w.db, w.ledger);
    CopyMarked(w.db, w.ledger, out, Lifted(r), d);
    CopySpent(w.db, out, Lifted(r), d);
    CopyTail(w.db, out, Lifted(r), d);
  }

  lemma CopyMarked(db: Db, ledger: map<nat, Record>, out: nat, l: Record, d: Db)
    requires Sound(db, ledger) && CopiedTo(db, out, l, d) && Marked(db)
    ensures Marked(d)
  {
    hide FileSize, Size, Ledgered, Pointing, Newest, Forgotten, ModeOf, Collected, Moved, OnlyCopies, Awaiting,
         Untouched, Split;
  }

  lemma CopySpent(db: Db, out: nat, l: Record, d: Db)
    requires CopiedTo(db, out, l, d) && Spent(db.files, OutSet(db.merge.outs), db.active, db.mergeSn)
    ensures Spent(d.files, OutSet(d.merge.outs), d.active, d.mergeSn)
  {
    hide FileSize, Size;
    forall id, q | Holds(d.files, id, q) && id !in OutSet(d.merge.outs)
      ensures Holds(db.files, id, q) && id !in OutSet(db.merge.outs)
    {
    }
  }

  lemma CopyTail(db: Db, out: nat, l: Record, d: Db)
    requires CopiedTo(db, out, l, d) && forall id :: id in db.files ==> id < db.nextID
    requires forall id :: id in db.merge.outs ==> id < db.nextID
    ensures Tail(d.files, OutSet(d.merge.outs), d.nextID, d.mergeSn)
            == Tail(db.files, OutSet(db.merge.outs), db.nextID, db.mergeSn)
  {
    hide Above, FileSize, Size;
    var outs, outs', n := OutSet(db.merge.outs), OutSet(d.merge.outs), db.nextID;
    TailSame(db.files, d.files, outs, outs', n, db.mergeSn);
    assert d.nextID != n ==> Part(d.files, outs', n, db.mergeSn) == [];
  }

  lemma AbortLogged(w: World)
    requires Logged(w) && Phys(w) && w.db.merge.phase in {Sealed, Copying, Synced}
    ensures Logged(w.(db := Abort(w.db)))
  {
    hide Phys, Flat, Above, Counted;
    var d, outs := Abort(w.db), OutSet(w.db.merge.outs);
    TailSame(w.db.files, d.files, outs, OutSet([]), d.nextID, d.mergeSn);
    forall id, q | Holds(d.files, id, q) ensures Holds(w.db.files, id, q) && id !in outs {
    }
  }

  lemma RaiseLogged(w: World)
    requires Logged(w) && Phys(w) && w.db.merge.phase == Retiring
    ensures Logged(w.(db := RaiseMark(w.db)))
  {
    hide Phys, Sound, Flat, Above, Tail, OutSet, Counted, Spent;
    PhysParts(w);
    BarrierPassed(w.db, w.ledger);
    var db, h := w.db, History(w);
    RaiseSpent(db.files, OutSet(db.merge.outs), db.active, db.mergeSn, db.merge.barrier);
    TailTwice(db.files, OutSet(db.merge.outs), db.nextID, db.mergeSn, db.merge.barrier);
    CountedAbove(h, db.sn, db.mergeSn, db.merge.barrier);
  }

  lemma RaiseSpent(fs: Files, outs: set<nat>, active: nat, mark: nat, raised: nat)
    requires Spent(fs, outs, active, mark) && mark <= raised
    ensures Spent(fs, outs, active, raised)
  {
  }

  lemma BarrierPassed(db: Db, ledger: map<nat, Record>)
    requires Sound(db, ledger)
    ensures db.merge.barrier <= db.sn
  {
    hide Merging, Ledgered, Pointing, Newest, Forgotten, Shaped;
  }

  // What a merge leaves behind is at or below its barrier.
  lemma MergedSpent(db: Db, ledger: map<nat, Record>)
    requires Sound(db, ledger)
    ensures forall id, r :: Holds(db.files, id, r) && (id in db.merge.ids || id in db.merge.outs) ==>
              r.sn <= db.merge.barrier
  {
    hide Ledgered, Pointing, Newest, Forgotten, Shaped, Awaiting, Untouched, Moved, KeyOrdered, Points;
    var m := db.merge;
    forall id, r | Holds(db.files, id, r) && id in m.outs ensures r.sn <= m.barrier {
      var j :| 0 <= j < |m.items| && m.items[j].key == r.key && m.items[j].e.sn == r.sn;
      ItemBelow(db, m.items[j]);
    }
  }

  lemma ItemBelow(db: Db, it: Item)
    requires CollectedItem(db.files, db.merge.ids, it, false) && Split(db.files, db.merge)
    ensures it.e.sn <= db.merge.barrier
  {
    hide At;
    assert Holds(db.files, it.e.file, Deref(db.files, it.e).value);
  }

  lemma DropLogged(w: World)
    requires Logged(w) && Phys(w) && w.db.merge.phase == Dropping
    ensures Logged(w.(db := Unlink(w.db), top := Dropped(w.db.merge, w.top)))
  {
    hide Phys, Sound, Flat, Above, Counted, Tail, OutSet, Part, Dropped, Spent;
    PhysParts(w);
    MergedSpent(w.db, w.ledger);
    DropSpent(w.db);
    DropTail(w.db);
  }

  lemma DropSpent(db: Db)
    requires db.mergeSn == db.merge.barrier && Spent(db.files, OutSet(db.merge.outs), db.active, db.mergeSn)
    requires forall id, r :: Holds(db.files, id, r) && (id in db.merge.ids || id in db.merge.outs) ==>
               r.sn <= db.merge.barrier
    ensures var d := Unlink(db); Spent(d.files, OutSet(d.merge.outs), d.active, d.mergeSn)
  {
    var d := Unlink(db);
    forall id, r | Holds(d.files, id, r) && d.active < id ensures r.sn <= d.mergeSn {
      assert Holds(db.files, id, r);
    }
  }

  lemma DropTail(db: Db)
    requires db.mergeSn == db.merge.barrier
    requires forall id, r :: Holds(db.files, id, r) && (id in db.merge.ids || id in db.merge.outs) ==>
               r.sn <= db.merge.barrier
    ensures var d := Unlink(db);
            Tail(d.files, OutSet(d.merge.outs), d.nextID, d.mergeSn)
            == Tail(db.files, OutSet(db.merge.outs), db.nextID, db.mergeSn)
  {
    hide Above;
    var d, outs, mark := Unlink(db), OutSet(db.merge.outs), db.mergeSn;
    forall id | 0 <= id < db.nextID ensures Part(db.files, outs, id, mark) == Part(d.files, OutSet([]), id, mark) {
      if id in db.files && (id in db.merge.ids || id in db.merge.outs) {
        forall i | 0 <= i < |db.files[id].recs| ensures db.files[id].recs[i].sn <= mark {
          assert Holds(db.files, id, db.files[id].recs[i]);
        }
        AboveNone(db.files[id].recs, mark);
      }
    }
    TailSame(db.files, d.files, outs, OutSet([]), db.nextID, mark);
  }

  lemma NextLogged(w: World, a: Action)
    requires Logged(w) && Phys(w) && !a.Reboot?
    ensures Logged(Runs.Next(w, a))
  {
    hide Logged, Phys, Written, Copy, Abort, Unlink, Seal, RaiseMark, Collects, RepointTo, RetireTo, Marked, Dropped,
         Settle;
    if Enabled(w, a) {
      LoggedMarked(w);
      match a
      case Put(g, always) => WrittenLogged(w, g, always);
      case Fsync => SyncLogged(w);
      case SealActive => SealLogged(w);
      case CopyNext => CopyLogged(w);
      case GiveUp => AbortLogged(w);
      case Raise => RaiseLogged(w);
      case Drop => DropLogged(w);
      case _ => PhaseLogged(w, a);
    }
  }

  lemma PhaseLogged(w: World, a: Action)
    requires Logged(w) && Enabled(w, a)
    requires a.BuildHint? || a.Collect? || a.FsyncOuts? || a.StartRepoint? || a.RepointChunk? || a.StartRetire?
             || a.RetireChunk?
    ensures Logged(Runs.Next(w, a))
  {
    hide Logged, Collects, RepointTo, RetireTo, OutSet, Immutable;
    LoggedMarked(w);
    StillLogged(w, Runs.Next(w, a));
  }

  lemma {:induction false} RunLogged(w: World, acts: seq<Action>)
    requires Phys(w) && Logged(w) && Uninterrupted(acts)
    ensures Phys(Run(w, acts)) && Logged(Run(w, acts))
    decreases |acts|
  {
    hide Phys, Runs.Next, Logged;
    RunPhys(w, acts);
    if acts != [] {
      RunLogged(w, acts[..|acts| - 1]);
      NextLogged(Run(w, acts[..|acts| - 1]), acts[|acts| - 1]);
    }
  }

  // --- RecordsSince ---------------------------------------------------------------------------

  // No file in between adds nothing.
  lemma {:induction false} TailGap(fs: Files, outs: set<nat>, lo: nat, hi: nat, from: nat)
    requires lo <= hi && forall id :: lo <= id < hi ==> id !in fs
    ensures Tail(fs, outs, hi, from) == Tail(fs, outs, lo, from)
    decreases hi - lo
  {
    if lo < hi {
      TailGap(fs, outs, lo, hi - 1, from);
    }
  }

  function Reached(ids: seq<nat>, i: nat): nat
    requires i <= |ids|
  {
    if i == 0 then 0 else ids[i - 1] + 1
  }

  lemma TailTo(fs: Files, outs: set<nat>, ids: seq<nat>, i: nat, from: nat)
    requires Listing(ids, fs.Keys) && i < |ids|
    ensures Tail(fs, outs, ids[i] + 1, from) == Tail(fs, outs, Reached(ids, i), from) + Part(fs, outs, ids[i], from)
  {
    hide Part;
    ReachedFirst(fs, ids, i);
    TailGap(fs, outs, Reached(ids, i), ids[i], from);
  }

  // What has been reached is exactly what lies below.
  lemma ReachedFirst(fs: Files, ids: seq<nat>, i: nat)
    requires Listing(ids, fs.Keys) && i < |ids|
    ensures Reached(ids, i) <= ids[i] && forall id :: Reached(ids, i) <= id < ids[i] ==> id !in fs
  {
    assert forall j :: 0 <= j < i ==> ids[j] < Reached(ids, i);
    assert forall j :: i <= j < |ids| ==> ids[i] <= ids[j];
  }

  lemma TailEnd(fs: Files, outs: set<nat>, ids: seq<nat>, n: nat, from: nat)
    requires Listing(ids, fs.Keys) && forall id :: id in fs ==> id < n
    ensures Tail(fs, outs, n, from) == Tail(fs, outs, Reached(ids, |ids|), from)
  {
    assert forall j :: 0 <= j < |ids| ==> ids[j] < Reached(ids, |ids|);
    assert forall id :: Reached(ids, |ids|) <= id < n ==> id !in fs;
    TailGap(fs, outs, Reached(ids, |ids|), n, from);
  }

  // What the scanner finds in each file.
  function Scans(data: map<nat, Bytes>): Files { map id | id in data :: File(Intact(data[id]), []) }

  // Scan the files by ascending id and emit what is newer; refuse if a merge has reclaimed
  // tombstones the follower might need.
  method RecordsSince(data: map<nat, Bytes>, ids: seq<nat>, n: nat, mergeSn: nat, from: nat)
    returns (o: Option<seq<Record>>)
    requires Listing(ids, data.Keys) && forall id :: id in data ==> id < n
    ensures o == if from < mergeSn then None else Some(Tail(Scans(data), {}, n, from))
  {
    hide Tail, Intact, SizeAll;
    if from < mergeSn {
      return None;
    }
    var out := [];
    ghost var fs := Scans(data);
    NoTail(fs, from);
    for i := 0 to |ids|
      invariant out == Tail(fs, {}, Reached(ids, i), from)
    {
      var found, end := ScanFile(data[ids[i]]);
      ghost var rs := Intact(data[ids[i]]);
      var emitted := [];
      assert rs[..0] == [];
      for j := 0 to |found|
        invariant emitted == Above(rs[..j], from)
      {
        assert rs[..j + 1][..j] == rs[..j];
        if found[j].1.sn > from {
          emitted := emitted + [found[j].1];
        } else {
          assert emitted + [] == emitted;
        }
      }
      assert rs[..|rs|] == rs;
      TailTo(fs, {}, ids, i, from);
      out := out + emitted;
    }
    TailEnd(fs, {}, ids, n, from);
    return Some(out);
  }

  lemma NoTail(fs: Files, from: nat)
    ensures Tail(fs, {}, 0, from) == []
  {
  }

  // The bytes of every file.
  ghost function Bytewise(fs: Files): map<nat, Bytes>
    requires forall id :: id in fs ==> AllValid(fs[id].recs)
  {
    map id | id in fs :: FileBytes(fs[id])
  }

  // What the scanner finds in a file: all its records, since nothing is torn.
  function FoundIn(f: File): seq<Record> { if AllValid(f.recs) then Intact(FileBytes(f)) else [] }

  lemma FoundWhole(db: Db, ledger: map<nat, Record>, id: nat)
    requires Sound(db, ledger) && Untorn(db.files) && id in db.files
    ensures AllValid(db.files[id].recs) && FoundIn(db.files[id]) == db.files[id].recs
  {
    hide Merging, Ledgered, Pointing, Newest, Forgotten, ModeOf, Intact;
    WholeLoads(db.files[id]);
  }

  // Between merges, for every position the watermark allows, scanning the files yields the
  // history after that position: nothing missing, in strictly ascending order.
  lemma RecordsSinceIsHistory(w: World, from: nat)
    requires Phys(w) && Logged(w) && w.db.merge.phase == Idle && w.db.mergeSn <= from <= w.db.sn
    ensures |History(w)| == w.db.sn && forall id :: id in w.db.files ==> AllValid(w.db.files[id].recs)
    ensures Tail(Scans(Bytewise(w.db.files)), {}, w.db.nextID, from) == History(w)[from..]
  {
    hide Phys, Sound, Tail, Above, Spent, Flat, Intact, FileBytes, AllValid;
    PhysParts(w);
    NoMerge(w.db, w.ledger);
    ValidRecords(w.db, w.ledger);
    IdleTail(w, from);
    var fs := Scans(Bytewise(w.db.files));
    forall id | 0 <= id < w.db.nextID ensures Part(w.db.files, {}, id, from) == Part(fs, {}, id, from) {
      if id in w.db.files {
        FoundWhole(w.db, w.ledger, id);
      }
    }
    TailSame(w.db.files, fs, {}, {}, w.db.nextID, from);
  }

  lemma IdleTail(w: World, from: nat)
    requires Phys(w) && Logged(w) && w.db.merge.phase == Idle && w.db.mergeSn <= from <= w.db.sn
    ensures |History(w)| == w.db.sn && Tail(w.db.files, {}, w.db.nextID, from) == History(w)[from..]
  {
    hide Phys, Sound, Tail, Above, Spent, Flat;
    PhysParts(w);
    NoMerge(w.db, w.ledger);
    assert OutSet([]) == {};
    TailTwice(w.db.files, {}, w.db.nextID, w.db.mergeSn, from);
    CountedAbove(History(w), w.db.sn, w.db.mergeSn, from);
  }

  // Every record above the watermark is on disk, merge or no merge.
  lemma NothingAboveTheMarkIsGone(w: World, i: nat)
    requires Phys(w) && Logged(w) && w.db.mergeSn <= i < |History(w)|
    ensures exists id :: Holds(w.db.files, id, History(w)[i])
  {
    hide Phys, Sound, Tail, Above, Flat, History;
    var db, outs := w.db, OutSet(w.db.merge.outs);
    var r := History(w)[i];
    assert r == History(w)[db.mergeSn..][i - db.mergeSn];
    var id := TailFile(db.files, outs, db.nextID, db.mergeSn, r);
  }

  // The file a record of the tail is in.
  lemma {:induction false} TailFile(fs: Files, outs: set<nat>, n: nat, from: nat, r: Record) returns (id: nat)
    requires r in Tail(fs, outs, n, from)
    ensures id < n && r in Part(fs, outs, id, from) && Holds(fs, id, r) && id !in outs
  {
    hide Above;
    if r in Part(fs, outs, n - 1, from) {
      AboveHeld(fs[n - 1].recs, from, r);
      id := n - 1;
    } else {
      id := TailFile(fs, outs, n - 1, from, r);
    }
  }

  lemma {:induction false} AboveHeld(rs: seq<Record>, from: nat, r: Record)
    requires r in Above(rs, from)
    ensures r in rs
  {
    if r in Above(rs[..|rs| - 1], from) {
      AboveHeld(rs[..|rs| - 1], from, r);
    }
  }

  // --- the index and the history ------------------------------------------------------------------

  ghost predicate RecordedAt(ledger: map<nat, Record>, sn: nat, r: Record) { sn in ledger && ledger[sn] == Lifted(r) }

  ghost predicate Recorded(ledger: map<nat, Record>, h: seq<Record>) {
    forall i :: 0 <= i < |h| ==> RecordedAt(ledger, i + 1, h[i])
  }

  // An indexed key is at its newest record in the whole history.
  ghost predicate Latest(ix: Index, h: seq<Record>) {
    && (forall k :: k in ix ==> 0 < ix[k].sn <= |h|)
    && (forall k, i :: k in ix && 0 <= i < |h| && h[i].key == k ==> h[i].sn <= ix[k].sn)
  }

  ghost predicate Known(w: World) {
    Logged(w) && Recorded(w.ledger, History(w)) && Latest(w.db.index, History(w))
  }

  lemma StartKnown(maxSize: nat)
    ensures Known(Start(maxSize))
  {
    hide Logged;
    StartLogged(maxSize);
    assert Start(maxSize).durable + Start(maxSize).volatile == [];
  }

  lemma ExtendedKnown(w: World, s: seq<Record>)
    requires Counted(History(w), w.db.sn) && Recorded(w.ledger, History(w)) && Latest(w.db.index, History(w))
    requires HasActive(w.db) && Numbered(s, w.db.sn)
    ensures var x := Extended(w, s);
            && History(x) == History(w) + s && Recorded(x.ledger, History(x)) && Latest(x.db.index, History(x))
  {
    hide Flat, Replay, Lifted, Enter, LocatedIn;
    var x, h := Extended(w, s), History(w);
    FlatConcat(w.durable + w.volatile, [s]);
    FlatOne(s);
    assert x.durable + x.volatile == (w.durable + w.volatile) + [s];
    var rs := w.db.files[w.db.active].recs;
    EnteredRecorded(w.ledger, h, s);
    ExtendedLatest(w.db.index, w.db.active, rs, s, h);
  }

  lemma EnteredRecorded(ledger: map<nat, Record>, h: seq<Record>, s: seq<Record>)
    requires Recorded(ledger, h) && Numbered(s, |h|)
    ensures Recorded(Enter(ledger, s, |h|), h + s)
  {
    hide Lifted;
    var l, all := Enter(ledger, s, |h|), h + s;
    forall i | 0 <= i < |all| ensures RecordedAt(l, i + 1, all[i]) {
      if i < |h| {
        assert RecordedAt(ledger, i + 1, h[i]);
      } else {
        assert s[i - |h|].sn == i + 1;
      }
    }
  }

  lemma ExtendedLatest(ix: Index, id: nat, rs: seq<Record>, s: seq<Record>, h: seq<Record>)
    requires Latest(ix, h) && Numbered(s, |h|) && Counted(h, |h|)
    ensures Latest(Replay(ix, id, rs + s, |rs|, |rs + s|), h + s)
  {
    hide Replay, SizeAll;
    var jx, all := Replay(ix, id, rs + s, |rs|, |rs + s|), h + s;
    ReplayCovers(ix, id, rs + s, |rs|, |rs + s|);
    forall k | k in jx
      ensures 0 < jx[k].sn <= |all| && forall i :: 0 <= i < |h| && h[i].key == k ==> h[i].sn <= jx[k].sn
    {
      ReplaySource(ix, id, rs + s, |rs|, |rs + s|, k);
    }
    forall k, i | k in jx && |h| <= i < |all| && all[i].key == k ensures all[i].sn <= jx[k].sn {
      assert all[i] == (rs + s)[|rs| + i - |h|];
    }
  }

  lemma WrittenKnown(w: World, g: seq<Record>, always: bool)
    requires Known(w) && Phys(w) && Writable(w.db, g)
    ensures HasActive(w.db) && Known(Written(w, g, always))
  {
    hide Logged, Phys, Operation, Extend, Enter, SizeAll, Rotate, Stamp, AllValid, Flat, Tops, Recorded, Latest,
         OpenNewActive;
    PhysActive(w);
    var s := Stamp(g, w.db.sn);
    StampOperation(g, w.db.sn);
    WrittenLogged(w, g, always);
    LoggedCounted(w);
    OpenKeeps(w);
    var o := Settle(w, OpenNewActive(w.db));
    PhysActive(o);
    SettleHistory(w, OpenNewActive(w.db));
    SameIndex(w.db);
    var r := if Rotate(w.db, SizeAll(s)) == w.db then w else o;
    ExtendedKnown(r, s);
    if always {
      ExtendedKeeps(r, s);
      PhysActive(Extended(r, s));
      SettleHistory(Extended(r, s), Sync(Extended(r, s).db));
    }
  }

  lemma SameIndex(db: Db)
    ensures OpenNewActive(db).index == db.index && OpenNewActive(db).sn == db.sn
  {
  }

  lemma LoggedCounted(w: World)
    requires Logged(w)
    ensures Counted(History(w), w.db.sn)
  {
    hide Marked, Tail, Counted, Spent, History, OutSet;
  }

  // Repointing keeps every sequence number.
  lemma {:induction false} RepointLatest(ix: Index, items: seq<Item>, moved: seq<Entry>, lo: nat, hi: nat,
                                         h: seq<Record>)
    requires lo <= hi <= |items| == |moved| && Latest(ix, h)
    requires forall j :: 0 <= j < |items| ==> moved[j].sn == items[j].e.sn
    ensures Latest(RepointTo(ix, items, moved, lo, hi), h)
    decreases hi - lo
  {
    if lo < hi {
      RepointLatest(ix, items, moved, lo, hi - 1, h);
    }
  }

  lemma {:induction false} RetireLatest(ix: Index, retired: seq<Item>, lo: nat, hi: nat, h: seq<Record>)
    requires lo <= hi <= |retired| && Latest(ix, h)
    ensures Latest(RetireTo(ix, retired, lo, hi), h)
    decreases hi - lo
  {
    if lo < hi {
      RetireLatest(ix, retired, lo, hi - 1, h);
    }
  }

  lemma MovedNumbers(db: Db, ledger: map<nat, Record>)
    requires Sound(db, ledger) && |db.merge.moved| == |db.merge.items|
    ensures forall j :: 0 <= j < |db.merge.items| ==> db.merge.moved[j].sn == db.merge.items[j].e.sn
  {
    hide Ledgered, Pointing, Newest, Forgotten, Shaped, Awaiting, Untouched, KeyOrdered, Points, Collected, Split,
         OnlyCopies;
    forall j | 0 <= j < |db.merge.items| ensures db.merge.moved[j].sn == db.merge.items[j].e.sn {
      assert MovedItem(db.files, db.merge.outs, db.merge.items[j], db.merge.moved[j]);
    }
  }

  lemma NextKnown(w: World, a: Action)
    requires Known(w) && Phys(w) && !a.Reboot?
    ensures Known(Runs.Next(w, a))
  {
    hide Logged, Phys, Sound, Written, Copy, Seal, Collects, RepointTo, RetireTo, Dropped, Tops, Recorded, Latest,
         Writable, Flat, Immutable;
    NextLogged(w, a);
    if Enabled(w, a) {
      var h := History(w);
      match a
      case Put(g, always) => WrittenKnown(w, g, always);
      case Fsync => SettleHistory(w, Sync(w.db));
      case SealActive => SettleHistory(w, Seal(w.db)); SealIndex(w.db);
      case CopyNext => CopyIndex(w.db);
      case RepointChunk(hi) =>
        PhysParts(w);
        MovedNumbers(w.db, w.ledger);
        RepointLatest(w.db.index, w.db.merge.items, w.db.merge.moved, w.db.merge.done, hi, h);
      case RetireChunk(hi) => RetireLatest(w.db.index, w.db.merge.retired, w.db.merge.done, hi, h);
      case _ =>
    }
  }

  lemma SealIndex(db: Db)
    requires HasActive(db)
    ensures Seal(db).index == db.index
  {
    hide SizeAll;
  }

  lemma CopyIndex(db: Db)
    requires |db.merge.moved| < |db.merge.items|
    ensures Copy(db).index == db.index
  {
  }

  // Whatever interleaves, short of a restart: the log above the watermark is the history, and
  // the index is at the newest record of every key it holds.
  lemma {:induction false} RunKnown(w: World, acts: seq<Action>)
    requires Phys(w) && Known(w) && Uninterrupted(acts)
    ensures Phys(Run(w, acts)) && Known(Run(w, acts))
    decreases |acts|
  {
    hide Phys, Runs.Next, Known;
    RunPhys(w, acts);
    if acts != [] {
      RunKnown(w, acts[..|acts| - 1]);
      NextKnown(Run(w, acts[..|acts| - 1]), acts[|acts| - 1]);
    }
  }

  lemma KnownLogged(w: World)
    requires Known(w)
    ensures Logged(w) && Counted(History(w), |History(w)|) && |History(w)| == w.db.sn
  {
    hide Logged;
    LoggedCounted(w);
  }

  lemma NextHistory(w: World, a: Action)
    requires !a.Reboot?
    ensures History(w) <= History(Runs.Next(w, a)) && (!a.Put? ==> History(w) == History(Runs.Next(w, a)))
  {
    hide Written, Copy, Seal, Collects, Tops, Flat, SizeAll, RepointTo, RetireTo, Dropped, Writable;
    if Enabled(w, a) {
      match a
      case Put(g, always) => WrittenHistory(w, g, always);
      case Fsync => SettleHistory(w, Sync(w.db));
      case SealActive => SettleHistory(w, Seal(w.db));
      case _ =>
    }
  }

  lemma WrittenHistory(w: World, g: seq<Record>, always: bool)
    requires HasActive(w.db)
    ensures History(Written(w, g, always)) == History(w) + Stamp(g, w.db.sn)
  {
    hide Extend, Enter, SizeAll, Rotate, Stamp, Flat, Tops;
    var s := Stamp(g, w.db.sn);
    var o := Settle(w, OpenNewActive(w.db));
    SettleHistory(w, OpenNewActive(w.db));
    var r := if Rotate(w.db, SizeAll(s)) == w.db then w else o;
    FlatConcat(r.durable + r.volatile, [s]);
    FlatOne(s);
    assert r.durable + (r.volatile + [s]) == (r.durable + r.volatile) + [s];
    var e := Extended(r, s);
    StaysActive(r.db, s);
    SettleHistory(e, Sync(e.db));
  }

  lemma StaysActive(db: Db, s: seq<Record>)
    requires HasActive(db)
    ensures HasActive(Extend(db, s))
  {
    hide Replay;
  }

  lemma {:induction false} RunHistory(w: World, acts: seq<Action>)
    requires Uninterrupted(acts)
    ensures History(w) <= History(Run(w, acts))
    decreases |acts|
  {
    hide Runs.Next, History;
    if acts != [] {
      RunHistory(w, acts[..|acts| - 1]);
      NextHistory(Run(w, acts[..|acts| - 1]), acts[|acts| - 1]);
    }
  }
}
