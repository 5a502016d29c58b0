/** Whole runs: every interleaving of writes, syncs, hint building, merge phases, aborts,
    crashes and restarts. */
module Runs {
  import opened Bytes
  import opened Records
  import opened Log
  import opened Engine
  import opened Invariant
  import opened Writing
  import opened Compaction
  import opened Durability
  import opened Recovery
  import opened Crash

  // The records one write appended.
  type Op = seq<Record>

  // durable are the operations a crash cannot touch, volatile those acknowledged since.
  datatype World = World(db: Db, ledger: map<nat, Record>, top: map<Bytes, nat>, durable: seq<Op>, volatile: seq<Op>)

  datatype Action =
    | Put(g: seq<Record>, always: bool)
    | Fsync
    | BuildHint(id: nat)
    | SealActive
    | Collect(items: seq<Item>, retired: seq<Item>)
    | CopyNext
    | FsyncOuts
    | GiveUp
    | StartRepoint
    | RepointChunk(hi: nat)
    | StartRetire
    | RetireChunk(hi: nat)
    | Raise
    | Drop
    | Reboot(cut: map<nat, nat>, ids: seq<nat>)

  // The live map after a history of operations.
  function After(ops: seq<Op>): map<Bytes, Bytes> { Fold(map[], Flat(ops)) }

  ghost predicate Operations(ops: seq<Op>) { forall i :: 0 <= i < |ops| ==> Operation(ops[i]) }

  // The engine is sound, and its unsynced records are the volatile operations.
  ghost predicate Phys(w: World) {
    && Sound(w.db, w.ledger) && Tidy(w.db) && Kept(w.db, w.top) && Recent(w.db)
    && Flat(w.volatile) == w.db.files[w.db.active].recs[w.db.synced..] && Operations(w.volatile)
  }

  // Memory: the index denotes the whole history.
  ghost predicate Denotes(w: World) { View(w.db.index, w.ledger) == After(w.durable + w.volatile) }

  ghost predicate Inv(w: World) { Phys(w) && Denotes(w) }

  // What every step but a restart keeps.
  ghost predicate Keeps(w: World, x: World) { Phys(x) && (Denotes(w) ==> Denotes(x)) }

  // Disk: what is stable denotes the durable history.
  ghost predicate Safe(w: World) { Live(w.top, w.ledger) == After(w.durable) }

  function Start(maxSize: nat): World { World(Init(maxSize), map[], map[], [], []) }

  // Everything written so far becomes stable.
  function Settle(w: World, db: Db): World {
    World(db, w.ledger, w.top + Tops(w.db.index), w.durable + w.volatile, [])
  }

  // A crash, and the files recovery will find, in ascending order.
  ghost predicate CanReboot(db: Db, cut: map<nat, nat>, ids: seq<nat>) {
    Cut(db, cut) && (forall id :: id in db.files ==> AllValid(db.files[id].recs)) && Listing(ids, db.files.Keys)
  }

  ghost predicate Enabled(w: World, a: Action) { HasActive(w.db) && Ready(w, a) }

  ghost predicate Ready(w: World, a: Action) {
    var db := w.db;
    match a
    case Put(g, always) => Writable(db, g)
    case Fsync => true
    case BuildHint(id) => Immutable(db, id) && db.files[id].tail == [] && SizeAll(db.files[id].recs) < U64
    case SealActive => db.merge.phase == Idle
    case Collect(items, retired) => db.merge.phase == Sealed && Collects(db.index, db.merge.ids, items, retired)
    case CopyNext => db.merge.phase == Copying && |db.merge.moved| < |db.merge.items|
    case FsyncOuts => db.merge.phase == Copying && |db.merge.moved| == |db.merge.items|
    case GiveUp => db.merge.phase in {Sealed, Copying, Synced}
    case StartRepoint => db.merge.phase == Synced && OutSet(db.merge.outs) <= db.hinted
    case RepointChunk(hi) => db.merge.phase == Repointing && db.merge.done <= hi <= |db.merge.items| == |db.merge.moved|
    case StartRetire => db.merge.phase == Repointing && db.merge.done == |db.merge.items|
    case RetireChunk(hi) => db.merge.phase == Retiring && db.merge.done <= hi <= |db.merge.retired|
    case Raise => db.merge.phase == Retiring && db.merge.done == |db.merge.retired|
    case Drop => db.merge.phase == Dropping
    case Reboot(cut, ids) => CanReboot(db, cut, ids)
  }

  // Appending to the file that is already active.
  ghost function Extended(w: World, s: seq<Record>): World
    requires HasActive(w.db) && Numbered(s, w.db.sn)
  {
    w.(db := Extend(w.db, s), ledger := Enter(w.ledger, s, w.db.sn), volatile := w.volatile + [s])
  }

  ghost function Written(w: World, g: seq<Record>, always: bool): World
    requires HasActive(w.db)
  {
    var s := Stamp(g, w.db.sn);
    var r := if Rotate(w.db, SizeAll(s)) == w.db then w else Settle(w, OpenNewActive(w.db));
    var e := Extended(r, s);
    if always then Settle(e, Sync(e.db)) else e
  }

  // How many operations lie wholly within the first n records.
  function Whole(ops: seq<Op>, n: nat): (j: nat)
    ensures j <= |ops|
  {
    if ops == [] then 0 else if |Flat(ops)| <= n then |ops| else Whole(ops[..|ops| - 1], n)
  }

  // How many volatile operations a crash at n bytes of the active file leaves whole.
  function Survivors(w: World, n: nat): (j: nat)
    requires HasActive(w.db)
    ensures j <= |w.volatile|
  {
    var k := Fit(w.db.files[w.db.active].recs, n);
    Whole(w.volatile, if k < w.db.synced then 0 else k - w.db.synced)
  }

  ghost function Rebooted(w: World, cut: map<nat, nat>, ids: seq<nat>): World
    requires CanReboot(w.db, cut, ids)
  {
    var db := w.db;
    var disk := CrashDisk(db, cut);
    var d := Restart(db.maxSize, disk.data, db.hinted, db.mergeSn, ids);
    World(d, w.ledger, Tops(d.index), w.durable + w.volatile[..Survivors(w, cut[db.active])], [])
  }

  ghost function Next(w: World, a: Action): World {
    if !Enabled(w, a) then w
    else
      var db := w.db;
      match a
      case Put(g, always) => Written(w, g, always)
      case Fsync => Settle(w, Sync(db))
      case BuildHint(id) => w.(db := Hint(db, id))
      case SealActive => if FileSize(db.files[db.active]) > 0 then Settle(w, Seal(db)) else w.(db := Seal(db))
      case Collect(items, retired) => w.(db := Snapshot(db, items, retired))
      case CopyNext => w.(db := Copy(db))
      case FsyncOuts => w.(db := SyncOuts(db))
      case GiveUp => w.(db := Abort(db))
      case StartRepoint => w.(db := BeginRepoint(db))
      case RepointChunk(hi) => w.(db := Repoint(db, hi))
      case StartRetire => w.(db := BeginRetire(db))
      case RetireChunk(hi) => w.(db := Retire(db, hi))
      case Raise => w.(db := RaiseMark(db))
      case Drop => w.(db := Unlink(db), top := Dropped(db.merge, w.top))
      case Reboot(cut, ids) => Rebooted(w, cut, ids)
  }

  // The step the engine takes is the append of the write path.
  lemma WrittenIsAppend(w: World, g: seq<Record>, always: bool)
    requires Sound(w.db, w.ledger) && Writable(w.db, g)
    ensures HasActive(w.db) && Written(w, g, always).db == Append(w.db, g, always)
  {
    hide Sound, Writable, Extend, Append, SizeAll, Stamp, Enter, Rotate;
    Active(w.db, w.ledger);
    AppendIsExtend(w.db, w.ledger, g, always);
    RotateCases(w.db, SizeAll(Stamp(g, w.db.sn)));
  }

  lemma RotateCases(db: Db, incoming: nat)
    requires HasActive(db)
    ensures Rotate(db, incoming) == db || Rotate(db, incoming) == OpenNewActive(db)
  {
  }

  // --- histories -----------------------------------------------------------------------

  lemma AfterConcat(a: seq<Op>, b: seq<Op>)
    ensures After(a + b) == Fold(After(a), Flat(b))
  {
    FlatConcat(a, b);
    FoldConcat(map[], Flat(a), Flat(b));
  }

  // A cut inside a run of operations keeps the operations wholly before it.
  lemma {:induction false} CutOperations(log: seq<Record>, ops: seq<Op>, m: nat)
    requires ModeOf(log) == Closed && Operations(ops) && m <= |Flat(ops)|
    ensures ModeOf(log + Flat(ops)) == Closed
    ensures ClosedPart((log + Flat(ops))[..|log| + m]) == |log| + |Flat(ops[..Whole(ops, m)])|
  {
    hide ModeOf, ClosedPart, Operation;
    if ops == [] {
      assert log + Flat(ops) == log && log[..|log|] == log;
    } else {
      var init, g := ops[..|ops| - 1], ops[|ops| - 1];
      var a := log + Flat(init);
      var rs := log + Flat(ops);
      assert rs == a + g;
      assert Operations(init);
      if m < |Flat(init)| {
        CutOperations(log, init, m);
        assert rs[..|log| + m] == a[..|log| + m];
        OperationCloses(a, g);
        assert init[..Whole(init, m)] == ops[..Whole(ops, m)];
      } else {
        CutOperations(log, init, |Flat(init)|);
        var i := m - |Flat(init)|;
        OperationCloses(a, g);
        OperationAtomic(a, g, i);
        assert rs[..|log| + m] == a + g[..i];
        assert ops[..|ops|] == ops;
      }
    }
  }

  // No longer run of operations fits, and this one does.
  lemma {:induction false} WholeLargest(ops: seq<Op>, n: nat, j: nat)
    requires j <= |ops|
    ensures j <= Whole(ops, n) <==> |Flat(ops[..j])| <= n || j == 0
  {
    assert ops[..|ops|] == ops;
    if ops != [] {
      if |Flat(ops)| <= n {
        assert ops == ops[..j] + ops[j..];
        FlatConcat(ops[..j], ops[j..]);
      } else if j < |ops| {
        var init := ops[..|ops| - 1];
        WholeLargest(init, n, j);
        assert init[..j] == ops[..j];
      }
    }
  }

  // --- every step keeps the invariant -------------------------------------------------------

  lemma PhysActive(w: World)
    requires Phys(w)
    ensures HasActive(w.db) && w.db.synced <= |w.db.files[w.db.active].recs| && w.db.files[w.db.active].tail == []
  {
    hide Merging, Ledgered, Pointing, Newest, Forgotten, Tidy;
  }

  lemma StartSound(maxSize: nat)
    ensures Sound(Init(maxSize), map[])
  {
    var db := Init(maxSize);
    EmptyClosed();
    assert db.files[0].recs[..0] == [];
    IdleMerging(db.files, db.index, db.active);
  }

  lemma StartInv(maxSize: nat)
    ensures Inv(Start(maxSize)) && Safe(Start(maxSize))
  {
    hide Sound;
    var w := Start(maxSize);
    StartSound(maxSize);
    NothingFlat();
    assert w.db.files[0].recs[0..] == [] && w.db.files[0].recs[..0] == [];
  }

  // Settling after everything has been synced.
  lemma SettleKeeps(w: World, db: Db)
    requires Phys(w) && Sound(db, w.ledger) && Tidy(db) && Kept(db, w.top + Tops(w.db.index)) && Recent(db)
    requires db.index == w.db.index && db.active in db.files && db.synced == |db.files[db.active].recs|
    ensures Keeps(w, Settle(w, db))
  {
    hide Sound, Tidy, Kept, Recent, View, After;
    var t := Settle(w, db);
    assert t.durable + t.volatile == w.durable + w.volatile;
    assert db.files[db.active].recs[db.synced..] == [];
    NothingFlat();
  }

  lemma NothingFlat()
    ensures Flat([]) == [] && Operations([])
  {
  }

  // The stable map after settling is the live map: retired keys were deleted.
  lemma SettleLive(w: World)
    requires Phys(w)
    ensures Live(w.top + Tops(w.db.index), w.ledger) == View(w.db.index, w.ledger)
  {
    hide Sound, Tidy, Kept, Recent, After, Present;
    var t := w.top + Tops(w.db.index);
    PhysActive(w);
    AllStable(w.db, w.ledger, w.top);
    IndexLedgered(w.db, w.ledger);
    forall k | k in t && k !in w.db.index ensures t[k] in w.ledger && Tomb(w.ledger[t[k]]) {
      RetiredSafe(w.db, w.ledger, t, k);
    }
    assert Live(t, w.ledger) == View(w.db.index, w.ledger);
  }

  lemma SettleSafe(w: World, db: Db)
    requires Inv(w)
    ensures Safe(Settle(w, db))
  {
    hide Phys, View, Live, After, Tops;
    SettleLive(w);
  }

  lemma QuietRecent(db: Db, ledger: map<nat, Record>)
    requires Sound(db, ledger) && db.synced == |db.files[db.active].recs|
    ensures Recent(db)
  {
    hide Merging, Ledgered, Pointing, Newest, Forgotten, ModeOf;
    var rs := db.files[db.active].recs;
    assert rs[db.synced..] == [];
    forall id, r | Holds(Stable(db.files, db.active, db.synced), id, r) ensures r.sn <= db.sn {
      assert Holds(db.files, id, r);
    }
  }

  lemma FsyncKeeps(w: World)
    requires Phys(w)
    ensures HasActive(w.db) && Keeps(w, Settle(w, Sync(w.db)))
  {
    hide Sound, Kept, Recent, View, After, Tidy;
    PhysActive(w);
    SyncSound(w.db, w.ledger);
    SyncKept(w.db, w.ledger, w.top);
    QuietRecent(Sync(w.db), w.ledger);
    SyncTidy(w.db);
    SettleKeeps(w, Sync(w.db));
  }

  lemma SyncTidy(db: Db)
    requires Tidy(db) && HasActive(db)
    ensures Tidy(Sync(db))
  {
    hide Loadable;
  }

  lemma OpenTidy(db: Db, ledger: map<nat, Record>)
    requires Sound(db, ledger) && Tidy(db)
    ensures Tidy(OpenNewActive(db))
  {
    hide Loadable, Merging, Ledgered, Pointing, Newest, Forgotten, SizeAll;
    forall id | id in db.hinted ensures id != db.nextID {
      assert Immutable(db, id);
    }
  }

  lemma OpenKeeps(w: World)
    requires Phys(w)
    ensures Keeps(w, Settle(w, OpenNewActive(w.db)))
  {
    hide Sound, Kept, Recent, View, After, Tidy;
    var d := OpenNewActive(w.db);
    PhysActive(w);
    OpenNewActiveSound(w.db, w.ledger);
    OpenNewActiveKept(w.db, w.ledger, w.top);
    QuietRecent(d, w.ledger);
    OpenTidy(w.db, w.ledger);
    SettleKeeps(w, d);
  }

  // --- writes --------------------------------------------------------------------------------

  lemma ExtendRecent(db: Db, s: seq<Record>)
    requires Recent(db) && Numbered(s, db.sn)
    ensures Recent(Extend(db, s))
  {
    hide Replay;
    var d := Extend(db, s);
    var rs := db.files[db.active].recs;
    assert (rs + s)[db.synced..] == rs[db.synced..] + s;
    assert (rs + s)[..db.synced] == rs[..db.synced];
    assert Stable(d.files, d.active, d.synced) == Stable(db.files, db.active, db.synced);
  }

  lemma ExtendTidy(db: Db, s: seq<Record>)
    requires Tidy(db) && HasActive(db) && db.files[db.active].tail == []
    ensures Tidy(Extend(db, s))
  {
    hide Loadable, Replay, SizeAll;
  }

  lemma ExtendedKeeps(w: World, s: seq<Record>)
    requires Phys(w) && Operation(s) && AllValid(s) && Numbered(s, w.db.sn)
    ensures HasActive(w.db) && Keeps(w, Extended(w, s))
  {
    hide Sound, Kept, Recent, View, After, Tidy, Enter, Operation, Fold, Flat, Replay, AllValid;
    PhysActive(w);
    var e := Extended(w, s);
    ExtendSound(w.db, w.ledger, s);
    ExtendView(w.db, w.ledger, s);
    ExtendKept(w.db, w.ledger, w.top, s);
    ExtendRecent(w.db, s);
    ExtendTidy(w.db, s);
    FlatConcat(w.volatile, [s]);
    FlatOne(s);
    var rs := w.db.files[w.db.active].recs;
    assert (rs + s)[w.db.synced..] == rs[w.db.synced..] + s;
    AfterConcat(w.durable + w.volatile, [s]);
    assert e.durable + e.volatile == (w.durable + w.volatile) + [s];
  }

  lemma WrittenKeeps(w: World, g: seq<Record>, always: bool)
    requires Phys(w) && Writable(w.db, g)
    ensures HasActive(w.db) && Keeps(w, Written(w, g, always))
  {
    hide Phys, Denotes, Operation, Extend, Enter, SizeAll, Rotate, Stamp, AllValid;
    PhysActive(w);
    var s := Stamp(g, w.db.sn);
    StampOperation(g, w.db.sn);
    OpenKeeps(w);
    var r := if Rotate(w.db, SizeAll(s)) == w.db then w else Settle(w, OpenNewActive(w.db));
    ExtendedKeeps(r, s);
    if always {
      FsyncKeeps(Extended(r, s));
    }
  }

  // --- merge phases ------------------------------------------------------------------------------

  // A step that leaves the active file and the live map alone.
  lemma AsideKeeps(w: World, d: Db, top: map<Bytes, nat>)
    requires Phys(w) && Sound(d, w.ledger) && Tidy(d) && Kept(d, top) && Recent(d)
    requires d.active == w.db.active && d.synced == w.db.synced
    requires d.active in d.files && w.db.active in w.db.files && d.files[d.active] == w.db.files[d.active]
    requires View(d.index, w.ledger) == View(w.db.index, w.ledger)
    ensures Keeps(w, w.(db := d, top := top))
  {
    hide Sound, Tidy, Kept, Recent, View, After;
  }

  // Numbers stay recent if every stable record was stable before, here or elsewhere.
  lemma RecentKept(db: Db, d: Db)
    requires Recent(db) && d.sn == db.sn && d.active == db.active && d.synced == db.synced
    requires d.active in d.files && d.files[d.active] == db.files[d.active]
    requires forall id, r :: Holds(d.files, id, r) && id != d.active ==>
               exists src, q :: Holds(db.files, src, q) && src != db.active && q.sn == r.sn
    ensures Recent(d)
  {
    var st, su := Stable(db.files, db.active, db.synced), Stable(d.files, d.active, d.synced);
    var floor := db.sn - |db.files[db.active].recs[db.synced..]|;
    forall id, r | Holds(su, id, r) ensures r.sn <= floor {
      if id == d.active {
        assert Holds(st, id, r);
      } else {
        assert Holds(d.files, id, r);
        var src, q :| Holds(db.files, src, q) && src != db.active && q.sn == r.sn;
        assert Holds(st, src, q);
      }
    }
  }

  lemma SubsetRecent(db: Db, d: Db)
    requires Recent(db) && d.sn == db.sn && d.active == db.active && d.synced == db.synced
    requires d.active in d.files && d.files[d.active] == db.files[d.active]
    requires forall id, r :: Holds(d.files, id, r) ==> Holds(db.files, id, r)
    ensures Recent(d)
  {
    hide Recent;
    RecentKept(db, d);
  }

  lemma SealKeeps(w: World)
    requires Phys(w) && w.db.merge.phase == Idle
    ensures Keeps(w, Next(w, SealActive))
  {
    hide Sound, Tidy, Kept, Recent, View, After, SizeAll;
    PhysActive(w);
    SealSound(w.db, w.ledger);
    NoMerge(w.db, w.ledger);
    var d := Seal(w.db);
    if FileSize(w.db.files[w.db.active]) > 0 {
      OpenKeeps(w);
      OpenNewActiveKept(w.db, w.ledger, w.top);
      OpenTidy(w.db, w.ledger);
      SealTidy(OpenNewActive(w.db), d);
      Active(d, w.ledger);
      QuietRecent(d, w.ledger);
      SameKept(OpenNewActive(w.db), d, w.top + Tops(w.db.index));
      SettleKeeps(w, d);
    } else {
      SealTidy(w.db, d);
      SameKept(w.db, d, w.top);
      SubsetRecent(w.db, d);
      AsideKeeps(w, d, w.top);
    }
  }

  lemma NoMerge(db: Db, ledger: map<nat, Record>)
    requires Sound(db, ledger) && db.merge.phase == Idle
    ensures db.merge == NO_MERGE
  {
  }

  lemma SealTidy(db: Db, d: Db)
    requires Tidy(db) && d.files == db.files && d.hinted == db.hinted && d.active == db.active && d.merge.outs == []
    ensures Tidy(d)
  {
    hide Loadable, SizeAll;
  }

  lemma SameKept(db: Db, d: Db, top: map<Bytes, nat>)
    requires Kept(db, top) && d.files == db.files && d.active == db.active && d.synced == db.synced
    ensures Kept(d, top)
  {
    hide IsTop;
  }

  // A phase change: only the merge's own bookkeeping and the index move.
  lemma PhaseKeeps(w: World, d: Db)
    requires Phys(w) && Sound(d, w.ledger) && View(d.index, w.ledger) == View(w.db.index, w.ledger)
    requires d == w.db.(index := d.index, merge := d.merge, mergeSn := d.mergeSn)
    requires d.merge.outs == w.db.merge.outs
    requires d.merge.phase in {Sealed, Copying} ==> w.db.merge.phase in {Sealed, Copying}
    ensures Keeps(w, w.(db := d))
  {
    hide Sound, Kept, Recent, View, After, Loadable, SizeAll;
    PhysActive(w);
    SameKept(w.db, d, w.top);
    SubsetRecent(w.db, d);
    assert Tidy(d);
    AsideKeeps(w, d, w.top);
  }

  lemma CopyKeeps(w: World)
    requires Phys(w) && w.db.merge.phase == Copying && |w.db.merge.moved| < |w.db.merge.items|
    ensures Keeps(w, w.(db := Copy(w.db)))
  {
    hide Sound, Tidy, Kept, Recent, View, After, Copy, Lifted, Tomb, InBatch, Points;
    var d := Copy(w.db);
    PhysActive(w);
    CopySound(w.db, w.ledger);
    CopyKept(w.db, w.ledger, w.top);
    var r := NextItem(w.db, w.ledger);
    LiftedTwice(r);
    var out := CopyTarget(w.db, w.ledger, r);
    CopyFiles(w.db, w.ledger, out, Lifted(r), d);
    OutOfTheWay(w.db, w.ledger, out, Lifted(r), d);
    CopyTidy(w.db, w.ledger, out, Lifted(r), d);
    var src := w.db.merge.items[|w.db.merge.moved|].e.file;
    ApartFromActive(w.db, w.ledger);
    forall id, q | Holds(d.files, id, q) && id != d.active
      ensures exists s, p :: Holds(w.db.files, s, p) && s != w.db.active && p.sn == q.sn
    {
      if !Holds(w.db.files, id, q) {
        assert Holds(w.db.files, src, r) && src != w.db.active;
      }
    }
    RecentKept(w.db, d);
    AsideKeeps(w, d, w.top);
  }

  lemma OutOfTheWay(db: Db, ledger: map<nat, Record>, out: nat, l: Record, d: Db)
    requires Sound(db, ledger) && CopiedTo(db, out, l, d)
    ensures out != db.active && db.active in d.files && d.files[d.active] == db.files[db.active]
  {
    hide Ledgered, Pointing, Newest, Forgotten, SizeAll;
  }

  lemma CopyTidy(db: Db, ledger: map<nat, Record>, out: nat, l: Record, d: Db)
    requires Sound(db, ledger) && Tidy(db) && CopiedTo(db, out, l, d) && db.merge.phase == Copying
    ensures Tidy(d)
  {
    hide Ledgered, Pointing, Newest, Forgotten, SizeAll, Loadable, Split, Progress, Collected, Moved, OnlyCopies,
         Awaiting, Untouched;
    forall id | id in db.hinted ensures id != out && id !in d.merge.outs {
      assert Immutable(db, id);
    }
  }

  lemma AbortKeeps(w: World)
    requires Phys(w) && w.db.merge.phase in {Sealed, Copying, Synced}
    ensures Keeps(w, w.(db := Abort(w.db)))
  {
    hide Sound, Kept, Recent, View, After, Loadable, SizeAll;
    var d := Abort(w.db);
    PhysActive(w);
    AbortSound(w.db, w.ledger);
    AbortKept(w.db, w.ledger, w.top);
    ApartFromActive(w.db, w.ledger);
    SubsetRecent(w.db, d);
    assert Tidy(d);
    AsideKeeps(w, d, w.top);
  }

  lemma DropKeeps(w: World)
    requires Phys(w) && w.db.merge.phase == Dropping
    ensures Keeps(w, w.(db := Unlink(w.db), top := Dropped(w.db.merge, w.top)))
  {
    hide Sound, Kept, Recent, View, After, Loadable, SizeAll, Dropped;
    var d := Unlink(w.db);
    PhysActive(w);
    UnlinkSound(w.db, w.ledger);
    UnlinkKept(w.db, w.ledger, w.top);
    ApartFromActive(w.db, w.ledger);
    SubsetRecent(w.db, d);
    assert Tidy(d);
    AsideKeeps(w, d, Dropped(w.db.merge, w.top));
  }

  lemma HintKeeps(w: World, id: nat)
    requires Phys(w) && Enabled(w, BuildHint(id))
    ensures Keeps(w, w.(db := Hint(w.db, id)))
  {
    hide Kept, Recent, View, After, Loadable, SizeAll, Shaped, Bounded, Ledgered, Pointing, Newest, Forgotten, Merging;
    var d := Hint(w.db, id);
    PhysActive(w);
    SameKept(w.db, d, w.top);
    SubsetRecent(w.db, d);
    assert Tidy(d);
    AsideKeeps(w, d, w.top);
  }

  // --- crash and restart -------------------------------------------------------------------------

  // The operations of the active file that a crash at n bytes leaves whole.
  lemma SurvivingOps(w: World, n: nat)
    requires Phys(w)
    requires HasActive(w.db) && w.db.synced <= |w.db.files[w.db.active].recs|
    requires SizeAll(w.db.files[w.db.active].recs[..w.db.synced]) <= n
    ensures var rs := w.db.files[w.db.active].recs;
            && w.db.synced <= Fit(rs, n)
            && ClosedPart(rs[..Fit(rs, n)])
               == w.db.synced + |Flat(w.volatile[..Whole(w.volatile, Fit(rs, n) - w.db.synced)])|
  {
    hide Sound, Tidy, Kept, Recent, View, After, ModeOf, ClosedPart, Fit, SizeAll, Whole;
    var rs := w.db.files[w.db.active].recs;
    var s, k := w.db.synced, Fit(rs, n);
    ActiveClosed(w.db, w.ledger);
    assert s <= k;
    assert rs == rs[..s] + Flat(w.volatile);
    CutOperations(rs[..s], w.volatile, k - s);
  }

  lemma ActiveClosed(db: Db, ledger: map<nat, Record>)
    requires Sound(db, ledger)
    ensures HasActive(db) && db.synced <= |db.files[db.active].recs|
    ensures ModeOf(db.files[db.active].recs[..db.synced]) == Closed
    ensures db.files[db.active].tail == [] && AllValid(db.files[db.active].recs)
    ensures ModeOf(db.files[db.active].recs) == Closed
  {
    hide Merging, Ledgered, Pointing, Newest, Forgotten, ModeOf;
  }

  // The active file on the crashed disk.
  lemma CrashedActive(db: Db, ledger: map<nat, Record>, cut: map<nat, nat>)
    requires Sound(db, ledger) && Cut(db, cut) && forall id :: id in db.files ==> AllValid(db.files[id].recs)
    ensures var rs, n := db.files[db.active].recs, cut[db.active];
            && SizeAll(rs[..db.synced]) <= n <= SizeAll(rs)
            && Load(CrashDisk(db, cut).data)[db.active].recs == rs[..ClosedPart(rs[..Fit(rs, n)])]
  {
    hide Sound, ModeOf, ClosedPart, Fit, SizeAll, LoadFile, EncodeAll, AllValid;
    ActiveClosed(db, ledger);
    assert MayCut(db, db.active, cut[db.active]);
    CutLoads(db.files[db.active], cut[db.active]);
  }

  lemma {:induction false} FlatPrefix(ops: seq<Op>, j: nat)
    requires j <= |ops|
    ensures |Flat(ops[..j])| <= |Flat(ops)| && Flat(ops[..j]) == Flat(ops)[..|Flat(ops[..j])|]
  {
    hide Flat;
    assert ops == ops[..j] + ops[j..];
    FlatConcat(ops[..j], ops[j..]);
  }

  lemma SurvivingRecords(w: World, cut: map<nat, nat>)
    requires Phys(w) && Cut(w.db, cut) && forall id :: id in w.db.files ==> AllValid(w.db.files[id].recs)
    ensures var fs := Load(CrashDisk(w.db, cut).data);
            && w.db.active in fs && w.db.synced <= |fs[w.db.active].recs|
            && fs[w.db.active].recs[w.db.synced..] == Flat(w.volatile[..Survivors(w, cut[w.db.active])])
  {
    hide Sound, Tidy, Kept, Recent, View, After, ModeOf, ClosedPart, Fit, SizeAll, Whole, LoadFile, CutBytes,
         Operations, AllValid, MayCut;
    PhysActive(w);
    var db := w.db;
    CrashedActive(db, w.ledger, cut);
    var rs, n := db.files[db.active].recs, cut[db.active];
    SurvivingOps(w, n);
    var j := Survivors(w, n);
    FlatPrefix(w.volatile, j);
    var c := ClosedPart(rs[..Fit(rs, n)]);
    assert rs[..c][db.synced..] == rs[db.synced..][..c - db.synced];
  }

  // Recovery after a crash at any byte: the stable map followed by exactly the operations
  // that reached the disk whole.
  ghost predicate Recovers(w: World, cut: map<nat, nat>, ids: seq<nat>)
    requires CanReboot(w.db, cut, ids)
  {
    var d, j := Rebooted(w, cut, ids).db, Survivors(w, cut[w.db.active]);
    && Sound(d, w.ledger) && Tidy(d) && d.merge == NO_MERGE && IsTop(d.files, Tops(d.index))
    && HasActive(d) && d.synced == |d.files[d.active].recs|
    && View(d.index, w.ledger) == Fold(Live(w.top, w.ledger), Flat(w.volatile[..j]))
  }

  lemma RebootView(w: World, cut: map<nat, nat>, ids: seq<nat>)
    requires CanReboot(w.db, cut, ids) && Phys(w)
    ensures Recovers(w, cut, ids)
  {
    hide Phys, Denotes, Operations, Flat, View, Live, Fold, After, Whole, Fit, Restart, IsTop, LoadFile, Listing,
         MayCut, AllValid;
    hide Sound, Tidy, Kept, Recent, Survivors, CrashDisk, Image, Load, Tops;
    PhysParts(w);
    SurvivingRecords(w, cut);
    CrashKeys(w.db, cut);
    var db, data := w.db, CrashDisk(w.db, cut).data;
    CrashImage(db, w.ledger, cut);
    RestartSound(db, w.ledger, data, ids);
    RestartView(db, w.ledger, w.top, data, ids);
  }

  lemma CrashKeys(db: Db, cut: map<nat, nat>)
    requires Cut(db, cut) && forall id :: id in db.files ==> AllValid(db.files[id].recs)
    ensures CrashDisk(db, cut).data.Keys == db.files.Keys
  {
  }

  lemma PhysParts(w: World)
    requires Phys(w)
    ensures Sound(w.db, w.ledger) && Tidy(w.db) && Kept(w.db, w.top) && Recent(w.db)
  {
    hide Sound, Tidy, Kept, Recent;
  }

  // A restart leaves a sound engine whatever was lost; it denotes the surviving history if
  // the stable map denoted the durable one.
  lemma RebootKeeps(w: World, cut: map<nat, nat>, ids: seq<nat>)
    requires Phys(w) && CanReboot(w.db, cut, ids)
    ensures Phys(Rebooted(w, cut, ids))
    ensures Safe(w) ==> Denotes(Rebooted(w, cut, ids)) && Safe(Rebooted(w, cut, ids))
  {
    hide Phys, Sound, Tidy, Recent, View, Live, Fold, After, Rebooted, Flat, Tops, IsTop;
    var t := Rebooted(w, cut, ids);
    RebootView(w, cut, ids);
    var j := Survivors(w, cut[w.db.active]);
    AfterConcat(w.durable, w.volatile[..j]);
    RebootedParts(w, cut, ids);
    QuietRecent(t.db, t.ledger);
    TopsView(t.db, t.ledger);
    var rs := t.db.files[t.db.active].recs;
    assert rs[..|rs|] == rs;
    SameHolds(t.db.files, Stable(t.db.files, t.db.active, t.db.synced), t.top);
    FreshPhys(t);
    assert t.durable + t.volatile == t.durable;
  }

  lemma RebootedParts(w: World, cut: map<nat, nat>, ids: seq<nat>)
    requires CanReboot(w.db, cut, ids)
    ensures var t := Rebooted(w, cut, ids);
            && t.ledger == w.ledger && t.top == Tops(t.db.index) && t.volatile == []
            && t.durable == w.durable + w.volatile[..Survivors(w, cut[w.db.active])]
  {
    hide Restart;
  }

  lemma FreshPhys(t: World)
    requires Sound(t.db, t.ledger) && Tidy(t.db) && Kept(t.db, t.top) && Recent(t.db) && t.volatile == []
    requires HasActive(t.db) && t.db.synced == |t.db.files[t.db.active].recs|
    ensures Phys(t)
  {
    hide Sound, Tidy, Kept, Recent;
    NothingFlat();
    assert t.db.files[t.db.active].recs[t.db.synced..] == [];
  }

  // --- whole runs --------------------------------------------------------------------------------

  // No step breaks the engine, a restart after any loss included.
  lemma NextPhys(w: World, a: Action)
    requires Phys(w)
    ensures Phys(Next(w, a)) && (!a.Reboot? ==> Keeps(w, Next(w, a)))
  {
    hide Phys, Denotes;
    if Enabled(w, a) {
      match a
      case Put(g, always) => WrittenKeeps(w, g, always);
      case Fsync => FsyncKeeps(w);
      case BuildHint(id) => HintKeeps(w, id);
      case SealActive => SealKeeps(w);
      case CopyNext => CopyKeeps(w);
      case GiveUp => AbortKeeps(w);
      case Drop => DropKeeps(w);
      case Reboot(cut, ids) => RebootKeeps(w, cut, ids);
      case _ => PhasesKeep(w, a);
    }
  }

  lemma PhasesKeep(w: World, a: Action)
    requires Phys(w) && Enabled(w, a)
    requires a.Collect? || a.FsyncOuts? || a.StartRepoint? || a.RepointChunk? || a.StartRetire? || a.RetireChunk?
             || a.Raise?
    ensures Keeps(w, Next(w, a))
  {
    hide Phys, Denotes, Sound, View, Collects;
    PhysParts(w);
    var db := w.db;
    match a
    case Collect(items, retired) =>
      SnapshotSound(db, w.ledger, items, retired);
      PhaseKeeps(w, Snapshot(db, items, retired));
    case FsyncOuts =>
      SyncOutsSound(db, w.ledger);
      PhaseKeeps(w, SyncOuts(db));
    case StartRepoint =>
      BeginRepointSound(db, w.ledger);
      PhaseKeeps(w, BeginRepoint(db));
    case RepointChunk(hi) =>
      RepointSound(db, w.ledger, hi);
      PhaseKeeps(w, Repoint(db, hi));
    case StartRetire =>
      BeginRetireSound(db, w.ledger);
      PhaseKeeps(w, BeginRetire(db));
    case RetireChunk(hi) =>
      RetireSound(db, w.ledger, hi);
      PhaseKeeps(w, Retire(db, hi));
    case Raise =>
      RaiseMarkSound(db, w.ledger);
      PhaseKeeps(w, RaiseMark(db));
  }

  // In memory the engine denotes its history after every step; a restart needs the stable map
  // to be the durable history.
  lemma NextInv(w: World, a: Action)
    requires Inv(w) && (a.Reboot? ==> Safe(w))
    ensures Inv(Next(w, a))
  {
    hide Phys, Denotes, Safe;
    NextPhys(w, a);
    if a.Reboot? && Enabled(w, a) {
      RebootKeeps(w, a.cut, a.ids);
    }
  }

  // No key is exposed by dropping the merged files.
  ghost predicate Unexposed(w: World) { forall k :: !Exposed(w.db, k) }

  // Dropping keeps the stable map equal to the durable history exactly when no key is exposed.
  lemma DropSafe(w: World)
    requires Inv(w) && Safe(w) && w.db.merge.phase == Dropping
    ensures Safe(Next(w, Drop)) <==> Unexposed(w)
  {
    hide Sound, Kept, Recent, Tidy, View, Live, After, Exposed, Dropped;
    PhysActive(w);
    UnlinkKept(w.db, w.ledger, w.top);
    UnlinkKeepsStable(w.db, w.ledger, w.top, Dropped(w.db.merge, w.top));
  }

  lemma ExtendedSafe(w: World, s: seq<Record>)
    requires Inv(w) && Safe(w) && HasActive(w.db) && Numbered(s, w.db.sn)
    ensures Safe(Extended(w, s))
  {
    hide Tidy, Recent, View, After, Enter, Merging, Pointing, Newest, Forgotten, Lifted, Extend;
    var l := Enter(w.ledger, s, w.db.sn);
    var st := Stable(w.db.files, w.db.active, w.db.synced);
    forall k | k in w.top ensures w.top[k] in w.ledger && w.top[k] <= w.db.sn {
      assert Present(st, k, w.top[k]);
      var id, r :| Holds(st, id, r) && r.key == k && r.sn == w.top[k];
      assert Holds(w.db.files, id, r);
    }
    LiveSame(w.top, w.ledger, l);
  }

  lemma LiveSame(top: map<Bytes, nat>, ledger: map<nat, Record>, l: map<nat, Record>)
    requires forall k :: k in top ==> top[k] in ledger && top[k] in l && ledger[top[k]] == l[top[k]]
    ensures Live(top, ledger) == Live(top, l)
  {
  }

  lemma WrittenSafe(w: World, g: seq<Record>, always: bool)
    requires Inv(w) && Safe(w) && Writable(w.db, g)
    ensures HasActive(w.db) && Safe(Written(w, g, always))
  {
    hide Phys, Denotes, Safe, Operation, Extend, Enter, SizeAll, Rotate, Stamp, AllValid;
    PhysActive(w);
    var s := Stamp(g, w.db.sn);
    StampOperation(g, w.db.sn);
    OpenKeeps(w);
    SettleSafe(w, OpenNewActive(w.db));
    var r := if Rotate(w.db, SizeAll(s)) == w.db then w else Settle(w, OpenNewActive(w.db));
    ExtendedKeeps(r, s);
    ExtendedSafe(r, s);
    if always {
      PhysActive(Extended(r, s));
      SettleSafe(Extended(r, s), Sync(Extended(r, s).db));
    }
  }

  lemma NextSafe(w: World, a: Action)
    requires Inv(w) && Safe(w) && (a.Drop? && Enabled(w, a) ==> Unexposed(w))
    ensures Safe(Next(w, a))
  {
    hide Phys, Denotes, Live, After, Unexposed, Writable;
    if Enabled(w, a) {
      match a
      case Put(g, always) => WrittenSafe(w, g, always);
      case Fsync => SettleSafe(w, Sync(w.db));
      case SealActive => SettleSafe(w, Seal(w.db));
      case Drop => DropSafe(w);
      case Reboot(cut, ids) => RebootKeeps(w, cut, ids);
      case _ =>
    }
  }

  ghost function Run(w: World, acts: seq<Action>): World {
    if acts == [] then w else Next(Run(w, acts[..|acts| - 1]), acts[|acts| - 1])
  }

  ghost predicate Uninterrupted(acts: seq<Action>) { forall i :: 0 <= i < |acts| ==> !acts[i].Reboot? }

  // Every run, whatever it loses: every index entry selects the record it claims, in a file
  // that exists.
  lemma {:induction false} RunPhys(w: World, acts: seq<Action>)
    requires Phys(w)
    ensures Phys(Run(w, acts))
    decreases |acts|
  {
    hide Phys, Next;
    if acts != [] {
      RunPhys(w, acts[..|acts| - 1]);
      NextPhys(Run(w, acts[..|acts| - 1]), acts[|acts| - 1]);
    }
  }

  // Whatever interleaves, short of a restart: the engine also denotes exactly the operations
  // acknowledged.
  lemma {:induction false} RunInv(w: World, acts: seq<Action>)
    requires Inv(w) && Uninterrupted(acts)
    ensures Inv(Run(w, acts))
    decreases |acts|
  {
    hide Phys, Denotes, Next;
    if acts != [] {
      RunInv(w, acts[..|acts| - 1]);
      NextInv(Run(w, acts[..|acts| - 1]), acts[|acts| - 1]);
    }
  }

  // Every unlink in the run happens with no key exposed.
  ghost predicate Prudent(w: World, acts: seq<Action>) {
    acts != [] ==>
      && Prudent(w, acts[..|acts| - 1])
      && var v := Run(w, acts[..|acts| - 1]);
      (acts[|acts| - 1].Drop? && Enabled(v, Drop) ==> Unexposed(v))
  }

  // With crashes and restarts anywhere outside the unlink: the engine always denotes its
  // history, and the disk always denotes the durable part of it.
  lemma {:induction false} RunSafe(w: World, acts: seq<Action>)
    requires Inv(w) && Safe(w) && Prudent(w, acts)
    ensures Inv(Run(w, acts)) && Safe(Run(w, acts))
    decreases |acts|
  {
    hide Phys, Denotes, Safe, Next, Enabled, Unexposed;
    if acts != [] {
      var v := Run(w, acts[..|acts| - 1]);
      RunSafe(w, acts[..|acts| - 1]);
      NextInv(v, acts[|acts| - 1]);
      NextSafe(v, acts[|acts| - 1]);
    }
  }

  // --- what a crash costs --------------------------------------------------------------------------

  // A volatile operation survives exactly when its last byte lies within the cut.
  lemma SurvivorsLargest(w: World, n: nat, j: nat)
    requires Inv(w) && j <= |w.volatile|
    requires HasActive(w.db) && w.db.synced <= |w.db.files[w.db.active].recs|
    requires SizeAll(w.db.files[w.db.active].recs[..w.db.synced]) <= n
    ensures |Flat(w.volatile[..j])| <= |w.db.files[w.db.active].recs| - w.db.synced
    ensures j <= Survivors(w, n) <==>
            SizeAll(w.db.files[w.db.active].recs[..w.db.synced + |Flat(w.volatile[..j])|]) <= n
  {
    hide Sound, Kept, Recent, View, After, Tidy, Fit, Whole, Flat, SizeAll, Operations;
    var rs := w.db.files[w.db.active].recs;
    FlatPrefix(w.volatile, j);
    var k := Fit(rs, n);
    var m := w.db.synced + |Flat(w.volatile[..j])|;
    assert w.db.synced <= k;
    WholeLargest(w.volatile, k - w.db.synced, j);
    if m <= k {
      PrefixSize(rs, m, k);
    }
    if j == 0 {
      NothingFlat();
      assert w.volatile[..0] == [];
    }
  }

  // A crash just after the unlink that leaves nothing of the unsynced file.
  ghost predicate CrashAfterDrop(w: World, cut: map<nat, nat>, ids: seq<nat>) {
    var v := Next(w, Drop);
    HasActive(v.db) && v.db.active == w.db.active && CanReboot(v.db, cut, ids) && Survivors(v, cut[v.db.active]) == 0
  }

  // A crash right after an unlink that exposed a key loses that key: the durable history
  // holds it, the recovered engine does not.
  lemma ExposedIsLost(w: World, k: Bytes, cut: map<nat, nat>, ids: seq<nat>)
    requires Inv(w) && Safe(w) && w.db.merge.phase == Dropping && Exposed(w.db, k)
    requires CrashAfterDrop(w, cut, ids)
    ensures k in After(w.durable)
    ensures k !in View(Rebooted(Next(w, Drop), cut, ids).db.index, w.ledger)
  {
    hide Phys, Denotes, After, View, Rebooted, CanReboot, Survivors, Tomb, Exposed, Sound, Tidy, Kept, Recent;
    var v := Next(w, Drop);
    PhysActive(w);
    PhysParts(w);
    ExposedIsShed(w.db, w.ledger, w.top, k);
    DropKeeps(w);
    RebootView(v, cut, ids);
    NothingFlat();
    assert v.volatile[..0] == [];
    FoldNone(Live(v.top, v.ledger));
    assert k in Live(w.top, w.ledger) && k !in Live(v.top, v.ledger);
  }

  // --- SyncAlways -------------------------------------------------------------------------------

  ghost predicate AlwaysSynced(acts: seq<Action>) { forall i :: 0 <= i < |acts| && acts[i].Put? ==> acts[i].always }

  lemma NextAlways(w: World, a: Action)
    requires Inv(w) && w.volatile == [] && (a.Put? ==> a.always)
    ensures Next(w, a).volatile == [] && w.durable <= Next(w, a).durable
    ensures a.Put? && Enabled(w, a) ==> Next(w, a).durable == w.durable + [Stamp(a.g, w.db.sn)]
    ensures a.Drop? && Enabled(w, a) ==> Unexposed(w)
  {
    hide Sound, Tidy, Recent, View, After, Extend, Enter, Stamp, Tops, SizeAll, Rotate, Restart;
    if Enabled(w, a) {
      if a.Drop? {
        PhysActive(w);
        var rs := w.db.files[w.db.active].recs;
        NothingFlat();
        assert |rs[w.db.synced..]| == |rs| - w.db.synced;
        SyncedIsSafe(w.db, w.ledger);
      } else if a.Put? {
        PutAlways(w, a.g);
      } else if a.Reboot? {
        assert w.volatile[..Survivors(w, a.cut[w.db.active])] == [];
      }
    }
  }

  lemma PutAlways(w: World, g: seq<Record>)
    requires HasActive(w.db) && w.volatile == []
    ensures Written(w, g, true).volatile == [] && Written(w, g, true).durable == w.durable + [Stamp(g, w.db.sn)]
  {
    hide Extend, Enter, Tops, SizeAll, Rotate;
  }

  // When every write is synced before it is acknowledged, no run of crashes, merges and
  // restarts ever takes an acknowledged operation back.
  lemma {:induction false} NothingAcknowledgedIsLost(w: World, acts: seq<Action>)
    requires Inv(w) && Safe(w) && w.volatile == [] && AlwaysSynced(acts)
    ensures var v := Run(w, acts);
            && Inv(v) && Safe(v) && v.volatile == [] && w.durable <= v.durable
            && View(v.db.index, v.ledger) == After(v.durable)
    decreases |acts|
  {
    hide Phys, Denotes, Safe, Next, Enabled, Unexposed, View, After;
    if acts != [] {
      var v, a := Run(w, acts[..|acts| - 1]), acts[|acts| - 1];
      NothingAcknowledgedIsLost(w, acts[..|acts| - 1]);
      NextAlways(v, a);
      NextInv(v, a);
      NextSafe(v, a);
    }
    InvDenotes(Run(w, acts));
  }

  lemma InvDenotes(w: World)
    requires Inv(w)
    ensures View(w.db.index, w.ledger) == After(w.durable + w.volatile)
    ensures w.volatile == [] ==> View(w.db.index, w.ledger) == After(w.durable)
  {
    hide Sound, Tidy, Kept, Recent, View, After;
    assert w.volatile == [] ==> w.durable + w.volatile == w.durable;
  }
}
