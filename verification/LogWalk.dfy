/** Scanning the log for a follower, file by file, while the leader keeps writing, rotating
    and merging. */
module LogWalk {
  import opened Records
  import opened Log
  import opened Engine
  import opened Invariant
  import opened Writing
  import opened Compaction
  import opened Durability
  import opened Runs
  import opened LogReplay
  import opened Versions
  import opened Following
  import Recovery

  // One file, as it is when its turn comes. A file that is gone is skipped.
  function ReadFile(fs: Files, id: nat, from: nat): seq<Record> {
    if id in fs then Above(FoundIn(fs[id]), from) else []
  }

  // A walk in progress: the leader now, and what has been emitted.
  datatype Walk = Walk(w: World, out: seq<Record>)

  // The files listed at the start, one after the other. Before each the leader takes some steps.
  ghost function Walked(w: World, ids: seq<nat>, gaps: seq<seq<Action>>, from: nat, n: nat): Walk
    requires n <= |ids| == |gaps|
  {
    if n == 0 then Walk(w, [])
    else
      var p := Walked(w, ids, gaps, from, n - 1);
      var x := Run(p.w, gaps[n - 1]);
      Walk(x, p.out + ReadFile(x.db.files, ids[n - 1], from))
  }

  ghost predicate AllUninterrupted(gaps: seq<seq<Action>>) { forall i :: 0 <= i < |gaps| ==> Uninterrupted(gaps[i]) }

  // --- what has become of the files listed at the start ---------------------------------------------

  ghost predicate Rooted(db: Db) {
    && HasActive(db) && db.active !in db.merge.outs
    && (forall id :: id in db.files ==> id < db.nextID)
    && (forall id :: id in db.merge.outs ==> id < db.nextID)
  }

  // Untouched, or unlinked by a merge whose watermark passed everything in it.
  ghost predicate Frozen(f: File, db: Db, id: nat) {
    if id in db.files then db.files[id] == f else forall r :: r in f.recs ==> r.sn <= db.mergeSn
  }

  // The file that was active has grown by the next stretch of the history, and by all of it
  // while it is still active.
  ghost predicate Lengthened(rs: seq<Record>, h: seq<Record>, v: World, id: nat) {
    var gs := v.db.files;
    if id !in gs then forall r :: r in rs ==> r.sn <= v.db.mergeSn
    else
      && rs <= gs[id].recs && h + gs[id].recs[|rs|..] <= History(v)
      && (v.db.active == id ==> h + gs[id].recs[|rs|..] == History(v))
  }

  ghost predicate Trails(w: World, v: World) {
    var a, d := w.db, v.db;
    && a.nextID <= d.nextID && a.mergeSn <= d.mergeSn && History(w) <= History(v)
    && (d.active == a.active || a.nextID <= d.active)
    && (forall o :: o in d.merge.outs ==> a.nextID <= o || (o in a.merge.outs && d.merge.barrier == a.merge.barrier))
    && (forall id :: id in a.files && id != a.active && id !in a.merge.outs ==> Frozen(a.files[id], d, id))
    && (a.active in a.files ==> Lengthened(a.files[a.active].recs, History(w), v, a.active))
    && (forall o, r :: o in a.merge.outs && Holds(d.files, o, r) ==> r.sn <= a.merge.barrier)
  }

  lemma RootedOf(w: World)
    requires Phys(w)
    ensures Rooted(w.db)
    ensures forall id, r :: Holds(w.db.files, id, r) && id in w.db.merge.outs ==> r.sn <= w.db.merge.barrier
  {
    hide Phys, Sound;
    PhysParts(w);
    PhysActive(w);
    BelowNextID(w.db, w.ledger);
    ActiveApart(w.db, w.ledger);
    MergedSpent(w.db, w.ledger);
  }

  lemma TrailsSelf(w: World)
    requires Phys(w)
    ensures Trails(w, w)
  {
    hide Phys, History;
    RootedOf(w);
    var rs := w.db.files[w.db.active].recs;
    assert rs[|rs|..] == [];
    assert History(w) + [] == History(w);
  }

  // A step that leaves files and history alone.
  lemma TrailsAside(w: World, v: World, x: World)
    requires Trails(w, v) && History(x) == History(v) && x.db.files == v.db.files && v.db.mergeSn <= x.db.mergeSn
    requires x.db.active == v.db.active && x.db.nextID == v.db.nextID
    requires x.db.merge.outs == [] || (x.db.merge.outs == v.db.merge.outs && x.db.merge.barrier == v.db.merge.barrier)
    ensures Trails(w, x)
  {
    hide History;
  }

  lemma TrailsOpen(w: World, v: World, x: World)
    requires Trails(w, v) && Rooted(w.db) && History(x) == History(v) && x.db.mergeSn == v.db.mergeSn
    requires x.db.files == OpenNewActive(v.db).files && x.db.active == v.db.nextID && x.db.nextID == v.db.nextID + 1
    requires x.db.merge.outs == [] || x.db.merge == v.db.merge
    ensures Trails(w, x)
  {
    hide History;
  }

  lemma ExtendedHistory(v: World, s: seq<Record>)
    requires HasActive(v.db) && Numbered(s, v.db.sn)
    ensures History(Extended(v, s)) == History(v) + s
  {
    hide Flat, Enter, Extend;
    FlatConcat(v.durable + v.volatile, [s]);
    FlatOne(s);
    assert v.durable + (v.volatile + [s]) == (v.durable + v.volatile) + [s];
  }

  lemma TrailsExtend(w: World, v: World, s: seq<Record>)
    requires Trails(w, v) && Rooted(w.db) && HasActive(v.db) && Numbered(s, v.db.sn)
    ensures Trails(w, Extended(v, s))
  {
    hide History, Enter, Replay;
    var a, x := w.db.active, Extended(v, s);
    ExtendedHistory(v, s);
    if v.db.active == a {
      var r, q, h := w.db.files[a].recs, v.db.files[a].recs, History(w);
      assert (q + s)[|r|..] == q[|r|..] + s;
      assert h + (q[|r|..] + s) == (h + q[|r|..]) + s;
    }
  }

  lemma TrailsWritten(w: World, v: World, g: seq<Record>, always: bool)
    requires Trails(w, v) && Rooted(w.db) && HasActive(v.db)
    ensures Trails(w, Written(v, g, always))
  {
    hide Trails, Rooted, Extend, Enter, SizeAll, Rotate, Stamp, Flat, Tops;
    var s := Stamp(g, v.db.sn);
    var o := Settle(v, OpenNewActive(v.db));
    SettleHistory(v, OpenNewActive(v.db));
    TrailsOpen(w, v, o);
    var r := if Rotate(v.db, SizeAll(s)) == v.db then v else o;
    TrailsExtend(w, r, s);
    var e := Extended(r, s);
    StaysActive(r.db, s);
    SettleHistory(e, Sync(e.db));
    TrailsAside(w, e, Settle(e, Sync(e.db)));
  }

  lemma TrailsSeal(w: World, v: World)
    requires Trails(w, v) && Rooted(w.db) && Phys(v) && v.db.merge.phase == Idle
    ensures Trails(w, Runs.Next(v, SealActive))
  {
    hide Trails, Rooted, Phys, Sound, Runs.Next, Seal, FileSize, History;
    PhysActive(v);
    PhysParts(v);
    NoMerge(v.db, v.ledger);
    SealShape(v);
    var x := Runs.Next(v, SealActive);
    NextHistory(v, SealActive);
    if FileSize(v.db.files[v.db.active]) > 0 {
      TrailsOpen(w, v, x);
    } else {
      TrailsAside(w, v, x);
    }
  }

  lemma SealShape(v: World)
    requires HasActive(v.db) && v.db.merge == NO_MERGE
    ensures var d, x := v.db, Runs.Next(v, SealActive).db;
            && x.mergeSn == d.mergeSn && x.merge.outs == []
            && (if FileSize(d.files[d.active]) > 0 then
                  x.files == OpenNewActive(d).files && x.active == d.nextID && x.nextID == d.nextID + 1
                else x.files == d.files && x.active == d.active && x.nextID == d.nextID)
  {
    hide Tops, SizeAll;
  }

  lemma TrailsCopy(w: World, v: World)
    requires Trails(w, v) && Rooted(w.db) && Phys(v) && v.db.merge.phase == Copying
    requires |v.db.merge.moved| < |v.db.merge.items|
    ensures Trails(w, v.(db := Copy(v.db)))
  {
    hide Trails, Phys, Sound, Copy, Points, Tomb, Flat, Size, FileSize, CopiedTo;
    PhysParts(v);
    var r := NextItem(v.db, v.ledger);
    var out := CopyTarget(v.db, v.ledger, r);
    MergedSpent(v.db, v.ledger);
    TrailsCopied(w, v, out, Lifted(r), Copy(v.db));
  }

  lemma TrailsCopied(w: World, v: World, out: nat, l: Record, d: Db)
    requires Trails(w, v) && Rooted(w.db) && CopiedTo(v.db, out, l, d) && l.sn <= v.db.merge.barrier
    ensures Trails(w, v.(db := d))
  {
    hide Flat, Size, FileSize;
    var x := v.(db := d);
    assert History(x) == History(v);
    forall o, r | o in w.db.merge.outs && Holds(d.files, o, r) ensures r.sn <= w.db.merge.barrier {
      if !Holds(v.db.files, o, r) {
        assert o == out && r == l;
      }
    }
  }

  lemma TrailsAbort(w: World, v: World)
    requires Trails(w, v) && Rooted(w.db) && HasActive(v.db) && v.db.active !in v.db.merge.outs
    ensures Trails(w, v.(db := Abort(v.db)))
  {
    hide Flat;
    var x := v.(db := Abort(v.db));
    assert History(x) == History(v);
    forall o, r | o in w.db.merge.outs && Holds(x.db.files, o, r) ensures r.sn <= w.db.merge.barrier {
      assert Holds(v.db.files, o, r);
    }
  }

  lemma TrailsDrop(w: World, v: World)
    requires Trails(w, v) && Rooted(w.db) && v.db.active !in v.db.merge.ids && v.db.mergeSn == v.db.merge.barrier
    requires forall id, r :: Holds(v.db.files, id, r) && id in v.db.merge.ids ==> r.sn <= v.db.merge.barrier
    ensures Trails(w, v.(db := Unlink(v.db), top := Dropped(v.db.merge, v.top)))
  {
    hide Flat, Dropped;
    var x := v.(db := Unlink(v.db), top := Dropped(v.db.merge, v.top));
    assert History(x) == History(v);
    var a := w.db;
    forall id | id in a.files && id != a.active && id !in a.merge.outs ensures Frozen(a.files[id], x.db, id) {
      assert Frozen(a.files[id], v.db, id);
      assert forall r :: r in a.files[id].recs && id in v.db.files ==> Holds(v.db.files, id, r);
    }
    assert a.active in v.db.files ==> forall r :: r in a.files[a.active].recs ==> Holds(v.db.files, a.active, r);
    forall o, r | o in a.merge.outs && Holds(x.db.files, o, r) ensures r.sn <= a.merge.barrier {
      assert Holds(v.db.files, o, r);
    }
  }

  lemma DropTrails(w: World, v: World)
    requires Trails(w, v) && Rooted(w.db) && Phys(v) && Logged(v) && v.db.merge.phase == Dropping
    ensures Trails(w, Runs.Next(v, Drop))
  {
    hide Trails, Rooted, Phys, Sound, Logged, Dropped;
    PhysParts(v);
    PhysActive(v);
    LoggedMarked(v);
    MergedSpent(v.db, v.ledger);
    ApartFromActive(v.db, v.ledger);
    TrailsDrop(w, v);
  }

  lemma NextTrails(w: World, v: World, a: Action)
    requires Trails(w, v) && Rooted(w.db) && Phys(v) && Logged(v) && !a.Reboot?
    ensures Trails(w, Runs.Next(v, a))
  {
    hide Trails, Rooted, Phys, Sound, Logged, Written, Copy, Abort, Unlink, Seal, Collects, RepointTo, RetireTo,
         Dropped;
    if Enabled(v, a) {
      match a
      case Put(g, always) => TrailsWritten(w, v, g, always);
      case Fsync => SettleHistory(v, Sync(v.db)); TrailsAside(w, v, Runs.Next(v, a));
      case SealActive => TrailsSeal(w, v);
      case CopyNext => TrailsCopy(w, v);
      case GiveUp =>
        PhysParts(v);
        ApartFromActive(v.db, v.ledger);
        TrailsAbort(w, v);
      case Drop => DropTrails(w, v);
      case _ => PhaseTrails(w, v, a);
    }
  }

  lemma PhaseTrails(w: World, v: World, a: Action)
    requires Trails(w, v) && Logged(v) && Enabled(v, a)
    requires a.BuildHint? || a.Collect? || a.FsyncOuts? || a.StartRepoint? || a.RepointChunk? || a.StartRetire?
             || a.RetireChunk? || a.Raise?
    ensures Trails(w, Runs.Next(v, a))
  {
    hide Trails, Logged, Collects, RepointTo, RetireTo, OutSet, Immutable, Flat;
    LoggedMarked(v);
    var x := Runs.Next(v, a);
    assert History(x) == History(v);
    TrailsAside(w, v, x);
  }

  lemma {:induction false} RunTrails(w: World, v: World, acts: seq<Action>)
    requires Trails(w, v) && Rooted(w.db) && Phys(v) && Known(v) && Uninterrupted(acts)
    ensures Trails(w, Run(v, acts))
    decreases |acts|
  {
    hide Trails, Rooted, Phys, Logged, Runs.Next;
    if acts != [] {
      var init := acts[..|acts| - 1];
      RunTrails(w, v, init);
      RunKnown(v, init);
      NextTrails(w, Run(v, init), acts[|acts| - 1]);
    }
  }

  // --- what the walk emits ----------------------------------------------------------------------------

  lemma {:induction false} TailPrefix(fs: Files, outs: set<nat>, lo: nat, hi: nat, from: nat)
    requires lo <= hi
    ensures Tail(fs, outs, lo, from) <= Tail(fs, outs, hi, from)
    decreases hi - lo
  {
    hide Part;
    if lo < hi {
      TailPrefix(fs, outs, lo, hi - 1, from);
    }
  }

  // What the files below n hold of the history after a position.
  ghost function Base(w: World, n: nat, from: nat): seq<Record> { Tail(w.db.files, OutSet(w.db.merge.outs), n, from) }

  lemma BaseWhole(w: World, from: nat)
    requires Logged(w) && w.db.mergeSn <= from <= w.db.sn
    ensures |History(w)| == w.db.sn && Base(w, w.db.nextID, from) == History(w)[from..]
  {
    hide Tail, Above, Spent, Flat, OutSet;
    TailTwice(w.db.files, OutSet(w.db.merge.outs), w.db.nextID, w.db.mergeSn, from);
    CountedAbove(History(w), w.db.sn, w.db.mergeSn, from);
  }

  lemma BaseStretch(w: World, n: nat, from: nat)
    requires Logged(w) && w.db.mergeSn <= from <= w.db.sn && n <= w.db.nextID
    ensures var b := Base(w, n, from); from + |b| <= |History(w)| && b == History(w)[from..from + |b|]
  {
    hide Tail, Logged, History;
    BaseWhole(w, from);
    TailPrefix(w.db.files, OutSet(w.db.merge.outs), n, w.db.nextID, from);
    var b, h := Base(w, n, from), History(w);
    assert b == h[from..][..|b|];
  }

  // Above the active file there is nothing left to find.
  lemma BaseActive(w: World, from: nat, n: nat)
    requires Logged(w) && Rooted(w.db) && w.db.mergeSn <= from <= w.db.sn && w.db.active < n <= w.db.nextID
    ensures Base(w, n, from) == History(w)[from..]
    decreases w.db.nextID - n
  {
    hide Tail, History, Part, Marked, Untorn, Counted;
    var db, outs := w.db, OutSet(w.db.merge.outs);
    if n == db.nextID {
      BaseWhole(w, from);
    } else {
      BaseActive(w, from, n + 1);
      RaiseSpent(db.files, outs, db.active, db.mergeSn, from);
      SpentParts(db.files, outs, db.active, from, n);
      TailNext(db.files, outs, n, from);
    }
  }

  lemma TailNext(fs: Files, outs: set<nat>, n: nat, from: nat)
    requires Part(fs, outs, n, from) == []
    ensures Tail(fs, outs, n + 1, from) == Tail(fs, outs, n, from)
  {
    hide Part;
  }

  // Where the walk stands after n files: nothing is missing, and it has come as far as the
  // files behind it went. Without a merge's outputs among them it is in order, too.
  ghost predicate Abreast(w: World, p: Walk, ids: seq<nat>, from: nat, n: nat)
    requires n <= |ids|
  {
    var reach, top := Reached(ids, n), HighestAll(from, p.out);
    && Phys(p.w) && Known(p.w) && Trails(w, p.w) && Gapless(p.out, History(p.w), from)
    && (if reach <= w.db.active then top == from + |Base(w, reach, from)| else |History(w)| <= top)
    && from <= top <= |History(p.w)| && (w.db.merge.outs == [] ==> p.out == History(p.w)[from..top])
  }

  lemma GapAbreast(w: World, p: Walk, ids: seq<nat>, from: nat, n: nat, gap: seq<Action>)
    requires n <= |ids| && Abreast(w, p, ids, from, n) && Rooted(w.db) && Uninterrupted(gap)
    ensures Abreast(w, Walk(Run(p.w, gap), p.out), ids, from, n)
  {
    hide Phys, Known, Trails, Rooted, History, Gapless, Base, HighestAll;
    RunKnown(p.w, gap);
    RunTrails(w, p.w, gap);
    RunHistory(p.w, gap);
    GaplessGrows(p.out, History(p.w), History(Run(p.w, gap)), from);
  }

  lemma ReadWhole(v: World, id: nat, from: nat)
    requires Phys(v) && Logged(v)
    ensures ReadFile(v.db.files, id, from) == if id in v.db.files then Above(v.db.files[id].recs, from) else []
  {
    hide Phys, Sound, Above, FoundIn, History, Tail, Spent, Counted;
    PhysParts(v);
    if id in v.db.files {
      FoundWhole(v.db, v.ledger, id);
    }
  }

  lemma AboveEach(rs: seq<Record>, from: nat)
    ensures forall c :: 0 <= c < |Above(rs, from)| ==> Above(rs, from)[c] in rs && Above(rs, from)[c].sn > from
  {
    if rs != [] {
      AboveEach(rs[..|rs| - 1], from);
    }
  }

  // Everything on disk is a copy of a record of the history.
  lemma HeldEchoes(v: World, id: nat, r: Record)
    requires Phys(v) && Known(v) && Holds(v.db.files, id, r) && 0 < r.sn
    ensures Echoes(r, History(v))
  {
    hide Phys, Logged, Lifted, Sound, History, Bounded, Latest;
    PhysParts(v);
    var h := History(v);
    LoggedCounted(v);
    HeldNumber(v.db, v.ledger, id, r);
    assert RecordedAt(v.ledger, r.sn - 1 + 1, h[r.sn - 1]);
    SameVersion(r, h[r.sn - 1]);
  }

  lemma HeldNumber(db: Db, ledger: map<nat, Record>, id: nat, r: Record)
    requires Sound(db, ledger) && Holds(db.files, id, r)
    ensures r.sn <= db.sn && r.sn in ledger && ledger[r.sn] == Lifted(r)
  {
    hide Shaped, Pointing, Invariant.Newest, Merging, Lifted;
  }

  lemma SameVersion(r: Record, q: Record)
    requires Lifted(r) == Lifted(q)
    ensures r.key == q.key && VersionOf(r) == VersionOf(q)
  {
  }

  // --- reading one file ---------------------------------------------------------------------------------

  // An output of a merge in flight: copies of what the files before it held.
  lemma ReadOutput(w: World, p: Walk, ids: seq<nat>, from: nat, n: nat)
    requires Phys(w) && Logged(w) && w.db.mergeSn <= from <= w.db.sn && Recovery.Listing(ids, w.db.files.Keys)
    requires n < |ids|
    requires Abreast(w, p, ids, from, n) && ids[n] in w.db.merge.outs
    ensures Abreast(w, Walk(p.w, p.out + ReadFile(p.w.db.files, ids[n], from)), ids, from, n + 1)
  {
    hide Phys, Known, History, Gapless, Base, HighestAll, ReadFile, Above, Echoes, Logged, Rooted, Reached;
    var v, id, e := p.w, ids[n], ReadFile(p.w.db.files, ids[n], from);
    KnownLogged(v);
    ReadWhole(v, id, from);
    OutputCovered(w, ids, from, n);
    forall c | 0 <= c < |e| ensures Echoes(e[c], History(v)) && from < e[c].sn <= HighestAll(from, p.out) {
      AboveEach(v.db.files[id].recs, from);
      assert Holds(v.db.files, id, e[c]);
      HeldEchoes(v, id, e[c]);
    }
    GaplessAgain(p.out, History(v), from, e);
  }

  // Whatever is at or below the barrier and after the position is in a file before the output,
  // and moving past the output changes nothing.
  lemma OutputCovered(w: World, ids: seq<nat>, from: nat, n: nat)
    requires Phys(w) && Logged(w) && w.db.mergeSn <= from <= w.db.sn && Recovery.Listing(ids, w.db.files.Keys)
    requires n < |ids|
    requires ids[n] in w.db.merge.outs
    ensures from < w.db.merge.barrier ==> w.db.merge.barrier <= from + |Base(w, Reached(ids, n), from)|
    ensures Base(w, Reached(ids, n + 1), from) == Base(w, Reached(ids, n), from)
    ensures |History(w)| >= from + |Base(w, Reached(ids, n), from)|
    ensures Reached(ids, n + 1) <= w.db.active <==> Reached(ids, n) <= w.db.active
  {
    hide Phys, History, Tail, Logged, Sound, Above;
    var o := ids[n];
    RootedOf(w);
    ReachedFirst(w.db.files, ids, n);
    TailTo(w.db.files, OutSet(w.db.merge.outs), ids, n, from);
    BaseStretch(w, Reached(ids, n), from);
    if from < w.db.merge.barrier {
      BarrierCovered(w, ids, from, n);
    }
  }

  lemma BarrierCovered(w: World, ids: seq<nat>, from: nat, n: nat)
    requires Phys(w) && Logged(w) && w.db.mergeSn <= from < w.db.merge.barrier && Recovery.Listing(ids, w.db.files.Keys)
    requires n < |ids| && ids[n] in w.db.merge.outs
    ensures w.db.merge.barrier <= from + |Base(w, Reached(ids, n), from)|
  {
    hide Phys, History, Logged, Sound, Tail, OutSet, Reached, Part, Counted, Recovery.Listing, Above;
    PhysParts(w);
    BarrierPassed(w.db, w.ledger);
    LoggedMarked(w);
    LoggedCounted(w);
    RootedOf(w);
    ReachedFirst(w.db.files, ids, n);
    BaseWhole(w, from);
    var h, b := History(w), w.db.merge.barrier;
    var r, reach := h[b - 1], Reached(ids, n);
    CountedNumber(h, w.db.sn, b - 1);
    assert r == h[from..][b - 1 - from];
    var id := TailFile(w.db.files, OutSet(w.db.merge.outs), w.db.nextID, from, r);
    BelowBarrier(w.db, w.ledger, id, r);
    PartInTail(w.db.files, OutSet(w.db.merge.outs), id, reach, from, r);
    BaseStretch(w, reach, from);
    NumberWithin(h, w.db.sn, from, from + |Base(w, reach, from)|, r);
  }

  lemma CountedNumber(h: seq<Record>, sn: nat, i: nat)
    requires Counted(h, sn) && i < sn
    ensures i < |h| && h[i].sn == i + 1
  {
  }

  lemma NumberWithin(h: seq<Record>, sn: nat, from: nat, n: nat, r: Record)
    requires Counted(h, sn) && from <= n <= |h| && r in h[from..n]
    ensures r.sn <= n
  {
  }

  lemma BelowBarrier(db: Db, ledger: map<nat, Record>, id: nat, r: Record)
    requires Sound(db, ledger) && Holds(db.files, id, r) && r.sn <= db.merge.barrier && id !in OutSet(db.merge.outs)
    requires db.merge.outs != []
    ensures id in db.merge.ids
  {
    hide Shaped, Bounded, Ledgered, Pointing, Invariant.Newest, Forgotten, Collected, Moved, OnlyCopies, Awaiting,
         Untouched, Progress;
  }

  lemma {:induction false} PartInTail(fs: Files, outs: set<nat>, id: nat, n: nat, from: nat, r: Record)
    requires id < n && r in Part(fs, outs, id, from)
    ensures r in Tail(fs, outs, n, from)
  {
    hide Part;
    if id != n - 1 {
      PartInTail(fs, outs, id, n - 1, from, r);
    }
  }

  // The file is still there, or had nothing above the position.
  ghost predicate Unspoilt(w: World, v: World, id: nat, from: nat) {
    id in v.db.files || (id in w.db.files && Above(w.db.files[id].recs, from) == [])
  }

  // A file that was closed at the start: the next stretch of the history.
  lemma ReadClosed(w: World, p: Walk, ids: seq<nat>, from: nat, n: nat)
    requires Phys(w) && Logged(w) && w.db.mergeSn <= from <= w.db.sn && Recovery.Listing(ids, w.db.files.Keys)
    requires n < |ids|
    requires Abreast(w, p, ids, from, n) && ids[n] !in w.db.merge.outs && ids[n] != w.db.active
    requires Unspoilt(w, p.w, ids[n], from)
    ensures Abreast(w, Walk(p.w, p.out + ReadFile(p.w.db.files, ids[n], from)), ids, from, n + 1)
  {
    hide Phys, Known, History, Gapless, HighestAll, ReadFile, Above, Logged, Reached, Tail;
    var v, id, e := p.w, ids[n], ReadFile(p.w.db.files, ids[n], from);
    KnownLogged(v);
    ReadWhole(v, id, from);
    FrozenRead(w, v, id, from);
    RootedOf(w);
    ClosedFile(w, ids, from, n);
    if id < w.db.active {
      BaseStretch(w, Reached(ids, n), from);
      BaseStretch(w, Reached(ids, n + 1), from);
      NextStretch(History(w), History(v), from, Base(w, Reached(ids, n), from), e);
    }
    Advance(w, p, ids, from, n, e);
  }

  lemma NextStretch(h: seq<Record>, g: seq<Record>, from: nat, b: seq<Record>, e: seq<Record>)
    requires h <= g && from + |b + e| <= |h| && b + e == h[from..from + |b + e|]
    ensures e == g[from + |b|..from + |b| + |e|]
  {
    assert e == (b + e)[|b|..];
  }

  lemma FrozenRead(w: World, v: World, id: nat, from: nat)
    requires Trails(w, v) && id in w.db.files && id != w.db.active && id !in w.db.merge.outs && Unspoilt(w, v, id, from)
    ensures (if id in v.db.files then Above(v.db.files[id].recs, from) else []) == Above(w.db.files[id].recs, from)
  {
    hide Above, Lengthened, History;
    assert Frozen(w.db.files[id], v.db, id);
  }

  lemma ClosedFile(w: World, ids: seq<nat>, from: nat, n: nat)
    requires Logged(w) && Rooted(w.db) && w.db.mergeSn <= from && Recovery.Listing(ids, w.db.files.Keys) && n < |ids|
    requires ids[n] !in w.db.merge.outs && ids[n] != w.db.active
    ensures Base(w, Reached(ids, n + 1), from) == Base(w, Reached(ids, n), from) + Above(w.db.files[ids[n]].recs, from)
    ensures Reached(ids, n) <= Reached(ids, n + 1) <= w.db.nextID
    ensures Reached(ids, n + 1) <= w.db.active <==> Reached(ids, n) <= w.db.active
    ensures ids[n] < w.db.active <==> Reached(ids, n) <= w.db.active
    ensures w.db.active < ids[n] ==> Above(w.db.files[ids[n]].recs, from) == []
  {
    hide Tail, History, Above, Counted, Marked, Untorn;
    var db, outs := w.db, OutSet(w.db.merge.outs);
    ReachedFirst(db.files, ids, n);
    TailTo(db.files, outs, ids, n, from);
    if db.active < ids[n] {
      RaiseSpent(db.files, outs, db.active, db.mergeSn, from);
      SpentParts(db.files, outs, db.active, from, ids[n]);
    }
  }

  // The file that was active: the rest of the history as it was, and what was appended since.
  lemma ReadActive(w: World, p: Walk, ids: seq<nat>, from: nat, n: nat)
    requires Phys(w) && Logged(w) && w.db.mergeSn <= from <= w.db.sn && Recovery.Listing(ids, w.db.files.Keys)
    requires n < |ids|
    requires Abreast(w, p, ids, from, n) && ids[n] == w.db.active && Unspoilt(w, p.w, ids[n], from)
    ensures Abreast(w, Walk(p.w, p.out + ReadFile(p.w.db.files, ids[n], from)), ids, from, n + 1)
  {
    hide Phys, Known, History, Gapless, HighestAll, ReadFile, Logged, Base, Trails, Counted;
    var v, top, e := p.w, HighestAll(from, p.out), ReadFile(p.w.db.files, ids[n], from);
    RootedOf(w);
    ActivePart(w, ids, from, n);
    KnownLogged(v);
    ActiveEmits(w, v, ids, from, n);
    Advance(w, p, ids, from, n, e);
  }

  lemma ActiveEmits(w: World, v: World, ids: seq<nat>, from: nat, n: nat)
    requires Phys(w) && Logged(w) && w.db.mergeSn <= from <= w.db.sn && Recovery.Listing(ids, w.db.files.Keys)
    requires n < |ids|
    requires Phys(v) && Logged(v) && Trails(w, v) && ids[n] == w.db.active && Unspoilt(w, v, ids[n], from)
    ensures var e, top, g := ReadFile(v.db.files, ids[n], from), from + |Base(w, Reached(ids, n), from)|, History(v);
            |History(w)| <= top + |e| <= |g| && e == g[top..top + |e|]
  {
    hide Phys, History, ReadFile, Above, Logged, Base, Trails, Counted;
    var e, h, g, b := ReadFile(v.db.files, ids[n], from), History(w), History(v), Base(w, Reached(ids, n), from);
    ReadWhole(v, ids[n], from);
    RootedOf(w);
    LoggedCounted(w);
    LoggedCounted(v);
    CountedLength(h, w.db.sn);
    CountedLength(g, v.db.sn);
    ActivePart(w, ids, from, n);
    GrownRead(w, v, from);
    WholeStretch(h, g, from, b, Above(w.db.files[ids[n]].recs, from), e);
  }

  lemma CountedLength(h: seq<Record>, sn: nat)
    requires Counted(h, sn)
    ensures |h| == sn
  {
  }

  // The next stretch of the history is emitted.
  lemma Advance(w: World, p: Walk, ids: seq<nat>, from: nat, n: nat, e: seq<Record>)
    requires n < |ids| && Abreast(w, p, ids, from, n) && Counted(History(p.w), |History(p.w)|)
    requires var top, h := HighestAll(from, p.out), History(p.w); top + |e| <= |h| && e == h[top..top + |e|]
    requires var to, reach := HighestAll(from, p.out) + |e|, Reached(ids, n + 1);
             if reach <= w.db.active then to == from + |Base(w, reach, from)| else |History(w)| <= to
    ensures Abreast(w, Walk(p.w, p.out + e), ids, from, n + 1)
  {
    hide Phys, Known, History, Gapless, HighestAll, Base, Trails, Counted, Reached;
    var top, h := HighestAll(from, p.out), History(p.w);
    GaplessStretch(p.out, h, from, top + |e|);
    assert h[from..top] + h[top..top + |e|] == h[from..top + |e|];
  }

  lemma WholeStretch(h: seq<Record>, g: seq<Record>, from: nat, b: seq<Record>, a: seq<Record>, e: seq<Record>)
    requires from <= |h| && b + a == h[from..] && a <= e && h + e[|a|..] <= g
    ensures |h| <= from + |b| + |e| <= |g| && e == g[from + |b|..from + |b| + |e|]
  {
    assert forall i :: 0 <= i < |a| ==> a[i] == (b + a)[|b| + i];
    assert forall i :: |a| <= i < |e| ==> e[i] == (h + e[|a|..])[|h| + i - |a|];
  }

  lemma ActivePart(w: World, ids: seq<nat>, from: nat, n: nat)
    requires Logged(w) && Rooted(w.db) && w.db.mergeSn <= from <= w.db.sn
    requires Recovery.Listing(ids, w.db.files.Keys) && n < |ids| && ids[n] == w.db.active
    ensures Base(w, Reached(ids, n), from) + Above(w.db.files[w.db.active].recs, from) == History(w)[from..]
    ensures Reached(ids, n) <= w.db.active < Reached(ids, n + 1)
  {
    hide Tail, History, Above, Logged;
    ReachedFirst(w.db.files, ids, n);
    TailTo(w.db.files, OutSet(w.db.merge.outs), ids, n, from);
    BaseActive(w, from, w.db.active + 1);
  }

  lemma GrownRead(w: World, v: World, from: nat)
    requires Trails(w, v) && HasActive(w.db) && Unspoilt(w, v, w.db.active, from) && from <= |History(w)|
    requires Counted(History(v), |History(v)|)
    ensures var a, rs := w.db.active, Above(w.db.files[w.db.active].recs, from);
            var e := if a in v.db.files then Above(v.db.files[a].recs, from) else [];
            rs <= e && History(w) + e[|rs|..] <= History(v)
  {
    hide Above, History, Frozen;
    var a, gs, r, h := w.db.active, v.db.files, w.db.files[w.db.active].recs, History(w);
    if a in gs {
      var more := gs[a].recs[|r|..];
      assert gs[a].recs == r + more;
      AboveConcat(r, more, from);
      forall i | 0 <= i < |more| ensures more[i].sn > from {
        assert more[i] == (h + more)[|h| + i] == History(v)[|h| + i];
      }
      AboveAll(more, from);
      assert (Above(r, from) + more)[|Above(r, from)|..] == more;
    } else {
      assert h + [] == h;
    }
  }

  // --- the walk ----------------------------------------------------------------------------------------

  // The watermark only rises.
  lemma MarkRises(w: World, acts: seq<Action>)
    requires Phys(w) && Known(w) && Uninterrupted(acts)
    ensures w.db.mergeSn <= Run(w, acts).db.mergeSn
  {
    hide Phys, Known, History, Frozen, Lengthened, Run;
    RootedOf(w);
    TrailsSelf(w);
    RunTrails(w, w, acts);
  }

  lemma {:induction false} WalkKnown(w: World, ids: seq<nat>, gaps: seq<seq<Action>>, from: nat, n: nat)
    requires Phys(w) && Known(w) && n <= |ids| == |gaps| && AllUninterrupted(gaps)
    ensures var v := Walked(w, ids, gaps, from, n).w;
            && Phys(v) && Known(v) && w.db.mergeSn <= v.db.mergeSn && History(w) <= History(v)
            && (Denotes(w) ==> Denotes(v))
    decreases n
  {
    hide Phys, Denotes, Known, Run, ReadFile, History;
    if n != 0 {
      WalkKnown(w, ids, gaps, from, n - 1);
      var v := Walked(w, ids, gaps, from, n - 1).w;
      RunKnown(v, gaps[n - 1]);
      MarkRises(v, gaps[n - 1]);
      RunHistory(v, gaps[n - 1]);
      if Denotes(w) {
        RunInv(v, gaps[n - 1]);
      }
    }
  }

  lemma ReadOne(w: World, p: Walk, ids: seq<nat>, from: nat, n: nat)
    requires Phys(w) && Logged(w) && w.db.mergeSn <= from <= w.db.sn && Recovery.Listing(ids, w.db.files.Keys)
    requires n < |ids|
    requires Abreast(w, p, ids, from, n) && (ids[n] in w.db.merge.outs || Unspoilt(w, p.w, ids[n], from))
    ensures Abreast(w, Walk(p.w, p.out + ReadFile(p.w.db.files, ids[n], from)), ids, from, n + 1)
  {
    hide Phys, Logged, Abreast, ReadFile, Unspoilt;
    if ids[n] in w.db.merge.outs {
      ReadOutput(w, p, ids, from, n);
    } else if ids[n] == w.db.active {
      ReadActive(w, p, ids, from, n);
    } else {
      ReadClosed(w, p, ids, from, n);
    }
  }

  lemma AbreastStart(w: World, ids: seq<nat>, from: nat)
    requires Phys(w) && Known(w) && from <= w.db.sn
    ensures Abreast(w, Walk(w, []), ids, from, 0)
  {
    hide Phys, Known, Trails, History, Gapless;
    KnownLogged(w);
    TrailsSelf(w);
    GaplessNone(History(w), from);
  }

  // When its turn comes, file n has been unlinked with records above the position in it. Outputs of
  // a merge in flight hold copies only.
  ghost predicate Skips(w: World, ids: seq<nat>, gaps: seq<seq<Action>>, from: nat, n: nat) {
    && n < |ids| == |gaps| && ids[n] !in w.db.merge.outs
    && !Unspoilt(w, Run(Walked(w, ids, gaps, from, n).w, gaps[n]), ids[n], from)
  }

  lemma {:induction false} WalkAbreast(w: World, ids: seq<nat>, gaps: seq<seq<Action>>, from: nat, n: nat)
    requires Phys(w) && Known(w) && w.db.mergeSn <= from <= w.db.sn && Recovery.Listing(ids, w.db.files.Keys)
    requires n <= |ids| == |gaps| && AllUninterrupted(gaps) && forall i: nat :: !Skips(w, ids, gaps, from, i)
    ensures Abreast(w, Walked(w, ids, gaps, from, n), ids, from, n)
    decreases n
  {
    hide Phys, Known, Abreast, ReadFile, Run, Unspoilt;
    if n == 0 {
      AbreastStart(w, ids, from);
    } else {
      var p, gap := Walked(w, ids, gaps, from, n - 1), gaps[n - 1];
      WalkAbreast(w, ids, gaps, from, n - 1);
      assert !Skips(w, ids, gaps, from, n - 1);
      RootedOf(w);
      GapAbreast(w, p, ids, from, n - 1, gap);
      KnownLogged(w);
      ReadOne(w, Walk(Run(p.w, gap), p.out), ids, from, n - 1);
    }
  }

  // The walk emits the history after the position without a gap, at least up to where it was at the
  // start.
  ghost predicate Thorough(w: World, p: Walk, from: nat) {
    Gapless(p.out, History(p.w), from) && |History(w)| <= HighestAll(from, p.out)
  }

  // Whatever interleaves: if no file is skipped the walk is complete. Copies made by a merge in
  // flight only repeat what has been emitted.
  lemma WalkGapless(w: World, ids: seq<nat>, gaps: seq<seq<Action>>, from: nat)
    requires Phys(w) && Known(w) && w.db.mergeSn <= from <= w.db.sn && Recovery.Listing(ids, w.db.files.Keys)
    requires |ids| == |gaps| && AllUninterrupted(gaps) && forall i: nat :: !Skips(w, ids, gaps, from, i)
    ensures var p := Walked(w, ids, gaps, from, |ids|);
            && Thorough(w, p, from) && HighestAll(from, p.out) <= |History(p.w)|
            && (w.db.merge.outs == [] ==>
                  from <= |History(p.w)| && p.out == History(p.w)[from..HighestAll(from, p.out)])
  {
    hide Phys, Known, Walked, History, Gapless, HighestAll, Trails;
    WalkAbreast(w, ids, gaps, from, |ids|);
    RootedOf(w);
    assert forall j :: 0 <= j < |ids| ==> ids[j] < Reached(ids, |ids|);
    assert w.db.active in ids;
  }

  lemma {:induction false} WalkTrails(w: World, ids: seq<nat>, gaps: seq<seq<Action>>, from: nat, n: nat)
    requires Phys(w) && Known(w) && n <= |ids| == |gaps| && AllUninterrupted(gaps)
    ensures Trails(w, Walked(w, ids, gaps, from, n).w)
    decreases n
  {
    hide Phys, Known, Trails, Run, ReadFile, Rooted;
    RootedOf(w);
    if n == 0 {
      TrailsSelf(w);
    } else {
      WalkTrails(w, ids, gaps, from, n - 1);
      WalkKnown(w, ids, gaps, from, n - 1);
      RunTrails(w, Walked(w, ids, gaps, from, n - 1).w, gaps[n - 1]);
    }
  }

  // The leader when file n is read.
  ghost function ReadAt(w: World, ids: seq<nat>, gaps: seq<seq<Action>>, from: nat, n: nat): World
    requires n < |ids| == |gaps|
  {
    Run(Walked(w, ids, gaps, from, n).w, gaps[n])
  }

  lemma ReadAtTrails(w: World, ids: seq<nat>, gaps: seq<seq<Action>>, from: nat, n: nat)
    requires Phys(w) && Known(w) && n < |ids| == |gaps| && AllUninterrupted(gaps)
    ensures var v := ReadAt(w, ids, gaps, from, n); Phys(v) && Known(v) && Trails(w, v)
  {
    hide Phys, Known, Trails, Run, ReadFile, Walked, Rooted;
    RootedOf(w);
    WalkTrails(w, ids, gaps, from, n);
    WalkKnown(w, ids, gaps, from, n);
    RunKnown(Walked(w, ids, gaps, from, n).w, gaps[n]);
    RunTrails(w, Walked(w, ids, gaps, from, n).w, gaps[n]);
  }

  // A watermark that has not passed the position when the last file has been read is enough.
  lemma MarkSuffices(w: World, ids: seq<nat>, gaps: seq<seq<Action>>, from: nat)
    requires Phys(w) && Known(w) && Recovery.Listing(ids, w.db.files.Keys) && |ids| == |gaps| && AllUninterrupted(gaps)
    requires Walked(w, ids, gaps, from, |ids|).w.db.mergeSn <= from
    ensures forall n: nat :: !Skips(w, ids, gaps, from, n)
  {
    hide Phys, Known, Run, ReadFile, Walked, History, Above;
    forall n: nat ensures !Skips(w, ids, gaps, from, n) {
      if n < |ids| && ids[n] !in w.db.merge.outs {
        MarkBelow(w, ids, gaps, from, n);
        ReadAtTrails(w, ids, gaps, from, n);
        NothingSpoilt(w, ReadAt(w, ids, gaps, from, n), ids[n], from);
      }
    }
  }

  lemma NothingSpoilt(w: World, v: World, id: nat, from: nat)
    requires Trails(w, v) && id in w.db.files && id !in w.db.merge.outs && v.db.mergeSn <= from
    ensures Unspoilt(w, v, id, from)
  {
    hide Above, History;
    if id !in v.db.files {
      assert id != w.db.active ==> Frozen(w.db.files[id], v.db, id);
      AboveNone(w.db.files[id].recs, from);
    }
  }

  lemma {:induction false} MarkBelow(w: World, ids: seq<nat>, gaps: seq<seq<Action>>, from: nat, n: nat)
    requires Phys(w) && Known(w) && n < |ids| == |gaps| && AllUninterrupted(gaps)
    ensures ReadAt(w, ids, gaps, from, n).db.mergeSn <= Walked(w, ids, gaps, from, |ids|).w.db.mergeSn
    decreases |ids| - n
  {
    hide Phys, Known, Run, ReadFile, History;
    if n + 1 < |ids| {
      MarkBelow(w, ids, gaps, from, n + 1);
      WalkKnown(w, ids, gaps, from, n + 1);
      MarkRises(Walked(w, ids, gaps, from, n + 1).w, gaps[n + 1]);
    }
  }

  // --- and only then ---------------------------------------------------------------------------------------

  // Where a record that was emitted came from.
  lemma {:induction false} EmittedFrom(w: World, ids: seq<nat>, gaps: seq<seq<Action>>, from: nat, n: nat, c: nat)
    returns (m: nat)
    requires Phys(w) && Known(w) && n <= |ids| == |gaps| && AllUninterrupted(gaps)
    requires c < |Walked(w, ids, gaps, from, n).out|
    ensures m < n
    ensures var r := Walked(w, ids, gaps, from, n).out[c];
            Holds(ReadAt(w, ids, gaps, from, m).db.files, ids[m], r) && from < r.sn
    decreases n
  {
    hide Phys, Known, Run, ReadFile, Holds;
    var p, x := Walked(w, ids, gaps, from, n - 1), ReadAt(w, ids, gaps, from, n - 1);
    if c < |p.out| {
      m := EmittedFrom(w, ids, gaps, from, n - 1, c);
    } else {
      m := n - 1;
      ReadAtTrails(w, ids, gaps, from, m);
      ReadHolds(x, ids[m], from, c - |p.out|);
    }
  }

  lemma ReadHolds(x: World, id: nat, from: nat, c: nat)
    requires Phys(x) && Known(x) && c < |ReadFile(x.db.files, id, from)|
    ensures var r := ReadFile(x.db.files, id, from)[c]; Holds(x.db.files, id, r) && from < r.sn
  {
    hide Phys, Known, Above, FoundIn;
    KnownLogged(x);
    ReadWhole(x, id, from);
    AboveEach(x.db.files[id].recs, from);
  }

  // A record that was there at the start is still where it was, if anywhere.
  lemma HeldThen(w: World, v: World, id: nat, r: Record)
    requires Trails(w, v) && id in w.db.files && id !in w.db.merge.outs && Holds(v.db.files, id, r)
    requires r.sn <= |History(w)| && Counted(History(v), |History(v)|)
    ensures Holds(w.db.files, id, r)
  {
    hide History;
    if id == w.db.active {
      var rs, gs, h := w.db.files[id].recs, v.db.files[id].recs, History(w);
      assert forall i :: |rs| <= i < |gs| ==> gs[i] == (h + gs[|rs|..])[|h| + i - |rs|];
    } else {
      assert Frozen(w.db.files[id], v.db, id);
    }
  }

  // No two files share a number above the position.
  lemma OneFile(w: World, from: nat, i: nat, j: nat, r: Record, q: Record)
    requires Phys(w) && Logged(w) && w.db.mergeSn <= from <= w.db.sn && w.db.merge.outs == [] && i < j
    requires Holds(w.db.files, i, r) && Holds(w.db.files, j, q) && from < r.sn
    ensures r.sn != q.sn
  {
    hide Phys, Logged, History, Tail, Above;
    RootedOf(w);
    LoggedCounted(w);
    BaseWhole(w, from);
    var fs, outs, n, h := w.db.files, OutSet(w.db.merge.outs), w.db.nextID, History(w);
    assert forall x, y :: from <= x < y < |h| ==> h[x].sn < h[y].sn;
    if from < q.sn {
      AboveHolds(fs[i].recs, from, r);
      AboveHolds(fs[j].recs, from, q);
      var a := TailPlace(fs, outs, i, n, from, r);
      var b := TailPlace(fs, outs, j, n, from, q);
      TailPrefix(fs, outs, i + 1, j, from);
      assert r == h[from + a] && q == h[from + b];
    }
  }

  lemma {:induction false} AboveHolds(rs: seq<Record>, from: nat, r: Record)
    requires r in rs && from < r.sn
    ensures r in Above(rs, from)
  {
    if r != rs[|rs| - 1] {
      AboveHolds(rs[..|rs| - 1], from, r);
    }
  }

  // Where in the tail a record of a file is.
  lemma {:induction false} TailPlace(fs: Files, outs: set<nat>, id: nat, n: nat, from: nat, r: Record) returns (a: nat)
    requires id < n && r in Part(fs, outs, id, from)
    ensures |Tail(fs, outs, id, from)| <= a < |Tail(fs, outs, id + 1, from)| && a < |Tail(fs, outs, n, from)|
    ensures Tail(fs, outs, n, from)[a] == r
    decreases n
  {
    hide Part;
    if id == n - 1 {
      var p := Part(fs, outs, id, from);
      var j :| 0 <= j < |p| && p[j] == r;
      a := |Tail(fs, outs, id, from)| + j;
    } else {
      a := TailPlace(fs, outs, id, n - 1, from, r);
    }
  }

  lemma SkipLoses(w: World, ids: seq<nat>, gaps: seq<seq<Action>>, from: nat, n: nat)
    requires Phys(w) && Known(w) && w.db.mergeSn <= from <= w.db.sn && Recovery.Listing(ids, w.db.files.Keys)
    requires |ids| == |gaps| && AllUninterrupted(gaps) && w.db.merge.outs == [] && Skips(w, ids, gaps, from, n)
    ensures !Thorough(w, Walked(w, ids, gaps, from, |ids|), from)
  {
    hide Phys, Known, Run, History, Above, Gapless, HighestAll, Trails, Walked;
    var p, rs := Walked(w, ids, gaps, from, |ids|), w.db.files[ids[n]].recs;
    var r := Above(rs, from)[0];
    AboveEach(rs, from);
    KnownLogged(w);
    SkippedBelow(w, ids[n], r);
    if Thorough(w, p, from) {
      var c := GaplessCovers(p.out, History(p.w), from, r.sn - 1);
      var m := EmittedFrom(w, ids, gaps, from, |ids|, c);
      var v := ReadAt(w, ids, gaps, from, m);
      ReadAtTrails(w, ids, gaps, from, m);
      KnownLogged(v);
      HeldThen(w, v, ids[m], p.out[c]);
      if ids[m] < ids[n] {
        OneFile(w, from, ids[m], ids[n], p.out[c], r);
      } else if ids[n] < ids[m] {
        OneFile(w, from, ids[n], ids[m], r, p.out[c]);
      }
    }
  }

  lemma SkippedBelow(w: World, id: nat, r: Record)
    requires Phys(w) && Known(w) && Holds(w.db.files, id, r)
    ensures r.sn <= |History(w)|
  {
    hide Phys, Known, Sound, History;
    PhysParts(w);
    KnownLogged(w);
    HeldNumber(w.db, w.ledger, id, r);
  }

  // With no merge's outputs among the files listed: the walk is complete if and only if no file was
  // unlinked, with records above the position in it, before its turn came.
  lemma WalkIff(w: World, ids: seq<nat>, gaps: seq<seq<Action>>, from: nat)
    requires Phys(w) && Known(w) && w.db.mergeSn <= from <= w.db.sn && Recovery.Listing(ids, w.db.files.Keys)
    requires |ids| == |gaps| && AllUninterrupted(gaps) && w.db.merge.outs == []
    ensures Thorough(w, Walked(w, ids, gaps, from, |ids|), from) <==> forall n: nat :: !Skips(w, ids, gaps, from, n)
  {
    hide Phys, Known, Thorough, Skips, Walked;
    if n: nat :| Skips(w, ids, gaps, from, n) {
      SkipLoses(w, ids, gaps, from, n);
    } else {
      WalkGapless(w, ids, gaps, from);
    }
  }

  // Complete or not, everything emitted is a copy of a record of the history after the position.
  lemma {:induction false} WalkEchoes(w: World, ids: seq<nat>, gaps: seq<seq<Action>>, from: nat, n: nat)
    requires Phys(w) && Known(w) && n <= |ids| == |gaps| && AllUninterrupted(gaps)
    ensures var p := Walked(w, ids, gaps, from, n); AllEcho(p.out, History(p.w))
    decreases n
  {
    hide Phys, Known, Run, ReadFile, History, Echoes, Holds;
    if n != 0 {
      var p, x := Walked(w, ids, gaps, from, n - 1), ReadAt(w, ids, gaps, from, n - 1);
      var e := ReadFile(x.db.files, ids[n - 1], from);
      WalkEchoes(w, ids, gaps, from, n - 1);
      ReadAtTrails(w, ids, gaps, from, n - 1);
      RunHistory(p.w, gaps[n - 1]);
      EchoesGrow(p.out, History(p.w), History(x));
      forall c | 0 <= c < |e| ensures Echoes(e[c], History(x)) {
        ReadHolds(x, ids[n - 1], from, c);
        HeldEchoes(x, ids[n - 1], e[c]);
      }
    }
  }
}
