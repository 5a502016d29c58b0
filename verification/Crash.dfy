/** A crash at any byte, and what recovery makes of it. */
module Crash {
  import opened Bytes
  import opened Records
  import opened Log
  import opened Engine
  import opened Invariant
  import opened Writing
  import opened Compaction
  import opened Durability
  import opened Hints
  import opened Versions
  import opened Recovery

  ghost predicate Loadable(f: File) {
    && AllValid(f.recs)
    && LoadFile(FileBytes(f)) == f && ModeOf(Intact(FileBytes(f))) != Bad
  }

  // Torn files load back as they are; hints belong to whole, immutable files.
  ghost predicate Tidy(db: Db) {
    && (forall id :: id in db.files && db.files[id].tail != [] ==> Loadable(db.files[id]))
    && (forall id :: id in db.hinted ==>
          Immutable(db, id) && db.files[id].tail == [] && SizeAll(db.files[id].recs) < U64)
  }

  lemma WholeLoads(f: File)
    requires AllValid(f.recs) && ModeOf(f.recs) == Closed && f.tail == []
    ensures Loadable(f) && Intact(FileBytes(f)) == f.recs
  {
    hide ModeOf, Intact;
    IntactEncoded(f.recs, []);
    NothingIntact();
    assert f.recs + [] == f.recs && EncodeAll(f.recs) + [] == EncodeAll(f.recs);
    assert f.recs[..|f.recs|] == f.recs;
  }

  lemma NothingIntact()
    ensures Intact([]) == []
  {
    NextShort([]);
  }

  // A whole file cut at n bytes loads as its operations that end within them.
  lemma CutLoads(f: File, n: nat)
    requires AllValid(f.recs) && ModeOf(f.recs) == Closed && f.tail == [] && n <= SizeAll(f.recs)
    ensures var b := FileBytes(f)[..n];
            && ModeOf(Intact(b)) != Bad
            && LoadFile(b).recs == f.recs[..ClosedPart(f.recs[..Fit(f.recs, n)])]
            && Loadable(LoadFile(b)) && FileBytes(LoadFile(b)) == b && ModeOf(LoadFile(b).recs) == Closed
  {
    hide ModeOf, Intact, Fit, ClosedPart, EncodeAll, SizeAll;
    var rs, k := f.recs, Fit(f.recs, n);
    assert EncodeAll(rs) + [] == EncodeAll(rs);
    IntactTruncated(rs, n);
    NotBadPrefix(rs, k);
    var b, c := FileBytes(f)[..n], ClosedPart(rs[..k]);
    assert rs[..k][..c] == rs[..c];
    LoadedBytes(b);
  }

  // Loading loses no byte.
  lemma LoadedBytes(b: Bytes)
    ensures AllValid(LoadFile(b).recs) && FileBytes(LoadFile(b)) == b
  {
    hide Intact, ClosedPart, SizeAll, EncodeAll;
    IntactSound(b);
    var rs := Intact(b);
    var c := ClosedPart(rs);
    assert rs == rs[..c] + rs[c..];
    EncodeAllConcat(rs[..c], rs[c..]);
    PrefixSize(rs, c, |rs|);
    assert rs[..|rs|] == rs;
  }

  // --- the crash ------------------------------------------------------------------------

  // How far a crash may cut a file: the unsynced end of the active file, an output of a
  // merge that has not synced it yet, and nothing else.
  predicate MayCut(db: Db, id: nat, n: nat)
    requires id in db.files && HasActive(db) && db.synced <= |db.files[db.active].recs|
  {
    if id == db.active then SizeAll(db.files[id].recs[..db.synced]) <= n <= FileSize(db.files[id])
    else if id in db.merge.outs && db.merge.phase == Copying then n <= FileSize(db.files[id])
    else n == FileSize(db.files[id])
  }

  predicate Cut(db: Db, cut: map<nat, nat>) {
    && HasActive(db) && db.synced <= |db.files[db.active].recs|
    && cut.Keys == db.files.Keys && forall id :: id in db.files ==> MayCut(db, id, cut[id])
  }

  function CrashDisk(db: Db, cut: map<nat, nat>): Disk
    requires Cut(db, cut) && forall id :: id in db.files ==> AllValid(db.files[id].recs)
  {
    Disk(map id | id in db.files :: CutBytes(db.files[id], cut[id]),
         map id | id in db.hinted && id in db.files :: HintBytes(db.files[id].recs), db.mergeSn)
  }

  function CutBytes(f: File, n: nat): Bytes
    requires AllValid(f.recs)
  {
    if n <= |FileBytes(f)| then FileBytes(f)[..n] else FileBytes(f)
  }

  // The files a crash leaves, as committed records.
  ghost predicate Image(db: Db, fs: Files) {
    && fs.Keys == db.files.Keys
    && forall id :: id in fs ==> Shrunk(db, id, fs[id])
  }

  ghost predicate Shrunk(db: Db, id: nat, f: File)
    requires id in db.files
  {
    && f.recs <= db.files[id].recs && ModeOf(f.recs) == Closed && Loadable(f)
    && (if id == db.active then db.synced <= |f.recs|
        else (id in db.merge.outs && db.merge.phase == Copying) || f == db.files[id])
  }

  lemma {:induction false} FitKeeps(rs: seq<Record>, n: nat, s: nat)
    requires s <= |rs| && SizeAll(rs[..s]) <= n && ModeOf(rs[..s]) == Closed
    ensures s <= ClosedPart(rs[..Fit(rs, n)])
  {
    hide Fit, ClosedPart, ModeOf, SizeAll;
    var k := Fit(rs, n);
    assert s <= k;
    assert rs[..k][..s] == rs[..s];
  }

  lemma CutShrinks(db: Db, ledger: map<nat, Record>, id: nat, n: nat)
    requires Sound(db, ledger) && Tidy(db) && id in db.files && MayCut(db, id, n)
    ensures ModeOf(Intact(CutBytes(db.files[id], n))) != Bad
    ensures Shrunk(db, id, LoadFile(CutBytes(db.files[id], n)))
  {
    hide Bounded, Ledgered, Pointing, Newest, Forgotten, Split, Progress, Collected, Moved, OnlyCopies, Awaiting,
         ModeOf, Intact, LoadFile;
    hide EncodeAll, SizeAll;
    var f := db.files[id];
    assert |FileBytes(f)| == FileSize(f);
    assert FileBytes(f)[..|FileBytes(f)|] == FileBytes(f);
    if f.tail == [] {
      CutLoads(f, n);
      WholeLoads(f);
      if id == db.active {
        FitKeeps(f.recs, n, db.synced);
      }
    }
  }

  lemma CrashImage(db: Db, ledger: map<nat, Record>, cut: map<nat, nat>)
    requires Sound(db, ledger) && Tidy(db) && Cut(db, cut)
    ensures forall id :: id in db.files ==> AllValid(db.files[id].recs)
    ensures Image(db, Load(CrashDisk(db, cut).data))
    ensures forall id :: id in db.files ==> ModeOf(Intact(CrashDisk(db, cut).data[id])) != Bad
  {
    hide Sound, Tidy, Shrunk, ModeOf, Intact, LoadFile, CutBytes, MayCut, AllValid;
    ValidRecords(db, ledger);
    forall id | id in db.files
      ensures ModeOf(Intact(CutBytes(db.files[id], cut[id]))) != Bad
      ensures Shrunk(db, id, LoadFile(CutBytes(db.files[id], cut[id])))
    {
      CutShrinks(db, ledger, id, cut[id]);
    }
  }

  lemma ValidRecords(db: Db, ledger: map<nat, Record>)
    requires Sound(db, ledger)
    ensures forall id :: id in db.files ==> AllValid(db.files[id].recs)
  {
  }

  // Every hint on the crashed disk reads cleanly and lists its whole file.
  lemma CrashReadable(db: Db, ledger: map<nat, Record>, cut: map<nat, nat>)
    requires Sound(db, ledger) && Tidy(db) && Cut(db, cut)
    requires forall id :: id in db.files ==> AllValid(db.files[id].recs)
    ensures Readable(CrashDisk(db, cut)) && CleanHints(CrashDisk(db, cut)) == db.hinted
  {
    hide Bounded, Ledgered, Pointing, Newest, Forgotten, Merging, ModeOf, Intact, LoadFile, CutBytes, HintBytes,
         ReadHint, Loadable, HintsOf;
    var disk := CrashDisk(db, cut);
    CrashImage(db, ledger, cut);
    forall id | id in db.hinted
      ensures id in disk.hints && id in disk.data && HintTrue(disk, id) && ReadHint(disk.hints[id]).clean
    {
      var f := db.files[id];
      WholeLoads(f);
      HintRoundTrip(f.recs);
      WholeCut(f, cut[id]);
    }
  }

  lemma WholeCut(f: File, n: nat)
    requires AllValid(f.recs) && n == FileSize(f)
    ensures CutBytes(f, n) == FileBytes(f)
  {
  }

  // --- the recovered index ------------------------------------------------------------------

  ghost predicate Covers(fs: Files, ids: seq<nat>, n: nat, ix: Index)
    requires n <= |ids| && forall i :: 0 <= i < |ids| ==> ids[i] in fs
  {
    && Pointing(fs, ix)
    && forall i, r :: 0 <= i < n && r in fs[ids[i]].recs ==> r.key in ix && r.sn <= ix[r.key].sn
  }

  lemma {:induction false} RecoveredCovers(fs: Files, ids: seq<nat>, n: nat)
    requires n <= |ids| && forall i :: 0 <= i < |ids| ==> ids[i] in fs
    ensures Covers(fs, ids, n, RecoverIndex(fs, ids, n))
  {
    hide Points, Replay, SizeAll;
    if n > 0 {
      RecoveredCovers(fs, ids, n - 1);
      var px, id := RecoverIndex(fs, ids, n - 1), ids[n - 1];
      var rs, jx := fs[id].recs, RecoverIndex(fs, ids, n);
      ReplayCovers(px, id, rs, 0, |rs|);
      forall k | k in jx ensures Points(fs, k, jx[k]) {
        ReplaySource(px, id, rs, 0, |rs|, k);
        if !(k in px && jx[k] == px[k]) {
          LocatedPoints(fs, k, jx[k], id, 0, |rs|);
        }
      }
    }
  }

  lemma {:induction false} RecoverSnBounds(data: map<nat, Bytes>, ids: seq<nat>, n: nat, i: nat)
    requires i < n <= |ids| && forall i :: 0 <= i < |ids| ==> ids[i] in data
    ensures forall r :: r in LoadFile(data[ids[i]]).recs ==> r.sn <= RecoverSn(data, ids, n)
  {
    hide Intact, HighestAll, ClosedPart, SizeAll;
    var rs := Intact(data[ids[n - 1]]);
    HighestIsMax(RecoverSn(data, ids, n - 1), rs);
    if i < n - 1 {
      RecoverSnBounds(data, ids, n - 1, i);
    }
  }

  lemma SameRecords(fs: Files, gs: Files, k: Bytes, e: Entry)
    requires Points(fs, k, e) && fs.Keys <= gs.Keys && forall id :: id in fs ==> gs[id].recs == fs[id].recs
    ensures Points(gs, k, e)
  {
    hide At;
  }

  lemma ReopenedIndex(db: Db, ledger: map<nat, Record>, data: map<nat, Bytes>, ids: seq<nat>)
    requires Sound(db, ledger) && Image(db, Load(data)) && ids != [] && Listing(ids, data.Keys)
    ensures var d := Reopened(db.maxSize, data, db.hinted, db.mergeSn, ids);
            && Pointing(d.files, d.index) && Newest(d.files, d.index) && Ledgered(d.files, ledger)
            && Bounded(d.files, d.sn)
            && (forall id, r :: Holds(d.files, id, r) ==> r.key in d.index && Holds(Load(data), id, r))
            && (forall id, r :: Holds(Load(data), id, r) ==> Holds(d.files, id, r))
  {
    hide Points, LoadFile, Shaped, Bounded, Pointing, Newest, Forgotten, Merging, ModeOf, Loadable;
    var fs, d := Load(data), Reopened(db.maxSize, data, db.hinted, db.mergeSn, ids);
    RecoveredCovers(fs, ids, |ids|);
    assert Pointing(fs, d.index) && Pointing(d.files, d.index) by { SamePointing(fs, d.files, d.index); }
    forall id, r | Holds(d.files, id, r)
      ensures r.key in d.index && r.sn <= d.index[r.key].sn && Holds(fs, id, r) && Holds(db.files, id, r)
      ensures r.sn <= d.sn
    {
      var i :| 0 <= i < |ids| && ids[i] == id;
      RecoverSnBounds(data, ids, |ids|, i);
      assert Shrunk(db, id, fs[id]);
    }
    Finish(db, d, ledger);
  }

  lemma SamePointing(fs: Files, gs: Files, ix: Index)
    requires Pointing(fs, ix) && fs.Keys <= gs.Keys && forall id :: id in fs ==> gs[id].recs == fs[id].recs
    ensures Pointing(gs, ix)
  {
    hide Points;
    forall k | k in ix ensures Points(gs, k, ix[k]) { SameRecords(fs, gs, k, ix[k]); }
  }

  lemma Finish(db: Db, d: Db, ledger: map<nat, Record>)
    requires Ledgered(db.files, ledger)
    requires forall id, r :: Holds(d.files, id, r) ==>
               r.key in d.index && r.sn <= d.index[r.key].sn && Holds(db.files, id, r) && r.sn <= d.sn
    ensures Newest(d.files, d.index) && Ledgered(d.files, ledger) && Bounded(d.files, d.sn)
  {
  }

  lemma ImageShape(db: Db, fs: Files, ids: seq<nat>, id: nat)
    requires Image(db, fs) && ids != [] && Listing(ids, fs.Keys) && id in fs
    ensures id <= ids[|ids| - 1] && AllValid(fs[id].recs) && ModeOf(fs[id].recs) == Closed
  {
    hide LoadFile, ModeOf;
    assert Shrunk(db, id, fs[id]);
    var i :| 0 <= i < |ids| && ids[i] == id;
  }

  lemma ReopenedShape(db: Db, ledger: map<nat, Record>, data: map<nat, Bytes>, ids: seq<nat>)
    requires Sound(db, ledger) && Tidy(db) && Image(db, Load(data)) && ids != [] && Listing(ids, data.Keys)
    ensures var d := Reopened(db.maxSize, data, db.hinted, db.mergeSn, ids);
            Shaped(d.files, d.active, d.nextID, d.synced)
  {
    hide Sound, Tidy, Image, LoadFile, ModeOf, RecoverIndex, RecoverSn, AllValid;
    var fs, d, last := Load(data), Reopened(db.maxSize, data, db.hinted, db.mergeSn, ids), ids[|ids| - 1];
    HintedTail(db, ledger, fs, last);
    forall id | id in fs ensures id <= last && AllValid(fs[id].recs) && ModeOf(fs[id].recs) == Closed {
      ImageShape(db, fs, ids, id);
    }
    assert fs[last].recs[..|fs[last].recs|] == fs[last].recs;
  }

  lemma ReopenedSound(db: Db, ledger: map<nat, Record>, data: map<nat, Bytes>, ids: seq<nat>)
    requires Sound(db, ledger) && Tidy(db) && Image(db, Load(data)) && ids != [] && Listing(ids, data.Keys)
    ensures Sound(Reopened(db.maxSize, data, db.hinted, db.mergeSn, ids), ledger)
  {
    hide Shaped, LoadFile, Bounded, Pointing, Newest, Ledgered, Merging, RecoverIndex, RecoverSn, Image, Tidy;
    var d := Reopened(db.maxSize, data, db.hinted, db.mergeSn, ids);
    ReopenedShape(db, ledger, data, ids);
    ReopenedIndex(db, ledger, data, ids);
    IdleMerging(d.files, d.index, d.active);
  }

  lemma HintedTail(db: Db, ledger: map<nat, Record>, fs: Files, id: nat)
    requires Sound(db, ledger) && Tidy(db) && Image(db, fs) && id in fs
    ensures id in db.hinted ==> fs[id] == db.files[id] && fs[id].tail == []
  {
    hide Sound, Loadable;
    assert Shrunk(db, id, fs[id]);
  }

  lemma HintedKept(db: Db, ledger: map<nat, Record>, fs: Files, ids: seq<nat>, id: nat)
    requires Sound(db, ledger) && Tidy(db) && Image(db, fs) && ids != [] && Listing(ids, fs.Keys) && id in db.hinted
    ensures id in fs && fs[id].tail == [] && SizeAll(fs[id].recs) < U64 && id <= ids[|ids| - 1]
  {
    hide Sound, Loadable, SizeAll;
    assert id in fs;
    HintedTail(db, ledger, fs, id);
    ImageShape(db, fs, ids, id);
  }

  lemma ReopenedTidy(db: Db, ledger: map<nat, Record>, data: map<nat, Bytes>, ids: seq<nat>)
    requires Sound(db, ledger) && Tidy(db) && Image(db, Load(data)) && ids != [] && Listing(ids, data.Keys)
    ensures var d := Restart(db.maxSize, data, db.hinted, db.mergeSn, ids); Tidy(d)
  {
    hide Sound, LoadFile, ModeOf, RecoverIndex, RecoverSn, Loadable, SizeAll, Image, AllValid;
    var fs, d := Load(data), Restart(db.maxSize, data, db.hinted, db.mergeSn, ids);
    forall id | id in d.hinted
      ensures Immutable(d, id) && d.files[id].tail == [] && SizeAll(d.files[id].recs) < U64
    {
      HintedKept(db, ledger, fs, ids, id);
    }
    forall id | id in d.files && d.files[id].tail != [] ensures Loadable(d.files[id]) {
      ImageLoadable(db, fs, id);
    }
  }

  lemma ImageLoadable(db: Db, fs: Files, id: nat)
    requires Image(db, fs) && id in fs
    ensures Loadable(fs[id])
  {
    hide Loadable;
    assert Shrunk(db, id, fs[id]);
  }

  // A restart after any crash is a sound engine whose index covers everything on disk.
  lemma RestartSound(db: Db, ledger: map<nat, Record>, data: map<nat, Bytes>, ids: seq<nat>)
    requires Sound(db, ledger) && Tidy(db) && Image(db, Load(data)) && Listing(ids, data.Keys)
    ensures var d := Restart(db.maxSize, data, db.hinted, db.mergeSn, ids);
            && Sound(d, ledger) && Tidy(d) && d.merge == NO_MERGE
            && IsTop(d.files, Tops(d.index)) && IsTop(Load(data), Tops(d.index))
            && HasActive(d) && d.synced == |d.files[d.active].recs|
  {
    hide Sound, Tidy, Image, LoadFile, RecoverIndex, RecoverSn, IsTop, SizeAll, Tops;
    Active(db, ledger);
    assert db.active in ids by { KeysKept(db, Load(data)); }
    var e, d := Reopened(db.maxSize, data, db.hinted, db.mergeSn, ids),
                Restart(db.maxSize, data, db.hinted, db.mergeSn, ids);
    ReopenedSound(db, ledger, data, ids);
    ReopenedTidy(db, ledger, data, ids);
    OpenNewActiveSound(e, ledger);
    ReopenedTop(db, ledger, data, ids);
    SameHolds(e.files, d.files, Tops(e.index));
  }

  lemma ReopenedTop(db: Db, ledger: map<nat, Record>, data: map<nat, Bytes>, ids: seq<nat>)
    requires Sound(db, ledger) && Image(db, Load(data)) && ids != [] && Listing(ids, data.Keys)
    ensures var e := Reopened(db.maxSize, data, db.hinted, db.mergeSn, ids);
            IsTop(e.files, Tops(e.index)) && IsTop(Load(data), Tops(e.index))
  {
    hide Sound, Image, LoadFile, RecoverIndex, RecoverSn, IsTop, Load;
    var e := Reopened(db.maxSize, data, db.hinted, db.mergeSn, ids);
    ReopenedIndex(db, ledger, data, ids);
    IndexTop(e.files, e.index);
    SameHolds(e.files, Load(data), Tops(e.index));
  }

  lemma KeysKept(db: Db, fs: Files)
    requires Image(db, fs)
    ensures fs.Keys == db.files.Keys
  {
  }

  // --- the recovered map ----------------------------------------------------------------------

  // The newest numbers once the records vs follow.
  function Grown(top: map<Bytes, nat>, vs: seq<Record>): map<Bytes, nat> {
    if vs == [] then top else Grown(top, vs[..|vs| - 1])[vs[|vs| - 1].key := vs[|vs| - 1].sn]
  }

  lemma {:induction false} GrownCovers(top: map<Bytes, nat>, vs: seq<Record>, floor: nat)
    requires Numbered(vs, floor) && forall k :: k in top ==> top[k] <= floor
    ensures var g := Grown(top, vs);
            && (forall k :: k in top ==> k in g && top[k] <= g[k])
            && (forall i :: 0 <= i < |vs| ==> vs[i].key in g && vs[i].sn <= g[vs[i].key])
            && (forall k :: k in g ==> g[k] <= floor + |vs|)
  {
    if vs != [] {
      GrownCovers(top, vs[..|vs| - 1], floor);
    }
  }

  lemma {:induction false} GrownSource(top: map<Bytes, nat>, vs: seq<Record>, k: Bytes)
    requires k in Grown(top, vs)
    ensures var s := Grown(top, vs)[k]; (k in top && s == top[k]) || Among(vs, k, s)
  {
    if vs != [] {
      var init, s := vs[..|vs| - 1], Grown(top, vs)[k];
      if k == vs[|vs| - 1].key {
        assert vs[|vs| - 1].sn == s;
      } else {
        GrownSource(top, init, k);
        if Among(init, k, s) {
          var i :| 0 <= i < |init| && init[i].key == k && init[i].sn == s;
          assert vs[i].key == k;
        }
      }
    }
  }

  ghost predicate Among(vs: seq<Record>, k: Bytes, s: nat) {
    exists i :: 0 <= i < |vs| && vs[i].key == k && vs[i].sn == s
  }

  lemma {:induction false} GrownLive(top: map<Bytes, nat>, vs: seq<Record>, ledger: map<nat, Record>)
    requires forall i :: 0 <= i < |vs| ==> vs[i].sn in ledger && ledger[vs[i].sn] == Lifted(vs[i])
    ensures Live(Grown(top, vs), ledger) == Fold(Live(top, ledger), vs)
  {
    hide Tomb;
    if vs != [] {
      var init, r := vs[..|vs| - 1], vs[|vs| - 1];
      GrownLive(top, init, ledger);
      LiftedTwice(r);
    }
  }

  // The unsynced end of the active file carries the last numbers issued.
  ghost predicate Recent(db: Db) {
    && HasActive(db) && db.synced <= |db.files[db.active].recs|
    && var vs := db.files[db.active].recs[db.synced..];
    && |vs| <= db.sn && Numbered(vs, db.sn - |vs|)
    && Bounded(Stable(db.files, db.active, db.synced), db.sn - |vs|)
  }

  // The records of the crash image: the stable ones, and those of the active file that
  // made it to disk.
  lemma ImageTop(db: Db, ledger: map<nat, Record>, top: map<Bytes, nat>, fs: Files)
    requires Sound(db, ledger) && Kept(db, top) && Recent(db) && Image(db, fs)
    ensures IsTop(fs, Grown(top, fs[db.active].recs[db.synced..]))
  {
    hide ModeOf, Loadable, Points, Shaped, Ledgered, Pointing, Newest, Forgotten, Split, Collected, Moved, OnlyCopies,
         Awaiting, Progress, Untouched, Grown;
    var st := Stable(db.files, db.active, db.synced);
    assert Shrunk(db, db.active, fs[db.active]);
    var all, some := db.files[db.active].recs, fs[db.active].recs;
    var vs, floor := some[db.synced..], db.sn - |all[db.synced..]|;
    forall k | k in top ensures top[k] <= floor {
      assert Present(st, k, top[k]);
    }
    assert forall i :: 0 <= i < |vs| ==> vs[i] == all[db.synced..][i];
    GrownCovers(top, vs, floor);
    var t := Grown(top, vs);
    forall id, r | Holds(fs, id, r) ensures r.key in t && r.sn <= t[r.key] {
      ImageHolds(db, fs, id, r);
    }
    forall k | k in t ensures Present(fs, k, t[k]) {
      GrownSource(top, vs, k);
      if k in top && t[k] == top[k] {
        StableInImage(db, ledger, top, fs, k);
      } else {
        var i :| 0 <= i < |vs| && vs[i].key == k && vs[i].sn == t[k];
        assert Holds(fs, db.active, vs[i]);
      }
    }
  }

  lemma ImageHolds(db: Db, fs: Files, id: nat, r: Record)
    requires Image(db, fs) && Holds(fs, id, r) && HasActive(db) && db.synced <= |db.files[db.active].recs|
    ensures db.active in fs && db.synced <= |fs[db.active].recs|
    ensures Holds(Stable(db.files, db.active, db.synced), id, r) ||
            exists i :: 0 <= i < |fs[db.active].recs[db.synced..]| && fs[db.active].recs[db.synced..][i] == r
  {
    hide ModeOf, Loadable;
    assert Shrunk(db, id, fs[id]) && Shrunk(db, db.active, fs[db.active]);
    var j :| 0 <= j < |fs[id].recs| && fs[id].recs[j] == r;
    if id == db.active {
      if j < db.synced {
        assert db.files[id].recs[..db.synced][j] == r;
      } else {
        assert fs[id].recs[db.synced..][j - db.synced] == r;
      }
    } else {
      assert db.files[id].recs[j] == r;
    }
  }

  lemma StableInImage(db: Db, ledger: map<nat, Record>, top: map<Bytes, nat>, fs: Files, k: Bytes)
    requires Sound(db, ledger) && Kept(db, top) && Image(db, fs) && k in top
    ensures Present(fs, k, top[k])
  {
    hide ModeOf, Loadable, Points, Shaped, Ledgered, Pointing, Newest, Forgotten, Split, Collected, Moved, OnlyCopies,
         Awaiting, Progress, Untouched;
    var st := Stable(db.files, db.active, db.synced);
    assert Present(st, k, top[k]);
    var id, r :| Holds(st, id, r) && r.key == k && r.sn == top[k];
    assert Shrunk(db, id, fs[id]);
    assert Holds(db.files, id, r);
    if id == db.active {
      assert db.files[id].recs[..db.synced] == fs[id].recs[..db.synced];
      assert Holds(fs, id, r);
    } else if id in db.merge.outs {
      var src, q := Original(db, ledger, id, r);
      assert Shrunk(db, src, fs[src]);
      assert Holds(fs, src, q);
    } else {
      assert Holds(fs, id, r);
    }
  }

  // Recovery denotes the stable map plus exactly the operations of the active file that
  // reached the disk whole.
  lemma RestartView(db: Db, ledger: map<nat, Record>, top: map<Bytes, nat>, data: map<nat, Bytes>, ids: seq<nat>)
    requires Sound(db, ledger) && Tidy(db) && Kept(db, top) && Recent(db)
    requires Image(db, Load(data)) && Listing(ids, data.Keys)
    ensures var d, fs := Restart(db.maxSize, data, db.hinted, db.mergeSn, ids), Load(data);
            && db.active in fs && db.synced <= |fs[db.active].recs|
            && View(d.index, ledger) == Fold(Live(top, ledger), fs[db.active].recs[db.synced..])
  {
    hide Sound, Tidy, Kept, LoadFile, Restart, IsTop, View, Live, Fold, Tops, Grown;
    var d, fs := Restart(db.maxSize, data, db.hinted, db.mergeSn, ids), Load(data);
    RestartSound(db, ledger, data, ids);
    ImageTop(db, ledger, top, fs);
    var vs := fs[db.active].recs[db.synced..];
    TopUnique(fs, Tops(d.index), Grown(top, vs));
    TopsView(d, ledger);
    ImageLedgered(db, ledger, fs);
    GrownLive(top, vs, ledger);
  }

  lemma ImageLedgered(db: Db, ledger: map<nat, Record>, fs: Files)
    requires Sound(db, ledger) && Image(db, fs)
    ensures db.active in fs && db.synced <= |fs[db.active].recs|
    ensures var vs := fs[db.active].recs[db.synced..];
            forall i :: 0 <= i < |vs| ==> vs[i].sn in ledger && ledger[vs[i].sn] == Lifted(vs[i])
  {
    hide ModeOf, Loadable, Pointing, Newest, Forgotten, Merging, Lifted;
    assert Shrunk(db, db.active, fs[db.active]);
    var vs := fs[db.active].recs[db.synced..];
    forall i | 0 <= i < |vs| ensures vs[i].sn in ledger && ledger[vs[i].sn] == Lifted(vs[i]) {
      assert db.files[db.active].recs[db.synced + i] == vs[i];
      assert Holds(db.files, db.active, vs[i]);
    }
  }
}
