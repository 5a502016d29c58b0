/** The size limit on data files, across rotation, merge outputs, crashes and restarts. */
module FileSizes {
  import opened Bytes
  import opened Records
  import opened Log
  import opened Engine
  import opened Invariant
  import opened Writing
  import Compaction
  import opened Durability
  import opened Recovery
  import opened Crash
  import opened Runs

  // A file that holds one append, or nothing whole.
  ghost predicate Lone(rs: seq<Record>) { rs == [] || Operation(rs) }

  ghost predicate Fits(f: File, maxSize: nat) { FileSize(f) <= maxSize || Lone(f.recs) }

  ghost predicate Capped(db: Db) { forall id :: id in db.files ==> Fits(db.files[id], db.maxSize) }

  lemma EmptyFits(maxSize: nat)
    ensures Fits(File([], []), maxSize)
  {
  }

  lemma OpenCapped(db: Db)
    requires Capped(db)
    ensures Capped(OpenNewActive(db)) && OpenNewActive(db).maxSize == db.maxSize
  {
    hide Fits;
    EmptyFits(db.maxSize);
  }

  // A write goes where it fits, or alone.
  lemma AppendCapped(db: Db, g: seq<Record>, always: bool)
    requires Capped(db) && HasActive(db) && Operation(g) && db.files[db.active].tail == []
    ensures Capped(Append(db, g, always)) && Append(db, g, always).maxSize == db.maxSize
  {
    hide SizeAll, Operation, Stamp, ApplyWritten, Fits, Lone;
    var s := Stamp(g, db.sn);
    StampOperation(g, db.sn);
    OpenCapped(db);
    var d := Rotate(db.(sn := db.sn + |g|), SizeAll(s));
    var f := d.files[d.active];
    EmptyFile();
    GroupFits(f, s, db.maxSize);
  }

  lemma GroupFits(f: File, s: seq<Record>, maxSize: nat)
    requires Operation(s) && f.tail == [] && (FileSize(f) == 0 || FileSize(f) + SizeAll(s) <= maxSize)
    ensures Fits(File(f.recs + s, f.tail), maxSize)
  {
    hide Operation, SizeAll;
    SizeAllConcat(f.recs, s);
    if FileSize(f) == 0 {
      NoBytes(f.recs);
      assert f.recs + s == s;
    }
  }

  lemma CopyCapped(db: Db)
    requires Capped(db) && |db.merge.moved| < |db.merge.items|
    requires forall id :: id in db.merge.outs ==> id in db.files && db.files[id].tail == []
    ensures Capped(Copy(db)) && Copy(db).maxSize == db.maxSize
  {
    hide SizeAll, Fits, Lifted, Log.At;
    var m := db.merge;
    match Deref(db.files, m.items[|m.moved|].e)
    case None =>
    case Some(r) =>
      var l := Lifted(r);
      LiftedAlone(r);
      EmptyFile();
      var f := if m.outs == [] || FileSize(db.files[m.outs[|m.outs| - 1]]) + Size(l) > db.maxSize then File([], [])
               else db.files[m.outs[|m.outs| - 1]];
      GroupFits(f, [l], db.maxSize);
  }

  lemma LiftedAlone(r: Record)
    ensures Operation([Lifted(r)]) && SizeAll([Lifted(r)]) == Size(Lifted(r))
  {
    assert [Lifted(r)][..0] == [];
  }

  lemma FewerCapped(db: Db, d: Db)
    requires Capped(db) && d.maxSize == db.maxSize
    requires forall id :: id in d.files ==> id in db.files && d.files[id] == db.files[id]
    ensures Capped(d)
  {
    hide Fits;
  }

  // What a crash leaves of a file fits if the file did.
  lemma ShrunkFits(db: Db, id: nat, f: File)
    requires id in db.files && Fits(db.files[id], db.maxSize) && Shrunk(db, id, f)
    requires FileSize(f) <= FileSize(db.files[id])
    ensures Fits(f, db.maxSize) && Fits(File(f.recs, []), db.maxSize)
  {
    hide SizeAll, ModeOf, Loadable, Operation;
    var rs := db.files[id].recs;
    var n := |f.recs|;
    assert f.recs == rs[..n];
    assert [] + rs[..n] == rs[..n];
    assert n == |rs| ==> f.recs == rs;
    EmptyClosed();
    if Operation(rs) && 0 < n < |rs| {
      OperationOpen([], rs, n);
    }
  }

  lemma CutSize(db: Db, ledger: map<nat, Record>, cut: map<nat, nat>, id: nat)
    requires Sound(db, ledger) && Cut(db, cut) && id in db.files
    requires forall i :: i in db.files ==> AllValid(db.files[i].recs)
    ensures FileSize(Load(CrashDisk(db, cut).data)[id]) <= FileSize(db.files[id])
  {
    hide Sound, LoadFile, EncodeAll, SizeAll, MayCut;
    LoadedBytes(CutBytes(db.files[id], cut[id]));
  }

  // Files that fit, whole or with their torn end cut off.
  ghost predicate Fitting(fs: Files, maxSize: nat) {
    forall id :: id in fs ==> Fits(fs[id], maxSize) && Fits(File(fs[id].recs, []), maxSize)
  }

  lemma CrashFits(w: World, cut: map<nat, nat>)
    requires Phys(w) && Cut(w.db, cut) && Capped(w.db)
    requires forall id :: id in w.db.files ==> AllValid(w.db.files[id].recs)
    ensures Fitting(Load(CrashDisk(w.db, cut).data), w.db.maxSize)
  {
    hide Phys, Sound, Tidy, Kept, Recent, LoadFile, MayCut, Fits, Shrunk, CrashDisk, AllValid, FileSize, Load;
    PhysParts(w);
    CrashImage(w.db, w.ledger, cut);
    var fs := Load(CrashDisk(w.db, cut).data);
    forall id | id in fs ensures Fits(fs[id], w.db.maxSize) && Fits(File(fs[id].recs, []), w.db.maxSize) {
      CutSize(w.db, w.ledger, cut, id);
      ShrunkFits(w.db, id, fs[id]);
    }
  }

  lemma RestartFits(maxSize: nat, data: map<nat, Bytes>, hinted: set<nat>, mergeSn: nat, ids: seq<nat>)
    requires (forall i :: 0 <= i < |ids| ==> ids[i] in data) && Fitting(Load(data), maxSize)
    ensures var d := Restart(maxSize, data, hinted, mergeSn, ids); Capped(d) && d.maxSize == maxSize
  {
    hide LoadFile, Fits, RecoverIndex, RecoverSn, FileSize;
    EmptyFits(maxSize);
  }

  lemma RestartCapped(w: World, cut: map<nat, nat>, ids: seq<nat>)
    requires Phys(w) && CanReboot(w.db, cut, ids) && Capped(w.db)
    ensures Capped(Rebooted(w, cut, ids).db) && Rebooted(w, cut, ids).db.maxSize == w.db.maxSize
  {
    hide Phys, Capped, Fitting, CrashDisk, Restart, Survivors, Load, Tops;
    CrashFits(w, cut);
    CrashKeys(w.db, cut);
    RestartFits(w.db.maxSize, CrashDisk(w.db, cut).data, w.db.hinted, w.db.mergeSn, ids);
  }

  lemma NextCapped(w: World, a: Action)
    requires Phys(w) && Capped(w.db)
    ensures Capped(Runs.Next(w, a).db) && Runs.Next(w, a).db.maxSize == w.db.maxSize
  {
    hide Phys, Sound, Written, Capped, Copy, Seal, Collects, RepointTo, RetireTo, Tops, Dropped, Rebooted, CanReboot,
         SizeAll, OutSet, Append;
    if Enabled(w, a) {
      PhysParts(w);
      PhysActive(w);
      match a
      case Put(g, always) =>
        WrittenIsAppend(w, g, always);
        AppendCapped(w.db, g, always);
      case SealActive => SealCapped(w.db);
      case CopyNext =>
        OutsWhole(w.db, w.ledger);
        CopyCapped(w.db);
      case Reboot(cut, ids) => RestartCapped(w, cut, ids);
      case _ => FewerCapped(w.db, Runs.Next(w, a).db);
    }
  }

  lemma SealCapped(db: Db)
    requires HasActive(db) && Capped(db)
    ensures Capped(Seal(db)) && Seal(db).maxSize == db.maxSize
  {
    hide SizeAll, Fits;
    OpenCapped(db);
  }

  lemma OutsWhole(db: Db, ledger: map<nat, Record>)
    requires Sound(db, ledger)
    ensures forall id :: id in db.merge.outs ==> id in db.files && db.files[id].tail == []
  {
  }

  // In every run, crashes and restarts included, a data file stays within the limit unless it
  // holds a single append or a single merged record.
  lemma {:induction false} RunCapped(w: World, acts: seq<Action>)
    requires Phys(w) && Capped(w.db)
    ensures Capped(Run(w, acts).db) && Run(w, acts).db.maxSize == w.db.maxSize
    decreases |acts|
  {
    hide Phys, Runs.Next, Capped;
    if acts != [] {
      RunPhys(w, acts[..|acts| - 1]);
      RunCapped(w, acts[..|acts| - 1]);
      NextCapped(Run(w, acts[..|acts| - 1]), acts[|acts| - 1]);
    }
  }

  // --- from below ----------------------------------------------------------------------------------

  // A write that fits the active file goes there, and only one that does not opens another.
  lemma WritePlaced(db: Db, g: seq<Record>, always: bool)
    requires HasActive(db) && db.nextID !in db.files
    ensures var d, cur := Engine.Write(db, g, always), FileSize(db.files[db.active]);
            if cur == 0 || cur + SizeAll(g) <= db.maxSize then
              d.active == db.active && d.nextID == db.nextID && d.files.Keys == db.files.Keys
              && d.files[d.active] == File(db.files[db.active].recs + g, db.files[db.active].tail)
            else
              d.active == db.nextID && d.nextID == db.nextID + 1 && d.files.Keys == db.files.Keys + {d.active}
              && d.files[d.active] == File(g, []) && d.files[db.active] == db.files[db.active]
  {
    hide SizeAll, ApplyWritten;
    assert [] + g == g;
  }

  // The outputs of a merge are packed: each holds something, and what the next one begins with did
  // not fit any more.
  ghost predicate Dense(db: Db) {
    && (forall id :: id in db.merge.outs ==> id in db.files && db.files[id].recs != [])
    && (forall i, j :: 0 <= i < j < |db.merge.outs| ==> db.merge.outs[i] < db.merge.outs[j])
    && (forall i :: 0 < i < |db.merge.outs| ==> Spilt(db.files, db.merge.outs[i - 1], db.merge.outs[i], db.maxSize))
  }

  ghost predicate Spilt(fs: Files, id: nat, next: nat, maxSize: nat) {
    id in fs && next in fs && fs[next].recs != [] && FileSize(fs[id]) + Size(fs[next].recs[0]) > maxSize
  }

  lemma CopyDense(db: Db, ledger: map<nat, Record>)
    requires Sound(db, ledger) && db.merge.phase == Copying && |db.merge.moved| < |db.merge.items| && Dense(db)
    ensures Dense(Copy(db))
  {
    hide Sound, Lifted, Size, Dense, Log.At, FileSize, Copy;
    BelowNextID(db, ledger);
    OutsWhole(db, ledger);
    var r := Compaction.NextItem(db, ledger);
    CopyShape(db, r);
    var m := db.merge;
    if m.outs == [] || FileSize(db.files[m.outs[|m.outs| - 1]]) + Size(Lifted(r)) > db.maxSize {
      OpenedDense(db, Lifted(r), Copy(db));
    } else {
      FilledDense(db, Lifted(r), Copy(db));
    }
  }

  lemma CopyShape(db: Db, r: Record)
    requires |db.merge.moved| < |db.merge.items| && Deref(db.files, db.merge.items[|db.merge.moved|].e) == Some(r)
    requires forall id :: id in db.merge.outs ==> id in db.files
    ensures var m, l, d := db.merge, Lifted(r), Copy(db);
            && d.maxSize == db.maxSize
            && if m.outs == [] || FileSize(db.files[m.outs[|m.outs| - 1]]) + Size(l) > db.maxSize then
                 d.merge.outs == m.outs + [db.nextID] && d.files == db.files[db.nextID := File([l], [])]
               else
                 var f := db.files[m.outs[|m.outs| - 1]];
                 d.merge.outs == m.outs && d.files == db.files[m.outs[|m.outs| - 1] := File(f.recs + [l], f.tail)]
  {
    hide FileSize, Lifted, Size, Log.At;
    assert [] + [Lifted(r)] == [Lifted(r)];
  }

  lemma OpenedDense(db: Db, l: Record, d: Db)
    requires Dense(db) && d.maxSize == db.maxSize && (forall id :: id in db.merge.outs ==> id < db.nextID)
    requires d.merge.outs == db.merge.outs + [db.nextID] && d.files == db.files[db.nextID := File([l], [])]
    requires db.merge.outs == []
             || FileSize(db.files[db.merge.outs[|db.merge.outs| - 1]]) + Size(l) > db.maxSize
    ensures Dense(d)
  {
    hide FileSize, Size;
    var outs := db.merge.outs;
    forall i | 0 < i < |d.merge.outs| ensures Spilt(d.files, d.merge.outs[i - 1], d.merge.outs[i], d.maxSize) {
      assert outs[i - 1] in outs && d.files[outs[i - 1]] == db.files[outs[i - 1]];
      if i < |outs| {
        assert outs[i] in outs && Spilt(db.files, outs[i - 1], outs[i], db.maxSize);
      }
    }
    assert forall i :: 0 <= i < |outs| ==> outs[i] in outs;
  }

  lemma FilledDense(db: Db, l: Record, d: Db)
    requires Dense(db) && d.maxSize == db.maxSize && db.merge.outs != [] && d.merge.outs == db.merge.outs
    requires var last := db.merge.outs[|db.merge.outs| - 1];
             d.files == db.files[last := File(db.files[last].recs + [l], db.files[last].tail)]
    ensures Dense(d)
  {
    hide FileSize, Size;
    var outs := db.merge.outs;
    forall i | 0 < i < |outs| ensures Spilt(d.files, outs[i - 1], outs[i], d.maxSize) {
      assert Spilt(db.files, outs[i - 1], outs[i], db.maxSize);
    }
  }

  // Whatever leaves the outputs alone.
  lemma DenseSame(db: Db, d: Db)
    requires Dense(db) && d.merge.outs == db.merge.outs && d.maxSize == db.maxSize
    requires forall id :: id in db.merge.outs ==> id in d.files && d.files[id] == db.files[id]
    ensures Dense(d)
  {
    hide FileSize, Size;
    forall i | 0 < i < |d.merge.outs| ensures Spilt(d.files, d.merge.outs[i - 1], d.merge.outs[i], d.maxSize) {
      assert Spilt(db.files, db.merge.outs[i - 1], db.merge.outs[i], db.maxSize);
    }
  }

  lemma NoneDense(db: Db)
    requires db.merge.outs == []
    ensures Dense(db)
  {
  }

  lemma AppendApart(db: Db, ledger: map<nat, Record>, g: seq<Record>, always: bool)
    requires Sound(db, ledger)
    ensures HasActive(db)
    ensures var d := Append(db, g, always);
            && d.merge == db.merge && d.maxSize == db.maxSize
            && forall id :: id in db.merge.outs ==> id in d.files && id in db.files && d.files[id] == db.files[id]
  {
    hide Sound, SizeAll, Stamp, ApplyWritten, FileSize;
    BelowNextID(db, ledger);
    ApartFromActive(db, ledger);
    OutsWhole(db, ledger);
    Active(db, ledger);
  }

  lemma NextDense(w: World, a: Action)
    requires Phys(w) && Dense(w.db)
    ensures Dense(Runs.Next(w, a).db)
  {
    hide Phys, Sound, Written, Dense, Copy, Seal, Collects, RepointTo, RetireTo, Tops, Dropped, Rebooted, CanReboot,
         SizeAll, OutSet, Append;
    if Enabled(w, a) {
      PhysParts(w);
      PhysActive(w);
      OutsWhole(w.db, w.ledger);
      var d := Runs.Next(w, a).db;
      match a
      case Put(g, always) =>
        WrittenIsAppend(w, g, always);
        AppendApart(w.db, w.ledger, g, always);
        DenseSame(w.db, d);
      case SealActive =>
        SealOuts(w.db, w.ledger);
        NoneDense(d);
      case CopyNext => CopyDense(w.db, w.ledger);
      case GiveUp => NoneDense(d);
      case Drop => NoneDense(d);
      case Reboot(cut, ids) =>
        RebootOuts(w, cut, ids);
        NoneDense(d);
      case _ => DenseSame(w.db, d);
    }
  }

  lemma SealOuts(db: Db, ledger: map<nat, Record>)
    requires Sound(db, ledger) && db.merge.phase == Idle
    ensures Seal(db).merge.outs == []
  {
    hide FileSize;
  }

  lemma RebootOuts(w: World, cut: map<nat, nat>, ids: seq<nat>)
    requires CanReboot(w.db, cut, ids)
    ensures Rebooted(w, cut, ids).db.merge.outs == []
  {
    hide CrashDisk, Load, RecoverIndex, RecoverSn, Survivors, Tops;
  }

  // In every run the outputs of a merge are packed.
  lemma {:induction false} RunDense(w: World, acts: seq<Action>)
    requires Phys(w) && Dense(w.db)
    ensures Dense(Run(w, acts).db)
    decreases |acts|
  {
    hide Phys, Runs.Next, Dense;
    if acts != [] {
      RunPhys(w, acts[..|acts| - 1]);
      RunDense(w, acts[..|acts| - 1]);
      NextDense(Run(w, acts[..|acts| - 1]), acts[|acts| - 1]);
    }
  }
}
