/** Writes keep the invariant: rotation, append, sync, and the numbering of records. */
module Writing {
  import opened Bytes
  import opened Records
  import opened Log
  import opened Engine
  import opened Invariant

  // --- the 32-bit buffer offset ------------------------------------------------------

  lemma PositiveSizes(g: seq<Record>, i: nat)
    requires i < |g|
    ensures SizeAll(g[..i]) < SizeAll(g)
  {
    PrefixSize(g, i, |g|);
    assert g[..|g|] == g;
  }

  lemma SmallMod(n: nat)
    requires n < U32
    ensures n % U32 == n
  {
  }

  lemma WrittenEntryExact(id: nat, prior: seq<Record>, g: seq<Record>, i: nat)
    requires i < |g| && SizeAll(g[..i]) < U32
    ensures WrittenEntry(id, SizeAll(prior), g, i) == Locate(id, prior + g, |prior| + i)
  {
    hide SizeAll, Size, Tomb;
    SmallMod(SizeAll(g[..i]));
    assert (prior + g)[..|prior| + i] == prior + g[..i];
    SizeAllConcat(prior, g[..i]);
  }

  // A locator finds its own record exactly when fewer than 4 GiB of the same write precede
  // that record.
  lemma WrittenLocator(id: nat, prior: seq<Record>, g: seq<Record>, i: nat)
    requires i < |g|
    requires forall a, b :: 0 <= a < b < |prior + g| ==> (prior + g)[a].sn != (prior + g)[b].sn
    ensures At(prior + g, WrittenEntry(id, SizeAll(prior), g, i).pos) == Some(g[i]) <==> SizeAll(g[..i]) < U32
  {
    hide At, SizeAll;
    var rs, e := prior + g, WrittenEntry(id, SizeAll(prior), g, i);
    assert rs[..|prior| + i] == prior + g[..i];
    SizeAllConcat(prior, g[..i]);
    AtIndex(rs, |prior| + i);
    if At(rs, e.pos) == Some(g[i]) {
      var j := IndexAt(rs, e.pos);
      assert rs[j].sn == rs[|prior| + i].sn;
      assert e.pos == SizeAll(prior) + SizeAll(g[..i]);
    }
  }

  // Seventeen pairs with the largest value allowed: the last record starts past 4 GiB.
  function HeavyKeys(n: nat): (ks: seq<Bytes>)
    ensures |ks| == n && forall j :: 0 <= j < n ==> ks[j] == [1]
  {
    seq(n, _ => [1])
  }

  function HeavyValues(n: nat): (vs: seq<Bytes>)
    ensures |vs| == n && forall j :: 0 <= j < n ==> |vs[j]| == MAX_VALUE
  {
    seq(n, _ => seq(MAX_VALUE, _ => 0))
  }

  function HeavyBatch(now: int): seq<Record> { Stamp(Batch(now, HeavyKeys(17), HeavyValues(17)), 0) }

  lemma {:induction false} EqualSizes(g: seq<Record>, size: nat)
    requires forall i :: 0 <= i < |g| ==> Size(g[i]) == size
    ensures SizeAll(g) == |g| * size
  {
    if g != [] {
      EqualSizes(g[..|g| - 1], size);
    }
  }

  // The promise that an index entry locates its record fails for a batch that can be written:
  // every pair is admissible, and the records are one terminated operation.
  lemma LocatorWraps(id: nat, now: int)
    requires 0 <= now + I64 < U64
    ensures var g := HeavyBatch(now);
            && Operation(g) && AllValid(g) && |g| == 17
            && At(g, WrittenEntry(id, 0, g, 16).pos) != Some(g[16])
  {
    hide At, SizeAll, HeavyBatch, Operation, AllValid;
    var g := HeavyBatch(now);
    HeavyRecords(now);
    EqualSizes(g[..16], HEADER + 1 + MAX_VALUE);
    assert [] + g == g;
    WrittenLocator(id, [], g, 16);
    NoSize();
  }

  lemma HeavyRecords(now: int)
    requires 0 <= now + I64 < U64
    ensures var g := HeavyBatch(now);
            && Operation(g) && AllValid(g) && |g| == 17
            && forall i :: 0 <= i < 17 ==> g[i].sn == i + 1 && Size(g[i]) == HEADER + 1 + MAX_VALUE
  {
  }

  lemma {:induction false} WrittenIsReplay(ix: Index, id: nat, prior: seq<Record>, g: seq<Record>, n: nat)
    requires n <= |g| && SizeAll(g) <= U32
    ensures ApplyWritten(ix, id, SizeAll(prior), g, n) == Replay(ix, id, prior + g, |prior|, |prior| + n)
  {
    if n > 0 {
      WrittenIsReplay(ix, id, prior, g, n - 1);
      PositiveSizes(g, n - 1);
      WrittenEntryExact(id, prior, g, n - 1);
    }
  }

  // --- replaying a run of records ------------------------------------------------------

  ghost predicate LocatedIn(k: Bytes, e: Entry, id: nat, rs: seq<Record>, lo: nat, hi: nat)
    requires hi <= |rs|
  {
    exists i :: lo <= i < hi && rs[i].key == k && e == Locate(id, rs, i)
  }

  // Nothing in the index gets older, and every replayed record is covered.
  lemma {:induction false} ReplayCovers(ix: Index, id: nat, rs: seq<Record>, lo: nat, hi: nat)
    requires lo <= hi <= |rs|
    ensures var jx := Replay(ix, id, rs, lo, hi);
            && (forall k :: k in ix ==> k in jx && ix[k].sn <= jx[k].sn)
            && (forall i :: lo <= i < hi ==> rs[i].key in jx && rs[i].sn <= jx[rs[i].key].sn)
  {
    hide SizeAll;
    if lo < hi {
      ReplayCovers(ix, id, rs, lo, hi - 1);
    }
  }

  // Every entry is an old one or locates a replayed record.
  lemma {:induction false} ReplaySource(ix: Index, id: nat, rs: seq<Record>, lo: nat, hi: nat, k: Bytes)
    requires lo <= hi <= |rs| && k in Replay(ix, id, rs, lo, hi)
    ensures var e := Replay(ix, id, rs, lo, hi)[k];
            (k in ix && e == ix[k]) || LocatedIn(k, e, id, rs, lo, hi)
  {
    hide SizeAll;
    if lo < hi {
      var px := Replay(ix, id, rs, lo, hi - 1);
      var e := Replay(ix, id, rs, lo, hi)[k];
      if k in px && e == px[k] {
        ReplaySource(ix, id, rs, lo, hi - 1, k);
      } else {
        assert rs[hi - 1].key == k && e == Locate(id, rs, hi - 1);
      }
    }
  }

  lemma LocatedPoints(fs: Files, k: Bytes, e: Entry, id: nat, lo: nat, hi: nat)
    requires id in fs && hi <= |fs[id].recs| && LocatedIn(k, e, id, fs[id].recs, lo, hi)
    ensures Points(fs, k, e)
  {
    hide At, SizeAll;
    var rs := fs[id].recs;
    var i :| lo <= i < hi && rs[i].key == k && e == Locate(id, rs, i);
    AtIndex(rs, i);
  }

  // --- opening a new active file -----------------------------------------------------------

  lemma OpenNewActiveSound(db: Db, ledger: map<nat, Record>)
    requires Sound(db, ledger)
    ensures Sound(OpenNewActive(db), ledger)
  {
    hide Points, ModeOf;
    var d := OpenNewActive(db);
    assert ModeOf([]) == Closed by { EmptyClosed(); }
    assert Grows(db.files, d.files);
    forall id, r | Holds(d.files, id, r) ensures Holds(db.files, id, r) {
    }
    forall k | k in d.index ensures Points(d.files, k, d.index[k]) {
      PointsGrows(db.files, d.files, k, db.index[k]);
    }
    MergeGrows(db.files, d.files, db.index, db.index, db.active, d.active, db.merge);
  }

  lemma EmptyClosed()
    ensures ModeOf([]) == Closed && forall rs: seq<Record> :: rs == [] ==> ModeOf(rs[..0]) == Closed
  {
  }

  // --- append --------------------------------------------------------------------------------

  ghost predicate Numbered(g: seq<Record>, sn: nat) {
    forall i :: 0 <= i < |g| ==> g[i].sn == sn + 1 + i
  }

  // The ledger after a numbered group.
  ghost function Enter(ledger: map<nat, Record>, g: seq<Record>, sn: nat): (l: map<nat, Record>)
    requires Numbered(g, sn)
    ensures forall i :: 0 <= i < |g| ==> g[i].sn in l && l[g[i].sn] == Lifted(g[i])
    ensures forall s :: s in ledger && s <= sn ==> s in l && l[s] == ledger[s]
  {
    if g == [] then ledger
    else Enter(ledger, g[..|g| - 1], sn)[g[|g| - 1].sn := Lifted(g[|g| - 1])]
  }

  // Appending g to the active file without rotation.
  function Extend(db: Db, g: seq<Record>): Db
    requires HasActive(db)
  {
    var f := db.files[db.active];
    db.(files := db.files[db.active := File(f.recs + g, f.tail)], sn := db.sn + |g|,
        index := Replay(db.index, db.active, f.recs + g, |f.recs|, |f.recs + g|))
  }

  lemma ExtendFiles(db: Db, ledger: map<nat, Record>, g: seq<Record>)
    requires Sound(db, ledger) && Operation(g) && AllValid(g) && Numbered(g, db.sn)
    ensures var d := Extend(db, g);
            && Shaped(d.files, d.active, d.nextID, d.synced)
            && Bounded(d.files, d.sn) && Ledgered(d.files, Enter(ledger, g, db.sn)) && Grows(db.files, d.files)
  {
    hide ModeOf, Operation, Merging, Pointing, Newest, Forgotten, Lifted, SizeAll;
    var d := Extend(db, g);
    var prior := db.files[db.active].recs;
    OperationCloses(prior, g);
    assert (prior + g)[..d.synced] == prior[..d.synced];
    var led := Enter(ledger, g, db.sn);
    forall id, r | Holds(d.files, id, r) ensures r.sn <= d.sn && r.sn in led && led[r.sn] == Lifted(r) {
      if !Holds(db.files, id, r) {
        var i :| 0 <= i < |g| && g[i] == r;
        assert r.sn == db.sn + 1 + i;
      } else {
        assert r.sn <= db.sn;
      }
    }
  }

  lemma ExtendIndex(db: Db, ledger: map<nat, Record>, g: seq<Record>)
    requires Sound(db, ledger) && Numbered(g, db.sn) && Grows(db.files, Extend(db, g).files)
    ensures var d := Extend(db, g);
            && Pointing(d.files, d.index) && Newest(d.files, d.index) && Forgotten(d.files, d.index, d.merge)
            && (forall k :: k in d.index && d.index[k].file != db.active ==> k in db.index && db.index[k] == d.index[k])
  {
    hide ModeOf, Merging, Ledgered, Points, Replay, SizeAll;
    var d := Extend(db, g);
    var prior := db.files[db.active].recs;
    ReplayCovers(db.index, db.active, prior + g, |prior|, |prior + g|);
    forall k | k in d.index ensures Points(d.files, k, d.index[k]) {
      ReplaySource(db.index, db.active, prior + g, |prior|, |prior + g|, k);
      if k in db.index && d.index[k] == db.index[k] {
        PointsGrows(db.files, d.files, k, d.index[k]);
      } else {
        LocatedPoints(d.files, k, d.index[k], db.active, |prior|, |prior + g|);
      }
    }
    forall id, r | Holds(d.files, id, r) && !Holds(db.files, id, r)
      ensures r.key in d.index && r.sn <= d.index[r.key].sn
    {
      var i :| 0 <= i < |prior + g| && (prior + g)[i] == r;
      assert i >= |prior|;
    }
    forall id, r | Holds(db.files, id, r) && r.key in d.index ensures r.sn <= d.index[r.key].sn {
      ReplaySource(db.index, db.active, prior + g, |prior|, |prior + g|, r.key);
    }
    forall k | k in d.index && d.index[k].file != db.active ensures k in db.index && db.index[k] == d.index[k] {
      ReplaySource(db.index, db.active, prior + g, |prior|, |prior + g|, k);
    }
  }

  lemma ExtendSound(db: Db, ledger: map<nat, Record>, g: seq<Record>)
    requires Sound(db, ledger) && Operation(g) && AllValid(g) && Numbered(g, db.sn)
    ensures Sound(Extend(db, g), Enter(ledger, g, db.sn))
  {
    hide Shaped, Ledgered, Pointing, Newest, Forgotten, Replay, SizeAll, Operation, AllValid, Enter;
    Active(db, ledger);
    ExtendFiles(db, ledger, g);
    ExtendIndex(db, ledger, g);
    var d := Extend(db, g);
    var m := db.merge;
    forall id, r | Holds(d.files, id, r) && id !in m.ids && id !in m.outs && m.phase != Idle ensures m.barrier < r.sn {
      if !Holds(db.files, id, r) {
        var i :| 0 <= i < |g| && g[i] == r;
      }
    }
    MergeGrows(db.files, d.files, db.index, d.index, db.active, db.active, m);
  }

  lemma Active(db: Db, ledger: map<nat, Record>)
    requires Sound(db, ledger)
    ensures HasActive(db) && db.files[db.active].tail == []
  {
  }

  // --- what a write means ------------------------------------------------------------------

  // The map after applying records in order.
  function Fold(m: map<Bytes, Bytes>, rs: seq<Record>): map<Bytes, Bytes> {
    if rs == [] then m
    else
      var p, r := Fold(m, rs[..|rs| - 1]), rs[|rs| - 1];
      if Tomb(r) then p - {r.key} else p[r.key := r.value]
  }

  lemma {:induction false} FoldConcat(m: map<Bytes, Bytes>, a: seq<Record>, b: seq<Record>)
    ensures Fold(m, a + b) == Fold(Fold(m, a), b)
  {
    if b == [] {
      assert a + b == a;
    } else {
      assert (a + b)[..|a + b| - 1] == a + b[..|b| - 1];
      FoldConcat(m, a, b[..|b| - 1]);
    }
  }

  // The live map an index denotes.
  function View(ix: Index, ledger: map<nat, Record>): map<Bytes, Bytes> {
    map k | k in ix && !ix[k].tomb && ix[k].sn in ledger :: ledger[ix[k].sn].value
  }

  lemma LiveView(ix: Index, ledger: map<nat, Record>)
    requires forall k :: k in ix ==> ix[k].sn in ledger
    ensures forall k :: k in View(ix, ledger) <==> k in ix && !ix[k].tomb
  {
  }

  lemma PutView(ix: Index, r: Record, e: Entry, ledger: map<nat, Record>)
    requires r.sn in ledger && ledger[r.sn] == Lifted(r) && e.sn == r.sn && e.tomb == Tomb(r)
    ensures View(ix[r.key := e], ledger) == Fold(View(ix, ledger), [r])
  {
    var m := View(ix, ledger);
    assert [r][..0] == [];
    assert Fold(m, [r]) == if Tomb(r) then m - {r.key} else m[r.key := r.value];
  }

  lemma {:induction false} ReplayView(ix: Index, id: nat, rs: seq<Record>, lo: nat, hi: nat, sn: nat,
                                      ledger: map<nat, Record>)
    requires lo <= hi <= |rs|
    requires forall k :: k in ix ==> ix[k].sn <= sn
    requires forall i :: lo <= i < hi ==>
               rs[i].sn == sn + 1 + (i - lo) && rs[i].sn in ledger && ledger[rs[i].sn] == Lifted(rs[i])
    ensures forall k :: k in Replay(ix, id, rs, lo, hi) ==> Replay(ix, id, rs, lo, hi)[k].sn <= sn + (hi - lo)
    ensures View(Replay(ix, id, rs, lo, hi), ledger) == Fold(View(ix, ledger), rs[lo..hi])
  {
    hide SizeAll, Tomb, View, Fold;
    var m := View(ix, ledger);
    if lo == hi {
      assert rs[lo..hi] == [];
      FoldNone(m);
    } else {
      ReplayView(ix, id, rs, lo, hi - 1, sn, ledger);
      var px, r, e := Replay(ix, id, rs, lo, hi - 1), rs[hi - 1], Locate(id, rs, hi - 1);
      assert rs[lo..hi] == rs[lo..hi - 1] + [r];
      assert Replay(ix, id, rs, lo, hi) == px[r.key := e];
      PutView(px, r, e, ledger);
      FoldConcat(m, rs[lo..hi - 1], [r]);
    }
  }

  lemma FoldNone(m: map<Bytes, Bytes>)
    ensures Fold(m, []) == m
  {
  }

  // Every entry's number is in the ledger, and the ledger tells its tombstone flag.
  lemma IndexLedgered(db: Db, ledger: map<nat, Record>)
    requires Sound(db, ledger)
    ensures forall k :: k in db.index ==>
              db.index[k].sn <= db.sn && db.index[k].sn in ledger
              && ledger[db.index[k].sn].key == k && Tomb(ledger[db.index[k].sn]) == db.index[k].tomb
  {
    hide Merging, Forgotten, Newest, Shaped;
    forall k | k in db.index
      ensures db.index[k].sn <= db.sn && db.index[k].sn in ledger
              && ledger[db.index[k].sn].key == k && Tomb(ledger[db.index[k].sn]) == db.index[k].tomb
    {
      assert Points(db.files, k, db.index[k]);
      assert Holds(db.files, db.index[k].file, Deref(db.files, db.index[k]).value);
    }
  }

  lemma SameView(ix: Index, ledger: map<nat, Record>, l: map<nat, Record>)
    requires forall k :: k in ix ==> ix[k].sn in ledger && ix[k].sn in l && ledger[ix[k].sn] == l[ix[k].sn]
    ensures View(ix, ledger) == View(ix, l)
  {
  }

  lemma ExtendView(db: Db, ledger: map<nat, Record>, g: seq<Record>)
    requires Sound(db, ledger) && Numbered(g, db.sn)
    ensures View(Extend(db, g).index, Enter(ledger, g, db.sn)) == Fold(View(db.index, ledger), g)
  {
    hide Sound, SizeAll, Replay, Fold, Enter, Lifted, Tomb;
    Active(db, ledger);
    IndexLedgered(db, ledger);
    var prior, l := db.files[db.active].recs, Enter(ledger, g, db.sn);
    assert (prior + g)[|prior|..|prior + g|] == g;
    SameView(db.index, ledger, l);
    hide View;
    ReplayView(db.index, db.active, prior + g, |prior|, |prior + g|, db.sn, l);
  }

  // --- the steps -----------------------------------------------------------------------------

  lemma RotateSound(db: Db, ledger: map<nat, Record>, incoming: nat)
    requires Sound(db, ledger)
    ensures Sound(Rotate(db, incoming), ledger)
    ensures Rotate(db, incoming).index == db.index && Rotate(db, incoming).sn == db.sn
  {
    hide Sound;
    OpenNewActiveSound(db, ledger);
  }

  lemma SyncSound(db: Db, ledger: map<nat, Record>)
    requires Sound(db, ledger)
    ensures Sound(Sync(db), ledger)
  {
    hide Merging, Forgotten, Newest, Ledgered, Pointing, ModeOf;
    assert db.files[db.active].recs[..|db.files[db.active].recs|] == db.files[db.active].recs;
  }

  lemma {:induction false} StampSize(g: seq<Record>, sn: nat)
    ensures SizeAll(Stamp(g, sn)) == SizeAll(g)
  {
    if g != [] {
      StampSize(g[..|g| - 1], sn);
      assert Stamp(g, sn)[..|g| - 1] == Stamp(g[..|g| - 1], sn);
    }
  }

  lemma StampOperation(g: seq<Record>, sn: nat)
    requires Operation(g)
    ensures Operation(Stamp(g, sn)) && Numbered(Stamp(g, sn), sn) && SizeAll(Stamp(g, sn)) == SizeAll(g)
  {
    StampSize(g, sn);
  }

  lemma RotateNumber(db: Db, n: nat, incoming: nat)
    requires HasActive(db)
    ensures Rotate(db.(sn := db.sn + n), incoming) == Rotate(db, incoming).(sn := db.sn + n)
    ensures Rotate(db, incoming).sn == db.sn
  {
  }

  lemma AppendIsExtend(db: Db, ledger: map<nat, Record>, g: seq<Record>, always: bool)
    requires Sound(db, ledger) && Writable(db, g)
    ensures var d := Rotate(db, SizeAll(Stamp(g, db.sn)));
            && Sound(d, ledger)
            && Append(db, g, always) == if always then Sync(Extend(d, Stamp(g, db.sn))) else Extend(d, Stamp(g, db.sn))
  {
    hide Sound, Operation, SizeAll, Stamp, Replay, ApplyWritten, Rotate;
    var s := Stamp(g, db.sn);
    StampOperation(g, db.sn);
    Active(db, ledger);
    RotateSound(db, ledger, SizeAll(s));
    var d := Rotate(db, SizeAll(s));
    Active(d, ledger);
    RotateNumber(db, |g|, SizeAll(s));
    WrittenIsReplay(d.index, d.active, d.files[d.active].recs, s, |s|);
  }

  // A local write keeps the invariant, and does to the live map what its records say.
  lemma AppendSound(db: Db, ledger: map<nat, Record>, g: seq<Record>, always: bool)
    requires Sound(db, ledger) && Writable(db, g)
    ensures var s, d := Stamp(g, db.sn), Append(db, g, always);
            && Numbered(s, db.sn) && Sound(d, Enter(ledger, s, db.sn))
            && View(d.index, Enter(ledger, s, db.sn)) == Fold(View(db.index, ledger), s)
  {
    hide Sound, Operation, SizeAll, Stamp, Extend, Enter, View, Fold, Rotate, Append;
    var s := Stamp(g, db.sn);
    StampOperation(g, db.sn);
    Active(db, ledger);
    var d := Rotate(db, SizeAll(s));
    RotateSound(db, ledger, SizeAll(s));
    ExtendSound(d, ledger, s);
    ExtendView(d, ledger, s);
    AppendIsExtend(db, ledger, g, always);
    if always {
      SyncSound(Extend(d, s), Enter(ledger, s, db.sn));
    }
  }
}
