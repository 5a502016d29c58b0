/** The replica side: installing records another node produced, sequence numbers and all. */
module Replica {
  import opened Bytes
  import opened Records
  import opened Log
  import opened Engine
  import opened Invariant
  import opened Writing
  import opened Versions

  // --- parsing ---------------------------------------------------------------------------

  // Records off the wire. Anything that is not exactly a run of valid records is refused.
  method ParseRaw(raw: Bytes) returns (o: Option<seq<Record>>)
    ensures o.Some? ==> AllValid(o.value) && EncodeAll(o.value) == raw
    ensures o.None? ==> forall rs :: AllValid(rs) ==> EncodeAll(rs) != raw
  {
    hide Encode, Decode, EncodeAll;
    var recs, off := [], 0;
    NothingParsed(raw);
    while off < |raw|
      invariant off <= |raw| && Parsed(raw, recs, off)
      decreases |raw| - off
    {
      var rest := raw[off..];
      if |rest| < HEADER {
        Refused(raw, recs, off);
        return None;
      }
      var keyLen, valLen := KeyLen(rest), ValLen(rest);
      if keyLen == 0 || keyLen > MAX_KEY || valLen > MAX_VALUE || HEADER + keyLen + valLen > |rest| {
        Refused(raw, recs, off);
        return None;
      }
      var size := HEADER + keyLen + valLen;
      match Decode(rest[..size])
      case Decoded(r) =>
        DecodedSize(rest[..size], r);
        Accepted(raw, recs, off, r);
        recs, off := recs + [r], off + size;
      case _ =>
        Refused(raw, recs, off);
        return None;
    }
    assert raw[..off] == raw;
    return Some(recs);
  }

  lemma DecodedSize(b: Bytes, r: Record)
    requires Decode(b) == Decoded(r)
    ensures Size(r) == |b|
  {
    EncodeDecode(b);
  }

  ghost predicate Parsed(raw: Bytes, recs: seq<Record>, off: nat)
    requires off <= |raw|
  {
    AllValid(recs) && EncodeAll(recs) == raw[..off] && Intact(raw) == recs + Intact(raw[off..])
  }

  lemma NothingParsed(raw: Bytes)
    ensures Parsed(raw, [], 0)
  {
    assert raw[0..] == raw;
  }

  lemma Refused(raw: Bytes, recs: seq<Record>, off: nat)
    requires off < |raw| && Parsed(raw, recs, off) && Next(raw[off..]).None?
    ensures forall rs :: AllValid(rs) ==> EncodeAll(rs) != raw
  {
    hide Encode, Next, EncodeAll;
    assert Intact(raw) == recs;
    forall rs | AllValid(rs) ensures EncodeAll(rs) != raw {
      IntactEncoded(rs, []);
      NextShort([]);
      assert EncodeAll(rs) + [] == EncodeAll(rs) && rs + [] == rs;
    }
  }

  lemma Accepted(raw: Bytes, recs: seq<Record>, off: nat, r: Record)
    requires off < |raw| && Parsed(raw, recs, off) && Next(raw[off..]) == Some(r)
    ensures off + Size(r) <= |raw| && Parsed(raw, recs + [r], off + Size(r))
  {
    hide Encode, Next;
    var rest := raw[off..];
    assert (recs + [r])[..|recs|] == recs;
    assert raw[..off + Size(r)] == raw[..off] + rest[..Size(r)];
    assert rest[Size(r)..] == raw[off + Size(r)..];
    assert recs + Intact(rest) == (recs + [r]) + Intact(raw[off + Size(r)..]);
  }

  // --- installing --------------------------------------------------------------------------

  // Append the group, index what is newer, and keep the highest sequence number seen.
  function Install(db: Db, g: seq<Record>, always: bool): (d: Db)
    requires HasActive(db)
    ensures HasActive(d)
  {
    if g == [] then db else Write(db, g, always).(sn := HighestAll(db.sn, g))
  }

  // --- redelivery -----------------------------------------------------------------------------------

  lemma {:induction false} WrittenCovers(ix: Index, id: nat, base: nat, g: seq<Record>, n: nat, i: nat)
    requires i < n <= |g|
    ensures var jx := ApplyWritten(ix, id, base, g, n); g[i].key in jx && g[i].sn <= jx[g[i].key].sn
    decreases n
  {
    hide SizeAll;
    if i < n - 1 {
      WrittenCovers(ix, id, base, g, n - 1, i);
    }
  }

  lemma {:induction false} WrittenAbsorbed(ix: Index, id: nat, base: nat, g: seq<Record>, n: nat)
    requires n <= |g| && forall i :: 0 <= i < |g| ==> g[i].key in ix && g[i].sn <= ix[g[i].key].sn
    ensures ApplyWritten(ix, id, base, g, n) == ix
    decreases n
  {
    hide SizeAll;
    if n > 0 {
      WrittenAbsorbed(ix, id, base, g, n - 1);
    }
  }

  // A frame delivered again is written again, but the index stays as it was, locators included.
  lemma InstallTwice(db: Db, g: seq<Record>, always: bool)
    requires HasActive(db)
    ensures var d := Install(db, g, always);
            Install(d, g, always).index == d.index && Install(d, g, always).sn == d.sn
  {
    hide SizeAll, ApplyWritten, HighestAll, FileSize;
    var d := Install(db, g, always);
    if g != [] {
      var r := Rotate(db, SizeAll(g));
      forall i | 0 <= i < |g| ensures g[i].key in d.index && g[i].sn <= d.index[g[i].key].sn {
        WrittenCovers(r.index, r.active, FileSize(r.files[r.active]), g, |g|, i);
      }
      var q := Rotate(d, SizeAll(g));
      WrittenAbsorbed(q.index, q.active, FileSize(q.files[q.active]), g, |g|);
      HighestIsMax(db.sn, g);
      HighestIsMax(d.sn, g);
    }
  }

  // What the index leads to: sequence number, tombstone flag and value of every key.
  ghost function TableOf(fs: Files, ix: Index): Table
    requires Pointing(fs, ix)
  {
    map k | k in ix :: VersionOf(Deref(fs, ix[k]).value)
  }

  ghost predicate Standing(db: Db) {
    && HasActive(db) && db.files[db.active].tail == [] && Pointing(db.files, db.index)
    && forall id :: id in db.files ==> id < db.nextID
  }

  lemma TableGrows(fs: Files, gs: Files, ix: Index)
    requires Pointing(fs, ix) && Grows(fs, gs)
    ensures Pointing(gs, ix) && TableOf(gs, ix) == TableOf(fs, ix)
  {
    hide Points, At;
    forall k | k in ix ensures Points(gs, k, ix[k]) && Deref(gs, ix[k]) == Deref(fs, ix[k]) {
      PointsGrows(fs, gs, k, ix[k]);
    }
  }

  lemma {:induction false} ReplayTable(fs: Files, ix: Index, id: nat, lo: nat, hi: nat)
    requires Pointing(fs, ix) && id in fs && lo <= hi <= |fs[id].recs|
    ensures Pointing(fs, Replay(ix, id, fs[id].recs, lo, hi))
    ensures TableOf(fs, Replay(ix, id, fs[id].recs, lo, hi)) == ReceiveAll(TableOf(fs, ix), fs[id].recs[lo..hi])
    decreases hi - lo
  {
    hide Pointing, TableOf, Receive, Apply, Locate;
    var rs := fs[id].recs;
    if lo < hi {
      ReplayTable(fs, ix, id, lo, hi - 1);
      assert rs[lo..hi][..hi - lo - 1] == rs[lo..hi - 1];
      ApplyTable(fs, Replay(ix, id, rs, lo, hi - 1), id, hi - 1);
    } else {
      assert rs[lo..hi] == [];
    }
  }

  lemma ApplyTable(fs: Files, ix: Index, id: nat, i: nat)
    requires Pointing(fs, ix) && id in fs && i < |fs[id].recs|
    ensures var r := fs[id].recs[i];
            var jx := Apply(ix, r.key, Locate(id, fs[id].recs, i));
            Pointing(fs, jx) && TableOf(fs, jx) == Receive(TableOf(fs, ix), r)
  {
    hide At, SizeAll, Tomb;
    AtIndex(fs[id].recs, i);
  }

  lemma OpenTable(db: Db)
    requires Standing(db)
    ensures Standing(OpenNewActive(db)) && TableOf(OpenNewActive(db).files, db.index) == TableOf(db.files, db.index)
  {
    hide Pointing;
    TableGrows(db.files, OpenNewActive(db).files, db.index);
  }

  // A write into the file that is already active.
  lemma WriteTable(db: Db, g: seq<Record>, d: Db)
    requires Standing(db) && SizeAll(g) <= U32
    requires var f := db.files[db.active];
             && d.files == db.files[db.active := File(f.recs + g, f.tail)] && d.active == db.active
             && d.nextID == db.nextID
             && d.index == ApplyWritten(db.index, db.active, FileSize(f), g, |g|)
    ensures Standing(d) && TableOf(d.files, d.index) == ReceiveAll(TableOf(db.files, db.index), g)
  {
    hide Pointing, SizeAll, ApplyWritten, Replay, TableOf, ReceiveAll;
    var rs := db.files[db.active].recs;
    TableGrows(db.files, d.files, db.index);
    WrittenIsReplay(db.index, db.active, rs, g, |g|);
    ReplayTable(d.files, db.index, db.active, |rs|, |rs + g|);
    assert (rs + g)[|rs|..|rs + g|] == g;
  }

  lemma InstallTable(db: Db, g: seq<Record>, always: bool)
    requires Standing(db) && SizeAll(g) <= U32
    ensures var d := Install(db, g, always);
            && Standing(d) && d.sn == HighestAll(db.sn, g)
            && TableOf(d.files, d.index) == ReceiveAll(TableOf(db.files, db.index), g)
  {
    hide Pointing, SizeAll, ApplyWritten, TableOf, HighestAll, ReceiveAll;
    if g == [] {
      NothingReceived(db.sn, TableOf(db.files, db.index));
    } else {
      OpenTable(db);
      var r := Rotate(db, SizeAll(g));
      assert r == db || r == OpenNewActive(db);
      WriteTable(r, g, Install(db, g, always));
    }
  }

  lemma NothingReceived(sn: nat, t: Table)
    ensures HighestAll(sn, []) == sn && ReceiveAll(t, []) == t
  {
  }

  // --- whole streams ------------------------------------------------------------------------

  ghost predicate Frames(gs: seq<seq<Record>>) { forall i :: 0 <= i < |gs| ==> SizeAll(gs[i]) <= U32 }

  function InstallAll(db: Db, gs: seq<seq<Record>>, always: bool): (d: Db)
    requires HasActive(db)
    ensures HasActive(d)
    decreases |gs|
  {
    if gs == [] then db else Install(InstallAll(db, gs[..|gs| - 1], always), gs[|gs| - 1], always)
  }

  lemma {:induction false} InstallAllTable(db: Db, gs: seq<seq<Record>>, always: bool)
    requires Standing(db) && Frames(gs)
    ensures var d := InstallAll(db, gs, always);
            && Standing(d) && d.sn == HighestAll(db.sn, Flat(gs))
            && TableOf(d.files, d.index) == ReceiveAll(TableOf(db.files, db.index), Flat(gs))
    decreases |gs|
  {
    hide Pointing, TableOf, HighestAll, ReceiveAll, Install, SizeAll;
    var t := TableOf(db.files, db.index);
    if gs == [] {
      NothingReceived(db.sn, t);
    } else {
      var init, g := gs[..|gs| - 1], gs[|gs| - 1];
      InstallAllTable(db, init, always);
      InstallTable(InstallAll(db, init, always), g, always);
      ReceiveAllConcat(t, Flat(init), g);
      HighestAllConcat(db.sn, Flat(init), g);
    }
  }

  // A join: any permutation, grouping and duplication of the same records leaves the same
  // table and the same sequence number.
  lemma InstallIsJoin(db: Db, gs: seq<seq<Record>>, hs: seq<seq<Record>>, always: bool)
    requires Standing(db) && Frames(gs) && Frames(hs) && Agree(TableOf(db.files, db.index), Flat(gs))
    requires forall r :: r in Flat(gs) <==> r in Flat(hs)
    ensures var d, e := InstallAll(db, gs, always), InstallAll(db, hs, always);
            && Standing(d) && Standing(e)
            && TableOf(d.files, d.index) == TableOf(e.files, e.index) && d.sn == e.sn
            && (forall k :: k in d.index ==>
                  Wins(TableOf(db.files, db.index), Flat(gs), k, TableOf(d.files, d.index)[k]))
            && (forall k :: k in d.index <==> k in db.index || exists r :: r in Flat(gs) && r.key == k)
  {
    hide Pointing, HighestAll, ReceiveAll, InstallAll, SizeAll, Agree, Wins, Points, Flat, Deref;
    var t := TableOf(db.files, db.index);
    InstallAllTable(db, gs, always);
    InstallAllTable(db, hs, always);
    DeliveryOrder(t, db.sn, Flat(gs), Flat(hs));
    ReceiveAllWins(t, Flat(gs));
    var d := InstallAll(db, gs, always);
    assert forall k :: k in d.index <==> k in TableOf(d.files, d.index);
  }
}
