/** Reads that race a merge: a locator looked up at one step and read at a later one. */
module Reads {
  import opened Bytes
  import opened Records
  import opened Log
  import opened Engine
  import opened Invariant
  import opened Writing
  import opened Compaction
  import opened Durability
  import opened Crash
  import opened Runs

  datatype Outcome = Value(v: Bytes) | Gone | NotFound | Mismatch | Damaged

  ghost predicate Decodable(fs: Files) { forall id :: id in fs ==> AllValid(fs[id].recs) }

  // Read size bytes at the locator, decode them, and compare sequence numbers.
  function ReadValue(fs: Files, e: Entry): Outcome
    requires Decodable(fs)
  {
    if e.file !in fs then Gone
    else
      var b := FileBytes(fs[e.file]);
      if e.pos + e.size > |b| then Damaged
      else
        match Decode(b[e.pos..e.pos + e.size])
        case Decoded(r) => if r.sn != e.sn then Mismatch else if Tomb(r) then NotFound else Value(r.value)
        case _ => Damaged
  }

  // On any files: a value is read if and only if the bytes at the locator are the encoding of a put
  // with that sequence number and that value.
  lemma ReadExact(fs: Files, e: Entry, v: Bytes)
    requires Decodable(fs)
    ensures ReadValue(fs, e) == Value(v) <==>
              e.file in fs && exists r :: PutAt(FileBytes(fs[e.file]), e, r) && r.value == v
  {
    hide Decode, Encode, FileBytes;
    if e.file in fs && e.pos + e.size <= |FileBytes(fs[e.file])| {
      var raw := FileBytes(fs[e.file])[e.pos..e.pos + e.size];
      if Decode(raw).Decoded? {
        EncodeDecode(raw);
        assert PutAt(FileBytes(fs[e.file]), e, Decode(raw).r) <==> Decode(raw).r.sn == e.sn && !Tomb(Decode(raw).r);
      }
      forall r | PutAt(FileBytes(fs[e.file]), e, r) ensures Decode(raw) == Decoded(r) {
        DecodeEncode(r);
      }
    }
  }

  ghost predicate PutAt(b: Bytes, e: Entry, r: Record) {
    && e.pos + e.size <= |b| && Encodable(r) && Encode(r) == b[e.pos..e.pos + e.size] && r.sn == e.sn && !Tomb(r)
  }

  // Files only grow, and the id of a deleted file is never issued again.
  ghost predicate Persists(db: Db, d: Db) {
    && db.nextID <= d.nextID
    && (forall id :: id in db.files && id in d.files ==> db.files[id].recs <= d.files[id].recs)
    && (forall id :: id < db.nextID && id !in db.files ==> id !in d.files)
  }

  lemma PersistsTrans(a: Db, b: Db, c: Db)
    requires Persists(a, b) && Persists(b, c)
    requires forall id :: id in a.files ==> id < a.nextID
    ensures Persists(a, c)
  {
    forall id | id in a.files && id in c.files ensures a.files[id].recs <= c.files[id].recs {
      assert id < b.nextID && id in b.files;
    }
  }

  lemma WrittenPersists(w: World, g: seq<Record>, always: bool)
    requires Phys(w) && Writable(w.db, g)
    ensures HasActive(w.db) && Persists(w.db, Written(w, g, always).db)
  {
    hide Phys, Sound, Tidy, Kept, Recent, Written, Append, Writable;
    PhysActive(w);
    PhysParts(w);
    WrittenIsAppend(w, g, always);
    BelowNextID(w.db, w.ledger);
    AppendPersists(w.db, g, always);
  }

  lemma AppendPersists(db: Db, g: seq<Record>, always: bool)
    requires HasActive(db) && forall id :: id in db.files ==> id < db.nextID
    ensures Persists(db, Append(db, g, always))
  {
    hide Stamp, SizeAll, ApplyWritten;
    RotateCases(db.(sn := db.sn + |g|), SizeAll(Stamp(g, db.sn)));
  }

  lemma CopyPersists(w: World)
    requires Phys(w) && w.db.merge.phase == Copying && |w.db.merge.moved| < |w.db.merge.items|
    ensures Persists(w.db, Copy(w.db))
  {
    hide Phys, Sound, Copy, Points, Lifted, Tomb, CopiedTo, Persists;
    PhysParts(w);
    var r := NextItem(w.db, w.ledger);
    BelowNextID(w.db, w.ledger);
    var out := CopyTarget(w.db, w.ledger, r);
    CopiedPersists(w.db, out, Lifted(r), Copy(w.db));
  }

  lemma CopiedPersists(db: Db, out: nat, l: Record, d: Db)
    requires CopiedTo(db, out, l, d) && forall id :: id in db.files ==> id < db.nextID
    ensures Persists(db, d)
  {
    hide FileSize, Size;
  }

  lemma FewerPersists(db: Db, d: Db)
    requires db.nextID == d.nextID && forall id :: id in d.files ==> id in db.files && d.files[id] == db.files[id]
    ensures Persists(db, d)
  {
  }

  lemma SealPersists(db: Db)
    requires HasActive(db) && forall id :: id in db.files ==> id < db.nextID
    ensures Persists(db, Seal(db))
  {
    hide SizeAll;
  }

  lemma NextPersists(w: World, a: Action)
    requires Phys(w) && !a.Reboot?
    ensures Persists(w.db, Runs.Next(w, a).db)
  {
    hide Phys, Written, Tops, Copy, AllValid, Writable, Persists, Seal, Collects, SizeAll, RepointTo, RetireTo;
    if Enabled(w, a) {
      PhysParts(w);
      hide Sound;
      BelowNextID(w.db, w.ledger);
      match a
      case Put(g, always) => WrittenPersists(w, g, always);
      case CopyNext => CopyPersists(w);
      case SealActive => SealPersists(w.db);
      case _ => FewerPersists(w.db, Runs.Next(w, a).db);
    } else {
      PersistsSelf(w.db);
    }
  }

  lemma {:induction false} RunPersists(w: World, acts: seq<Action>)
    requires Phys(w) && Uninterrupted(acts)
    ensures Persists(w.db, Run(w, acts).db)
    decreases |acts|
  {
    hide Phys, Runs.Next, Persists;
    if acts == [] {
      PersistsSelf(w.db);
    } else {
      var v := Run(w, acts[..|acts| - 1]);
      RunPersists(w, acts[..|acts| - 1]);
      RunPhys(w, acts[..|acts| - 1]);
      NextPersists(v, acts[|acts| - 1]);
      PhysParts(w);
      BelowNextID(w.db, w.ledger);
      PersistsTrans(w.db, v.db, Runs.Next(v, acts[|acts| - 1]).db);
    }
  }

  lemma PersistsSelf(db: Db)
    ensures Persists(db, db)
  {
  }

  // Reading a sound locator yields the value the ledger has for it.
  lemma ReadPointed(fs: Files, k: Bytes, e: Entry)
    requires Points(fs, k, e) && !e.tomb && Decodable(fs)
    ensures Deref(fs, e).Some? && ReadValue(fs, e) == Value(Deref(fs, e).value.value)
  {
    hide At, Decode, EncodeAll;
    BytesAt(fs[e.file].recs, fs[e.file].tail, e.pos);
  }

  // A key looked up live at one step and read after any number of others: the value it had
  // at the lookup, or word that the file is gone. Never another key's value or another
  // version.
  lemma ReadRace(w: World, acts: seq<Action>, k: Bytes)
    requires Phys(w) && Uninterrupted(acts) && k in w.db.index && !w.db.index[k].tomb
    ensures k in View(w.db.index, w.ledger) && Decodable(Run(w, acts).db.files)
    ensures ReadValue(Run(w, acts).db.files, w.db.index[k]) in {Value(View(w.db.index, w.ledger)[k]), Gone}
  {
    hide Phys, Sound, Run, At, ReadValue, Lifted, Tomb;
    var v, e := Run(w, acts), w.db.index[k];
    RunPhys(w, acts);
    RunPersists(w, acts);
    PhysParts(w);
    PhysParts(v);
    IndexLedgered(w.db, w.ledger);
    ValidRecords(v.db, v.ledger);
    IndexPoints(w.db, w.ledger, k);
    LedgerOf(w.db, w.ledger, e.file, Deref(w.db.files, e).value);
    if e.file in v.db.files {
      StillPoints(w.db, v.db, k, e);
      ReadPointed(v.db.files, k, e);
    } else {
      ReadGone(v.db.files, e);
    }
  }

  lemma IndexPoints(db: Db, ledger: map<nat, Record>, k: Bytes)
    requires Sound(db, ledger) && k in db.index
    ensures Points(db.files, k, db.index[k])
  {
  }

  lemma ReadGone(fs: Files, e: Entry)
    requires e.file !in fs && Decodable(fs)
    ensures ReadValue(fs, e) == Gone
  {
  }

  lemma StillPoints(db: Db, d: Db, k: Bytes, e: Entry)
    requires Points(db.files, k, e) && Persists(db, d) && e.file in d.files
    ensures Points(d.files, k, e) && Deref(d.files, e) == Deref(db.files, e)
  {
    hide At;
    var a, b := db.files[e.file].recs, d.files[e.file].recs;
    assert b == a + b[|a|..];
    AtAppend(a, b[|a|..], e.pos);
  }

  // --- files that last --------------------------------------------------------------------------------

  // A file that only an unlink can take away: no merge that may still give up is writing it.
  ghost predicate Lasting(db: Db, id: nat) {
    id in db.files && (id in db.merge.outs ==> db.merge.phase !in {Sealed, Copying, Synced})
  }

  lemma IndexedLasting(w: World, k: Bytes)
    requires Phys(w) && k in w.db.index
    ensures Lasting(w.db, w.db.index[k].file)
  {
    hide Phys, Sound;
    PhysParts(w);
    IndexPoints(w.db, w.ledger, k);
    NotInOutput(w.db, w.ledger, k);
  }

  lemma NotInOutput(db: Db, ledger: map<nat, Record>, k: Bytes)
    requires Sound(db, ledger) && k in db.index
    ensures db.merge.phase in {Sealed, Copying, Synced} ==> db.index[k].file !in db.merge.outs
  {
    hide Shaped, Bounded, Ledgered, Pointing, Invariant.Newest, Forgotten, Collected, Moved, OnlyCopies, Awaiting,
         Progress, Split;
  }

  lemma Disabled(w: World, a: Action)
    requires !Enabled(w, a)
    ensures Runs.Next(w, a) == w
  {
    hide Enabled;
  }

  // Every step but an unlink leaves it.
  lemma NextLasting(w: World, a: Action, id: nat)
    requires Phys(w) && Lasting(w.db, id) && a != Drop && !a.Reboot?
    ensures Lasting(Runs.Next(w, a).db, id)
  {
    hide Phys, Sound, Written, Copy, Collects, Tops, SizeAll, RepointTo, RetireTo, Immutable, Writable, Append;
    PhysParts(w);
    BelowNextID(w.db, w.ledger);
    if Enabled(w, a) {
      match a
      case Put(g, always) =>
        WrittenIsAppend(w, g, always);
        AppendLasting(w.db, g, always, id);
      case CopyNext =>
        var r := NextItem(w.db, w.ledger);
        var out := CopyTarget(w.db, w.ledger, r);
        CopyLasting(w.db, out, Lifted(r), Copy(w.db), id);
      case _ =>
    }
  }

  lemma AppendLasting(db: Db, g: seq<Record>, always: bool, id: nat)
    requires HasActive(db) && Lasting(db, id)
    ensures Lasting(Append(db, g, always), id)
  {
    hide Stamp, SizeAll, ApplyWritten;
  }

  lemma CopyLasting(db: Db, out: nat, l: Record, d: Db, id: nat)
    requires CopiedTo(db, out, l, d) && Lasting(db, id) && id < db.nextID
    ensures Lasting(d, id)
  {
    hide FileSize, Size;
  }

  lemma ReadGoneIff(w: World, e: Entry)
    requires Phys(w)
    ensures Decodable(w.db.files) && (ReadValue(w.db.files, e).Gone? <==> e.file !in w.db.files)
  {
    hide Phys, Sound, Decode;
    PhysParts(w);
    ValidRecords(w.db, w.ledger);
  }
}
