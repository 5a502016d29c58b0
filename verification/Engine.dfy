/** The log-structured engine as a state machine over its data files and its index.

    Each function below is one step: the part of an engine call that runs under one
    lock. Writers, hint builders, the phases of a merge and a crash interleave freely. */
module Engine {
  import opened Bytes
  import opened Records
  import opened Log

  // --- index -------------------------------------------------------------------

  datatype Entry = Entry(pos: nat, sn: nat, file: nat, size: nat, tomb: bool)
  type Index = map<Bytes, Entry>

  // Newest sequence wins; a tombstone is stored like any other record.
  function Apply(ix: Index, k: Bytes, e: Entry): Index {
    if k in ix && ix[k].sn >= e.sn then ix else ix[k := e]
  }

  function Locate(id: nat, rs: seq<Record>, i: nat): Entry
    requires i < |rs|
  {
    Entry(SizeAll(rs[..i]), rs[i].sn, id, Size(rs[i]), Tomb(rs[i]))
  }

  // Applying records lo .. hi of file id, in log order.
  function Replay(ix: Index, id: nat, rs: seq<Record>, lo: nat, hi: nat): Index
    requires lo <= hi <= |rs|
  {
    if lo == hi then ix
    else Apply(Replay(ix, id, rs, lo, hi - 1), rs[hi - 1].key, Locate(id, rs, hi - 1))
  }

  // --- files ---------------------------------------------------------------------

  // A data file: its committed records, and what a crash left torn behind them.
  datatype File = File(recs: seq<Record>, tail: Bytes)

  function FileSize(f: File): nat { SizeAll(f.recs) + |f.tail| }

  function FileBytes(f: File): Bytes
    requires AllValid(f.recs)
  {
    EncodeAll(f.recs) + f.tail
  }

  lemma EmptyFile()
    ensures FileSize(File([], [])) == 0
  {
  }

  type Files = map<nat, File>

  ghost predicate Holds(fs: Files, id: nat, r: Record) { id in fs && r in fs[id].recs }

  function Deref(fs: Files, e: Entry): (o: Option<Record>)
    ensures o.Some? ==> Holds(fs, e.file, o.value)
  {
    if e.file in fs then At(fs[e.file].recs, e.pos) else None
  }

  // --- state ---------------------------------------------------------------------

  datatype Item = Item(key: Bytes, e: Entry)

  datatype Phase = Idle | Sealed | Copying | Synced | Repointing | Retiring | Dropping

  // The local variables of a merge in flight.
  datatype Merge = Merge(phase: Phase, ids: set<nat>, barrier: nat, items: seq<Item>, retired: seq<Item>,
                         moved: seq<Entry>, outs: seq<nat>, done: nat)

  const NO_MERGE := Merge(Idle, {}, 0, [], [], [], [], 0)

  datatype Db = Db(maxSize: nat, files: Files, hinted: set<nat>, index: Index, active: nat, nextID: nat,
                   sn: nat, mergeSn: nat, synced: nat, merge: Merge)

  function Init(maxSize: nat): Db {
    Db(maxSize, map[0 := File([], [])], {}, map[], 0, 1, 0, 0, 0, NO_MERGE)
  }

  // --- writes ----------------------------------------------------------------------

  function OpenNewActive(db: Db): Db {
    db.(files := db.files[db.nextID := File([], [])], active := db.nextID, nextID := db.nextID + 1, synced := 0)
  }

  predicate HasActive(db: Db) { db.active in db.files }

  function Rotate(db: Db, incoming: nat): (d: Db)
    requires HasActive(db)
    ensures HasActive(d)
  {
    var cur := FileSize(db.files[db.active]);
    if cur == 0 || cur + incoming <= db.maxSize then db else OpenNewActive(db)
  }

  // The locator the writer builds for record i of a group written at base. The offset
  // inside the write buffer is kept in 32 bits.
  function WrittenEntry(id: nat, base: nat, g: seq<Record>, i: nat): Entry
    requires i < |g|
  {
    Entry(base + SizeAll(g[..i]) % U32, g[i].sn, id, Size(g[i]), Tomb(g[i]))
  }

  function ApplyWritten(ix: Index, id: nat, base: nat, g: seq<Record>, n: nat): Index
    requires n <= |g|
  {
    if n == 0 then ix
    else Apply(ApplyWritten(ix, id, base, g, n - 1), g[n - 1].key, WrittenEntry(id, base, g, n - 1))
  }

  // Append an encoded group to the active file and index it.
  function Write(db: Db, g: seq<Record>, always: bool): Db
    requires HasActive(db)
  {
    var d := Rotate(db, SizeAll(g));
    var f := d.files[d.active];
    d.(files := d.files[d.active := File(f.recs + g, f.tail)],
       index := ApplyWritten(d.index, d.active, FileSize(f), g, |g|),
       synced := if always then |f.recs + g| else d.synced)
  }

  function Single(now: int, flags: byte, key: Bytes, value: Bytes): Record { Record(now, 0, flags, key, value) }

  const BATCH: byte := 2
  const BATCH_END: byte := 4

  // Every record carries the batch flag, the last one the terminator as well.
  function Batched(now: int, keys: seq<Bytes>, values: seq<Bytes>, i: nat): Record
    requires i < |keys| == |values|
  {
    Single(now, if i == |keys| - 1 then BATCH + BATCH_END else BATCH, keys[i], values[i])
  }

  function Batch(now: int, keys: seq<Bytes>, values: seq<Bytes>): (g: seq<Record>)
    requires |keys| == |values|
    ensures |g| == |keys| && forall i :: 0 <= i < |g| ==> g[i] == Batched(now, keys, values, i)
  {
    seq(|keys|, i requires 0 <= i < |keys| => Batched(now, keys, values, i))
  }

  // Numbering the records of a local write.
  function Stamp(g: seq<Record>, sn: nat): (s: seq<Record>)
    ensures |s| == |g|
    ensures forall i :: 0 <= i < |g| ==> s[i] == g[i].(sn := sn + 1 + i)
  {
    seq(|g|, i requires 0 <= i < |g| => g[i].(sn := sn + 1 + i))
  }

  function Append(db: Db, g: seq<Record>, always: bool): Db
    requires HasActive(db)
  {
    Write(db.(sn := db.sn + |g|), Stamp(g, db.sn), always)
  }

  // A group that a local write can issue: one operation of valid records whose numbers
  // fit 64 bits and whose encoding fits the 32-bit buffer offsets.
  ghost predicate Writable(db: Db, g: seq<Record>) {
    Operation(g) && AllValid(Stamp(g, db.sn)) && SizeAll(g) <= U32
  }

  function Sync(db: Db): Db
    requires HasActive(db)
  {
    db.(synced := |db.files[db.active].recs|)
  }

  // --- hints ------------------------------------------------------------------------

  predicate Immutable(db: Db, id: nat) {
    id in db.files && id != db.active && (id in db.merge.outs ==> db.merge.phase !in {Sealed, Copying})
  }

  function Hint(db: Db, id: nat): Db { db.(hinted := db.hinted + {id}) }

  // --- merge -------------------------------------------------------------------------

  // Seal the active file and fix the merge set. Nothing to merge leaves the engine idle.
  function Seal(db: Db): Db
    requires HasActive(db)
  {
    var d := if FileSize(db.files[db.active]) > 0 then OpenNewActive(db) else db;
    var ids := d.files.Keys - {d.active};
    if ids == {} then d
    else d.(merge := NO_MERGE.(phase := Sealed, ids := ids, barrier := d.sn))
  }

  ghost predicate KeyOrdered(items: seq<Item>) {
    forall i, j :: 0 <= i < j < |items| ==> Less(items[i].key, items[j].key)
  }

  // items and retired are exactly the live and the deleted keys whose newest record lies
  // in the merge set, in key order.
  ghost predicate Collects(ix: Index, ids: set<nat>, items: seq<Item>, retired: seq<Item>) {
    && KeyOrdered(items) && KeyOrdered(retired)
    && (forall it :: it in items <==> it.key in ix && it.e == ix[it.key] && it.e.file in ids && !it.e.tomb)
    && (forall it :: it in retired <==> it.key in ix && it.e == ix[it.key] && it.e.file in ids && it.e.tomb)
  }

  function Snapshot(db: Db, items: seq<Item>, retired: seq<Item>): Db {
    db.(merge := db.merge.(phase := Copying, items := items, retired := retired))
  }

  // Copy the next item, lifted out of its batch, into the current output file.
  function Copy(db: Db): Db
    requires |db.merge.moved| < |db.merge.items|
  {
    var m := db.merge;
    match Deref(db.files, m.items[|m.moved|].e)
    case None => db
    case Some(r) =>
      var l := Lifted(r);
      var roll := m.outs == [] || m.outs[|m.outs| - 1] !in db.files
                  || FileSize(db.files[m.outs[|m.outs| - 1]]) + Size(l) > db.maxSize;
      var out := if roll then db.nextID else m.outs[|m.outs| - 1];
      var f := if roll then File([], []) else db.files[out];
      db.(files := db.files[out := File(f.recs + [l], f.tail)],
          nextID := if roll then db.nextID + 1 else db.nextID,
          merge := m.(outs := if roll then m.outs + [out] else m.outs,
                      moved := m.moved + [Entry(FileSize(f), l.sn, out, Size(l), false)]))
  }

  function SyncOuts(db: Db): Db { db.(merge := db.merge.(phase := Synced)) }

  function OutSet(outs: seq<nat>): set<nat> { set id | id in outs }

  // Give up: the outputs are deleted, the index was never touched.
  function Abort(db: Db): Db {
    db.(files := db.files - OutSet(db.merge.outs), hinted := db.hinted - OutSet(db.merge.outs), merge := NO_MERGE)
  }

  function BeginRepoint(db: Db): Db { db.(merge := db.merge.(phase := Repointing, done := 0)) }

  function RepointOne(ix: Index, it: Item, e: Entry): Index {
    if it.key in ix && ix[it.key].sn == it.e.sn && ix[it.key].file == it.e.file then ix[it.key := e] else ix
  }

  function RepointTo(ix: Index, items: seq<Item>, moved: seq<Entry>, lo: nat, hi: nat): Index
    requires lo <= hi <= |items| && |moved| == |items|
  {
    if lo == hi then ix
    else RepointOne(RepointTo(ix, items, moved, lo, hi - 1), items[hi - 1], moved[hi - 1])
  }

  function Repoint(db: Db, hi: nat): Db
    requires db.merge.done <= hi <= |db.merge.items| == |db.merge.moved|
  {
    db.(index := RepointTo(db.index, db.merge.items, db.merge.moved, db.merge.done, hi),
        merge := db.merge.(done := hi))
  }

  function BeginRetire(db: Db): Db { db.(merge := db.merge.(phase := Retiring, done := 0)) }

  function RetireOne(ix: Index, it: Item): Index {
    if it.key in ix && ix[it.key].sn == it.e.sn && ix[it.key].file == it.e.file then ix - {it.key} else ix
  }

  function RetireTo(ix: Index, retired: seq<Item>, lo: nat, hi: nat): Index
    requires lo <= hi <= |retired|
  {
    if lo == hi then ix else RetireOne(RetireTo(ix, retired, lo, hi - 1), retired[hi - 1])
  }

  function Retire(db: Db, hi: nat): Db
    requires db.merge.done <= hi <= |db.merge.retired|
  {
    db.(index := RetireTo(db.index, db.merge.retired, db.merge.done, hi), merge := db.merge.(done := hi))
  }

  function RaiseMark(db: Db): Db {
    db.(mergeSn := db.merge.barrier, merge := db.merge.(phase := Dropping))
  }

  function Unlink(db: Db): Db {
    db.(files := db.files - db.merge.ids, hinted := db.hinted - db.merge.ids, merge := NO_MERGE)
  }
}
