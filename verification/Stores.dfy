/** The store itself: data files as bytes, the shared-node index, and the write path. Every
    method is proved to take the engine step of the same name. */
module Stores {
  import opened Bytes
  import opened Records
  import opened Log
  import opened Engine
  import opened Invariant
  import opened Writing
  import opened Compaction
  import opened Reclaim
  import opened SharedIndex
  import opened Versions
  import Reads
  import opened Usage
  import Replica
  import Scanning

  datatype Error = EmptyKey | KeyTooLarge | ValueTooLong | BatchLength | KeyNotFound | StoreClosed | Corrupted

  datatype Outcome = Done | Failed(error: Error)

  predicate Admissible(key: Bytes) { 0 < |key| <= MAX_KEY }

  function ValidateKey(key: Bytes): (o: Outcome)
    ensures o == Done <==> Admissible(key)
    ensures o == Failed(EmptyKey) <==> key == []
    ensures o == Failed(KeyTooLarge) <==> |key| > MAX_KEY
  {
    if |key| == 0 then Failed(EmptyKey) else if |key| > MAX_KEY then Failed(KeyTooLarge) else Done
  }

  function ValidatePair(key: Bytes, value: Bytes): (o: Outcome)
    ensures o == Done <==> Admissible(key) && |value| <= MAX_VALUE
    ensures o == Failed(EmptyKey) <==> key == []
    ensures o == Failed(KeyTooLarge) <==> |key| > MAX_KEY
    ensures o == Failed(ValueTooLong) <==> Admissible(key) && |value| > MAX_VALUE
  {
    if ValidateKey(key) != Done then ValidateKey(key) else if |value| > MAX_VALUE then Failed(ValueTooLong) else Done
  }

  // What is on disk under each id is the encoding of what the model says is there.
  ghost predicate Encoded(data: map<nat, Bytes>, fs: Files) {
    && data.Keys == fs.Keys
    && forall id :: id in fs ==> AllValid(fs[id].recs) && data[id] == FileBytes(fs[id])
  }

  lemma EncodedNew(data: map<nat, Bytes>, fs: Files, id: nat)
    requires Encoded(data, fs)
    ensures Encoded(data[id := []], fs[id := File([], [])])
  {
    hide EncodeAll;
    EmptyEncoding();
  }

  lemma EmptyEncoding()
    ensures FileBytes(File([], [])) == []
  {
  }

  // Appending a group's encoding to a whole file.
  lemma EncodedAppend(data: map<nat, Bytes>, fs: Files, id: nat, g: seq<Record>)
    requires Encoded(data, fs) && id in fs && fs[id].tail == [] && AllValid(g)
    ensures id in data && |data[id]| == FileSize(fs[id])
    ensures Encoded(data[id := data[id] + EncodeAll(g)], fs[id := File(fs[id].recs + g, [])])
  {
    hide EncodeAll, Encode, SizeAll;
    EncodeAllConcat(fs[id].recs, g);
    var f := File(fs[id].recs + g, []);
    assert FileBytes(f) == data[id] + EncodeAll(g);
  }

  // --- the records of a write ------------------------------------------------------------------

  function PutAll(m: map<Bytes, Bytes>, keys: seq<Bytes>, values: seq<Bytes>): map<Bytes, Bytes>
    requires |keys| == |values|
  {
    if keys == [] then m
    else PutAll(m, keys[..|keys| - 1], values[..|keys| - 1])[keys[|keys| - 1] := values[|keys| - 1]]
  }

  lemma BatchOperation(now: int, keys: seq<Bytes>, values: seq<Bytes>)
    requires |keys| == |values| > 0
    ensures Operation(Batch(now, keys, values))
  {
  }

  lemma {:induction false} BatchFold(m: map<Bytes, Bytes>, g: seq<Record>, keys: seq<Bytes>, values: seq<Bytes>)
    requires |g| == |keys| == |values|
    requires forall i :: 0 <= i < |g| ==> !Tomb(g[i]) && g[i].key == keys[i] && g[i].value == values[i]
    ensures Fold(m, g) == PutAll(m, keys, values)
    decreases |g|
  {
    if g != [] {
      BatchFold(m, g[..|g| - 1], keys[..|g| - 1], values[..|g| - 1]);
    }
  }

  lemma FoldOne(m: map<Bytes, Bytes>, r: Record)
    ensures Fold(m, [r]) == if Tomb(r) then m - {r.key} else m[r.key := r.value]
  {
    hide Tomb;
    assert [r][..0] == [];
  }

  // Every key and value is within its limits.
  predicate AllAdmissible(keys: seq<Bytes>, values: seq<Bytes>)
    requires |keys| == |values|
  {
    forall i :: 0 <= i < |keys| ==> ValidatePair(keys[i], values[i]) == Done
  }

  // What is wrong with the first pair that is not.
  ghost predicate FirstWrong(keys: seq<Bytes>, values: seq<Bytes>, o: Outcome)
    requires |keys| == |values|
  {
    exists i :: 0 <= i < |keys| && o == ValidatePair(keys[i], values[i]) && o != Done
                && forall j :: 0 <= j < i ==> ValidatePair(keys[j], values[j]) == Done
  }

  predicate Clock(now: int) { 0 <= now + I64 < U64 }

  class Store {
    const maxSize: nat
    const always: bool
    const index: KeyDir
    var data: map<nat, Bytes>
    var active: nat
    var nextID: nat
    var sn: nat
    var mergeSn: nat
    var merge: Merge
    var closed: bool
    var total: nat
    ghost var files: Files
    ghost var hinted: set<nat>
    ghost var synced: nat
    ghost var ledger: map<nat, Record>
    ghost var drift: int

    ghost predicate Base()
      reads this, index, index.order, index.order.head, index.order.nodes, index.keys.Values
    {
      && index.Valid() && index.Accounted()
      && Encoded(data, files) && active in files && files[active].tail == [] && Numbered()
    }

    // File ids are below the next one; a merge does not write to the active file.
    ghost predicate Numbered()
      reads this
    {
      && (forall id :: id in files ==> id < nextID)
      && (forall id :: id in merge.outs ==> id < nextID && id != active)
    }

    // The byte count covers every file but the outputs of a merge in flight, up to what the last
    // recount got wrong.
    ghost predicate Tallied()
      reads this
    {
      total == Total(files - OutSet(merge.outs)) + drift
    }

    ghost predicate Valid()
      reads this, index, index.order, index.order.head, index.order.nodes, index.keys.Values
    {
      Base() && Tallied()
    }

    ghost function State(): Db
      reads this, index`keys, index.keys.Values
    {
      Db(maxSize, files, hinted, index.Model(), active, nextID, sn, mergeSn, synced, merge)
    }

    // The invariant of a store written to locally.
    ghost predicate Sound()
      reads this, index`keys, index.keys.Values
    {
      Invariant.Sound(State(), ledger)
    }

    // The map it denotes.
    ghost function Live(): map<Bytes, Bytes>
      reads this, index`keys, index.keys.Values
    {
      View(index.Model(), ledger)
    }

    // An empty directory.
    constructor (maxSize: nat, always: bool)
      ensures Valid() && State() == Init(maxSize) && this.always == always && !closed && drift == 0
      ensures fresh(index) && fresh(index.order) && fresh(index.order.head) && index.order.nodes == []
    {
      this.maxSize, this.always := maxSize, always;
      index := new KeyDir();
      data, files := map[0 := []], map[0 := File([], [])];
      active, nextID, sn, mergeSn, merge, closed, total := 0, 1, 0, 0, NO_MERGE, false, 0;
      hinted, synced, ledger, drift := {}, 0, map[], 0;
      new;
      EmptyTally();
    }

    method OpenNewActive()
      requires Valid()
      modifies this`data, this`files, this`active, this`nextID, this`synced
      ensures Valid() && State() == Engine.OpenNewActive(old(State()))
    {
      hide KeyDir.Valid, KeyDir.Accounted, KeyDir.Model, Encoded, OutSet;
      EncodedNew(data, files, nextID);
      TallyNew(files, merge.outs, nextID);
      data, files := data[nextID := []], files[nextID := File([], [])];
      active, nextID, synced := nextID, nextID + 1, 0;
    }

    // Starts a new file when the active one would grow past the limit. An empty file takes
    // anything.
    method MaybeRotate(incoming: nat)
      requires Valid()
      modifies this`data, this`files, this`active, this`nextID, this`synced
      ensures Valid() && State() == Rotate(old(State()), incoming)
      ensures FileSize(old(files)[old(active)]) == 0 || FileSize(old(files)[old(active)]) + incoming <= maxSize ==>
                State() == old(State())
      ensures 0 < FileSize(old(files)[old(active)]) && FileSize(old(files)[old(active)]) + incoming > maxSize ==>
                active == old(nextID) && nextID == active + 1 && files == old(files)[active := File([], [])]
    {
      var cur := |data[active]|;
      assert cur == FileSize(files[active]);
      if cur == 0 || cur + incoming <= maxSize {
        return;
      }
      OpenNewActive();
    }

    // The write buffer and the offset of each record in it, kept in 32 bits.
    static method EncodeGroup(recs: seq<Record>) returns (buf: Bytes, offs: seq<nat>)
      requires AllValid(recs)
      ensures buf == EncodeAll(recs) && |offs| == |recs|
      ensures forall i :: 0 <= i < |recs| ==> offs[i] == SizeAll(recs[..i]) % U32
    {
      hide Encode, SizeAll;
      buf, offs := [], [];
      assert recs[..0] == [];
      for i := 0 to |recs|
        invariant buf == EncodeAll(recs[..i]) && |offs| == i
        invariant forall j :: 0 <= j < i ==> offs[j] == SizeAll(recs[..j]) % U32
      {
        offs := offs + [|buf| % U32];
        buf := AppendRecord(buf, recs[i]);
        assert recs[..i + 1][..i] == recs[..i];
      }
      assert recs[..|recs|] == recs;
    }

    // Indexes a group that has just been written at base.
    method IndexGroup(recs: seq<Record>, offs: seq<nat>, base: nat)
      requires Valid() && |offs| == |recs| && forall i :: 0 <= i < |recs| ==> offs[i] == SizeAll(recs[..i]) % U32
      modifies index, index.order, index.order.head, index.order.nodes
      ensures Valid() && index.order == old(index.order) && fresh(index.Nodes() - old(index.Nodes()))
      ensures index.Model() == ApplyWritten(old(index.Model()), active, base, recs, |recs|)
    {
      hide SizeAll, Encoded, KeyDir.Valid, KeyDir.Accounted, KeyDir.Model, Apply;
      for i := 0 to |recs|
        invariant Valid() && index.order == old(index.order) && fresh(index.Nodes() - old(index.Nodes()))
        invariant index.Model() == ApplyWritten(old(index.Model()), active, base, recs, i)
      {
        index.Apply(recs[i].key, Entry(base + offs[i], recs[i].sn, active, Size(recs[i]), Tomb(recs[i])));
      }
    }

    // Appends the buffer to the active file, and syncs it if asked to.
    method AppendActive(recs: seq<Record>, buf: Bytes) returns (base: nat)
      requires Valid() && AllValid(recs) && buf == EncodeAll(recs)
      modifies this`data, this`files, this`synced, this`total
      ensures Valid() && index.Model() == old(index.Model())
      ensures base == FileSize(old(files)[active])
      ensures files == old(files)[active := File(old(files)[active].recs + recs, [])]
      ensures synced == if always then |files[active].recs| else old(synced)
    {
      hide SizeAll, Encoded, KeyDir.Valid, KeyDir.Accounted, KeyDir.Model, EncodeAll, AllValid, FileSize, OutSet;
      EncodedAppend(data, files, active, recs);
      TallyAppend(files, merge.outs, active, recs);
      base := |data[active]|;
      total := total + |buf|;
      data := data[active := data[active] + buf];
      files := files[active := File(files[active].recs + recs, [])];
      if always {
        synced := |files[active].recs|;
      }
    }

    // Encode, rotate if need be, append, sync if asked to, index.
    method Write(recs: seq<Record>)
      requires Valid() && AllValid(recs)
      modifies this`data, this`files, this`active, this`nextID, this`synced, this`total
      modifies index, index.order, index.order.head, index.order.nodes
      ensures Valid() && State() == Engine.Write(old(State()), recs, always)
      ensures index.order == old(index.order) && fresh(index.Nodes() - old(index.Nodes()))
    {
      hide SizeAll, Encoded, KeyDir.Valid, KeyDir.Accounted, KeyDir.Model, ApplyWritten, EncodeAll, Rotate, AllValid,
           FileSize;
      var buf, offs := EncodeGroup(recs);
      MaybeRotate(|buf|);
      var base := AppendActive(recs, buf);
      IndexGroup(recs, offs, base);
    }

    // Numbers a group and writes it.
    method AppendGroup(g: seq<Record>)
      requires Valid() && AllValid(Stamp(g, sn))
      modifies this`data, this`files, this`active, this`nextID, this`synced, this`total, this`sn, this`ledger
      modifies index, index.order, index.order.head, index.order.nodes
      ensures Valid() && State() == Append(old(State()), g, always)
      ensures index.order == old(index.order) && fresh(index.Nodes() - old(index.Nodes()))
      ensures old(Sound()) && Operation(g) && SizeAll(g) <= U32 ==>
                Sound() && Live() == Fold(old(Live()), Stamp(g, old(sn)))
    {
      hide SizeAll, Encoded, KeyDir.Valid, KeyDir.Accounted, KeyDir.Model, Engine.Write, AllValid, Invariant.Sound,
           View, Fold, Enter, Operation, Total, OutSet;
      ghost var db, l := State(), ledger;
      var stamped, next := [], sn;
      for i := 0 to |g|
        invariant next == sn + i && stamped == Stamp(g, sn)[..i]
      {
        next := next + 1;
        stamped := stamped + [g[i].(sn := next)];
      }
      assert stamped == Stamp(g, sn);
      sn := next;
      Write(stamped);
      if Invariant.Sound(db, l) && Operation(g) && SizeAll(g) <= U32 {
        AppendSound(db, l, g, always);
        ledger := Enter(l, stamped, db.sn);
      }
    }

    method Put(key: Bytes, value: Bytes, now: int) returns (o: Outcome)
      requires Valid() && Clock(now) && sn + 1 < U64
      modifies this`data, this`files, this`active, this`nextID, this`synced, this`total, this`sn, this`ledger
      modifies index, index.order, index.order.head, index.order.nodes
      ensures o == if ValidatePair(key, value) != Done then ValidatePair(key, value)
                   else if closed then Failed(StoreClosed) else Done
      ensures Valid()
      ensures State() == if o == Done then Append(old(State()), [Single(now, 0, key, value)], always) else old(State())
      ensures old(Sound()) ==> Sound() && Live() == if o == Done then old(Live())[key := value] else old(Live())
    {
      hide SizeAll, Encoded, KeyDir.Valid, KeyDir.Accounted, KeyDir.Model, Append, Invariant.Sound, View, Fold;
      o := ValidateKey(key);
      if o != Done {
        return;
      }
      if |value| > MAX_VALUE {
        return Failed(ValueTooLong);
      }
      if closed {
        return Failed(StoreClosed);
      }
      var r := Single(now, 0, key, value);
      SingleGroup(r, sn);
      FoldOne(Live(), r.(sn := sn + 1));
      AppendGroup([r]);
    }

    method Delete(key: Bytes, now: int) returns (o: Outcome)
      requires Valid() && Clock(now) && sn + 1 < U64
      modifies this`data, this`files, this`active, this`nextID, this`synced, this`total, this`sn, this`ledger
      modifies index, index.order, index.order.head, index.order.nodes
      ensures o == if !Admissible(key) then ValidateKey(key)
                   else if key !in old(index.Model()) || old(index.Model())[key].tomb then Failed(KeyNotFound)
                   else if closed then Failed(StoreClosed) else Done
      ensures Valid()
      ensures State() == if o == Done then Append(old(State()), [Single(now, 1, key, [])], always) else old(State())
      ensures old(Sound()) ==> Sound() && Live() == if o == Done then old(Live()) - {key} else old(Live())
    {
      hide SizeAll, Encoded, KeyDir.Valid, KeyDir.Accounted, Append, Invariant.Sound, View, Fold;
      o := ValidateKey(key);
      if o != Done {
        return;
      }
      if key !in index.keys || index.keys[key].ent.tomb {
        return Failed(KeyNotFound);
      }
      if closed {
        return Failed(StoreClosed);
      }
      var r := Single(now, 1, key, []);
      SingleGroup(r, sn);
      FoldOne(Live(), r.(sn := sn + 1));
      AppendGroup([r]);
    }

    // The first thing wrong with a batch, pair by pair.
    static method ValidateBatch(keys: seq<Bytes>, values: seq<Bytes>) returns (o: Outcome)
      requires |keys| == |values|
      ensures o == Done <==> AllAdmissible(keys, values)
      ensures o != Done ==> FirstWrong(keys, values, o)
    {
      for i := 0 to |keys|
        invariant forall j :: 0 <= j < i ==> ValidatePair(keys[j], values[j]) == Done
      {
        o := ValidateKey(keys[i]);
        if o != Done {
          return;
        }
        if |values[i]| > MAX_VALUE {
          return Failed(ValueTooLong);
        }
      }
      return Done;
    }

    // Many pairs, one append, one sync.
    method BatchPut(keys: seq<Bytes>, values: seq<Bytes>, now: int) returns (o: Outcome)
      requires Valid() && Clock(now) && sn + |keys| < U64
      modifies this`data, this`files, this`active, this`nextID, this`synced, this`total, this`sn, this`ledger
      modifies index, index.order, index.order.head, index.order.nodes
      ensures |keys| != |values| <==> o == Failed(BatchLength)
      ensures o == Done <==>
                |keys| == |values| && (keys == [] || (!closed && AllAdmissible(keys, values)))
      ensures |keys| == |values| > 0 && AllAdmissible(keys, values) && closed ==> o == Failed(StoreClosed)
      ensures |keys| == |values| && !AllAdmissible(keys, values) ==> FirstWrong(keys, values, o)
      ensures Valid()
      ensures State() == if o == Done && keys != [] then Append(old(State()), Batch(now, keys, values), always)
                         else old(State())
      ensures old(Sound()) && o == Done && SizeAll(Batch(now, keys, values)) <= U32 ==>
                Sound() && Live() == PutAll(old(Live()), keys, values)
      ensures o != Done ==> Live() == old(Live())
    {
      hide SizeAll, Encoded, KeyDir.Valid, KeyDir.Accounted, KeyDir.Model, Append, Invariant.Sound, View, Fold,
           Operation, AllValid;
      if |keys| != |values| {
        return Failed(BatchLength);
      }
      if |keys| == 0 {
        return Done;
      }
      o := ValidateBatch(keys, values);
      if o != Done {
        return;
      }
      if closed {
        return Failed(StoreClosed);
      }
      var recs := [];
      for i := 0 to |keys|
        invariant recs == Batch(now, keys, values)[..i]
      {
        var flags := BATCH;
        if i == |keys| - 1 {
          flags := flags + BATCH_END;
        }
        recs := recs + [Single(now, flags, keys[i], values[i])];
      }
      assert recs == Batch(now, keys, values);
      BatchGroup(now, keys, values, sn);
      BatchFold(Live(), Stamp(recs, sn), keys, values);
      AppendGroup(recs);
    }

    // Takes in a frame from another node. The numbers in it are kept.
    method ApplyRaw(raw: Bytes) returns (o: Outcome, highest: nat)
      requires Valid()
      modifies this`data, this`files, this`active, this`nextID, this`synced, this`total, this`sn
      modifies index, index.order, index.order.head, index.order.nodes
      ensures Valid() && (o != Done ==> State() == old(State()) && highest == 0)
      ensures o == Failed(Corrupted) <==> forall g :: AllValid(g) ==> EncodeAll(g) != raw
      ensures forall g :: AllValid(g) && EncodeAll(g) == raw ==>
                && (o == Done <==> g == [] || !closed)
                && (o == Done ==> State() == Replica.Install(old(State()), g, always) && highest == HighestAll(0, g))
    {
      hide SizeAll, Encoded, KeyDir.Valid, KeyDir.Accounted, KeyDir.Model, Engine.Write, AllValid, EncodeAll,
           HighestAll, Base, Tallied;
      var parsed := Replica.ParseRaw(raw);
      if parsed == None {
        return Failed(Corrupted), 0;
      }
      var g := parsed.value;
      OnlyParse(raw, g);
      if g == [] {
        Replica.NothingReceived(0, map[]);
        return Done, 0;
      }
      if closed {
        return Failed(StoreClosed), 0;
      }
      highest := InstallGroup(g);
      o := Done;
    }

    // Writes a group that carries its own numbers, and keeps the highest number seen.
    method InstallGroup(g: seq<Record>) returns (highest: nat)
      requires Valid() && AllValid(g) && g != []
      modifies this`data, this`files, this`active, this`nextID, this`synced, this`total, this`sn
      modifies index, index.order, index.order.head, index.order.nodes
      ensures Valid() && State() == Replica.Install(old(State()), g, always) && highest == HighestAll(0, g)
    {
      hide SizeAll, Encoded, KeyDir.Valid, KeyDir.Accounted, KeyDir.Model, Engine.Write, AllValid, HighestAll, Total,
           OutSet;
      highest := Highest(g);
      HighestFrom(sn, g);
      Write(g);
      if highest > sn {
        sn := highest;
      }
    }

    static method Highest(g: seq<Record>) returns (h: nat)
      ensures h == HighestAll(0, g)
    {
      h := 0;
      assert g[..0] == [];
      for i := 0 to |g|
        invariant h == HighestAll(0, g[..i])
      {
        assert g[..i + 1][..i] == g[..i];
        if g[i].sn > h {
          h := g[i].sn;
        }
      }
      assert g[..|g|] == g;
    }

    method Sync()
      requires Valid()
      modifies this`synced
      ensures Valid() && State() == Engine.Sync(old(State()))
    {
      hide KeyDir.Valid, KeyDir.Accounted, KeyDir.Model, Encoded;
      synced := |files[active].recs|;
    }

    // Reads the record a locator points at.
    method ReadValue(e: Entry) returns (o: Reads.Outcome)
      requires Valid()
      ensures o == Reads.ReadValue(files, e)
    {
      hide KeyDir.Valid, KeyDir.Accounted, FileBytes, Decode;
      if e.file !in data {
        return Reads.Gone;
      }
      var b := data[e.file];
      if e.pos + e.size > |b| {
        return Reads.Damaged;
      }
      match Decode(b[e.pos..e.pos + e.size])
      case Decoded(r) =>
        return if r.sn != e.sn then Reads.Mismatch else if Tomb(r) then Reads.NotFound else Reads.Value(r.value);
      case _ =>
        return Reads.Damaged;
    }

    // Up to four attempts, each a lookup and a read.
    method Get(key: Bytes) returns (valid: Outcome, o: Reads.Outcome)
      requires Valid()
      ensures valid == ValidateKey(key)
      ensures Reads.Decodable(files)
      ensures valid == Done ==>
                o == if key !in index.Model() || index.Model()[key].tomb then Reads.NotFound
                     else Reads.ReadValue(files, index.Model()[key])
      ensures valid == Done && Sound() ==> o == if key in Live() then Reads.Value(Live()[key]) else Reads.NotFound
    {
      hide KeyDir.Valid, KeyDir.Accounted, Reads.ReadValue, Invariant.Sound, Encoded;
      AllDecodable(data, files);
      valid, o := ValidateKey(key), Reads.NotFound;
      if valid != Done {
        return;
      }
      for attempt := 0 to 4
        invariant Sound() ==> attempt == 0
        invariant attempt > 0 ==> key in index.keys && !index.keys[key].ent.tomb
                                  && Reads.ReadValue(files, index.keys[key].ent) == Reads.Gone
      {
        if key !in index.keys || index.keys[key].ent.tomb {
          o := Reads.NotFound;
          return;
        }
        var e := index.keys[key].ent;
        o := ReadValue(e);
        Lookup(key);
        if o != Reads.Gone {
          return;
        }
      }
      o := Reads.Gone;
    }

    // A live entry of a sound store leads to the value the store denotes.
    lemma Lookup(key: Bytes)
      requires Valid() && key in index.keys && !index.keys[key].ent.tomb
      ensures Sound() ==> key in Live() && Reads.ReadValue(files, index.keys[key].ent) == Reads.Value(Live()[key])
    {
      hide KeyDir.Valid, KeyDir.Accounted, Reads.ReadValue, Log.At, Lifted, Tomb;
      if Sound() {
        var db := State();
        hide Invariant.Sound;
        IndexLedgered(db, ledger);
        Reads.IndexPoints(db, ledger, key);
        Reads.ReadPointed(db.files, key, db.index[key]);
        LedgerOf(db, ledger, db.index[key].file, Deref(db.files, db.index[key]).value);
      }
    }

    // Reads the value behind each of some live entries.
    method ReadItems(items: seq<Item>) returns (out: seq<(Bytes, Bytes)>)
      requires Valid() && Sound()
      requires forall i :: 0 <= i < |items| ==>
                 items[i].key in index.keys && index.keys[items[i].key].ent == items[i].e && !items[i].e.tomb
      ensures out == Valued(items, Live())
    {
      hide KeyDir.Valid, KeyDir.Accounted, Encoded, Invariant.Sound, View, Reads.ReadValue, Base, Tallied;
      out := [];
      for i := 0 to |items|
        invariant out == Valued(items[..i], Live())
      {
        Lookup(items[i].key);
        var v := ReadValue(items[i].e);
        out := out + [(items[i].key, v.v)];
      }
      assert items[..|items|] == items;
    }

    // The live pairs of a range in ascending key order, cut to the limit.
    method Scan(start: Bytes, end: Bytes, limit: int) returns (out: seq<(Bytes, Bytes)>)
      requires Valid() && Sound()
      ensures forall i, j :: 0 <= i < j < |out| ==> Less(out[i].0, out[j].0)
      ensures forall i :: 0 <= i < |out| ==>
                && out[i].0 in Live() && out[i].1 == Live()[out[i].0]
                && !Less(out[i].0, start) && (end == [] || !Less(end, out[i].0))
      ensures 0 < limit ==> |out| <= limit
      ensures forall k :: k in Live() && !Less(k, start) && (end == [] || !Less(end, k)) ==>
                (k, Live()[k]) in out || (0 < limit == |out| && forall i :: 0 <= i < |out| ==> Less(out[i].0, k))
    {
      hide KeyDir.Valid, KeyDir.Accounted, Encoded, Invariant.Sound, View, Scanning.InRange, Scanning.Lists, KeyOrdered,
           Range, Tallied, Less;
      var order := index.ListAll();
      Listed(order, index.Model());
      IndexLedgered(State(), ledger);
      LiveView(index.Model(), ledger);
      RangeIs(index.Model(), order, Live(), start, end);
      ghost var whole := Valued(Scanning.InRange(order, start, end), Live());
      var items := Scanning.Scan(order, start, end, limit);
      assert forall i :: 0 <= i < |items| ==> items[i] in Scanning.InRange(order, start, end);
      out := ReadItems(items);
      assert out == Scanning.Limited(whole, limit);
      RangeCut(Live(), start, end, whole, limit);
    }

    // --- merging --------------------------------------------------------------------------------

    // Seals the active file and fixes the merge set.
    method SealActive()
      requires Valid() && merge == NO_MERGE
      modifies this`data, this`files, this`active, this`nextID, this`synced, this`merge
      ensures Valid() && State() == Seal(old(State()))
    {
      hide SizeAll, KeyDir.Valid, KeyDir.Accounted, KeyDir.Model, EncodeAll;
      assert |data[active]| == FileSize(files[active]);
      if |data[active]| > 0 {
        OpenNewActive();
      }
      var ids := data.Keys - {active};
      if ids != {} {
        merge := NO_MERGE.(phase := Sealed, ids := ids, barrier := sn);
      }
    }

    // Snapshots the keys the merge has to move or to forget.
    method TakeSnapshot()
      requires Valid() && merge.phase == Sealed
      modifies this`merge
      ensures Valid() && State() == Snapshot(old(State()), merge.items, merge.retired)
      ensures Collects(index.Model(), merge.ids, merge.items, merge.retired)
    {
      hide Encoded, KeyDir.Valid, KeyDir.Accounted, KeyDir.Model, Collects;
      var items, retired := index.CollectMerge(merge.ids);
      merge := merge.(phase := Copying, items := items, retired := retired);
    }

    // The output the next copy goes to: the current one, or a new one when there is none or it
    // would grow past the limit.
    method PickOut(incoming: nat) returns (out: nat)
      requires Valid() && forall id :: id in merge.outs ==> id in files && files[id].tail == []
      modifies this`data, this`files, this`nextID, this`merge
      ensures Valid() && out in files && out in merge.outs && files[out].tail == []
      ensures Picked(old(State()), incoming, State(), out)
    {
      hide SizeAll, Encoded, KeyDir.Valid, KeyDir.Accounted, KeyDir.Model, Total, OutSet, FileSize;
      var outs := merge.outs;
      if outs != [] {
        FileLength(data, files, outs[|outs| - 1]);
      }
      if outs == [] || |data[outs[|outs| - 1]]| + incoming > maxSize {
        out := nextID;
        EncodedNew(data, files, nextID);
        TallyOut(files, merge.outs, nextID);
        data, files, nextID := data[nextID := []], files[nextID := File([], [])], nextID + 1;
        merge := merge.(outs := merge.outs + [out]);
      } else {
        out := outs[|outs| - 1];
      }
    }

    // The bytes a locator of the merge selects.
    method ReadItem(it: Item, ghost r: Record) returns (buf: Bytes)
      requires Valid() && Points(files, it.key, it.e) && Deref(files, it.e) == Some(r)
      ensures Encodable(r) && buf == Encode(r) && Decode(buf) == Decoded(r)
    {
      hide KeyDir.Valid, KeyDir.Accounted, Encode, Decode, EncodeAll, SizeAll, Log.At;
      BytesAt(files[it.e.file].recs, files[it.e.file].tail, it.e.pos);
      buf := data[it.e.file][it.e.pos..it.e.pos + it.e.size];
    }

    // Appends one encoded record to an output.
    method AppendTo(out: nat, ghost l: Record, buf: Bytes) returns (pos: nat)
      requires Valid() && out in files && out in merge.outs && files[out].tail == [] && Records.Valid(l)
      requires buf == Encode(l)
      modifies this`data, this`files
      ensures Valid() && index.Model() == old(index.Model())
      ensures pos == FileSize(old(files)[out]) && files == old(files)[out := File(old(files)[out].recs + [l], [])]
    {
      hide SizeAll, Encoded, KeyDir.Valid, KeyDir.Accounted, KeyDir.Model, EncodeAll, FileSize, Encode;
      EncodeOne(l);
      EncodedAppend(data, files, out, [l]);
      TallySame(files, merge.outs, out, File(files[out].recs + [l], []));
      pos := |data[out]|;
      data := data[out := data[out] + buf];
      files := files[out := File(files[out].recs + [l], [])];
    }

    // The next item, lifted out of its batch.
    method LoadNext() returns (sn': nat, buf: Bytes, ghost r: Record)
      requires Valid() && Sound() && merge.phase == Copying && |merge.moved| < |merge.items|
      ensures Deref(files, merge.items[|merge.moved|].e) == Some(r) && sn' == Lifted(r).sn
      ensures Records.Valid(Lifted(r)) && buf == Encode(Lifted(r))
    {
      hide SizeAll, Encoded, KeyDir.Valid, KeyDir.Accounted, KeyDir.Model, Encode, Decode, Invariant.Sound, Tomb,
           Log.At, Lifted, Tallied;
      r := NextItem(State(), ledger);
      CopyReady(State(), ledger);
      buf := ReadItem(merge.items[|merge.moved|], r);
      sn' := Decode(buf).r.sn;
      buf := ClearBatchFlags(buf);
      LiftedSound(r);
    }

    // Copies the next item into the current output.
    method CopyNext()
      requires Valid() && Sound() && merge.phase == Copying && |merge.moved| < |merge.items|
      modifies this`data, this`files, this`nextID, this`merge
      ensures Valid() && Sound() && State() == Copy(old(State()))
    {
      hide SizeAll, Encoded, KeyDir.Valid, KeyDir.Accounted, KeyDir.Model, Encode, FileSize, Invariant.Sound, Log.At,
           Lifted, Copy, Picked, Base, Tallied;
      ghost var db := State();
      CopySound(db, ledger);
      CopyReady(db, ledger);
      ghost var r;
      var sn', buf;
      sn', buf, r := LoadNext();
      var out := PickOut(|buf|);
      ghost var picked := State();
      var pos := AppendTo(out, Lifted(r), buf);
      NoteMove(Entry(pos, sn', out, |buf|, false));
      CopyIs(db, r, picked, out);
    }

    method NoteMove(e: Entry)
      requires Valid()
      modifies this`merge
      ensures Valid() && State() == old(State()).(merge := old(merge).(moved := old(merge).moved + [e]))
    {
      hide KeyDir.Valid, KeyDir.Accounted, KeyDir.Model, Encoded, Total, OutSet;
      merge := merge.(moved := merge.moved + [e]);
    }

    // Copies every item.
    method CopyAll()
      requires Valid() && Sound() && merge.phase == Copying
      modifies this`data, this`files, this`nextID, this`merge
      ensures Valid() && Sound() && |merge.moved| == |merge.items| && Copies(old(State()), State())
      ensures Solo(old(State())) ==> Solo(State())
    {
      hide Encoded, KeyDir.Valid, KeyDir.Accounted, KeyDir.Model, Copy, Invariant.Sound, Solo;
      ghost var db := State();
      CopyWithin(State(), ledger);
      while |merge.moved| < |merge.items|
        invariant Valid() && Sound() && Copies(db, State()) && merge.phase == Copying && |merge.moved| <= |merge.items|
        invariant Solo(db) ==> Solo(State())
        decreases |merge.items| - |merge.moved|
      {
        CopyFrame(State(), ledger);
        if Solo(State()) {
          CopySolo(State(), ledger);
        }
        CopyNext();
      }
    }

    // The outputs and their hints are durable.
    method CommitOuts()
      requires Valid() && Sound() && merge.phase == Copying && |merge.moved| == |merge.items|
      modifies this`merge, this`hinted
      ensures Valid() && Sound() && State() == SyncOuts(old(State())).(hinted := old(hinted) + OutSet(merge.outs))
    {
      hide Encoded, KeyDir.Valid, KeyDir.Accounted, KeyDir.Model, Invariant.Sound, OutSet;
      SyncOutsSound(State(), ledger);
      HintedSound(SyncOuts(State()), ledger, hinted + OutSet(merge.outs));
      merge := merge.(phase := Synced);
      hinted := hinted + OutSet(merge.outs);
    }

    // Deletes one data file.
    method DropFile(id: nat)
      requires Base() && id != active
      modifies this`data, this`files
      ensures Base() && index.Model() == old(index.Model()) && files == old(files) - {id}
    {
      hide KeyDir.Valid, KeyDir.Accounted, KeyDir.Model, Encoded;
      EncodedDrop(data, files, id);
      data, files := data - {id}, files - {id};
    }

    // Gives the merge up: the outputs go, the index was never touched.
    method Abandon()
      requires Valid() && Sound() && merge.phase in {Sealed, Copying, Synced}
      modifies this`data, this`files, this`hinted, this`merge
      ensures Valid() && Sound() && State() == Abort(old(State()))
      ensures forall id :: id in files <==> id in old(files) && id !in old(merge).outs
      ensures forall id :: id in files ==> files[id] == old(files)[id]
    {
      hide KeyDir.Valid, KeyDir.Accounted, KeyDir.Model, Invariant.Sound, Encoded, OutSet, Total;
      ghost var db := State();
      AbortSound(db, ledger);
      ApartFromActive(db, ledger);
      NothingDropped(files, merge.outs);
      for i := 0 to |merge.outs|
        invariant Base() && merge == db.merge && hinted == db.hinted && index.Model() == db.index
        invariant files == db.files - OutSet(merge.outs[..i])
      {
        DropOne(db.files, merge.outs, i);
        DropFile(merge.outs[i]);
      }
      assert merge.outs[..|merge.outs|] == merge.outs;
      TallyAbort(db.files, merge.outs);
      OutSetHas(merge.outs);
      hinted := hinted - OutSet(merge.outs);
      merge := NO_MERGE;
    }

    // Repoints items up to hi, under one lock.
    method RepointChunk(hi: nat)
      requires Valid() && Sound() && merge.phase == Repointing && merge.done <= hi <= |merge.items| == |merge.moved|
      modifies index.order.nodes, this`merge
      ensures Valid() && Sound() && State() == Repoint(old(State()), hi) && Live() == old(Live())
    {
      hide KeyDir.Valid, KeyDir.Accounted, KeyDir.Model, Invariant.Sound, Encoded, RepointOne, View, Repoint;
      ghost var db := State();
      for i := merge.done to hi
        invariant Valid() && merge == db.merge && index.order == old(index.order)
        invariant index.order.nodes == old(index.order.nodes)
        invariant index.Model() == RepointTo(db.index, merge.items, merge.moved, merge.done, i)
      {
        RepointWeight(db, ledger, i);
        index.Repoint(merge.items[i], merge.moved[i]);
      }
      RepointSound(db, ledger, hi);
      RepointIs(db, hi);
      merge := merge.(done := hi);
    }

    // Moves the index onto the merged files, a chunk at a time.
    method RepointAll()
      requires Valid() && Sound() && merge.phase == Synced && |merge.moved| == |merge.items|
      modifies index.order.nodes, this`merge
      ensures Valid() && Sound() && Live() == old(Live()) && index.order.nodes == old(index.order.nodes)
      ensures merge == old(merge).(phase := Repointing, done := |merge.items|)
    {
      hide KeyDir.Valid, KeyDir.Accounted, KeyDir.Model, Invariant.Sound, Encoded, View, RepointTo;
      ghost var db := State();
      BeginRepointSound(db, ledger);
      merge := merge.(phase := Repointing, done := 0);
      while merge.done < |merge.items|
        invariant Valid() && Sound() && Live() == old(Live()) && index.order.nodes == old(index.order.nodes)
        invariant merge == db.merge.(phase := Repointing, done := merge.done) && merge.done <= |merge.items|
        decreases |merge.items| - merge.done
      {
        RepointChunk(if merge.done + MERGE_CHUNK < |merge.items| then merge.done + MERGE_CHUNK else |merge.items|);
      }
    }

    // Forgets retired tombstones up to hi, under one lock.
    method RetireChunk(hi: nat)
      requires Valid() && Sound() && merge.phase == Retiring && merge.done <= hi <= |merge.retired|
      modifies index`keys, index.order, index.order.head, index.order.nodes, this`merge
      ensures Valid() && Sound() && State() == Retire(old(State()), hi) && Live() == old(Live())
      ensures index.order == old(index.order)
      ensures forall j :: 0 <= j < |index.order.nodes| ==> index.order.nodes[j] in old(index.order.nodes)
    {
      hide KeyDir.Valid, KeyDir.Accounted, KeyDir.Model, Invariant.Sound, Encoded, RetireOne, View, Retire;
      ghost var db := State();
      for i := merge.done to hi
        invariant Valid() && merge == db.merge && index.order == old(index.order)
        invariant forall j :: 0 <= j < |index.order.nodes| ==> index.order.nodes[j] in old(index.order.nodes)
        invariant index.Model() == RetireTo(db.index, merge.retired, merge.done, i)
      {
        RetireWeight(db, ledger, i);
        index.Retire(merge.retired[i]);
      }
      RetireSound(db, ledger, hi);
      RetireIs(db, hi);
      merge := merge.(done := hi);
    }

    method RetireAll()
      requires Valid() && Sound() && merge.phase == Repointing && merge.done == |merge.items|
      modifies index`keys, index.order, index.order.head, index.order.nodes, this`merge
      ensures Valid() && Sound() && Live() == old(Live())
      ensures merge == old(merge).(phase := Retiring, done := |merge.retired|)
    {
      hide KeyDir.Valid, KeyDir.Accounted, KeyDir.Model, Invariant.Sound, Encoded, View, RetireTo;
      ghost var db := State();
      BeginRetireSound(db, ledger);
      merge := merge.(phase := Retiring, done := 0);
      while merge.done < |merge.retired|
        invariant Valid() && Sound() && Live() == old(Live()) && index.order == old(index.order)
        invariant forall j :: 0 <= j < |index.order.nodes| ==> index.order.nodes[j] in old(index.order.nodes)
        invariant merge == db.merge.(phase := Retiring, done := merge.done) && merge.done <= |merge.retired|
        decreases |merge.retired| - merge.done
      {
        RetireChunk(if merge.done + MERGE_CHUNK < |merge.retired| then merge.done + MERGE_CHUNK else |merge.retired|);
      }
    }

    // Deletes the merged files.
    method UnlinkMerged()
      requires Base() && active !in merge.ids
      modifies this`data, this`files, this`hinted, this`merge
      ensures Base() && State() == Unlink(old(State()))
    {
      hide KeyDir.Valid, KeyDir.Accounted, KeyDir.Model, Encoded;
      ghost var fs := files;
      var rest := merge.ids;
      assert fs - (merge.ids - rest) == fs;
      while rest != {}
        invariant Base() && rest <= merge.ids && files == fs - (merge.ids - rest)
        invariant hinted == old(hinted) && merge == old(merge) && index.Model() == old(index.Model())
        decreases |rest|
      {
        var id :| id in rest;
        UnlinkOne(fs, merge.ids, rest, id);
        DropFile(id);
        rest := rest - {id};
      }
      assert merge.ids - rest == merge.ids;
      hinted := hinted - merge.ids;
      merge := NO_MERGE;
    }

    // Raises the watermark, then deletes the merged files. Until the recount the total has the bytes
    // of the files that are gone, and not those of the outputs.
    method Finish()
      requires Valid() && Sound() && merge.phase == Retiring && merge.done == |merge.retired|
      modifies this`data, this`files, this`hinted, this`merge, this`mergeSn, this`drift
      ensures Valid() && Sound() && State() == Unlink(RaiseMark(old(State())))
      ensures mergeSn == old(merge).barrier && merge == NO_MERGE
      ensures forall id :: id in files <==> id in old(files) && id !in old(merge).ids
      ensures forall id :: id in files ==> files[id] == old(files)[id]
      ensures drift == old(drift) + Total(OnlyFiles(old(files), old(merge).ids))
                       - Total(OnlyFiles(old(files), OutSet(old(merge).outs)))
    {
      hide KeyDir.Valid, KeyDir.Accounted, KeyDir.Model, Invariant.Sound, Encoded, Unlink, Total, OnlyFiles, OutSet;
      MergeApart(State(), ledger);
      DropTally(files, merge.ids, OutSet(merge.outs));
      RaiseMarkSound(State(), ledger);
      UnlinkSound(RaiseMark(State()), ledger);
      ApartFromActive(State(), ledger);
      mergeSn, merge := merge.barrier, merge.(phase := Dropping);
      ghost var db := State();
      UnlinkMerged();
      UnlinkFiles(db);
      EmptyOuts(files);
      drift := total - Total(files - OutSet(merge.outs));
    }

    // Adds up the files.
    method SumFiles() returns (t: nat)
      requires Base()
      ensures t == Total(files)
    {
      hide KeyDir.Valid, KeyDir.Accounted, Encoded, Total, FileSize;
      t := 0;
      var rest := data.Keys;
      SameKeys(data, files);
      assert OnlyFiles(files, rest) == files;
      while rest != {}
        invariant rest <= files.Keys && t + Total(OnlyFiles(files, rest)) == Total(files)
        decreases |rest|
      {
        var id :| id in rest;
        FileLength(data, files, id);
        OnlyFilesRemove(files, rest, id);
        t := t + |data[id]|;
        rest := rest - {id};
      }
      assert OnlyFiles(files, rest) == map[];
      NoFiles();
    }

    // The second half of a recount: was is what the files held when they were added up. The total
    // lacks exactly what was appended since.
    method StoreTotal(sum: nat, ghost was: Files)
      requires Valid() && merge == NO_MERGE && sum == Total(was) && Extends(was, files)
      modifies this`total, this`drift
      ensures Valid() && State() == old(State()) && drift == 0 - Total(Appended(was, files))
    {
      hide KeyDir.Valid, KeyDir.Accounted, KeyDir.Model, Encoded, Total, Appended, OutSet;
      EmptyOuts(files);
      AppendedTotal(was, files);
      total, drift := sum, sum - Total(files);
    }

    // Counts again what is live and what is on disk. With no writer at work the counters are the
    // true sums.
    method RecomputeUsage()
      requires Valid() && merge == NO_MERGE
      modifies index`live, index`nLive, this`total, this`drift
      ensures Valid() && State() == old(State()) && drift == 0
    {
      hide KeyDir.Valid, KeyDir.Accounted, KeyDir.Model, Encoded, Total, Appended;
      index.Recount();
      var sum := SumFiles();
      NothingAppended(files);
      StoreTotal(sum, files);
    }

    // Bytes on disk that the index no longer leads to. With no merge in flight, and nothing lost
    // by a recount, the difference is never negative and the clamp does not act.
    method DeadBytes() returns (d: nat)
      requires Valid()
      ensures d == 0 || d == total - index.live
      ensures Sound() && merge == NO_MERGE && 0 <= drift ==> d == Total(files) + drift - Sum(index.Model(), Bytes1)
    {
      hide KeyDir.Valid, Encoded, Sum, Total, Invariant.Sound;
      if Sound() && merge == NO_MERGE {
        SoundPointing(State(), ledger);
        LiveWithinTotal(files, index.Model());
        Counted();
      }
      d := if total > index.live then total - index.live else 0;
    }

    // Phase one: copy what is live, and make it durable.
    method CopyPhase()
      requires Valid() && Sound() && merge.phase == Sealed
      modifies this`data, this`files, this`nextID, this`merge, this`hinted
      ensures Valid() && Sound() && merge.phase == Synced && |merge.moved| == |merge.items|
      ensures index.Model() == old(index.Model()) && merge.barrier == old(merge).barrier && merge.ids == old(merge).ids
      ensures Solo(old(State())) ==> Solo(State())
    {
      hide KeyDir.Valid, KeyDir.Accounted, KeyDir.Model, Encoded, Invariant.Sound, Total, OutSet, Collects, Numbered,
           Tallied, Solo;
      ghost var db := State();
      TakeSnapshot();
      SnapshotSound(db, ledger, merge.items, merge.retired);
      SoloPhases(db, State());
      CopyAll();
      ghost var copied := State();
      CommitOuts();
      SoloPhases(copied, State());
    }

    // Phase two: move the index over, forget old tombstones, delete the merged files.
    method SwitchPhase()
      requires Valid() && Sound() && merge.phase == Synced && |merge.moved| == |merge.items|
      modifies this`data, this`files, this`merge, this`hinted, this`mergeSn, this`total, this`drift
      modifies index, index.order, index.order.head, index.order.nodes
      ensures Valid() && Sound() && merge == NO_MERGE && Live() == old(Live()) && mergeSn == old(merge).barrier
      ensures drift == 0
      ensures old(Solo(State())) ==> Tight(files, index.Model()) && files.Keys == OutSet(old(merge).outs) + {active}
    {
      hide KeyDir.Valid, KeyDir.Accounted, KeyDir.Model, Encoded, Invariant.Sound, View, Total, OutSet, Numbered,
           Tallied, Solo, Tight;
      ghost var db := State();
      RepointAll();
      RetireAll();
      ghost var done := RaiseMark(State());
      SoloPhases(db, done);
      RaiseMarkSound(State(), ledger);
      if Solo(done) {
        SoloTight(done, ledger);
      }
      Finish();
      RecomputeUsage();
    }

    // With no merge in flight, what the counters are.
    lemma Counted()
      requires Valid() && merge == NO_MERGE
      ensures index.live == Sum(index.Model(), Bytes1) && total == Total(files) + drift
    {
      hide KeyDir.Valid, KeyDir.Model, Encoded, Sum, Total;
      EmptyOuts(files);
    }

    // Both phases, with nobody else at work.
    method MergeSealed()
      requires Valid() && Sound() && merge.phase == Sealed && Solo(State())
      modifies this`data, this`files, this`nextID, this`merge, this`hinted, this`mergeSn, this`total, this`drift
      modifies index, index.order, index.order.head, index.order.nodes
      ensures Valid() && Sound() && merge == NO_MERGE && Live() == old(Live()) && mergeSn == old(merge).barrier
      ensures drift == 0 && Tight(files, index.Model()) && files.Keys * (old(merge).ids + {active}) == {active}
    {
      hide KeyDir.Valid, KeyDir.Accounted, KeyDir.Model, Encoded, Invariant.Sound, View, Total, OutSet, Numbered,
           Tallied, Solo, Tight;
      CopyPhase();
      MergeApart(State(), ledger);
      SwitchPhase();
    }

    // A whole merge with nobody else at work. Afterwards every record on disk is the newest of its
    // key and a put, every file that held anything is gone, and nothing is left to reclaim.
    method Compact() returns (o: Outcome)
      requires Valid() && Sound() && merge == NO_MERGE
      modifies this`data, this`files, this`active, this`nextID, this`synced, this`merge, this`hinted, this`mergeSn
      modifies this`total, this`drift
      modifies index, index.order, index.order.head, index.order.nodes
      ensures o == if closed then Failed(StoreClosed) else Done
      ensures Valid() && Sound() && merge == NO_MERGE && Live() == old(Live())
      ensures closed || (old(files).Keys == {old(active)} && FileSize(old(files)[old(active)]) == 0) ==>
                State() == old(State())
      ensures !closed ==> Tight(files, index.Model()) && Total(files) == Sum(index.Model(), Bytes1)
      ensures !closed ==> forall id :: id in old(files) && id in files ==>
                id == old(active) && FileSize(old(files)[id]) == 0
      ensures !closed && (old(files).Keys != {old(active)} || FileSize(old(files)[old(active)]) > 0) ==>
                mergeSn == sn && total == index.live
    {
      hide KeyDir.Valid, KeyDir.Accounted, KeyDir.Model, Encoded, Invariant.Sound, View, Total, OutSet, Seal, SizeAll,
           Tight, Solo, Sum, FileSize;
      if closed {
        return Failed(StoreClosed);
      }
      SealSound(State(), ledger);
      SealSolo(State(), ledger);
      SealActive();
      if merge.phase != Idle {
        ghost var ids := merge.ids + {active};
        MergeSealed();
        assert forall id :: id in old(files) && id in files ==> id in files.Keys * ids;
      } else {
        NothingTight(State(), ledger);
      }
      SoundPointing(State(), ledger);
      TightTotal(files, index.Model());
      Counted();
      o := Done;
    }
  }

  // What Solo speaks of.
  lemma SoloPhases(db: Db, d: Db)
    requires d.files == db.files && d.active == db.active && d.merge.ids == db.merge.ids
    requires d.merge.outs == db.merge.outs && d.merge.moved == db.merge.moved
    ensures Solo(d) == Solo(db)
  {
    hide MovedTo;
  }

  // A store of one empty file.
  lemma NothingTight(db: Db, ledger: map<nat, Record>)
    requires Invariant.Sound(db, ledger) && db.files.Keys == {db.active} && db.files[db.active] == File([], [])
    ensures Tight(db.files, db.index)
  {
    hide Ledgered, Bounded, Newest, Forgotten, Merging;
    assert forall e: Entry :: Deref(db.files, e) == None;
    assert forall k :: k in db.index ==> Points(db.files, k, db.index[k]);
    assert forall k :: k !in db.index;
  }

  lemma SoundPointing(db: Db, ledger: map<nat, Record>)
    requires Invariant.Sound(db, ledger)
    ensures Pointing(db.files, db.index)
  {
    hide Pointing;
  }

  lemma SameKeys(data: map<nat, Bytes>, fs: Files)
    requires Encoded(data, fs)
    ensures data.Keys == fs.Keys
  {
  }

  function OnlyFiles(fs: Files, ids: set<nat>): Files { map id | id in fs && id in ids :: fs[id] }

  lemma OnlyFilesRemove(fs: Files, ids: set<nat>, id: nat)
    requires id in ids && id in fs
    ensures Total(OnlyFiles(fs, ids)) == FileSize(fs[id]) + Total(OnlyFiles(fs, ids - {id}))
  {
    hide Total, FileSize;
    TotalRemove(OnlyFiles(fs, ids), id);
    assert OnlyFiles(fs, ids) - {id} == OnlyFiles(fs, ids - {id});
  }

  // The same files, with records appended and new files beside them.
  ghost predicate Extends(was: Files, fs: Files) {
    forall id :: id in was ==> id in fs && was[id].recs <= fs[id].recs && fs[id].tail == was[id].tail
  }

  // What was appended.
  ghost function Appended(was: Files, fs: Files): Files
    requires Extends(was, fs)
  {
    map id | id in fs :: if id in was then File(fs[id].recs[|was[id].recs|..], []) else fs[id]
  }

  lemma {:induction false} AppendedTotal(was: Files, fs: Files)
    requires Extends(was, fs)
    ensures Total(fs) == Total(was) + Total(Appended(was, fs))
    decreases |fs|
  {
    hide Total, SizeAll;
    if fs == map[] {
      assert was == map[] && Appended(was, fs) == map[];
      NoFiles();
    } else {
      var id :| id in fs;
      var more := Appended(was, fs);
      assert more - {id} == Appended(was - {id}, fs - {id});
      AppendedTotal(was - {id}, fs - {id});
      TotalRemove(fs, id);
      TotalRemove(more, id);
      if id in was {
        TotalRemove(was, id);
        assert fs[id].recs == was[id].recs + more[id].recs;
        SizeAllConcat(was[id].recs, more[id].recs);
      } else {
        assert was - {id} == was;
      }
    }
  }

  lemma {:induction false} NothingAppended(fs: Files)
    ensures Extends(fs, fs) && Total(Appended(fs, fs)) == 0
  {
    AppendedTotal(fs, fs);
  }

  lemma {:induction false} TotalSplit(fs: Files, ids: set<nat>)
    ensures Total(fs) == Total(OnlyFiles(fs, ids)) + Total(fs - ids)
    decreases |ids|
  {
    hide Total, FileSize;
    if ids == {} {
      assert OnlyFiles(fs, ids) == map[] && fs - ids == fs;
      NoFiles();
    } else {
      var id :| id in ids;
      TotalSplit(fs, ids - {id});
      if id in fs {
        OnlyFilesRemove(fs, ids, id);
        TotalRemove(fs - (ids - {id}), id);
        assert fs - (ids - {id}) - {id} == fs - ids;
      } else {
        assert OnlyFiles(fs, ids) == OnlyFiles(fs, ids - {id}) && fs - ids == fs - (ids - {id});
      }
    }
  }

  // Every file but the outputs before, every file but the merged ones after.
  lemma DropTally(fs: Files, ids: set<nat>, outs: set<nat>)
    requires ids !! outs
    ensures Total(fs - ids) == Total(fs - outs) - Total(OnlyFiles(fs, ids)) + Total(OnlyFiles(fs, outs))
  {
    hide Total;
    TotalSplit(fs, ids);
    TotalSplit(fs, outs);
  }

  lemma MergeApart(db: Db, ledger: map<nat, Record>)
    requires Invariant.Sound(db, ledger)
    ensures db.merge.ids !! OutSet(db.merge.outs)
  {
    hide Shaped, Bounded, Ledgered, Pointing, Newest, Forgotten, Collected, Moved, OnlyCopies, Awaiting, Untouched,
         Split;
  }

  lemma UnlinkFiles(db: Db)
    ensures Unlink(db).files == db.files - db.merge.ids && Unlink(db).merge == NO_MERGE
  {
  }

  lemma OutSetHas(outs: seq<nat>)
    ensures forall id :: id in OutSet(outs) <==> id in outs
  {
  }

  lemma EmptyOuts(fs: Files)
    ensures fs - OutSet([]) == fs
  {
  }

  lemma RepointIs(db: Db, hi: nat)
    requires db.merge.done <= hi <= |db.merge.items| == |db.merge.moved|
    ensures Repoint(db, hi) == db.(index := RepointTo(db.index, db.merge.items, db.merge.moved, db.merge.done, hi),
                                   merge := db.merge.(done := hi))
  {
  }

  // An entry the merge is about to repoint weighs as much as its copy.
  lemma RepointWeight(db: Db, ledger: map<nat, Record>, i: nat)
    requires Invariant.Sound(db, ledger) && db.merge.phase == Repointing
    requires db.merge.done <= i < |db.merge.items| == |db.merge.moved|
    ensures var ix := RepointTo(db.index, db.merge.items, db.merge.moved, db.merge.done, i);
            Matches(ix, db.merge.items[i]) ==> SameWeight(ix[db.merge.items[i].key], db.merge.moved[i])
  {
    hide Invariant.Sound, Points;
    RepointSound(db, ledger, i);
    RepointIs(db, i);
    var d := Repoint(db, i);
    var it := db.merge.items[i];
    hide RepointTo;
    if Matches(d.index, it) {
      MovedPoints(d, ledger, i);
      Reads.IndexPoints(d, ledger, it.key);
      SameRecord(d, ledger, it.key, d.index[it.key], d.merge.moved[i]);
    }
  }

  lemma MovedPoints(db: Db, ledger: map<nat, Record>, i: nat)
    requires Invariant.Sound(db, ledger) && i < |db.merge.items| == |db.merge.moved|
    ensures Points(db.files, db.merge.items[i].key, db.merge.moved[i]) && db.merge.moved[i].sn == db.merge.items[i].e.sn
  {
    hide Points, Shaped, Ledgered, Bounded;
    assert MovedItem(db.files, db.merge.outs, db.merge.items[i], db.merge.moved[i]);
  }

  // Two locators of one sequence number lead to equal records.
  lemma SameRecord(db: Db, ledger: map<nat, Record>, k: Bytes, a: Entry, b: Entry)
    requires Invariant.Sound(db, ledger) && Points(db.files, k, a) && Points(db.files, k, b) && a.sn == b.sn
    ensures SameWeight(a, b)
  {
    hide Invariant.Sound, Tomb, Log.At;
    var r, q := Deref(db.files, a).value, Deref(db.files, b).value;
    LedgerOf(db, ledger, a.file, r);
    LedgerOf(db, ledger, b.file, q);
  }

  const MERGE_CHUNK: nat := 1024

  lemma UnlinkOne(fs: Files, ids: set<nat>, rest: set<nat>, id: nat)
    requires id in rest && rest <= ids
    ensures fs - (ids - rest) - {id} == fs - (ids - (rest - {id}))
  {
    assert ids - (rest - {id}) == (ids - rest) + {id};
  }

  lemma RetireIs(db: Db, hi: nat)
    requires db.merge.done <= hi <= |db.merge.retired|
    ensures Retire(db, hi)
            == db.(index := RetireTo(db.index, db.merge.retired, db.merge.done, hi), merge := db.merge.(done := hi))
  {
  }

  // An entry the merge is about to forget is a tombstone.
  lemma RetireWeight(db: Db, ledger: map<nat, Record>, i: nat)
    requires Invariant.Sound(db, ledger) && db.merge.phase == Retiring && db.merge.done <= i < |db.merge.retired|
    ensures var ix := RetireTo(db.index, db.merge.retired, db.merge.done, i);
            Matches(ix, db.merge.retired[i]) ==> ix[db.merge.retired[i].key].tomb
  {
    hide Invariant.Sound, Points;
    RetireSound(db, ledger, i);
    RetireIs(db, i);
    var d, it := Retire(db, i), db.merge.retired[i];
    hide RetireTo;
    if Matches(d.index, it) {
      RetiredPoints(d, ledger, i);
      Reads.IndexPoints(d, ledger, it.key);
      SameRecord(d, ledger, it.key, d.index[it.key], it.e);
    }
  }

  lemma RetiredPoints(db: Db, ledger: map<nat, Record>, i: nat)
    requires Invariant.Sound(db, ledger) && i < |db.merge.retired|
    ensures Points(db.files, db.merge.retired[i].key, db.merge.retired[i].e) && db.merge.retired[i].e.tomb
  {
    hide Points, Shaped, Ledgered, Bounded;
    assert CollectedItem(db.files, db.merge.ids, db.merge.retired[i], true);
  }

  // --- the byte count ----------------------------------------------------------------------------

  lemma EmptyTally()
    ensures Total(map[0 := File([], [])] - OutSet([])) == 0
  {
    var fs: Files := map[0 := File([], [])];
    assert fs - OutSet([]) == fs;
    TotalRemove(fs, 0);
    assert fs - {0} == map[];
  }

  lemma TallyNew(fs: Files, outs: seq<nat>, id: nat)
    requires id !in fs && id !in outs
    ensures Total(fs[id := File([], [])] - OutSet(outs)) == Total(fs - OutSet(outs))
  {
    hide Total;
    TotalPut(fs - OutSet(outs), id, File([], []));
    assert fs[id := File([], [])] - OutSet(outs) == (fs - OutSet(outs))[id := File([], [])];
  }

  lemma TallyAppend(fs: Files, outs: seq<nat>, id: nat, g: seq<Record>)
    requires id in fs && id !in outs && fs[id].tail == []
    ensures Total(fs[id := File(fs[id].recs + g, [])] - OutSet(outs)) == Total(fs - OutSet(outs)) + SizeAll(g)
  {
    hide Total, SizeAll;
    var f := File(fs[id].recs + g, []);
    SizeAllConcat(fs[id].recs, g);
    TotalPut(fs - OutSet(outs), id, f);
    assert fs[id := f] - OutSet(outs) == (fs - OutSet(outs))[id := f];
  }

  lemma TallyOut(fs: Files, outs: seq<nat>, id: nat)
    requires id !in fs
    ensures fs[id := File([], [])] - OutSet(outs + [id]) == fs - OutSet(outs)
  {
  }

  lemma TallySame(fs: Files, outs: seq<nat>, id: nat, f: File)
    requires id in outs
    ensures fs[id := f] - OutSet(outs) == fs - OutSet(outs)
  {
  }

  lemma TallyAbort(fs: Files, outs: seq<nat>)
    ensures (fs - OutSet(outs)) - OutSet([]) == fs - OutSet(outs)
  {
  }

  lemma EncodedDrop(data: map<nat, Bytes>, fs: Files, id: nat)
    requires Encoded(data, fs)
    ensures Encoded(data - {id}, fs - {id})
  {
    hide FileBytes, AllValid;
    assert (data - {id}).Keys == (fs - {id}).Keys;
  }

  lemma DropOne(fs: Files, outs: seq<nat>, i: nat)
    requires i < |outs|
    ensures fs - OutSet(outs[..i]) - {outs[i]} == fs - OutSet(outs[..i + 1])
  {
    assert OutSet(outs[..i + 1]) == OutSet(outs[..i]) + {outs[i]};
  }

  lemma NothingDropped(fs: Files, outs: seq<nat>)
    ensures fs - OutSet(outs[..0]) == fs
  {
    assert OutSet(outs[..0]) == {};
  }

  // What copying leaves alone.
  ghost predicate Copies(db: Db, d: Db) {
    && d.index == db.index && d.sn == db.sn && d.active == db.active && d.synced == db.synced && d.mergeSn == db.mergeSn
    && d.hinted == db.hinted && d.maxSize == db.maxSize
    && d.merge == db.merge.(outs := d.merge.outs, moved := d.merge.moved)
  }

  lemma CopyFrame(db: Db, ledger: map<nat, Record>)
    requires Invariant.Sound(db, ledger) && db.merge.phase == Copying && |db.merge.moved| < |db.merge.items|
    ensures Copies(db, Copy(db)) && |Copy(db).merge.moved| == |db.merge.moved| + 1
  {
    CopySound(db, ledger);
    hide Invariant.Sound, Lifted, Size;
  }

  lemma CopyWithin(db: Db, ledger: map<nat, Record>)
    requires Invariant.Sound(db, ledger)
    ensures |db.merge.moved| <= |db.merge.items|
  {
  }

  lemma HintedSound(db: Db, ledger: map<nat, Record>, hinted: set<nat>)
    requires Invariant.Sound(db, ledger)
    ensures Invariant.Sound(db.(hinted := hinted), ledger)
  {
    hide Shaped, Bounded, Ledgered, Pointing, Newest, Forgotten, Merging;
  }

  // The state once an output has been picked for a record of the given size.
  ghost predicate Picked(db: Db, size: nat, d: Db, out: nat)
    requires forall id :: id in db.merge.outs ==> id in db.files
  {
    var m := db.merge;
    if m.outs == [] || FileSize(db.files[m.outs[|m.outs| - 1]]) + size > db.maxSize then
      out == db.nextID
      && d == db.(files := db.files[out := File([], [])], nextID := out + 1, merge := m.(outs := m.outs + [out]))
    else out == m.outs[|m.outs| - 1] && d == db
  }

  // Picking an output and appending to it is the copy step.
  lemma CopyIs(db: Db, r: Record, d: Db, out: nat)
    requires |db.merge.moved| < |db.merge.items| && Deref(db.files, db.merge.items[|db.merge.moved|].e) == Some(r)
    requires forall id :: id in db.merge.outs ==> id in db.files && db.files[id].tail == []
    requires Picked(db, Size(Lifted(r)), d, out)
    ensures out in d.files
    ensures var l, f := Lifted(r), d.files[out];
            Copy(db) == d.(files := d.files[out := File(f.recs + [l], [])],
                           merge := d.merge.(moved := d.merge.moved + [Entry(FileSize(f), l.sn, out, Size(l), false)]))
  {
    hide SizeAll, Lifted, Log.At;
    assert db.files[out := File([], [])][out := File([] + [Lifted(r)], [])]
           == db.files[out := File([] + [Lifted(r)], [])];
  }

  // What a copy relies on.
  lemma CopyReady(db: Db, ledger: map<nat, Record>)
    requires Invariant.Sound(db, ledger) && db.merge.phase == Copying && |db.merge.moved| < |db.merge.items|
    ensures var it := db.merge.items[|db.merge.moved|]; Points(db.files, it.key, it.e)
    ensures forall id :: id in db.merge.outs ==> id in db.files && id != db.active && db.files[id].tail == []
    ensures db.active < db.nextID && db.nextID !in db.files
  {
    hide Points, Less;
    assert CollectedItem(db.files, db.merge.ids, db.merge.items[|db.merge.moved|], false);
  }

  lemma AllDecodable(data: map<nat, Bytes>, fs: Files)
    requires Encoded(data, fs)
    ensures Reads.Decodable(fs)
  {
  }

  lemma FileLength(data: map<nat, Bytes>, fs: Files, id: nat)
    requires Encoded(data, fs) && id in fs
    ensures id in data && |data[id]| == FileSize(fs[id])
  {
  }

  // Exactly the pairs of m whose keys lie in the range, ascending.
  ghost predicate Range(m: map<Bytes, Bytes>, start: Bytes, end: Bytes, ps: seq<(Bytes, Bytes)>) {
    && (forall i, j :: 0 <= i < j < |ps| ==> Less(ps[i].0, ps[j].0))
    && (forall i :: 0 <= i < |ps| ==> ps[i].0 in m && ps[i].1 == m[ps[i].0] && InBounds(start, end, ps[i].0))
    && (forall k :: k in m && InBounds(start, end, k) ==> (k, m[k]) in ps)
  }

  // A range cut to the limit lacks only keys behind those it has.
  lemma RangeCut(m: map<Bytes, Bytes>, start: Bytes, end: Bytes, whole: seq<(Bytes, Bytes)>, limit: int)
    requires Range(m, start, end, whole)
    ensures var out := Scanning.Limited(whole, limit);
            && (forall i, j :: 0 <= i < j < |out| ==> Less(out[i].0, out[j].0))
            && (forall i :: 0 <= i < |out| ==>
                  out[i].0 in m && out[i].1 == m[out[i].0] && InBounds(start, end, out[i].0))
            && (0 < limit ==> |out| <= limit)
            && (forall k :: k in m && InBounds(start, end, k) ==>
                  (k, m[k]) in out || (0 < limit == |out| && forall i :: 0 <= i < |out| ==> Less(out[i].0, k)))
  {
    hide Less, InBounds;
    var out := Scanning.Limited(whole, limit);
    forall k | k in m && InBounds(start, end, k)
      ensures (k, m[k]) in out || (0 < limit == |out| && forall i :: 0 <= i < |out| ==> Less(out[i].0, k))
    {
      var j :| 0 <= j < |whole| && whole[j] == (k, m[k]);
      assert j < |out| ==> out[j] == whole[j];
    }
  }

  // From start on, up to and including end; an empty end means no end.
  predicate InBounds(start: Bytes, end: Bytes, k: Bytes) { !Less(k, start) && (end == [] || !Less(end, k)) }

  function Valued(items: seq<Item>, m: map<Bytes, Bytes>): (ps: seq<(Bytes, Bytes)>)
    ensures |ps| == |items|
    ensures forall i :: 0 <= i < |ps| ==> ps[i] == (items[i].key, if items[i].key in m then m[items[i].key] else [])
  {
    seq(|items|, i requires 0 <= i < |items| => (items[i].key, if items[i].key in m then m[items[i].key] else []))
  }

  // The range of an ordered index is the range of the map it denotes.
  lemma RangeIs(ix: Index, order: seq<Item>, m: map<Bytes, Bytes>, start: Bytes, end: Bytes)
    requires KeyOrdered(order) && (forall it :: it in order <==> it.key in ix && it.e == ix[it.key])
    requires forall k :: k in m <==> k in ix && !ix[k].tomb
    ensures Range(m, start, end, Valued(Scanning.InRange(order, start, end), m))
    ensures forall it :: it in Scanning.InRange(order, start, end) ==>
              it.key in m && it.key in ix && it.e == ix[it.key] && !it.e.tomb
  {
    hide Less, Scanning.InRange;
    var items := Scanning.InRange(order, start, end);
    Scanning.InRangeIn(order, start, end);
    forall k ensures Scanning.Ahead(start, false, k) <==> !Less(k, start) {
      LessTrichotomy(start, k);
    }
    var ps := Valued(items, m);
    assert forall i :: 0 <= i < |ps| ==> items[i] in items;
    forall k | k in m && InBounds(start, end, k) ensures (k, m[k]) in ps {
      var it := Item(k, ix[k]);
      assert it in order && it in items;
      var i :| 0 <= i < |items| && items[i] == it;
      assert ps[i] == (k, m[k]);
    }
  }

  lemma OnlyParse(raw: Bytes, g: seq<Record>)
    requires AllValid(g) && EncodeAll(g) == raw
    ensures forall h :: AllValid(h) && EncodeAll(h) == raw ==> h == g
  {
    hide EncodeAll, Next, AllValid;
    forall h | AllValid(h) && EncodeAll(h) == raw ensures h == g {
      IntactEncoded(g, []);
      IntactEncoded(h, []);
      NextShort([]);
      assert EncodeAll(g) + [] == raw && EncodeAll(h) + [] == raw;
      assert g + [] == g && h + [] == h;
    }
  }

  lemma {:induction false} HighestFrom(sn: nat, g: seq<Record>)
    ensures HighestAll(sn, g) == Max(sn, HighestAll(0, g))
  {
    if g != [] {
      HighestFrom(sn, g[..|g| - 1]);
    }
  }

  lemma BatchGroup(now: int, keys: seq<Bytes>, values: seq<Bytes>, sn: nat)
    requires |keys| == |values| > 0 && Clock(now) && sn + |keys| < U64
    requires forall i :: 0 <= i < |keys| ==> Admissible(keys[i]) && |values[i]| <= MAX_VALUE
    ensures var g := Batch(now, keys, values);
            && Operation(g) && AllValid(Stamp(g, sn))
            && forall i :: 0 <= i < |g| ==>
                 !Tomb(Stamp(g, sn)[i]) && Stamp(g, sn)[i].key == keys[i] && Stamp(g, sn)[i].value == values[i]
  {
    hide Operation;
    BatchOperation(now, keys, values);
  }

  lemma SingleGroup(r: Record, sn: nat)
    requires sn + 1 < U64 && Clock(r.ts) && Admissible(r.key) && |r.value| <= MAX_VALUE && r.flags < 2
    ensures Stamp([r], sn) == [r.(sn := sn + 1)] && AllValid(Stamp([r], sn)) && Operation([r]) && SizeAll([r]) <= U32
  {
    assert Stamp([r], sn) == [r.(sn := sn + 1)];
    assert [r][..0] == [];
  }
}
