/** Range scans that race writers and merges: locators taken under the index lock in chunks,
    read one by one afterwards, and resolved again when a merge has unlinked their file. */
module RangeScans {
  import opened Bytes
  import opened Records
  import opened Engine
  import opened Invariant
  import opened Writing
  import opened Compaction
  import opened Crash
  import opened Runs
  import opened Reads
  import Scanning

  datatype Range = Range(start: Bytes, end: Bytes, limit: int)

  datatype Row = Row(key: Bytes, value: Bytes)

  // stale: the first reference found its file gone. again: the locator the index gave for it
  // then. lost: keys whose second locator was gone as well. failed: a read went wrong otherwise.
  datatype Scan = Scan(cursor: Bytes, exclusive: bool, atEnd: bool, refs: seq<Item>, stale: bool, again: Option<Entry>,
                       out: seq<Row>, lost: set<Bytes>, done: bool, failed: bool)

  datatype Tick =
    | Lead(a: Action)                                                      // the engine takes a step
    | Look(refs: seq<Item>, cursor: Bytes, exclusive: bool, atEnd: bool)   // a chunk of locators
    | Try                                                                  // read the first one
    | Resolve                                                              // look its key up again
    | Retry                                                                // and read that

  datatype Race = Race(w: World, s: Scan)

  function Begin(g: Range): Scan { Scan(g.start, false, false, [], false, None, [], {}, false, false) }

  // The first reference is dealt with.
  function Dealt(g: Range, s: Scan, more: seq<Row>): Scan
    requires s.refs != []
  {
    var out := s.out + more;
    s.(refs := s.refs[1..], stale := false, again := None, out := out,
       done := (s.atEnd && |s.refs| == 1) || (more != [] && 0 < g.limit <= |out|))
  }

  ghost function Looked(g: Range, p: Race, refs: seq<Item>, cursor: Bytes, exclusive: bool, atEnd: bool): Scan {
    if p.s.refs != []
       || !Scanning.Covers(p.w.db.index, p.s.cursor, p.s.exclusive, g.end, refs, cursor, exclusive, atEnd)
    then p.s
    else
      p.s.(cursor := cursor, exclusive := exclusive, atEnd := atEnd, refs := refs, stale := false, again := None,
           done := (cursor == p.s.cursor && exclusive == p.s.exclusive) || (atEnd && refs == []))
  }

  // What a read of the first reference's key does.
  ghost function Read(g: Range, s: Scan, o: Outcome): Scan
    requires s.refs != []
  {
    match o
    case Value(v) => Dealt(g, s, [Row(s.refs[0].key, v)])
    case Gone => if s.again.None? then s.(stale := true) else Dealt(g, s, []).(lost := s.lost + {s.refs[0].key})
    case NotFound => Dealt(g, s, [])
    case _ => s.(done := true, failed := true)
  }

  ghost function Ticked(g: Range, p: Race, e: Tick): Race {
    var s := p.s;
    match e
    case Lead(a) => if a.Reboot? then p else p.(w := Runs.Next(p.w, a))
    case Look(refs, cursor, exclusive, atEnd) =>
      if s.done then p else p.(s := Looked(g, p, refs, cursor, exclusive, atEnd))
    case Try =>
      if s.done || s.refs == [] || s.stale || s.again.Some? || !Decodable(p.w.db.files) then p
      else p.(s := Read(g, s, ReadValue(p.w.db.files, s.refs[0].e)))
    case Resolve =>
      if s.done || s.refs == [] || !s.stale then p
      else
        var k := s.refs[0].key;
        if k !in p.w.db.index || p.w.db.index[k].tomb then p.(s := Dealt(g, s, []))
        else p.(s := s.(stale := false, again := Some(p.w.db.index[k])))
    case Retry =>
      if s.done || s.refs == [] || s.again.None? || !Decodable(p.w.db.files) then p
      else p.(s := Read(g, s, ReadValue(p.w.db.files, s.again.value)))
  }

  ghost function Ticks(g: Range, p: Race, es: seq<Tick>): Race {
    if es == [] then p else Ticked(g, Ticks(g, p, es[..|es| - 1]), es[|es| - 1])
  }

  // --- order ------------------------------------------------------------------------------------

  predicate Asked(g: Range, k: Bytes) { Scanning.Ahead(g.start, false, k) && Scanning.Within(g.end, k) }

  // A key in the range that the cursor has passed.
  predicate Behind(g: Range, s: Scan, k: Bytes) { Asked(g, k) && !Scanning.Ahead(s.cursor, s.exclusive, k) }

  ghost predicate Orderly(g: Range, s: Scan) {
    && (forall i, j :: 0 <= i < j < |s.out| ==> Less(s.out[i].key, s.out[j].key))
    && KeyOrdered(s.refs)
    && (forall i, j :: 0 <= i < |s.out| && 0 <= j < |s.refs| ==> Less(s.out[i].key, s.refs[j].key))
    && (forall i :: 0 <= i < |s.out| ==> Behind(g, s, s.out[i].key))
    && (forall j :: 0 <= j < |s.refs| ==> Behind(g, s, s.refs[j].key))
    && Scanning.Forward(g.start, false, s.cursor, s.exclusive)
  }

  lemma BeginOrderly(g: Range)
    ensures Orderly(g, Begin(g))
  {
  }

  lemma DealtOrderly(g: Range, s: Scan, more: seq<Row>)
    requires Orderly(g, s) && s.refs != [] && (more == [] || (|more| == 1 && more[0].key == s.refs[0].key))
    ensures Orderly(g, Dealt(g, s, more))
  {
    hide Less, Scanning.Ahead, Scanning.Within, Scanning.Forward;
  }

  lemma LookedOrderly(g: Range, p: Race, refs: seq<Item>, cursor: Bytes, exclusive: bool, atEnd: bool)
    requires Orderly(g, p.s)
    ensures Orderly(g, Looked(g, p, refs, cursor, exclusive, atEnd))
  {
    hide Less, Scanning.Ahead, Scanning.Within, Scanning.Whole, Scanning.Exhausted;
    var s, t := p.s, Looked(g, p, refs, cursor, exclusive, atEnd);
    if t != s {
      forall j | 0 <= j < |refs| ensures Behind(g, t, refs[j].key) {
        assert refs[j] in refs;
      }
      forall i, j | 0 <= i < |s.out| && 0 <= j < |refs| ensures Less(s.out[i].key, refs[j].key) {
        assert refs[j] in refs && Behind(g, s, s.out[i].key);
        Scanning.Separated(s.cursor, s.exclusive, s.out[i].key, refs[j].key);
      }
      forall i | 0 <= i < |s.out| ensures Behind(g, t, s.out[i].key) {
        assert Behind(g, s, s.out[i].key);
      }
    }
  }

  lemma OrderlySame(g: Range, s: Scan, t: Scan)
    requires Orderly(g, s) && t.cursor == s.cursor && t.exclusive == s.exclusive && t.refs == s.refs && t.out == s.out
    ensures Orderly(g, t)
  {
    hide Less, Scanning.Ahead, Scanning.Within, Scanning.Forward, KeyOrdered;
  }

  lemma ReadOrderly(g: Range, s: Scan, o: Outcome)
    requires Orderly(g, s) && s.refs != []
    ensures Orderly(g, Read(g, s, o))
  {
    hide Orderly, Dealt;
    DealtOrderly(g, s, []);
    if o.Value? {
      DealtOrderly(g, s, [Row(s.refs[0].key, o.v)]);
    }
    OrderlySame(g, s, s.(stale := true));
    OrderlySame(g, s, s.(done := true, failed := true));
    OrderlySame(g, Dealt(g, s, []), Dealt(g, s, []).(lost := s.lost + {s.refs[0].key}));
  }

  lemma TickOrderly(g: Range, p: Race, e: Tick)
    requires Orderly(g, p.s)
    ensures Orderly(g, Ticked(g, p, e).s)
  {
    hide Orderly, Looked, Read, ReadValue, Decodable, Runs.Next, Dealt;
    var s := p.s;
    match e
    case Look(refs, cursor, exclusive, atEnd) => LookedOrderly(g, p, refs, cursor, exclusive, atEnd);
    case Lead(_) =>
    case Resolve =>
      if s.refs != [] {
        DealtOrderly(g, s, []);
        OrderlySame(g, s, s.(stale := false, again := Ticked(g, p, e).s.again));
      }
    case _ =>
      if s.refs != [] {
        forall o ensures Orderly(g, Read(g, s, o)) {
          ReadOrderly(g, s, o);
        }
      }
  }

  // Emitted keys ascend strictly and lie in the range, whatever happens in between.
  lemma {:induction false} ScanOrderly(g: Range, w: World, es: seq<Tick>)
    ensures Orderly(g, Ticks(g, Race(w, Begin(g)), es).s)
    decreases |es|
  {
    hide Orderly, Ticked;
    if es == [] {
      BeginOrderly(g);
    } else {
      ScanOrderly(g, w, es[..|es| - 1]);
      TickOrderly(g, Ticks(g, Race(w, Begin(g)), es[..|es| - 1]), es[|es| - 1]);
    }
  }

  // --- values --------------------------------------------------------------------------------------

  ghost function Moment(g: Range, w: World, es: seq<Tick>): Race { Ticks(g, Race(w, Begin(g)), es) }

  ghost predicate Serves(w: World, k: Bytes, v: Bytes) {
    k in View(w.db.index, w.ledger) && View(w.db.index, w.ledger)[k] == v
  }

  // At some moment of the scan the store held v under k.
  ghost predicate Served(g: Range, w: World, es: seq<Tick>, k: Bytes, v: Bytes) {
    exists i :: 0 <= i <= |es| && Serves(Moment(g, w, es[..i]).w, k, v)
  }

  lemma ServedGrows(g: Range, w: World, es: seq<Tick>, e: Tick, k: Bytes, v: Bytes)
    requires Served(g, w, es, k, v)
    ensures Served(g, w, es + [e], k, v)
  {
    hide Moment, Serves;
    var i :| 0 <= i <= |es| && Serves(Moment(g, w, es[..i]).w, k, v);
    assert (es + [e])[..i] == es[..i];
  }

  lemma ServedNow(g: Range, w: World, es: seq<Tick>, k: Bytes, v: Bytes)
    requires Serves(Moment(g, w, es).w, k, v)
    ensures Served(g, w, es, k, v)
  {
    hide Moment, Serves;
    assert es[..|es|] == es;
  }

  // While its file exists, the locator leads to v.
  ghost predicate Vouched(db: Db, k: Bytes, e: Entry, v: Bytes) {
    && !e.tomb && e.file < db.nextID
    && (e.file in db.files ==> Points(db.files, k, e) && Deref(db.files, e).value.value == v)
  }

  ghost predicate Backed(g: Range, w: World, es: seq<Tick>, k: Bytes, e: Entry) {
    exists v :: Served(g, w, es, k, v) && Vouched(Moment(g, w, es).w.db, k, e, v)
  }

  ghost predicate Truthful(g: Range, w: World, es: seq<Tick>) {
    var p := Moment(g, w, es);
    && Phys(p.w) && !p.s.failed
    && (forall j :: 0 <= j < |p.s.refs| ==> Backed(g, w, es, p.s.refs[j].key, p.s.refs[j].e))
    && (p.s.again.Some? && p.s.refs != [] ==> Backed(g, w, es, p.s.refs[0].key, p.s.again.value))
    && (forall i :: 0 <= i < |p.s.out| ==> Served(g, w, es, p.s.out[i].key, p.s.out[i].value))
  }

  lemma VouchedLater(db: Db, d: Db, k: Bytes, e: Entry, v: Bytes)
    requires Vouched(db, k, e, v) && Persists(db, d)
    ensures Vouched(d, k, e, v)
  {
    hide Points;
    if e.file in d.files {
      StillPoints(db, d, k, e);
    }
  }

  // A live entry of the index is backed by the store as it is.
  lemma IndexedServes(w: World, k: Bytes) returns (v: Bytes)
    requires Phys(w) && k in w.db.index && !w.db.index[k].tomb
    ensures Serves(w, k, v) && Vouched(w.db, k, w.db.index[k], v)
  {
    hide Phys, Sound, Tomb;
    PhysParts(w);
    IndexLedgered(w.db, w.ledger);
    IndexPoints(w.db, w.ledger, k);
    BelowNextID(w.db, w.ledger);
    var r := Deref(w.db.files, w.db.index[k]).value;
    LedgerOf(w.db, w.ledger, w.db.index[k].file, r);
    v := r.value;
  }

  // A backed locator reads as a value the store held, or its file is gone.
  lemma BackedReads(g: Range, w: World, es: seq<Tick>, k: Bytes, e: Entry)
    requires Backed(g, w, es, k, e) && Phys(Moment(g, w, es).w)
    ensures var fs := Moment(g, w, es).w.db.files;
            && Decodable(fs)
            && var o := ReadValue(fs, e);
            o == Gone || (o.Value? && Served(g, w, es, k, o.v))
  {
    hide Phys, Moment, Served, ReadValue, Points;
    var x := Moment(g, w, es).w;
    PhysParts(x);
    ValidRecords(x.db, x.ledger);
    var v :| Served(g, w, es, k, v) && Vouched(x.db, k, e, v);
    if e.file in x.db.files {
      ReadPointed(x.db.files, k, e);
    } else {
      ReadGone(x.db.files, e);
    }
  }

  lemma BackedGrows(g: Range, w: World, es: seq<Tick>, e: Tick, k: Bytes, l: Entry)
    requires Backed(g, w, es, k, l) && Phys(Moment(g, w, es).w)
    ensures Backed(g, w, es + [e], k, l)
  {
    hide Phys, Served, Vouched;
    var p, q := Moment(g, w, es), Moment(g, w, es + [e]);
    var v :| Served(g, w, es, k, v) && Vouched(p.w.db, k, l, v);
    ServedGrows(g, w, es, e, k, v);
    AfterOne(g, w, es, e);
    StepPersists(g, p, e);
    VouchedLater(p.w.db, q.w.db, k, l, v);
  }

  lemma AfterOne(g: Range, w: World, es: seq<Tick>, e: Tick)
    ensures Moment(g, w, es + [e]) == Ticked(g, Moment(g, w, es), e)
  {
    hide Ticked;
    assert (es + [e])[..|es|] == es;
  }

  lemma StepPersists(g: Range, p: Race, e: Tick)
    requires Phys(p.w)
    ensures Phys(Ticked(g, p, e).w) && Persists(p.w.db, Ticked(g, p, e).w.db)
    ensures !e.Lead? ==> Ticked(g, p, e).w == p.w
  {
    hide Phys, Runs.Next, Looked, Read, ReadValue, Dealt;
    PersistsSelf(p.w.db);
    if e.Lead? && !e.a.Reboot? {
      NextPhys(p.w, e.a);
      NextPersists(p.w, e.a);
    }
  }

  // What is left of the references, and what has been emitted, is still good.
  lemma Carried(g: Range, w: World, es: seq<Tick>, e: Tick)
    requires Truthful(g, w, es)
    ensures var p, all := Moment(g, w, es), es + [e];
            && Phys(Moment(g, w, all).w)
            && (forall j :: 0 <= j < |p.s.refs| ==> Backed(g, w, all, p.s.refs[j].key, p.s.refs[j].e))
            && (p.s.again.Some? && p.s.refs != [] ==> Backed(g, w, all, p.s.refs[0].key, p.s.again.value))
            && (forall i :: 0 <= i < |p.s.out| ==> Served(g, w, all, p.s.out[i].key, p.s.out[i].value))
  {
    hide Phys, Moment, Backed, Served, Ticked;
    var p, all := Moment(g, w, es), es + [e];
    AfterOne(g, w, es, e);
    StepPersists(g, p, e);
    forall j | 0 <= j < |p.s.refs| ensures Backed(g, w, all, p.s.refs[j].key, p.s.refs[j].e) {
      BackedGrows(g, w, es, e, p.s.refs[j].key, p.s.refs[j].e);
    }
    if p.s.again.Some? && p.s.refs != [] {
      BackedGrows(g, w, es, e, p.s.refs[0].key, p.s.again.value);
    }
    forall i | 0 <= i < |p.s.out| ensures Served(g, w, all, p.s.out[i].key, p.s.out[i].value) {
      ServedGrows(g, w, es, e, p.s.out[i].key, p.s.out[i].value);
    }
  }

  // A live entry looked up now.
  lemma LookedUp(g: Range, w: World, es: seq<Tick>, e: Tick, k: Bytes)
    requires Phys(Moment(g, w, es).w) && !e.Lead? && k in Moment(g, w, es).w.db.index
    requires !Moment(g, w, es).w.db.index[k].tomb
    ensures Backed(g, w, es + [e], k, Moment(g, w, es).w.db.index[k])
  {
    hide Phys, Moment, Served, Vouched, Serves, Ticked;
    var p, all := Moment(g, w, es), es + [e];
    AfterOne(g, w, es, e);
    StepPersists(g, p, e);
    var v := IndexedServes(p.w, k);
    ServedNow(g, w, all, k, v);
  }

  lemma TruthfulLook(g: Range, w: World, es: seq<Tick>, e: Tick)
    requires Truthful(g, w, es) && e.Look?
    ensures Truthful(g, w, es + [e])
  {
    hide Phys, Moment, Backed, Served, Scanning.Whole, Scanning.Exhausted, Scanning.Forward, Scanning.Ahead,
         Scanning.Within, KeyOrdered;
    var p, q := Moment(g, w, es), Moment(g, w, es + [e]);
    AfterOne(g, w, es, e);
    Carried(g, w, es, e);
    if q.s != p.s {
      forall j | 0 <= j < |e.refs| ensures Backed(g, w, es + [e], e.refs[j].key, e.refs[j].e) {
        assert e.refs[j] in e.refs;
        LookedUp(g, w, es, e, e.refs[j].key);
      }
    }
  }

  lemma TruthfulResolve(g: Range, w: World, es: seq<Tick>)
    requires Truthful(g, w, es)
    ensures Truthful(g, w, es + [Resolve])
  {
    hide Phys, Moment, Backed, Served;
    var p := Moment(g, w, es);
    AfterOne(g, w, es, Resolve);
    Carried(g, w, es, Resolve);
    if p.s.refs != [] {
      var k := p.s.refs[0].key;
      if k in p.w.db.index && !p.w.db.index[k].tomb {
        LookedUp(g, w, es, Resolve, k);
      }
    }
  }

  lemma TruthfulRead(g: Range, w: World, es: seq<Tick>, e: Tick)
    requires Truthful(g, w, es) && (e.Try? || e.Retry?)
    ensures Truthful(g, w, es + [e])
  {
    hide Phys, Moment, Backed, Served, ReadValue;
    var p := Moment(g, w, es);
    AfterOne(g, w, es, e);
    Carried(g, w, es, e);
    if p.s.refs != [] && (e.Retry? ==> p.s.again.Some?) {
      var k, l := p.s.refs[0].key, if e.Try? then p.s.refs[0].e else p.s.again.value;
      BackedReads(g, w, es, k, l);
      var o := ReadValue(p.w.db.files, l);
      if o.Value? {
        ServedGrows(g, w, es, e, k, o.v);
      }
    }
  }

  lemma TruthfulLead(g: Range, w: World, es: seq<Tick>, e: Tick)
    requires Truthful(g, w, es) && e.Lead?
    ensures Truthful(g, w, es + [e])
  {
    hide Phys, Moment, Backed, Served, Runs.Next;
    AfterOne(g, w, es, e);
    Carried(g, w, es, e);
  }

  // Every value a scan emits is one the store held under that key at some moment of the scan, and
  // no read goes wrong.
  lemma {:induction false} ScanTruthful(g: Range, w: World, es: seq<Tick>)
    requires Phys(w)
    ensures Truthful(g, w, es)
    decreases |es|
  {
    hide Phys, Backed, Served, Ticked;
    if es != [] {
      hide Truthful;
      var init, e := es[..|es| - 1], es[|es| - 1];
      ScanTruthful(g, w, init);
      assert es == init + [e];
      match e
      case Lead(_) => TruthfulLead(g, w, init, e);
      case Look(_, _, _, _) => TruthfulLook(g, w, init, e);
      case Resolve => TruthfulResolve(g, w, init);
      case _ => TruthfulRead(g, w, init, e);
    }
  }

  // --- completeness ------------------------------------------------------------------------------------

  ghost predicate LiveIn(w: World, k: Bytes) { k in w.db.index && !w.db.index[k].tomb }

  ghost predicate LiveThroughout(g: Range, w: World, es: seq<Tick>, k: Bytes) {
    forall i :: 0 <= i <= |es| ==> LiveIn(Moment(g, w, es[..i]).w, k)
  }

  ghost predicate Emitted(s: Scan, k: Bytes) { exists i :: 0 <= i < |s.out| && s.out[i].key == k }

  ghost predicate Waiting(s: Scan, k: Bytes) { exists j :: 0 <= j < |s.refs| && s.refs[j].key == k }

  ghost predicate Full(g: Range, s: Scan) { 0 < g.limit <= |s.out| }

  // k is in the range and has been live so far: it is emitted, lost, waiting or still ahead, and
  // not ahead at the end.
  ghost predicate Accounted(g: Range, s: Scan, k: Bytes) {
    && (Behind(g, s, k) ==> Emitted(s, k) || k in s.lost || Waiting(s, k))
    && (s.atEnd ==> Behind(g, s, k))
    && (s.done ==> s.failed || Full(g, s) || (Behind(g, s, k) && s.refs == []))
  }

  lemma DealtAccounted(g: Range, s: Scan, more: seq<Row>, k: Bytes)
    requires Accounted(g, s, k) && !s.done && s.refs != []
    requires (|more| == 1 && more[0].key == s.refs[0].key) || (more == [] && s.refs[0].key != k)
    ensures Accounted(g, Dealt(g, s, more), k)
  {
    hide Scanning.Ahead, Scanning.Within;
    var t := Dealt(g, s, more);
    assert forall j :: 1 <= j < |s.refs| ==> t.refs[j - 1] == s.refs[j];
    assert forall i :: 0 <= i < |s.out| ==> t.out[i] == s.out[i];
    if more != [] {
      assert t.out[|s.out|] == more[0];
    }
  }

  lemma LookedAccounted(g: Range, p: Race, refs: seq<Item>, cursor: Bytes, exclusive: bool, atEnd: bool, k: Bytes)
    requires Accounted(g, p.s, k) && !p.s.done && LiveIn(p.w, k) && Asked(g, k)
    ensures Accounted(g, Looked(g, p, refs, cursor, exclusive, atEnd), k)
  {
    hide Scanning.Ahead, Scanning.Within, KeyOrdered;
    var s, t := p.s, Looked(g, p, refs, cursor, exclusive, atEnd);
    if t != s && Behind(g, t, k) && !Behind(g, s, k) {
      assert Item(k, p.w.db.index[k]) in refs;
      var j :| 0 <= j < |refs| && refs[j] == Item(k, p.w.db.index[k]);
      assert t.refs[j].key == k;
    }
    if cursor == s.cursor && exclusive == s.exclusive && refs != [] {
      assert refs[0] in refs;
    }
  }

  lemma TickAccounted(g: Range, p: Race, e: Tick, k: Bytes)
    requires Accounted(g, p.s, k) && LiveIn(p.w, k) && Asked(g, k)
    requires p.s.refs != [] && Decodable(p.w.db.files) ==> !ReadValue(p.w.db.files, p.s.refs[0].e).NotFound?
    requires p.s.refs != [] && Decodable(p.w.db.files) && p.s.again.Some? ==>
               !ReadValue(p.w.db.files, p.s.again.value).NotFound?
    ensures Accounted(g, Ticked(g, p, e).s, k)
  {
    hide Looked, ReadValue, Decodable, Runs.Next, Scanning.Ahead, Scanning.Within, Dealt;
    var s := p.s;
    if s.done {
    } else if e.Look? {
      LookedAccounted(g, p, e.refs, e.cursor, e.exclusive, e.atEnd, k);
    } else if s.refs != [] {
      forall v ensures Accounted(g, Dealt(g, s, [Row(s.refs[0].key, v)]), k) {
        DealtAccounted(g, s, [Row(s.refs[0].key, v)], k);
      }
      if s.refs[0].key != k {
        DealtAccounted(g, s, [], k);
      }
      LostAccounted(g, s, k);
    }
  }

  lemma LostAccounted(g: Range, s: Scan, k: Bytes)
    requires Accounted(g, s, k) && !s.done && s.refs != []
    ensures Accounted(g, Dealt(g, s, []).(lost := s.lost + {s.refs[0].key}), k)
  {
    hide Scanning.Ahead, Scanning.Within;
    var t := Dealt(g, s, []);
    assert forall j :: 1 <= j < |s.refs| ==> t.refs[j - 1] == s.refs[j];
    assert t.out == s.out;
  }

  lemma {:induction false} ScanAccounted(g: Range, w: World, es: seq<Tick>, k: Bytes)
    requires Phys(w) && Asked(g, k) && LiveThroughout(g, w, es, k)
    ensures Accounted(g, Moment(g, w, es).s, k)
    decreases |es|
  {
    hide Phys, Backed, Served, Ticked, Asked, Accounted, ReadValue;
    if es == [] {
      BeginAccounted(g, k);
    } else {
      var init, e := es[..|es| - 1], es[|es| - 1];
      assert LiveThroughout(g, w, init, k) by {
        assert forall i :: 0 <= i <= |init| ==> init[..i] == es[..i];
      }
      ScanAccounted(g, w, init, k);
      ScanTruthful(g, w, init);
      var p := Moment(g, w, init);
      if p.s.refs != [] {
        BackedReads(g, w, init, p.s.refs[0].key, p.s.refs[0].e);
        if p.s.again.Some? {
          BackedReads(g, w, init, p.s.refs[0].key, p.s.again.value);
        }
      }
      assert LiveIn(p.w, k);
      TickAccounted(g, p, e, k);
    }
  }

  lemma BeginAccounted(g: Range, k: Bytes)
    ensures Accounted(g, Begin(g), k)
  {
  }

  // A finished scan has emitted every key of its range that was live throughout, once, except keys
  // that were lost and, if the limit stopped it, keys beyond the last one emitted.
  lemma ScanComplete(g: Range, w: World, es: seq<Tick>, k: Bytes)
    requires Phys(w) && Asked(g, k) && LiveThroughout(g, w, es, k) && Moment(g, w, es).s.done
    ensures var s := Moment(g, w, es).s;
            && (Emitted(s, k) || k in s.lost || (Full(g, s) && forall i :: 0 <= i < |s.out| ==> Less(s.out[i].key, k)))
            && (forall i, j :: 0 <= i < |s.out| && 0 <= j < |s.out| && s.out[i].key == s.out[j].key ==> i == j)
  {
    hide Phys, Served, Backed, Moment, Less, Scanning.Ahead, Scanning.Within, Scanning.Forward, KeyOrdered;
    var s := Moment(g, w, es).s;
    ScanAccounted(g, w, es, k);
    ScanTruthful(g, w, es);
    ScanOrdered(g, w, es);
    forall i, j | 0 <= i < |s.out| && 0 <= j < |s.out| && s.out[i].key == s.out[j].key ensures i == j {
      LessTrichotomy(s.out[i].key, s.out[j].key);
      LessTrichotomy(s.out[j].key, s.out[i].key);
    }
    if !Emitted(s, k) && k !in s.lost {
      forall i | 0 <= i < |s.out| ensures Less(s.out[i].key, k) {
        assert Behind(g, s, s.out[i].key);
        if Behind(g, s, k) {
          var j :| 0 <= j < |s.refs| && s.refs[j].key == k;
        } else {
          Scanning.Separated(s.cursor, s.exclusive, s.out[i].key, k);
        }
      }
    }
  }

  lemma ScanOrdered(g: Range, w: World, es: seq<Tick>)
    ensures Orderly(g, Moment(g, w, es).s)
  {
    hide Orderly;
    ScanOrderly(g, w, es);
  }

  // --- the limit -------------------------------------------------------------------------------------------

  // Never more than the limit, and at the limit the scan is over.
  ghost predicate Limited(g: Range, s: Scan) {
    0 < g.limit ==> |s.out| <= g.limit && (|s.out| == g.limit ==> s.done)
  }

  lemma TickLimited(g: Range, p: Race, e: Tick)
    requires Limited(g, p.s)
    ensures Limited(g, Ticked(g, p, e).s)
  {
    hide ReadValue, Decodable, Runs.Next, Scanning.Covers;
  }

  lemma {:induction false} ScanLimited(g: Range, w: World, es: seq<Tick>)
    ensures Limited(g, Moment(g, w, es).s)
    decreases |es|
  {
    hide Ticked;
    if es != [] {
      ScanLimited(g, w, es[..|es| - 1]);
      TickLimited(g, Moment(g, w, es[..|es| - 1]), es[|es| - 1]);
    }
  }

  // --- when a key can be lost ------------------------------------------------------------------------------

  // How often a merge unlinked its files.
  ghost function Unlinks(g: Range, w: World, es: seq<Tick>): nat {
    if es == [] then 0
    else
      var init := es[..|es| - 1];
      Unlinks(g, w, init) + if es[|es| - 1] == Lead(Drop) && Enabled(Moment(g, w, init).w, Drop) then 1 else 0
  }

  // Until a file is unlinked nothing is stale. Until a second one is, a second look finds it.
  ghost predicate Sure(g: Range, w: World, es: seq<Tick>) {
    var p := Moment(g, w, es);
    && (Unlinks(g, w, es) == 0 ==>
          && !p.s.stale && p.s.again.None?
          && forall j :: 0 <= j < |p.s.refs| ==> Lasting(p.w.db, p.s.refs[j].e.file))
    && (Unlinks(g, w, es) <= 1 ==> p.s.lost == {} && (p.s.again.Some? ==> Lasting(p.w.db, p.s.again.value.file)))
  }

  lemma SureLead(g: Range, p: Race, a: Action, id: nat)
    requires Phys(p.w) && Lasting(p.w.db, id) && !(a == Drop && Enabled(p.w, Drop))
    ensures Lasting(Ticked(g, p, Lead(a)).w.db, id)
  {
    hide Phys, Lasting, Ready;
    if a != Drop && !a.Reboot? {
      hide Runs.Next;
      NextLasting(p.w, a, id);
    }
  }

  lemma SureStep(g: Range, w: World, es: seq<Tick>, e: Tick)
    requires Phys(Moment(g, w, es).w) && Sure(g, w, es)
    ensures Sure(g, w, es + [e])
  {
    hide Phys, Moment, Looked, Decodable, Runs.Next, Lasting, Ready;
    var p := Moment(g, w, es);
    assert (es + [e])[..|es|] == es;
    AfterOne(g, w, es, e);
    match e
    case Lead(a) =>
      if !(a == Drop && Enabled(p.w, Drop)) {
        forall id | Lasting(p.w.db, id) ensures Lasting(Ticked(g, p, e).w.db, id) {
          SureLead(g, p, a, id);
        }
      }
    case Look(refs, cursor, exclusive, atEnd) => SureLook(g, p, refs, cursor, exclusive, atEnd);
    case Resolve =>
      if p.s.refs != [] && p.s.refs[0].key in p.w.db.index {
        IndexedLasting(p.w, p.s.refs[0].key);
      }
    case _ => SureRead(p);
  }

  lemma SureLook(g: Range, p: Race, refs: seq<Item>, cursor: Bytes, exclusive: bool, atEnd: bool)
    requires Phys(p.w)
    ensures var t := Looked(g, p, refs, cursor, exclusive, atEnd);
            t == p.s || (t.lost == p.s.lost && !t.stale && t.again.None?
                         && forall j :: 0 <= j < |t.refs| ==> Lasting(p.w.db, t.refs[j].e.file))
  {
    hide Phys, Lasting, Scanning.Whole, Scanning.Exhausted, Scanning.Forward, Scanning.Ahead, Scanning.Within,
         KeyOrdered;
    if Looked(g, p, refs, cursor, exclusive, atEnd) != p.s {
      forall j | 0 <= j < |refs| ensures Lasting(p.w.db, refs[j].e.file) {
        assert refs[j] in refs;
        IndexedLasting(p.w, refs[j].key);
      }
    }
  }

  lemma SureRead(p: Race)
    ensures Decodable(p.w.db.files) ==> forall e: Entry :: Lasting(p.w.db, e.file) ==> !ReadValue(p.w.db.files, e).Gone?
  {
    hide Decodable, Decode;
  }

  lemma {:induction false} SureAlways(g: Range, w: World, es: seq<Tick>)
    requires Phys(w)
    ensures Sure(g, w, es) && Phys(Moment(g, w, es).w)
    decreases |es|
  {
    hide Phys, Ticked, Ready;
    if es != [] {
      hide Sure;
      var init, e := es[..|es| - 1], es[|es| - 1];
      SureAlways(g, w, init);
      assert es == init + [e];
      SureStep(g, w, init, e);
      AfterOne(g, w, init, e);
      StepPersists(g, Moment(g, w, init), e);
    }
  }

  // --- exactly when ---------------------------------------------------------------------------------------

  // At the second read of k its second locator's file is gone, too.
  ghost predicate Overtaken(g: Range, w: World, es: seq<Tick>, k: Bytes, i: nat) {
    && i < |es| && es[i] == Retry
    && var p := Moment(g, w, es[..i]);
    && !p.s.done && p.s.refs != [] && p.s.refs[0].key == k
    && p.s.again.Some? && p.s.again.value.file !in p.w.db.files
  }

  // The same, for the next event.
  ghost predicate Overtakes(p: Race, e: Tick, k: Bytes) {
    && e == Retry && !p.s.done && p.s.refs != [] && p.s.refs[0].key == k
    && p.s.again.Some? && p.s.again.value.file !in p.w.db.files
  }

  lemma LostStep(g: Range, p: Race, e: Tick, k: Bytes)
    requires Phys(p.w)
    ensures k in Ticked(g, p, e).s.lost <==> k in p.s.lost || Overtakes(p, e, k)
  {
    hide Phys, Runs.Next, ReadValue, Decodable, Scanning.Covers;
    if e.Retry? && p.s.again.Some? {
      ReadGoneIff(p.w, p.s.again.value);
    }
  }

  lemma {:induction false} LostIff(g: Range, w: World, es: seq<Tick>, k: Bytes)
    requires Phys(w)
    ensures k in Moment(g, w, es).s.lost <==> exists i: nat :: Overtaken(g, w, es, k, i)
    decreases |es|
  {
    hide Phys, Ticked, Overtaken;
    if es == [] {
      NotYet(g, w, k);
    } else {
      var init, e := es[..|es| - 1], es[|es| - 1];
      var p := Moment(g, w, init);
      LostIff(g, w, init, k);
      SureAlways(g, w, init);
      LostStep(g, p, e, k);
      OvertakenNow(g, w, es, k);
      forall i: nat | i < |init| ensures Overtaken(g, w, es, k, i) <==> Overtaken(g, w, init, k, i) {
        OvertakenEarlier(g, w, es, k, i);
      }
      forall i: nat | Overtaken(g, w, init, k, i) ensures i < |init| {
        OvertakenWhen(g, w, init, k, i);
      }
      forall i: nat | Overtaken(g, w, es, k, i) ensures i <= |init| {
        OvertakenWhen(g, w, es, k, i);
      }
    }
  }

  lemma NotYet(g: Range, w: World, k: Bytes)
    ensures forall i: nat :: !Overtaken(g, w, [], k, i)
  {
  }

  lemma OvertakenWhen(g: Range, w: World, es: seq<Tick>, k: Bytes, i: nat)
    requires Overtaken(g, w, es, k, i)
    ensures i < |es|
  {
  }

  lemma OvertakenNow(g: Range, w: World, es: seq<Tick>, k: Bytes)
    requires es != []
    ensures Overtaken(g, w, es, k, |es| - 1) <==> Overtakes(Moment(g, w, es[..|es| - 1]), es[|es| - 1], k)
  {
    hide Moment;
  }

  lemma OvertakenEarlier(g: Range, w: World, es: seq<Tick>, k: Bytes, i: nat)
    requires i + 1 < |es|
    ensures Overtaken(g, w, es, k, i) <==> Overtaken(g, w, es[..|es| - 1], k, i)
  {
    hide Moment;
    assert es[..|es| - 1][..i] == es[..i];
  }

  // A lost key is behind the cursor, below every waiting reference, and never emitted.
  ghost predicate Barred(g: Range, s: Scan) {
    forall k :: k in s.lost ==> BarredKey(g, s, k)
  }

  ghost predicate BarredKey(g: Range, s: Scan, k: Bytes) {
    && Behind(g, s, k) && (forall j :: 0 <= j < |s.refs| ==> Less(k, s.refs[j].key))
    && (forall i :: 0 <= i < |s.out| ==> s.out[i].key != k)
  }

  lemma DealtBarred(g: Range, s: Scan, more: seq<Row>)
    requires Orderly(g, s) && Barred(g, s) && s.refs != []
    requires more == [] || (|more| == 1 && more[0].key == s.refs[0].key)
    ensures Barred(g, Dealt(g, s, more))
    ensures Barred(g, Dealt(g, s, []).(lost := s.lost + {s.refs[0].key}))
  {
    hide Less, Scanning.Ahead, Scanning.Within, Scanning.Forward;
    var t, u, k0 := Dealt(g, s, more), Dealt(g, s, []).(lost := s.lost + {s.refs[0].key}), s.refs[0].key;
    forall k | k in s.lost ensures BarredKey(g, t, k) && BarredKey(g, u, k) {
      assert BarredKey(g, s, k);
      LessTrichotomy(k, k0);
    }
    forall i | 0 <= i < |s.out| ensures s.out[i].key != k0 {
      LessTrichotomy(s.out[i].key, k0);
    }
  }

  lemma LookedBarred(g: Range, p: Race, refs: seq<Item>, cursor: Bytes, exclusive: bool, atEnd: bool)
    requires Barred(g, p.s)
    ensures Barred(g, Looked(g, p, refs, cursor, exclusive, atEnd))
  {
    hide Less, Scanning.Ahead, Scanning.Within, Scanning.Whole, Scanning.Exhausted, KeyOrdered;
    var s, t := p.s, Looked(g, p, refs, cursor, exclusive, atEnd);
    if t != s {
      forall k | k in s.lost ensures BarredKey(g, t, k) {
        assert BarredKey(g, s, k);
        forall j | 0 <= j < |refs| ensures Less(k, refs[j].key) {
          assert refs[j] in refs;
          Scanning.Separated(s.cursor, s.exclusive, k, refs[j].key);
        }
      }
    }
  }

  lemma BarredSame(g: Range, s: Scan, t: Scan)
    requires Barred(g, s) && t.cursor == s.cursor && t.exclusive == s.exclusive && t.refs == s.refs && t.out == s.out
    requires t.lost == s.lost
    ensures Barred(g, t)
  {
    hide Less, Scanning.Ahead, Scanning.Within;
    forall k | k in t.lost ensures BarredKey(g, t, k) {
      assert BarredKey(g, s, k);
    }
  }

  lemma TickBarred(g: Range, p: Race, e: Tick)
    requires Orderly(g, p.s) && Barred(g, p.s)
    ensures Barred(g, Ticked(g, p, e).s)
  {
    hide Orderly, Barred, Looked, ReadValue, Decodable, Runs.Next, Dealt;
    var s := p.s;
    match e
    case Look(refs, cursor, exclusive, atEnd) => LookedBarred(g, p, refs, cursor, exclusive, atEnd);
    case Lead(_) =>
    case _ =>
      if s.refs != [] {
        DealtBarred(g, s, []);
        forall v ensures Barred(g, Dealt(g, s, [Row(s.refs[0].key, v)])) {
          DealtBarred(g, s, [Row(s.refs[0].key, v)]);
        }
        BarredSame(g, s, s.(stale := true));
        BarredSame(g, s, s.(done := true, failed := true));
        forall o ensures Barred(g, s.(stale := false, again := o)) {
          BarredSame(g, s, s.(stale := false, again := o));
        }
      }
  }

  lemma {:induction false} ScanBarred(g: Range, w: World, es: seq<Tick>)
    ensures Barred(g, Moment(g, w, es).s)
    decreases |es|
  {
    hide Orderly, Ticked, BarredKey;
    if es != [] {
      hide Barred;
      var init := es[..|es| - 1];
      ScanBarred(g, w, init);
      ScanOrdered(g, w, init);
      TickBarred(g, Moment(g, w, init), es[|es| - 1]);
    }
  }

  // Keys the limit kept the scan from reaching.
  ghost predicate Beyond(g: Range, s: Scan, k: Bytes) {
    Full(g, s) && forall i :: 0 <= i < |s.out| ==> Less(s.out[i].key, k)
  }

  // A finished scan has emitted a key that was live throughout if and only if it was not overtaken
  // twice at that key and the limit did not stop it before.
  lemma ScanIff(g: Range, w: World, es: seq<Tick>, k: Bytes)
    requires Phys(w) && Asked(g, k) && LiveThroughout(g, w, es, k) && Moment(g, w, es).s.done
    ensures var s := Moment(g, w, es).s;
            Emitted(s, k) <==> !Beyond(g, s, k) && !exists i: nat :: Overtaken(g, w, es, k, i)
  {
    hide Phys, Moment, Asked, LiveThroughout, Overtaken, Less, Scanning.Ahead, Scanning.Within;
    var s := Moment(g, w, es).s;
    ScanComplete(g, w, es, k);
    ScanBarred(g, w, es);
    LostIff(g, w, es, k);
    LessTrichotomy(k, k);
    assert k in s.lost ==> BarredKey(g, s, k);
  }

  // While at most one merge unlinks its files, no scan is overtaken twice, however many merges start
  // or give up.
  lemma OneUnlink(g: Range, w: World, es: seq<Tick>, k: Bytes, i: nat)
    requires Phys(w) && Unlinks(g, w, es) <= 1
    ensures !Overtaken(g, w, es, k, i)
  {
    hide Phys, Moment, Overtaken, Unlinks, Lasting;
    SureAlways(g, w, es);
    LostIff(g, w, es, k);
  }
}
