/** Snapshots: one record per key, sent while the leader keeps writing and merging, and the queue
    that is drained behind them. */
module Snapshots {
  import opened Bytes
  import opened Records
  import opened Log
  import opened Engine
  import opened Invariant
  import opened Writing
  import opened Runs
  import opened Reads
  import opened LogReplay
  import opened Versions
  import opened Following
  import opened LogWalk
  import Scanning

  // The leader's side of a snapshot in progress. The first reference may have been found stale, and
  // been looked up again some times; after the last time its key is skipped.
  datatype Snap = Snap(cursor: Bytes, exclusive: bool, refs: seq<Item>, stale: bool, tries: nat,
                       shipped: seq<Record>, skipped: set<Bytes>, done: bool)

  const FRESH := Snap([], false, [], false, 0, [], {}, false)

  const TRIES: nat := 3

  ghost predicate Passed(s: Snap, k: Bytes) { s.done || !Scanning.Ahead(s.cursor, s.exclusive, k) }

  datatype Event =
    | Lead(a: Action)                                         // the leader takes a step
    | Look(refs: seq<Item>, cursor: Bytes, exclusive: bool)   // the next chunk of references
    | Ship                                                    // reads the first of them
    | Again                                                   // looks its key up again

  datatype Pair = Pair(w: World, s: Snap)

  // The first reference is dealt with.
  function Dealt(s: Snap, more: seq<Record>): Snap
    requires s.refs != []
  {
    s.(refs := s.refs[1..], stale := false, tries := 0, shipped := s.shipped + more)
  }

  function Shipped(db: Db, s: Snap): Snap {
    if s.refs == [] || s.stale then s
    else
      match Deref(db.files, s.refs[0].e)
      case Some(r) => Dealt(s, [Lifted(r)])
      case None => s.(stale := true)
  }

  function Retried(db: Db, s: Snap): Snap {
    if s.refs == [] || !s.stale then s
    else
      var k := s.refs[0].key;
      if k !in db.index then Dealt(s, [])
      else if s.tries + 1 >= TRIES then Dealt(s, []).(skipped := s.skipped + {k})
      else s.(refs := [Item(k, db.index[k])] + s.refs[1..], stale := false, tries := s.tries + 1)
  }

  // Leader steps, chunks, reads and lookups interleave freely.
  ghost function Happen(p: Pair, e: Event): Pair {
    match e
    case Lead(a) => if a.Reboot? then p else p.(w := Runs.Next(p.w, a))
    case Look(refs, cursor, exclusive) =>
      if p.s.done || p.s.refs != []
         || !Scanning.Covers(p.w.db.index, p.s.cursor, p.s.exclusive, [], refs, cursor, exclusive, false) then p
      else p.(s := p.s.(cursor := cursor, exclusive := exclusive, refs := refs,
                        done := cursor == p.s.cursor && exclusive == p.s.exclusive))
    case Ship => p.(s := Shipped(p.w.db, p.s))
    case Again => p.(s := Retried(p.w.db, p.s))
  }

  ghost function Events(p: Pair, es: seq<Event>): Pair {
    if es == [] then p else Happen(Events(p, es[..|es| - 1]), es[|es| - 1])
  }

  // --- its invariant --------------------------------------------------------------------------------

  // Not older than anything the history held for that key when the queue was attached.
  ghost predicate Fresh(h: seq<Record>, a: nat, k: Bytes, sn: nat) {
    forall j :: 0 <= j < a && j < |h| && h[j].key == k ==> j < sn
  }

  ghost predicate Drawn(h: seq<Record>, a: nat, r: Record) {
    0 < r.sn <= |h| && r == Lifted(h[r.sn - 1]) && Fresh(h, a, r.key, r.sn)
  }

  ghost predicate Leads(db: Db, h: seq<Record>, e: Entry) {
    && 0 < e.sn <= |h| && e.file < db.nextID
    && (e.file in db.files ==> Deref(db.files, e).Some? && Lifted(Deref(db.files, e).value) == Lifted(h[e.sn - 1]))
  }

  ghost predicate Pending(db: Db, h: seq<Record>, a: nat, it: Item) {
    Leads(db, h, it.e) && h[it.e.sn - 1].key == it.key && Fresh(h, a, it.key, it.e.sn)
  }

  // Key k was last written before the queue was attached, by a put, as record i.
  ghost predicate Resting(h: seq<Record>, a: nat, k: Bytes, i: nat) {
    i < a <= |h| && h[i].key == k && !Tomb(h[i]) && forall j :: i < j < |h| ==> h[j].key != k
  }

  ghost predicate OnItsWay(s: Snap, h: seq<Record>, k: Bytes, i: nat) {
    i < |h| && (Lifted(h[i]) in s.shipped || exists it :: it in s.refs && it.key == k && it.e.sn == i + 1)
  }

  ghost predicate Complete(s: Snap, h: seq<Record>, a: nat) {
    forall k, i :: Passed(s, k) && Resting(h, a, k, i) ==> k in s.skipped || OnItsWay(s, h, k, i)
  }

  ghost predicate Snapping(p: Pair, a: nat) {
    var h := History(p.w);
    && a <= |h| && Inv(p.w) && Known(p.w)
    && (forall r :: r in p.s.shipped ==> Drawn(h, a, r))
    && (forall it :: it in p.s.refs ==> Pending(p.w.db, h, a, it))
    && Complete(p.s, h, a) && (p.s.refs == [] ==> !p.s.stale && p.s.tries == 0)
  }

  // An indexed key, seen from the history.
  lemma IndexedInHistory(w: World, k: Bytes)
    requires Inv(w) && Known(w) && k in w.db.index
    ensures var h, e := History(w), w.db.index[k];
            && Leads(w.db, h, e) && e.file in w.db.files && h[e.sn - 1].key == k
            && forall j :: 0 <= j < |h| && h[j].key == k ==> j < e.sn
  {
    hide Phys, Denotes, Sound, Logged, Flat, Lifted, At, Tomb;
    PhysParts(w);
    IndexPoints(w.db, w.ledger, k);
    var h, e := History(w), w.db.index[k];
    var r := Deref(w.db.files, e).value;
    HeldNumber(w.db, w.ledger, e.file, r);
    assert RecordedAt(w.ledger, e.sn - 1 + 1, h[e.sn - 1]);
    LiftedKey(r);
    LiftedKey(h[e.sn - 1]);
    BelowNextID(w.db, w.ledger);
    LoggedCounted(w);
  }

  lemma LiftedKey(r: Record)
    ensures Lifted(r).key == r.key && Lifted(r).sn == r.sn && VersionOf(Lifted(r)) == VersionOf(r)
    ensures Lifted(Lifted(r)) == Lifted(r)
  {
  }

  // A key at rest is live in the index, at that very record.
  lemma RestingIndexed(w: World, a: nat, k: Bytes, i: nat)
    requires Inv(w) && Known(w) && Resting(History(w), a, k, i)
    ensures k in w.db.index && !w.db.index[k].tomb && w.db.index[k].sn == i + 1
  {
    hide Phys, Denotes, Logged, Flat, Tomb, Recorded, Fold, ReceiveAll;
    var h := History(w);
    LoggedCounted(w);
    InvDenotes(w);
    SummaryLast(h, k, i);
    ReceiveAscending(map[], h);
    assert LiveOf(map[]) == map[];
    assert k in LiveOf(Summary(h));
    assert k in View(w.db.index, w.ledger);
    IndexedInHistory(w, k);
  }

  // --- every event keeps it ----------------------------------------------------------------------

  lemma DrawnGrows(h: seq<Record>, g: seq<Record>, a: nat, r: Record)
    requires h <= g && a <= |h| && Drawn(h, a, r)
    ensures Drawn(g, a, r)
  {
    hide Lifted;
  }

  lemma PendingGrows(db: Db, d: Db, h: seq<Record>, g: seq<Record>, a: nat, it: Item)
    requires h <= g && a <= |h| && Persists(db, d) && Pending(db, h, a, it)
    ensures Pending(d, g, a, it)
  {
    hide Lifted, At;
    if it.e.file in d.files {
      assert it.e.file in db.files;
      var x, y := db.files[it.e.file].recs, d.files[it.e.file].recs;
      assert y == x + y[|x|..];
      AtAppend(x, y[|x|..], it.e.pos);
    }
  }

  lemma CompleteGrows(s: Snap, h: seq<Record>, g: seq<Record>, a: nat)
    requires h <= g && a <= |h| && Complete(s, h, a)
    ensures Complete(s, g, a)
  {
    hide Lifted, Tomb, Passed;
    forall k, i | Passed(s, k) && Resting(g, a, k, i) ensures k in s.skipped || OnItsWay(s, g, k, i) {
      assert Resting(h, a, k, i);
      assert k in s.skipped || OnItsWay(s, h, k, i);
    }
  }

  lemma LeadKeeps(p: Pair, a: nat, act: Action)
    requires Snapping(p, a) && !act.Reboot?
    ensures Snapping(p.(w := Runs.Next(p.w, act)), a)
  {
    hide Phys, Denotes, Known, Runs.Next, Flat, Drawn, Pending, Complete, Persists;
    var w, x := p.w, Runs.Next(p.w, act);
    NextHistory(w, act);
    NextPersists(w, act);
    NextInv(w, act);
    NextKnown(w, act);
    forall r | r in p.s.shipped ensures Drawn(History(x), a, r) {
      DrawnGrows(History(w), History(x), a, r);
    }
    forall it | it in p.s.refs ensures Pending(x.db, History(x), a, it) {
      PendingGrows(w.db, x.db, History(w), History(x), a, it);
    }
    CompleteGrows(p.s, History(w), History(x), a);
  }

  // A chunk: its references are pending, and every key at rest that it passes is among them.
  lemma LookComplete(p: Pair, a: nat, refs: seq<Item>, cursor: Bytes, exclusive: bool)
    requires Snapping(p, a) && !p.s.done && p.s.refs == []
    requires Scanning.Covers(p.w.db.index, p.s.cursor, p.s.exclusive, [], refs, cursor, exclusive, false)
    ensures Complete(Happen(p, Look(refs, cursor, exclusive)).s, History(p.w), a)
  {
    hide Phys, Denotes, Known, Flat, Drawn, Pending, Resting, Scanning.Ahead, Scanning.Forward, Lifted, Scanning.Sent;
    var h, s := History(p.w), Happen(p, Look(refs, cursor, exclusive)).s;
    forall k, i | Passed(s, k) && Resting(h, a, k, i) ensures k in s.skipped || OnItsWay(s, h, k, i) {
      RestingIndexed(p.w, a, k, i);
      RestingBelow(h, a, k, i);
      if Scanning.Ahead(p.s.cursor, p.s.exclusive, k) {
        assert Item(k, p.w.db.index[k]) in refs;
      } else {
        assert Passed(p.s, k);
        assert k in p.s.skipped || OnItsWay(p.s, h, k, i);
      }
    }
  }

  lemma RestingBelow(h: seq<Record>, a: nat, k: Bytes, i: nat)
    requires Resting(h, a, k, i)
    ensures i < |h|
  {
  }

  lemma LookKeeps(p: Pair, a: nat, refs: seq<Item>, cursor: Bytes, exclusive: bool)
    requires Snapping(p, a)
    ensures Snapping(Happen(p, Look(refs, cursor, exclusive)), a)
  {
    hide Phys, Denotes, Known, Flat, Drawn, Complete, Scanning.Ahead, Scanning.Forward, Scanning.Whole,
         Scanning.Exhausted, Lifted, Leads, KeyOrdered;
    var q := Happen(p, Look(refs, cursor, exclusive));
    if q != p {
      LookComplete(p, a, refs, cursor, exclusive);
      forall it | it in refs ensures Pending(p.w.db, History(p.w), a, it) {
        IndexedInHistory(p.w, it.key);
      }
    }
  }

  // What a reference leads to, if its file is still there.
  lemma ReferenceDrawn(p: Pair, a: nat, it: Item)
    requires Snapping(p, a) && it in p.s.refs
    ensures var o, h := Deref(p.w.db.files, it.e), History(p.w);
            && 0 < it.e.sn <= |h| && h[it.e.sn - 1].key == it.key
            && (o.Some? ==> Drawn(h, a, Lifted(o.value)) && Lifted(o.value) == Lifted(h[it.e.sn - 1]))
            && (o.None? <==> it.e.file !in p.w.db.files)
  {
    hide Phys, Denotes, Known, Flat, Complete, Lifted, At;
    assert Pending(p.w.db, History(p.w), a, it);
    LiftedNumber(History(p.w));
    KnownCounted(p.w);
  }

  // The same, looked up again.
  lemma RenewedPending(p: Pair, a: nat, k: Bytes)
    requires Snapping(p, a) && k in p.w.db.index
    ensures Pending(p.w.db, History(p.w), a, Item(k, p.w.db.index[k]))
  {
    hide Phys, Denotes, Known, Flat, Complete, Lifted, Leads, Drawn;
    IndexedInHistory(p.w, k);
  }

  lemma ShipComplete(p: Pair, a: nat)
    requires Snapping(p, a)
    ensures Complete(Shipped(p.w.db, p.s), History(p.w), a)
  {
    hide Phys, Denotes, Known, Flat, Drawn, Pending, Resting, Passed, Lifted, At;
    var h, s := History(p.w), Shipped(p.w.db, p.s);
    if p.s.refs != [] && !p.s.stale {
      var it := p.s.refs[0];
      ReferenceDrawn(p, a, it);
      forall k, i: nat | Passed(s, k) && Resting(h, a, k, i) ensures k in s.skipped || OnItsWay(s, h, k, i) {
        StillPassed(p.s, s, k);
        if k !in s.skipped {
          assert OnItsWay(p.s, h, k, i);
          StillOnItsWay(p.s, s, h, k, i);
        }
      }
    }
  }

  // The first reference is shipped, or gives way to one of the same version; the others stay.
  lemma StillOnItsWay(s: Snap, t: Snap, h: seq<Record>, k: Bytes, i: nat)
    requires OnItsWay(s, h, k, i) && s.refs != [] && (forall r :: r in s.shipped ==> r in t.shipped)
    requires forall it :: it in s.refs[1..] ==> it in t.refs
    requires s.refs[0].key == k && s.refs[0].e.sn == i + 1 ==> OnItsWay(t, h, k, i)
    ensures OnItsWay(t, h, k, i)
  {
    hide Lifted;
    if Lifted(h[i]) !in s.shipped {
      var it :| it in s.refs && it.key == k && it.e.sn == i + 1;
      assert it == s.refs[0] || it in s.refs[1..];
    }
  }

  lemma AgainComplete(p: Pair, a: nat)
    requires Snapping(p, a)
    ensures Complete(Retried(p.w.db, p.s), History(p.w), a)
  {
    hide Phys, Denotes, Known, Flat, Drawn, Pending, Resting, Passed, Lifted;
    var h, s := History(p.w), Retried(p.w.db, p.s);
    if p.s.refs != [] && p.s.stale {
      forall k, i: nat | Passed(s, k) && Resting(h, a, k, i) ensures k in s.skipped || OnItsWay(s, h, k, i) {
        StillPassed(p.s, s, k);
        RestingIndexed(p.w, a, k, i);
        RestingBelow(h, a, k, i);
        if k !in s.skipped {
          assert OnItsWay(p.s, h, k, i);
          if p.s.refs[0].key == k {
            assert Item(k, p.w.db.index[k]) in s.refs;
          }
          StillOnItsWay(p.s, s, h, k, i);
        }
      }
    }
  }

  lemma StillPassed(s: Snap, t: Snap, k: Bytes)
    requires s.cursor == t.cursor && s.exclusive == t.exclusive && s.done == t.done
    ensures Passed(s, k) == Passed(t, k)
  {
  }

  lemma ShipKeeps(p: Pair, a: nat)
    requires Snapping(p, a)
    ensures Snapping(Happen(p, Ship), a)
  {
    hide Phys, Denotes, Known, Flat, Drawn, Pending, Complete, Lifted, At;
    ShipComplete(p, a);
    if p.s.refs != [] {
      ReferenceDrawn(p, a, p.s.refs[0]);
    }
  }

  lemma AgainKeeps(p: Pair, a: nat)
    requires Snapping(p, a)
    ensures Snapping(Happen(p, Again), a)
  {
    hide Phys, Denotes, Known, Flat, Drawn, Pending, Complete;
    AgainComplete(p, a);
    if p.s.refs != [] && p.s.refs[0].key in p.w.db.index {
      RenewedPending(p, a, p.s.refs[0].key);
    }
  }

  lemma HappenKeeps(p: Pair, a: nat, e: Event)
    requires Snapping(p, a)
    ensures Snapping(Happen(p, e), a)
  {
    hide Snapping, Runs.Next, Scanning.Covers, Shipped, Retried;
    match e
    case Lead(act) => if !act.Reboot? { LeadKeeps(p, a, act); }
    case Look(refs, cursor, exclusive) => LookKeeps(p, a, refs, cursor, exclusive);
    case Ship => ShipKeeps(p, a);
    case Again => AgainKeeps(p, a);
  }

  lemma {:induction false} EventsKeep(p: Pair, a: nat, es: seq<Event>)
    requires Snapping(p, a)
    ensures Snapping(Events(p, es), a)
    decreases |es|
  {
    hide Snapping, Happen;
    if es != [] {
      EventsKeep(p, a, es[..|es| - 1]);
      HappenKeeps(Events(p, es[..|es| - 1]), a, es[|es| - 1]);
    }
  }

  lemma AttachSnaps(w: World)
    requires Inv(w) && Known(w)
    ensures Snapping(Pair(w, FRESH), |History(w)|)
  {
    hide Phys, Denotes, Known, Flat, Resting;
    forall k ensures Scanning.Ahead([], false, k) {
    }
  }

  lemma LiftedNumber(h: seq<Record>)
    ensures forall i :: 0 <= i < |h| ==> Lifted(h[i]).sn == h[i].sn && Lifted(h[i]).key == h[i].key
  {
  }

  lemma KnownCounted(w: World)
    requires Known(w)
    ensures Counted(History(w), |History(w)|)
  {
    hide Logged;
    LoggedCounted(w);
  }

  // --- what a snapshot session delivers ------------------------------------------------------------------

  // A follower that reset itself is sent the snapshot and, once it is complete, the queue.
  ghost function Arrived(p: Pair, a: nat): seq<Record> {
    p.s.shipped + if Done(p) then From(History(p.w), a) else []
  }

  ghost predicate Done(p: Pair) { p.s.done && p.s.refs == [] }

  function From<T>(s: seq<T>, a: nat): seq<T> { if a <= |s| then s[a..] else [] }

  function Upto<T>(s: seq<T>, n: nat): (r: seq<T>)
    ensures r <= s && |r| == if n < |s| then n else |s|
  {
    if n <= |s| then s[..n] else s
  }

  lemma SnapParts(p: Pair, a: nat)
    requires Snapping(p, a)
    ensures a <= |History(p.w)| && Counted(History(p.w), |History(p.w)|) && Inv(p.w) && Known(p.w)
  {
    hide Phys, Denotes, Known, Flat, Complete, Pending, Drawn;
    KnownCounted(p.w);
  }

  // Every arrival is a version the leader wrote, and none is older than what the leader held
  // for its key when the queue was attached.
  lemma ArrivedGenuine(p: Pair, a: nat, c: nat)
    requires Snapping(p, a) && c < |Arrived(p, a)|
    ensures var r := Arrived(p, a)[c]; Echoes(r, History(p.w)) && Fresh(History(p.w), a, r.key, r.sn)
  {
    hide Phys, Denotes, Known, Flat, Complete, Pending, Lifted;
    var h, r := History(p.w), Arrived(p, a)[c];
    KnownCounted(p.w);
    if c < |p.s.shipped| {
      assert r == p.s.shipped[c];
      assert Drawn(h, a, r);
      LiftedKey(h[r.sn - 1]);
    } else {
      assert r == h[a + c - |p.s.shipped|];
    }
  }

  lemma ArrivedEcho(p: Pair, a: nat, cut: nat)
    requires Snapping(p, a)
    ensures AllEcho(Upto(Arrived(p, a), cut), History(p.w))
  {
    hide Snapping, Arrived, Echoes;
    var rs := Upto(Arrived(p, a), cut);
    forall c | 0 <= c < |rs| ensures Echoes(rs[c], History(p.w)) {
      ArrivedGenuine(p, a, c);
    }
  }

  // A key that was skipped, live, and not written since the queue was attached.
  ghost predicate Missed(p: Pair, a: nat, k: Bytes) {
    k in p.s.skipped && exists i: nat :: Resting(History(p.w), a, k, i)
  }

  // A key whose last record is a put has arrived.
  lemma PutArrived(p: Pair, a: nat, k: Bytes, i: nat) returns (c: nat)
    requires Snapping(p, a) && Done(p) && Last(History(p.w), k, i) && !Tomb(History(p.w)[i]) && !Missed(p, a, k)
    ensures c < |Arrived(p, a)| && Arrived(p, a)[c].sn == i + 1
  {
    hide Phys, Denotes, Known, Flat, Drawn, Pending, Lifted;
    var h := History(p.w);
    KnownCounted(p.w);
    if a <= i {
      c := |p.s.shipped| + (i - a);
    } else {
      assert Passed(p.s, k) && Resting(h, a, k, i);
      assert OnItsWay(p.s, h, k, i);
      LiftedKey(h[i]);
      c :| 0 <= c < |p.s.shipped| && p.s.shipped[c] == Lifted(h[i]);
    }
  }

  // A key whose last record is a deletion does not come out live, whatever is forgotten.
  lemma DeletionShows(p: Pair, a: nat, fs: seq<set<Bytes>>, k: Bytes, i: nat, x: nat, q: nat)
    requires Snapping(p, a) && Done(p) && Last(History(p.w), k, i) && Tomb(History(p.w)[i])
    ensures !EmergesAt(map[], Arrived(p, a), fs, k, x, q)
  {
    hide Snapping, History, Phys, Denotes, Known, Done, Tomb;
    SnapParts(p, a);
    var h, rs, n := History(p.w), Arrived(p, a), |p.s.shipped|;
    if x <= q < |rs| && rs[q].key == k && !Tomb(rs[q]) {
      ArrivedGenuine(p, a, q);
      EchoOlder(h, rs[q], k, i);
      assert a <= i;
      assert rs[n + (i - a)] == h[i];
      assert n <= q ==> rs[q] == h[a + q - n];
    }
  }

  lemma EchoOlder(h: seq<Record>, r: Record, k: Bytes, i: nat)
    requires Echoes(r, h) && Last(h, k, i) && r.key == k && Tomb(h[i]) && !Tomb(r)
    ensures r.sn <= i
  {
  }

  // A completed snapshot and all of its queue miss nothing but what was skipped for good.
  lemma SnapshotComplete(p: Pair, a: nat, fs: seq<set<Bytes>>, k: Bytes)
    requires Snapping(p, a) && Done(p) && !Missed(p, a, k)
    ensures !Astray(map[], Arrived(p, a), fs, History(p.w), |History(p.w)|, k)
  {
    hide Snapping, History, Arrived, Phys, Denotes, Known, Done, Tomb, Missed;
    var h, rs := History(p.w), Arrived(p, a);
    forall i: nat ensures !AstrayAt(map[], rs, fs, h, |h|, k, i) {
      if Last(h, k, i) {
        if Tomb(h[i]) {
          forall x: nat, q: nat ensures !EmergesAt(map[], rs, fs, k, x, q) {
            DeletionShows(p, a, fs, k, i, x, q);
          }
        } else {
          var c := PutArrived(p, a, k, i);
        }
      }
    }
  }

  // A completed snapshot followed by its queue leaves the follower with the newest version of
  // every live key, whatever the leader puts, deletes and merges and the follower forgets, if and
  // only if no key was skipped for good.
  lemma SnapshotConverges(p: Pair, a: nat, fs: seq<set<Bytes>>)
    requires Snapping(p, a) && Settled(p.s) && Done(p) && |Arrived(p, a)| < |fs|
    ensures Faithful(Follow(map[], Arrived(p, a), fs, |Arrived(p, a)|), History(p.w))
            <==> forall k :: !Missed(p, a, k)
  {
    hide Snapping, History, Arrived, Phys, Denotes, Known, Done, Astray, Follow, Faithful, Counted, Catchable, Missed,
         Settled;
    SnapParts(p, a);
    var h, rs := History(p.w), Arrived(p, a);
    var t := Follow(map[], rs, fs, |rs|);
    ArrivedEcho(p, a, |rs|);
    assert Upto(rs, |rs|) == rs;
    DeliveryIff(map[], h, rs, fs, |h|);
    forall k ensures Missed(p, a, k) <==> Astray(map[], rs, fs, h, |h|, k) {
      if Missed(p, a, k) {
        MissedAstray(p, a, fs, k);
      } else {
        SnapshotComplete(p, a, fs, k);
      }
    }
    if Faithful(t, h) {
      FaithfulCatchable(t, |h|, h);
    } else if Catchable(t, |h|, h) {
      CatchableDone(t, h);
    }
  }

  // --- a key that is skipped --------------------------------------------------------------------------------

  // Behind the cursor, and before every reference that waits.
  ghost predicate Behind(s: Snap, k: Bytes) {
    !Scanning.Ahead(s.cursor, s.exclusive, k) && forall j :: 0 <= j < |s.refs| ==> Less(k, s.refs[j].key)
  }

  // The walk comes to every key once: a key that was skipped is not shipped.
  ghost predicate Settled(s: Snap) {
    && KeyOrdered(s.refs) && (forall j :: 0 <= j < |s.refs| ==> !Scanning.Ahead(s.cursor, s.exclusive, s.refs[j].key))
    && (forall k :: k in s.skipped ==> Behind(s, k))
    && (forall i :: 0 <= i < |s.shipped| ==> Behind(s, s.shipped[i].key) && s.shipped[i].key !in s.skipped)
  }

  lemma DealtBehind(s: Snap, more: seq<Record>, k: Bytes)
    requires s.refs != [] && KeyOrdered(s.refs)
    requires !Scanning.Ahead(s.cursor, s.exclusive, s.refs[0].key)
    ensures Behind(s, k) ==> Behind(Dealt(s, more), k) && k != s.refs[0].key
    ensures Behind(Dealt(s, more), s.refs[0].key)
  {
    hide Scanning.Ahead, Less;
    LessTrichotomy(k, s.refs[0].key);
  }

  lemma DealtSettled(s: Snap, more: seq<Record>)
    requires Settled(s) && s.refs != [] && (more == [] || (|more| == 1 && more[0].key == s.refs[0].key))
    ensures Settled(Dealt(s, more)) && Settled(Dealt(s, []).(skipped := s.skipped + {s.refs[0].key}))
  {
    hide Behind, Scanning.Ahead, Less;
    var t, u, k0 := Dealt(s, more), Dealt(s, []).(skipped := s.skipped + {s.refs[0].key}), s.refs[0].key;
    forall k ensures (Behind(s, k) ==> Behind(t, k) && k != k0) && Behind(t, k0) {
      DealtBehind(s, more, k);
    }
    assert forall k :: Behind(t, k) == Behind(u, k) by { BehindSame(t, u); }
    assert KeyOrdered(s.refs[1..]);
    if more != [] {
      assert k0 !in s.skipped;
    }
  }

  lemma BehindSame(s: Snap, t: Snap)
    requires s.cursor == t.cursor && s.exclusive == t.exclusive && |s.refs| == |t.refs|
    requires forall j :: 0 <= j < |s.refs| ==> s.refs[j].key == t.refs[j].key
    ensures forall k :: Behind(s, k) == Behind(t, k)
  {
    hide Scanning.Ahead, Less;
  }

  lemma RenewedSettled(s: Snap, t: Snap)
    requires Settled(s) && s.cursor == t.cursor && s.exclusive == t.exclusive && |s.refs| == |t.refs|
    requires forall j :: 0 <= j < |s.refs| ==> s.refs[j].key == t.refs[j].key
    requires t.skipped == s.skipped && t.shipped == s.shipped
    ensures Settled(t)
  {
    hide Behind, Scanning.Ahead, Less;
    BehindSame(s, t);
  }

  lemma LookSettles(p: Pair, refs: seq<Item>, cursor: Bytes, exclusive: bool)
    requires Settled(p.s) && p.s.refs == []
    requires Scanning.Covers(p.w.db.index, p.s.cursor, p.s.exclusive, [], refs, cursor, exclusive, false)
    ensures Settled(p.s.(cursor := cursor, exclusive := exclusive, refs := refs))
  {
    hide Scanning.Whole, Scanning.Exhausted, Scanning.Ahead, Less;
    var s, t := p.s, p.s.(cursor := cursor, exclusive := exclusive, refs := refs);
    forall k | Behind(s, k) ensures Behind(t, k) {
      forall j | 0 <= j < |refs| ensures Less(k, refs[j].key) {
        assert refs[j] in refs;
        Scanning.Separated(s.cursor, s.exclusive, k, refs[j].key);
      }
    }
    assert forall j :: 0 <= j < |refs| ==> refs[j] in refs;
  }

  lemma HappenSettles(p: Pair, a: nat, e: Event)
    requires Snapping(p, a) && Settled(p.s)
    ensures Settled(Happen(p, e).s)
  {
    hide Snapping, Settled, Runs.Next, Scanning.Covers, Lifted, At;
    var s := p.s;
    match e
    case Lead(_) =>
    case Look(refs, cursor, exclusive) =>
      if Happen(p, e) != p {
        LookSettles(p, refs, cursor, exclusive);
        RenewedSettled(s.(cursor := cursor, exclusive := exclusive, refs := refs), Happen(p, e).s);
      }
    case Ship =>
      if s.refs != [] && !s.stale {
        ReferenceDrawn(p, a, s.refs[0]);
        LiftedNumber(History(p.w));
        var o := Deref(p.w.db.files, s.refs[0].e);
        DealtSettled(s, if o.Some? then [Lifted(o.value)] else []);
        RenewedSettled(s, s.(stale := true));
      }
    case Again =>
      if s.refs != [] && s.stale {
        DealtSettled(s, []);
        if s.refs[0].key in p.w.db.index && s.tries + 1 < TRIES {
          RenewedSettled(s, Retried(p.w.db, s));
        }
      }
  }

  lemma {:induction false} EventsSettle(p: Pair, a: nat, es: seq<Event>)
    requires Snapping(p, a) && Settled(p.s)
    ensures Settled(Events(p, es).s)
    decreases |es|
  {
    hide Snapping, Settled, Happen;
    if es != [] {
      EventsSettle(p, a, es[..|es| - 1]);
      EventsKeep(p, a, es[..|es| - 1]);
      HappenSettles(Events(p, es[..|es| - 1]), a, es[|es| - 1]);
    }
  }

  lemma FreshSettled()
    ensures Settled(FRESH)
  {
  }

  // Nothing of such a key arrives.
  lemma MissedSilent(p: Pair, a: nat, k: Bytes)
    requires Snapping(p, a) && Settled(p.s) && Missed(p, a, k)
    ensures forall c :: 0 <= c < |Arrived(p, a)| ==> Arrived(p, a)[c].key != k
  {
    hide Phys, Denotes, Known, Flat, Complete, Pending, Drawn, Behind, Tomb;
    var h := History(p.w);
    var i: nat :| Resting(h, a, k, i);
    forall c | 0 <= c < |Arrived(p, a)| ensures Arrived(p, a)[c].key != k {
      if c >= |p.s.shipped| {
        assert Arrived(p, a)[c] == h[a + c - |p.s.shipped|];
      }
    }
  }

  lemma MissedAstray(p: Pair, a: nat, fs: seq<set<Bytes>>, k: Bytes)
    requires Snapping(p, a) && Settled(p.s) && Missed(p, a, k)
    ensures Astray(map[], Arrived(p, a), fs, History(p.w), |History(p.w)|, k)
  {
    hide Snapping, Settled, Arrived, History, Tomb, Echoes;
    var h, rs := History(p.w), Arrived(p, a);
    var i: nat :| Resting(h, a, k, i);
    MissedSilent(p, a, k);
    forall c | 0 <= c < |rs| ensures rs[c].sn != i + 1 {
      ArrivedGenuine(p, a, c);
      EchoKey(rs[c], h);
    }
    assert AstrayAt(map[], rs, fs, h, |h|, k, i);
  }

  lemma EchoKey(r: Record, h: seq<Record>)
    requires Echoes(r, h)
    ensures 0 < r.sn <= |h| && r.key == h[r.sn - 1].key
  {
  }

  // --- how many merges it takes --------------------------------------------------------------------------------

  // How often a merge unlinked its files.
  ghost function Unlinks(p: Pair, es: seq<Event>): nat {
    if es == [] then 0
    else
      var init := es[..|es| - 1];
      Unlinks(p, init) + if es[|es| - 1] == Lead(Drop) && Enabled(Events(p, init).w, Drop) then 1 else 0
  }

  // A stale reference has met one unlink more than it was looked up again.
  ghost predicate Paced(db: Db, s: Snap, n: nat) {
    && s.tries <= n && (s.stale ==> s.tries < n)
    && (s.refs != [] && !s.stale ==> s.tries < n || Lasting(db, s.refs[0].e.file))
    && (forall j :: 0 < j < |s.refs| ==> 0 < n || Lasting(db, s.refs[j].e.file))
    && (s.skipped != {} ==> TRIES <= n)
  }

  lemma HappenPaced(p: Pair, a: nat, e: Event, n: nat)
    requires Snapping(p, a) && Paced(p.w.db, p.s, n)
    ensures Paced(Happen(p, e).w.db, Happen(p, e).s, n + if e == Lead(Drop) && Enabled(p.w, Drop) then 1 else 0)
  {
    hide Phys, Denotes, Known, Flat, Drawn, Pending, Complete, Lifted, At, Lasting, Runs.Next, Enabled, Scanning.Covers;
    match e
    case Lead(act) =>
      if act == Drop {
        if !Enabled(p.w, Drop) {
          Disabled(p.w, Drop);
        }
      } else if !act.Reboot? {
        forall id | Lasting(p.w.db, id) ensures Lasting(Runs.Next(p.w, act).db, id) {
          NextLasting(p.w, act, id);
        }
      }
    case Look(refs, cursor, exclusive) =>
      if Happen(p, e) != p {
        ChunkLasts(p, refs, cursor, exclusive);
      }
    case Ship =>
      if p.s.refs != [] {
        ReferenceDrawn(p, a, p.s.refs[0]);
        LastingHere(p.w.db, p.s.refs[0].e.file);
      }
    case Again =>
      if p.s.refs != [] && p.s.refs[0].key in p.w.db.index {
        IndexedLasting(p.w, p.s.refs[0].key);
      }
  }

  lemma LastingHere(db: Db, id: nat)
    ensures Lasting(db, id) ==> id in db.files
  {
  }

  lemma ChunkLasts(p: Pair, refs: seq<Item>, cursor: Bytes, exclusive: bool)
    requires Phys(p.w)
    requires Scanning.Covers(p.w.db.index, p.s.cursor, p.s.exclusive, [], refs, cursor, exclusive, false)
    ensures forall j :: 0 <= j < |refs| ==> Lasting(p.w.db, refs[j].e.file)
  {
    hide Phys, Lasting, Scanning.Whole, Scanning.Exhausted, Scanning.Forward, Scanning.Ahead, KeyOrdered;
    forall j | 0 <= j < |refs| ensures Lasting(p.w.db, refs[j].e.file) {
      assert refs[j] in refs;
      IndexedLasting(p.w, refs[j].key);
    }
  }

  lemma {:induction false} EventsPaced(w: World, es: seq<Event>)
    requires Inv(w) && Known(w)
    ensures var p := Events(Pair(w, FRESH), es); Paced(p.w.db, p.s, Unlinks(Pair(w, FRESH), es))
    decreases |es|
  {
    hide Phys, Denotes, Known, Snapping, Happen, Paced, History;
    if es == [] {
      FreshPaced(w.db);
    } else {
      var init := es[..|es| - 1];
      EventsPaced(w, init);
      AttachSnaps(w);
      EventsKeep(Pair(w, FRESH), |History(w)|, init);
      HappenPaced(Events(Pair(w, FRESH), init), |History(w)|, es[|es| - 1], Unlinks(Pair(w, FRESH), init));
    }
  }

  lemma FreshPaced(db: Db)
    ensures Paced(db, FRESH, 0)
  {
  }

  // While fewer than three merges unlink their files no key is skipped.
  lemma FewUnlinks(w: World, es: seq<Event>)
    requires Inv(w) && Known(w) && Unlinks(Pair(w, FRESH), es) < 3
    ensures Events(Pair(w, FRESH), es).s.skipped == {}
  {
    hide Phys, Denotes, Known, Events, Unlinks;
    EventsPaced(w, es);
  }
}
