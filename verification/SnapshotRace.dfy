/** A snapshot that three merges overtake. The promise that a snapshot is complete is false when a
    reference's file is unlinked before each of three reads: this module exhibits the session. */
module SnapshotRace {
  import opened Bytes
  import opened Records
  import opened Log
  import opened Engine
  import opened Invariant
  import opened Writing
  import opened Runs
  import opened LogReplay
  import opened Versions
  import opened Following
  import opened Snapshots
  import opened Replication
  import Compaction
  import ScanRace
  import Scanning

  function Steps(acts: seq<Action>): seq<Event> {
    seq(|acts|, i requires 0 <= i < |acts| => Event.Lead(acts[i]))
  }

  lemma {:induction false} EventsConcat(p: Pair, a: seq<Event>, b: seq<Event>)
    ensures Events(p, a + b) == Events(Events(p, a), b)
    decreases |b|
  {
    hide Happen;
    if b == [] {
      assert a + b == a;
    } else {
      assert (a + b)[..|a + b| - 1] == a + b[..|b| - 1];
      EventsConcat(p, a, b[..|b| - 1]);
    }
  }

  lemma {:induction false} EventsSteps(p: Pair, acts: seq<Action>)
    requires Uninterrupted(acts)
    ensures Events(p, Steps(acts)) == Pair(Run(p.w, acts), p.s)
    decreases |acts|
  {
    hide Runs.Next, Shipped, Retried, Scanning.Covers;
    if acts != [] {
      EventsSteps(p, acts[..|acts| - 1]);
      assert Steps(acts)[..|acts| - 1] == Steps(acts[..|acts| - 1]);
    }
  }

  lemma EventsTwo(p: Pair, e: Event, f: Event)
    ensures Events(p, [e]) == Happen(p, e) && Events(p, [e, f]) == Happen(Happen(p, e), f)
  {
    hide Happen;
    assert [e][..0] == [] && [e, f][..1] == [e];
  }

  lemma {:induction false} QuietHistory(w: World, acts: seq<Action>)
    requires forall i :: 0 <= i < |acts| ==> !acts[i].Put? && !acts[i].Reboot?
    ensures History(Run(w, acts)) == History(w)
    decreases |acts|
  {
    hide History, Runs.Next;
    if acts != [] {
      QuietHistory(w, acts[..|acts| - 1]);
      NextHistory(Run(w, acts[..|acts| - 1]), acts[|acts| - 1]);
    }
  }

  // The one key has been found, and its record is about to be read.
  ghost predicate AtKey(p: Pair, k: Bytes, tries: nat) {
    && Inv(p.w) && Known(p.w) && ScanRace.OnlyKey(p.w.db, k) && k in p.w.db.index
    && p.s == Snap(k, true, [Item(k, p.w.db.index[k])], false, tries, [], {}, false)
  }

  // A whole merge, a read, and a lookup.
  function Overtaking(acts: seq<Action>): seq<Event> { Steps(acts) + [Ship, Again] }

  lemma Overtaken(p: Pair, k: Bytes, tries: nat) returns (es: seq<Event>)
    requires AtKey(p, k, tries)
    ensures var q := Events(p, es);
            && History(q.w) == History(p.w) && Inv(q.w) && Known(q.w) && ScanRace.OnlyKey(q.w.db, k)
            && (if tries + 1 < TRIES then AtKey(q, k, tries + 1)
                else q.s == Snap(k, true, [], false, 0, [], {k}, false))
  {
    hide Phys, Denotes, Known, History, Run, ScanRace.OnlyKey, ScanRace.Relocation;
    ScanRace.OnlyKeyParts(p.w.db, k);
    var acts := ScanRace.Relocation(p.w, k);
    ScanRace.MergeAgain(p.w, k);
    ScanRace.MergesDoNotPut(p.w, k);
    RunKnown(p.w, acts);
    QuietHistory(p.w, acts);
    var x := Run(p.w, acts);
    ScanRace.OnlyKeyParts(x.db, k);
    es := Overtaking(acts);
    EventsConcat(p, Steps(acts), [Ship, Again]);
    EventsSteps(p, acts);
    EventsTwo(Pair(x, p.s), Ship, Again);
    Misses(x.db, p.s, k);
  }

  // The file is gone; the index has another locator.
  lemma Misses(db: Db, s: Snap, k: Bytes)
    requires |s.refs| == 1 && s.refs[0].key == k && s.refs[0].e.file !in db.files && k in db.index && !s.stale
    ensures Retried(db, Shipped(db, s))
            == if s.tries + 1 < TRIES then s.(refs := [Item(k, db.index[k])], tries := s.tries + 1)
               else s.(refs := [], tries := 0, skipped := s.skipped + {k})
  {
    assert [Item(k, db.index[k])] + s.refs[1..] == [Item(k, db.index[k])];
    assert s.refs[1..] == [] && s.shipped + [] == s.shipped;
  }

  lemma FirstLook(w: World, k: Bytes)
    requires Inv(w) && Known(w) && ScanRace.OnlyKey(w.db, k) && k in w.db.index
    ensures AtKey(Happen(Pair(w, FRESH), Look([Item(k, w.db.index[k])], k, true)), k, 0)
  {
    hide Phys, Denotes, Known, Less, Points;
    var it := Item(k, w.db.index[k]);
    LessTrichotomy(k, k);
    LessTrichotomy([], k);
    assert it in [it] && KeyOrdered([it]);
    assert w.db.index.Keys == {k};
    forall x | Less(k, x) ensures Scanning.Ahead([], false, x) {
      LessTrichotomy([], x);
      NothingBelow(x);
    }
    NothingBelow(k);
  }

  lemma NothingBelow(k: Bytes)
    ensures !Less(k, [])
  {
  }

  lemma LastLook(p: Pair, k: Bytes)
    requires ScanRace.OnlyKey(p.w.db, k) && p.s == Snap(k, true, [], false, 0, [], {k}, false)
    ensures Happen(p, Look([], k, true)) == p.(s := p.s.(done := true))
  {
    hide Less, Points;
    LessTrichotomy(k, k);
    assert KeyOrdered([]);
    assert p.w.db.index.Keys == {k};
  }

  // The snapshot comes to its end without the key.
  lemma Skipped(w: World, k: Bytes) returns (es: seq<Event>)
    requires Inv(w) && Known(w) && ScanRace.OnlyKey(w.db, k)
    ensures var p := Events(Pair(w, FRESH), es);
            && History(p.w) == History(w) && Inv(p.w) && Known(p.w) && ScanRace.OnlyKey(p.w.db, k)
            && p.s == Snap(k, true, [], false, 0, [], {k}, true)
  {
    hide Phys, Denotes, Known, History, Happen, ScanRace.OnlyKey, Events;
    ScanRace.OnlyKeyParts(w.db, k);
    var p, look := Pair(w, FRESH), Event.Look([Item(k, w.db.index[k])], k, true);
    FirstLook(w, k);
    Stays(p, look);
    EventsTwo(p, look, look);
    var a := Events(p, [look]);
    var one := Overtaken(a, k, 0);
    var b := Events(a, one);
    var two := Overtaken(b, k, 1);
    var c := Events(b, two);
    var three := Overtaken(c, k, 2);
    var d := Events(c, three);
    var last := Event.Look([], k, true);
    LastLook(d, k);
    EventsTwo(d, last, last);
    es := [look] + (one + (two + (three + [last])));
    EventsConcat(p, [look], one + (two + (three + [last])));
    EventsConcat(a, one, two + (three + [last]));
    EventsConcat(b, two, three + [last]);
    EventsConcat(c, three, [last]);
  }

  lemma Stays(p: Pair, e: Event)
    requires e.Look?
    ensures Happen(p, e).w == p.w
  {
    hide Scanning.Covers;
  }

  // --- the follower ------------------------------------------------------------------------------------

  // The key was last written before the queue was attached.
  lemma AtRest(w: World, k: Bytes) returns (i: nat)
    requires Inv(w) && Known(w) && ScanRace.OnlyKey(w.db, k)
    ensures Resting(History(w), |History(w)|, k, i)
  {
    hide Phys, Denotes, Known, History, Lifted, At;
    IndexedInHistory(w, k);
    i := w.db.index[k].sn - 1;
    SameTomb(Deref(w.db.files, w.db.index[k]).value, History(w)[i]);
  }

  lemma SameTomb(r: Record, q: Record)
    requires Lifted(r) == Lifted(q)
    ensures Tomb(r) == Tomb(q)
  {
    Compaction.LiftedTwice(r);
    Compaction.LiftedTwice(q);
  }

  lemma RestingLater(h: seq<Record>, r: Record, a: nat, k: Bytes, i: nat)
    requires Resting(h, a, k, i) && r.key != k
    ensures Resting(h + [r], a, k, i)
  {
  }

  // One more write, of another key, and the follower is at the leader's number without the key, for
  // good.
  lemma KeyNeverArrives(w: World, k: Bytes, o: Record) returns (es: seq<Event>)
    requires Inv(w) && Known(w) && ScanRace.OnlyKey(w.db, k) && Writable(w.db, [o]) && o.key != k
    ensures var p, m := Events(Pair(w, FRESH), es), Do(Link(w, map[], 0), Copied(es, 1, [{}, {}]));
            && Done(p) && Missed(p, |History(w)|, k) && Arrived(p, |History(w)|) == [o.(sn := |History(w)| + 1)]
            && m.w == p.w && m.f == |History(m.w)| && k in View(m.w.db.index, m.w.ledger) && k !in m.t && !Linked(m)
  {
    hide Phys, Denotes, Known, History, Events, Happen, ScanRace.OnlyKey, Writable, Missed, Arrived, View, Linked, Do;
    var skips := Skipped(w, k);
    var q := Events(Pair(w, FRESH), skips);
    SameNumber(w, q.w);
    SameRoom(w.db, q.w.db, o);
    es := skips + [Event.Lead(Put([o], false))];
    EventsConcat(Pair(w, FRESH), skips, [Event.Lead(Put([o], false))]);
    EventsTwo(q, Event.Lead(Put([o], false)), Ship);
    OneMore(q, o);
    var p := Events(Pair(w, FRESH), es);
    var i := AtRest(w, k);
    RestingLater(History(w), o.(sn := |History(w)| + 1), |History(w)|, k, i);
    MissedNow(p, |History(w)|, k, i);
    ArrivedOne(p, |History(w)|, o.(sn := |History(w)| + 1));
    LeftBehind(w, es, k);
  }

  lemma SameNumber(w: World, x: World)
    requires Known(w) && Known(x) && History(x) == History(w)
    ensures x.db.sn == w.db.sn == |History(w)|
  {
    hide History;
    KnownLogged(w);
    KnownLogged(x);
  }

  lemma SameRoom(db: Db, d: Db, o: Record)
    requires d.sn == db.sn && Writable(db, [o])
    ensures Writable(d, [o])
  {
    hide Operation, AllValid, SizeAll, Stamp;
  }

  lemma OneMore(q: Pair, o: Record)
    requires Phys(q.w) && Writable(q.w.db, [o])
    ensures var p := Happen(q, Event.Lead(Put([o], false)));
            p.s == q.s && History(p.w) == History(q.w) + [o.(sn := q.w.db.sn + 1)]
  {
    hide Phys, History, Written, Writable;
    PhysActive(q.w);
    WrittenHistory(q.w, [o], false);
    assert Stamp([o], q.w.db.sn) == [o.(sn := q.w.db.sn + 1)];
  }

  lemma MissedNow(p: Pair, a: nat, k: Bytes, i: nat)
    requires k in p.s.skipped && Resting(History(p.w), a, k, i)
    ensures Missed(p, a, k)
  {
    hide History, Resting;
  }

  lemma ArrivedOne(p: Pair, a: nat, r: Record)
    requires p.s.done && p.s.refs == [] && p.s.shipped == [] && a < |History(p.w)| && History(p.w)[a..] == [r]
    ensures Done(p) && Arrived(p, a) == [r]
  {
    hide History;
  }

  lemma LeftBehind(w: World, es: seq<Event>, k: Bytes)
    requires Inv(w) && Known(w)
    requires var p, a := Events(Pair(w, FRESH), es), |History(w)|;
             && Done(p) && Missed(p, a, k) && |Arrived(p, a)| == 1 && Arrived(p, a)[0].sn == |History(p.w)|
    ensures var p, m := Events(Pair(w, FRESH), es), Do(Link(w, map[], 0), Copied(es, 1, [{}, {}]));
            && m.w == p.w && m.f == |History(m.w)| && k in View(m.w.db.index, m.w.ledger) && k !in m.t && !Linked(m)
  {
    hide Phys, Denotes, Known, History, Events, Missed, Arrived, View, Linked, Done, Snapping, Settled, Follow,
         Faithful, Catchable;
    var p, a, fs: seq<set<Bytes>> := Events(Pair(w, FRESH), es), |History(w)|, [{}, {}];
    var rs, m := Arrived(p, a), Do(Link(w, map[], 0), Copied(es, 1, fs));
    SessionSettled(w, es);
    SnapParts(p, a);
    assert Upto(rs, 1) == rs;
    assert rs[..|rs| - 1] == [];
    assert HighestAll(0, rs) == rs[0].sn;
    MissedBehind(p, a, fs, k);
    SnapshotConverges(p, a, fs);
    LinkedIs(m);
    if Catchable(m.t, m.f, History(m.w)) {
      CatchableDone(m.t, History(m.w));
    }
  }
}
