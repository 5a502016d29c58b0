/** The follower's engine beside the leader: every session, as the follower's engine lives it. */
module Mirroring {
  import opened Bytes
  import opened Records
  import opened Log
  import opened Engine
  import opened Invariant
  import opened Writing
  import opened Durability
  import opened Runs
  import opened LogReplay
  import opened Versions
  import opened Replica
  import opened Following
  import opened Snapshots
  import opened Replication
  import opened Followers

  // The records of a history by number.
  ghost function Book(h: seq<Record>): map<nat, Record> { map i: nat | 0 < i <= |h| :: Page(h, i) }

  function Page(h: seq<Record>, i: nat): Record
    requires 0 < i <= |h|
  {
    Lifted(h[i - 1])
  }

  lemma EchoEntered(h: seq<Record>, r: Record)
    requires Echoes(r, h)
    ensures Entered(Book(h), r)
  {
    hide Lifted;
  }

  lemma UprightLater(db: Db, h: seq<Record>, g: seq<Record>)
    requires Upright(db, Book(h)) && h <= g
    ensures Upright(db, Book(g))
  {
    hide Lifted, Handling, Standing;
    forall id, r | Holds(db.files, id, r) ensures Entered(Book(g), r) {
      assert Entered(Book(h), r);
    }
  }

  // The engine leads to what the link says the follower holds, and is at its number.
  ghost predicate Mirrors(l: Link, db: Db) {
    Upright(db, Book(History(l.w))) && Held(db) == l.t && db.sn == l.f
  }

  ghost predicate Sized(ms: seq<Move>) { forall i :: 0 <= i < |ms| && ms[i].Got? ==> SizeAll(ms[i].g) <= U32 }

  lemma {:induction false} ArrivalsHold(ms: seq<Move>, i: nat)
    requires i < |ms| && ms[i].Got?
    ensures forall r :: r in ms[i].g ==> r in Arrivals(ms)
  {
    var init := ms[..|ms| - 1];
    if i < |init| {
      ArrivalsHold(init, i);
    }
  }

  lemma EchoesFromLeader(ms: seq<Move>, h: seq<Record>)
    requires Sized(ms) && AllEcho(Arrivals(ms), h)
    ensures FromLeader(Book(h), ms)
  {
    hide Echoes, Entered, Book, Arrivals, SizeAll;
    forall i, r | 0 <= i < |ms| && ms[i].Got? && r in ms[i].g ensures Entered(Book(h), r) {
      ArrivalsHold(ms, i);
      assert r in Arrivals(ms);
      EchoEntered(h, r);
    }
  }

  // Between sessions.
  lemma MirrorIdles(l: Link, db: Db, ms: seq<Move>) returns (ks: set<Bytes>)
    requires Mirrors(l, db) && Sized(ms) && Arrivals(ms) == []
    ensures Mirrors(Do(l, Forgetting(ks)), AllTaken(db, ms))
  {
    hide Upright, History, AllTaken, Book, TableOf, Arrivals, SizeAll, Forget;
    var h := History(l.w);
    EchoesFromLeader(ms, h);
    var fs := RunFollows(db, Book(h), ms);
    ks := fs[0];
  }

  // A log replay session, with the follower's merges running through it.
  lemma MirrorStreams(l: Link, db: Db, s: Session, ms: seq<Move>) returns (fs: seq<set<Bytes>>)
    requires Linked(l) && Mirrors(l, db) && Possible(l.w, l.f, s)
    requires Sized(ms) && Arrivals(ms) == Sent(l.w, l.f, s)
    ensures |fs| == |Sent(l.w, l.f, s)| + 1
    ensures Mirrors(Do(l, Streamed(s.(forgets := fs))), AllTaken(db, ms))
  {
    hide Upright, History, AllTaken, Book, TableOf, Arrivals, SizeAll, Follow, Linked, Run, HighestAll, Phys, Denotes,
         Known, Catchable, Counted, Echoes;
    LinkedParts(l);
    SessionKnown(l.w, l.f, s);
    SentEchoes(l.w, l.f, s);
    var h := History(Left(l.w, l.f, s));
    EchoesFromLeader(ms, h);
    UprightLater(db, History(l.w), h);
    fs := RunFollows(db, Book(h), ms);
  }

  // The follower's engine after a reset: no key, no sequence number, an empty active file.
  function Reset(db: Db): Db {
    db.(files := map[db.nextID := File([], [])], hinted := {}, index := map[], active := db.nextID,
        nextID := db.nextID + 1, sn := 0, mergeSn := 0, synced := 0, merge := NO_MERGE)
  }

  lemma ResetUpright(db: Db, ledger: map<nat, Record>)
    ensures Upright(Reset(db), ledger) && Held(Reset(db)) == map[]
  {
    var r := Reset(db);
    IdleHandling(r.files, r.index, r.active);
  }

  // A snapshot session, into an engine that has been reset.
  lemma MirrorCopies(l: Link, db: Db, es: seq<Event>, cut: nat, ms: seq<Move>) returns (fs: seq<set<Bytes>>)
    requires Linked(l) && Sized(ms)
    requires Arrivals(ms) == Upto(Arrived(Events(Pair(l.w, FRESH), es), |History(l.w)|), cut)
    ensures |fs| == |Arrivals(ms)| + 1 && Mirrors(Do(l, Copied(es, cut, fs)), AllTaken(Reset(db), ms))
  {
    hide Upright, History, AllTaken, Book, TableOf, Arrivals, SizeAll, Follow, Linked, HighestAll, Phys, Denotes, Known,
         Catchable, Counted, Echoes, Events, Arrived, Snapping, Upto, Reset;
    LinkedParts(l);
    var p, a := Events(Pair(l.w, FRESH), es), |History(l.w)|;
    AttachSnaps(l.w);
    EventsKeep(Pair(l.w, FRESH), a, es);
    ArrivedEcho(p, a, cut);
    EchoesFromLeader(ms, History(p.w));
    ResetUpright(db, Book(History(p.w)));
    ResetNumber(db);
    fs := RunFollows(Reset(db), Book(History(p.w)), ms);
  }

  lemma ResetNumber(db: Db)
    ensures Reset(db).sn == 0
  {
  }

  // In step, the follower's engine serves the leader's live map.
  lemma MirrorServes(l: Link, db: Db)
    requires Mirrors(l, db) && InStep(l)
    ensures LiveOf(Held(db)) == View(l.w.db.index, l.w.ledger)
  {
    hide Upright, LiveOf, View, TableOf;
  }

  // --- the deleted key that comes back, on the follower's engine --------------------------------------------

  // Idle, with one key, and that deleted.
  ghost predicate OnlyTombstone(db: Db, k: Bytes) {
    && HasActive(db) && db.merge == NO_MERGE && FileSize(db.files[db.active]) > 0 && db.index.Keys == {k}
    && db.index[k].tomb && db.index[k].file in db.files && forall id :: id in db.files ==> id < db.nextID
  }

  // A merge of such an engine.
  function Forgetful(k: Bytes, e: Entry): seq<Move> {
    [Tidying(SealActive), Tidying(Collect([], [Item(k, e)])), Tidying(FsyncOuts), Tidying(StartRepoint),
     Tidying(StartRetire), Tidying(RetireChunk(1))]
  }

  lemma {:induction false} TakenCons(db: Db, m: Move, ms: seq<Move>)
    ensures AllTaken(db, [m] + ms) == AllTaken(Taken(db, m), ms)
    decreases |ms|
  {
    hide Taken;
    var all := [m] + ms;
    if ms == [] {
      assert all == [m] && all[..0] == [];
    } else {
      assert all[..|all| - 1] == [m] + ms[..|ms| - 1];
      TakenCons(db, m, ms[..|ms| - 1]);
    }
  }

  lemma SealTakes(db: Db, k: Bytes)
    requires OnlyTombstone(db, k)
    ensures var d := Taken(db, Tidying(SealActive));
            && HasActive(d) && d.index == db.index && d.sn == db.sn && d.hinted == db.hinted
            && d.merge == NO_MERGE.(phase := Sealed, ids := d.merge.ids, barrier := d.merge.barrier)
            && db.index[k].file in d.merge.ids && d.active == db.nextID && d.merge.ids == d.files.Keys - {d.active}
            && d.merge.barrier == db.sn && d.files == db.files[db.nextID := File([], [])]
  {
    hide SizeAll, Tops;
    assert db.index[k].file in OpenNewActive(db).files.Keys - {db.nextID};
  }

  lemma CollectTakes(db: Db, k: Bytes, e: Entry)
    requires HasActive(db) && db.index == map[k := e] && e.tomb && e.file in db.merge.ids && db.merge.phase == Sealed
    ensures Taken(db, Tidying(Collect([], [Item(k, e)]))) == Snapshot(db, [], [Item(k, e)])
  {
    hide Less;
    assert KeyOrdered([]) && KeyOrdered([Item(k, e)]);
    assert Collects(db.index, db.merge.ids, [], [Item(k, e)]);
  }

  ghost predicate HollowAt(m: Merge, p: Phase, it: Item) {
    m == NO_MERGE.(phase := p, ids := m.ids, barrier := m.barrier, retired := [it])
  }

  // Its phases, one by one.
  lemma PhasesTake(db: Db, it: Item)
    requires HasActive(db)
    ensures HollowAt(db.merge, Copying, it) ==> Taken(db, Tidying(FsyncOuts)) == SyncOuts(db)
    ensures HollowAt(db.merge, Synced, it) ==> Taken(db, Tidying(StartRepoint)) == BeginRepoint(db)
    ensures HollowAt(db.merge, Repointing, it) ==> Taken(db, Tidying(StartRetire)) == BeginRetire(db)
    ensures HollowAt(db.merge, Retiring, it) ==> Taken(db, Tidying(RetireChunk(1))) == Retire(db, 1)
  {
    hide Collects, Tops, SizeAll;
    assert OutSet([]) == {};
  }

  lemma RetireTakes(ix: Index, it: Item)
    requires ix == map[it.key := it.e]
    ensures RetireTo(ix, [it], 0, 1) == map[]
  {
    assert RetireTo(ix, [it], 0, 0) == ix;
  }

  // Halfway through the merge nothing is left of the key.
  lemma ForgetfulRun(db: Db, k: Bytes)
    requires OnlyTombstone(db, k)
    ensures var d := AllTaken(db, Forgetful(k, db.index[k]));
            && d.index == map[] && d.sn == db.sn && HasActive(d) && d.active == db.nextID
            && d.merge.phase == Retiring && d.merge.done == |d.merge.retired|
            && d.merge.ids == d.files.Keys - {d.active}
            && d.merge.barrier == db.sn && d.files == db.files[db.nextID := File([], [])]
  {
    hide Taken, SizeAll, RetireTo;
    var e := db.index[k];
    var it, tail := Item(k, e),
                    [Tidying(FsyncOuts), Tidying(StartRepoint), Tidying(StartRetire), Tidying(RetireChunk(1))];
    assert db.index == map[k := e];
    SealTakes(db, k);
    var d := Taken(db, Tidying(SealActive));
    CollectTakes(d, k, e);
    var c := Snapshot(d, [], [it]);
    PhasesTake(c, it);
    PhasesTake(SyncOuts(c), it);
    PhasesTake(BeginRepoint(SyncOuts(c)), it);
    PhasesTake(BeginRetire(BeginRepoint(SyncOuts(c))), it);
    RetireTakes(d.index, it);
    assert Forgetful(k, e) == [Tidying(SealActive)] + ([Tidying(Collect([], [it]))] + tail);
    TakenCons(db, Tidying(SealActive), [Tidying(Collect([], [it]))] + tail);
    TakenCons(d, Tidying(Collect([], [it])), tail);
    TailTakes(c);
  }

  lemma TailTakes(db: Db)
    ensures AllTaken(db, [Tidying(FsyncOuts), Tidying(StartRepoint), Tidying(StartRetire), Tidying(RetireChunk(1))])
            == Taken(Taken(Taken(Taken(db, Tidying(FsyncOuts)), Tidying(StartRepoint)), Tidying(StartRetire)),
                     Tidying(RetireChunk(1)))
  {
    hide Taken;
    var a, b, c, d := Tidying(FsyncOuts), Tidying(StartRepoint), Tidying(StartRetire), Tidying(RetireChunk(1));
    assert [a][..0] == [] && [a, b][..1] == [a] && [a, b, c][..2] == [a, b] && [a, b, c, d][..3] == [a, b, c];
    assert AllTaken(db, [a]) == Taken(db, a);
    assert AllTaken(db, [a, b]) == Taken(AllTaken(db, [a]), b);
    assert AllTaken(db, [a, b, c]) == Taken(AllTaken(db, [a, b]), c);
  }

  lemma InstallShape(db: Db, r: Record, always: bool)
    requires HasActive(db)
    ensures var d := Install(db, [r], always);
            d.merge == db.merge && FileSize(d.files[d.active]) > 0 && d == Taken(db, Got([r], always))
  {
    hide ApplyWritten, HighestAll;
    var f := Rotate(db, SizeAll([r])).files[Rotate(db, SizeAll([r])).active];
    assert (f.recs + [r])[..|f.recs|] == f.recs;
  }

  lemma HeldAlone(db: Db, k: Bytes, r: Record)
    requires Standing(db) && Held(db) == map[k := VersionOf(r)]
    ensures db.index.Keys == {k} && db.index[k].tomb == Tomb(r) && db.index[k].file in db.files
  {
    hide At, Tomb;
    assert forall q :: q in db.index <==> q in Held(db);
    assert k in db.index && Points(db.files, k, db.index[k]);
  }

  lemma ReceiveSingle(t: Table, r: Record)
    ensures ReceiveAll(t, [r]) == Receive(t, r)
  {
    assert [r][..0] == [];
  }

  // It hears of the overwrite and of the deletion.
  lemma HearsTwice(db: Db, h: seq<Record>, k: Bytes)
    requires |h| == 3 && Counted(h, 3) && h[0].key == h[1].key == h[2].key == k
    requires Upright(db, Book(h)) && db.merge == NO_MERGE && Held(db) == Summary(h[..1]) && db.sn == 1
    requires SizeAll([h[1]]) <= U32 && SizeAll([h[2]]) <= U32
    ensures var d := Taken(Taken(db, Got([h[1]], false)), Got([h[2]], false));
            && Upright(d, Book(h)) && d.merge == NO_MERGE && FileSize(d.files[d.active]) > 0 && d.sn == 3
            && Held(d) == map[k := VersionOf(h[2])]
  {
    hide Upright, SizeAll, Book, Lifted, Tomb, Standing, FileSize, Install, TableOf, Taken;
    forall r | r in h ensures Entered(Book(h), r) {
      assert Echoes(r, h);
      EchoEntered(h, r);
    }
    UprightParts(db, Book(h));
    InstallUpright(db, Book(h), [h[1]], false);
    InstallShape(db, h[1], false);
    var c := Install(db, [h[1]], false);
    UprightParts(c, Book(h));
    InstallUpright(c, Book(h), [h[2]], false);
    InstallShape(c, h[2], false);
    assert h[..1] == [h[0]];
    ReceiveSingle(map[], h[0]);
    ReceiveSingle(Held(db), h[1]);
    ReceiveSingle(Held(c), h[2]);
    assert [h[1]][..0] == [] && [h[2]][..0] == [];
  }

  // The follower has one key. It is overwritten and deleted; the follower hears of both, merges,
  // and hears of the overwrite again. Its engine serves the deleted key, at the leader's own
  // sequence number, and nothing the leader will send takes it away.
  lemma DeletedKeyServed(db: Db, h: seq<Record>, k: Bytes) returns (ms: seq<Move>)
    requires |h| == 3 && Counted(h, 3) && h[0].key == h[1].key == h[2].key == k && !Tomb(h[1]) && Tomb(h[2])
    requires Upright(db, Book(h)) && db.merge == NO_MERGE && Held(db) == Summary(h[..1]) && db.sn == 1
    requires SizeAll([h[1]]) <= U32 && SizeAll([h[2]]) <= U32
    ensures Arrivals(ms) == [h[1], h[2], h[1]] && Sized(ms)
    ensures var d := AllTaken(db, ms);
            && Upright(d, Book(h)) && d.sn == 3 && k in LiveOf(Held(d)) && k !in LiveOf(Summary(h))
            && !Catchable(Held(d), 3, h)
  {
    hide Upright, SizeAll, Book, Lifted, Tomb, Standing, FileSize, Install, TableOf, Taken, AllTaken, Arrivals,
         Catchable, Follow, ReceiveAll, FaithfulAt, LiveOf;
    HearsTwice(db, h, k);
    var first, second := Got([h[1]], false), Got([h[2]], false);
    var b := Taken(Taken(db, first), second);
    UprightParts(b, Book(h));
    HeldAlone(b, k, h[2]);
    StandingBelow(b);
    var mid := Forgetful(k, b.index[k]);
    ForgetfulRun(b, k);
    QuietArrivals(mid);
    var fs := RunFollows(b, Book(h), mid);
    var c := AllTaken(b, mid);
    NothingHeld(c);
    HearsAgain(c, h, k);
    ms := [first] + ([second] + (mid + [first]));
    TakenCons(db, first, [second] + (mid + [first]));
    TakenCons(Taken(db, first), second, mid + [first]);
    TakenLast(b, mid, first);
    ArrivalsConcat([first], [second] + (mid + [first]));
    ArrivalsConcat([second], mid + [first]);
    ArrivalsConcat(mid, [first]);
    ArrivalsOne(h[1]);
    ArrivalsOne(h[2]);
    assert [h[1]] + ([h[2]] + ([] + [h[1]])) == [h[1], h[2], h[1]];
  }

  // The overwrite arrives once more.
  lemma HearsAgain(c: Db, h: seq<Record>, k: Bytes)
    requires |h| == 3 && Counted(h, 3) && h[1].key == h[2].key == k && !Tomb(h[1]) && Tomb(h[2])
    requires Upright(c, Book(h)) && Held(c) == map[] && SizeAll([h[1]]) <= U32 && c.sn == 3
    ensures var d := Taken(c, Got([h[1]], false));
            && Upright(d, Book(h)) && d.sn == 3 && k in LiveOf(Held(d)) && k !in LiveOf(Summary(h))
            && !Catchable(Held(d), 3, h)
  {
    hide Upright, SizeAll, Book, Lifted, Tomb, Install, TableOf, Taken, Catchable, Faithful;
    assert Echoes(h[1], h);
    EchoEntered(h, h[1]);
    UprightParts(c, Book(h));
    InstallUpright(c, Book(h), [h[1]], false);
    InstallShape(c, h[1], false);
    ReceiveSingle(map[], h[1]);
    assert [h[1]][..0] == [];
    var d := Install(c, [h[1]], false);
    UprightParts(d, Book(h));
    SummaryLast(h, k, 2);
    if Catchable(Held(d), 3, h) {
      CatchableDone(Held(d), h);
      FaithfulOf(Held(d), h, k);
    }
  }

  lemma StandingBelow(db: Db)
    requires Standing(db)
    ensures HasActive(db) && forall id :: id in db.files ==> id < db.nextID
  {
  }

  lemma NothingHeld(db: Db)
    requires db.index == map[]
    ensures Pointing(db.files, db.index) && Held(db) == map[]
  {
  }

  lemma TakenLast(db: Db, ms: seq<Move>, m: Move)
    ensures AllTaken(db, ms + [m]) == Taken(AllTaken(db, ms), m)
  {
    hide Taken;
    assert (ms + [m])[..|ms|] == ms;
  }

  lemma {:induction false} ArrivalsConcat(a: seq<Move>, b: seq<Move>)
    ensures Arrivals(a + b) == Arrivals(a) + Arrivals(b)
  {
    if b == [] {
      assert a + b == a;
    } else {
      assert (a + b)[..|a + b| - 1] == a + b[..|b| - 1];
      ArrivalsConcat(a, b[..|b| - 1]);
    }
  }

  lemma ArrivalsOne(r: Record)
    ensures Arrivals([Got([r], false)]) == [r]
  {
    assert [Got([r], false)][..0] == [];
  }

  lemma {:induction false} QuietArrivals(ms: seq<Move>)
    requires forall i :: 0 <= i < |ms| ==> ms[i].Tidying?
    ensures Arrivals(ms) == []
  {
    if ms != [] {
      QuietArrivals(ms[..|ms| - 1]);
    }
  }
}
