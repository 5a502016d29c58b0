/** A log replay that a merge overtakes. The promise that a replay emits every record after the
    follower's position is false when files are unlinked under it: this module exhibits the
    failing family. */
module WalkRace {
  import opened Bytes
  import opened Records
  import opened Log
  import opened Engine
  import opened Invariant
  import opened Durability
  import opened Runs
  import opened LogReplay
  import opened Versions
  import opened Following
  import opened LogWalk
  import opened Snapshots
  import opened Replication
  import opened Followers
  import opened Mirroring
  import Exposure
  import Reads
  import Recovery

  // What a merge does to the engine does not depend on the history.
  lemma {:induction false} RunTidied(w: World, acts: seq<Action>, ms: seq<Move>)
    requires |ms| == |acts|
    requires forall i :: 0 <= i < |acts| ==> !acts[i].Put? && !acts[i].Reboot? && ms[i] == Tidying(acts[i])
    ensures Run(w, acts).db == AllTaken(w.db, ms) && History(Run(w, acts)) == History(w)
    decreases |acts|
  {
    hide History, Tidied, Runs.Next;
    if acts != [] {
      var init := acts[..|acts| - 1];
      RunTidied(w, init, ms[..|acts| - 1]);
      NextTidied(Run(w, init), acts[|acts| - 1]);
      NextHistory(Run(w, init), acts[|acts| - 1]);
    }
  }

  lemma NextTidied(w: World, a: Action)
    requires !a.Put? && !a.Reboot?
    ensures Runs.Next(w, a).db == Tidied(w.db, a)
  {
    hide Collects, RepointTo, RetireTo, Tops, SizeAll, Immutable, Dropped;
  }

  // A merge of an engine whose only key is deleted, from start to finish.
  function WholeMerge(k: Bytes, e: Entry): seq<Action> {
    [SealActive, Collect([], [Item(k, e)]), FsyncOuts, StartRepoint, StartRetire, RetireChunk(1), Raise, Drop]
  }

  lemma WholeMergeRun(db: Db, k: Bytes)
    requires OnlyTombstone(db, k)
    ensures var d := AllTaken(db, Forgetful(k, db.index[k]) + [Tidying(Raise), Tidying(Drop)]);
            && d.mergeSn == db.sn && d.sn == db.sn && d.files.Keys == {db.nextID} && d.merge == NO_MERGE
            && HasActive(d) && d.index == map[]
  {
    hide Taken, SizeAll, AllTaken;
    ForgetfulRun(db, k);
    var ms, c := Forgetful(k, db.index[k]), AllTaken(db, Forgetful(k, db.index[k]));
    TakenLast(db, ms, Tidying(Raise));
    TakenLast(db, ms + [Tidying(Raise)], Tidying(Drop));
    assert (ms + [Tidying(Raise)]) + [Tidying(Drop)] == ms + [Tidying(Raise), Tidying(Drop)];
    LastSteps(c);
  }

  lemma LastSteps(c: Db)
    requires HasActive(c) && c.merge.phase == Retiring && c.merge.done == |c.merge.retired|
    requires c.merge.ids == c.files.Keys - {c.active}
    ensures var d := Taken(Taken(c, Tidying(Raise)), Tidying(Drop));
            && d.mergeSn == c.merge.barrier && d.sn == c.sn && d.files.Keys == {c.active} && d.merge == NO_MERGE
            && d.active == c.active && d.index == c.index
  {
    assert c.files.Keys - c.merge.ids == {c.active};
  }

  // The files of the start are gone when their turn comes.
  lemma {:induction false} NothingRead(w: World, ids: seq<nat>, gaps: seq<seq<Action>>, from: nat, n: nat)
    requires 0 < n <= |ids| == |gaps| && forall i :: 0 < i < |gaps| ==> gaps[i] == []
    requires forall i :: 0 <= i < |ids| ==> ids[i] !in Run(w, gaps[0]).db.files
    ensures Walked(w, ids, gaps, from, n) == Walk(Run(w, gaps[0]), [])
    decreases n
  {
    hide Runs.Next, Above, FoundIn;
    if n != 1 {
      NothingRead(w, ids, gaps, from, n - 1);
    }
  }

  // The merge runs between the listing and the first file.
  function Interrupted(k: Bytes, e: Entry, n: nat): seq<seq<Action>> {
    seq(n, i => if i == 0 then WholeMerge(k, e) else [])
  }

  // The watermark was behind the position when it was checked. The deletion, and everything else
  // after the position, is in files that are unlinked before they are read: nothing is emitted.
  lemma WalkLoses(w: World, k: Bytes, ids: seq<nat>, from: nat)
    requires OnlyTombstone(w.db, k) && Recovery.Listing(ids, w.db.files.Keys)
    ensures var p := Walked(w, ids, Interrupted(k, w.db.index[k], |ids|), from, |ids|);
            && p == Walk(Run(w, WholeMerge(k, w.db.index[k])), []) && p.w.db.mergeSn == w.db.sn == p.w.db.sn
            && History(p.w) == History(w) && HasActive(p.w.db)
  {
    hide History, Run, AllTaken, Walked;
    var e := w.db.index[k];
    var acts, ms := WholeMerge(k, e), Forgetful(k, e) + [Tidying(Raise), Tidying(Drop)];
    RunTidied(w, acts, ms);
    WholeMergeRun(w.db, k);
    assert w.db.active in w.db.files.Keys && |ids| > 0;
    NothingRead(w, ids, Interrupted(k, e, |ids|), from, |ids|);
  }

  // A session with that merge in its replay, and one more write, of another key, behind it.
  function Raced(l: Link, k: Bytes, ids: seq<nat>, o: Record): Session
    requires k in l.w.db.index
  {
    Session([], ids, Interrupted(k, l.w.db.index[k], |ids|), [Put([o], false)], 1, [{}, {}])
  }

  lemma RacedHistory(l: Link, k: Bytes, ids: seq<nat>, o: Record)
    requires OnlyTombstone(l.w.db, k) && Recovery.Listing(ids, l.w.db.files.Keys) && Writable(l.w.db, [o])
    requires Inv(l.w) && Known(l.w) && 0 < l.f && l.w.db.mergeSn <= l.f
    ensures var s, h := Raced(l, k, ids, o), History(l.w);
            && Possible(l.w, l.f, s) && Replayed(l.w, l.f, s).w.db.mergeSn == |h|
            && History(Left(l.w, l.f, s)) == h + [o.(sn := |h| + 1)] && Sent(l.w, l.f, s) == [o.(sn := |h| + 1)]
  {
    hide History, Phys, Denotes, Known, Operation, AllValid, SizeAll, Walked, Runs.Next;
    var s, h, w := Raced(l, k, ids, o), History(l.w), l.w;
    KnownLogged(w);
    assert Run(w, []) == w;
    WalkLoses(w, k, ids, l.f);
    var p := Replayed(w, l.f, s);
    PutAfter(p.w, o);
    assert Left(w, l.f, s) == Run(p.w, [Put([o], false)]);
    assert [] + [o.(sn := |h| + 1)] == [o.(sn := |h| + 1)];
  }

  lemma PutAfter(w: World, o: Record)
    requires HasActive(w.db) && Writable(w.db, [o])
    ensures History(Run(w, [Put([o], false)])) == History(w) + [o.(sn := w.db.sn + 1)]
  {
    hide History, Written, Writable;
    var acts := [Put([o], false)];
    assert acts[..0] == [];
    assert Run(w, acts[..0]) == w;
    assert Run(w, acts) == Written(w, [o], false);
    WrittenHistory(w, [o], false);
    assert Stamp([o], w.db.sn) == [o.(sn := w.db.sn + 1)];
  }

  // The only key is deleted in the history, too.
  lemma LastDeleted(w: World, k: Bytes) returns (i: nat)
    requires Inv(w) && Known(w) && OnlyTombstone(w.db, k)
    ensures Last(History(w), k, i) && Tomb(History(w)[i])
  {
    hide History, Phys, Denotes, Known, Sound, FileSize, At, Lifted;
    IndexedInHistory(w, k);
    PhysParts(w);
    Reads.IndexPoints(w.db, w.ledger, k);
    i := w.db.index[k].sn - 1;
    SameVersion(Deref(w.db.files, w.db.index[k]).value, History(w)[i]);
  }

  // The follower was at a position before the deletion. After the session it is at the leader's
  // sequence number and still serves the key; the deletion will not be sent again.
  lemma DeletionNeverArrives(l: Link, k: Bytes, ids: seq<nat>, o: Record)
    requires Linked(l) && OnlyTombstone(l.w.db, k) && Recovery.Listing(ids, l.w.db.files.Keys) && Writable(l.w.db, [o])
    requires o.key != k && 0 < l.f && l.w.db.mergeSn <= l.f && k in LiveOf(l.t)
    ensures var s := Raced(l, k, ids, o);
            && Possible(l.w, l.f, s)
            && var m := Do(l, Streamed(s));
            && m.f == |History(m.w)| && k in LiveOf(m.t) && k !in LiveOf(Summary(History(m.w))) && !Linked(m)
  {
    hide History, Phys, Denotes, Known, Linked, SizeAll, Sent, Left, Replayed, Possible, Tomb, Catchable, Writable;
    LinkedParts(l);
    RacedHistory(l, k, ids, o);
    var i := LastDeleted(l.w, k);
    var h, q := History(l.w), o.(sn := |History(l.w)| + 1);
    var s := Raced(l, k, ids, o);
    var m := Do(l, Streamed(s));
    assert Last(h + [q], k, i);
    assert Counted(h + [q], |h + [q]|);
    SummaryLast(h + [q], k, i);
    OneArrives(l.t, q, l.f);
    if Linked(m) {
      LinkedParts(m);
      CatchableDone(m.t, h + [q]);
      FaithfulOf(m.t, h + [q], k);
    }
  }

  lemma OneArrives(t: Table, r: Record, f: nat)
    ensures HighestAll(f, [r]) == Max(f, r.sn) && Follow(t, [r], [{}, {}], 1) == Receive(t, r)
  {
    assert [r][..0] == [];
    ForgetNothing(t);
    ForgetNothing(Receive(t, r));
  }

  // --- a leader and a follower it happens to ------------------------------------------------------------------

  function Deletion(k: Bytes): Record { Record(0, 0, 1, k, []) }

  ghost function Deleted(maxSize: nat, k: Bytes, v: Bytes): World {
    Run(Start(maxSize), [Put([Exposure.Plain(k, v)], true), Put([Deletion(k)], false)])
  }

  // A key is put and deleted. The follower heard of the put.
  ghost function Before(maxSize: nat, k: Bytes, v: Bytes): Link {
    Link(Deleted(maxSize, k, v), map[k := Version(1, false, v)], 1)
  }

  lemma DeletionWritable(db: Db, k: Bytes)
    requires 0 < |k| <= MAX_KEY && db.sn == 1
    ensures var r, s := Deletion(k), Deletion(k).(sn := 2);
            Writable(db, [r]) && Stamp([r], 1) == [s] && 0 < SizeAll([s]) <= U32 && Tomb(s)
  {
    var r, s := Deletion(k), Deletion(k).(sn := 2);
    assert Stamp([r], 1) == [s];
    assert [r][..0] == [] && [s][..0] == [];
  }

  // Deleting the only key.
  lemma DeletedTombstone(w: World, k: Bytes, always: bool)
    requires Phys(w) && HasActive(w.db) && w.db.sn == 1 && w.db.merge == NO_MERGE
    requires w.db.index.Keys == {k} && w.db.index[k].sn <= 1 && 0 < |k| <= MAX_KEY
    ensures var x := Runs.Next(w, Put([Deletion(k)], always));
            && OnlyTombstone(x.db, k) && x.db.sn == 2 && x.db.mergeSn == w.db.mergeSn && AfterDeletion(w.db, x.db, k)
            && History(x) == History(w) + [Deletion(k).(sn := 2)]
  {
    hide Phys, Sound, Written, Tomb, Operation, AllValid, History, Append;
    PhysParts(w);
    DeletionWritable(w.db, k);
    WrittenIsAppend(w, [Deletion(k)], always);
    WrittenHistory(w, [Deletion(k)], always);
    BelowNextID(w.db, w.ledger);
    DeletionAppended(w.db, k, always);
  }

  // Into an empty active file.
  ghost predicate AfterDeletion(db: Db, d: Db, k: Bytes)
    requires HasActive(db)
  {
    db.files[db.active] == File([], []) ==>
      && d.files == db.files[db.active := File([Deletion(k).(sn := 2)], [])]
      && d.active == db.active && d.nextID == db.nextID && k in d.index && d.index[k].file == db.active
  }

  lemma DeletionAppended(db: Db, k: Bytes, always: bool)
    requires HasActive(db) && db.sn == 1 && db.merge == NO_MERGE && db.index.Keys == {k}
    requires db.index[k].sn <= 1 && 0 < |k| <= MAX_KEY && forall id :: id in db.files ==> id < db.nextID
    ensures var d := Append(db, [Deletion(k)], always);
            OnlyTombstone(d, k) && d.sn == 2 && d.mergeSn == db.mergeSn && AfterDeletion(db, d, k)
  {
    hide Tomb, Operation, AllValid, Size;
    DeletionWritable(db, k);
    var s := Deletion(k).(sn := 2);
    var c := Rotate(db.(sn := 2), SizeAll([s]));
    var f := c.files[c.active];
    assert ApplyWritten(db.index, c.active, FileSize(f), [s], 0) == db.index;
    SizeAllConcat(f.recs, [s]);
    EmptyFile();
    assert [] + [s] == [s];
  }

  ghost predicate HeardPut(w: World, k: Bytes, v: Bytes) {
    && Inv(w) && Known(w) && HasActive(w.db) && w.db.sn == 1 && w.db.merge == NO_MERGE && w.db.mergeSn == 0
    && w.db.index.Keys == {k} && w.db.index[k].sn <= 1 && History(w) == [Exposure.Plain(k, v).(sn := 1)]
  }

  lemma FirstPut(maxSize: nat, k: Bytes, v: Bytes)
    requires Exposure.Storable(k, v)
    ensures HeardPut(Runs.Next(Start(maxSize), Put([Exposure.Plain(k, v)], true)), k, v)
  {
    hide Phys, Denotes, Known, History, Runs.Next, Start, Exposure.Plain;
    var w, put := Start(maxSize), Put([Exposure.Plain(k, v)], true);
    StartInv(maxSize);
    StartKnown(maxSize);
    NextInv(w, put);
    NextKnown(w, put);
    Exposure.First(maxSize, k, v);
    FirstHistory(maxSize, k, v);
  }

  lemma FirstHistory(maxSize: nat, k: Bytes, v: Bytes)
    requires Exposure.Storable(k, v)
    ensures var w := Runs.Next(Start(maxSize), Put([Exposure.Plain(k, v)], true));
            History(w) == [Exposure.Plain(k, v).(sn := 1)] && w.db.mergeSn == 0
  {
    hide Written, History, Append, Sound, Writable, Stamp, Enabled, Exposure.Shape;
    var w, g := Start(maxSize), [Exposure.Plain(k, v)];
    StartSound(maxSize);
    StartHistory(maxSize);
    Exposure.PutEmpty(w, k, v, true);
    Exposure.PlainRecord(k, v, 0);
    WrittenHistory(w, g, true);
    PutWritable(w, g, true);
    WrittenIsAppend(w, g, true);
    AppendMark(w.db, g, true);
  }

  lemma PutWritable(w: World, g: seq<Record>, always: bool)
    requires Enabled(w, Put(g, always))
    ensures Writable(w.db, g) && Runs.Next(w, Put(g, always)) == Written(w, g, always)
  {
    hide Written, Writable;
  }

  lemma AppendMark(db: Db, g: seq<Record>, always: bool)
    requires HasActive(db)
    ensures Append(db, g, always).mergeSn == db.mergeSn
  {
    hide ApplyWritten, SizeAll;
  }

  lemma StartHistory(maxSize: nat)
    ensures History(Start(maxSize)) == []
  {
    assert Start(maxSize).durable + Start(maxSize).volatile == [];
  }

  lemma BeforeHolds(maxSize: nat, k: Bytes, v: Bytes)
    requires Exposure.Storable(k, v)
    ensures var l := Before(maxSize, k, v);
            && Linked(l) && OnlyTombstone(l.w.db, k) && l.w.db.mergeSn <= l.f < l.w.db.sn && k in LiveOf(l.t)
  {
    hide Phys, Denotes, Known, History, Runs.Next, OnlyTombstone, Linked, Start, Catchable, Exposure.Plain, Run;
    var put, del := Put([Exposure.Plain(k, v)], true), Put([Deletion(k)], false);
    var w := Runs.Next(Start(maxSize), put);
    FirstPut(maxSize, k, v);
    DeletedTombstone(w, k, false);
    NextInv(w, del);
    NextKnown(w, del);
    TwoSteps(Start(maxSize), put, del);
    HeardOnce(k, v);
    LinkedIs(Before(maxSize, k, v));
  }

  lemma TwoSteps(w: World, a: Action, b: Action)
    ensures Run(w, [a, b]) == Runs.Next(Runs.Next(w, a), b)
  {
    hide Runs.Next;
    assert [a, b][..1] == [a] && [a][..0] == [];
    assert Run(w, [a]) == Runs.Next(w, a);
  }

  lemma HeardOnce(k: Bytes, v: Bytes)
    ensures Catchable(map[k := Version(1, false, v)], 1, [Exposure.Plain(k, v).(sn := 1)] + [Deletion(k).(sn := 2)])
  {
    hide Faithful;
    var s, d := Exposure.Plain(k, v).(sn := 1), Deletion(k).(sn := 2);
    ReceiveSingle(map[], s);
    assert ([s] + [d])[1..] == [d];
    ReceiveAllConcat(map[], [s], [d]);
    SummaryFaithful([s] + [d]);
  }

  lemma SummaryFaithful(h: seq<Record>)
    ensures Faithful(Summary(h), h)
  {
  }
}
