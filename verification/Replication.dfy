/** Leader and follower: sessions of log replay and of snapshots, each cut off anywhere, and what
    they leave the follower with. */
module Replication {
  import opened Bytes
  import opened Records
  import opened Log
  import opened Invariant
  import opened Writing
  import opened Runs
  import opened LogReplay
  import opened Versions
  import opened Following
  import opened LogWalk
  import opened Snapshots
  import Recovery

  // --- a log replay session --------------------------------------------------------------------------

  // The queue is attached. The leader takes some steps, the position is checked against the
  // watermark and the files are listed; they are read one by one, with more steps before each;
  // then the queue is drained, with more steps. The connection breaks after cut records, if there
  // are that many. Meanwhile the follower's own merges forget tombstones.
  datatype Session = Session(before: seq<Action>, ids: seq<nat>, gaps: seq<seq<Action>>, after: seq<Action>,
                             cut: nat, forgets: seq<set<Bytes>>)

  ghost predicate Possible(w: World, f: nat, s: Session) {
    var x := Run(w, s.before);
    && Uninterrupted(s.before) && AllUninterrupted(s.gaps) && Uninterrupted(s.after)
    && f != 0 && x.db.mergeSn <= f && Recovery.Listing(s.ids, x.db.files.Keys) && |s.ids| == |s.gaps|
  }

  ghost function Replayed(w: World, f: nat, s: Session): Walk
    requires |s.ids| == |s.gaps|
  {
    Walked(Run(w, s.before), s.ids, s.gaps, f, |s.ids|)
  }

  ghost function Left(w: World, f: nat, s: Session): World
    requires |s.ids| == |s.gaps|
  {
    Run(Replayed(w, f, s).w, s.after)
  }

  // The log as the walk found it, then the queue.
  ghost function Delivered(w: World, f: nat, s: Session): seq<Record>
    requires |s.ids| == |s.gaps|
  {
    Replayed(w, f, s).out + From(History(Left(w, f, s)), |History(w)|)
  }

  ghost function Sent(w: World, f: nat, s: Session): seq<Record>
    requires |s.ids| == |s.gaps|
  {
    Upto(Delivered(w, f, s), s.cut)
  }

  lemma SessionKnown(w: World, f: nat, s: Session)
    requires Inv(w) && Known(w) && Possible(w, f, s)
    ensures var x, v, y := Run(w, s.before), Replayed(w, f, s).w, Left(w, f, s);
            && Inv(x) && Known(x) && Inv(v) && Known(v) && Inv(y) && Known(y)
            && History(w) <= History(x) <= History(v) <= History(y)
  {
    hide Phys, Denotes, Known, Run, History, Walked;
    var x := Run(w, s.before);
    RunInv(w, s.before);
    RunKnown(w, s.before);
    RunHistory(w, s.before);
    WalkKnown(x, s.ids, s.gaps, f, |s.ids|);
    var v := Replayed(w, f, s).w;
    RunInv(v, s.after);
    RunKnown(v, s.after);
    RunHistory(v, s.after);
  }

  // No file the walk comes to has been unlinked with records above the position in it.
  ghost predicate Unskipped(w: World, f: nat, s: Session) {
    forall n: nat :: !Skips(Run(w, s.before), s.ids, s.gaps, f, n)
  }

  // Then what a session delivers has no gap.
  lemma DeliveredGapless(w: World, f: nat, s: Session)
    requires Inv(w) && Known(w) && f <= |History(w)| && Possible(w, f, s) && Unskipped(w, f, s)
    ensures var h, rs := History(Left(w, f, s)), Delivered(w, f, s);
            Gapless(rs, h, f) && HighestAll(f, rs) == |h| && Counted(h, |h|)
  {
    hide Phys, Denotes, Known, Run, History, Walked, Gapless, HighestAll, Counted, Skips;
    SessionKnown(w, f, s);
    var x, v, y := Run(w, s.before), Replayed(w, f, s).w, Left(w, f, s);
    KnownLogged(x);
    KnownLogged(y);
    WalkGapless(x, s.ids, s.gaps, f);
    var out := Replayed(w, f, s).out;
    GaplessGrows(out, History(v), History(y), f);
    GaplessQueue(out, History(y), f, |History(w)|);
  }

  // In any case it is records of the history.
  lemma SentEchoes(w: World, f: nat, s: Session)
    requires Inv(w) && Known(w) && Possible(w, f, s)
    ensures AllEcho(Sent(w, f, s), History(Left(w, f, s)))
  {
    hide Phys, Denotes, Known, Run, History, Walked, Echoes, Skips;
    SessionKnown(w, f, s);
    var x, v, y := Run(w, s.before), Replayed(w, f, s).w, Left(w, f, s);
    WalkEchoes(x, s.ids, s.gaps, f, |s.ids|);
    EchoesGrow(Replayed(w, f, s).out, History(v), History(y));
    KnownLogged(y);
    OwnEchoes(History(y), |History(w)|);
  }

  lemma OwnEchoes(h: seq<Record>, a: nat)
    requires Counted(h, |h|) && a <= |h|
    ensures AllEcho(h[a..], h)
  {
    hide VersionOf, Lifted;
  }

  // --- many sessions ------------------------------------------------------------------------------

  // A leader and one follower: what the follower holds and the sequence number it is at.
  datatype Link = Link(w: World, t: Table, f: nat)

  datatype Deed =
    | Leading(a: Action)                                              // the leader takes a step
    | Forgetting(ks: set<Bytes>)                                      // the follower merges
    | Streamed(s: Session)                                            // a log replay session
    | Copied(es: seq<Event>, cut: nat, forgets: seq<set<Bytes>>)      // a snapshot session

  ghost function Do(l: Link, d: Deed): Link {
    match d
    case Leading(a) => if a.Reboot? then l else l.(w := Runs.Next(l.w, a))
    case Forgetting(ks) => l.(t := Forget(l.t, ks))
    case Streamed(s) =>
      if Possible(l.w, l.f, s) && |Sent(l.w, l.f, s)| < |s.forgets| then
        var rs := Sent(l.w, l.f, s);
        Link(Left(l.w, l.f, s), Follow(l.t, rs, s.forgets, |rs|), HighestAll(l.f, rs))
      else l
    case Copied(es, cut, forgets) =>
      var p := Events(Pair(l.w, FRESH), es);
      var rs := Upto(Arrived(p, |History(l.w)|), cut);
      if |rs| < |forgets| then Link(p.w, Follow(map[], rs, forgets, |rs|), HighestAll(0, rs)) else l
  }

  // No key goes astray in the session, below the number the follower will resume from.
  ghost predicate Harmless(l: Link, d: Deed) {
    match d
    case Leading(_) => true
    case Forgetting(_) => true
    case Streamed(s) =>
      Possible(l.w, l.f, s) ==>
        var rs := Sent(l.w, l.f, s);
        forall k :: !Astray(l.t, rs, s.forgets, History(Left(l.w, l.f, s)), HighestAll(l.f, rs), k)
    case Copied(es, cut, forgets) =>
      var p := Events(Pair(l.w, FRESH), es);
      var rs := Upto(Arrived(p, |History(l.w)|), cut);
      forall k :: !Astray(map[], rs, forgets, History(p.w), HighestAll(0, rs), k)
  }

  ghost predicate Linked(l: Link) { Inv(l.w) && Known(l.w) && Catchable(l.t, l.f, History(l.w)) }

  lemma LinkedParts(l: Link)
    requires Linked(l)
    ensures Inv(l.w) && Known(l.w) && Catchable(l.t, l.f, History(l.w))
    ensures l.f <= |History(l.w)| && Counted(History(l.w), |History(l.w)|)
  {
    hide Phys, Denotes, Known, History, Faithful, ReceiveAll;
    KnownLogged(l.w);
  }

  lemma LeadingKeeps(l: Link, a: Action)
    requires Linked(l)
    ensures Linked(Do(l, Leading(a)))
  {
    hide Phys, Denotes, Known, Catchable, History, Runs.Next;
    if !a.Reboot? {
      NextInv(l.w, a);
      NextKnown(l.w, a);
      NextHistory(l.w, a);
      KnownLogged(Runs.Next(l.w, a));
      CatchableExtend(l.t, l.f, History(l.w), History(Runs.Next(l.w, a)));
    }
  }

  // A log replay session, cut off anywhere while the leader does anything but restart and the
  // follower merges: the follower can resume from its own number exactly when no key went astray.
  lemma StreamedIff(l: Link, s: Session)
    requires Linked(l) && Possible(l.w, l.f, s) && |Sent(l.w, l.f, s)| < |s.forgets|
    ensures Linked(Do(l, Streamed(s))) <==> Harmless(l, Streamed(s))
  {
    hide Phys, Denotes, Known, Linked, Run, Sent, Replayed, Left, History, Follow, HighestAll, Catchable, Astray,
         Counted, Echoes, Sane;
    LinkedParts(l);
    SessionKnown(l.w, l.f, s);
    SentEchoes(l.w, l.f, s);
    var h, rs := History(Left(l.w, l.f, s)), Sent(l.w, l.f, s);
    KnownLogged(Left(l.w, l.f, s));
    CatchableExtend(l.t, l.f, History(l.w), h);
    CatchableSane(l.t, l.f, h);
    EchoHighest(l.f, rs, h);
    DeliveryIff(l.t, h, rs, s.forgets, HighestAll(l.f, rs));
    LinkedIs(Do(l, Streamed(s)));
  }

  // If the walk skipped no file, that is when no key was revived.
  lemma UnskippedIff(l: Link, s: Session)
    requires Linked(l) && Possible(l.w, l.f, s) && |Sent(l.w, l.f, s)| < |s.forgets| && Unskipped(l.w, l.f, s)
    ensures Harmless(l, Streamed(s))
            <==> forall k :: !Revived(Sent(l.w, l.f, s), s.forgets, History(Left(l.w, l.f, s)), k)
  {
    hide Phys, Denotes, Known, Linked, Run, Delivered, Replayed, Left, History, Follow, Gapless, HighestAll, Catchable,
         Revived, Counted, Harmless, Unskipped;
    LinkedParts(l);
    SessionKnown(l.w, l.f, s);
    DeliveredGapless(l.w, l.f, s);
    var h, rs := History(Left(l.w, l.f, s)), Sent(l.w, l.f, s);
    GaplessPrefix(Delivered(l.w, l.f, s), h, l.f, |rs|);
    CatchableExtend(l.t, l.f, History(l.w), h);
    ResumeIff(l.t, l.f, h, rs, s.forgets);
    LinkedIs(Do(l, Streamed(s)));
    StreamedIff(l, s);
  }

  lemma LinkedIs(l: Link)
    requires Inv(l.w) && Known(l.w)
    ensures Linked(l) <==> Catchable(l.t, l.f, History(l.w))
  {
    hide Phys, Denotes, Known, Catchable;
  }

  // A snapshot session, cut off anywhere: likewise.
  lemma CopiedIff(l: Link, es: seq<Event>, cut: nat, forgets: seq<set<Bytes>>)
    requires Linked(l)
    requires |Upto(Arrived(Events(Pair(l.w, FRESH), es), |History(l.w)|), cut)| < |forgets|
    ensures Linked(Do(l, Copied(es, cut, forgets))) <==> Harmless(l, Copied(es, cut, forgets))
  {
    hide Phys, Denotes, Known, Linked, History, Follow, HighestAll, Catchable, Astray, Counted, Events, Snapping,
         Arrived, Upto, Echoes;
    LinkedParts(l);
    var p, a := Events(Pair(l.w, FRESH), es), |History(l.w)|;
    AttachSnaps(l.w);
    EventsKeep(Pair(l.w, FRESH), a, es);
    SnapParts(p, a);
    ArrivedEcho(p, a, cut);
    var rs := Upto(Arrived(p, a), cut);
    EchoHighest(0, rs, History(p.w));
    DeliveryIff(map[], History(p.w), rs, forgets, HighestAll(0, rs));
    LinkedIs(Do(l, Copied(es, cut, forgets)));
  }

  lemma DoKeeps(l: Link, d: Deed)
    requires Linked(l) && Harmless(l, d)
    ensures Linked(Do(l, d))
  {
    hide Phys, Denotes, Known, Linked, History, Follow, HighestAll, Catchable, Astray, Counted, Events, Arrived, Upto,
         Astray, Sent, Left, Replayed, Run, Forget;
    match d
    case Leading(a) => LeadingKeeps(l, a);
    case Forgetting(ks) =>
      LinkedParts(l);
      ForgetCatchable(l.t, l.f, History(l.w), ks);
      LinkedIs(Do(l, d));
    case Streamed(s) =>
      if Possible(l.w, l.f, s) && |Sent(l.w, l.f, s)| < |s.forgets| {
        StreamedIff(l, s);
      }
    case Copied(es, cut, forgets) =>
      if |Upto(Arrived(Events(Pair(l.w, FRESH), es), |History(l.w)|), cut)| < |forgets| {
        CopiedIff(l, es, cut, forgets);
      }
  }

  ghost function DoAll(l: Link, ds: seq<Deed>): Link {
    if ds == [] then l else Do(DoAll(l, ds[..|ds| - 1]), ds[|ds| - 1])
  }

  ghost predicate AllHarmless(l: Link, ds: seq<Deed>) {
    forall i :: 0 <= i < |ds| ==> Harmless(DoAll(l, ds[..i]), ds[i])
  }

  // Any number of sessions, cut off anywhere, while the leader writes and merges and the follower
  // merges: the follower can always be caught up from the sequence number it is at.
  lemma {:induction false} AlwaysCatchable(l: Link, ds: seq<Deed>)
    requires Linked(l) && AllHarmless(l, ds)
    ensures Linked(DoAll(l, ds))
    decreases |ds|
  {
    hide Linked, Do, Harmless;
    if ds != [] {
      var init := ds[..|ds| - 1];
      assert AllHarmless(l, init) by {
        assert forall i :: 0 <= i < |init| ==> init[..i] == ds[..i];
      }
      AlwaysCatchable(l, init);
      DoKeeps(DoAll(l, init), ds[|ds| - 1]);
    }
  }

  // A follower that does not merge during the session resumes wherever it is cut off.
  lemma PlainHarmless(l: Link, s: Session)
    requires Linked(l) && Possible(l.w, l.f, s) && Unskipped(l.w, l.f, s) && |Sent(l.w, l.f, s)| < |s.forgets|
    requires forall i :: 0 <= i < |s.forgets| ==> s.forgets[i] == {}
    ensures Harmless(l, Streamed(s))
  {
    hide Linked, Possible, Run, Replayed, Sent, Left, History, Last, Tomb, Unskipped, Harmless;
    UnskippedIff(l, s);
  }

  // So does one that merges, if it is sent everything and no merge of the leader had outputs when
  // the files were listed.
  lemma DrainedHarmless(l: Link, s: Session)
    requires Linked(l) && Possible(l.w, l.f, s) && Unskipped(l.w, l.f, s) && |Delivered(l.w, l.f, s)| < |s.forgets|
    requires |Delivered(l.w, l.f, s)| <= s.cut && Run(l.w, s.before).db.merge.outs == []
    ensures Harmless(l, Streamed(s))
  {
    hide Phys, Denotes, Known, Linked, Run, Walked, History, Gapless, HighestAll, Revived, Counted, Skips, Harmless;
    LinkedParts(l);
    SessionKnown(l.w, l.f, s);
    DeliveredGapless(l.w, l.f, s);
    var x, v, h := Run(l.w, s.before), Replayed(l.w, l.f, s).w, History(Left(l.w, l.f, s));
    KnownLogged(x);
    WalkGapless(x, s.ids, s.gaps, l.f);
    var to, a := HighestAll(l.f, Replayed(l.w, l.f, s).out), |History(l.w)|;
    assert History(v)[l.f..to] == h[l.f..to];
    assert Sent(l.w, l.f, s) == h[l.f..to] + h[a..];
    forall k ensures !Revived(Sent(l.w, l.f, s), s.forgets, h, k) {
      DrainedRevivesNone(h, l.f, to, a, s.forgets, k);
    }
    UnskippedIff(l, s);
  }

  // What a client reads from the follower is what it would read from the leader.
  ghost predicate InStep(l: Link) { LiveOf(l.t) == View(l.w.db.index, l.w.ledger) }

  lemma FaithfulInStep(l: Link)
    requires Inv(l.w) && Known(l.w) && Faithful(l.t, History(l.w))
    ensures InStep(l)
  {
    hide Phys, Denotes, Known, Flat, Faithful, View, Fold;
    KnownLogged(l.w);
    InvDenotes(l.w);
    FaithfulLive(l.t, History(l.w));
  }

  // A harmless session that brings the follower to the leader's number brings the two into step.
  lemma StreamedInStep(l: Link, s: Session)
    requires Linked(l) && Possible(l.w, l.f, s) && |Sent(l.w, l.f, s)| < |s.forgets| && Harmless(l, Streamed(s))
    requires HighestAll(l.f, Sent(l.w, l.f, s)) == |History(Left(l.w, l.f, s))|
    ensures InStep(Do(l, Streamed(s)))
  {
    hide Phys, Denotes, Known, Linked, Run, Sent, Replayed, Left, History, Follow, HighestAll, Counted, InStep,
         Catchable, Faithful, Harmless;
    StreamedIff(l, s);
    var m := Do(l, Streamed(s));
    LinkedParts(m);
    CatchableDone(m.t, History(m.w));
    FaithfulInStep(m);
  }

  // A session that is drained does, if its walk skipped no file.
  lemma DrainedArrives(l: Link, s: Session)
    requires Linked(l) && Possible(l.w, l.f, s) && Unskipped(l.w, l.f, s) && |Delivered(l.w, l.f, s)| <= s.cut
    ensures HighestAll(l.f, Sent(l.w, l.f, s)) == |History(Left(l.w, l.f, s))|
  {
    hide Phys, Denotes, Known, Linked, Run, Delivered, Replayed, Left, History, Gapless, HighestAll, Counted, Unskipped;
    LinkedParts(l);
    DeliveredGapless(l.w, l.f, s);
    assert Sent(l.w, l.f, s) == Delivered(l.w, l.f, s);
  }

  // A snapshot session that is finished and drained brings the two into step if and only if no key
  // was skipped for good; then the follower can resume as well.
  lemma CopiedInStep(l: Link, es: seq<Event>, cut: nat, forgets: seq<set<Bytes>>)
    requires Linked(l) && Done(Events(Pair(l.w, FRESH), es))
    requires var n := |Arrived(Events(Pair(l.w, FRESH), es), |History(l.w)|)|; n <= cut && n < |forgets|
    ensures var p := Events(Pair(l.w, FRESH), es);
            && (InStep(Do(l, Copied(es, cut, forgets))) <==> forall k :: !Missed(p, |History(l.w)|, k))
            && (InStep(Do(l, Copied(es, cut, forgets))) ==> Harmless(l, Copied(es, cut, forgets)))
  {
    hide Phys, Denotes, Known, Linked, History, Follow, HighestAll, Catchable, Astray, Counted, Events, Snapping,
         Arrived, Done, Faithful, InStep, Missed, Settled, Harmless, Echoes;
    LinkedParts(l);
    var p, a := Events(Pair(l.w, FRESH), es), |History(l.w)|;
    SessionSettled(l.w, es);
    SnapParts(p, a);
    SnapshotConverges(p, a, forgets);
    assert Upto(Arrived(p, a), cut) == Arrived(p, a);
    var m := Do(l, Copied(es, cut, forgets));
    if forall k :: !Missed(p, a, k) {
      FaithfulInStep(m);
      ArrivedEcho(p, a, cut);
      EchoHighest(0, Arrived(p, a), History(p.w));
      FaithfulCatchable(m.t, m.f, History(m.w));
      LinkedIs(m);
      CopiedIff(l, es, cut, forgets);
    } else {
      var k :| Missed(p, a, k);
      MissedBehind(p, a, forgets, k);
      NotInStep(m, k);
    }
  }

  lemma SessionSettled(w: World, es: seq<Event>)
    requires Inv(w) && Known(w)
    ensures var p := Events(Pair(w, FRESH), es); Snapping(p, |History(w)|) && Settled(p.s)
  {
    hide Phys, Denotes, Known, History, Events, Snapping, Settled;
    AttachSnaps(w);
    FreshSettled();
    EventsKeep(Pair(w, FRESH), |History(w)|, es);
    EventsSettle(Pair(w, FRESH), |History(w)|, es);
  }

  // The leader serves such a key, and the follower has never heard of it.
  lemma MissedBehind(p: Pair, a: nat, fs: seq<set<Bytes>>, k: Bytes)
    requires Snapping(p, a) && Settled(p.s) && Missed(p, a, k) && |Arrived(p, a)| < |fs|
    ensures k in View(p.w.db.index, p.w.ledger) && k !in Follow(map[], Arrived(p, a), fs, |Arrived(p, a)|)
  {
    hide Snapping, Settled, Arrived, Follow, History, Phys, Denotes, Known, Resting, View;
    SnapParts(p, a);
    MissedSilent(p, a, k);
    FollowSilent(Arrived(p, a), fs, k, |Arrived(p, a)|);
    var i: nat :| Resting(History(p.w), a, k, i);
    RestingIndexed(p.w, a, k, i);
    ServedLive(p.w, k);
  }

  lemma ServedLive(w: World, k: Bytes)
    requires Inv(w) && k in w.db.index && !w.db.index[k].tomb
    ensures k in View(w.db.index, w.ledger)
  {
    hide Phys, Denotes, Sound;
    PhysParts(w);
    IndexLedgered(w.db, w.ledger);
  }

  lemma {:induction false} FollowSilent(rs: seq<Record>, fs: seq<set<Bytes>>, k: Bytes, n: nat)
    requires n <= |rs| < |fs| && forall c :: 0 <= c < |rs| ==> rs[c].key != k
    ensures k !in Follow(map[], rs, fs, n)
    decreases n
  {
    if n > 0 {
      FollowSilent(rs, fs, k, n - 1);
    }
  }

  lemma NotInStep(l: Link, k: Bytes)
    requires k in View(l.w.db.index, l.w.ledger) && k !in l.t
    ensures !InStep(l)
  {
    hide View;
  }

  // A follower that has never heard anything.
  lemma NewFollower(w: World)
    requires Inv(w) && Known(w)
    ensures Linked(Link(w, map[], 0))
  {
    hide Phys, Denotes, Known, History, Catchable, Follow;
    KnownLogged(w);
    GaplessNone(History(w), 0);
    DeliveryIff(map[], History(w), [], [{}], 0);
    FollowNone();
  }

  lemma FollowNone()
    ensures Follow(map[], [], [{}], 0) == map[]
  {
  }
}
