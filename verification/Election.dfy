/** Failover: one election round, announcements, and who ends up leading. */
module Election {
  import opened Bytes

  datatype Role = Leader | Follower

  datatype VoteReply = VoteReply(id: Bytes, role: Role, epoch: nat, sn: nat, leaderAddr: Bytes, leaderAlive: bool)

  // A peer either answered or could not be reached.
  type Answers = seq<Option<VoteReply>>

  datatype View = View(role: Role, epoch: nat, leaderAddr: Bytes, wasLeader: bool)

  // --- one round ---------------------------------------------------------------------------------

  // The highest epoch seen in the first n answers, starting from one's own.
  function EpochSeen(epoch: nat, answers: Answers, n: nat): nat
    requires n <= |answers|
  {
    if n == 0 then epoch
    else
      var e := EpochSeen(epoch, answers, n - 1);
      match answers[n - 1] case None => e case Some(r) => Max(e, r.epoch)
  }

  function Heard(answers: Answers, n: nat): nat
    requires n <= |answers|
  {
    if n == 0 then 1 else Heard(answers, n - 1) + (if answers[n - 1].Some? then 1 else 0)
  }

  // Someone already leads, at an epoch not older than any heard so far.
  predicate Leading(r: VoteReply, seen: nat) { r.role == Leader && r.epoch >= seen }

  // Someone still hears the old leader.
  predicate Hears(r: VoteReply) { r.leaderAlive && r.leaderAddr != [] }

  // Further ahead, or level with a lower id.
  predicate Outranks(sn: nat, id: Bytes, mySn: nat, myID: Bytes) { sn > mySn || (sn == mySn && Less(id, myID)) }

  ghost predicate Yields(epoch: nat, answers: Answers, i: nat)
    requires i < |answers|
  {
    answers[i].Some? && (Leading(answers[i].value, EpochSeen(epoch, answers, i)) || Hears(answers[i].value))
  }

  ghost predicate FirstYield(epoch: nat, answers: Answers, i: nat) {
    i < |answers| && Yields(epoch, answers, i) && forall j :: 0 <= j < i ==> !Yields(epoch, answers, j)
  }

  // No answer makes the candidate stand down, a strict majority answered, nobody who did
  // outranks it.
  ghost predicate Wins(epoch: nat, mySn: nat, myID: Bytes, answers: Answers) {
    && (forall i :: 0 <= i < |answers| ==> !Yields(epoch, answers, i))
    && 2 * Heard(answers, |answers|) > |answers| + 1
    && (forall i :: 0 <= i < |answers| && answers[i].Some? ==>
          !Outranks(answers[i].value.sn, answers[i].value.id, mySn, myID))
  }

  lemma NoAnswer(epoch: nat, answers: Answers)
    ensures Heard(answers, 0) == 1 && EpochSeen(epoch, answers, 0) == epoch
  {
  }

  // One answer further.
  lemma NextAnswer(epoch: nat, answers: Answers, i: nat)
    requires i < |answers|
    ensures var r, seen := answers[i], EpochSeen(epoch, answers, i);
            && Heard(answers, i + 1) == Heard(answers, i) + (if r.Some? then 1 else 0)
            && EpochSeen(epoch, answers, i + 1) == (if r.Some? then Max(seen, r.value.epoch) else seen)
            && (Yields(epoch, answers, i) <==>
                  r.Some? && ((r.value.role == Leader && r.value.epoch >= seen)
                              || (r.value.leaderAlive && r.value.leaderAddr != [])))
  {
  }

  // The peers that answered.
  ghost function Answered(answers: Answers): (s: set<nat>)
    ensures forall i :: i in s <==> 0 <= i < |answers| && answers[i].Some?
  {
    set i | 0 <= i < |answers| && answers[i].Some?
  }

  lemma {:induction false} HeardCounts(answers: Answers, n: nat)
    requires n <= |answers|
    ensures Heard(answers, n) == 1 + |Answered(answers[..n])|
    decreases n
  {
    hide Answered;
    if n == 0 {
      assert Answered(answers[..0]) == {};
    } else {
      HeardCounts(answers, n - 1);
      var s, t := Answered(answers[..n]), Answered(answers[..n - 1]);
      assert s - {n - 1} == t && (n - 1 in s <==> answers[n - 1].Some?);
    }
  }

  // One above the highest epoch of the round.
  ghost predicate OneAbove(epoch: nat, answers: Answers, e: nat) {
    && epoch < e && (forall i :: 0 <= i < |answers| && answers[i].Some? ==> answers[i].value.epoch < e)
    && (e == epoch + 1 || exists i :: 0 <= i < |answers| && answers[i].Some? && e == answers[i].value.epoch + 1)
  }

  lemma WinnerEpoch(epoch: nat, answers: Answers)
    ensures OneAbove(epoch, answers, EpochSeen(epoch, answers, |answers|) + 1)
  {
    EpochSeenHighest(epoch, answers, |answers|);
    EpochSeenGrows(epoch, answers, |answers|);
    forall i | 0 <= i < |answers| && answers[i].Some?
      ensures answers[i].value.epoch <= EpochSeen(epoch, answers, |answers|)
    {
      EpochSeenAbove(epoch, answers, |answers|, i);
    }
  }

  // The highest epoch seen is one's own or that of an answer, and none is higher.
  lemma {:induction false} EpochSeenHighest(epoch: nat, answers: Answers, n: nat)
    requires n <= |answers|
    ensures EpochSeen(epoch, answers, n) == epoch
            || exists i :: 0 <= i < n && answers[i].Some? && answers[i].value.epoch == EpochSeen(epoch, answers, n)
    decreases n
  {
    if n > 0 {
      EpochSeenHighest(epoch, answers, n - 1);
    }
  }

  // A leader that does not make the candidate stand down: a higher epoch was known before it answered.
  ghost predicate Stale(epoch: nat, answers: Answers, i: nat)
    requires i < |answers| && answers[i].Some?
  {
    var e := answers[i].value.epoch;
    e < epoch || exists j :: 0 <= j < i && answers[j].Some? && e < answers[j].value.epoch
  }

  lemma StaleIff(epoch: nat, answers: Answers, i: nat)
    requires i < |answers| && answers[i].Some?
    ensures answers[i].value.epoch < EpochSeen(epoch, answers, i) <==> Stale(epoch, answers, i)
  {
    EpochSeenHighest(epoch, answers, i);
    EpochSeenGrows(epoch, answers, i);
    forall j | 0 <= j < i && answers[j].Some? ensures answers[j].value.epoch <= EpochSeen(epoch, answers, i) {
      EpochSeenAbove(epoch, answers, i, j);
    }
  }

  // An answer that does not stand in the way: no current leader, no leader it hears, not further
  // ahead, and not level under a lower id.
  ghost predicate Clear(epoch: nat, mySn: nat, myID: Bytes, answers: Answers, i: nat)
    requires i < |answers| && answers[i].Some?
  {
    var r := answers[i].value;
    && (r.role == Leader ==> Stale(epoch, answers, i))
    && (r.leaderAlive ==> r.leaderAddr == [])
    && (r.sn < mySn || (r.sn == mySn && !Less(r.id, myID)))
  }

  lemma ClearIff(epoch: nat, mySn: nat, myID: Bytes, answers: Answers, i: nat)
    requires i < |answers| && answers[i].Some?
    ensures Clear(epoch, mySn, myID, answers, i) <==>
              !Yields(epoch, answers, i) && !Outranks(answers[i].value.sn, answers[i].value.id, mySn, myID)
  {
    hide Less, Stale, EpochSeen;
    StaleIff(epoch, answers, i);
  }

  // What it takes to win, answer by answer.
  lemma WinsIff(epoch: nat, mySn: nat, myID: Bytes, answers: Answers)
    ensures Wins(epoch, mySn, myID, answers) <==>
              && 2 * (1 + |Answered(answers)|) > |answers| + 1
              && forall i :: 0 <= i < |answers| && answers[i].Some? ==> Clear(epoch, mySn, myID, answers, i)
  {
    hide Clear, Outranks, Heard, Answered, EpochSeen;
    HeardCounts(answers, |answers|);
    assert answers[..|answers|] == answers;
    forall i | 0 <= i < |answers| && answers[i].Some?
      ensures Clear(epoch, mySn, myID, answers, i) <==>
                !Yields(epoch, answers, i) && !Outranks(answers[i].value.sn, answers[i].value.id, mySn, myID)
    {
      ClearIff(epoch, mySn, myID, answers, i);
    }
  }

  lemma {:induction false} EpochSeenAbove(epoch: nat, answers: Answers, n: nat, i: nat)
    requires i < n <= |answers| && answers[i].Some?
    ensures epoch <= EpochSeen(epoch, answers, n) && answers[i].value.epoch <= EpochSeen(epoch, answers, n)
    decreases n
  {
    if i < n - 1 {
      EpochSeenAbove(epoch, answers, n - 1, i);
    } else {
      EpochSeenGrows(epoch, answers, n - 1);
    }
  }

  lemma {:induction false} EpochSeenGrows(epoch: nat, answers: Answers, n: nat)
    requires n <= |answers|
    ensures epoch <= EpochSeen(epoch, answers, n)
    decreases n
  {
    if n > 0 {
      EpochSeenGrows(epoch, answers, n - 1);
    }
  }

  class Node {
    const id: Bytes
    const addr: Bytes
    var role: Role
    var epoch: nat
    var leaderAddr: Bytes
    var wasLeader: bool

    ghost function Seen(): View
      reads this
    {
      View(role, epoch, leaderAddr, wasLeader)
    }

    constructor (id: Bytes, addr: Bytes, role: Role, epoch: nat, leaderAddr: Bytes)
      ensures this.id == id && this.addr == addr && Seen() == View(role, epoch, leaderAddr, false)
    {
      this.id, this.addr, this.role, this.epoch, this.leaderAddr, wasLeader := id, addr, role, epoch, leaderAddr, false;
    }

    method AdoptLeader(at: Bytes, e: nat)
      modifies this`leaderAddr, this`epoch
      ensures leaderAddr == at && epoch == Max(old(epoch), e)
    {
      leaderAddr := at;
      if e > epoch {
        epoch := e;
      }
    }

    method PromoteTo(e: nat)
      modifies this
      ensures Seen() == if old(role) == Leader && old(epoch) >= e then old(Seen())
                        else View(Leader, e, addr, old(wasLeader))
    {
      if role == Leader && epoch >= e {
        return;
      }
      role, leaderAddr, epoch := Leader, addr, e;
    }

    // Asks every peer in turn, and stands down at the first sign of a leader.
    method StartElection(mySn: nat, peers: seq<Bytes>, answers: Answers) returns (promoted: bool)
      requires |peers| == |answers|
      modifies this
      ensures old(role) == Leader ==> !promoted && Seen() == old(Seen())
      ensures old(role) == Follower ==>
                (promoted <==>
                   && 2 * (1 + |Answered(answers)|) > |answers| + 1
                   && forall i :: 0 <= i < |answers| && answers[i].Some? ==> Clear(old(epoch), mySn, id, answers, i))
      ensures promoted ==>
                forall i :: 0 <= i < |answers| && answers[i].Some? ==>
                  answers[i].value.sn < mySn || (answers[i].value.sn == mySn && !Less(answers[i].value.id, id))
      ensures promoted ==> Wins(old(epoch), mySn, id, answers) && Seen() == View(Leader, epoch, addr, old(wasLeader))
      ensures promoted ==> OneAbove(old(epoch), answers, epoch)
      ensures forall i: nat :: old(role) == Follower && FirstYield(old(epoch), answers, i) ==>
                var r, seen := answers[i].value, EpochSeen(old(epoch), answers, i);
                var at := if r.role == Leader && r.epoch >= seen then peers[i] else r.leaderAddr;
                Seen() == View(Follower, if r.epoch > seen then r.epoch else seen, at, old(wasLeader))
      ensures !promoted && (forall i :: 0 <= i < |answers| ==> !Yields(old(epoch), answers, i)) ==>
                Seen() == old(Seen())
    {
      hide Less, Clear, OneAbove, Answered, Leading, Hears, Heard, EpochSeen;
      promoted := false;
      if role == Leader {
        return;
      }
      WinsIff(epoch, mySn, id, answers);
      NoAnswer(epoch, answers);
      var responses, best, seen := 1, true, epoch;
      for i := 0 to |answers|
        invariant role == Follower && Seen() == old(Seen())
        invariant responses == Heard(answers, i) && seen == EpochSeen(epoch, answers, i)
        invariant forall j :: 0 <= j < i ==> !Yields(epoch, answers, j)
        invariant best <==> forall j :: 0 <= j < i && answers[j].Some? ==>
                    !Outranks(answers[j].value.sn, answers[j].value.id, mySn, id)
      {
        NextAnswer(epoch, answers, i);
        match answers[i]
        case None =>
        case Some(r) =>
          responses := responses + 1;
          if r.role == Leader && r.epoch >= seen {
            assert FirstYield(epoch, answers, i);
            EpochSeenGrows(epoch, answers, i);
            AdoptLeader(peers[i], r.epoch);
            return;
          }
          if r.leaderAlive && r.leaderAddr != [] {
            assert FirstYield(epoch, answers, i);
            EpochSeenGrows(epoch, answers, i);
            AdoptLeader(r.leaderAddr, Max(r.epoch, seen));
            return;
          }
          if r.sn > mySn || (r.sn == mySn && Less(r.id, id)) {
            best := false;
          }
          seen := Max(seen, r.epoch);
      }
      if responses * 2 <= |answers| + 1 {
        return;
      }
      if !best {
        return;
      }
      WinnerEpoch(epoch, answers);
      PromoteTo(seen + 1);
      promoted := true;
    }

    // A new leader makes itself known. Only a higher epoch is believed.
    method HandleAnnounce(at: Bytes, e: nat)
      modifies this
      ensures Seen() == Announced(old(Seen()), Announcement(at, e))
    {
      if e <= epoch {
        return;
      }
      if role == Leader {
        wasLeader := true;
      }
      role, leaderAddr, epoch := Follower, at, e;
    }
  }

  // --- what a round guarantees -----------------------------------------------------------------------

  // The nodes behind a round: the candidate and those that answered it.
  ghost function Voters(id: Bytes, answers: Answers): set<Bytes> {
    {id} + set i | i in Answered(answers) :: answers[i].value.id
  }

  // Every peer answers under a name of its own.
  ghost predicate Named(id: Bytes, answers: Answers) {
    && (forall i :: 0 <= i < |answers| && answers[i].Some? ==> answers[i].value.id != id)
    && (forall i, j :: 0 <= i < j < |answers| && answers[i].Some? && answers[j].Some? ==>
          answers[i].value.id != answers[j].value.id)
  }

  // Two winners in one cluster were heard by a node they share.
  lemma SharedVoter(members: set<Bytes>, ea: nat, eb: nat, sa: nat, sb: nat, a: Bytes, b: Bytes, toA: Answers,
                    toB: Answers)
    requires Wins(ea, sa, a, toA) && Wins(eb, sb, b, toB) && Named(a, toA) && Named(b, toB)
    requires Voters(a, toA) <= members && Voters(b, toB) <= members
    requires |members| == |toA| + 1 == |toB| + 1
    ensures Voters(a, toA) * Voters(b, toB) != {}
  {
    hide Yields, Less;
    VotersCount(a, toA);
    VotersCount(b, toB);
    Overlap(members, Voters(a, toA), Voters(b, toB));
  }

  lemma VotersCount(id: Bytes, answers: Answers)
    requires Named(id, answers)
    ensures |Voters(id, answers)| == Heard(answers, |answers|)
  {
    HeardCounts(answers, |answers|);
    assert answers[..|answers|] == answers;
    Images(answers, Answered(answers));
    var names := set i | i in Answered(answers) :: answers[i].value.id;
    assert id !in names;
    assert |{id} + names| == 1 + |names|;
  }

  lemma {:induction false} Images(answers: Answers, s: set<nat>)
    requires s <= Answered(answers)
    requires forall i, j :: 0 <= i < j < |answers| && answers[i].Some? && answers[j].Some? ==>
               answers[i].value.id != answers[j].value.id
    ensures |set i | i in s :: answers[i].value.id| == |s|
    decreases |s|
  {
    var names := set i | i in s :: answers[i].value.id;
    if s == {} {
      assert names == {};
    } else {
      var i :| i in s;
      Images(answers, s - {i});
      var fewer := set j | j in s - {i} :: answers[j].value.id;
      assert names == fewer + {answers[i].value.id};
      assert answers[i].value.id !in fewer;
    }
  }

  lemma Overlap<T>(m: set<T>, a: set<T>, b: set<T>)
    requires a <= m && b <= m && 2 * |a| > |m| && 2 * |b| > |m|
    ensures a * b != {}
  {
    if a * b == {} {
      assert |a + b| == |a| + |b|;
      Within(a + b, m);
    }
  }

  lemma {:induction false} Within<T>(a: set<T>, m: set<T>)
    requires a <= m
    ensures |a| <= |m|
    decreases |a|
  {
    if a != {} {
      var x :| x in a;
      Within(a - {x}, m - {x});
    }
  }

  // Two candidates with distinct ids that each heard the other cannot both win.
  lemma NoTwoWinners(ea: nat, eb: nat, sa: nat, sb: nat, a: Bytes, b: Bytes, toA: Answers, toB: Answers, i: nat, j: nat)
    requires a != b && i < |toA| && j < |toB| && toA[i].Some? && toB[j].Some?
    requires toA[i].value.id == b && toA[i].value.sn == sb && toB[j].value.id == a && toB[j].value.sn == sa
    ensures !(Wins(ea, sa, a, toA) && Wins(eb, sb, b, toB))
  {
    LessTrichotomy(a, b);
    assert Outranks(sb, b, sa, a) || Outranks(sa, a, sb, b);
  }

  // --- announcements --------------------------------------------------------------------------------

  datatype Announcement = Announcement(addr: Bytes, epoch: nat)

  function Announced(v: View, a: Announcement): View {
    if a.epoch <= v.epoch then v
    else View(Follower, a.epoch, a.addr, v.wasLeader || v.role == Leader)
  }

  function AnnouncedAll(v: View, ms: seq<Announcement>): View {
    if ms == [] then v else Announced(AnnouncedAll(v, ms[..|ms| - 1]), ms[|ms| - 1])
  }

  // An epoch names one leader.
  ghost predicate Distinct(ms: seq<Announcement>) { forall m, n :: m in ms && n in ms && m.epoch == n.epoch ==> m == n }

  // The view after any announcements: the highest one heard, if it is above one's own epoch.
  lemma {:induction false} AnnouncedHighest(v: View, ms: seq<Announcement>)
    ensures var w := AnnouncedAll(v, ms);
            && v.epoch <= w.epoch && (forall m :: m in ms ==> m.epoch <= w.epoch)
            && (if w.epoch == v.epoch then w == v
                else w.role == Follower && w.wasLeader == (v.wasLeader || v.role == Leader)
                     && Announcement(w.leaderAddr, w.epoch) in ms)
  {
    if ms != [] {
      AnnouncedHighest(v, ms[..|ms| - 1]);
    }
  }

  // Every node that hears the same announcements, in any order and any number of times, ends up
  // with the same leader and epoch.
  lemma AnyOrder(v: View, ms: seq<Announcement>, ns: seq<Announcement>)
    requires Distinct(ms) && forall m :: m in ms <==> m in ns
    ensures AnnouncedAll(v, ms) == AnnouncedAll(v, ns)
  {
    AnnouncedHighest(v, ms);
    AnnouncedHighest(v, ns);
  }

  // Nodes at different epochs agree too, once something above both has been announced.
  lemma SameLeader(u: View, v: View, ms: seq<Announcement>, ns: seq<Announcement>, m: Announcement)
    requires Distinct(ms) && (forall x :: x in ms <==> x in ns) && m in ms && u.epoch < m.epoch && v.epoch < m.epoch
    ensures AnnouncedAll(u, ms).leaderAddr == AnnouncedAll(v, ns).leaderAddr
    ensures AnnouncedAll(u, ms).epoch == AnnouncedAll(v, ns).epoch
  {
    AnnouncedHighest(u, ms);
    AnnouncedHighest(v, ns);
  }
}
