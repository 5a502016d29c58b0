/** What a follower holds while records arrive and its own merges forget tombstones, and
    exactly when it can resume from its own sequence number. */
module Following {
  import opened Bytes
  import opened Records
  import opened Writing
  import opened Versions

  // --- tables and histories ---------------------------------------------------------------------

  // The newest version of every key in a history.
  function Summary(h: seq<Record>): Table { ReceiveAll(map[], h) }

  // Record i is the last one of key k.
  ghost predicate Last(h: seq<Record>, k: Bytes, i: nat) {
    i < |h| && h[i].key == k && forall j :: i < j < |h| ==> h[j].key != k
  }

  // t holds the newest version of k. Of a deleted key it may hold an older tombstone, or nothing.
  ghost predicate FaithfulAt(t: Table, h: seq<Record>, k: Bytes) {
    var s := Summary(h);
    && (k in t ==> k in s && (t[k] == s[k] || (t[k].tomb && s[k].tomb && t[k].sn < s[k].sn)))
    && (k !in t && k in s ==> s[k].tomb)
  }

  ghost predicate Faithful(t: Table, h: seq<Record>) { forall k :: FaithfulAt(t, h, k) }

  // A follower at position f that will be faithful once it has received the rest.
  ghost predicate Catchable(t: Table, f: nat, h: seq<Record>) { f <= |h| && Faithful(ReceiveAll(t, h[f..]), h) }

  lemma SummaryHolds(h: seq<Record>, k: Bytes)
    ensures k in Summary(h) <==> exists r :: r in h && r.key == k
  {
    hide ReceiveAll;
    ReceiveAllWins(map[], h);
  }

  lemma LastOf(h: seq<Record>, k: Bytes) returns (i: nat)
    requires Counted(h, |h|) && k in Summary(h)
    ensures Last(h, k, i)
  {
    hide ReceiveAll;
    ReceiveAllWins(map[], h);
    var v := Summary(h)[k];
    assert Wins(map[], h, k, v);
    var r :| r in h && r.key == k && VersionOf(r) == v;
    i :| 0 <= i < |h| && h[i] == r;
  }

  lemma SummaryLast(h: seq<Record>, k: Bytes, i: nat)
    requires Counted(h, |h|) && Last(h, k, i)
    ensures k in Summary(h) && Summary(h)[k] == VersionOf(h[i])
  {
    hide ReceiveAll, Tomb;
    SummaryHolds(h, k);
    ReceiveAllWins(map[], h);
    assert Wins(map[], h, k, Summary(h)[k]);
  }

  // A faithful follower serves the leader's live map.
  lemma FaithfulLive(t: Table, h: seq<Record>)
    requires Faithful(t, h) && Counted(h, |h|)
    ensures LiveOf(t) == Fold(map[], h)
  {
    hide ReceiveAll, Faithful;
    var s := Summary(h);
    forall k ensures k in LiveOf(t) <==> k in LiveOf(s) {
      FaithfulOf(t, h, k);
    }
    forall k | k in LiveOf(t) ensures LiveOf(t)[k] == LiveOf(s)[k] {
      FaithfulOf(t, h, k);
    }
    assert LiveOf(t) == LiveOf(s);
    ReceiveAscending(map[], h);
    assert LiveOf(map[]) == map[];
  }

  lemma FaithfulOf(t: Table, h: seq<Record>, k: Bytes)
    requires Faithful(t, h)
    ensures FaithfulAt(t, h, k)
  {
  }

  // --- catching up, key by key ---------------------------------------------------------------------

  // Nothing newer than v, and nothing else with its number.
  ghost predicate NoNewer(t: Table, k: Bytes, v: Version) { k in t ==> t[k].sn < v.sn || t[k] == v }

  ghost predicate NoneNewer(rs: seq<Record>, k: Bytes, v: Version) {
    forall c :: 0 <= c < |rs| && rs[c].key == k ==> rs[c].sn < v.sn || VersionOf(rs[c]) == v
  }

  // What t must hold of key k, whose last record is i, for a follower at f.
  ghost predicate Suits(t: Table, f: nat, h: seq<Record>, k: Bytes, i: nat)
    requires i < |h|
  {
    if i < f then FaithfulAt(t, h, k) else NoNewer(t, k, VersionOf(h[i]))
  }

  lemma RestOf(t: Table, f: nat, h: seq<Record>, k: Bytes, i: nat)
    requires Counted(h, |h|) && f <= |h| && Last(h, k, i)
    ensures FaithfulAt(ReceiveAll(t, h[f..]), h, k) <==> Suits(t, f, h, k, i)
  {
    hide ReceiveAll, Tomb;
    var u, v := ReceiveAll(t, h[f..]), VersionOf(h[i]);
    ReceiveAllWins(t, h[f..]);
    SummaryLast(h, k, i);
    if i < f {
      assert forall r :: r in h[f..] ==> r.key != k;
      assert k in u ==> Wins(t, h[f..], k, u[k]);
    } else {
      assert h[f..][i - f] == h[i];
      assert Wins(t, h[f..], k, u[k]);
      if k in t && t[k].sn >= v.sn {
        HeldStays(t, h[f..], k);
      }
    }
  }

  lemma RestOfNone(t: Table, f: nat, h: seq<Record>, k: Bytes)
    requires f <= |h| && k !in Summary(h)
    ensures FaithfulAt(ReceiveAll(t, h[f..]), h, k) <==> k !in t
  {
    hide ReceiveAll;
    SummaryHolds(h, k);
    ReceiveAllWins(t, h[f..]);
  }

  // Catchable, key by key.
  ghost predicate Suited(t: Table, f: nat, h: seq<Record>, k: Bytes) {
    && (k !in Summary(h) ==> k !in t)
    && forall i: nat :: Last(h, k, i) ==> Suits(t, f, h, k, i)
  }

  lemma SuitedAt(t: Table, f: nat, h: seq<Record>, k: Bytes)
    requires Counted(h, |h|) && f <= |h|
    ensures Suited(t, f, h, k) <==> FaithfulAt(ReceiveAll(t, h[f..]), h, k)
  {
    hide ReceiveAll, Summary, Suits, FaithfulAt;
    if k in Summary(h) {
      var i := LastOf(h, k);
      RestOf(t, f, h, k, i);
      assert forall j: nat :: Last(h, k, j) ==> j == i;
    } else {
      RestOfNone(t, f, h, k);
      forall i: nat ensures !Last(h, k, i) {
        if Last(h, k, i) {
          SummaryLast(h, k, i);
        }
      }
    }
  }

  lemma CatchableIsSuited(t: Table, f: nat, h: seq<Record>)
    requires Counted(h, |h|) && f <= |h|
    ensures Catchable(t, f, h) <==> forall k :: Suited(t, f, h, k)
  {
    hide ReceiveAll, Suited, FaithfulAt;
    forall k ensures Suited(t, f, h, k) <==> FaithfulAt(ReceiveAll(t, h[f..]), h, k) {
      SuitedAt(t, f, h, k);
    }
  }

  // A faithful follower can be caught up from any position.
  lemma FaithfulCatchable(t: Table, f: nat, h: seq<Record>)
    requires Faithful(t, h) && f <= |h| && Counted(h, |h|)
    ensures Catchable(t, f, h)
  {
    hide ReceiveAll, Summary, Faithful, Catchable, Tomb;
    CatchableIsSuited(t, f, h);
    forall k ensures Suited(t, f, h, k) {
      FaithfulOf(t, h, k);
      forall i: nat | Last(h, k, i) ensures Suits(t, f, h, k, i) {
        SummaryLast(h, k, i);
      }
    }
  }

  lemma CatchableDone(t: Table, h: seq<Record>)
    requires Catchable(t, |h|, h)
    ensures Faithful(t, h)
  {
    hide Faithful;
    assert h[|h|..] == [];
    assert ReceiveAll(t, []) == t;
  }

  // The leader moves on: what could be caught up still can.
  lemma CatchableExtend(t: Table, f: nat, h: seq<Record>, g: seq<Record>)
    requires Catchable(t, f, h) && h <= g && Counted(g, |g|)
    ensures Catchable(t, f, g)
  {
    hide ReceiveAll, Summary, Catchable, Tomb;
    CatchableBelow(t, f, h);
    assert Counted(h, |h|) by {
      assert forall i :: 0 <= i < |h| ==> h[i] == g[i];
    }
    CatchableIsSuited(t, f, h);
    CatchableIsSuited(t, f, g);
    forall k ensures Suited(t, f, g, k) {
      assert Suited(t, f, h, k);
      SuitedExtend(t, f, h, g, k);
    }
  }

  lemma CatchableBelow(t: Table, f: nat, h: seq<Record>)
    requires Catchable(t, f, h)
    ensures f <= |h|
  {
  }

  lemma SuitedExtend(t: Table, f: nat, h: seq<Record>, g: seq<Record>, k: Bytes)
    requires Suited(t, f, h, k) && f <= |h| && h <= g && Counted(g, |g|)
    ensures Suited(t, f, g, k)
  {
    hide ReceiveAll, Summary, Tomb;
    assert Counted(h, |h|) by {
      assert forall i :: 0 <= i < |h| ==> h[i] == g[i];
    }
    if k in Summary(h) {
      var j := LastOf(h, k);
      SummaryLast(h, k, j);
      SummaryHolds(h, k);
      SummaryHolds(g, k);
      assert h[j] == g[j] && g[j] in g;
      forall i: nat | Last(g, k, i) ensures Suits(t, f, g, k, i) {
        SummaryLast(g, k, i);
        assert j <= i;
        assert i < |h| ==> i == j;
      }
    } else {
      forall i: nat | Last(g, k, i) ensures Suits(t, f, g, k, i) {
        if i < |h| {
          assert h[i] in h;
          SummaryHolds(h, k);
        }
      }
    }
  }

  // --- deliveries and forgetting ----------------------------------------------------------------------

  // A merge of the follower's own retires the tombstones of some keys.
  function Forget(t: Table, ks: set<Bytes>): Table { map k | k in t && !(k in ks && t[k].tomb) :: t[k] }

  // The first n records arrive. Before the first, and after each, some tombstones are forgotten.
  function Follow(t: Table, rs: seq<Record>, fs: seq<set<Bytes>>, n: nat): Table
    requires n <= |rs| < |fs|
  {
    if n == 0 then Forget(t, fs[0]) else Forget(Receive(Follow(t, rs, fs, n - 1), rs[n - 1]), fs[n])
  }

  // r is a copy of a record of the history, up to the batch it was written in.
  ghost predicate Echoes(r: Record, h: seq<Record>) {
    && 0 < r.sn <= |h| && Lifted(r) == Lifted(h[r.sn - 1])
    && r.key == h[r.sn - 1].key && VersionOf(r) == VersionOf(h[r.sn - 1])
  }

  // Records of the history after position f, none delivered before the one it follows.
  ghost predicate Gapless(rs: seq<Record>, h: seq<Record>, f: nat) {
    forall c :: 0 <= c < |rs| ==> Echoes(rs[c], h) && f < rs[c].sn <= HighestAll(f, rs[..c]) + 1
  }

  // The record with v's number has been among the first x.
  ghost predicate Seen(rs: seq<Record>, k: Bytes, v: Version, x: nat) {
    exists p :: 0 <= p < |rs| && p < x && rs[p].key == k && rs[p].sn == v.sn
  }

  // Of what arrives of k from x on, q is the newest.
  ghost predicate Ends(rs: seq<Record>, k: Bytes, x: nat, q: nat) {
    x <= q < |rs| && rs[q].key == k && forall c :: x <= c < |rs| && rs[c].key == k ==> rs[c].sn <= rs[q].sn
  }

  // After v was delivered k was forgotten, at x, and of what arrived after that q is the newest.
  ghost predicate Slips(rs: seq<Record>, fs: seq<set<Bytes>>, k: Bytes, v: Version, x: nat, q: nat) {
    |rs| < |fs| && Ends(rs, k, x, q) && k in fs[x] && Seen(rs, k, v, x)
  }

  // The last thing the leader did to k was to delete it. The follower was told, its merge forgot
  // the tombstone, and the newest record of k delivered since is a put.
  ghost predicate Revived(rs: seq<Record>, fs: seq<set<Bytes>>, h: seq<Record>, k: Bytes) {
    exists i: nat, x: nat, q: nat :: RevivedBy(rs, fs, h, k, i, x, q)
  }

  ghost predicate RevivedBy(rs: seq<Record>, fs: seq<set<Bytes>>, h: seq<Record>, k: Bytes, i: nat, x: nat, q: nat) {
    Last(h, k, i) && Tomb(h[i]) && Slips(rs, fs, k, VersionOf(h[i]), x, q) && !Tomb(rs[q])
  }

  // --- one key through a session --------------------------------------------------------------------

  lemma {:induction false} NoNewerKept(t: Table, rs: seq<Record>, fs: seq<set<Bytes>>, k: Bytes, v: Version, n: nat)
    requires n <= |rs| < |fs| && NoNewer(t, k, v) && NoneNewer(rs, k, v)
    ensures NoNewer(Follow(t, rs, fs, n), k, v)
    decreases n
  {
    hide Tomb;
    if n != 0 {
      NoNewerKept(t, rs, fs, k, v, n - 1);
    }
  }

  // A put with nothing newer stays once it has arrived.
  lemma {:induction false} PutStays(t: Table, rs: seq<Record>, fs: seq<set<Bytes>>, k: Bytes, v: Version, n: nat)
    requires n <= |rs| < |fs| && NoNewer(t, k, v) && NoneNewer(rs, k, v) && !v.tomb && Seen(rs, k, v, n)
    ensures var u := Follow(t, rs, fs, n); k in u && u[k] == v
    decreases n
  {
    hide Tomb;
    NoNewerKept(t, rs, fs, k, v, n - 1);
    if !(rs[n - 1].key == k && rs[n - 1].sn == v.sn) {
      PutStays(t, rs, fs, k, v, n - 1);
    }
  }

  // No record of k: at most its tombstone is forgotten.
  lemma {:induction false} Undisturbed(t: Table, rs: seq<Record>, fs: seq<set<Bytes>>, k: Bytes, n: nat)
    requires n <= |rs| < |fs| && forall c :: 0 <= c < |rs| ==> rs[c].key != k
    ensures var u := Follow(t, rs, fs, n);
            (k in u ==> k in t && u[k] == t[k]) && (k in t && k !in u ==> t[k].tomb)
    decreases n
  {
    if n != 0 {
      Undisturbed(t, rs, fs, k, n - 1);
    }
  }

  // Since x, the start or a moment k was forgotten at, every record of k, and a tombstone held at
  // the start, is covered by what is held now. A put that is held is one of them, or was held from
  // the start.
  ghost predicate Since(t: Table, u: Table, rs: seq<Record>, fs: seq<set<Bytes>>, k: Bytes, x: nat, n: nat) {
    && x <= n <= |rs| < |fs| && (x == 0 || k in fs[x])
    && (forall c :: x <= c < n && rs[c].key == k ==> k in u && rs[c].sn <= u[k].sn)
    && (x == 0 && k !in fs[0] && k in t && t[k].tomb ==> k in u && (u[k] == t[k] || t[k].sn < u[k].sn))
    && (k in u && !u[k].tomb ==>
          (x == 0 && k in t && u[k] == t[k]) || exists q :: x <= q < n && rs[q].key == k && VersionOf(rs[q]) == u[k])
  }

  lemma {:induction false} SinceLast(t: Table, rs: seq<Record>, fs: seq<set<Bytes>>, k: Bytes, n: nat) returns (x: nat)
    requires n <= |rs| < |fs|
    ensures Since(t, Follow(t, rs, fs, n), rs, fs, k, x, n)
    decreases n
  {
    hide Tomb;
    if n == 0 {
      x := 0;
    } else {
      x := SinceLast(t, rs, fs, k, n - 1);
      SinceStep(t, Follow(t, rs, fs, n - 1), rs, fs, k, x, n);
      if !Since(t, Follow(t, rs, fs, n), rs, fs, k, x, n) {
        x := n;
      }
    }
  }

  lemma SinceStep(t: Table, before: Table, rs: seq<Record>, fs: seq<set<Bytes>>, k: Bytes, x: nat, n: nat)
    requires 0 < n <= |rs| && Since(t, before, rs, fs, k, x, n - 1)
    ensures var u := Forget(Receive(before, rs[n - 1]), fs[n]);
            Since(t, u, rs, fs, k, x, n) || Since(t, u, rs, fs, k, n, n)
  {
    hide Tomb;
  }

  // Live at the end although v, a deletion, has arrived.
  lemma LiveSlipped(t: Table, rs: seq<Record>, fs: seq<set<Bytes>>, k: Bytes, v: Version) returns (x: nat, q: nat)
    requires |rs| < |fs| && NoNewer(t, k, v) && NoneNewer(rs, k, v) && v.tomb && Seen(rs, k, v, |rs|)
    requires var u := Follow(t, rs, fs, |rs|); k in u && !u[k].tomb
    ensures Slips(rs, fs, k, v, x, q) && !Tomb(rs[q])
  {
    hide Follow;
    var u := Follow(t, rs, fs, |rs|);
    NoNewerKept(t, rs, fs, k, v, |rs|);
    x := SinceLast(t, rs, fs, k, |rs|);
    assert Seen(rs, k, v, x);
    q :| x <= q < |rs| && rs[q].key == k && VersionOf(rs[q]) == u[k];
  }

  // Within one key, a number determines the version.
  ghost predicate Consistent(rs: seq<Record>, k: Bytes) {
    forall c, q :: 0 <= c < |rs| && 0 <= q < |rs| && rs[c].key == k && rs[q].key == k && rs[c].sn == rs[q].sn
                   ==> VersionOf(rs[c]) == VersionOf(rs[q])
  }

  // A put that is the newest since k was forgotten, or from the start, stays.
  lemma {:induction false} EndsLive(t: Table, rs: seq<Record>, fs: seq<set<Bytes>>, k: Bytes, x: nat, q: nat, n: nat)
    requires |rs| < |fs| && Ends(rs, k, x, q) && !Tomb(rs[q]) && Consistent(rs, k) && x <= n <= |rs|
    requires k in fs[x] || (x == 0 && (k in t && t[k].tomb ==> t[k].sn < rs[q].sn))
    ensures var u := Follow(t, rs, fs, n);
            && (k in u && u[k].tomb ==> u[k].sn < rs[q].sn)
            && (q < n ==> k in u && !u[k].tomb && rs[q].sn <= u[k].sn)
    decreases n
  {
    hide Tomb;
    if x < n {
      EndsLive(t, rs, fs, k, x, q, n - 1);
      assert rs[n - 1].key == k && rs[n - 1].sn == rs[q].sn ==> VersionOf(rs[n - 1]) == VersionOf(rs[q]);
    }
  }

  // --- a whole session ----------------------------------------------------------------------------------

  lemma GaplessPrefix(rs: seq<Record>, h: seq<Record>, f: nat, c: nat)
    requires Gapless(rs, h, f) && c <= |rs|
    ensures Gapless(rs[..c], h, f)
  {
    hide Echoes, HighestAll;
    forall j | 0 <= j < c ensures Echoes(rs[..c][j], h) && f < rs[..c][j].sn <= HighestAll(f, rs[..c][..j]) + 1 {
      assert rs[..c][..j] == rs[..j];
    }
  }

  // Every number between f and the highest one has been delivered.
  lemma {:induction false} GaplessCovers(rs: seq<Record>, h: seq<Record>, f: nat, i: nat) returns (c: nat)
    requires Gapless(rs, h, f) && f <= i < HighestAll(f, rs)
    ensures c < |rs| && rs[c].sn == i + 1
    decreases |rs|
  {
    hide Echoes;
    var m := |rs| - 1;
    if rs[m].sn == i + 1 {
      c := m;
    } else {
      GaplessPrefix(rs, h, f, m);
      c := GaplessCovers(rs[..m], h, f, i);
    }
  }

  lemma GaplessNumbers(rs: seq<Record>, h: seq<Record>, f: nat, k: Bytes, i: nat)
    requires Gapless(rs, h, f) && Counted(h, |h|) && Last(h, k, i)
    ensures NoneNewer(rs, k, VersionOf(h[i])) && Consistent(rs, k)
    ensures forall c :: 0 <= c < |rs| && rs[c].key == k ==> f < rs[c].sn <= i + 1
  {
    hide HighestAll, Tomb;
  }

  lemma GaplessHighest(rs: seq<Record>, h: seq<Record>, f: nat)
    requires Gapless(rs, h, f) && f <= |h|
    ensures f <= HighestAll(f, rs) <= |h|
  {
    hide HighestAll;
    HighestIsMax(f, rs);
  }

  // One key: after the session the follower still fits, unless the key was revived.
  lemma FollowSuits(t: Table, f: nat, h: seq<Record>, rs: seq<Record>, fs: seq<set<Bytes>>, k: Bytes, i: nat)
    requires Counted(h, |h|) && f <= |h| && Gapless(rs, h, f) && |rs| < |fs| && Last(h, k, i) && Suits(t, f, h, k, i)
    ensures Suits(Follow(t, rs, fs, |rs|), HighestAll(f, rs), h, k, i) <==> !Revived(rs, fs, h, k)
  {
    hide Follow, HighestAll, Tomb, Summary, Slips;
    var u, n, v := Follow(t, rs, fs, |rs|), HighestAll(f, rs), VersionOf(h[i]);
    GaplessNumbers(rs, h, f, k, i);
    GaplessHighest(rs, h, f);
    SummaryLast(h, k, i);
    if i < f || n <= i || !Tomb(h[i]) {
      NotRevived(rs, fs, h, f, k, i);
    }
    if i < f {
      Undisturbed(t, rs, fs, k, |rs|);
    } else {
      NoNewerKept(t, rs, fs, k, v, |rs|);
      if i < n {
        var c := GaplessCovers(rs, h, f, i);
        assert Echoes(rs[c], h);
        assert Seen(rs, k, v, |rs|);
        if Tomb(h[i]) {
          RevivedIffLive(t, f, h, rs, fs, k, i);
        } else {
          PutStays(t, rs, fs, k, v, |rs|);
        }
      }
    }
  }

  // Only a deletion that was delivered can be undone.
  lemma NotRevived(rs: seq<Record>, fs: seq<set<Bytes>>, h: seq<Record>, f: nat, k: Bytes, i: nat)
    requires Gapless(rs, h, f) && Last(h, k, i) && f <= |h| && Counted(h, |h|)
    requires i < f || HighestAll(f, rs) <= i || !Tomb(h[i])
    ensures !Revived(rs, fs, h, k)
  {
    hide HighestAll, Tomb;
    HighestIsMax(f, rs);
    forall j: nat, x: nat, q: nat ensures !RevivedBy(rs, fs, h, k, j, x, q) {
      assert Last(h, k, j) ==> j == i;
    }
  }

  lemma RevivedIffLive(t: Table, f: nat, h: seq<Record>, rs: seq<Record>, fs: seq<set<Bytes>>, k: Bytes, i: nat)
    requires Counted(h, |h|) && Gapless(rs, h, f) && |rs| < |fs| && Last(h, k, i) && NoNewer(t, k, VersionOf(h[i]))
    requires Tomb(h[i]) && Seen(rs, k, VersionOf(h[i]), |rs|)
    ensures var u := Follow(t, rs, fs, |rs|); Revived(rs, fs, h, k) <==> k in u && !u[k].tomb
  {
    hide Follow, HighestAll, Tomb;
    var u, v := Follow(t, rs, fs, |rs|), VersionOf(h[i]);
    GaplessNumbers(rs, h, f, k, i);
    if k in u && !u[k].tomb {
      var x, q := LiveSlipped(t, rs, fs, k, v);
      assert RevivedBy(rs, fs, h, k, i, x, q);
    }
    if Revived(rs, fs, h, k) {
      var j: nat, x: nat, q: nat :| RevivedBy(rs, fs, h, k, j, x, q);
      assert j == i;
      EndsLive(t, rs, fs, k, x, q, |rs|);
    }
  }

  // A session without gaps, cut off anywhere, while the follower's merges forget whatever they
  // like: it can resume from the highest number it has seen exactly when no key was revived.
  lemma ResumeIff(t: Table, f: nat, h: seq<Record>, rs: seq<Record>, fs: seq<set<Bytes>>)
    requires Counted(h, |h|) && Catchable(t, f, h) && Gapless(rs, h, f) && |rs| < |fs|
    ensures Catchable(Follow(t, rs, fs, |rs|), HighestAll(f, rs), h) <==> forall k :: !Revived(rs, fs, h, k)
  {
    hide Follow, HighestAll, Catchable, Revived, Suits, Summary, Gapless, Counted;
    var u, n := Follow(t, rs, fs, |rs|), HighestAll(f, rs);
    CatchableBelow(t, f, h);
    GaplessHighest(rs, h, f);
    CatchableIsSuited(t, f, h);
    CatchableIsSuited(u, n, h);
    forall k ensures Suited(u, n, h, k) <==> !Revived(rs, fs, h, k) {
      assert Suited(t, f, h, k);
      if k in Summary(h) {
        var i := LastOf(h, k);
        FollowSuits(t, f, h, rs, fs, k, i);
        assert forall j: nat :: Last(h, k, j) ==> j == i;
      } else {
        UnknownKey(t, h, rs, fs, f, k);
      }
    }
  }

  lemma UnknownKey(t: Table, h: seq<Record>, rs: seq<Record>, fs: seq<set<Bytes>>, f: nat, k: Bytes)
    requires Counted(h, |h|) && k !in Summary(h) && k !in t && Gapless(rs, h, f) && |rs| < |fs|
    ensures k !in Follow(t, rs, fs, |rs|) && !Revived(rs, fs, h, k)
    ensures forall i: nat :: !Last(h, k, i)
  {
    hide Follow, HighestAll, Summary, Slips;
    SummaryHolds(h, k);
    forall c | 0 <= c < |rs| ensures rs[c].key != k {
      assert Echoes(rs[c], h) && h[rs[c].sn - 1] in h;
    }
    Undisturbed(t, rs, fs, k, |rs|);
    forall i: nat ensures !Last(h, k, i) {
      if i < |h| {
        assert h[i] in h;
      }
    }
  }

  // --- any delivery at all ------------------------------------------------------------------------------

  // Since the start, or since k was forgotten, the newest that arrived of k is a put; or k was held
  // live and nothing newer arrived.
  ghost predicate Emerges(t: Table, rs: seq<Record>, fs: seq<set<Bytes>>, k: Bytes) {
    Outlasts(t, rs, k) || exists x: nat, q: nat :: EmergesAt(t, rs, fs, k, x, q)
  }

  ghost predicate EmergesAt(t: Table, rs: seq<Record>, fs: seq<set<Bytes>>, k: Bytes, x: nat, q: nat) {
    && |rs| < |fs| && Ends(rs, k, x, q) && !Tomb(rs[q])
    && (k in fs[x] || (x == 0 && (k in t && t[k].tomb ==> t[k].sn < rs[q].sn)))
  }

  ghost predicate Outlasts(t: Table, rs: seq<Record>, k: Bytes) {
    k in t && !t[k].tomb && forall c :: 0 <= c < |rs| && rs[c].key == k ==> rs[c].sn <= t[k].sn
  }

  // The last record of k lies before position n. It is a put that was neither held nor sent, or a
  // deletion that does not show.
  ghost predicate Astray(t: Table, rs: seq<Record>, fs: seq<set<Bytes>>, h: seq<Record>, n: nat, k: Bytes) {
    exists i: nat :: AstrayAt(t, rs, fs, h, n, k, i)
  }

  ghost predicate AstrayAt(t: Table, rs: seq<Record>, fs: seq<set<Bytes>>, h: seq<Record>, n: nat, k: Bytes, i: nat) {
    && Last(h, k, i) && i < n
    && if Tomb(h[i]) then Emerges(t, rs, fs, k)
       else !(k in t && t[k] == VersionOf(h[i])) && forall c :: 0 <= c < |rs| ==> rs[c].sn != i + 1
  }

  ghost predicate AllEcho(rs: seq<Record>, h: seq<Record>) { forall c :: 0 <= c < |rs| ==> Echoes(rs[c], h) }

  // A table that holds nothing newer than the history.
  ghost predicate Sane(t: Table, h: seq<Record>) {
    forall k :: k in t ==> k in Summary(h) && NoNewer(t, k, Summary(h)[k])
  }

  lemma EchoesGrow(rs: seq<Record>, h: seq<Record>, g: seq<Record>)
    requires AllEcho(rs, h) && h <= g
    ensures AllEcho(rs, g)
  {
    hide VersionOf, Lifted;
  }

  lemma CatchableSane(t: Table, f: nat, h: seq<Record>)
    requires Counted(h, |h|) && Catchable(t, f, h)
    ensures Sane(t, h)
  {
    hide ReceiveAll, Summary, Catchable, Tomb;
    CatchableBelow(t, f, h);
    CatchableIsSuited(t, f, h);
    forall k | k in t ensures k in Summary(h) && NoNewer(t, k, Summary(h)[k]) {
      assert Suited(t, f, h, k);
      var i := LastOf(h, k);
      SummaryLast(h, k, i);
    }
  }

  lemma EmergesLive(t: Table, rs: seq<Record>, fs: seq<set<Bytes>>, k: Bytes)
    requires |rs| < |fs| && Consistent(rs, k)
    ensures var u := Follow(t, rs, fs, |rs|); Emerges(t, rs, fs, k) <==> k in u && !u[k].tomb
  {
    hide Follow, Consistent, Tomb;
    var u := Follow(t, rs, fs, |rs|);
    if Outlasts(t, rs, k) {
      OutlastsAll(t, rs, fs, k, |rs|);
    } else if Emerges(t, rs, fs, k) {
      var x: nat, q: nat :| EmergesAt(t, rs, fs, k, x, q);
      EndsLive(t, rs, fs, k, x, q, |rs|);
    }
    if k in u && !u[k].tomb {
      var x := SinceLast(t, rs, fs, k, |rs|);
      if !(x == 0 && k in t && u[k] == t[k]) {
        var q :| x <= q < |rs| && rs[q].key == k && VersionOf(rs[q]) == u[k];
        assert EmergesAt(t, rs, fs, k, x, q);
      }
    }
  }

  lemma {:induction false} OutlastsAll(t: Table, rs: seq<Record>, fs: seq<set<Bytes>>, k: Bytes, n: nat)
    requires n <= |rs| < |fs| && Outlasts(t, rs, k)
    ensures var u := Follow(t, rs, fs, n); k in u && u[k] == t[k]
    decreases n
  {
    if n != 0 {
      OutlastsAll(t, rs, fs, k, n - 1);
    }
  }

  // Everything held was held before or has arrived.
  lemma {:induction false} HeldArrived(t: Table, rs: seq<Record>, fs: seq<set<Bytes>>, k: Bytes, n: nat)
    requires n <= |rs| < |fs|
    ensures var u := Follow(t, rs, fs, n);
            k in u ==> (k in t && u[k] == t[k]) || exists c :: 0 <= c < n && rs[c].key == k && VersionOf(rs[c]) == u[k]
    decreases n
  {
    if n != 0 {
      HeldArrived(t, rs, fs, k, n - 1);
    }
  }

  lemma EchoNumbers(rs: seq<Record>, h: seq<Record>, k: Bytes, i: nat)
    requires AllEcho(rs, h) && Counted(h, |h|) && Last(h, k, i)
    ensures NoneNewer(rs, k, VersionOf(h[i])) && Consistent(rs, k)
    ensures forall c :: 0 <= c < |rs| && rs[c].sn == i + 1 ==> rs[c].key == k
  {
    hide Tomb;
  }

  lemma DeliverySuits(t: Table, h: seq<Record>, rs: seq<Record>, fs: seq<set<Bytes>>, n: nat, k: Bytes, i: nat)
    requires Counted(h, |h|) && AllEcho(rs, h) && |rs| < |fs| && Last(h, k, i) && NoNewer(t, k, VersionOf(h[i]))
    ensures Suits(Follow(t, rs, fs, |rs|), n, h, k, i) <==> !AstrayAt(t, rs, fs, h, n, k, i)
  {
    hide Follow, Tomb, Summary, Emerges;
    var u, v := Follow(t, rs, fs, |rs|), VersionOf(h[i]);
    EchoNumbers(rs, h, k, i);
    SummaryLast(h, k, i);
    NoNewerKept(t, rs, fs, k, v, |rs|);
    EmergesLive(t, rs, fs, k);
    HeldArrived(t, rs, fs, k, |rs|);
    if !Tomb(h[i]) {
      if exists c :: 0 <= c < |rs| && rs[c].sn == i + 1 {
        assert Seen(rs, k, v, |rs|);
        PutStays(t, rs, fs, k, v, |rs|);
      } else if k in t && t[k] == v {
        OutlastsAll(t, rs, fs, k, |rs|);
      }
    }
  }

  // A follower that holds nothing newer than the history is told any records of it, in any order,
  // while its merges forget whatever they like: it can resume from a position exactly when no key
  // went astray below it.
  lemma DeliveryIff(t: Table, h: seq<Record>, rs: seq<Record>, fs: seq<set<Bytes>>, n: nat)
    requires Counted(h, |h|) && Sane(t, h) && AllEcho(rs, h) && |rs| < |fs| && n <= |h|
    ensures Catchable(Follow(t, rs, fs, |rs|), n, h) <==> forall k :: !Astray(t, rs, fs, h, n, k)
  {
    hide Follow, Catchable, Astray, Suits, Summary, Counted, Echoes;
    var u := Follow(t, rs, fs, |rs|);
    CatchableIsSuited(u, n, h);
    forall k ensures Suited(u, n, h, k) <==> !Astray(t, rs, fs, h, n, k) {
      if k in Summary(h) {
        var i := LastOf(h, k);
        SummaryLast(h, k, i);
        DeliverySuits(t, h, rs, fs, n, k, i);
        AstrayLast(t, rs, fs, h, n, k, i);
      } else {
        NeverAstray(t, rs, fs, h, n, k);
      }
    }
  }

  lemma EchoHighest(f: nat, rs: seq<Record>, h: seq<Record>)
    requires AllEcho(rs, h) && f <= |h|
    ensures HighestAll(f, rs) <= |h|
  {
    hide HighestAll;
    HighestIsMax(f, rs);
  }

  lemma AstrayLast(t: Table, rs: seq<Record>, fs: seq<set<Bytes>>, h: seq<Record>, n: nat, k: Bytes, i: nat)
    requires Last(h, k, i)
    ensures forall j: nat :: Last(h, k, j) || AstrayAt(t, rs, fs, h, n, k, j) ==> j == i
    ensures Astray(t, rs, fs, h, n, k) <==> AstrayAt(t, rs, fs, h, n, k, i)
  {
    hide Emerges;
  }

  lemma NeverAstray(t: Table, rs: seq<Record>, fs: seq<set<Bytes>>, h: seq<Record>, n: nat, k: Bytes)
    requires Counted(h, |h|) && AllEcho(rs, h) && |rs| < |fs| && k !in Summary(h) && k !in t
    ensures k !in Follow(t, rs, fs, |rs|) && !Astray(t, rs, fs, h, n, k) && forall i: nat :: !Last(h, k, i)
  {
    hide Follow, Summary, Emerges;
    SummaryHolds(h, k);
    HeldArrived(t, rs, fs, k, |rs|);
    forall c | 0 <= c < |rs| ensures rs[c].key != k {
      assert Echoes(rs[c], h) && h[rs[c].sn - 1] in h;
    }
    forall i: nat ensures !Last(h, k, i) && !AstrayAt(t, rs, fs, h, n, k, i) {
      if i < |h| {
        assert h[i] in h;
      }
    }
  }

  // --- building sessions ----------------------------------------------------------------------------------

  lemma GaplessNone(h: seq<Record>, f: nat)
    ensures Gapless([], h, f) && HighestAll(f, []) == f
  {
  }

  // The next stretch of the history.
  lemma {:induction false} GaplessStretch(rs: seq<Record>, h: seq<Record>, f: nat, m: nat)
    requires Counted(h, |h|) && Gapless(rs, h, f) && f <= |h| && HighestAll(f, rs) <= m <= |h|
    ensures Gapless(rs + h[HighestAll(f, rs)..m], h, f) && HighestAll(f, rs + h[HighestAll(f, rs)..m]) == m
    decreases m
  {
    hide Tomb, Gapless;
    var n := HighestAll(f, rs);
    if n == m {
      assert rs + h[n..m] == rs;
    } else {
      GaplessHighest(rs, h, f);
      GaplessStretch(rs, h, f, m - 1);
      assert rs + h[n..m] == (rs + h[n..m - 1]) + [h[m - 1]];
      GaplessOne(rs + h[n..m - 1], h, f, h[m - 1]);
    }
  }

  lemma GaplessOne(rs: seq<Record>, h: seq<Record>, f: nat, r: Record)
    requires Gapless(rs, h, f) && Echoes(r, h) && f < r.sn <= HighestAll(f, rs) + 1
    ensures Gapless(rs + [r], h, f) && HighestAll(f, rs + [r]) == Max(HighestAll(f, rs), r.sn)
  {
    hide Echoes, HighestAll;
    var all := rs + [r];
    HighestOne(f, rs, r);
    assert all[..|rs|] == rs;
    forall c | 0 <= c < |rs| ensures Echoes(all[c], h) && f < all[c].sn <= HighestAll(f, all[..c]) + 1 {
      assert all[..c] == rs[..c] && all[c] == rs[c];
    }
  }

  lemma HighestOne(f: nat, rs: seq<Record>, r: Record)
    ensures HighestAll(f, rs + [r]) == Max(HighestAll(f, rs), r.sn)
  {
    assert (rs + [r])[..|rs|] == rs;
  }

  // Copies of what has been delivered already.
  lemma {:induction false} GaplessAgain(rs: seq<Record>, h: seq<Record>, f: nat, qs: seq<Record>)
    requires Gapless(rs, h, f) && forall c :: 0 <= c < |qs| ==> Echoes(qs[c], h) && f < qs[c].sn <= HighestAll(f, rs)
    ensures Gapless(rs + qs, h, f) && HighestAll(f, rs + qs) == HighestAll(f, rs)
    decreases |qs|
  {
    hide Echoes, Gapless;
    if qs == [] {
      assert rs + qs == rs;
    } else {
      var init := qs[..|qs| - 1];
      GaplessAgain(rs, h, f, init);
      assert rs + qs == (rs + init) + [qs[|qs| - 1]];
      GaplessOne(rs + init, h, f, qs[|qs| - 1]);
    }
  }

  lemma GaplessGrows(rs: seq<Record>, h: seq<Record>, g: seq<Record>, f: nat)
    requires Gapless(rs, h, f) && h <= g
    ensures Gapless(rs, g, f)
  {
    hide HighestAll, VersionOf;
  }

  // The queue was attached at a, which the log replay had passed when the queue took over.
  lemma GaplessQueue(rs: seq<Record>, h: seq<Record>, f: nat, a: nat)
    requires Counted(h, |h|) && Gapless(rs, h, f) && f <= a <= HighestAll(f, rs) <= |h|
    ensures Gapless(rs + h[a..], h, f) && HighestAll(f, rs + h[a..]) == |h|
  {
    hide Tomb, HighestAll, Gapless;
    var n := HighestAll(f, rs);
    GaplessAgain(rs, h, f, h[a..n]);
    GaplessStretch(rs + h[a..n], h, f, |h|);
    assert rs + h[a..] == (rs + h[a..n]) + h[n..|h|];
  }

  // --- sessions that cannot revive a key ------------------------------------------------------------------

  // Nothing is forgotten.
  function Never(n: nat): (fs: seq<set<Bytes>>)
    ensures |fs| == n && forall i :: 0 <= i < n ==> fs[i] == {}
  {
    seq(n, i => {})
  }

  lemma {:induction false} FollowPlain(t: Table, rs: seq<Record>, n: nat)
    requires n <= |rs|
    ensures Follow(t, rs, Never(|rs| + 1), n) == ReceiveAll(t, rs[..n])
    decreases n
  {
    hide Receive;
    forall u: Table ensures Forget(u, {}) == u {
    }
    if n != 0 {
      FollowPlain(t, rs, n - 1);
      assert rs[..n][..n - 1] == rs[..n - 1];
    }
  }

  // A follower that does not merge meanwhile resumes from the highest number it has seen.
  lemma ResumeAnywhere(t: Table, f: nat, h: seq<Record>, rs: seq<Record>)
    requires Counted(h, |h|) && Catchable(t, f, h) && Gapless(rs, h, f)
    ensures Catchable(ReceiveAll(t, rs), HighestAll(f, rs), h)
  {
    hide Follow, HighestAll, Catchable, ReceiveAll, Gapless, Counted, Tomb;
    FollowPlain(t, rs, |rs|);
    assert rs[..|rs|] == rs;
    ResumeIff(t, f, h, rs, Never(|rs| + 1));
  }

  // Between sessions the follower may forget any tombstone.
  lemma ForgetCatchable(t: Table, f: nat, h: seq<Record>, ks: set<Bytes>)
    requires Counted(h, |h|) && Catchable(t, f, h)
    ensures Catchable(Forget(t, ks), f, h)
  {
    hide HighestAll, Catchable, Forget, Counted, Tomb;
    GaplessNone(h, f);
    ResumeIff(t, f, h, [], [ks]);
  }

  // Where in the history record j of such a session is.
  function Origin(f: nat, s: nat, a: nat, j: nat): nat
    requires f <= a <= s
  {
    if j < s - f then f + j else a + (j - (s - f))
  }

  lemma Originates(h: seq<Record>, f: nat, s: nat, a: nat, j: nat)
    requires Counted(h, |h|) && f <= a <= s <= |h| && j < |h[f..s] + h[a..]|
    ensures Origin(f, s, a, j) < |h| && (h[f..s] + h[a..])[j] == h[Origin(f, s, a, j)]
    ensures (h[f..s] + h[a..])[j].sn == Origin(f, s, a, j) + 1
  {
  }

  // The log in order, then the whole queue: once the last record of a key has arrived, the newest
  // that arrives of it later, if any, is that record again.
  lemma DrainedEnds(h: seq<Record>, f: nat, s: nat, a: nat, k: Bytes, i: nat, x: nat, q: nat)
    requires Counted(h, |h|) && f <= a <= s <= |h| && Last(h, k, i)
    requires var rs := h[f..s] + h[a..]; Ends(rs, k, x, q) && Seen(rs, k, VersionOf(h[i]), x)
    ensures (h[f..s] + h[a..])[q] == h[i]
  {
    hide Tomb;
    var rs := h[f..s] + h[a..];
    var p: nat :| p < |rs| && p < x && rs[p].key == k && rs[p].sn == i + 1;
    hide Seen;
    Originates(h, f, s, a, p);
    Originates(h, f, s, a, q);
    assert s - f <= q && a <= i;
    Originates(h, f, s, a, s - f + (i - a));
  }

  lemma DrainedRevivesNone(h: seq<Record>, f: nat, s: nat, a: nat, fs: seq<set<Bytes>>, k: Bytes)
    requires Counted(h, |h|) && f <= a <= s <= |h|
    ensures !Revived(h[f..s] + h[a..], fs, h, k)
  {
    hide Tomb, Ends, Seen;
    var rs := h[f..s] + h[a..];
    forall i: nat, x: nat, q: nat ensures !RevivedBy(rs, fs, h, k, i, x, q) {
      if Last(h, k, i) && Slips(rs, fs, k, VersionOf(h[i]), x, q) {
        DrainedEnds(h, f, s, a, k, i, x, q);
      }
    }
  }

  // A session that is drained brings the follower up to date, whatever it forgets on the way.
  lemma DrainedConverges(t: Table, f: nat, h: seq<Record>, s: nat, a: nat, fs: seq<set<Bytes>>)
    requires Counted(h, |h|) && Catchable(t, f, h) && f <= a <= s <= |h| && |h[f..s] + h[a..]| < |fs|
    ensures Faithful(Follow(t, h[f..s] + h[a..], fs, |h[f..s] + h[a..]|), h)
  {
    hide Follow, HighestAll, Catchable, Gapless, Counted, Faithful, Revived;
    var rs := h[f..s] + h[a..];
    GaplessNone(h, f);
    GaplessStretch([], h, f, s);
    assert [] + h[f..s] == h[f..s];
    GaplessQueue(h[f..s], h, f, a);
    ResumeIff(t, f, h, rs, fs);
    forall k ensures !Revived(rs, fs, h, k) {
      DrainedRevivesNone(h, f, s, a, fs, k);
    }
    CatchableDone(Follow(t, rs, fs, |rs|), h);
  }

  // A key is written and deleted while the follower is replaying the log from position 1. It
  // hears of both, merges, and hears of the write again from the queue. Cut off there, it is at
  // the leader's sequence number, serves the deleted key, and resuming will not remove it.
  lemma DeletedKeyComesBack(h: seq<Record>, k: Bytes)
    requires |h| == 3 && Counted(h, 3) && h[1].key == h[2].key == k && !Tomb(h[1]) && Tomb(h[2])
    ensures var t, rs, fs := Summary(h[..1]), [h[1], h[2], h[1]], [{}, {}, {k}, {}];
            && Catchable(t, 1, h) && rs == (h[1..3] + h[1..])[..3] && Gapless(rs, h, 1) && HighestAll(1, rs) == 3
            && var u := Follow(t, rs, fs, 3);
            k in LiveOf(u) && k !in LiveOf(Summary(h)) && Revived(rs, fs, h, k) && !Catchable(u, 3, h)
  {
    hide Tomb;
    var t, rs, fs := Summary(h[..1]), [h[1], h[2], h[1]], [{}, {}, {k}, {}];
    assert Catchable(t, 1, h) by {
      hide Faithful;
      assert h == h[..1] + h[1..];
      ReceiveAllConcat(map[], h[..1], h[1..]);
      assert Faithful(Summary(h), h);
    }
    BackAndForth(h, k);
    SummaryLast(h, k, 2);
    assert RevivedBy(rs, fs, h, k, 2, 2, 2) by {
      assert rs[1].key == k && rs[1].sn == VersionOf(h[2]).sn;
    }
    ResumeIff(t, 1, h, rs, fs);
  }

  lemma BackAndForth(h: seq<Record>, k: Bytes)
    requires |h| == 3 && Counted(h, 3)
    ensures Gapless([h[1], h[2], h[1]], h, 1) && HighestAll(1, [h[1], h[2], h[1]]) == 3
  {
    hide Tomb, Gapless;
    GaplessNone(h, 1);
    assert [] + [h[1]] == [h[1]] && [h[1]] + [h[2]] == [h[1], h[2]] && [h[1], h[2]] + [h[1]] == [h[1], h[2], h[1]];
    GaplessOne([], h, 1, h[1]);
    GaplessOne([h[1]], h, 1, h[2]);
    GaplessOne([h[1], h[2]], h, 1, h[1]);
  }

  // A snapshot goes by key, not by age. Cut off after a newer record of a smaller key, the follower
  // resumes behind an older record of a larger one, and never hears of it.
  lemma PartialCopyMisses(h: seq<Record>, fs: seq<set<Bytes>>)
    requires |h| == 2 && Counted(h, 2) && h[0].key != h[1].key && !Tomb(h[0]) && !Tomb(h[1]) && 1 < |fs|
    ensures var u := Follow(map[], [h[1]], fs, 1);
            && HighestAll(0, [h[1]]) == 2 && Astray(map[], [h[1]], fs, h, 2, h[0].key) && !Catchable(u, 2, h)
            && h[0].key in LiveOf(Summary(h))
  {
    hide Tomb, Catchable;
    var rs := [h[1]];
    HighestOne(0, [], h[1]);
    assert [] + [h[1]] == rs;
    assert AstrayAt(map[], rs, fs, h, 2, h[0].key, 0);
    SummaryLast(h, h[0].key, 0);
    DeliveryIff(map[], h, rs, fs, 2);
  }
}
