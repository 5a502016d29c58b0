/** Last-writer-wins: the newest version of every key, as a join over sets of records. */
module Versions {
  import opened Bytes
  import opened Records
  import opened Writing

  // What the index says of a key, and the value it leads to.
  datatype Version = Version(sn: nat, tomb: bool, value: Bytes)

  type Table = map<Bytes, Version>

  function VersionOf(r: Record): Version { Version(r.sn, Tomb(r), r.value) }

  // One record arrives: it is stored unless the table already holds one at least as new.
  function Receive(t: Table, r: Record): Table {
    if r.key in t && t[r.key].sn >= r.sn then t else t[r.key := VersionOf(r)]
  }

  function ReceiveAll(t: Table, rs: seq<Record>): Table {
    if rs == [] then t else Receive(ReceiveAll(t, rs[..|rs| - 1]), rs[|rs| - 1])
  }

  // The highest sequence number held.
  function HighestAll(sn: nat, rs: seq<Record>): nat {
    if rs == [] then sn else Max(HighestAll(sn, rs[..|rs| - 1]), rs[|rs| - 1].sn)
  }

  function LiveOf(t: Table): map<Bytes, Bytes> { map k | k in t && !t[k].tomb :: t[k].value }

  // Sequence numbers count the records of a history.
  ghost predicate Counted(h: seq<Record>, sn: nat) {
    |h| == sn && forall i :: 0 <= i < |h| ==> h[i].sn == i + 1
  }

  // Within t and rs, a key and a sequence number determine the version.
  ghost predicate Agree(t: Table, rs: seq<Record>) {
    && (forall r, q :: r in rs && q in rs && r.key == q.key && r.sn == q.sn ==> VersionOf(r) == VersionOf(q))
    && (forall r :: r in rs && r.key in t && t[r.key].sn == r.sn ==> t[r.key] == VersionOf(r))
  }

  // The version of k that is newest among t and rs.
  ghost predicate Wins(t: Table, rs: seq<Record>, k: Bytes, v: Version) {
    && (k in t ==> t[k].sn <= v.sn)
    && (forall r :: r in rs && r.key == k ==> r.sn <= v.sn)
    && ((k in t && t[k] == v) || exists r :: r in rs && r.key == k && VersionOf(r) == v)
  }

  lemma {:induction false} ReceiveAllConcat(t: Table, a: seq<Record>, b: seq<Record>)
    ensures ReceiveAll(t, a + b) == ReceiveAll(ReceiveAll(t, a), b)
  {
    if b == [] {
      assert a + b == a;
    } else {
      assert (a + b)[..|a + b| - 1] == a + b[..|b| - 1];
      ReceiveAllConcat(t, a, b[..|b| - 1]);
    }
  }

  // The table after any deliveries is the newest version of every key.
  lemma {:induction false} ReceiveAllWins(t: Table, rs: seq<Record>)
    ensures forall k :: k in ReceiveAll(t, rs) <==> k in t || exists r :: r in rs && r.key == k
    ensures forall k :: k in ReceiveAll(t, rs) ==> Wins(t, rs, k, ReceiveAll(t, rs)[k])
  {
    if rs != [] {
      var init, q := rs[..|rs| - 1], rs[|rs| - 1];
      ReceiveAllWins(t, init);
      assert forall r :: r in rs <==> r in init || r == q;
      var before, after := ReceiveAll(t, init), ReceiveAll(t, rs);
      forall k | k in after ensures Wins(t, rs, k, after[k]) {
        if k in before {
          assert Wins(t, init, k, before[k]);
        }
      }
    }
  }

  // What is at least as new as everything that arrives stays.
  lemma {:induction false} HeldStays(t: Table, rs: seq<Record>, k: Bytes)
    requires k in t && forall r :: r in rs && r.key == k ==> r.sn <= t[k].sn
    ensures k in ReceiveAll(t, rs) && ReceiveAll(t, rs)[k] == t[k]
  {
    if rs != [] {
      HeldStays(t, rs[..|rs| - 1], k);
    }
  }

  lemma WinsUnique(t: Table, rs: seq<Record>, qs: seq<Record>, k: Bytes, v: Version, u: Version)
    requires Wins(t, rs, k, v) && Wins(t, qs, k, u) && Agree(t, rs)
    requires forall r :: r in rs <==> r in qs
    ensures v == u
  {
  }

  // Order, grouping and repetition of deliveries do not matter.
  lemma DeliveryOrder(t: Table, sn: nat, rs: seq<Record>, qs: seq<Record>)
    requires Agree(t, rs) && forall r :: r in rs <==> r in qs
    ensures ReceiveAll(t, rs) == ReceiveAll(t, qs) && HighestAll(sn, rs) == HighestAll(sn, qs)
  {
    hide Wins, Agree;
    var a, b := ReceiveAll(t, rs), ReceiveAll(t, qs);
    ReceiveAllWins(t, rs);
    ReceiveAllWins(t, qs);
    forall k | k in a ensures k in b && a[k] == b[k] {
      WinsUnique(t, rs, qs, k, a[k], b[k]);
    }
    forall k | k in b ensures k in a {
    }
    HighestIsMax(sn, rs);
    HighestIsMax(sn, qs);
  }

  lemma {:induction false} HighestIsMax(sn: nat, rs: seq<Record>)
    ensures var h := HighestAll(sn, rs);
            && sn <= h && (forall r :: r in rs ==> r.sn <= h) && (h == sn || exists r :: r in rs && r.sn == h)
            && (forall i :: 0 <= i < |rs| ==> rs[i].sn <= h)
  {
    if rs != [] {
      HighestIsMax(sn, rs[..|rs| - 1]);
    }
  }

  lemma {:induction false} HighestAllConcat(sn: nat, a: seq<Record>, b: seq<Record>)
    ensures HighestAll(sn, a + b) == HighestAll(HighestAll(sn, a), b)
  {
    if b == [] {
      assert a + b == a;
    } else {
      assert (a + b)[..|a + b| - 1] == a + b[..|b| - 1];
      HighestAllConcat(sn, a, b[..|b| - 1]);
    }
  }

  ghost predicate Under(t: Table, n: nat) { forall k :: k in t ==> t[k].sn < n }

  lemma ReceiveUnder(t: Table, rs: seq<Record>, n: nat)
    requires Under(t, n) && forall i :: 0 <= i < |rs| ==> rs[i].sn < n
    ensures Under(ReceiveAll(t, rs), n)
  {
    hide ReceiveAll;
    ReceiveAllWins(t, rs);
    forall k | k in ReceiveAll(t, rs) ensures ReceiveAll(t, rs)[k].sn < n {
      assert Wins(t, rs, k, ReceiveAll(t, rs)[k]);
    }
  }

  // Delivering records in ascending order is replaying a history of puts and deletes.
  lemma {:induction false} ReceiveAscending(t: Table, rs: seq<Record>)
    requires forall i, j :: 0 <= i < j < |rs| ==> rs[i].sn < rs[j].sn
    requires forall i :: 0 <= i < |rs| ==> Under(t, rs[i].sn)
    ensures LiveOf(ReceiveAll(t, rs)) == Fold(LiveOf(t), rs)
  {
    hide Under, Receive, LiveOf, Fold;
    if rs == [] {
      FoldNone(LiveOf(t));
    } else {
      var init, r := rs[..|rs| - 1], rs[|rs| - 1];
      ReceiveAscending(t, init);
      ReceiveUnder(t, init, r.sn);
      assert rs == init + [r];
      FoldConcat(LiveOf(t), init, [r]);
      ReceiveOne(ReceiveAll(t, init), r);
    }
  }

  lemma ReceiveOne(m: Table, r: Record)
    requires Under(m, r.sn)
    ensures LiveOf(Receive(m, r)) == Fold(LiveOf(m), [r])
  {
    hide Tomb;
    assert [r][..0] == [];
  }
}
