/** Space accounting: what the live counters mean, and why live bytes never exceed the bytes
    on disk. */
module Usage {
  import opened Bytes
  import opened Records
  import opened Log
  import opened Engine
  import opened Invariant

  function Bytes1(e: Entry): nat { if e.tomb then 0 else e.size }
  function Count1(e: Entry): nat { if e.tomb then 0 else 1 }

  // The sum of a weight over every entry.
  ghost function Sum(ix: Index, w: Entry -> nat): nat
    decreases |ix|
  {
    if ix == map[] then 0
    else
      var k :| k in ix;
      w(ix[k]) + Sum(ix - {k}, w)
  }

  // Whichever entry is taken first.
  lemma {:induction false} SumRemove(ix: Index, k: Bytes, w: Entry -> nat)
    requires k in ix
    ensures Sum(ix, w) == w(ix[k]) + Sum(ix - {k}, w)
    decreases |ix|
  {
    var j :| j in ix && Sum(ix, w) == w(ix[j]) + Sum(ix - {j}, w);
    if j != k {
      SumRemove(ix - {j}, k, w);
      SumRemove(ix - {k}, j, w);
      assert ix - {j} - {k} == ix - {k} - {j};
    }
  }

  lemma SumPut(ix: Index, k: Bytes, e: Entry, w: Entry -> nat)
    ensures Sum(ix[k := e], w) == w(e) + (if k in ix then Sum(ix, w) - w(ix[k]) else Sum(ix, w))
  {
    SumRemove(ix[k := e], k, w);
    if k in ix {
      SumRemove(ix, k, w);
    } else {
      assert ix - {k} == ix;
    }
    assert ix[k := e] - {k} == ix - {k};
  }

  // The number of live entries.
  lemma {:induction false} SumCounts(ix: Index)
    ensures Sum(ix, Count1) == |set k | k in ix && !ix[k].tomb|
    decreases |ix|
  {
    hide Sum;
    var live := set k | k in ix && !ix[k].tomb;
    if ix == map[] {
      NothingSums(Count1);
      assert live == {};
    } else {
      var k :| k in ix;
      SumRemove(ix, k, Count1);
      SumCounts(ix - {k});
      assert live - {k} == set j | j in ix - {k} && !(ix - {k})[j].tomb;
    }
  }

  // --- live bytes against bytes on disk --------------------------------------------------------

  // The entries of one file below an offset.
  function InFile(ix: Index, id: nat, bound: nat): Index {
    map k | k in ix && ix[k].file == id && ix[k].pos < bound :: ix[k]
  }

  // At most one key is at any one offset.
  lemma OneKey(fs: Files, ix: Index, id: nat, n: nat)
    requires Pointing(fs, ix) && id in fs && n < |fs[id].recs|
    ensures var rs := fs[id].recs;
            var a, b := InFile(ix, id, SizeAll(rs[..n])), InFile(ix, id, SizeAll(rs[..n + 1]));
            b == a || (rs[n].key in b && b - {rs[n].key} == a && b[rs[n].key].size == Size(rs[n]))
  {
    hide At, SizeAll;
    var rs := fs[id].recs;
    var lo, hi := SizeAll(rs[..n]), SizeAll(rs[..n + 1]);
    var a, b := InFile(ix, id, lo), InFile(ix, id, hi);
    PrefixSize(rs, n, n + 1);
    forall k | k in b && k !in a ensures k == rs[n].key && b[k].size == Size(rs[n]) {
      StartsAt(fs, ix, id, n, k);
    }
    assert forall k :: k in a ==> k in b && a[k] == b[k];
    if b != a {
      var k :| k in b && k !in a;
      assert b - {k} == a;
    }
  }

  // An entry between two record boundaries is the record there.
  lemma StartsAt(fs: Files, ix: Index, id: nat, n: nat, k: Bytes)
    requires Pointing(fs, ix) && id in fs && n < |fs[id].recs| && k in ix && ix[k].file == id
    requires SizeAll(fs[id].recs[..n]) <= ix[k].pos < SizeAll(fs[id].recs[..n + 1])
    ensures k == fs[id].recs[n].key && ix[k].size == Size(fs[id].recs[n])
  {
    hide At, SizeAll;
    var rs := fs[id].recs;
    assert Points(fs, k, ix[k]);
    var i := IndexAt(rs, ix[k].pos);
    if i < n {
      PrefixSize(rs, i, n);
    } else if n < i {
      PrefixSize(rs, n + 1, i);
    }
  }

  lemma {:induction false} FileHolds(fs: Files, ix: Index, id: nat, n: nat)
    requires Pointing(fs, ix) && id in fs && n <= |fs[id].recs|
    ensures Sum(InFile(ix, id, SizeAll(fs[id].recs[..n])), Bytes1) <= SizeAll(fs[id].recs[..n])
    decreases n
  {
    hide Pointing, Sum;
    var rs := fs[id].recs;
    if n == 0 {
      assert InFile(ix, id, SizeAll(rs[..0])) == map[];
      NothingSums(Bytes1);
    } else {
      hide InFile, SizeAll;
      FileHolds(fs, ix, id, n - 1);
      OneKey(fs, ix, id, n - 1);
      PrefixSize(rs, n - 1, n);
      var b := InFile(ix, id, SizeAll(rs[..n]));
      if b != InFile(ix, id, SizeAll(rs[..n - 1])) {
        SumRemove(b, rs[n - 1].key, Bytes1);
      }
    }
  }

  lemma NothingSums(w: Entry -> nat)
    ensures Sum(map[], w) == 0
  {
  }

  // The bytes of every file.
  ghost function Total(fs: Files): nat
    decreases |fs|
  {
    if fs == map[] then 0
    else
      var id :| id in fs;
      FileSize(fs[id]) + Total(fs - {id})
  }

  lemma NoFiles()
    ensures Total(map[]) == 0
  {
  }

  lemma {:induction false} TotalRemove(fs: Files, id: nat)
    requires id in fs
    ensures Total(fs) == FileSize(fs[id]) + Total(fs - {id})
    decreases |fs|
  {
    hide FileSize;
    var j :| j in fs && Total(fs) == FileSize(fs[j]) + Total(fs - {j});
    if j != id {
      TotalRemove(fs - {j}, id);
      TotalRemove(fs - {id}, j);
      assert fs - {j} - {id} == fs - {id} - {j};
    }
  }

  lemma UnionRemove(a: Index, b: Index, k: Bytes)
    requires a.Keys !! b.Keys && k in a
    ensures (a + b) - {k} == (a - {k}) + b && (a - {k}).Keys !! b.Keys && |a - {k}| < |a|
  {
    assert k !in b;
    assert (a - {k}).Keys == a.Keys - {k};
    assert |a.Keys - {k}| < |a.Keys|;
  }

  lemma {:induction false} SumSplit(a: Index, b: Index, w: Entry -> nat)
    requires a.Keys !! b.Keys
    ensures Sum(a + b, w) == Sum(a, w) + Sum(b, w)
    decreases |a|
  {
    hide Sum;
    if a == map[] {
      assert a + b == b;
      NothingSums(w);
    } else {
      var k :| k in a;
      assert k in a + b && (a + b)[k] == a[k];
      SumRemove(a + b, k, w);
      SumRemove(a, k, w);
      UnionRemove(a, b, k);
      SumSplit(a - {k}, b, w);
    }
  }

  function OfFile(ix: Index, id: nat): Index { map k | k in ix && ix[k].file == id :: ix[k] }
  function NotOfFile(ix: Index, id: nat): Index { map k | k in ix && ix[k].file != id :: ix[k] }

  // Every entry of a file lies below the end of its records.
  lemma FileReach(fs: Files, ix: Index, id: nat)
    requires Pointing(fs, ix) && id in fs
    ensures InFile(ix, id, SizeAll(fs[id].recs)) == OfFile(ix, id)
  {
    hide SizeAll, At;
    var rs := fs[id].recs;
    assert rs[..|rs|] == rs;
    forall k | k in ix && ix[k].file == id ensures ix[k].pos < SizeAll(rs) {
      assert Points(fs, k, ix[k]);
      var i := IndexAt(rs, ix[k].pos);
      PrefixSize(rs, i, |rs|);
    }
  }

  lemma FileBound(fs: Files, ix: Index, id: nat)
    requires Pointing(fs, ix) && id in fs
    ensures Sum(OfFile(ix, id), Bytes1) <= FileSize(fs[id])
  {
    hide Sum, SizeAll, At, InFile, OfFile, Pointing;
    var rs := fs[id].recs;
    assert rs[..|rs|] == rs;
    FileHolds(fs, ix, id, |rs|);
    FileReach(fs, ix, id);
  }

  lemma StillPointing(fs: Files, ix: Index, id: nat)
    requires Pointing(fs, ix)
    ensures Pointing(fs - {id}, NotOfFile(ix, id))
  {
    hide At;
    var gs, jx := fs - {id}, NotOfFile(ix, id);
    forall k | k in jx ensures Points(gs, k, jx[k]) {
      assert Points(fs, k, ix[k]) && Deref(gs, jx[k]) == Deref(fs, ix[k]);
    }
  }

  // Locators of distinct keys are disjoint byte ranges of existing files, so live bytes never
  // exceed what is on disk.
  lemma {:induction false} LiveWithinTotal(fs: Files, ix: Index)
    requires Pointing(fs, ix)
    ensures Sum(ix, Bytes1) <= Total(fs)
    decreases |fs|
  {
    hide Sum, Total, At;
    if fs == map[] {
      assert ix == map[] by {
        assert forall k :: k in ix ==> Points(fs, k, ix[k]);
      }
      NothingSums(Bytes1);
    } else {
      var id :| id in fs;
      TotalRemove(fs, id);
      FileBound(fs, ix, id);
      StillPointing(fs, ix, id);
      LiveWithinTotal(fs - {id}, NotOfFile(ix, id));
      SumSplit(OfFile(ix, id), NotOfFile(ix, id), Bytes1);
      assert OfFile(ix, id) + NotOfFile(ix, id) == ix;
    }
  }

  lemma TotalPut(fs: Files, id: nat, f: File)
    ensures Total(fs[id := f]) == FileSize(f) + (if id in fs then Total(fs) - FileSize(fs[id]) else Total(fs))
  {
    hide FileSize;
    TotalRemove(fs[id := f], id);
    if id in fs {
      TotalRemove(fs, id);
    } else {
      assert fs - {id} == fs;
    }
    assert fs[id := f] - {id} == fs - {id};
  }
}
