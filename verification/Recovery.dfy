/** Opening a store: staging batches, replaying hints and scans in file order, cutting the
    torn tail, and choosing the file to append to. */
module Recovery {
  import opened Bytes
  import opened Records
  import opened Log
  import opened Engine
  import opened Hints
  import opened Versions

  // --- staging -------------------------------------------------------------------

  // Which records have been applied and in what order, which still wait for a terminator,
  // and how many records lie before the commit offset.
  datatype Staged = Staged(applied: seq<nat>, pending: seq<nat>, commit: nat)

  function Stage(rs: seq<Record>): Staged {
    if rs == [] then Staged([], [], 0)
    else
      var i := |rs| - 1;
      var s := Stage(rs[..i]);
      if InBatch(rs[i]) then
        if EndsBatch(rs[i]) then Staged(s.applied + (s.pending + [i]), [], i + 1)
        else Staged(s.applied, s.pending + [i], s.commit)
      else Staged(s.applied + [i], s.pending, i + 1)
  }

  function Range(lo: nat, hi: nat): (s: seq<nat>)
    requires lo <= hi
    ensures |s| == hi - lo && forall i :: 0 <= i < hi - lo ==> s[i] == lo + i
  {
    seq(hi - lo, i requires 0 <= i => lo + i)
  }

  // For a log made of whole operations and perhaps a piece of one more: exactly the whole
  // operations are applied, in order, and the commit offset is the end of the last of them.
  lemma {:induction false} StageClosed(rs: seq<Record>)
    requires ModeOf(rs) != Bad
    ensures var c := ClosedPart(rs); Stage(rs) == Staged(Range(0, c), Range(c, |rs|), c)
    decreases |rs|
  {
    hide ClosedPart, InBatch, EndsBatch;
    if rs != [] {
      var i := |rs| - 1;
      var init := rs[..i];
      StageClosed(init);
      ClosedStep(rs);
      var c := ClosedPart(init);
      assert Range(c, i) + [i] == Range(c, i + 1);
      assert Range(0, c) + Range(c, i + 1) == Range(0, i + 1);
      assert c == i ==> Range(0, c) + [i] == Range(0, i + 1);
      assert Range(i + 1, i + 1) == [];
    } else {
      EmptyParts();
      assert ClosedPart(rs) == 0;
    }
  }

  predicate Plain(r: Record) { !InBatch(r) }

  predicate Closes(r: Record) { InBatch(r) && EndsBatch(r) }

  // On any log, well formed or not: a record is applied if and only if it is plain or a terminator
  // comes at it or after it, once; the others wait; and the commit offset lies behind the last
  // record that is plain or a terminator.
  lemma StageIff(rs: seq<Record>)
    ensures var s := Stage(rs);
            && (forall i :: 0 <= i < |rs| ==> (i in s.applied <==> Plain(rs[i]) || TerminatedFrom(rs, i)))
            && (forall i :: 0 <= i < |rs| ==> (i in s.pending <==> !Plain(rs[i]) && !TerminatedFrom(rs, i)))
            && |s.applied| + |s.pending| == |rs| && Commits(rs, s.commit)
  {
    hide Stage, Plain, TerminatedFrom, Commits;
    forall i | 0 <= i < |rs|
      ensures i in Stage(rs).applied <==> Plain(rs[i]) || TerminatedFrom(rs, i)
      ensures i in Stage(rs).pending <==> !Plain(rs[i]) && !TerminatedFrom(rs, i)
    {
      StagedRecord(rs, i);
    }
    StageCommits(rs);
  }

  lemma {:induction false} StagedRecord(rs: seq<Record>, i: nat)
    requires i < |rs|
    ensures i in Stage(rs).applied <==> Plain(rs[i]) || TerminatedFrom(rs, i)
    ensures i in Stage(rs).pending <==> !Plain(rs[i]) && !TerminatedFrom(rs, i)
    decreases |rs|
  {
    hide InBatch, EndsBatch, TerminatedFrom;
    var n := |rs| - 1;
    StageBounds(rs[..n]);
    TerminatedLast(rs);
    if i < n {
      StagedRecord(rs[..n], i);
      TerminatedStep(rs, i);
    }
  }

  lemma TerminatedLast(rs: seq<Record>)
    requires rs != []
    ensures TerminatedFrom(rs, |rs| - 1) <==> Closes(rs[|rs| - 1])
  {
    hide Closes;
  }

  lemma {:induction false} StageCommits(rs: seq<Record>)
    ensures |Stage(rs).applied| + |Stage(rs).pending| == |rs| && Commits(rs, Stage(rs).commit)
    decreases |rs|
  {
    hide InBatch, EndsBatch;
    if rs != [] {
      StageCommits(rs[..|rs| - 1]);
    }
  }

  ghost predicate TerminatedFrom(rs: seq<Record>, i: nat) { exists j :: i <= j < |rs| && Closes(rs[j]) }

  ghost predicate Commits(rs: seq<Record>, c: nat) {
    && c <= |rs| && (c > 0 ==> Plain(rs[c - 1]) || Closes(rs[c - 1]))
    && forall i :: c <= i < |rs| ==> !Plain(rs[i]) && !Closes(rs[i])
  }

  lemma TerminatedStep(rs: seq<Record>, i: nat)
    requires i < |rs| - 1
    ensures TerminatedFrom(rs, i) <==> TerminatedFrom(rs[..|rs| - 1], i) || Closes(rs[|rs| - 1])
  {
    hide Closes;
    var init := rs[..|rs| - 1];
    if TerminatedFrom(init, i) {
      var j :| i <= j < |init| && Closes(init[j]);
      assert Closes(rs[j]);
    }
    if TerminatedFrom(rs, i) {
      var j :| i <= j < |rs| && Closes(rs[j]);
      assert j < |init| ==> Closes(init[j]);
    }
  }

  lemma EmptyParts()
    ensures Range(0, 0) == []
  {
  }

  lemma ClosedStep(rs: seq<Record>)
    requires rs != [] && ModeOf(rs) != Bad
    ensures var i := |rs| - 1;
            && ModeOf(rs[..i]) != Bad
            && ClosedPart(rs) == (if InBatch(rs[i]) && !EndsBatch(rs[i]) then ClosedPart(rs[..i]) else |rs|)
            && (!InBatch(rs[i]) ==> ClosedPart(rs[..i]) == i)
  {
  }

  predicate Within(order: seq<nat>, n: nat) { forall j :: 0 <= j < |order| ==> order[j] < n }

  function ApplyOrder(ix: Index, id: nat, rs: seq<Record>, order: seq<nat>): Index
    requires Within(order, |rs|)
  {
    if order == [] then ix
    else
      var o := order[|order| - 1];
      Apply(ApplyOrder(ix, id, rs, order[..|order| - 1]), rs[o].key, Locate(id, rs, o))
  }

  lemma {:induction false} ApplyOrderConcat(ix: Index, id: nat, rs: seq<Record>, a: seq<nat>, b: seq<nat>)
    requires Within(a, |rs|) && Within(b, |rs|)
    ensures ApplyOrder(ix, id, rs, a + b) == ApplyOrder(ApplyOrder(ix, id, rs, a), id, rs, b)
  {
    if b == [] {
      assert a + b == a;
    } else {
      assert (a + b)[..|a + b| - 1] == a + b[..|b| - 1];
      ApplyOrderConcat(ix, id, rs, a, b[..|b| - 1]);
    }
  }

  lemma {:induction false} ApplyRange(ix: Index, id: nat, rs: seq<Record>, n: nat)
    requires n <= |rs|
    ensures Within(Range(0, n), |rs|) && ApplyOrder(ix, id, rs, Range(0, n)) == Replay(ix, id, rs, 0, n)
  {
    if n > 0 {
      ApplyRange(ix, id, rs, n - 1);
      assert Range(0, n)[..n - 1] == Range(0, n - 1);
    }
  }

  lemma {:induction false} StageBounds(rs: seq<Record>)
    ensures Within(Stage(rs).applied, |rs|) && Within(Stage(rs).pending, |rs|)
    ensures Stage(rs).commit <= |rs|
  {
    if rs != [] {
      StageBounds(rs[..|rs| - 1]);
    }
  }

  // The index that scanning a file builds on top of ix.
  function ScanIndex(ix: Index, id: nat, rs: seq<Record>): Index {
    StageBounds(rs);
    ApplyOrder(ix, id, rs, Stage(rs).applied)
  }

  // --- scanning one file into the index -------------------------------------------------

  lemma StagePrefix(rs: seq<Record>, i: nat)
    requires i < |rs|
    ensures var s, t := Stage(rs[..i]), Stage(rs[..i + 1]);
            t == if InBatch(rs[i]) then
                   if EndsBatch(rs[i]) then Staged(s.applied + (s.pending + [i]), [], i + 1)
                   else Staged(s.applied, s.pending + [i], s.commit)
                 else Staged(s.applied + [i], s.pending, i + 1)
  {
    assert rs[..i + 1][..i] == rs[..i];
  }

  method ScanIntoIndex(f: Bytes, id: nat, ix: Index, maxSn: nat) returns (jx: Index, sn: nat, commit: nat)
    ensures var rs := Intact(f);
            && jx == ScanIndex(ix, id, rs)
            && sn == HighestAll(maxSn, rs)
            && Stage(rs).commit <= |rs| && commit == SizeAll(rs[..Stage(rs).commit])
  {
    hide Intact, SizeAll, InBatch, EndsBatch, Stage, ApplyOrder, HighestAll;
    var found, end := ScanFile(f);
    ghost var rs := Intact(f);
    jx, sn, commit := ix, maxSn, 0;
    var pending: seq<(Bytes, Entry)> := [];
    ScanStart(ix, id, rs, maxSn);
    for i := 0 to |found|
      invariant Scanned(ix, id, rs, maxSn, i, jx, sn, commit, pending)
    {
      var pos, r := found[i].0, found[i].1;
      assert r == rs[i] && pos == SizeAll(rs[..i]);
      ScanStep(ix, id, rs, maxSn, i, jx, sn, commit, pending);
      if r.sn > sn { sn := r.sn; }
      var e := Entry(pos, r.sn, id, Size(r), Tomb(r));
      if InBatch(r) {
        pending := pending + [(r.key, e)];
        if EndsBatch(r) {
          jx := ApplyPending(jx, pending);
          pending, commit := [], pos + Size(r);
        }
      } else {
        jx, commit := Apply(jx, r.key, e), pos + Size(r);
      }
    }
    assert rs[..|rs|] == rs;
  }

  // Applying the staged entries in order.
  function AppliedPending(ix: Index, pending: seq<(Bytes, Entry)>): Index {
    if pending == [] then ix
    else
      var p := pending[|pending| - 1];
      Apply(AppliedPending(ix, pending[..|pending| - 1]), p.0, p.1)
  }

  method ApplyPending(ix: Index, pending: seq<(Bytes, Entry)>) returns (jx: Index)
    ensures jx == AppliedPending(ix, pending)
  {
    jx := ix;
    for i := 0 to |pending|
      invariant jx == AppliedPending(ix, pending[..i])
    {
      assert pending[..i + 1][..i] == pending[..i];
      jx := Apply(jx, pending[i].0, pending[i].1);
    }
    assert pending[..|pending|] == pending;
  }

  ghost predicate Waiting(id: nat, rs: seq<Record>, order: seq<nat>, pending: seq<(Bytes, Entry)>) {
    && |pending| == |order|
    && forall j :: 0 <= j < |order| ==> order[j] < |rs| && pending[j] == (rs[order[j]].key, Locate(id, rs, order[j]))
  }

  ghost predicate Scanned(ix: Index, id: nat, rs: seq<Record>, maxSn: nat, i: nat,
                          jx: Index, sn: nat, commit: nat, pending: seq<(Bytes, Entry)>)
  {
    && i <= |rs|
    && var s := Stage(rs[..i]);
    && Within(s.applied, i) && s.commit <= i
    && jx == ApplyOrder(ix, id, rs, s.applied)
    && sn == HighestAll(maxSn, rs[..i]) && commit == SizeAll(rs[..s.commit])
    && Waiting(id, rs, s.pending, pending)
  }

  lemma ScanStart(ix: Index, id: nat, rs: seq<Record>, maxSn: nat)
    ensures Scanned(ix, id, rs, maxSn, 0, ix, maxSn, 0, [])
  {
  }

  lemma {:induction false} PendingIsOrder(ix: Index, id: nat, rs: seq<Record>, order: seq<nat>,
                                          pending: seq<(Bytes, Entry)>)
    requires Waiting(id, rs, order, pending)
    ensures Within(order, |rs|)
    ensures AppliedPending(ix, pending) == ApplyOrder(ix, id, rs, order)
  {
    hide SizeAll;
    if order != [] {
      PendingIsOrder(ix, id, rs, order[..|order| - 1], pending[..|pending| - 1]);
    }
  }

  // One record further.
  lemma ScanStep(ix: Index, id: nat, rs: seq<Record>, maxSn: nat, i: nat,
                 jx: Index, sn: nat, commit: nat, pending: seq<(Bytes, Entry)>)
    requires i < |rs| && Scanned(ix, id, rs, maxSn, i, jx, sn, commit, pending)
    ensures var r, e := rs[i], Locate(id, rs, i);
            var nsn, end, more := if r.sn > sn then r.sn else sn, SizeAll(rs[..i]) + Size(r), pending + [(r.key, e)];
            if InBatch(r) then
              if EndsBatch(r) then Scanned(ix, id, rs, maxSn, i + 1, AppliedPending(jx, more), nsn, end, [])
              else Scanned(ix, id, rs, maxSn, i + 1, jx, nsn, commit, more)
            else Scanned(ix, id, rs, maxSn, i + 1, Apply(jx, r.key, e), nsn, end, pending)
  {
    hide InBatch, EndsBatch, Stage, ApplyOrder, AppliedPending, Apply;
    var s, r, e := Stage(rs[..i]), rs[i], Locate(id, rs, i);
    StagePrefix(rs, i);
    assert rs[..i + 1][..i] == rs[..i];
    var more := pending + [(r.key, e)];
    assert Waiting(id, rs, s.pending + [i], more);
    if InBatch(r) {
      if EndsBatch(r) {
        StageBounds(rs[..i]);
        PendingIsOrder(jx, id, rs, s.pending + [i], more);
        ApplyOrderConcat(ix, id, rs, s.applied, s.pending + [i]);
      }
    } else {
      ApplyOrderSnoc(ix, id, rs, s.applied, i);
    }
  }

  lemma ApplyOrderSnoc(ix: Index, id: nat, rs: seq<Record>, order: seq<nat>, i: nat)
    requires i < |rs| && Within(order, |rs|)
    ensures ApplyOrder(ix, id, rs, order + [i]) == Apply(ApplyOrder(ix, id, rs, order), rs[i].key, Locate(id, rs, i))
  {
    assert (order + [i])[..|order|] == order;
  }

  // --- opening the store ------------------------------------------------------------------

  // What survives on disk: data files, hint files, and the merge watermark.
  datatype Disk = Disk(data: map<nat, Bytes>, hints: map<nat, Bytes>, mergeSn: nat)

  // A data file as its committed records and whatever follows them.
  function LoadFile(b: Bytes): File {
    IntactSound(b);
    var rs := Intact(b);
    var c := ClosedPart(rs);
    PrefixSize(rs, c, |rs|);
    assert rs[..|rs|] == rs;
    File(rs[..c], b[SizeAll(rs[..c])..])
  }

  function Load(data: map<nat, Bytes>): Files { map id | id in data :: LoadFile(data[id]) }

  function ReplayFile(ix: Index, id: nat, f: File): Index { Replay(ix, id, f.recs, 0, |f.recs|) }

  function RecoverIndex(fs: Files, ids: seq<nat>, n: nat): Index
    requires n <= |ids| && forall i :: 0 <= i < |ids| ==> ids[i] in fs
  {
    if n == 0 then map[] else ReplayFile(RecoverIndex(fs, ids, n - 1), ids[n - 1], fs[ids[n - 1]])
  }

  function RecoverSn(data: map<nat, Bytes>, ids: seq<nat>, n: nat): nat
    requires n <= |ids| && forall i :: 0 <= i < |ids| ==> ids[i] in data
  {
    if n == 0 then 0 else HighestAll(RecoverSn(data, ids, n - 1), Intact(data[ids[n - 1]]))
  }

  // The ids on disk, ascending.
  ghost predicate Listing(ids: seq<nat>, keys: set<nat>) {
    && (forall i, j :: 0 <= i < j < |ids| ==> ids[i] < ids[j])
    && (forall i :: 0 <= i < |ids| ==> ids[i] in keys)
    && (forall id :: id in keys ==> id in ids)
  }

  // The engine recovery builds, before it decides whether to open a new file.
  function Reopened(maxSize: nat, data: map<nat, Bytes>, hinted: set<nat>, mergeSn: nat, ids: seq<nat>): Db
    requires ids != [] && forall i :: 0 <= i < |ids| ==> ids[i] in data
  {
    var fs, last := Load(data), ids[|ids| - 1];
    var f := if last in hinted then fs[last] else File(fs[last].recs, []);
    Db(maxSize, fs[last := f], hinted, RecoverIndex(fs, ids, |ids|), last, last + 1,
       RecoverSn(data, ids, |ids|), mergeSn, |f.recs|, NO_MERGE)
  }

  function Restart(maxSize: nat, data: map<nat, Bytes>, hinted: set<nat>, mergeSn: nat, ids: seq<nat>): Db
    requires forall i :: 0 <= i < |ids| ==> ids[i] in data
  {
    var fs := Load(data);
    if ids == [] then OpenNewActive(Db(maxSize, fs, hinted, map[], 0, 0, 0, mergeSn, 0, NO_MERGE))
    else
      var d := Reopened(maxSize, data, hinted, mergeSn, ids);
      if d.active !in hinted && FileSize(d.files[d.active]) < maxSize then d else OpenNewActive(d)
  }

  function CleanHints(disk: Disk): set<nat> {
    set id | id in disk.hints && id in disk.data && ReadHint(disk.hints[id]).clean
  }

  // A hint that reads cleanly lists its whole file; one that does not is cut short.
  predicate HintTrue(disk: Disk, id: nat)
    requires id in disk.hints && id in disk.data
  {
    var h, rs := ReadHint(disk.hints[id]), Intact(disk.data[id]);
    && h.entries <= HintsOf(rs) && ModeOf(rs) == Closed
    && (h.clean ==> h.entries == HintsOf(rs))
  }

  ghost predicate Readable(disk: Disk) {
    && (forall id :: id in disk.data ==> ModeOf(Intact(disk.data[id])) != Bad)
    && (forall id :: id in disk.hints && id in disk.data ==> HintTrue(disk, id))
  }

  // A hint of its file, cut anywhere but between two entries, is as good as none: it is noticed.
  lemma TornHintTrue(disk: Disk, id: nat, n: nat)
    requires id in disk.hints && id in disk.data && TornOff(Intact(disk.data[id]), n, disk.hints[id])
    requires ModeOf(Intact(disk.data[id])) == Closed
    ensures HintTrue(disk, id) && (ReadHint(disk.hints[id]).clean <==> n == |HintBytes(Intact(disk.data[id]))|)
  {
    hide ReadHint, HintsOf, HintBytes, ModeOf, SizeAll, Intact, TornOff;
    IntactSound(disk.data[id]);
    TornRead(Intact(disk.data[id]), n, disk.hints[id]);
  }

  // The hint of some records, cut at n.
  ghost predicate TornOff(rs: seq<Record>, n: nat, h: Bytes) {
    && SizeAll(rs) < U64 && n <= |HintBytes(rs)| && h == HintBytes(rs)[..n]
    && forall m :: 0 <= m < |rs| ==> n != |HintBytes(rs[..m])|
  }

  lemma TornRead(rs: seq<Record>, n: nat, h: Bytes)
    requires AllValid(rs) && TornOff(rs, n, h)
    ensures ReadHint(h).entries <= HintsOf(rs)
    ensures ReadHint(h).clean <==> n == |HintBytes(rs)|
    ensures ReadHint(h).clean ==> ReadHint(h).entries == HintsOf(rs)
  {
    hide ReadHint, HintsOf, HintBytes, SizeAll, AllValid;
    var m := HintCut(rs, n);
    assert rs[..|rs|] == rs;
    assert HintsOf(rs)[..|rs|] == HintsOf(rs);
  }

  // Cut between two entries it reads cleanly, and the records behind the cut are not found.
  lemma ShortHintMisses(disk: Disk, id: nat, m: nat, ix: Index)
    requires id in disk.hints && id in disk.data && m <= |Intact(disk.data[id])|
    requires SizeAll(Intact(disk.data[id])) < U64 && disk.hints[id] == HintBytes(Intact(disk.data[id])[..m])
    ensures IndexFile(disk, id, ix) == Replay(ix, id, Intact(disk.data[id]), 0, m)
  {
    hide ReadHint, HintsOf, HintBytes, SizeAll, Intact, ApplyHints, ScanIndex, Replay;
    var rs := Intact(disk.data[id]);
    IntactSound(disk.data[id]);
    PrefixSize(rs, m, |rs|);
    assert rs[..|rs|] == rs;
    HintRoundTrip(rs[..m]);
    HintIsReplay(ix, id, rs[..m], m);
    ReplayPrefix(ix, id, rs, m, m);
  }

  // A closed log is loaded whole; scanning any readable file replays its committed records.
  lemma ScanIsReplay(ix: Index, id: nat, b: Bytes)
    requires ModeOf(Intact(b)) != Bad
    ensures ScanIndex(ix, id, Intact(b)) == ReplayFile(ix, id, LoadFile(b))
    ensures Stage(Intact(b)).commit <= |Intact(b)|
    ensures Intact(b)[..Stage(Intact(b)).commit] == LoadFile(b).recs
  {
    hide Intact, Stage, ClosedPart, ModeOf, ApplyOrder, Replay;
    var rs := Intact(b);
    StageClosed(rs);
    var c := ClosedPart(rs);
    ApplyRange(ix, id, rs, c);
    ReplayPrefix(ix, id, rs, c, c);
  }

  lemma {:induction false} ReplayPrefix(ix: Index, id: nat, rs: seq<Record>, c: nat, n: nat)
    requires n <= c <= |rs|
    ensures Replay(ix, id, rs[..c], 0, n) == Replay(ix, id, rs, 0, n)
  {
    if n > 0 {
      ReplayPrefix(ix, id, rs, c, n - 1);
      assert rs[..c][..n - 1] == rs[..n - 1];
    }
  }

  lemma HintedWhole(b: Bytes)
    requires ModeOf(Intact(b)) == Closed
    ensures LoadFile(b).recs == Intact(b)
  {
    assert Intact(b)[..|Intact(b)|] == Intact(b);
  }

  // Replaying records already replayed changes nothing.
  lemma {:induction false} ReplayTwice(ix: Index, id: nat, rs: seq<Record>, n: nat, m: nat)
    requires n <= m <= |rs|
    ensures Replay(Replay(ix, id, rs, 0, n), id, rs, 0, m) == Replay(ix, id, rs, 0, m)
    decreases m
  {
    hide SizeAll, Locate;
    var jx := Replay(ix, id, rs, 0, n);
    if n < m {
      ReplayTwice(ix, id, rs, n, m - 1);
    } else {
      ReplayAbsorbed(jx, ix, id, rs, n, n);
    }
  }

  lemma {:induction false} ReplayAbsorbed(jx: Index, ix: Index, id: nat, rs: seq<Record>, n: nat, m: nat)
    requires m <= n <= |rs| && jx == Replay(ix, id, rs, 0, n)
    ensures Replay(jx, id, rs, 0, m) == jx
    decreases m
  {
    if m > 0 {
      ReplayAbsorbed(jx, ix, id, rs, n, m - 1);
      ReplayCovered(ix, id, rs, n, m - 1);
    }
  }

  lemma {:induction false} ReplayCovered(ix: Index, id: nat, rs: seq<Record>, n: nat, i: nat)
    requires i < n <= |rs|
    ensures rs[i].key in Replay(ix, id, rs, 0, n) && rs[i].sn <= Replay(ix, id, rs, 0, n)[rs[i].key].sn
    decreases n
  {
    if i < n - 1 {
      ReplayCovered(ix, id, rs, n - 1, i);
    }
  }

  method ApplyHintEntries(ix: Index, id: nat, hs: seq<HintRec>, maxSn: nat) returns (jx: Index, sn: nat)
    ensures jx == ApplyHints(ix, id, hs, |hs|)
    ensures sn == HintSn(maxSn, hs, |hs|)
  {
    jx, sn := ix, maxSn;
    for i := 0 to |hs|
      invariant jx == ApplyHints(ix, id, hs, i) && sn == HintSn(maxSn, hs, i)
    {
      if hs[i].sn > sn { sn := hs[i].sn; }
      jx := Apply(jx, hs[i].key, HintEntry(hs[i], id));
    }
  }

  function HintSn(m: nat, hs: seq<HintRec>, n: nat): nat
    requires n <= |hs|
  {
    if n == 0 then m
    else
      var p := HintSn(m, hs, n - 1);
      if hs[n - 1].sn > p then hs[n - 1].sn else p
  }

  lemma {:induction false} HintSnIsMax(m: nat, rs: seq<Record>, n: nat)
    requires n <= |rs|
    ensures HintSn(m, HintsOf(rs), n) == HighestAll(m, rs[..n])
  {
    if n > 0 {
      HintSnIsMax(m, rs, n - 1);
      assert rs[..n][..n - 1] == rs[..n - 1];
    }
  }

  // Scanning after a partial hint finds the same maximum.
  lemma HintThenScanSn(m: nat, rs: seq<Record>, n: nat)
    requires n <= |rs|
    ensures HighestAll(HintSn(m, HintsOf(rs), n), rs) == HighestAll(m, rs)
  {
    hide HighestAll, HintSn;
    HintSnIsMax(m, rs, n);
    var p := HighestAll(m, rs[..n]);
    HighestIsMax(m, rs[..n]);
    HighestIsMax(m, rs);
    HighestIsMax(p, rs);
    assert forall i :: 0 <= i < n ==> rs[..n][i] == rs[i];
  }

  lemma HintedIndex(disk: Disk, id: nat, ix: Index, maxSn: nat)
    requires id in disk.hints && id in disk.data && HintTrue(disk, id)
    ensures var h, rs := ReadHint(disk.hints[id]).entries, Intact(disk.data[id]);
            && |h| <= |rs| && ApplyHints(ix, id, h, |h|) == Replay(ix, id, rs, 0, |h|)
            && HintSn(maxSn, h, |h|) == HintSn(maxSn, HintsOf(rs), |h|)
  {
    hide ReadHint, Intact, HintsOf, ModeOf;
    var h, rs := ReadHint(disk.hints[id]).entries, Intact(disk.data[id]);
    HintPrefix(ix, id, h, HintsOf(rs), |h|);
    HintSnPrefix(maxSn, h, HintsOf(rs), |h|);
    HintIsReplay(ix, id, rs, |h|);
  }

  lemma {:induction false} HintPrefix(ix: Index, id: nat, a: seq<HintRec>, b: seq<HintRec>, n: nat)
    requires a <= b && n <= |a|
    ensures ApplyHints(ix, id, a, n) == ApplyHints(ix, id, b, n)
  {
    if n > 0 { HintPrefix(ix, id, a, b, n - 1); }
  }

  lemma {:induction false} HintSnPrefix(m: nat, a: seq<HintRec>, b: seq<HintRec>, n: nat)
    requires a <= b && n <= |a|
    ensures HintSn(m, a, n) == HintSn(m, b, n)
  {
    if n > 0 { HintSnPrefix(m, a, b, n - 1); }
  }

  // --- any disk ------------------------------------------------------------------------------

  // A data file cut at its commit offset.
  function Committed(b: Bytes): File {
    var rs := Intact(b);
    var c := Stage(rs).commit;
    IntactSound(b);
    StageBounds(rs);
    PrefixSize(rs, c, |rs|);
    assert rs[..|rs|] == rs;
    File(rs[..c], b[SizeAll(rs[..c])..])
  }

  predicate Clean(disk: Disk, id: nat) { id in disk.hints && ReadHint(disk.hints[id]).clean }

  // What one file adds to the index: the entries of its hint up to the first problem, and if
  // there was one, or there is no hint, a scan.
  function IndexFile(disk: Disk, id: nat, ix: Index): Index
    requires id in disk.data
  {
    var h := if id in disk.hints then ReadHint(disk.hints[id]).entries else [];
    var jx := ApplyHints(ix, id, h, |h|);
    if Clean(disk, id) then jx else ScanIndex(jx, id, Intact(disk.data[id]))
  }

  function NumberFile(disk: Disk, id: nat, m: nat): nat
    requires id in disk.data
  {
    var h := if id in disk.hints then ReadHint(disk.hints[id]).entries else [];
    var n := HintSn(m, h, |h|);
    if Clean(disk, id) then n else HighestAll(n, Intact(disk.data[id]))
  }

  function IndexFiles(disk: Disk, ids: seq<nat>, n: nat): Index
    requires n <= |ids| && forall i :: 0 <= i < |ids| ==> ids[i] in disk.data
  {
    if n == 0 then map[] else IndexFile(disk, ids[n - 1], IndexFiles(disk, ids, n - 1))
  }

  function NumberFiles(disk: Disk, ids: seq<nat>, n: nat): nat
    requires n <= |ids| && forall i :: 0 <= i < |ids| ==> ids[i] in disk.data
  {
    if n == 0 then 0 else NumberFile(disk, ids[n - 1], NumberFiles(disk, ids, n - 1))
  }

  function AllCommitted(disk: Disk): Files { map id | id in disk.data :: Committed(disk.data[id]) }

  function AllClean(disk: Disk): set<nat> { set id | id in disk.data && Clean(disk, id) }

  // The engine recovery builds from a disk, whatever is on it: the last file is cut at its
  // commit offset and reused if it was scanned and is not full.
  function Opened(disk: Disk, ids: seq<nat>, maxSize: nat): Db
    requires forall i :: 0 <= i < |ids| ==> ids[i] in disk.data
  {
    var fs, hinted := AllCommitted(disk), AllClean(disk);
    if ids == [] then OpenNewActive(Db(maxSize, fs, hinted, map[], 0, 0, 0, disk.mergeSn, 0, NO_MERGE))
    else
      var last := ids[|ids| - 1];
      var f := if Clean(disk, last) then fs[last] else File(fs[last].recs, []);
      var d := Db(maxSize, fs[last := f], hinted, IndexFiles(disk, ids, |ids|), last, last + 1,
                  NumberFiles(disk, ids, |ids|), disk.mergeSn, |f.recs|, NO_MERGE);
      if !Clean(disk, last) && FileSize(f) < maxSize then d else OpenNewActive(d)
  }

  // One file: its hint, then a scan unless the hint read cleanly.
  method LoadIndex(disk: Disk, id: nat, ix: Index, maxSn: nat)
    returns (jx: Index, sn: nat, scanned: bool, commit: nat)
    requires id in disk.data
    ensures jx == IndexFile(disk, id, ix) && sn == NumberFile(disk, id, maxSn) && (scanned <==> !Clean(disk, id))
    ensures scanned ==> commit == SizeAll(Committed(disk.data[id]).recs)
    ensures !scanned <==>
              id in disk.hints && exists hs :: AllHints(hs) && disk.hints[id] == MAGIC + EncodeHints(hs)
  {
    if id in disk.hints {
      HintCleanIff(disk.hints[id]);
    }
    hide AllHints, EncodeHints, ReadHint, Intact, HighestAll, HintSn, Stage, ScanIndex, ApplyHints, SizeAll;
    jx, sn, scanned, commit := ix, maxSn, true, 0;
    NoEntries(ix, id, maxSn);
    if id in disk.hints {
      var h := ReadHint(disk.hints[id]);
      jx, sn := ApplyHintEntries(ix, id, h.entries, maxSn);
      if h.clean {
        scanned := false;
        return;
      }
    }
    jx, sn, commit := ScanIntoIndex(disk.data[id], id, jx, sn);
  }

  lemma NoEntries(ix: Index, id: nat, m: nat)
    ensures ApplyHints(ix, id, [], 0) == ix && HintSn(m, [], 0) == m
  {
  }

  // The last file, if it was scanned, loses its torn tail, and is appended to unless it is full.
  method CutLast(disk: Disk, id: nat, maxSize: nat, fs: Files, scanned: bool, commit: nat)
    returns (files: Files, reuse: bool)
    requires id in fs && (scanned <==> !Clean(disk, id)) && (scanned ==> commit == SizeAll(fs[id].recs))
    ensures LastOpened(disk, id, maxSize, fs, files, reuse)
  {
    hide Clean, SizeAll;
    files := fs;
    LastCut(disk, id, maxSize, fs, commit);
    if scanned && commit < FileSize(files[id]) {
      files := files[id := File(files[id].recs, [])];
    }
    reuse := scanned && FileSize(files[id]) < maxSize;
  }

  // Rebuilds the engine from disk, file by file in ascending id order.
  method Recover(disk: Disk, ids: seq<nat>, maxSize: nat) returns (db: Db)
    requires Listing(ids, disk.data.Keys)
    ensures db == Opened(disk, ids, maxSize)
  {
    hide ReadHint, Committed, Clean, IndexFile, NumberFile, FileSize, Opened, Engine.OpenNewActive, AllHints,
         EncodeHints, SizeAll, LastOpened, AllClean;
    var ix: Index, maxSn, nextID := map[], 0, 0;
    var files := AllCommitted(disk);
    ghost var fs := files;
    var reuse := false;
    for i := 0 to |ids|
      invariant ix == IndexFiles(disk, ids, i) && maxSn == NumberFiles(disk, ids, i)
      invariant i < |ids| || i == 0 ==> files == fs && !reuse
      invariant nextID == if i == 0 then 0 else ids[i - 1] + 1
      invariant 0 < i == |ids| ==> LastOpened(disk, ids[i - 1], maxSize, fs, files, reuse)
    {
      var id := ids[i];
      var scanned, commit;
      ix, maxSn, scanned, commit := LoadIndex(disk, id, ix, maxSn);
      if i == |ids| - 1 {
        files, reuse := CutLast(disk, id, maxSize, files, scanned, commit);
      }
      if id >= nextID { nextID := id + 1; }
    }
    var last := if ids == [] then 0 else ids[|ids| - 1];
    OpenedIs(disk, ids, maxSize, files, reuse);
    db := Db(maxSize, files, AllClean(disk), ix, last, nextID, maxSn, disk.mergeSn,
             if ids == [] then 0 else |files[last].recs|, NO_MERGE);
    if !reuse { db := OpenNewActive(db); }
  }

  // The engine, once the loop has decided about the last file.
  lemma OpenedIs(disk: Disk, ids: seq<nat>, maxSize: nat, files: Files, reuse: bool)
    requires forall i :: 0 <= i < |ids| ==> ids[i] in disk.data
    requires if ids == [] then files == AllCommitted(disk) && !reuse
             else LastOpened(disk, ids[|ids| - 1], maxSize, AllCommitted(disk), files, reuse)
    ensures var last := if ids == [] then 0 else ids[|ids| - 1];
            && (ids != [] ==> last in files)
            && var db := Db(maxSize, files, AllClean(disk), IndexFiles(disk, ids, |ids|), last,
                            if ids == [] then 0 else last + 1, NumberFiles(disk, ids, |ids|), disk.mergeSn,
                            if ids == [] then 0 else |files[last].recs|, NO_MERGE);
            Opened(disk, ids, maxSize) == if reuse then db else OpenNewActive(db)
  {
    hide ReadHint, Committed, Clean, IndexFile, NumberFile, FileSize, Engine.OpenNewActive;
  }

  ghost predicate LastOpened(disk: Disk, last: nat, maxSize: nat, fs: Files, files: Files, reuse: bool) {
    && last in fs
    && files == fs[last := if Clean(disk, last) then fs[last] else File(fs[last].recs, [])]
    && (reuse <==> !Clean(disk, last) && FileSize(files[last]) < maxSize)
  }

  // Nothing to cut leaves the file as it is.
  lemma LastCut(disk: Disk, id: nat, maxSize: nat, fs: Files, commit: nat)
    requires id in fs
    ensures fs[id := fs[id]] == fs
    ensures commit == SizeAll(fs[id].recs) && commit >= FileSize(fs[id]) ==> File(fs[id].recs, []) == fs[id]
  {
    assert |fs[id].tail| == 0 ==> fs[id].tail == [];
  }

  // --- what happens to the files ----------------------------------------------------------------

  ghost predicate Encodes(f: File, b: Bytes) { AllValid(f.recs) && FileBytes(f) == b }

  // Nothing on disk changes but the last file, which loses what follows its commit offset if it was
  // scanned. It is appended to if and only if it was scanned and is not full.
  ghost predicate Resumes(disk: Disk, last: nat, db: Db, maxSize: nat)
    requires last in disk.data
  {
    var cut := SizeAll(Committed(disk.data[last]).recs);
    && db.files.Keys == disk.data.Keys + {db.active} && db.nextID == db.active + 1
    && (forall id :: id in disk.data && id != last ==> Encodes(db.files[id], disk.data[id]))
    && cut <= |disk.data[last]|
    && Encodes(db.files[last], if Clean(disk, last) then disk.data[last] else disk.data[last][..cut])
    && (if !Clean(disk, last) && cut < maxSize then db.active == last
        else db.active == last + 1 && db.files[last + 1] == File([], []))
  }

  lemma OpenedFiles(disk: Disk, ids: seq<nat>, maxSize: nat)
    requires Listing(ids, disk.data.Keys)
    ensures if ids == [] then Opened(disk, ids, maxSize).files == map[0 := File([], [])]
            else Resumes(disk, ids[|ids| - 1], Opened(disk, ids, maxSize), maxSize)
  {
    hide ReadHint, Committed, IndexFiles, NumberFiles, EncodeAll, SizeAll, Encodes;
    if ids == [] {
      assert forall id :: id !in disk.data.Keys;
    } else {
      var last := ids[|ids| - 1];
      forall id | id in disk.data
        ensures id <= last && Encodes(Committed(disk.data[id]), disk.data[id])
      {
        var i :| 0 <= i < |ids| && ids[i] == id;
        CommittedBytes(disk.data[id]);
      }
      CommittedBytes(disk.data[last]);
    }
  }

  lemma CommittedBytes(b: Bytes)
    ensures Encodes(Committed(b), b) && SizeAll(Committed(b).recs) <= |b|
    ensures Encodes(File(Committed(b).recs, []), b[..SizeAll(Committed(b).recs)])
  {
    hide Intact, Stage, EncodeAll, SizeAll;
    var rs := Intact(b);
    IntactSound(b);
    StageBounds(rs);
    var c := Stage(rs).commit;
    PrefixSize(rs, c, |rs|);
    assert rs[..|rs|] == rs && rs[..c] + rs[c..] == rs;
    EncodeAllConcat(rs[..c], rs[c..]);
    assert EncodeAll(rs[..c]) == b[..SizeAll(rs[..c])];
    assert EncodeAll(rs[..c]) + [] == EncodeAll(rs[..c]);
  }

  // --- readable disks ----------------------------------------------------------------------------

  // On a readable disk the index gains exactly the committed records of each file, hint or no
  // hint.
  lemma IndexFileReadable(disk: Disk, id: nat, ix: Index, m: nat)
    requires id in disk.data && Readable(disk)
    ensures IndexFile(disk, id, ix) == ReplayFile(ix, id, LoadFile(disk.data[id]))
    ensures NumberFile(disk, id, m) == HighestAll(m, Intact(disk.data[id]))
    ensures Committed(disk.data[id]) == LoadFile(disk.data[id])
  {
    hide ReadHint, Intact, HintsOf, ModeOf, HighestAll, HintSn, Replay, Stage, ScanIndex, SizeAll, ApplyHints,
         ClosedPart;
    var rs := Intact(disk.data[id]);
    ScanIsReplay(ix, id, disk.data[id]);
    StageClosed(rs);
    NoEntries(ix, id, m);
    if id in disk.hints {
      assert HintTrue(disk, id);
      var h := ReadHint(disk.hints[id]);
      HintedIndex(disk, id, ix, m);
      HintedWhole(disk.data[id]);
      ReplayTwice(ix, id, rs, |h.entries|, |rs|);
      HintThenScanSn(m, rs, |h.entries|);
      HintSnIsMax(m, rs, |h.entries|);
      ScanIsReplay(ApplyHints(ix, id, h.entries, |h.entries|), id, disk.data[id]);
      assert rs[..|rs|] == rs;
    }
  }

  lemma {:induction false} IndexFilesReadable(disk: Disk, ids: seq<nat>, n: nat)
    requires n <= |ids| && (forall i :: 0 <= i < |ids| ==> ids[i] in disk.data) && Readable(disk)
    ensures IndexFiles(disk, ids, n) == RecoverIndex(Load(disk.data), ids, n)
    ensures NumberFiles(disk, ids, n) == RecoverSn(disk.data, ids, n)
  {
    hide IndexFile, NumberFile, ReplayFile, HighestAll, Intact, LoadFile, Readable, Committed;
    if n > 0 {
      IndexFilesReadable(disk, ids, n - 1);
      IndexFileReadable(disk, ids[n - 1], IndexFiles(disk, ids, n - 1), NumberFiles(disk, ids, n - 1));
    }
  }

  // Recovery from a readable disk is a restart over the committed records.
  lemma OpenedReadable(disk: Disk, ids: seq<nat>, maxSize: nat)
    requires (forall i :: 0 <= i < |ids| ==> ids[i] in disk.data) && Readable(disk)
    ensures Opened(disk, ids, maxSize) == Restart(maxSize, disk.data, CleanHints(disk), disk.mergeSn, ids)
  {
    hide IndexFiles, NumberFiles, RecoverIndex, RecoverSn, LoadFile, Readable, Committed, FileSize, ReadHint, Intact,
         HighestAll;
    IndexFilesReadable(disk, ids, |ids|);
    forall id | id in disk.data ensures Committed(disk.data[id]) == LoadFile(disk.data[id]) {
      IndexFileReadable(disk, id, map[], 0);
    }
    assert AllCommitted(disk) == Load(disk.data);
    assert AllClean(disk) == CleanHints(disk);
  }
}
