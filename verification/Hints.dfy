/** Hint files: the sidecar that lists every record of an immutable data file. */
module Hints {
  import opened Bytes
  import opened Records
  import opened Log
  import opened Engine

  const HINT_HEADER: nat := 25
  const MAGIC: Bytes := [71, 79, 75, 86, 72, 78, 84, 49]  // GOKVHNT1

  datatype HintRec = HintRec(key: Bytes, sn: nat, pos: nat, size: nat, flags: byte)

  // What the hint writer is given for record i.
  function HintOf(rs: seq<Record>, i: nat): HintRec
    requires i < |rs|
  {
    HintRec(rs[i].key, rs[i].sn, SizeAll(rs[..i]), Size(rs[i]), rs[i].flags)
  }

  predicate ValidHint(h: HintRec) {
    h.sn < U64 && h.pos < U64 && h.size < U32 && 0 < |h.key| <= MAX_KEY
  }

  function EncodeHint(h: HintRec): (b: Bytes)
    ensures |b| == HINT_HEADER + |h.key|
  {
    LE(h.sn, 8) + [h.flags] + LE(h.pos, 8) + LE(h.size, 4) + LE(|h.key|, 4) + h.key
  }

  function EncodeHints(hs: seq<HintRec>): Bytes {
    if hs == [] then [] else EncodeHint(hs[0]) + EncodeHints(hs[1..])
  }

  function HintsOf(rs: seq<Record>): (hs: seq<HintRec>)
    ensures |hs| == |rs| && forall i :: 0 <= i < |rs| ==> hs[i] == HintOf(rs, i)
  {
    seq(|rs|, i requires 0 <= i < |rs| => HintOf(rs, i))
  }

  function HintBytes(rs: seq<Record>): Bytes { MAGIC + EncodeHints(HintsOf(rs)) }

  // --- reading -----------------------------------------------------------------

  function HeadKeyLen(b: Bytes): nat requires |b| >= HINT_HEADER { FromLE(b[21..25]) }

  predicate HeadOk(b: Bytes) {
    |b| >= HINT_HEADER && 0 < HeadKeyLen(b) <= MAX_KEY && HINT_HEADER + HeadKeyLen(b) <= |b|
  }

  function Head(b: Bytes): HintRec
    requires HeadOk(b)
  {
    HintRec(b[HINT_HEADER..HINT_HEADER + HeadKeyLen(b)], FromLE(b[0..8]), FromLE(b[9..17]), FromLE(b[17..21]), b[8])
  }

  // The entries before the first problem, and whether the file ended cleanly.
  datatype Read = Read(entries: seq<HintRec>, clean: bool)

  function Entries(b: Bytes): Read
    decreases |b|
  {
    if b == [] then Read([], true)
    else if !HeadOk(b) then Read([], false)
    else
      var rest := Entries(b[HINT_HEADER + HeadKeyLen(b)..]);
      Read([Head(b)] + rest.entries, rest.clean)
  }

  function ReadHint(b: Bytes): Read {
    if |b| < |MAGIC| || b[..|MAGIC|] != MAGIC then Read([], false) else Entries(b[|MAGIC|..])
  }

  lemma HintFields(h: HintRec, rest: Bytes)
    ensures var b := EncodeHint(h) + rest;
            && b[0..8] == LE(h.sn, 8) && b[8] == h.flags && b[9..17] == LE(h.pos, 8)
            && b[17..21] == LE(h.size, 4) && b[21..25] == LE(|h.key|, 4)
            && b[25..25 + |h.key|] == h.key && b[25 + |h.key|..] == rest
  {
  }

  lemma HeadEncoded(h: HintRec, rest: Bytes)
    requires ValidHint(h)
    ensures var b := EncodeHint(h) + rest;
            HeadOk(b) && HeadKeyLen(b) == |h.key| && Head(b) == h && b[HINT_HEADER + HeadKeyLen(b)..] == rest
  {
    hide EncodeHint, LE, FromLE;
    HintFields(h, rest);
    PowersOf256();
    LERoundTrip(h.sn, 8);
    LERoundTrip(h.pos, 8);
    LERoundTrip(h.size, 4);
    LERoundTrip(|h.key|, 4);
  }

  ghost predicate AllHints(hs: seq<HintRec>) { forall i :: 0 <= i < |hs| ==> ValidHint(hs[i]) }

  lemma {:induction false} EntriesEncoded(hs: seq<HintRec>)
    requires AllHints(hs)
    ensures Entries(EncodeHints(hs)) == Read(hs, true)
  {
    hide EncodeHint, HeadOk, Head, HeadKeyLen;
    if hs != [] {
      var rest := EncodeHints(hs[1..]);
      HeadEncoded(hs[0], rest);
      EntriesEncoded(hs[1..]);
      assert [hs[0]] + hs[1..] == hs;
    }
  }

  // A hint written for a file lists exactly the records of that file.
  lemma HintRoundTrip(rs: seq<Record>)
    requires AllValid(rs) && SizeAll(rs) < U64
    ensures ReadHint(HintBytes(rs)) == Read(HintsOf(rs), true)
  {
    hide EncodeHints, Entries, SizeAll;
    var hs := HintsOf(rs);
    ValidHints(rs);
    EntriesEncoded(hs);
    assert HintBytes(rs)[|MAGIC|..] == EncodeHints(hs);
  }

  lemma ValidHints(rs: seq<Record>)
    requires AllValid(rs) && SizeAll(rs) < U64
    ensures AllHints(HintsOf(rs))
  {
    hide SizeAll;
    var hs := HintsOf(rs);
    forall i | 0 <= i < |rs| ensures ValidHint(hs[i]) {
      PrefixSize(rs, i, |rs|);
      assert rs[..|rs|] == rs;
    }
  }

  // --- damaged hints ------------------------------------------------------------------

  // Whatever is taken for an entry is the encoding of one.
  lemma HeadDecoded(b: Bytes)
    requires HeadOk(b)
    ensures ValidHint(Head(b)) && b == EncodeHint(Head(b)) + b[HINT_HEADER + HeadKeyLen(b)..]
  {
    hide LE, FromLE;
    PowersOf256();
    LEInverse(b[0..8]);
    LEInverse(b[9..17]);
    LEInverse(b[17..21]);
    LEInverse(b[21..25]);
    var k := HINT_HEADER + HeadKeyLen(b);
    assert b == b[0..8] + [b[8]] + b[9..17] + b[17..21] + b[21..25] + b[HINT_HEADER..k] + b[k..];
  }

  // No entry begins here.
  ghost predicate NoEntry(b: Bytes) { forall h :: ValidHint(h) ==> !(EncodeHint(h) <= b) }

  lemma NoEntryUnless(b: Bytes)
    ensures HeadOk(b) || NoEntry(b)
  {
    hide HeadOk, EncodeHint;
    forall h | ValidHint(h) && EncodeHint(h) <= b ensures HeadOk(b) {
      BeginsOk(h, b);
    }
  }

  lemma BeginsOk(h: HintRec, b: Bytes)
    requires ValidHint(h) && EncodeHint(h) <= b
    ensures HeadOk(b)
  {
    hide HeadOk, EncodeHint, Head, HeadKeyLen;
    HeadEncoded(h, b[|EncodeHint(h)|..]);
    assert b == EncodeHint(h) + b[|EncodeHint(h)|..];
  }

  // On any bytes: the entries read are a prefix of the file, and the file is clean if and only if
  // they are all of it; otherwise no entry begins where they end.
  lemma {:induction false} EntriesSound(b: Bytes)
    ensures var r := Entries(b);
            && AllHints(r.entries) && EncodeHints(r.entries) <= b
            && (r.clean <==> EncodeHints(r.entries) == b)
            && (!r.clean ==> NoEntry(b[|EncodeHints(r.entries)|..]))
    decreases |b|
  {
    hide HeadOk, Head, HeadKeyLen, EncodeHint, NoEntry;
    if b == [] {
    } else if !HeadOk(b) {
      NoEntryUnless(b);
      assert b[0..] == b;
    } else {
      HeadDecoded(b);
      EntriesPast(b);
      var rest := b[HINT_HEADER + HeadKeyLen(b)..];
      EntriesSound(rest);
      Prefixed(EncodeHint(Head(b)), EncodeHints(Entries(rest).entries), rest);
    }
  }

  lemma EntriesPast(b: Bytes)
    requires HeadOk(b)
    ensures HINT_HEADER + HeadKeyLen(b) <= |b|
    ensures var rest, r := b[HINT_HEADER + HeadKeyLen(b)..], Entries(b);
            && r == Read([Head(b)] + Entries(rest).entries, Entries(rest).clean)
            && EncodeHints(r.entries) == EncodeHint(Head(b)) + EncodeHints(Entries(rest).entries)
  {
    hide EncodeHint, Head;
    var rest := b[HINT_HEADER + HeadKeyLen(b)..];
    assert ([Head(b)] + Entries(rest).entries)[1..] == Entries(rest).entries;
  }

  // A hint reads cleanly if and only if it is the header and whole entries.
  lemma HintCleanIff(b: Bytes)
    ensures ReadHint(b).clean <==> exists hs :: AllHints(hs) && b == MAGIC + EncodeHints(hs)
    ensures ReadHint(b).clean ==> b == MAGIC + EncodeHints(ReadHint(b).entries)
    ensures forall hs :: AllHints(hs) && b == MAGIC + EncodeHints(hs) ==> ReadHint(b).entries == hs
  {
    hide Entries, EncodeHints, NoEntry, AllHints;
    if MAGIC <= b {
      EntriesSound(b[|MAGIC|..]);
      assert b == MAGIC + b[|MAGIC|..];
    }
    forall hs | AllHints(hs) && b == MAGIC + EncodeHints(hs) ensures ReadHint(b) == Read(hs, true) {
      EntriesEncoded(hs);
      assert b[|MAGIC|..] == EncodeHints(hs);
    }
  }

  // An entry cut anywhere is not there.
  lemma TornHead(h: HintRec, n: nat)
    requires ValidHint(h) && n < |EncodeHint(h)|
    ensures !HeadOk(EncodeHint(h)[..n])
  {
    hide EncodeHint, LE, FromLE;
    var b := EncodeHint(h)[..n];
    HintFields(h, []);
    assert EncodeHint(h) + [] == EncodeHint(h);
    if n >= HINT_HEADER {
      PowersOf256();
      LERoundTrip(|h.key|, 4);
      assert b[21..25] == EncodeHint(h)[21..25];
    }
  }

  // Entries cut at any byte: exactly those that fit are read, and a cut inside an entry is noticed.
  lemma {:induction false} EntriesCut(hs: seq<HintRec>, n: nat) returns (m: nat)
    requires AllHints(hs) && n <= |EncodeHints(hs)|
    ensures m <= |hs| && |EncodeHints(hs[..m])| <= n && (m < |hs| ==> n < |EncodeHints(hs[..m + 1])|)
    ensures Entries(EncodeHints(hs)[..n]) == Read(hs[..m], n == |EncodeHints(hs[..m])|)
    decreases |hs|
  {
    hide EncodeHint, HeadOk, Head, HeadKeyLen;
    if hs == [] {
      m := 0;
    } else if n < |EncodeHint(hs[0])| {
      m := 0;
      var b := EncodeHints(hs)[..n];
      assert b == EncodeHint(hs[0])[..n];
      TornHead(hs[0], n);
      assert hs[..1] == [hs[0]] && hs[..0] == [];
      OneHint(hs[0]);
      NoHints();
    } else {
      var size := |EncodeHint(hs[0])|;
      var rest := EncodeHints(hs[1..])[..n - size];
      m := EntriesCut(hs[1..], n - size);
      HintsCons(hs, m);
      if m < |hs[1..]| {
        HintsCons(hs, m + 1);
      }
      assert EncodeHints(hs)[..n] == EncodeHint(hs[0]) + rest;
      HeadEncoded(hs[0], rest);
      assert [hs[0]] + hs[1..][..m] == hs[..m + 1];
      m := m + 1;
    }
  }

  lemma OneHint(h: HintRec)
    ensures EncodeHints([h]) == EncodeHint(h)
  {
    assert [h][1..] == [];
    assert EncodeHint(h) + [] == EncodeHint(h);
  }

  lemma HintsCons(hs: seq<HintRec>, m: nat)
    requires hs != [] && m <= |hs[1..]|
    ensures EncodeHints(hs[..m + 1]) == EncodeHint(hs[0]) + EncodeHints(hs[1..][..m])
  {
    assert hs[..m + 1][1..] == hs[1..][..m];
  }

  // A hint file cut at any byte.
  lemma HintCut(rs: seq<Record>, n: nat) returns (m: nat)
    requires AllValid(rs) && SizeAll(rs) < U64 && n <= |HintBytes(rs)|
    ensures m <= |rs| && (m < |rs| ==> n < |HintBytes(rs[..m + 1])| <= |HintBytes(rs)|)
    ensures ReadHint(HintBytes(rs)[..n]) == Read(HintsOf(rs)[..m], n == |HintBytes(rs[..m])|)
    ensures n < |MAGIC| || |HintBytes(rs[..m])| <= n
  {
    hide EncodeHints, Entries, SizeAll, AllHints;
    var hs := HintsOf(rs);
    ValidHints(rs);
    var b := HintBytes(rs)[..n];
    if n < |MAGIC| {
      m := 0;
    } else {
      m := EntriesCut(hs, n - |MAGIC|);
      assert b[..|MAGIC|] == MAGIC && b[|MAGIC|..] == EncodeHints(hs)[..n - |MAGIC|];
      HintsOfPrefix(rs, m);
    }
    if m < |rs| {
      HintsOfPrefix(rs, m + 1);
      HintsSize(hs, m + 1);
    }
  }

  lemma {:induction false} HintsSize(hs: seq<HintRec>, m: nat)
    requires m <= |hs|
    ensures |EncodeHints(hs[..m])| <= |EncodeHints(hs)|
    decreases |hs| - m
  {
    hide EncodeHint;
    if m == |hs| {
      assert hs[..m] == hs;
    } else {
      HintsSize(hs, m + 1);
      EncodeHintsSnoc(hs[..m], hs[m]);
      assert hs[..m + 1] == hs[..m] + [hs[m]];
    }
  }

  lemma HintsOfPrefix(rs: seq<Record>, m: nat)
    requires m <= |rs|
    ensures HintsOf(rs[..m]) == HintsOf(rs)[..m]
  {
    assert forall i :: 0 <= i < m ==> rs[..m][..i] == rs[..i];
  }

  // --- replaying ------------------------------------------------------------------

  function HintEntry(h: HintRec, id: nat): Entry { Entry(h.pos, h.sn, id, h.size, h.flags % 2 == 1) }

  function ApplyHints(ix: Index, id: nat, hs: seq<HintRec>, n: nat): Index
    requires n <= |hs|
  {
    if n == 0 then ix else Apply(ApplyHints(ix, id, hs, n - 1), hs[n - 1].key, HintEntry(hs[n - 1], id))
  }

  // Replaying the hint builds the index that replaying every record builds.
  lemma {:induction false} HintIsReplay(ix: Index, id: nat, rs: seq<Record>, n: nat)
    requires n <= |rs|
    ensures ApplyHints(ix, id, HintsOf(rs), n) == Replay(ix, id, rs, 0, n)
  {
    if n > 0 {
      HintIsReplay(ix, id, rs, n - 1);
    }
  }

  // --- building ---------------------------------------------------------------------

  lemma {:induction false} EncodeHintsSnoc(hs: seq<HintRec>, h: HintRec)
    ensures EncodeHints(hs + [h]) == EncodeHints(hs) + EncodeHint(h)
  {
    hide EncodeHint;
    if hs == [] {
      assert hs + [h] == [h] && [h][1..] == [];
      assert EncodeHints([h]) == EncodeHint(h) + [];
    } else {
      assert (hs + [h])[1..] == hs[1..] + [h];
      EncodeHintsSnoc(hs[1..], h);
      Associative(EncodeHint(hs[0]), EncodeHints(hs[1..]), EncodeHint(h));
    }
  }

  // Scans a data file and lists every intact record.
  method BuildHint(f: Bytes) returns (h: Bytes)
    ensures h == HintBytes(Intact(f))
  {
    hide EncodeHint, EncodeHints, Intact, SizeAll;
    var found, _ := ScanFile(f);
    ghost var rs := Intact(f);
    var body: Bytes := [];
    assert HintsOf(rs)[..0] == [];
    assert body == EncodeHints([]) by { NoHints(); }
    for i := 0 to |found|
      invariant body == EncodeHints(HintsOf(rs)[..i])
    {
      var hr := HintRec(found[i].1.key, found[i].1.sn, found[i].0, Size(found[i].1), found[i].1.flags);
      EncodeHintsSnoc(HintsOf(rs)[..i], hr);
      assert HintsOf(rs)[..i + 1] == HintsOf(rs)[..i] + [hr];
      body := body + EncodeHint(hr);
    }
    assert HintsOf(rs)[..|rs|] == HintsOf(rs);
    h := MAGIC + body;
  }

  lemma NoHints()
    ensures EncodeHints([]) == []
  {
  }
}
