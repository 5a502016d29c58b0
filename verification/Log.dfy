/** A data file as a list of records: its bytes, the scanner that survives a torn
    tail, lookup by byte offset, and the staging of batches. */
module Log {
  import opened Bytes
  import opened Records

  predicate AllValid(rs: seq<Record>) { forall i :: 0 <= i < |rs| ==> Valid(rs[i]) }

  function SizeAll(rs: seq<Record>): nat {
    if rs == [] then 0 else SizeAll(rs[..|rs| - 1]) + Size(rs[|rs| - 1])
  }

  function EncodeAll(rs: seq<Record>): (b: Bytes)
    requires AllValid(rs)
    ensures |b| == SizeAll(rs)
  {
    if rs == [] then []
    else EncodeAll(rs[..|rs| - 1]) + Encode(rs[|rs| - 1])
  }

  lemma NoSize()
    ensures SizeAll([]) == 0
  {
  }

  lemma NoBytes(rs: seq<Record>)
    requires SizeAll(rs) == 0
    ensures rs == []
  {
  }

  lemma {:induction false} SizeAllConcat(a: seq<Record>, b: seq<Record>)
    ensures SizeAll(a + b) == SizeAll(a) + SizeAll(b)
  {
    if b == [] {
      assert a + b == a;
    } else {
      assert (a + b)[..|a + b| - 1] == a + b[..|b| - 1];
      SizeAllConcat(a, b[..|b| - 1]);
    }
  }

  lemma {:induction false} EncodeAllConcat(a: seq<Record>, b: seq<Record>)
    requires AllValid(a) && AllValid(b)
    ensures AllValid(a + b) && EncodeAll(a + b) == EncodeAll(a) + EncodeAll(b)
  {
    hide Encode, Decode;
    if b == [] {
      assert a + b == a;
    } else {
      assert (a + b)[..|a + b| - 1] == a + b[..|b| - 1];
      EncodeAllConcat(a, b[..|b| - 1]);
    }
  }

  lemma PrefixSize(rs: seq<Record>, i: nat, j: nat)
    requires i <= j <= |rs|
    ensures SizeAll(rs[..i]) <= SizeAll(rs[..j])
    ensures i < j ==> SizeAll(rs[..i]) + Size(rs[i]) <= SizeAll(rs[..j])
  {
    assert rs[..j] == rs[..i] + rs[i..j];
    SizeAllConcat(rs[..i], rs[i..j]);
    if i < j {
      assert rs[i..j] == [rs[i]] + rs[i + 1..j];
      SizeAllConcat([rs[i]], rs[i + 1..j]);
    }
  }

  lemma SplitAt<T>(s: seq<T>, k: nat)
    requires k < |s|
    ensures s == s[..k] + ([s[k]] + s[k + 1..])
  {
  }

  lemma Associative<T>(a: seq<T>, b: seq<T>, c: seq<T>)
    ensures (a + b) + c == a + (b + c)
  {
  }

  lemma Slices<T>(a: seq<T>, b: seq<T>, c: seq<T>, m: nat)
    requires m <= |b|
    ensures (a + (b + c))[..|a| + m] == a + b[..m]
    ensures (a + (b + c))[|a|..|a| + |b|] == b
  {
  }

  lemma EncodeOne(r: Record)
    requires Valid(r)
    ensures EncodeAll([r]) == Encode(r) && SizeAll([r]) == Size(r)
  {
    hide Encode;
    assert [r][..0] == [];
  }

  lemma EncodeSplit(rs: seq<Record>, k: nat)
    requires AllValid(rs) && k < |rs|
    ensures EncodeAll(rs) == EncodeAll(rs[..k]) + (Encode(rs[k]) + EncodeAll(rs[k + 1..]))
  {
    hide Encode, EncodeAll, SizeAll;
    var tail := rs[k + 1..];
    SplitAt(rs, k);
    EncodeOne(rs[k]);
    EncodeAllConcat([rs[k]], tail);
    EncodeAllConcat(rs[..k], [rs[k]] + tail);
  }

  // --- scanning ----------------------------------------------------------------

  // The record at the head of b, if one is wholly there and intact.
  function Next(b: Bytes): (o: Option<Record>)
    ensures o.Some? ==> Valid(o.value) && Size(o.value) <= |b| && Encode(o.value) == b[..Size(o.value)]
  {
    if |b| < HEADER then None
    else
      var kl, vl := KeyLen(b), ValLen(b);
      if kl == 0 || kl > MAX_KEY || vl > MAX_VALUE then None
      else if HEADER + kl + vl > |b| then None
      else
        var raw := b[..HEADER + kl + vl];
        match Decode(raw)
        case Decoded(r) =>
          assert raw[21..25] == b[21..25] && raw[25..29] == b[25..29];
          EncodeDecode(raw);
          Some(r)
        case _ => None
  }

  function Intact(b: Bytes): (rs: seq<Record>)
    decreases |b|
  {
    var n := Next(b);
    if n.None? then [] else [n.value] + Intact(b[Size(n.value)..])
  }

  // The scanner: every intact record with its offset, and the end of the last one.
  method ScanFile(f: Bytes) returns (found: seq<(nat, Record)>, end: nat)
    ensures |found| == |Intact(f)| && end == SizeAll(Intact(f))
    ensures forall i :: 0 <= i < |found| ==> found[i] == (SizeAll(Intact(f)[..i]), Intact(f)[i])
  {
    hide Next, Encode;
    found, end := [], 0;
    ghost var rs: seq<Record> := [];
    while true
      invariant end <= |f| && end == SizeAll(rs) && |found| == |rs|
      invariant rs + Intact(f[end..]) == Intact(f)
      invariant forall i :: 0 <= i < |found| ==> found[i] == (SizeAll(rs[..i]), rs[i])
      decreases |f| - end
    {
      var n := Next(f[end..]);
      if n.None? {
        assert rs == Intact(f);
        return;
      }
      ghost var more := rs + [n.value];
      assert f[end..][Size(n.value)..] == f[end + Size(n.value)..];
      assert more + Intact(f[end + Size(n.value)..]) == rs + Intact(f[end..]);
      assert more[..|more| - 1] == rs;
      assert forall i :: 0 <= i < |rs| ==> more[..i] == rs[..i];
      found, end, rs := found + [(end, n.value)], end + Size(n.value), more;
    }
  }

  lemma NextEncoded(r: Record, rest: Bytes)
    requires Valid(r)
    ensures Next(Encode(r) + rest) == Some(r)
  {
    var b := Encode(r) + rest;
    EncodedFields(r);
    DecodeEncode(r);
    assert b[21..25] == Encode(r)[21..25] && b[25..29] == Encode(r)[25..29];
    assert b[..Size(r)] == Encode(r);
  }

  lemma NextShort(b: Bytes)
    requires |b| < HEADER
    ensures Next(b) == None
  {
  }

  // A record cut anywhere is not there.
  lemma NextTorn(r: Record, n: nat)
    requires Valid(r) && n < Size(r)
    ensures Next(Encode(r)[..n]) == None
  {
    EncodedFields(r);
    var b := Encode(r)[..n];
    if n >= HEADER {
      assert b[21..25] == Encode(r)[21..25] && b[25..29] == Encode(r)[25..29];
    }
  }

  lemma IntactCons(r: Record, b: Bytes)
    requires Valid(r)
    ensures Intact(Encode(r) + b) == [r] + Intact(b)
  {
    hide Encode, Next;
    NextEncoded(r, b);
    assert (Encode(r) + b)[Size(r)..] == b;
  }

  lemma {:induction false} IntactEncoded(rs: seq<Record>, tail: Bytes)
    requires AllValid(rs)
    ensures Intact(EncodeAll(rs) + tail) == rs + Intact(tail)
    decreases |rs|
  {
    hide Encode, Intact;
    if rs == [] {
      assert EncodeAll(rs) + tail == tail;
    } else {
      var r, rest := rs[0], rs[1..];
      EncodeSplit(rs, 0);
      assert EncodeAll(rs) == Encode(r) + EncodeAll(rest);
      Associative(Encode(r), EncodeAll(rest), tail);
      IntactCons(r, EncodeAll(rest) + tail);
      IntactEncoded(rest, tail);
      Associative([r], rest, Intact(tail));
      assert [r] + rest == rs;
    }
  }

  // How many leading records end within the first n bytes.
  function Fit(rs: seq<Record>, n: nat): (k: nat)
    ensures k <= |rs|
    ensures SizeAll(rs[..k]) <= n
    ensures forall j :: k < j <= |rs| ==> n < SizeAll(rs[..j])
  {
    if SizeAll(rs) <= n then assert rs[..|rs|] == rs; |rs|
    else
      var init := rs[..|rs| - 1];
      assert forall j :: 0 <= j <= |init| ==> init[..j] == rs[..j];
      assert rs[..|rs|] == rs;
      Fit(init, n)
  }

  // Cutting inside record k leaves the k records before it and a torn piece of it.
  lemma TornInside(rs: seq<Record>, k: nat, m: nat)
    requires AllValid(rs) && k < |rs| && m < Size(rs[k])
    ensures SizeAll(rs[..k]) + m <= SizeAll(rs)
    ensures EncodeAll(rs)[..SizeAll(rs[..k]) + m] == EncodeAll(rs[..k]) + Encode(rs[k])[..m]
  {
    hide Encode, EncodeAll, SizeAll;
    var a, b, c := EncodeAll(rs[..k]), Encode(rs[k]), EncodeAll(rs[k + 1..]);
    EncodeSplit(rs, k);
    hide AllValid;
    assert |a + (b + c)| == |a| + |b| + |c|;
    Slices(a, b, c, m);
  }

  // A log cut at any byte: the scanner returns exactly the records that fit, and stops
  // at the end of the last of them.
  lemma IntactTruncated(rs: seq<Record>, n: nat)
    requires AllValid(rs) && n <= SizeAll(rs)
    ensures Intact(EncodeAll(rs)[..n]) == rs[..Fit(rs, n)]
  {
    hide Encode, Next, EncodeAll, Fit;
    var k := Fit(rs, n);
    if k == |rs| {
      assert rs[..k] == rs;
      assert EncodeAll(rs)[..n] == EncodeAll(rs) + [];
      IntactEncoded(rs, []);
      NextShort([]);
    } else {
      var m := n - SizeAll(rs[..k]);
      assert rs[..k + 1][..k] == rs[..k];
      TornInside(rs, k, m);
      NextTorn(rs[k], m);
      IntactEncoded(rs[..k], Encode(rs[k])[..m]);
    }
  }

  lemma NextDamaged(r: Record, j: nat, x: byte, rest: Bytes)
    requires Valid(r) && j < Size(r) && !(21 <= j < HEADER) && x != Encode(r)[j]
    ensures Next(Encode(r)[j := x] + rest) == None
  {
    hide Encode, Decode, LE, FromLE;
    EncodedFields(r);
    OneByteCaught(r, j, x);
    var d := Encode(r)[j := x];
    var b := d + rest;
    assert b[21..25] == Encode(r)[21..25] && b[25..29] == Encode(r)[25..29];
    assert b[..Size(r)] == d;
  }

  // A log with one damaged byte, outside the length fields of record k: the scanner returns exactly
  // the records before it.
  lemma IntactDamaged(rs: seq<Record>, k: nat, j: nat, x: byte)
    requires AllValid(rs) && k < |rs| && j < Size(rs[k]) && !(21 <= j < HEADER) && x != Encode(rs[k])[j]
    ensures SizeAll(rs[..k]) + j < |EncodeAll(rs)|
    ensures Intact(EncodeAll(rs)[SizeAll(rs[..k]) + j := x]) == rs[..k]
  {
    hide Encode, EncodeAll, SizeAll, Next;
    var a, b, c := EncodeAll(rs[..k]), Encode(rs[k]), EncodeAll(rs[k + 1..]);
    EncodeSplit(rs, k);
    hide AllValid;
    Replaced(a, b, c, j, x);
    NextDamaged(rs[k], j, x, c);
    IntactEncoded(rs[..k], b[j := x] + c);
  }

  lemma Replaced<T>(a: seq<T>, b: seq<T>, c: seq<T>, j: nat, x: T)
    requires j < |b|
    ensures (a + (b + c))[|a| + j := x] == a + (b[j := x] + c)
  {
  }

  // Whatever the bytes, what the scanner accepts is a prefix of the file.
  lemma {:induction false} IntactSound(b: Bytes)
    ensures AllValid(Intact(b)) && SizeAll(Intact(b)) <= |b|
    ensures EncodeAll(Intact(b)) == b[..SizeAll(Intact(b))]
    decreases |b|
  {
    hide Encode, Next;
    var n := Next(b);
    if n.Some? {
      var r, rest := n.value, b[Size(n.value)..];
      IntactSound(rest);
      var rs := Intact(rest);
      var size := SizeAll(rs);
      assert Intact(b) == [r] + rs;
      EncodeOne(r);
      EncodeAllConcat([r], rs);
      SizeAllConcat([r], rs);
      assert b[..Size(r) + size] == b[..Size(r)] + rest[..size];
    }
  }

  // --- lookup by offset ----------------------------------------------------------

  // The record that starts at byte pos, if a record starts there.
  function At(rs: seq<Record>, pos: nat): (o: Option<Record>)
    ensures o.Some? ==> o.value in rs
  {
    if rs == [] then None
    else
      var init := rs[..|rs| - 1];
      if pos == SizeAll(init) then Some(rs[|rs| - 1]) else At(init, pos)
  }

  lemma {:induction false} AtIndex(rs: seq<Record>, i: nat)
    requires i < |rs|
    ensures At(rs, SizeAll(rs[..i])) == Some(rs[i])
  {
    var init := rs[..|rs| - 1];
    if i < |rs| - 1 {
      PrefixSize(rs, i, |rs| - 1);
      assert init[..i] == rs[..i];
      AtIndex(init, i);
    } else {
      assert rs[..i] == init;
    }
  }

  lemma {:induction false} IndexAt(rs: seq<Record>, pos: nat) returns (i: nat)
    requires At(rs, pos).Some?
    ensures i < |rs| && pos == SizeAll(rs[..i]) && At(rs, pos) == Some(rs[i])
  {
    var init := rs[..|rs| - 1];
    if pos == SizeAll(init) {
      i := |rs| - 1;
    } else {
      i := IndexAt(init, pos);
      assert init[..i] == rs[..i];
    }
  }

  // Appending never moves a record.
  lemma {:induction false} AtAppend(rs: seq<Record>, more: seq<Record>, pos: nat)
    requires At(rs, pos).Some?
    ensures At(rs + more, pos) == At(rs, pos)
  {
    var i := IndexAt(rs, pos);
    assert (rs + more)[..i] == rs[..i];
    AtIndex(rs + more, i);
  }

  // Reading size bytes at the offset yields exactly that record's encoding.
  lemma BytesAt(rs: seq<Record>, tail: Bytes, pos: nat)
    requires AllValid(rs) && At(rs, pos).Some?
    ensures var r := At(rs, pos).value;
            && pos + Size(r) <= SizeAll(rs)
            && (EncodeAll(rs) + tail)[pos..pos + Size(r)] == Encode(r)
            && Decode((EncodeAll(rs) + tail)[pos..pos + Size(r)]) == Decoded(r)
  {
    hide Encode, Decode, EncodeAll, SizeAll, At;
    var i := IndexAt(rs, pos);
    EncodeSplit(rs, i);
    var a, b, c := EncodeAll(rs[..i]), Encode(rs[i]), EncodeAll(rs[i + 1..]);
    Slices(a, b, c + tail, 0);
    Associative(a, b + c, tail);
    Associative(b, c, tail);
    DecodeEncode(rs[i]);
  }

  // --- batches -----------------------------------------------------------------

  datatype Mode = Closed | Open | Bad

  // Where the log stands: between operations, inside a batch, or (never, for a log the
  // engine wrote) with a batch interrupted by another record.
  function ModeOf(rs: seq<Record>): Mode {
    if rs == [] then Closed
    else
      var m, r := ModeOf(rs[..|rs| - 1]), rs[|rs| - 1];
      if m == Bad then Bad
      else if InBatch(r) then if EndsBatch(r) then Closed else Open
      else if m == Closed then Closed
      else Bad
  }

  // The longest prefix that ends between operations.
  function ClosedPart(rs: seq<Record>): (k: nat)
    ensures k <= |rs| && ModeOf(rs[..k]) == Closed
    ensures ModeOf(rs) == Closed ==> k == |rs|
    ensures forall j :: k < j <= |rs| ==> ModeOf(rs[..j]) != Closed
  {
    assert rs[..|rs|] == rs;
    if ModeOf(rs) == Closed then |rs|
    else
      var init := rs[..|rs| - 1];
      assert forall j :: 0 <= j <= |init| ==> init[..j] == rs[..j];
      ClosedPart(init)
  }

  // What one operation appends: a single plain record, or a terminated batch.
  predicate Operation(g: seq<Record>) {
    && |g| > 0
    && (forall i :: 0 <= i < |g| - 1 ==> InBatch(g[i]) && !EndsBatch(g[i]))
    && (if InBatch(g[|g| - 1]) then EndsBatch(g[|g| - 1]) else |g| == 1)
  }

  lemma {:induction false} OperationOpen(log: seq<Record>, g: seq<Record>, i: nat)
    requires ModeOf(log) == Closed && Operation(g) && 0 < i < |g|
    ensures ModeOf(log + g[..i]) == Open
    decreases i
  {
    var s := log + g[..i];
    assert s[..|s| - 1] == log + g[..i - 1];
    if i > 1 {
      OperationOpen(log, g, i - 1);
    } else {
      assert log + g[..0] == log;
    }
  }

  lemma OperationCloses(log: seq<Record>, g: seq<Record>)
    requires ModeOf(log) == Closed && Operation(g)
    ensures ModeOf(log + g) == Closed
  {
    var s, last := log + g, |g| - 1;
    assert s[..|s| - 1] == log + g[..last];
    if last > 0 {
      OperationOpen(log, g, last);
    } else {
      assert log + g[..last] == log;
    }
  }

  // An operation is all or nothing: cut short it leaves the log closed where it was,
  // complete it closes the log behind it.
  lemma OperationAtomic(log: seq<Record>, g: seq<Record>, i: nat)
    requires ModeOf(log) == Closed && Operation(g) && i <= |g|
    ensures ModeOf(log + g[..i]) != Bad
    ensures ClosedPart(log + g[..i]) == if i == |g| then |log| + |g| else |log|
  {
    hide ModeOf, ClosedPart;
    var s := log + g[..i];
    if i == |g| {
      OperationCloses(log, g);
      assert g[..i] == g;
    } else {
      assert s[..|log|] == log;
      forall j | |log| < j <= |s| ensures ModeOf(s[..j]) == Open {
        OperationOpen(log, g, j - |log|);
        assert s[..j] == log + g[..j - |log|];
      }
      assert s[..|s|] == s;
      assert i == 0 ==> s == log;
    }
  }

  lemma {:induction false} NotBadPrefix(rs: seq<Record>, k: nat)
    requires ModeOf(rs) != Bad && k <= |rs|
    ensures ModeOf(rs[..k]) != Bad
    decreases |rs|
  {
    if k < |rs| {
      NotBadPrefix(rs[..|rs| - 1], k);
      assert rs[..|rs| - 1][..k] == rs[..k];
    } else {
      assert rs[..k] == rs;
    }
  }

  // --- groups of records -----------------------------------------------------------------

  function Flat(gs: seq<seq<Record>>): seq<Record> {
    if gs == [] then [] else Flat(gs[..|gs| - 1]) + gs[|gs| - 1]
  }

  lemma {:induction false} FlatConcat(a: seq<seq<Record>>, b: seq<seq<Record>>)
    ensures Flat(a + b) == Flat(a) + Flat(b)
  {
    if b == [] {
      assert a + b == a;
    } else {
      assert (a + b)[..|a + b| - 1] == a + b[..|b| - 1];
      FlatConcat(a, b[..|b| - 1]);
    }
  }

  lemma FlatOne(g: seq<Record>)
    ensures Flat([g]) == g
  {
    assert [g][..0] == [];
  }
}
