/** The wire format: length-prefixed frames, frame bodies built field by field, and the
    decoder whose first error sticks. */
module Wire {
  import opened Bytes

  const MAX_FRAME: nat := 0x1400_0000  // 320 MiB

  // --- fields ------------------------------------------------------------------------------

  datatype Kind = K8 | K32 | K64 | KBlob

  datatype Field = U8(v: byte) | U32V(n: nat) | U64V(n: nat) | Blob(b: Bytes)

  function KindOf(f: Field): Kind {
    match f case U8(_) => K8 case U32V(_) => K32 case U64V(_) => K64 case Blob(_) => KBlob
  }

  function Kinds(fs: seq<Field>): (ks: seq<Kind>)
    ensures |ks| == |fs|
  {
    if fs == [] then [] else [KindOf(fs[0])] + Kinds(fs[1..])
  }

  // What fits its fixed-width slot.
  predicate Sendable(f: Field) {
    match f case U8(_) => true case U32V(n) => n < U32 case U64V(n) => n < U64 case Blob(b) => |b| < U32
  }

  function Put(f: Field): (b: Bytes)
    requires Sendable(f)
    ensures |b| > 0
  {
    match f
    case U8(v) => [v]
    case U32V(n) => BE(n, 4)
    case U64V(n) => BE(n, 8)
    case Blob(b) => BE(|b|, 4) + b
  }

  predicate AllSendable(fs: seq<Field>) { forall i :: 0 <= i < |fs| ==> Sendable(fs[i]) }

  function PutAll(fs: seq<Field>): Bytes
    requires AllSendable(fs)
  {
    if fs == [] then [] else Put(fs[0]) + PutAll(fs[1..])
  }

  // One field off the front, or failure if the bytes run out.
  function Take(k: Kind, b: Bytes): Option<(Field, Bytes)> {
    match k
    case K8 => if |b| < 1 then None else Some((U8(b[0]), b[1..]))
    case K32 => if |b| < 4 then None else Some((U32V(FromBE(b[..4])), b[4..]))
    case K64 => if |b| < 8 then None else Some((U64V(FromBE(b[..8])), b[8..]))
    case KBlob =>
      if |b| < 4 then None
      else
        var n, rest := FromBE(b[..4]), b[4..];
        if n > |rest| then None else Some((Blob(rest[..n]), rest[n..]))
  }

  function TakeAll(ks: seq<Kind>, b: Bytes): Option<(seq<Field>, Bytes)> {
    if ks == [] then Some(([], b))
    else
      match Take(ks[0], b)
      case None => None
      case Some((f, rest)) =>
        match TakeAll(ks[1..], rest)
        case None => None
        case Some((fs, end)) => Some(([f] + fs, end))
  }

  lemma TakePut(f: Field, rest: Bytes)
    requires Sendable(f)
    ensures Take(KindOf(f), Put(f) + rest) == Some((f, rest))
  {
    hide FromBE, BE;
    var b := Put(f) + rest;
    PowersOf256();
    match f
    case U8(v) => assert b[1..] == rest;
    case U32V(n) => BERoundTrip(n, 4); assert b[..4] == BE(n, 4) && b[4..] == rest;
    case U64V(n) => BERoundTrip(n, 8); assert b[..8] == BE(n, 8) && b[8..] == rest;
    case Blob(x) =>
      BERoundTrip(|x|, 4);
      assert b[..4] == BE(|x|, 4) && b[4..] == x + rest;
      assert (x + rest)[..|x|] == x && (x + rest)[|x|..] == rest;
  }

  // A field cut short is an error.
  lemma TakeCut(f: Field, n: nat)
    requires Sendable(f) && n < |Put(f)|
    ensures Take(KindOf(f), Put(f)[..n]) == None
  {
    hide FromBE, BE;
    PowersOf256();
    if f.Blob? && n >= 4 {
      BERoundTrip(|f.b|, 4);
      assert Put(f)[..n][..4] == BE(|f.b|, 4);
    }
  }

  // Decoding undoes encoding, and leaves exactly what follows the body: the decoder is done
  // if and only if nothing does.
  lemma {:induction false} DecodeEncode(fs: seq<Field>, rest: Bytes)
    requires AllSendable(fs)
    ensures TakeAll(Kinds(fs), PutAll(fs) + rest) == Some((fs, rest))
    decreases |fs|
  {
    hide Put, Take;
    if fs == [] {
      assert PutAll(fs) + rest == rest;
    } else {
      assert PutAll(fs) + rest == Put(fs[0]) + (PutAll(fs[1..]) + rest);
      TakePut(fs[0], PutAll(fs[1..]) + rest);
      DecodeEncode(fs[1..], rest);
      assert [fs[0]] + fs[1..] == fs;
      assert Kinds(fs)[1..] == Kinds(fs[1..]);
    }
  }

  // Every strict prefix of a body is an error.
  lemma {:induction false} PrefixFails(fs: seq<Field>, n: nat)
    requires AllSendable(fs) && n < |PutAll(fs)|
    ensures TakeAll(Kinds(fs), PutAll(fs)[..n]) == None
    decreases |fs|
  {
    hide Put, Take;
    var a, b := Put(fs[0]), PutAll(fs[1..]);
    assert Kinds(fs)[1..] == Kinds(fs[1..]);
    if n < |a| {
      assert (a + b)[..n] == a[..n];
      TakeCut(fs[0], n);
    } else {
      assert (a + b)[..n] == a + b[..n - |a|];
      TakePut(fs[0], b[..n - |a|]);
      PrefixFails(fs[1..], n - |a|);
    }
  }

  lemma PutTake(k: Kind, b: Bytes)
    requires Take(k, b).Some?
    ensures var (f, rest) := Take(k, b).value;
            Sendable(f) && KindOf(f) == k && b == Put(f) + rest
  {
    hide FromBE, BE;
    PowersOf256();
    match k
    case K8 => assert b == [b[0]] + b[1..];
    case K32 => BEInverse(b[..4]); assert b == b[..4] + b[4..];
    case K64 => BEInverse(b[..8]); assert b == b[..8] + b[8..];
    case KBlob =>
      BEInverse(b[..4]);
      var n, rest := FromBE(b[..4]), b[4..];
      assert b == b[..4] + rest && rest == rest[..n] + rest[n..];
      assert b == (b[..4] + rest[..n]) + rest[n..];
  }

  // Whatever the decoder accepts is the encoding of what it returns, followed by the rest.
  lemma {:induction false} EncodeDecode(ks: seq<Kind>, b: Bytes)
    requires TakeAll(ks, b).Some?
    ensures var (fs, rest) := TakeAll(ks, b).value;
            AllSendable(fs) && Kinds(fs) == ks && b == PutAll(fs) + rest
    decreases |ks|
  {
    hide Put, Take;
    if ks != [] {
      var (f, more) := Take(ks[0], b).value;
      PutTake(ks[0], b);
      EncodeDecode(ks[1..], more);
      var (fs, rest) := TakeAll(ks[1..], more).value;
      assert ([f] + fs)[1..] == fs;
      assert [ks[0]] + ks[1..] == ks;
      assert Put(f) + (PutAll(fs) + rest) == (Put(f) + PutAll(fs)) + rest;
    }
  }

  // --- the encoder and the decoder -------------------------------------------------------------

  class Enc {
    var body: Bytes

    constructor (first: byte)
      ensures body == [first]
    {
      body := [first];
    }

    method PutU32(v: nat)
      modifies this
      ensures body == old(body) + BE(v % U32, 4)
    {
      body := body + BE(v % U32, 4);
    }

    method PutU64(v: nat)
      modifies this
      ensures body == old(body) + BE(v % U64, 8)
    {
      body := body + BE(v % U64, 8);
    }

    method PutBytes(b: Bytes)
      modifies this
      ensures body == old(body) + (BE(|b| % U32, 4) + b)
      ensures |b| < U32 ==> body == old(body) + Put(Blob(b))
    {
      hide BE;
      PutU32(|b|);
      body := body + b;
    }
  }

  class Dec {
    const body: Bytes
    var pos: nat
    var err: bool

    ghost predicate Valid()
      reads this
    {
      pos <= |body|
    }

    ghost function Rest(): Bytes
      requires Valid()
      reads this
    {
      body[pos..]
    }

    constructor (body: Bytes)
      ensures this.body == body && Valid() && !err && Rest() == body
    {
      this.body, pos, err := body, 0, false;
    }

    // Once an error has occurred every later read fails too.
    method TakeU32() returns (v: nat)
      requires Valid()
      modifies this
      ensures Valid() && (old(err) ==> err)
      ensures err <==> old(err) || Take(K32, old(Rest())).None?
      ensures if err then v == 0 && pos == old(pos) else Take(K32, old(Rest())) == Some((U32V(v), Rest()))
    {
      if err || pos + 4 > |body| {
        err := true;
        return 0;
      }
      assert body[pos..][..4] == body[pos..pos + 4];
      v := FromBE(body[pos..pos + 4]);
      pos := pos + 4;
    }

    method TakeBytes() returns (b: Bytes)
      requires Valid()
      modifies this
      ensures Valid() && (old(err) ==> err)
      ensures err <==> old(err) || Take(KBlob, old(Rest())).None?
      ensures if err then b == [] else Take(KBlob, old(Rest())) == Some((Blob(b), Rest()))
    {
      var n := TakeU32();
      if err || pos + n > |body| {
        err := true;
        return [];
      }
      assert body[pos..][..n] == body[pos..pos + n] && body[pos..][n..] == body[pos + n..];
      b := body[pos..pos + n];
      pos := pos + n;
    }

    method Remaining() returns (n: nat)
      requires Valid()
      ensures n == if err then 0 else |Rest()|
    {
      n := if err then 0 else |body| - pos;
    }

    method Done() returns (ok: bool)
      requires Valid()
      ensures ok <==> !err && Rest() == []
    {
      ok := !err && pos == |body|;
    }
  }

  // --- BatchPut -----------------------------------------------------------------------------------

  const OP_BATCH_PUT: byte := 6

  type KV = (Bytes, Bytes)

  predicate SmallPairs(ps: seq<KV>) { forall i :: 0 <= i < |ps| ==> |ps[i].0| < U32 && |ps[i].1| < U32 }

  function PutPair(p: KV): (b: Bytes)
    requires |p.0| < U32 && |p.1| < U32
    ensures |b| >= 8
  {
    Put(Blob(p.0)) + Put(Blob(p.1))
  }

  function PutPairs(ps: seq<KV>): (b: Bytes)
    requires SmallPairs(ps)
    ensures |b| >= 8 * |ps|
  {
    if ps == [] then [] else PutPair(ps[0]) + PutPairs(ps[1..])
  }

  // The body a client sends: a count, then the pairs.
  function BatchBody(ps: seq<KV>): Bytes
    requires SmallPairs(ps) && |ps| < U32
  {
    BE(|ps|, 4) + PutPairs(ps)
  }

  function TakePair(b: Bytes): Option<(KV, Bytes)> {
    match Take(KBlob, b)
    case None => None
    case Some((k, more)) =>
      match Take(KBlob, more)
      case None => None
      case Some((v, rest)) => Some(((k.b, v.b), rest))
  }

  function TakePairs(n: nat, b: Bytes): Option<(seq<KV>, Bytes)> {
    if n == 0 then Some(([], b))
    else
      match TakePair(b)
      case None => None
      case Some((p, more)) =>
        match TakePairs(n - 1, more)
        case None => None
        case Some((ps, rest)) => Some(([p] + ps, rest))
  }

  // What the handler makes of a body.
  function ParseBatch(b: Bytes): Option<seq<KV>> {
    match Take(K32, b)
    case None => None
    case Some((count, rest)) =>
      if count.n > |rest| / 8 then None
      else
        match TakePairs(count.n, rest)
        case None => None
        case Some((ps, end)) => if end == [] then Some(ps) else None
  }

  lemma TakePutPair(p: KV, rest: Bytes)
    requires |p.0| < U32 && |p.1| < U32
    ensures TakePair(PutPair(p) + rest) == Some((p, rest))
  {
    hide Put, Take;
    assert PutPair(p) + rest == Put(Blob(p.0)) + (Put(Blob(p.1)) + rest);
    TakePut(Blob(p.0), Put(Blob(p.1)) + rest);
    TakePut(Blob(p.1), rest);
  }

  lemma PutTakePair(b: Bytes)
    requires TakePair(b).Some?
    ensures var (p, rest) := TakePair(b).value; |p.0| < U32 && |p.1| < U32 && b == PutPair(p) + rest
  {
    hide Put, Take;
    PutTake(KBlob, b);
    var (k, more) := Take(KBlob, b).value;
    PutTake(KBlob, more);
    var (v, rest) := Take(KBlob, more).value;
    assert Put(k) + (Put(v) + rest) == (Put(k) + Put(v)) + rest;
  }

  lemma {:induction false} TakePutPairs(ps: seq<KV>, rest: Bytes)
    requires SmallPairs(ps)
    ensures TakePairs(|ps|, PutPairs(ps) + rest) == Some((ps, rest))
    decreases |ps|
  {
    hide PutPair, TakePair;
    if ps == [] {
      assert PutPairs(ps) + rest == rest;
    } else {
      assert PutPairs(ps) + rest == PutPair(ps[0]) + (PutPairs(ps[1..]) + rest);
      TakePutPair(ps[0], PutPairs(ps[1..]) + rest);
      TakePutPairs(ps[1..], rest);
      assert [ps[0]] + ps[1..] == ps;
    }
  }

  lemma {:induction false} PutTakePairs(n: nat, b: Bytes)
    requires TakePairs(n, b).Some?
    ensures var (ps, rest) := TakePairs(n, b).value; |ps| == n && SmallPairs(ps) && b == PutPairs(ps) + rest
    decreases n
  {
    hide PutPair, TakePair;
    if n != 0 {
      var (p, more) := TakePair(b).value;
      PutTakePair(b);
      PutTakePairs(n - 1, more);
      var (ps, rest) := TakePairs(n - 1, more).value;
      assert ([p] + ps)[1..] == ps;
      assert PutPair(p) + (PutPairs(ps) + rest) == (PutPair(p) + PutPairs(ps)) + rest;
    }
  }

  // The handler accepts every body a client can build, with the same pairs, and nothing else:
  // its guard on the count never refuses an honest batch.
  lemma BatchRoundTrip(ps: seq<KV>)
    requires SmallPairs(ps) && |ps| < U32
    ensures ParseBatch(BatchBody(ps)) == Some(ps)
  {
    hide PutPairs, TakePairs, FromBE, BE;
    var b := BatchBody(ps);
    TakePut(U32V(|ps|), PutPairs(ps));
    TakePutPairs(ps, []);
    assert PutPairs(ps) + [] == PutPairs(ps);
  }

  lemma BatchExact(b: Bytes, ps: seq<KV>)
    requires ParseBatch(b) == Some(ps)
    ensures SmallPairs(ps) && |ps| < U32 && b == BatchBody(ps)
  {
    hide PutPairs, TakePairs, FromBE, BE;
    PutTake(K32, b);
    var (count, rest) := Take(K32, b).value;
    PutTakePairs(count.n, rest);
    assert PutPairs(ps) + [] == PutPairs(ps);
  }

  method EncodePair(e: Enc, p: KV)
    requires |p.0| < U32 && |p.1| < U32
    modifies e
    ensures e.body == old(e.body) + PutPair(p)
  {
    hide Put;
    e.PutBytes(p.0);
    e.PutBytes(p.1);
  }

  lemma PairsStep(before: Bytes, ps: seq<KV>, i: nat)
    requires i < |ps| && SmallPairs(ps)
    ensures (before + PutPair(ps[i])) + PutPairs(ps[i + 1..]) == before + PutPairs(ps[i..])
  {
    hide PutPair;
    assert ps[i..][1..] == ps[i + 1..];
  }

  // The client's side.
  method EncodeBatch(ps: seq<KV>) returns (body: Bytes)
    requires SmallPairs(ps) && |ps| < U32
    ensures body == [OP_BATCH_PUT] + BatchBody(ps)
  {
    hide BE, PutPair;
    var e := new Enc(OP_BATCH_PUT);
    e.PutU32(|ps|);
    assert ps[0..] == ps;
    for i := 0 to |ps|
      invariant e.body + PutPairs(ps[i..]) == [OP_BATCH_PUT] + BatchBody(ps)
    {
      PairsStep(e.body, ps, i);
      EncodePair(e, ps[i]);
    }
    assert e.body + [] == e.body;
    body := e.body;
  }

  method ReadPair(d: Dec) returns (p: KV)
    requires d.Valid() && !d.err
    modifies d
    ensures d.Valid() && (d.err <==> TakePair(old(d.Rest())).None?)
    ensures !d.err ==> TakePair(old(d.Rest())) == Some((p, d.Rest()))
  {
    hide Take;
    var k := d.TakeBytes();
    var v := d.TakeBytes();
    p := (k, v);
  }

  // Reads count pairs, stopping at the first error.
  method ReadPairs(d: Dec, count: nat) returns (ps: seq<KV>)
    requires d.Valid() && !d.err
    modifies d
    ensures d.Valid() && (d.err <==> TakePairs(count, old(d.Rest())).None?)
    ensures !d.err ==> TakePairs(count, old(d.Rest())) == Some((ps, d.Rest()))
  {
    hide TakePair;
    ghost var all := TakePairs(count, d.Rest());
    ps := [];
    var i := 0;
    PrependNone(all);
    while i < count
      invariant i <= count && d.Valid() && !d.err
      invariant all == Prepend(ps, TakePairs(count - i, d.Rest()))
    {
      PrependStep(ps, count - i, d.Rest());
      var p := ReadPair(d);
      if d.err {
        return;
      }
      ps := ps + [p];
      i := i + 1;
    }
    assert ps + [] == ps;
  }

  ghost function Prepend(ps: seq<KV>, o: Option<(seq<KV>, Bytes)>): Option<(seq<KV>, Bytes)> {
    match o case None => None case Some((qs, rest)) => Some((ps + qs, rest))
  }

  lemma PrependNone(o: Option<(seq<KV>, Bytes)>)
    ensures Prepend([], o) == o
  {
    assert o.Some? ==> [] + o.value.0 == o.value.0;
  }

  lemma PrependStep(ps: seq<KV>, n: nat, b: Bytes)
    requires n > 0
    ensures TakePair(b).None? ==> Prepend(ps, TakePairs(n, b)) == None
    ensures TakePair(b).Some? ==>
              Prepend(ps, TakePairs(n, b)) == Prepend(ps + [TakePair(b).value.0], TakePairs(n - 1, TakePair(b).value.1))
  {
    hide TakePair;
    if TakePair(b).Some? && TakePairs(n - 1, TakePair(b).value.1).Some? {
      var p, qs := TakePair(b).value.0, TakePairs(n - 1, TakePair(b).value.1).value.0;
      assert ps + ([p] + qs) == (ps + [p]) + qs;
    }
  }

  // The handler's side: the count is checked against the bytes left before anything is sized by
  // it, then the pairs are read, then the body must be used up.
  method HandleBatch(body: Bytes) returns (o: Option<seq<KV>>)
    ensures o == ParseBatch(body)
  {
    hide Take, TakePairs;
    var d := new Dec(body);
    var count := d.TakeU32();
    if d.err {
      return None;
    }
    var left := d.Remaining();
    if count > left / 8 {
      return None;
    }
    var ps := ReadPairs(d, count);
    var ok := d.Done();
    o := if ok then Some(ps) else None;
  }
}
