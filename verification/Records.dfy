/** CRC-32 (IEEE): section 8 of RFC 1952, computed bit by bit on the reflected
    polynomial, and the damage it is sure to detect. */
module Checksum {
  import opened Bytes

  const POLY: nat := 0xEDB8_8320

  function Xor(a: nat, b: nat): nat {
    if a == 0 && b == 0 then 0
    else (a + b) % 2 + 2 * Xor(a / 2, b / 2)
  }

  // One bit of the division.
  function Step(c: nat): nat { if c % 2 == 1 then Xor(POLY, c / 2) else c / 2 }

  function Shift(c: nat, bits: nat): nat
    decreases bits
  {
    if bits == 0 then c else Shift(Step(c), bits - 1)
  }

  function Update(c: nat, b: Bytes): nat
    decreases |b|
  {
    if b == [] then c else Update(Shift(Xor(c, b[0]), 8), b[1..])
  }

  function Crc32(b: Bytes): (c: nat)
    ensures c < U32
  {
    Xor(Update(0xFFFF_FFFF, b), 0xFFFF_FFFF) % U32
  }

  // --- what it detects ---------------------------------------------------------

  function Pow2(k: nat): nat { if k == 0 then 1 else 2 * Pow2(k - 1) }

  lemma Pow2At32()
    ensures Pow2(31) == 0x8000_0000 && Pow2(32) == U32
  {
    assert Pow2(8) == 256;
    assert Pow2(16) == 65536;
    assert Pow2(24) == 0x100_0000;
    assert Pow2(31) == 0x8000_0000;
  }

  lemma XorUnfold(a: nat, b: nat)
    ensures Xor(a, b) == (a + b) % 2 + 2 * Xor(a / 2, b / 2)
  {
  }

  lemma {:induction false} XorSame(a: nat, b: nat)
    ensures Xor(a, b) == Xor(b, a)
  {
    if a != 0 || b != 0 {
      XorSame(a / 2, b / 2);
    }
  }

  lemma {:induction false} XorInjective(a: nat, x: nat, y: nat)
    requires Xor(a, x) == Xor(a, y)
    ensures x == y
    decreases a + x + y
  {
    hide Xor;
    XorUnfold(a, x);
    XorUnfold(a, y);
    if a + x + y > 0 {
      assert (a + x) % 2 == (a + y) % 2;
      XorInjective(a / 2, x / 2, y / 2);
    }
  }

  lemma {:induction false} XorBits(a: nat, b: nat, k: nat)
    requires a < Pow2(k) && b < Pow2(k)
    ensures Xor(a, b) < Pow2(k)
    decreases k
  {
    hide Xor;
    XorUnfold(a, b);
    if k == 0 {
      XorZero();
    } else {
      XorBits(a / 2, b / 2, k - 1);
    }
  }

  lemma XorZero()
    ensures Xor(0, 0) == 0
  {
  }

  // The highest bit of one operand stays.
  lemma {:induction false} XorTop(a: nat, b: nat, k: nat)
    requires Pow2(k) <= a && b < Pow2(k)
    ensures Xor(a, b) >= Pow2(k)
    decreases k
  {
    hide Xor;
    XorUnfold(a, b);
    if k > 0 {
      XorTop(a / 2, b / 2, k - 1);
    } else {
      XorAbove(a);
    }
  }

  lemma {:induction false} XorAbove(a: nat)
    requires a >= 1
    ensures Xor(a, 0) >= 1
  {
    if a / 2 >= 1 {
      XorAbove(a / 2);
    }
  }

  // The polynomial has its highest bit set, so the bit shifted out can be read off the result.
  lemma StepInjective(c: nat, d: nat)
    requires c < U32 && d < U32
    ensures Step(c) < U32
    ensures Step(c) == Step(d) ==> c == d
  {
    hide Xor;
    Pow2At32();
    XorBits(POLY, c / 2, 32);
    XorTop(POLY, c / 2, 31);
    XorTop(POLY, d / 2, 31);
    if Step(c) == Step(d) && c % 2 == 1 {
      assert d % 2 == 1;
      XorInjective(POLY, c / 2, d / 2);
    }
  }

  lemma {:induction false} ShiftInjective(c: nat, d: nat, bits: nat)
    requires c < U32 && d < U32
    ensures Shift(c, bits) < U32
    ensures Shift(c, bits) == Shift(d, bits) ==> c == d
    decreases bits
  {
    hide Step;
    if bits > 0 {
      StepInjective(c, d);
      StepInjective(d, c);
      ShiftInjective(Step(c), Step(d), bits - 1);
    }
  }

  lemma ByteInjective(c: nat, d: nat, x: byte)
    requires c < U32 && d < U32
    ensures Xor(c, x) < U32 && Shift(Xor(c, x), 8) < U32
    ensures Shift(Xor(c, x), 8) == Shift(Xor(d, x), 8) ==> c == d
  {
    hide Xor, Shift, Pow2;
    Pow2At32();
    XorBits(c, x, 32);
    XorBits(d, x, 32);
    ShiftInjective(Xor(c, x), Xor(d, x), 8);
    if Xor(c, x) == Xor(d, x) {
      XorSame(c, x);
      XorSame(d, x);
      XorInjective(x, c, d);
    }
  }

  lemma {:induction false} UpdateInjective(c: nat, d: nat, b: Bytes)
    requires c < U32 && d < U32
    ensures Update(c, b) < U32
    ensures Update(c, b) == Update(d, b) ==> c == d
    decreases |b|
  {
    hide Xor, Shift;
    if b != [] {
      ByteInjective(c, d, b[0]);
      ByteInjective(d, c, b[0]);
      UpdateInjective(Shift(Xor(c, b[0]), 8), Shift(Xor(d, b[0]), 8), b[1..]);
    }
  }

  lemma {:induction false} UpdateConcat(c: nat, a: Bytes, b: Bytes)
    ensures Update(c, a + b) == Update(Update(c, a), b)
    decreases |a|
  {
    hide Xor, Shift;
    if a == [] {
      assert a + b == b;
    } else {
      assert (a + b)[1..] == a[1..] + b;
      UpdateConcat(Shift(Xor(c, a[0]), 8), a[1..], b);
    }
  }

  // Bytes that differ in one place have different checksums.
  lemma OneByte(b: Bytes, i: nat, x: byte)
    requires i < |b| && x != b[i]
    ensures Crc32(b[i := x]) != Crc32(b)
  {
    hide Xor, Shift, Update;
    var p, s, c := b[..i], b[i + 1..], 0xFFFF_FFFF;
    assert b == p + ([b[i]] + s) && b[i := x] == p + ([x] + s);
    UpdateConcat(c, p, [b[i]] + s);
    UpdateConcat(c, p, [x] + s);
    UpdateInjective(c, c, p);
    Differ(Update(c, p), b[i], x, s);
    Final(Update(c, b), Update(c, b[i := x]));
  }

  lemma Differ(c: nat, x: byte, y: byte, s: Bytes)
    requires c < U32 && x != y
    ensures Update(c, [x] + s) != Update(c, [y] + s)
    ensures Update(c, [x] + s) < U32 && Update(c, [y] + s) < U32
  {
    hide Xor, Shift, Pow2;
    Pow2At32();
    XorBits(c, x, 32);
    XorBits(c, y, 32);
    assert ([x] + s)[1..] == s && ([y] + s)[1..] == s;
    ShiftInjective(Xor(c, x), Xor(c, y), 8);
    ShiftInjective(Xor(c, y), Xor(c, x), 8);
    UpdateInjective(Shift(Xor(c, x), 8), Shift(Xor(c, y), 8), s);
    UpdateInjective(Shift(Xor(c, y), 8), Shift(Xor(c, x), 8), s);
    if Xor(c, x) == Xor(c, y) {
      XorInjective(c, x, y);
    }
  }

  lemma Final(a: nat, b: nat)
    requires a < U32 && b < U32 && a != b
    ensures Xor(a, 0xFFFF_FFFF) % U32 != Xor(b, 0xFFFF_FFFF) % U32
  {
    hide Xor;
    var m := 0xFFFF_FFFF;
    Pow2At32();
    XorBits(a, m, 32);
    XorBits(b, m, 32);
    XorSame(a, m);
    XorSame(b, m);
    if Xor(m, a) == Xor(m, b) {
      XorInjective(m, a, b);
    }
  }
}

/** The on-disk record: its encoding, decoding, and the removal of batch markers. */
module Records {
  import opened Bytes
  import Checksum

  const HEADER: nat := 29
  const MAX_KEY: nat := 0x1_0000       // 64 KiB
  const MAX_VALUE: nat := 0x1000_0000  // 256 MiB

  datatype Record = Record(ts: int, sn: nat, flags: byte, key: Bytes, value: Bytes)

  datatype Decoded = Decoded(r: Record) | Short | Corrupt

  // The three flag bits: 1 tombstone, 2 batch, 4 batch end.
  predicate Tomb(r: Record) { r.flags % 2 == 1 }
  predicate InBatch(r: Record) { r.flags / 2 % 2 == 1 }
  predicate EndsBatch(r: Record) { r.flags / 4 % 2 == 1 }

  function WithoutBatch(flags: byte): (f: byte)
    ensures f % 2 == flags % 2 && f / 2 % 2 == 0 && f / 4 % 2 == 0 && f / 8 == flags / 8
    ensures flags / 2 % 2 == 0 && flags / 4 % 2 == 0 ==> f == flags
  {
    Bits(flags % 2, flags / 2 % 2, flags / 4 % 2, flags / 8, flags);
    Bits(flags % 2, 0, 0, flags / 8, flags % 2 + 8 * (flags / 8));
    flags % 2 + 8 * (flags / 8)
  }

  lemma Bits(b0: nat, b1: nat, b2: nat, high: nat, f: nat)
    requires b0 < 2 && b1 < 2 && b2 < 2 && f == b0 + 2 * b1 + 4 * b2 + 8 * high
    ensures f % 2 == b0 && f / 2 % 2 == b1 && f / 4 % 2 == b2 && f / 8 == high
  {
    assert f / 2 == b1 + 2 * b2 + 4 * high;
    assert f / 4 == b2 + 2 * high;
  }

  // What fits the fixed-width fields of the header.
  predicate Encodable(r: Record) {
    0 <= r.ts + I64 < U64 && r.sn < U64 && |r.key| < U32 && |r.value| < U32
  }

  // What the write path admits and the scanner accepts.
  predicate Valid(r: Record) {
    Encodable(r) && 0 < |r.key| <= MAX_KEY && |r.value| <= MAX_VALUE
  }

  function Size(r: Record): nat { HEADER + |r.key| + |r.value| }

  function Unsigned(ts: int): nat
    requires 0 <= ts + I64 < U64
  { if ts < 0 then ts + U64 else ts }

  function Signed(n: nat): int { if n < I64 then n else n - U64 }

  // Everything after the checksum.
  function Body(r: Record): (b: Bytes)
    requires Encodable(r)
    ensures |b| == Size(r) - 4
  {
    LE(Unsigned(r.ts), 8) + LE(r.sn, 8) + [r.flags] + LE(|r.key|, 4) + LE(|r.value|, 4) + r.key + r.value
  }

  function Encode(r: Record): (b: Bytes)
    requires Encodable(r)
    ensures |b| == Size(r)
  {
    LE(Checksum.Crc32(Body(r)), 4) + Body(r)
  }

  function KeyLen(b: Bytes): nat requires |b| >= HEADER { FromLE(b[21..25]) }
  function ValLen(b: Bytes): nat requires |b| >= HEADER { FromLE(b[25..29]) }

  function Decode(b: Bytes): Decoded {
    if |b| < HEADER then Short
    else if HEADER + KeyLen(b) + ValLen(b) != |b| then Corrupt
    else if FromLE(b[0..4]) != Checksum.Crc32(b[4..]) then Corrupt
    else Decoded(Record(Signed(FromLE(b[4..12])), FromLE(b[12..20]), b[20],
                        b[HEADER..HEADER + KeyLen(b)], b[HEADER + KeyLen(b)..]))
  }

  lemma BodyFields(r: Record)
    requires Encodable(r)
    ensures var b := Body(r);
            && b[0..8] == LE(Unsigned(r.ts), 8) && b[8..16] == LE(r.sn, 8) && b[16] == r.flags
            && b[17..21] == LE(|r.key|, 4) && b[21..25] == LE(|r.value|, 4)
            && b[25..25 + |r.key|] == r.key && b[25 + |r.key|..] == r.value
  {
  }

  lemma EncodedFields(r: Record)
    requires Encodable(r)
    ensures var b := Encode(r);
            && b[0..4] == LE(Checksum.Crc32(b[4..]), 4) && b[4..] == Body(r)
            && b[4..12] == LE(Unsigned(r.ts), 8) && b[12..20] == LE(r.sn, 8) && b[20] == r.flags
            && KeyLen(b) == |r.key| && ValLen(b) == |r.value|
            && b[29..29 + |r.key|] == r.key && b[29 + |r.key|..] == r.value
  {
    BodyFields(r);
    PowersOf256();
    var b, d := Encode(r), Body(r);
    assert b[4..] == d;
    assert b[4..12] == d[0..8] && b[12..20] == d[8..16] && b[20] == d[16];
    assert b[21..25] == d[17..21] && b[25..29] == d[21..25];
    assert b[29..29 + |r.key|] == d[25..25 + |r.key|] && b[29 + |r.key|..] == d[25 + |r.key|..];
    LERoundTrip(|r.key|, 4);
    LERoundTrip(|r.value|, 4);
  }

  // Decoding undoes encoding ...
  lemma DecodeEncode(r: Record)
    requires Encodable(r)
    ensures Decode(Encode(r)) == Decoded(r)
  {
    EncodedFields(r);
    PowersOf256();
    LERoundTrip(Checksum.Crc32(Encode(r)[4..]), 4);
    LERoundTrip(Unsigned(r.ts), 8);
    LERoundTrip(r.sn, 8);
  }

  // ... and encoding undoes decoding, so an accepted buffer is exactly one record's encoding.
  lemma EncodeDecode(b: Bytes)
    requires Decode(b).Decoded?
    ensures Encodable(Decode(b).r) && Encode(Decode(b).r) == b
  {
    var r := Decode(b).r;
    PowersOf256();
    LEInverse(b[0..4]);
    LEInverse(b[4..12]);
    LEInverse(b[12..20]);
    LEInverse(b[21..25]);
    LEInverse(b[25..29]);
    assert Unsigned(r.ts) == FromLE(b[4..12]);
    Reassembled(b, KeyLen(b));
  }

  lemma Reassembled(b: Bytes, k: nat)
    requires HEADER + k <= |b|
    ensures b == b[0..4] + b[4..]
    ensures b[4..] == b[4..12] + b[12..20] + [b[20]] + b[21..25] + b[25..29] + b[HEADER..HEADER + k] + b[HEADER + k..]
  {
  }

  // --- damage ------------------------------------------------------------------

  lemma DamagedCrc(b: Bytes, d: Bytes)
    requires |b| == |d| >= HEADER && Decode(b).Decoded? && KeyLen(d) == KeyLen(b) && ValLen(d) == ValLen(b)
    requires (d[4..] == b[4..] && d[0..4] != b[0..4])
             || (d[0..4] == b[0..4] && Checksum.Crc32(d[4..]) != Checksum.Crc32(b[4..]))
    ensures Decode(d) == Corrupt
  {
    hide Checksum.Crc32, LE, FromLE;
    LEInverse(b[0..4]);
    LEInverse(d[0..4]);
  }

  lemma DamagedLength(b: Bytes, d: Bytes)
    requires |b| == |d| >= HEADER && Decode(b).Decoded?
    requires (d[21..25] == b[21..25]) != (d[25..29] == b[25..29])
    ensures Decode(d) == Corrupt
  {
    hide Checksum.Crc32, LE, FromLE;
    LEInverse(b[21..25]);
    LEInverse(d[21..25]);
    LEInverse(b[25..29]);
    LEInverse(d[25..29]);
  }

  // One damaged byte, wherever it is, and the record is refused.
  lemma OneByteCaught(r: Record, i: nat, x: byte)
    requires Encodable(r) && i < Size(r) && x != Encode(r)[i]
    ensures Decode(Encode(r)[i := x]) == Corrupt
  {
    hide Encode, Checksum.Crc32, LE, FromLE;
    DecodeEncode(r);
    var b := Encode(r);
    var d := b[i := x];
    if 21 <= i < 25 {
      assert d[21..25][i - 21] != b[21..25][i - 21] && d[25..29] == b[25..29];
      DamagedLength(b, d);
    } else if 25 <= i < 29 {
      assert d[25..29][i - 25] != b[25..29][i - 25] && d[21..25] == b[21..25];
      DamagedLength(b, d);
    } else {
      assert d[21..25] == b[21..25] && d[25..29] == b[25..29];
      if i < 4 {
        assert d[4..] == b[4..] && d[0..4][i] != b[0..4][i];
      } else {
        assert d[0..4] == b[0..4] && d[4..] == b[4..][i - 4 := x];
        Checksum.OneByte(b[4..], i - 4, x);
      }
      DamagedCrc(b, d);
    }
  }

  // --- building a record in place --------------------------------------------

  function Overwrite(b: Bytes, at: nat, field: Bytes): (o: Bytes)
    requires at + |field| <= |b|
    ensures |o| == |b|
  {
    b[..at] + field + b[at + |field|..]
  }

  // Writes the next header field; the fields already written and the bytes behind
  // the header stay as they are.
  method PutField(b: Bytes, at: nat, field: Bytes, ghost done: Bytes) returns (o: Bytes)
    requires 4 <= at && at + |field| <= HEADER <= |b| && b[4..at] == done
    ensures |o| == |b| && o[4..at + |field|] == done + field && o[HEADER..] == b[HEADER..]
  {
    o := Overwrite(b, at, field);
  }

  method FillHeader(r: Record, a: Bytes, b: Bytes, c: Bytes, d: Bytes) returns (buf: Bytes)
    requires |a| == |b| == 8 && |c| == |d| == 4
    ensures |buf| == Size(r) && buf[4..] == a + b + [r.flags] + c + d + r.key + r.value
  {
    var zeros: Bytes := seq(HEADER, _ => 0);
    buf := zeros + (r.key + r.value);
    ghost var tail := r.key + r.value;
    assert buf[HEADER..] == tail;
    buf := PutField(buf, 4, a, []);
    buf := PutField(buf, 12, b, a);
    buf := PutField(buf, 20, [r.flags], a + b);
    buf := PutField(buf, 21, c, a + b + [r.flags]);
    buf := PutField(buf, 25, d, a + b + [r.flags] + c);
    assert buf[4..] == (a + b + [r.flags] + c + d) + tail;
  }

  method AppendRecord(dst: Bytes, r: Record) returns (out: Bytes)
    requires Encodable(r)
    ensures out == dst + Encode(r)
  {
    var buf := FillHeader(r, LE(Unsigned(r.ts), 8), LE(r.sn, 8), LE(|r.key|, 4), LE(|r.value|, 4));
    var crc := LE(Checksum.Crc32(buf[4..]), 4);
    buf := Overwrite(buf, 0, crc);
    assert buf == crc + Body(r);
    out := dst + buf;
  }

  // --- lifting a record out of its batch --------------------------------------

  function Lifted(r: Record): Record { r.(flags := WithoutBatch(r.flags)) }

  lemma LiftedBody(r: Record)
    requires Encodable(r)
    ensures Body(Lifted(r)) == Body(r)[16 := WithoutBatch(r.flags)]
  {
  }

  // Rewriting one byte and the checksum re-encodes the lifted record.
  lemma LiftedEncoding(raw: Bytes)
    requires Decode(raw).Decoded?
    ensures Encodable(Decode(raw).r)
    ensures var f := raw[20 := WithoutBatch(raw[20])];
            Encode(Lifted(Decode(raw).r)) == Overwrite(f, 0, LE(Checksum.Crc32(f[4..]), 4))
  {
    var r := Decode(raw).r;
    EncodeDecode(raw);
    LiftedBody(r);
    var f := raw[20 := WithoutBatch(raw[20])];
    assert raw[4..] == Body(r);
    assert f[4..] == raw[4..][16 := WithoutBatch(raw[20])];
  }

  method ClearBatchFlags(raw: Bytes) returns (out: Bytes)
    ensures Decode(raw).Decoded? ==> Encodable(Decode(raw).r) && out == Encode(Lifted(Decode(raw).r))
    ensures |raw| < HEADER ==> out == raw
  {
    if |raw| < HEADER || (raw[20] / 2 % 2 == 0 && raw[20] / 4 % 2 == 0) {
      if Decode(raw).Decoded? { EncodeDecode(raw); }
      return raw;
    }
    out := raw[20 := WithoutBatch(raw[20])];
    if Decode(raw).Decoded? { LiftedEncoding(raw); }
    out := Overwrite(out, 0, LE(Checksum.Crc32(out[4..]), 4));
  }

  // Lifting keeps key, value, seq, tombstone bit and length, decodes, is idempotent,
  // and leaves nothing staged for a terminator.
  lemma LiftedSound(r: Record)
    requires Encodable(r)
    ensures var l := Lifted(r);
            && l.key == r.key && l.value == r.value && l.sn == r.sn && Tomb(l) == Tomb(r)
            && Encodable(l) && |Encode(l)| == |Encode(r)| && Decode(Encode(l)) == Decoded(l)
            && Lifted(l) == l && !InBatch(l) && !EndsBatch(l)
            && (Valid(r) ==> Valid(l))
  {
    DecodeEncode(Lifted(r));
  }
}
