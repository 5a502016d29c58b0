/** Byte strings, their lexicographic order, and fixed-width integers.

    Keys and values are byte strings; Go compares keys as strings, which is the
    lexicographic order on their bytes. The log is little-endian, the wire is
    big-endian. */
module Bytes {

  type byte = x: int | 0 <= x < 256
  type Bytes = seq<byte>

  const U32: nat := 0x1_0000_0000
  const U64: nat := 0x1_0000_0000_0000_0000
  const I64: nat := 0x8000_0000_0000_0000

  datatype Option<+T> = None | Some(value: T)

  // --- order -----------------------------------------------------------------

  predicate Less(a: Bytes, b: Bytes) {
    if b == [] then false
    else if a == [] then true
    else if a[0] != b[0] then a[0] < b[0]
    else Less(a[1..], b[1..])
  }

  // A proper prefix of b, or the smaller byte at the first difference.
  ghost predicate SplitsAt(a: Bytes, b: Bytes, i: nat) {
    i <= |a| && i < |b| && a[..i] == b[..i] && (i == |a| || a[i] < b[i])
  }

  // The order is that of Go's strings.
  lemma {:induction false} LessIff(a: Bytes, b: Bytes)
    ensures Less(a, b) <==> exists i: nat :: SplitsAt(a, b, i)
  {
    if b == [] {
    } else if a == [] {
      assert SplitsAt(a, b, 0);
    } else if a[0] != b[0] {
      FirstDiffers(a, b);
      assert a[0] < b[0] ==> SplitsAt(a, b, 0);
    } else {
      LessIff(a[1..], b[1..]);
      LessTail(a, b);
    }
  }

  lemma FirstDiffers(a: Bytes, b: Bytes)
    requires a != [] && b != [] && a[0] != b[0]
    ensures forall i: nat :: SplitsAt(a, b, i) ==> i == 0
  {
    assert forall i :: 0 < i <= |a| && i <= |b| ==> a[..i][0] != b[..i][0];
  }

  lemma LessTail(a: Bytes, b: Bytes)
    requires a != [] && b != [] && a[0] == b[0]
    ensures (exists i: nat :: SplitsAt(a, b, i)) <==> exists i: nat :: SplitsAt(a[1..], b[1..], i)
  {
    if i: nat :| SplitsAt(a, b, i) {
      assert i > 0;
      assert a[1..][..i - 1] == a[..i][1..] && b[1..][..i - 1] == b[..i][1..];
      assert SplitsAt(a[1..], b[1..], i - 1);
    }
    if i: nat :| SplitsAt(a[1..], b[1..], i) {
      assert a[..i + 1] == [a[0]] + a[1..][..i] && b[..i + 1] == [b[0]] + b[1..][..i];
      assert SplitsAt(a, b, i + 1);
    }
  }

  lemma {:induction false} LessTrichotomy(a: Bytes, b: Bytes)
    ensures Less(a, b) || a == b || Less(b, a)
    ensures !(Less(a, b) && a == b) && !(Less(a, b) && Less(b, a)) && !(Less(b, a) && a == b)
  {
    if a != [] && b != [] && a[0] == b[0] {
      LessTrichotomy(a[1..], b[1..]);
      assert a == [a[0]] + a[1..] && b == [b[0]] + b[1..];
    }
  }

  lemma {:induction false} LessTransitive(a: Bytes, b: Bytes, c: Bytes)
    requires Less(a, b) && Less(b, c)
    ensures Less(a, c)
  {
    if a != [] && a[0] == b[0] == c[0] {
      LessTransitive(a[1..], b[1..], c[1..]);
    }
  }

  // a <= b < c  and  a < b <= c
  lemma LessChain(a: Bytes, b: Bytes, c: Bytes)
    requires !Less(b, a) && !Less(c, b)
    ensures !Less(c, a)
    ensures Less(a, b) || Less(b, c) ==> Less(a, c)
  {
    LessTrichotomy(a, b);
    LessTrichotomy(b, c);
    LessTrichotomy(a, c);
    if Less(a, b) && Less(b, c) {
      LessTransitive(a, b, c);
    }
  }

  lemma Prefixed(a: Bytes, p: Bytes, rest: Bytes)
    requires p <= rest
    ensures a + p <= a + rest && (a + rest)[|a + p|..] == rest[|p|..] && (a + p == a + rest <==> p == rest)
  {
    assert (a + p)[|a|..] == p && (a + rest)[|a|..] == rest;
  }

  // --- integers --------------------------------------------------------------

  function Max(a: nat, b: nat): nat { if a < b then b else a }

  function Pow256(k: nat): (p: nat)
    ensures p > 0
  {
    if k == 0 then 1 else 256 * Pow256(k - 1)
  }

  lemma PowersOf256()
    ensures Pow256(4) == U32 && Pow256(8) == U64
  {
    assert Pow256(2) == 65536;
    assert Pow256(4) == 256 * (256 * Pow256(2));
    assert Pow256(6) == 256 * (256 * Pow256(4));
    assert Pow256(8) == 256 * (256 * Pow256(6));
  }

  function LE(n: nat, width: nat): (b: Bytes)
    ensures |b| == width
  {
    if width == 0 then [] else [n % 256] + LE(n / 256, width - 1)
  }

  function FromLE(b: Bytes): (n: nat)
    ensures n < Pow256(|b|)
  {
    if b == [] then 0 else b[0] + 256 * FromLE(b[1..])
  }

  // Least significant byte first.
  lemma {:induction false} LEByte(n: nat, width: nat, i: nat)
    requires i < width
    ensures LE(n, width)[i] == n / Pow256(i) % 256
    decreases width
  {
    if i > 0 {
      LEByte(n / 256, width - 1, i - 1);
      DivTwice(n, i - 1);
    }
  }

  lemma DivTwice(n: nat, k: nat)
    ensures n / 256 / Pow256(k) == n / Pow256(k + 1)
  {
    var p := Pow256(k);
    var q := n / 256 / p;
    var r := n / 256 - p * q;
    assert n / 256 == p * q + r && 0 <= r < p;
    assert n == 256 * (p * q + r) + n % 256;
    assert 256 * (p * q) == (256 * p) * q;
    Quotient(n, 256 * p, q, 256 * r + n % 256);
  }

  lemma Quotient(n: nat, d: nat, q: nat, r: nat)
    requires d > 0 && n == d * q + r && r < d
    ensures n / d == q
  {
    var p := n / d;
    assert n == d * p + n % d;
    Scaled(d, p, q);
    Scaled(d, q, p);
  }

  lemma {:induction false} Scaled(d: nat, p: nat, q: nat)
    ensures p < q ==> d * q >= d * p + d
    decreases q
  {
    if p + 1 < q {
      Scaled(d, p, q - 1);
      assert d * q == d * (q - 1) + d;
    }
  }

  lemma {:induction false} LERoundTrip(n: nat, width: nat)
    requires n < Pow256(width)
    ensures FromLE(LE(n, width)) == n
  {
    if width > 0 {
      LERoundTrip(n / 256, width - 1);
      assert LE(n, width)[1..] == LE(n / 256, width - 1);
    }
  }

  lemma {:induction false} LEInverse(b: Bytes)
    ensures LE(FromLE(b), |b|) == b
  {
    if b != [] {
      LEInverse(b[1..]);
      assert (b[0] + 256 * FromLE(b[1..])) / 256 == FromLE(b[1..]);
      assert b == [b[0]] + b[1..];
    }
  }

  function BE(n: nat, width: nat): (b: Bytes)
    ensures |b| == width
  {
    if width == 0 then [] else BE(n / 256, width - 1) + [n % 256]
  }

  function FromBE(b: Bytes): (n: nat)
    ensures n < Pow256(|b|)
  {
    if b == [] then 0 else 256 * FromBE(b[..|b| - 1]) + b[|b| - 1]
  }

  // Most significant byte first.
  lemma {:induction false} BEByte(n: nat, width: nat, i: nat)
    requires i < width
    ensures BE(n, width)[i] == n / Pow256(width - 1 - i) % 256
    decreases width
  {
    if i < width - 1 {
      BEByte(n / 256, width - 1, i);
      DivTwice(n, width - 2 - i);
    }
  }

  lemma {:induction false} BERoundTrip(n: nat, width: nat)
    requires n < Pow256(width)
    ensures FromBE(BE(n, width)) == n
  {
    if width > 0 {
      BERoundTrip(n / 256, width - 1);
      var b := BE(n, width);
      assert b[..|b| - 1] == BE(n / 256, width - 1);
    }
  }

  lemma {:induction false} BEInverse(b: Bytes)
    ensures BE(FromBE(b), |b|) == b
  {
    if b != [] {
      BEInverse(b[..|b| - 1]);
      assert (256 * FromBE(b[..|b| - 1]) + b[|b| - 1]) / 256 == FromBE(b[..|b| - 1]);
    }
  }
}
