/** Frames on a stream, and the chunked reply to a range query. */
module Framing {
  import opened Bytes
  import opened Records
  import opened Wire

  // --- frames ---------------------------------------------------------------------------------

  predicate Framable(p: Bytes) { |p| <= MAX_FRAME }

  function Frame(p: Bytes): (b: Bytes)
    requires Framable(p)
    ensures |b| == 4 + |p|
  {
    BE(|p|, 4) + p
  }

  predicate AllFramable(ps: seq<Bytes>) { forall i :: 0 <= i < |ps| ==> Framable(ps[i]) }

  function FrameAll(ps: seq<Bytes>): Bytes
    requires AllFramable(ps)
  {
    if ps == [] then [] else Frame(ps[0]) + FrameAll(ps[1..])
  }

  datatype Reading = Got(frame: Bytes, rest: Bytes) | TooLarge | Ended

  // The next frame of a stream that may have been cut.
  function NextFrame(b: Bytes): Reading {
    if |b| < 4 then Ended
    else
      var n := FromBE(b[..4]);
      if n > MAX_FRAME then TooLarge else if n > |b| - 4 then Ended else Got(b[4..4 + n], b[4 + n..])
  }

  function Frames(b: Bytes): seq<Bytes>
    decreases |b|
  {
    match NextFrame(b)
    case Got(p, rest) => [p] + Frames(rest)
    case _ => []
  }

  lemma NextFramed(p: Bytes, rest: Bytes)
    requires Framable(p)
    ensures NextFrame(Frame(p) + rest) == Got(p, rest)
  {
    hide FromBE, BE;
    PowersOf256();
    BERoundTrip(|p|, 4);
    var b := Frame(p) + rest;
    assert b[..4] == BE(|p|, 4) && b[4..4 + |p|] == p && b[4 + |p|..] == rest;
  }

  // A frame is read if and only if the stream begins with it; a length above the limit is reported.
  lemma NextFrameIff(b: Bytes)
    ensures forall p, rest :: NextFrame(b) == Got(p, rest) <==> Framable(p) && b == Frame(p) + rest
    ensures NextFrame(b) == TooLarge <==> |b| >= 4 && FromBE(b[..4]) > MAX_FRAME
  {
    hide FromBE, BE;
    if NextFrame(b).Got? {
      var p := NextFrame(b).frame;
      BEInverse(b[..4]);
      assert b == b[..4] + b[4..4 + |p|] + b[4 + |p|..];
    }
    forall p, rest | Framable(p) && b == Frame(p) + rest ensures NextFrame(b) == Got(p, rest) {
      NextFramed(p, rest);
    }
  }

  lemma CutFrame(p: Bytes, n: nat)
    requires Framable(p) && n < 4 + |p|
    ensures NextFrame(Frame(p)[..n]) == Ended
  {
    hide FromBE, BE;
    PowersOf256();
    BERoundTrip(|p|, 4);
    if n >= 4 {
      assert Frame(p)[..n][..4] == BE(|p|, 4);
    }
  }

  // How many frames lie wholly within the first n bytes.
  function Within(ps: seq<Bytes>, n: nat): (k: nat)
    requires AllFramable(ps)
    ensures k <= |ps|
  {
    if ps == [] || n < 4 + |ps[0]| then 0 else 1 + Within(ps[1..], n - 4 - |ps[0]|)
  }

  // A stream cut at any byte yields exactly the frames that arrived whole, in order.
  lemma {:induction false} FramesCut(ps: seq<Bytes>, n: nat)
    requires AllFramable(ps) && n <= |FrameAll(ps)|
    ensures Frames(FrameAll(ps)[..n]) == ps[..Within(ps, n)]
    decreases |ps|
  {
    hide Frame, NextFrame;
    if ps == [] {
      ShortStream();
    } else {
      var a, b := Frame(ps[0]), FrameAll(ps[1..]);
      if n < |a| {
        assert (a + b)[..n] == a[..n];
        CutFrame(ps[0], n);
      } else {
        assert (a + b)[..n] == a + b[..n - |a|];
        NextFramed(ps[0], b[..n - |a|]);
        FramesCut(ps[1..], n - |a|);
        var k := Within(ps[1..], n - |a|);
        assert ps[..k + 1] == [ps[0]] + ps[1..][..k];
      }
    }
  }

  lemma {:induction false} FramesWhole(ps: seq<Bytes>)
    requires AllFramable(ps)
    ensures Frames(FrameAll(ps)) == ps
    decreases |ps|
  {
    hide Frame, NextFrame;
    if ps == [] {
      ShortStream();
    } else {
      NextFramed(ps[0], FrameAll(ps[1..]));
      FramesWhole(ps[1..]);
      assert [ps[0]] + ps[1..] == ps;
    }
  }

  lemma ShortStream()
    ensures NextFrame([]) == Ended
  {
  }

  class Writer {
    var out: Bytes

    constructor ()
      ensures out == []
    {
      out := [];
    }

    method WriteFrame(p: Bytes) returns (ok: bool)
      modifies this
      ensures ok <==> Framable(p)
      ensures out == if ok then old(out) + Frame(p) else old(out)
    {
      hide BE;
      if |p| > MAX_FRAME {
        return false;
      }
      out := out + BE(|p|, 4);
      out := out + p;
      ok := true;
    }
  }

  class Reader {
    var stream: Bytes

    constructor (stream: Bytes)
      ensures this.stream == stream
    {
      this.stream := stream;
    }

    method ReadFrame() returns (r: Reading)
      modifies this
      ensures r == NextFrame(old(stream)) && (r.Got? ==> stream == r.rest)
      ensures r.Got? <==> exists p, rest :: Framable(p) && old(stream) == Frame(p) + rest
      ensures r.Got? ==> Framable(r.frame) && old(stream) == Frame(r.frame) + stream
      ensures r == TooLarge <==> |old(stream)| >= 4 && FromBE(old(stream)[..4]) > MAX_FRAME
    {
      NextFrameIff(stream);
      hide FromBE, Frame;
      if |stream| < 4 {
        return Ended;
      }
      var n := FromBE(stream[..4]);
      if n > MAX_FRAME {
        return TooLarge;
      }
      if n > |stream| - 4 {
        return Ended;
      }
      r := Got(stream[4..4 + n], stream[4 + n..]);
      stream := stream[4 + n..];
    }
  }

  // --- range replies ------------------------------------------------------------------------------

  const STATUS_CHUNK: byte := 4
  const STATUS_END: byte := 5
  const CHUNK_BYTES: nat := 0x4_0000  // 256 KiB

  // What a store can hold.
  predicate Storable(p: KV) { |p.0| <= MAX_KEY && |p.1| <= MAX_VALUE }

  predicate AllStorable(ps: seq<KV>) { forall i :: 0 <= i < |ps| ==> Storable(ps[i]) }

  function ChunkFrame(ps: seq<KV>): Bytes
    requires SmallPairs(ps)
  {
    [STATUS_CHUNK] + PutPairs(ps)
  }

  function EndFrame(total: nat): Bytes { [STATUS_END] + BE(total % U64, 8) }

  function Flatten(gs: seq<seq<KV>>): seq<KV> {
    if gs == [] then [] else gs[0] + Flatten(gs[1..])
  }

  // A reply: some chunk frames that fit the frame limit, then one end frame.
  ghost predicate Reply(frames: seq<Bytes>, gs: seq<seq<KV>>, ps: seq<KV>) {
    && |frames| == |gs| + 1 && Flatten(gs) == ps && frames[|gs|] == EndFrame(|ps|)
    && (forall i :: 0 <= i < |gs| ==> SmallPairs(gs[i]) && frames[i] == ChunkFrame(gs[i]))
    && AllFramable(frames)
  }

  lemma {:induction false} PutPairsSnoc(ps: seq<KV>, p: KV)
    requires SmallPairs(ps) && |p.0| < U32 && |p.1| < U32
    ensures SmallPairs(ps + [p]) && PutPairs(ps + [p]) == PutPairs(ps) + PutPair(p)
    decreases |ps|
  {
    hide PutPair;
    if ps == [] {
      assert [p][1..] == [];
      assert PutPair(p) + [] == PutPair(p);
    } else {
      assert (ps + [p])[1..] == ps[1..] + [p];
      PutPairsSnoc(ps[1..], p);
    }
  }

  lemma {:induction false} FlattenSnoc(gs: seq<seq<KV>>, g: seq<KV>)
    ensures Flatten(gs + [g]) == Flatten(gs) + g
    decreases |gs|
  {
    if gs == [] {
      assert [g][1..] == [];
      assert g + [] == g;
    } else {
      assert (gs + [g])[1..] == gs[1..] + [g];
      FlattenSnoc(gs[1..], g);
    }
  }

  // The state of a reply under construction: whole chunks sent, and one being filled.
  ghost predicate Filling(frames: seq<Bytes>, gs: seq<seq<KV>>, cur: seq<KV>, body: Bytes, ps: seq<KV>) {
    && |frames| == |gs| && Flatten(gs) + cur == ps && SmallPairs(cur) && body == ChunkFrame(cur)
    && (forall i :: 0 <= i < |gs| ==> SmallPairs(gs[i]) && frames[i] == ChunkFrame(gs[i]))
    && AllFramable(frames)
  }

  lemma FillOne(frames: seq<Bytes>, gs: seq<seq<KV>>, cur: seq<KV>, body: Bytes, ps: seq<KV>, p: KV)
    requires Filling(frames, gs, cur, body, ps) && Storable(p) && |body| < CHUNK_BYTES
    ensures Filling(frames, gs, cur + [p], body + PutPair(p), ps + [p]) && Framable(body + PutPair(p))
  {
    hide Flatten, PutPairs, BE;
    PutPairsSnoc(cur, p);
    assert Flatten(gs) + (cur + [p]) == ps + [p];
  }

  lemma SendChunk(frames: seq<Bytes>, gs: seq<seq<KV>>, cur: seq<KV>, body: Bytes, ps: seq<KV>)
    requires Filling(frames, gs, cur, body, ps) && Framable(body)
    ensures Filling(frames + [body], gs + [cur], [], [STATUS_CHUNK], ps)
  {
    hide Flatten;
    FlattenSnoc(gs, cur);
    assert Flatten(gs + [cur]) + [] == ps;
    assert ChunkFrame([]) == [STATUS_CHUNK];
  }

  // The server's side: a chunk goes out when it has reached its size, and once more at the end
  // if anything is left in it.
  method ServeRange(ps: seq<KV>) returns (frames: seq<Bytes>)
    requires AllStorable(ps)
    ensures exists gs :: Reply(frames, gs, ps)
    ensures forall i :: 0 <= i < |frames| - 2 ==> |frames[i]| >= CHUNK_BYTES
    ensures forall i :: 0 <= i < |frames| - 1 ==> |frames[i]| > 1
  {
    hide Filling, PutPair, PutPairs, Flatten, BE;
    frames := [];
    ghost var gs: seq<seq<KV>> := [];
    ghost var cur: seq<KV> := [];
    var chunk := new Enc(STATUS_CHUNK);
    NothingFilled();
    for i := 0 to |ps|
      invariant fresh(chunk) && Filling(frames, gs, cur, chunk.body, ps[..i]) && |chunk.body| < CHUNK_BYTES
      invariant forall j :: 0 <= j < |frames| ==> |frames[j]| >= CHUNK_BYTES
    {
      FillOne(frames, gs, cur, chunk.body, ps[..i], ps[i]);
      assert ps[..i + 1] == ps[..i] + [ps[i]];
      EncodePair(chunk, ps[i]);
      cur := cur + [ps[i]];
      if |chunk.body| >= CHUNK_BYTES {
        SendChunk(frames, gs, cur, chunk.body, ps[..i + 1]);
        frames, gs, cur := frames + [chunk.body], gs + [cur], [];
        chunk := new Enc(STATUS_CHUNK);
      }
    }
    assert ps[..|ps|] == ps;
    if |chunk.body| > 1 {
      SendChunk(frames, gs, cur, chunk.body, ps);
      frames, gs, cur := frames + [chunk.body], gs + [cur], [];
      chunk := new Enc(STATUS_CHUNK);
    }
    Replied(frames, gs, cur, chunk.body, ps);
    var end := new Enc(STATUS_END);
    end.PutU64(|ps|);
    frames := frames + [end.body];
  }

  lemma NothingFilled()
    ensures Filling([], [], [], [STATUS_CHUNK], [])
  {
  }

  lemma Replied(frames: seq<Bytes>, gs: seq<seq<KV>>, cur: seq<KV>, body: Bytes, ps: seq<KV>)
    requires Filling(frames, gs, cur, body, ps) && |body| <= 1
    ensures Reply(frames + [EndFrame(|ps|)], gs, ps)
  {
    hide Flatten, BE;
    assert cur == [] by {
      assert |PutPairs(cur)| == 0;
    }
    assert Flatten(gs) + [] == Flatten(gs);
  }

  // --- the client's side ----------------------------------------------------------------------------

  lemma TakePairShrinks(b: Bytes)
    requires TakePair(b).Some?
    ensures |TakePair(b).value.1| < |b|
  {
    PutTakePair(b);
  }

  // The pairs of one chunk, up to the first error.
  function Unpack(b: Bytes): (seq<KV>, bool)
    decreases |b|
  {
    if b == [] then ([], true)
    else
      match TakePair(b)
      case None => ([], false)
      case Some((p, rest)) =>
        TakePairShrinks(b);
        var (ps, ok) := Unpack(rest);
        ([p] + ps, ok)
  }

  // What the caller has been given when the loop returns, and whether it ended well.
  function Deliver(frames: seq<Bytes>): (seq<KV>, bool) {
    if frames == [] || frames[0] == [] then ([], false)
    else if frames[0][0] == STATUS_END then ([], true)
    else if frames[0][0] != STATUS_CHUNK then ([], false)
    else
      var (ps, ok) := Unpack(frames[0][1..]);
      if !ok then (ps, false)
      else
        var (qs, done) := Deliver(frames[1..]);
        (ps + qs, done)
  }

  lemma {:induction false} UnpackPairs(ps: seq<KV>)
    requires SmallPairs(ps)
    ensures Unpack(PutPairs(ps)) == (ps, true)
    decreases |ps|
  {
    hide PutPair, TakePair;
    if ps != [] {
      TakePutPair(ps[0], PutPairs(ps[1..]));
      UnpackPairs(ps[1..]);
      assert [ps[0]] + ps[1..] == ps;
    }
  }

  // On any bytes: the pairs delivered are a prefix of the chunk, all of it if and only if it ends
  // well.
  lemma {:induction false} UnpackExact(b: Bytes)
    ensures var u := Unpack(b); SmallPairs(u.0) && PutPairs(u.0) <= b && (u.1 <==> PutPairs(u.0) == b)
    decreases |b|
  {
    hide PutPair, TakePair, Unpack;
    if b == [] {
      UnpackNothing();
    } else {
      UnpackStep(b);
      if TakePair(b).Some? {
        PutTakePair(b);
        var (p, rest) := TakePair(b).value;
        UnpackExact(rest);
        var ps := Unpack(rest).0;
        assert ([p] + ps)[1..] == ps;
        Prefixed(PutPair(p), PutPairs(ps), rest);
      }
    }
  }

  // Chunk frames, and then an end frame; what follows it is not looked at.
  ghost predicate Whole(frames: seq<Bytes>, gs: seq<seq<KV>>) {
    && |gs| < |frames| && frames[|gs|] != [] && frames[|gs|][0] == STATUS_END
    && forall i :: 0 <= i < |gs| ==> SmallPairs(gs[i]) && frames[i] == ChunkFrame(gs[i])
  }

  lemma WholeFirst(frames: seq<Bytes>, gs: seq<seq<KV>>)
    requires Whole(frames, gs)
    ensures frames != [] && frames[0] != [] && (gs == [] <==> frames[0][0] == STATUS_END)
    ensures gs != [] ==> Unpack(frames[0][1..]) == (gs[0], true) && frames[0][0] == STATUS_CHUNK
    ensures gs != [] ==> Whole(frames[1..], gs[1..]) && Flatten(gs) == gs[0] + Flatten(gs[1..])
  {
    hide PutPairs, Unpack;
    if gs != [] {
      assert ChunkFrame(gs[0])[1..] == PutPairs(gs[0]);
      UnpackPairs(gs[0]);
    }
  }

  lemma WholeCons(frames: seq<Bytes>, hs: seq<seq<KV>>)
    requires frames != [] && frames[0] != [] && frames[0][0] == STATUS_CHUNK && Unpack(frames[0][1..]).1
    requires Whole(frames[1..], hs)
    ensures Whole(frames, [Unpack(frames[0][1..]).0] + hs)
  {
    hide PutPairs, Unpack;
    UnpackExact(frames[0][1..]);
    assert frames[0] == [STATUS_CHUNK] + frames[0][1..];
  }

  // On any frames: the client takes a reply for complete if and only if it is whole chunks up to an
  // end frame, and then delivers exactly their pairs.
  lemma {:induction false} DeliverIff(frames: seq<Bytes>)
    ensures Deliver(frames).1 <==> exists gs :: Whole(frames, gs)
    ensures forall gs :: Whole(frames, gs) ==> Deliver(frames).0 == Flatten(gs)
    decreases |frames|
  {
    hide Unpack, Deliver, Whole, Flatten;
    forall gs | Whole(frames, gs) ensures Deliver(frames) == (Flatten(gs), true) {
      WholeDelivered(frames, gs);
    }
    if Deliver(frames).1 {
      var gs := DeliveredWhole(frames);
    }
  }

  lemma {:induction false} WholeDelivered(frames: seq<Bytes>, gs: seq<seq<KV>>)
    requires Whole(frames, gs)
    ensures Deliver(frames) == (Flatten(gs), true)
    decreases |gs|
  {
    hide Unpack, Deliver, Whole;
    WholeFirst(frames, gs);
    DeliverStep(frames, 0);
    assert frames[0..] == frames;
    if gs != [] {
      WholeDelivered(frames[1..], gs[1..]);
    }
  }

  lemma {:induction false} DeliveredWhole(frames: seq<Bytes>) returns (gs: seq<seq<KV>>)
    requires Deliver(frames).1
    ensures Whole(frames, gs)
    decreases |frames|
  {
    hide Unpack;
    if frames[0][0] == STATUS_END {
      gs := [];
    } else {
      hide Whole, Deliver;
      DeliverStep(frames, 0);
      assert frames[0..] == frames;
      var hs := DeliveredWhole(frames[1..]);
      WholeCons(frames, hs);
      gs := [Unpack(frames[0][1..]).0] + hs;
    }
  }

  // A range reply delivers the pairs it was made from, in order.
  lemma {:induction false} RangeRoundTrip(frames: seq<Bytes>, gs: seq<seq<KV>>, ps: seq<KV>, total: nat)
    requires |frames| == |gs| + 1 && Flatten(gs) == ps && frames[|gs|] == EndFrame(total)
    requires forall i :: 0 <= i < |gs| ==> SmallPairs(gs[i]) && frames[i] == ChunkFrame(gs[i])
    ensures Deliver(frames) == (ps, true)
    decreases |gs|
  {
    hide PutPairs, Unpack, BE;
    if gs != [] {
      UnpackPairs(gs[0]);
      assert frames[0][1..] == PutPairs(gs[0]);
      RangeRoundTrip(frames[1..], gs[1..], Flatten(gs[1..]), total);
    }
  }

  method UnpackChunk(b: Bytes) returns (ps: seq<KV>, ok: bool)
    ensures (ps, ok) == Unpack(b)
  {
    hide TakePair, Unpack, PutPair;
    var d := new Dec(b);
    ps := [];
    ghost var all := Unpack(b);
    assert [] + all.0 == all.0;
    while d.pos < |d.body|
      invariant d.Valid() && !d.err && all == (ps + Unpack(d.Rest()).0, Unpack(d.Rest()).1)
      decreases |d.Rest()|
    {
      UnpackStep(d.Rest());
      var p := ReadPair(d);
      if d.err {
        assert ps + [] == ps;
        return ps, false;
      }
      Regroup(ps, p, Unpack(d.Rest()).0);
      ps := ps + [p];
    }
    UnpackNothing();
    assert ps + [] == ps;
    ok := true;
  }

  lemma Regroup<T>(a: seq<T>, x: T, b: seq<T>)
    ensures a + ([x] + b) == (a + [x]) + b
  {
  }

  lemma UnpackNothing()
    ensures Unpack([]) == ([], true)
  {
  }

  lemma UnpackStep(b: Bytes)
    requires b != []
    ensures TakePair(b).None? ==> Unpack(b) == ([], false)
    ensures TakePair(b).Some? ==> |TakePair(b).value.1| < |b|
    ensures TakePair(b).Some? ==>
              Unpack(b) == ([TakePair(b).value.0] + Unpack(TakePair(b).value.1).0, Unpack(TakePair(b).value.1).1)
  {
    if TakePair(b).Some? {
      TakePairShrinks(b);
    }
  }

  lemma DeliverStep(frames: seq<Bytes>, i: nat)
    requires i < |frames|
    ensures frames[i] == [] || (frames[i][0] != STATUS_END && frames[i][0] != STATUS_CHUNK) ==>
              Deliver(frames[i..]) == ([], false)
    ensures frames[i] != [] && frames[i][0] == STATUS_END ==> Deliver(frames[i..]) == ([], true)
    ensures frames[i] != [] && frames[i][0] == STATUS_CHUNK ==>
              var (ps, ok) := Unpack(frames[i][1..]);
              Deliver(frames[i..]) == if ok then (ps + Deliver(frames[i + 1..]).0, Deliver(frames[i + 1..]).1)
                                      else (ps, false)
  {
    hide Unpack;
    assert frames[i..][1..] == frames[i + 1..];
  }

  method ReadRange(frames: seq<Bytes>) returns (ps: seq<KV>, ok: bool)
    ensures (ps, ok) == Deliver(frames)
  {
    hide Unpack, Deliver;
    ps := [];
    var i := 0;
    assert frames[0..] == frames && [] + Deliver(frames).0 == Deliver(frames).0;
    while i < |frames|
      invariant i <= |frames| && Deliver(frames) == (ps + Deliver(frames[i..]).0, Deliver(frames[i..]).1)
    {
      assert ps + [] == ps;
      DeliverStep(frames, i);
      if frames[i] == [] {
        return ps, false;
      }
      if frames[i][0] == STATUS_END {
        return ps, true;
      }
      if frames[i][0] != STATUS_CHUNK {
        return ps, false;
      }
      var more, fine := UnpackChunk(frames[i][1..]);
      assert ps + (more + Deliver(frames[i + 1..]).0) == (ps + more) + Deliver(frames[i + 1..]).0;
      ps := ps + more;
      if !fine {
        return ps, false;
      }
      i := i + 1;
    }
    assert ps + [] == ps && frames[i..] == [];
    NothingDelivered();
    ok := false;
  }

  // Server, stream and client together.
  lemma RangeOverStream(frames: seq<Bytes>, gs: seq<seq<KV>>, ps: seq<KV>)
    requires Reply(frames, gs, ps)
    ensures Deliver(Frames(FrameAll(frames))) == (ps, true)
  {
    hide Deliver, Frames, FrameAll, Flatten;
    FramesWhole(frames);
    RangeRoundTrip(frames, gs, ps, |ps|);
  }

  lemma {:induction false} ChunksOnly(frames: seq<Bytes>, gs: seq<seq<KV>>)
    requires |frames| == |gs| && forall i :: 0 <= i < |gs| ==> SmallPairs(gs[i]) && frames[i] == ChunkFrame(gs[i])
    ensures Deliver(frames) == (Flatten(gs), false)
    decreases |gs|
  {
    hide PutPairs, Unpack;
    if gs != [] {
      UnpackPairs(gs[0]);
      assert frames[0][1..] == PutPairs(gs[0]);
      ChunksOnly(frames[1..], gs[1..]);
    }
  }

  lemma {:induction false} FlattenPrefix(gs: seq<seq<KV>>, k: nat)
    requires k <= |gs|
    ensures Flatten(gs[..k]) <= Flatten(gs)
    decreases k
  {
    if k > 0 {
      FlattenPrefix(gs[1..], k - 1);
      assert gs[..k][1..] == gs[1..][..k - 1];
    }
  }

  lemma {:induction false} WithinAll(ps: seq<Bytes>, n: nat)
    requires AllFramable(ps) && n < |FrameAll(ps)|
    ensures Within(ps, n) < |ps|
    decreases |ps|
  {
    hide BE;
    if ps != [] && n >= 4 + |ps[0]| {
      WithinAll(ps[1..], n - 4 - |ps[0]|);
    }
  }

  // A reply cut anywhere is never mistaken for a complete one, and what was delivered is the
  // head of the range.
  lemma RangeCut(frames: seq<Bytes>, gs: seq<seq<KV>>, ps: seq<KV>, n: nat)
    requires Reply(frames, gs, ps) && n < |FrameAll(frames)|
    ensures var (qs, ok) := Deliver(Frames(FrameAll(frames)[..n])); !ok && qs <= ps
  {
    hide Deliver, Frames, FrameAll, Flatten;
    FramesCut(frames, n);
    WithinAll(frames, n);
    var k := Within(frames, n);
    ChunksOnly(frames[..k], gs[..k]);
    FlattenPrefix(gs, k);
  }

  lemma NothingDelivered()
    ensures Deliver([]) == ([], false)
  {
  }
}
