/** Walking the ordered index in chunks: the loop shared by range scans and snapshots. */
module Scanning {
  import opened Bytes
  import opened Engine

  const CHUNK: nat := 512

  // The ordered half of the index: every key once, ascending.
  ghost predicate Lists(order: seq<Item>, ix: Index) {
    && KeyOrdered(order)
    && (forall i :: 0 <= i < |order| ==> order[i].key in ix && ix[order[i].key] == order[i].e)
    && (forall k :: k in ix ==> Item(k, ix[k]) in order)
  }

  // Keys still ahead of a cursor. Before the first key has been visited the cursor itself is.
  predicate Ahead(cursor: Bytes, exclusive: bool, k: Bytes) { Less(cursor, k) || (!exclusive && k == cursor) }

  predicate Within(end: Bytes, k: Bytes) { end == [] || !Less(end, k) }

  function LiveItems(items: seq<Item>): seq<Item> {
    if items == [] then []
    else LiveItems(items[..|items| - 1]) + (if items[|items| - 1].e.tomb then [] else [items[|items| - 1]])
  }

  // Where the walk starts: the first key ahead of the cursor.
  ghost predicate Starts(order: seq<Item>, cursor: Bytes, exclusive: bool, lo: nat) {
    && lo <= |order|
    && (forall i :: 0 <= i < lo ==> !Ahead(cursor, exclusive, order[i].key))
    && (forall i :: lo <= i < |order| ==> Ahead(cursor, exclusive, order[i].key))
  }

  // Where it stops: the end of the index, the end of the range, or a full chunk.
  ghost predicate Stops(order: seq<Item>, end: Bytes, lo: nat, hi: nat, atEnd: bool) {
    && lo <= hi <= |order|
    && (forall i :: lo <= i < hi ==> Within(end, order[i].key))
    && (atEnd ==> hi < |order| && !Within(end, order[hi].key))
    && (hi == |order| || atEnd || |LiveItems(order[lo..hi])| == CHUNK || hi - lo == CHUNK * 8)
  }

  // One chunk, taken under the index lock.
  method TakeChunk(order: seq<Item>, cursor: Bytes, exclusive: bool, end: Bytes)
    returns (refs: seq<Item>, cursor': Bytes, exclusive': bool, examined: nat, atEnd: bool, ghost lo: nat)
    requires KeyOrdered(order)
    ensures Starts(order, cursor, exclusive, lo) && Stops(order, end, lo, lo + examined, atEnd)
    ensures refs == LiveItems(order[lo..lo + examined])
    ensures |refs| <= CHUNK && examined <= CHUNK * 8 && (examined == 0 ==> refs == [])
    ensures if examined == 0 then cursor' == cursor && exclusive' == exclusive
            else cursor' == order[lo + examined - 1].key && exclusive'
  {
    hide LiveItems, Less, KeyOrdered;
    var i := Seek(order, cursor, exclusive);
    refs, cursor', exclusive', examined, atEnd := [], cursor, exclusive, 0, false;
    lo := i;
    NoneLive(order, lo);
    while i < |order| && |refs| < CHUNK && examined < CHUNK * 8
      invariant lo <= i <= |order| && examined == i - lo && refs == LiveItems(order[lo..i]) && |refs| <= CHUNK
      invariant examined <= CHUNK * 8 && forall j :: lo <= j < i ==> Within(end, order[j].key)
      invariant if examined == 0 then cursor' == cursor && exclusive' == exclusive
                else cursor' == order[i - 1].key && exclusive'
    {
      if end != [] && Less(end, order[i].key) {
        atEnd := true;
        return;
      }
      cursor', exclusive', examined := order[i].key, true, examined + 1;
      OneMore(order, lo, i);
      if !order[i].e.tomb {
        refs := refs + [order[i]];
      } else {
        assert refs + [] == refs;
      }
      i := i + 1;
    }
  }

  // The first position ahead of the cursor.
  method Seek(order: seq<Item>, cursor: Bytes, exclusive: bool) returns (i: nat)
    requires KeyOrdered(order)
    ensures Starts(order, cursor, exclusive, i)
  {
    i := 0;
    while i < |order| && Less(order[i].key, cursor)
      invariant i <= |order| && forall j :: 0 <= j < i ==> Less(order[j].key, cursor)
    {
      i := i + 1;
    }
    forall j | i < j < |order| ensures !Less(order[j].key, cursor) && order[j].key != cursor {
      LessTrichotomy(order[i].key, order[j].key);
      LessChain(cursor, order[i].key, order[j].key);
      LessTrichotomy(cursor, order[j].key);
    }
    if exclusive && i < |order| && order[i].key == cursor {
      i := i + 1;
    }
    StartsAt(order, cursor, exclusive, i);
  }

  lemma StartsAt(order: seq<Item>, cursor: Bytes, exclusive: bool, lo: nat)
    requires KeyOrdered(order) && lo <= |order|
    requires forall j :: 0 <= j < lo ==> Less(order[j].key, cursor) || (exclusive && order[j].key == cursor)
    requires forall j :: lo <= j < |order| ==> !Less(order[j].key, cursor) && (exclusive ==> order[j].key != cursor)
    ensures Starts(order, cursor, exclusive, lo)
  {
    forall j | 0 <= j < |order| ensures Ahead(cursor, exclusive, order[j].key) <==> j >= lo {
      LessTrichotomy(cursor, order[j].key);
    }
  }

  lemma NoneLive(order: seq<Item>, lo: nat)
    requires lo <= |order|
    ensures LiveItems(order[lo..lo]) == []
  {
    assert order[lo..lo] == [];
  }

  lemma OneMore(order: seq<Item>, lo: nat, i: nat)
    requires lo <= i < |order|
    ensures LiveItems(order[lo..i + 1]) == LiveItems(order[lo..i]) + (if order[i].e.tomb then [] else [order[i]])
  {
    assert order[lo..i + 1][..i - lo] == order[lo..i];
  }

  // --- what a chunk covers ------------------------------------------------------------------

  lemma {:induction false} LiveItemsIn(items: seq<Item>)
    requires KeyOrdered(items)
    ensures forall it :: it in LiveItems(items) <==> it in items && !it.e.tomb
    ensures KeyOrdered(LiveItems(items))
  {
    if items != [] {
      LiveItemsIn(items[..|items| - 1]);
    }
  }

  // The cursor after positions lo .. hi have been visited.
  function Moved(order: seq<Item>, cursor: Bytes, lo: nat, hi: nat): Bytes
    requires lo <= hi <= |order|
  {
    if lo == hi then cursor else order[hi - 1].key
  }

  // Every reference is a live key of the index, passed by this chunk.
  ghost predicate Sent(ix: Index, cursor: Bytes, exclusive: bool, end: Bytes, refs: seq<Item>, cursor': Bytes,
                       exclusive': bool) {
    && KeyOrdered(refs)
    && (forall it :: it in refs ==> it.key in ix && ix[it.key] == it.e && !it.e.tomb && Within(end, it.key))
    && (forall it :: it in refs ==> Ahead(cursor, exclusive, it.key) && !Ahead(cursor', exclusive', it.key))
  }

  // Every live key passed by this chunk has a reference.
  ghost predicate Whole(ix: Index, cursor: Bytes, exclusive: bool, end: Bytes, refs: seq<Item>, cursor': Bytes,
                        exclusive': bool) {
    forall k :: k in ix && !ix[k].tomb && Within(end, k)
                && Ahead(cursor, exclusive, k) && !Ahead(cursor', exclusive', k)
                ==> Item(k, ix[k]) in refs
  }

  // No key of the range is left ahead of the cursor.
  ghost predicate Exhausted(ix: Index, end: Bytes, cursor: Bytes, exclusive: bool) {
    forall k :: k in ix && Within(end, k) ==> !Ahead(cursor, exclusive, k)
  }

  ghost predicate Covers(ix: Index, cursor: Bytes, exclusive: bool, end: Bytes, refs: seq<Item>, cursor': Bytes,
                         exclusive': bool, atEnd: bool) {
    && Sent(ix, cursor, exclusive, end, refs, cursor', exclusive')
    && Whole(ix, cursor, exclusive, end, refs, cursor', exclusive')
    && Forward(cursor, exclusive, cursor', exclusive')
    && (atEnd || (cursor == cursor' && exclusive == exclusive') ==> Exhausted(ix, end, cursor', exclusive'))
  }

  ghost predicate Forward(cursor: Bytes, exclusive: bool, cursor': Bytes, exclusive': bool) {
    forall k :: Ahead(cursor', exclusive', k) ==> Ahead(cursor, exclusive, k)
  }

  lemma ChunkCovers(ix: Index, order: seq<Item>, cursor: Bytes, exclusive: bool, end: Bytes, lo: nat, hi: nat,
                    atEnd: bool)
    requires Lists(order, ix) && Starts(order, cursor, exclusive, lo) && Stops(order, end, lo, hi, atEnd)
    ensures Covers(ix, cursor, exclusive, end, LiveItems(order[lo..hi]), Moved(order, cursor, lo, hi),
                   exclusive || lo < hi, atEnd)
  {
    hide LiveItems, Lists, Starts, Moved, Sent, Whole, Exhausted, Forward;
    var cursor', exclusive' := Moved(order, cursor, lo, hi), exclusive || lo < hi;
    ChunkSent(ix, order, cursor, exclusive, end, lo, hi, atEnd);
    ChunkWhole(ix, order, cursor, exclusive, end, lo, hi, atEnd);
    ChunkForward(order, cursor, exclusive, lo, hi);
    if atEnd || (cursor == cursor' && exclusive == exclusive') {
      NothingLeft(ix, order, cursor, exclusive, end, lo, hi, atEnd);
    }
  }

  lemma PartOrdered(order: seq<Item>, lo: nat, hi: nat)
    requires KeyOrdered(order) && lo <= hi <= |order|
    ensures KeyOrdered(order[lo..hi])
  {
    hide Less;
  }

  lemma ChunkSent(ix: Index, order: seq<Item>, cursor: Bytes, exclusive: bool, end: Bytes, lo: nat, hi: nat,
                  atEnd: bool)
    requires Lists(order, ix) && Starts(order, cursor, exclusive, lo) && Stops(order, end, lo, hi, atEnd)
    ensures Sent(ix, cursor, exclusive, end, LiveItems(order[lo..hi]), Moved(order, cursor, lo, hi),
                 exclusive || lo < hi)
  {
    hide LiveItems, Less, Moved, KeyOrdered, Ahead, Within;
    var part := order[lo..hi];
    PartOrdered(order, lo, hi);
    LiveItemsIn(part);
    forall it | it in LiveItems(part)
      ensures it.key in ix && ix[it.key] == it.e && Within(end, it.key)
      ensures Ahead(cursor, exclusive, it.key) && !Ahead(Moved(order, cursor, lo, hi), exclusive || lo < hi, it.key)
    {
      assert it in part;
      var i :| 0 <= i < |part| && part[i] == it;
      assert order[lo + i] == it;
      AheadOf(order, cursor, exclusive, lo, hi, lo + i);
    }
  }

  lemma ChunkWhole(ix: Index, order: seq<Item>, cursor: Bytes, exclusive: bool, end: Bytes, lo: nat, hi: nat,
                   atEnd: bool)
    requires Lists(order, ix) && Starts(order, cursor, exclusive, lo) && Stops(order, end, lo, hi, atEnd)
    ensures Whole(ix, cursor, exclusive, end, LiveItems(order[lo..hi]), Moved(order, cursor, lo, hi),
                 exclusive || lo < hi)
  {
    hide LiveItems, Less, Moved, KeyOrdered, Ahead, Within;
    var part := order[lo..hi];
    PartOrdered(order, lo, hi);
    LiveItemsIn(part);
    forall k | k in ix && Ahead(cursor, exclusive, k) && !Ahead(Moved(order, cursor, lo, hi), exclusive || lo < hi, k)
      ensures Item(k, ix[k]) in part
    {
      var i :| 0 <= i < |order| && order[i] == Item(k, ix[k]);
      AheadOf(order, cursor, exclusive, lo, hi, i);
      assert part[i - lo] == order[i];
    }
  }

  lemma ChunkForward(order: seq<Item>, cursor: Bytes, exclusive: bool, lo: nat, hi: nat)
    requires Starts(order, cursor, exclusive, lo) && lo <= hi <= |order|
    ensures Forward(cursor, exclusive, Moved(order, cursor, lo, hi), exclusive || lo < hi)
  {
    hide Less;
    if lo < hi {
      var c := order[hi - 1].key;
      forall k | Less(c, k) ensures Less(cursor, k) {
        LessTrichotomy(cursor, c);
        LessTrichotomy(c, k);
        LessChain(cursor, c, k);
      }
    }
  }

  lemma AheadOf(order: seq<Item>, cursor: Bytes, exclusive: bool, lo: nat, hi: nat, i: nat)
    requires KeyOrdered(order) && Starts(order, cursor, exclusive, lo) && lo <= hi <= |order| && i < |order|
    ensures Ahead(Moved(order, cursor, lo, hi), exclusive || lo < hi, order[i].key) <==> i >= hi
  {
    if lo < hi {
      LessTrichotomy(order[hi - 1].key, order[i].key);
    }
  }

  lemma NothingLeft(ix: Index, order: seq<Item>, cursor: Bytes, exclusive: bool, end: Bytes, lo: nat, hi: nat,
                    atEnd: bool)
    requires Lists(order, ix) && Starts(order, cursor, exclusive, lo) && Stops(order, end, lo, hi, atEnd)
    requires var cursor', exclusive' := Moved(order, cursor, lo, hi), exclusive || lo < hi;
             atEnd || (cursor == cursor' && exclusive == exclusive')
    ensures Exhausted(ix, end, Moved(order, cursor, lo, hi), exclusive || lo < hi)
  {
    hide Less, Moved;
    if !atEnd {
      NotMoved(order, cursor, exclusive, lo, hi);
      assert order[lo..hi] == [];
      assert hi == |order|;
    }
    forall k | k in ix && Within(end, k) ensures !Ahead(Moved(order, cursor, lo, hi), exclusive || lo < hi, k) {
      var i :| 0 <= i < |order| && order[i] == Item(k, ix[k]);
      AheadOf(order, cursor, exclusive, lo, hi, i);
      if hi <= i {
        BeyondEnd(order, end, hi, i);
      }
    }
  }

  lemma NotMoved(order: seq<Item>, cursor: Bytes, exclusive: bool, lo: nat, hi: nat)
    requires Starts(order, cursor, exclusive, lo) && lo <= hi <= |order|
    requires Moved(order, cursor, lo, hi) == cursor && exclusive == (exclusive || lo < hi)
    ensures lo == hi
  {
    LessTrichotomy(cursor, cursor);
    assert lo < hi ==> Ahead(cursor, exclusive, order[hi - 1].key);
  }

  lemma BeyondEnd(order: seq<Item>, end: Bytes, hi: nat, i: nat)
    requires KeyOrdered(order) && hi <= i < |order| && !Within(end, order[hi].key)
    ensures !Within(end, order[i].key)
  {
    if hi < i {
      LessTrichotomy(end, order[hi].key);
      LessTrichotomy(order[hi].key, order[i].key);
      LessChain(end, order[hi].key, order[i].key);
    }
  }

  lemma Separated(cursor: Bytes, exclusive: bool, x: Bytes, y: Bytes)
    requires !Ahead(cursor, exclusive, x) && Ahead(cursor, exclusive, y)
    ensures Less(x, y)
  {
    LessTrichotomy(cursor, x);
    LessTrichotomy(cursor, y);
    LessTrichotomy(x, cursor);
    LessChain(x, cursor, y);
  }

  // --- a scan of an index nobody is changing ---------------------------------------------------

  predicate Asked(start: Bytes, end: Bytes, it: Item) {
    !it.e.tomb && Ahead(start, false, it.key) && Within(end, it.key)
  }

  // The live keys of the range, in order.
  function InRange(items: seq<Item>, start: Bytes, end: Bytes): seq<Item> {
    if items == [] then []
    else
      var last := items[|items| - 1];
      InRange(items[..|items| - 1], start, end) + (if Asked(start, end, last) then [last] else [])
  }

  // A limit of zero or less means no limit.
  function Limited<T>(s: seq<T>, limit: int): seq<T> { if 0 < limit < |s| then s[..limit] else s }

  lemma {:induction false} InRangeIn(items: seq<Item>, start: Bytes, end: Bytes)
    requires KeyOrdered(items)
    ensures forall it :: it in InRange(items, start, end) <==> it in items && Asked(start, end, it)
    ensures KeyOrdered(InRange(items, start, end))
  {
    hide Asked, Less;
    if items != [] {
      var init, last := items[..|items| - 1], items[|items| - 1];
      InRangeIn(init, start, end);
      assert forall it :: it in items <==> it in init || it == last;
      var some := InRange(init, start, end);
      forall i | 0 <= i < |some| ensures Less(some[i].key, last.key) {
        assert some[i] in init;
        var j :| 0 <= j < |init| && init[j] == some[i];
        assert items[j] == some[i];
      }
    }
  }

  lemma {:induction false} InRangeConcat(a: seq<Item>, b: seq<Item>, start: Bytes, end: Bytes)
    ensures InRange(a + b, start, end) == InRange(a, start, end) + InRange(b, start, end)
  {
    if b == [] {
      assert a + b == a;
    } else {
      assert (a + b)[..|a + b| - 1] == a + b[..|b| - 1];
      InRangeConcat(a, b[..|b| - 1], start, end);
    }
  }

  lemma {:induction false} InRangeNone(items: seq<Item>, start: Bytes, end: Bytes)
    requires forall i :: 0 <= i < |items| ==> !Asked(start, end, items[i])
    ensures InRange(items, start, end) == []
  {
    if items != [] {
      InRangeNone(items[..|items| - 1], start, end);
    }
  }

  lemma {:induction false} InRangeAll(items: seq<Item>, start: Bytes, end: Bytes)
    requires forall i :: 0 <= i < |items| ==> Ahead(start, false, items[i].key) && Within(end, items[i].key)
    ensures InRange(items, start, end) == LiveItems(items)
  {
    if items != [] {
      InRangeAll(items[..|items| - 1], start, end);
    }
  }

  // The range is what has been walked, then what lies in the rest.
  lemma RangeSplit(order: seq<Item>, start: Bytes, end: Bytes, lo: nat, p: nat)
    requires Starts(order, start, false, lo) && lo <= p <= |order|
    requires forall i :: lo <= i < p ==> Within(end, order[i].key)
    ensures InRange(order, start, end) == LiveItems(order[lo..p]) + InRange(order[p..], start, end)
  {
    hide InRange, Ahead, Within, LiveItems;
    InRangeNone(order[..lo], start, end);
    InRangeAll(order[lo..p], start, end);
    InRangeConcat(order[..lo], order[lo..p], start, end);
    InRangeConcat(order[..p], order[p..], start, end);
    assert order[..lo] + order[lo..p] == order[..p];
    assert order[..p] + order[p..] == order;
  }

  lemma RangeDone(order: seq<Item>, start: Bytes, end: Bytes, lo: nat, p: nat)
    requires KeyOrdered(order) && Starts(order, start, false, lo) && lo <= p <= |order|
    requires forall i :: lo <= i < p ==> Within(end, order[i].key)
    requires p < |order| ==> !Within(end, order[p].key)
    ensures InRange(order, start, end) == LiveItems(order[lo..p])
  {
    hide InRange, Ahead, Within, LiveItems, KeyOrdered;
    RangeSplit(order, start, end, lo, p);
    forall i | p <= i < |order| ensures !Within(end, order[i].key) {
      BeyondEnd(order, end, p, i);
    }
    InRangeNone(order[p..], start, end);
    assert LiveItems(order[lo..p]) + [] == LiveItems(order[lo..p]);
  }

  lemma StartsUnique(order: seq<Item>, cursor: Bytes, exclusive: bool, a: nat, b: nat)
    requires Starts(order, cursor, exclusive, a) && Starts(order, cursor, exclusive, b)
    ensures a == b
  {
    var m := if a < b then a else b;
    if m < |order| {
      assert Ahead(cursor, exclusive, order[m].key) <==> m >= a;
      assert Ahead(cursor, exclusive, order[m].key) <==> m >= b;
    }
  }

  lemma {:induction false} LiveConcat(a: seq<Item>, b: seq<Item>)
    ensures LiveItems(a + b) == LiveItems(a) + LiveItems(b)
  {
    if b == [] {
      assert a + b == a;
    } else {
      assert (a + b)[..|a + b| - 1] == a + b[..|b| - 1];
      LiveConcat(a, b[..|b| - 1]);
    }
  }

  // The cursor stands at the position the walk has reached.
  lemma CursorMoved(order: seq<Item>, cursor: Bytes, exclusive: bool, lo: nat, hi: nat)
    requires KeyOrdered(order) && Starts(order, cursor, exclusive, lo) && lo <= hi <= |order|
    ensures Starts(order, Moved(order, cursor, lo, hi), exclusive || lo < hi, hi)
  {
    hide Ahead, KeyOrdered;
    forall i | 0 <= i < |order|
      ensures Ahead(Moved(order, cursor, lo, hi), exclusive || lo < hi, order[i].key) <==> i >= hi
    {
      AheadOf(order, cursor, exclusive, lo, hi, i);
    }
  }

  // Reaching the limit inside a chunk leaves exactly the head of the range.
  lemma LimitHit(order: seq<Item>, start: Bytes, end: Bytes, limit: int, lo: nat, p: nat, q: nat, sent: nat,
                 out: seq<Item>)
    requires Starts(order, start, false, lo) && lo <= p <= q <= |order|
    requires forall i :: lo <= i < q ==> Within(end, order[i].key)
    requires sent <= |LiveItems(order[p..q])| && out == LiveItems(order[lo..p]) + LiveItems(order[p..q])[..sent]
    requires 0 < |out| == limit
    ensures out == Limited(InRange(order, start, end), limit)
  {
    hide InRange, Ahead, Within, LiveItems, Starts;
    RangeSplit(order, start, end, lo, q);
    LiveConcat(order[lo..p], order[p..q]);
    assert order[lo..p] + order[p..q] == order[lo..q];
  }

  // Visits the live keys of the range in order, chunk by chunk, up to the limit. The loop ends
  // because every turn but the last moves the cursor past at least one key.
  method Scan(order: seq<Item>, start: Bytes, end: Bytes, limit: int) returns (out: seq<Item>)
    requires KeyOrdered(order)
    ensures out == Limited(InRange(order, start, end), limit) && out <= InRange(order, start, end)
    ensures limit <= 0 || |InRange(order, start, end)| <= limit ==> out == InRange(order, start, end)
    ensures 0 < limit < |InRange(order, start, end)| ==> |out| == limit
  {
    hide InRange, Ahead, Within, LiveItems, KeyOrdered, Less, Starts, Moved;
    out := [];
    if end != [] && Less(end, start) {
      EmptyRange(order, start, end);
      return;
    }
    ghost var lo := Seek(order, start, false);
    var cursor, exclusive := start, false;
    ghost var p := lo;
    InOrder(order, start, false, lo);
    NoneLive(order, lo);
    while true
      invariant lo <= p <= |order| && out == LiveItems(order[lo..p]) && (0 < limit ==> |out| < limit)
      invariant Starts(order, cursor, exclusive, p) && forall i :: lo <= i < p ==> Within(end, order[i].key)
      decreases |order| - p
    {
      var refs, cursor', exclusive', examined, atEnd;
      ghost var from;
      refs, cursor', exclusive', examined, atEnd, from := TakeChunk(order, cursor, exclusive, end);
      StartsUnique(order, cursor, exclusive, p, from);
      if examined == 0 {
        NoneLive(order, p);
        RangeDone(order, start, end, lo, p);
        return;
      }
      ghost var q := p + examined;
      ghost var before := out;
      var sent := 0;
      assert before + refs[..0] == before;
      while sent < |refs|
        invariant sent <= |refs| && out == before + refs[..sent] && (0 < limit ==> |out| < limit)
      {
        assert before + refs[..sent + 1] == (before + refs[..sent]) + [refs[sent]];
        out := out + [refs[sent]];
        sent := sent + 1;
        if 0 < limit && |out| >= limit {
          LimitHit(order, start, end, limit, lo, p, q, sent, out);
          return;
        }
      }
      assert refs[..|refs|] == refs;
      LiveConcat(order[lo..p], order[p..q]);
      assert order[lo..p] + order[p..q] == order[lo..q];
      CursorMoved(order, cursor, exclusive, p, q);
      MovedTo(order, cursor, p, q);
      p, cursor, exclusive := q, cursor', exclusive';
      if atEnd {
        RangeDone(order, start, end, lo, p);
        return;
      }
    }
  }

  lemma MovedTo(order: seq<Item>, cursor: Bytes, lo: nat, hi: nat)
    requires lo < hi <= |order|
    ensures Moved(order, cursor, lo, hi) == order[hi - 1].key
  {
  }

  lemma InOrder(order: seq<Item>, cursor: Bytes, exclusive: bool, lo: nat)
    requires Starts(order, cursor, exclusive, lo)
    ensures lo <= |order|
  {
  }

  lemma EmptyRange(order: seq<Item>, start: Bytes, end: Bytes)
    requires end != [] && Less(end, start)
    ensures InRange(order, start, end) == []
  {
    hide InRange, Less;
    forall i | 0 <= i < |order| ensures !Asked(start, end, order[i]) {
      var k := order[i].key;
      LessTrichotomy(end, start);
      LessTrichotomy(start, k);
      if !Less(k, start) {
        LessChain(end, start, k);
      }
    }
    InRangeNone(order, start, end);
  }
}
