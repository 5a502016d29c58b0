/** The ordered half of the index: a skip list over linked nodes. */
module SkipList {
  import opened Bytes
  import opened Engine

  const MAX_LEVEL: nat := 20

  class Node {
    const key: Bytes
    const height: nat
    var ent: Entry
    var next: seq<Node?>

    constructor (key: Bytes, ent: Entry, height: nat)
      ensures this.key == key && this.ent == ent && this.height == height && next == Nulls(height)
    {
      this.key, this.ent, this.height, this.next := key, ent, height, Nulls(height);
    }
  }

  function Nulls(n: nat): (s: seq<Node?>)
    ensures |s| == n && forall l :: 0 <= l < n ==> s[l] == null
  {
    seq(n, _ => null)
  }

  // --- positions: -1 is the head, 0 .. |ns| the nodes in key order ---------------------------

  ghost predicate Sorted(ns: seq<Node>) { forall i, j :: 0 <= i < j < |ns| ==> Less(ns[i].key, ns[j].key) }

  // No node strictly between two positions is on level l.
  ghost predicate Bare(ns: seq<Node>, p: int, s: int, l: nat) {
    forall j :: 0 <= j < |ns| && p < j < s ==> ns[j].height <= l
  }

  // The first position after p that is on level l, or |ns|.
  ghost function Succ(ns: seq<Node>, p: int, l: nat): (s: nat)
    requires -1 <= p < |ns|
    ensures p < s <= |ns| && (s < |ns| ==> l < ns[s].height) && Bare(ns, p, s, l)
    decreases |ns| - p
  {
    if p + 1 == |ns| then |ns| else if l < ns[p + 1].height then p + 1 else Succ(ns, p + 1, l)
  }

  // The last position before k that is on level l, or -1.
  ghost function Pred(ns: seq<Node>, k: nat, l: nat): (p: int)
    requires k <= |ns|
    ensures -1 <= p < k && (0 <= p ==> l < ns[p].height) && Bare(ns, p, k, l)
  {
    if k == 0 then -1 else if l < ns[k - 1].height then k - 1 else Pred(ns, k - 1, l)
  }

  lemma SuccIs(ns: seq<Node>, p: int, l: nat, s: nat)
    requires -1 <= p < s <= |ns| && (s < |ns| ==> l < ns[s].height) && Bare(ns, p, s, l)
    ensures Succ(ns, p, l) == s
  {
    hide Succ;
    var t := Succ(ns, p, l);
    var m := if s < t then s else t;
    assert m < |ns| ==> (l < ns[m].height);
  }

  lemma PredIs(ns: seq<Node>, k: nat, l: nat, p: int)
    requires -1 <= p < k <= |ns| && (0 <= p ==> l < ns[p].height) && Bare(ns, p, k, l)
    ensures Pred(ns, k, l) == p
  {
    hide Pred;
    var q := Pred(ns, k, l);
    var m := if p < q then q else p;
    assert 0 <= m ==> l < ns[m].height;
  }

  function NodeAt(ns: seq<Node>, s: nat): Node? { if s < |ns| then ns[s] else null }

  function At(head: Node, ns: seq<Node>, p: int): Node
    requires -1 <= p < |ns|
  {
    if p == -1 then head else ns[p]
  }

  // The links of one node: on every level it takes part in, the next node of that level.
  ghost predicate Linked(ns: seq<Node>, p: int, height: nat, next: seq<Node?>)
    requires -1 <= p < |ns|
  {
    |next| == height && forall l :: 0 <= l < height ==> next[l] == NodeAt(ns, Succ(ns, p, l))
  }

  // How many keys lie below a key.
  ghost predicate IsRank(ns: seq<Node>, key: Bytes, k: nat) {
    && k <= |ns| && (forall j :: 0 <= j < k ==> Less(ns[j].key, key))
    && (forall j :: k <= j < |ns| ==> !Less(ns[j].key, key))
  }

  lemma {:induction false} RankOf(ns: seq<Node>, key: Bytes) returns (k: nat)
    requires Sorted(ns)
    ensures IsRank(ns, key, k)
    decreases |ns|
  {
    if ns == [] {
      k := 0;
    } else {
      var last := |ns| - 1;
      if Less(ns[last].key, key) {
        forall j | 0 <= j < last ensures Less(ns[j].key, key) {
          LessTransitive(ns[j].key, ns[last].key, key);
        }
        k := |ns|;
      } else {
        k := RankOf(ns[..last], key);
      }
    }
  }

  // --- inserting and removing, on positions ---------------------------------------------------

  function Inserted(ns: seq<Node>, k: nat, x: Node): seq<Node>
    requires k <= |ns|
  {
    ns[..k] + ([x] + ns[k..])
  }

  function Removed(ns: seq<Node>, k: nat): seq<Node>
    requires k < |ns|
  {
    ns[..k] + ns[k + 1..]
  }

  // A node's links once x has been spliced in at k up to level i: on each of x's levels the
  // node just before k points to x, everything else is as it was.
  ghost predicate Spliced(ns: seq<Node>, k: nat, i: nat, x: Node, p: int, before: seq<Node?>, after: seq<Node?>)
    requires k <= |ns|
  {
    && |after| == |before|
    && forall l :: 0 <= l < |after| ==> after[l] == if l < i && p == Pred(ns, k, l) then x else before[l]
  }

  // Which successor a node has after an insertion at k.
  lemma InsertSucc(ns: seq<Node>, k: nat, x: Node, p: int, l: nat)
    requires k <= |ns| && -1 <= p < |ns| && (0 <= p ==> l < ns[p].height)
    ensures var ms := Inserted(ns, k, x);
            NodeAt(ms, Succ(ms, if p < k then p else p + 1, l))
            == if l < x.height && p == Pred(ns, k, l) then x else NodeAt(ns, Succ(ns, p, l))
  {
    hide Succ, Pred;
    var ms, s := Inserted(ns, k, x), Succ(ns, p, l);
    if k <= p {
      SuccIs(ms, p + 1, l, s + 1);
    } else if s < k {
      SuccIs(ms, p, l, s);
      assert Pred(ns, k, l) >= s;
    } else {
      PredIs(ns, k, l, p);
      SuccIs(ms, p, l, if l < x.height then k else s + 1);
    }
  }

  // The new node's successor is its predecessor's old one.
  lemma InsertOwn(ns: seq<Node>, k: nat, x: Node, l: nat)
    requires k <= |ns|
    ensures var ms := Inserted(ns, k, x);
            NodeAt(ms, Succ(ms, k, l)) == NodeAt(ns, Succ(ns, Pred(ns, k, l), l))
  {
    hide Succ, Pred;
    var ms, s := Inserted(ns, k, x), Succ(ns, Pred(ns, k, l), l);
    SuccIs(ms, k, l, s + 1);
  }

  lemma InsertLinked(ns: seq<Node>, k: nat, x: Node, p: int, height: nat, before: seq<Node?>, after: seq<Node?>)
    requires k <= |ns| && -1 <= p < |ns| && (0 <= p ==> height == ns[p].height)
    requires Linked(ns, p, height, before) && Spliced(ns, k, x.height, x, p, before, after)
    ensures Linked(Inserted(ns, k, x), if p < k then p else p + 1, height, after)
  {
    hide Succ, Pred;
    forall l | 0 <= l < height
      ensures after[l] == NodeAt(Inserted(ns, k, x), Succ(Inserted(ns, k, x), if p < k then p else p + 1, l))
    {
      InsertSucc(ns, k, x, p, l);
    }
  }

  lemma InsertSorted(ns: seq<Node>, k: nat, x: Node)
    requires Sorted(ns) && IsRank(ns, x.key, k) && (k < |ns| ==> ns[k].key != x.key)
    ensures Sorted(Inserted(ns, k, x))
  {
    hide Less;
    forall j | k <= j < |ns| ensures Less(x.key, ns[j].key) {
      LessTrichotomy(x.key, ns[j].key);
      LessTrichotomy(x.key, ns[k].key);
      if k < j {
        LessTransitive(x.key, ns[k].key, ns[j].key);
      }
    }
  }

  // A node's links once the node at k has been cut out up to level i.
  ghost predicate Cut(ns: seq<Node>, k: nat, i: nat, p: int, before: seq<Node?>, after: seq<Node?>)
    requires k < |ns| && -1 <= p < |ns|
  {
    && |after| == |before|
    && forall l :: 0 <= l < |after| ==>
         after[l] == if l < i && Succ(ns, p, l) == k then NodeAt(ns, Succ(ns, k, l)) else before[l]
  }

  lemma RemoveSucc(ns: seq<Node>, k: nat, p: int, l: nat)
    requires k < |ns| && -1 <= p < |ns| && p != k
    ensures var ms := Removed(ns, k);
            NodeAt(ms, Succ(ms, if p < k then p else p - 1, l))
            == if Succ(ns, p, l) == k then NodeAt(ns, Succ(ns, k, l)) else NodeAt(ns, Succ(ns, p, l))
  {
    hide Succ;
    var ms, s := Removed(ns, k), Succ(ns, p, l);
    if k < p {
      SuccIs(ms, p - 1, l, s - 1);
    } else if s < k {
      SuccIs(ms, p, l, s);
    } else if s == k {
      SuccIs(ms, p, l, Succ(ns, k, l) - 1);
    } else {
      SuccIs(ms, p, l, s - 1);
    }
  }

  lemma RemoveLinked(ns: seq<Node>, k: nat, p: int, height: nat, before: seq<Node?>, after: seq<Node?>)
    requires k < |ns| && -1 <= p < |ns| && p != k
    requires Linked(ns, p, height, before) && Cut(ns, k, height, p, before, after)
    ensures Linked(Removed(ns, k), if p < k then p else p - 1, height, after)
  {
    hide Succ;
    forall l | 0 <= l < height
      ensures after[l] == NodeAt(Removed(ns, k), Succ(Removed(ns, k), if p < k then p else p - 1, l))
    {
      RemoveSucc(ns, k, p, l);
    }
  }

  // --- the list ---------------------------------------------------------------------------------

  class List {
    const head: Node
    var level: nat
    var n: nat
    ghost var nodes: seq<Node>

    ghost predicate Sized()
      reads this
    {
      && head !in nodes && head.height == MAX_LEVEL && 1 <= level <= MAX_LEVEL && n == |nodes| && Sorted(nodes)
      && (forall i :: 0 <= i < |nodes| ==> 1 <= nodes[i].height <= level)
    }

    // The top level in use has a node on it.
    ghost predicate Shape()
      reads this
    {
      Sized() && (level > 1 ==> exists i :: 0 <= i < |nodes| && nodes[i].height == level)
    }

    ghost predicate Valid()
      reads this, head, nodes
    {
      && Shape()
      && Linked(nodes, -1, MAX_LEVEL, head.next)
      && forall i :: 0 <= i < |nodes| ==> Linked(nodes, i, nodes[i].height, nodes[i].next)
    }

    // The abstract value: keys and entries in ascending key order.
    ghost function Items(): seq<Item>
      reads this, nodes
    {
      seq(|nodes|, i requires 0 <= i < |nodes| reads this, nodes => Item(nodes[i].key, nodes[i].ent))
    }

    constructor ()
      ensures Valid() && nodes == [] && fresh(head)
    {
      head := new Node([], Entry(0, 0, 0, 0, false), MAX_LEVEL);
      level, n, nodes := 1, 0, [];
    }

    // Descends level by level to the last node below the key on each; above the current level
    // that is the head.
    method FindPrev(key: Bytes) returns (prev: seq<Node>, ghost k: nat)
      requires Valid()
      ensures |prev| == MAX_LEVEL && IsRank(nodes, key, k)
      ensures forall l :: 0 <= l < MAX_LEVEL ==> prev[l] == At(head, nodes, Pred(nodes, k, l))
    {
      hide Pred, Linked, Sorted;
      k := RankOf(nodes, key);
      var x := head;
      var i: nat := level;
      prev := seq(MAX_LEVEL, _ => head);
      forall l | level <= l <= MAX_LEVEL ensures Pred(nodes, k, l) == -1 {
        PredIs(nodes, k, l, -1);
      }
      while i > 0
        invariant i <= level && |prev| == MAX_LEVEL && x == At(head, nodes, Pred(nodes, k, i))
        invariant forall l: nat :: i <= l < MAX_LEVEL ==> prev[l] == At(head, nodes, Pred(nodes, k, l))
      {
        i := i - 1;
        x := Advance(key, x, i, k);
        prev := prev[i := x];
      }
    }

    // Walks one level as far as the keys stay below the given one.
    method Advance(key: Bytes, start: Node, i: nat, ghost k: nat) returns (x: Node)
      requires Valid() && i < level && IsRank(nodes, key, k) && start == At(head, nodes, Pred(nodes, k, i + 1))
      ensures x == At(head, nodes, Pred(nodes, k, i))
    {
      hide Pred, Succ;
      x := start;
      ghost var p := Pred(nodes, k, i + 1);
      while x.next[i] != null && Less(x.next[i].key, key)
        invariant -1 <= p < k && x == At(head, nodes, p) && (0 <= p ==> i < nodes[p].height)
        decreases k - p
      {
        x, p := x.next[i], Succ(nodes, p, i);
      }
      PredIs(nodes, k, i, p);
    }

    lemma Ordered()
      requires Valid()
      ensures Sorted(nodes)
    {
    }

    lemma Distinct(p: int, q: int)
      requires Shape() && -1 <= p < |nodes| && -1 <= q < |nodes| && At(head, nodes, p) == At(head, nodes, q)
      ensures p == q
    {
      if 0 <= p && 0 <= q {
        LessTrichotomy(nodes[p].key, nodes[q].key);
      }
    }

    ghost predicate AllSpliced(k: nat, i: nat, x: Node, was: seq<seq<Node?>>)
      requires k <= |nodes| < |was|
      reads this, head, nodes
    {
      forall p :: -1 <= p < |nodes| ==> Spliced(nodes, k, i, x, p, was[p + 1], At(head, nodes, p).next)
    }

    // One level: the new node takes over its predecessor's link, the predecessor links to it.
    method SpliceLevel(x: Node, y: Node, i: nat, ghost k: nat, ghost was: seq<seq<Node?>>)
      requires Shape() && k <= |nodes| < |was| && x != head && x !in nodes && i < |x.next|
      requires y == At(head, nodes, Pred(nodes, k, i)) && i < |y.next| && AllSpliced(k, i, x, was)
      modifies x`next, y`next
      ensures AllSpliced(k, i + 1, x, was) && x.next == old(x.next)[i := was[Pred(nodes, k, i) + 1][i]]
      ensures y.next == old(y.next)[i := x]
    {
      hide Pred, Sorted;
      ghost var q := Pred(nodes, k, i);
      assert Spliced(nodes, k, i, x, q, was[q + 1], y.next);
      x.next := x.next[i := y.next[i]];
      y.next := y.next[i := x];
      forall p | -1 <= p < |nodes| ensures Spliced(nodes, k, i + 1, x, p, was[p + 1], At(head, nodes, p).next) {
        if At(head, nodes, p) == y {
          Distinct(p, q);
        }
        assert Spliced(nodes, k, i, x, p, was[p + 1], old(At(head, nodes, p).next));
      }
    }

    // Points the predecessors at the new node, level by level.
    method Splice(x: Node, prev: seq<Node>, ghost k: nat, ghost was: seq<seq<Node?>>)
      requires Shape() && k <= |nodes| < |was| && x.height <= MAX_LEVEL && x.height == |x.next| && x != head
      requires x !in nodes
      requires |prev| == MAX_LEVEL && forall l :: 0 <= l < MAX_LEVEL ==> prev[l] == At(head, nodes, Pred(nodes, k, l))
      requires AllSpliced(k, 0, x, was) && forall l :: 0 <= l < x.height ==> Own(nodes, k, was, l)
      modifies x`next, head`next, (set y | y in nodes)`next
      ensures AllSpliced(k, x.height, x, was)
      ensures |x.next| == x.height
      ensures forall l :: 0 <= l < x.height ==> x.next[l] == NodeAt(nodes, Succ(nodes, Pred(nodes, k, l), l))
    {
      hide Pred, Succ, Shape, Spliced;
      for i := 0 to x.height
        invariant AllSpliced(k, i, x, was) && |x.next| == x.height
        invariant forall l :: 0 <= l < i ==> x.next[l] == NodeAt(nodes, Succ(nodes, Pred(nodes, k, l), l))
      {
        assert Own(nodes, k, was, i);
        SplicedLength(nodes, k, i, x, Pred(nodes, k, i), was[Pred(nodes, k, i) + 1], prev[i].next);
        SpliceLevel(x, prev[i], i, k, was);
      }
    }

    // Every node's links before a splice.
    ghost function Links(): (was: seq<seq<Node?>>)
      reads this, head, nodes
      ensures |was| == |nodes| + 1 && forall p :: -1 <= p < |nodes| ==> was[p + 1] == At(head, nodes, p).next
    {
      [head.next] + seq(|nodes|, i requires 0 <= i < |nodes| reads this, nodes => nodes[i].next)
    }

    lemma SpliceReady(k: nat, x: Node)
      requires Valid() && k <= |nodes| && x.height <= MAX_LEVEL
      ensures AllSpliced(k, 0, x, Links()) && forall l :: 0 <= l < x.height ==> Own(nodes, k, Links(), l)
    {
      hide Pred, Succ, Sorted;
      forall l | 0 <= l < x.height ensures Own(nodes, k, Links(), l) {
        var p := Pred(nodes, k, l);
        assert Linked(nodes, p, At(head, nodes, p).height, At(head, nodes, p).next);
      }
    }

    // The links after a splice are those of the longer list.
    lemma SplicedLinked(k: nat, x: Node, was: seq<seq<Node?>>, i: int)
      requires Shape() && k <= |nodes| && |was| == |nodes| + 1 && -1 <= i <= |nodes| && i != k
      requires AllSpliced(k, x.height, x, was)
      requires forall p :: -1 <= p < |nodes| ==> Linked(nodes, p, At(head, nodes, p).height, was[p + 1])
      ensures var y := At(head, Inserted(nodes, k, x), i); Linked(Inserted(nodes, k, x), i, y.height, y.next)
    {
      hide Pred, Succ, Sorted, Linked, Spliced;
      var p := if i < k then i else i - 1;
      var y := At(head, nodes, p);
      assert At(head, Inserted(nodes, k, x), i) == y;
      InsertLinked(nodes, k, x, p, y.height, was[p + 1], y.next);
    }

    // On level 0 the predecessor's link leads to position k.
    lemma Base(k: nat)
      requires Valid() && k <= |nodes|
      ensures Pred(nodes, k, 0) == k - 1 && Succ(nodes, k - 1, 0) == k
      ensures |At(head, nodes, k - 1).next| > 0 && At(head, nodes, k - 1).next[0] == NodeAt(nodes, k)
    {
      PredIs(nodes, k, 0, k - 1);
      SuccIs(nodes, k - 1, 0, k);
      assert Linked(nodes, k - 1, At(head, nodes, k - 1).height, At(head, nodes, k - 1).next);
    }

    // Counts a spliced node in.
    method Adopt(node: Node, ghost k: nat, ghost was: seq<seq<Node?>>)
      requires Shape() && IsRank(nodes, node.key, k) && (k < |nodes| ==> nodes[k].key != node.key)
      requires node != head && 1 <= node.height <= MAX_LEVEL && |was| == |nodes| + 1
      requires forall p :: -1 <= p < |nodes| ==> Linked(nodes, p, At(head, nodes, p).height, was[p + 1])
      requires AllSpliced(k, node.height, node, was) && Linked(Inserted(nodes, k, node), k, node.height, node.next)
      modifies this
      ensures Valid() && nodes == Inserted(old(nodes), k, node)
    {
      hide Pred, Succ, Linked, Spliced, Sorted, IsRank, AllSpliced;
      RankBelow(nodes, node.key, k);
      InsertShape(nodes, k, node, level);
      ghost var more := Inserted(nodes, k, node);
      forall i | -1 <= i <= |nodes| && i != k
        ensures Linked(more, i, At(head, more, i).height, At(head, more, i).next)
      {
        SplicedLinked(k, node, was, i);
      }
      assert At(head, more, -1) == head;
      if node.height > level {
        level := node.height;
      }
      nodes, n := more, n + 1;
      forall i | 0 <= i < |nodes| ensures Linked(nodes, i, nodes[i].height, nodes[i].next) {
        assert At(head, nodes, i) == nodes[i];
      }
    }

    // A key that is not there yet.
    method InsertNew(key: Bytes, e: Entry, lvl: nat, prev: seq<Node>, ghost k: nat) returns (node: Node)
      requires Valid() && 1 <= lvl <= MAX_LEVEL && IsRank(nodes, key, k) && (k < |nodes| ==> nodes[k].key != key)
      requires |prev| == MAX_LEVEL && forall l :: 0 <= l < MAX_LEVEL ==> prev[l] == At(head, nodes, Pred(nodes, k, l))
      modifies this, head, nodes
      ensures Valid() && fresh(node) && node.key == key && node.ent == e && nodes == Inserted(old(nodes), k, node)
      ensures forall x :: x in old(nodes) ==> x.ent == old(x.ent)
    {
      hide Pred, Succ, Linked, Spliced, Sorted, IsRank, Own, Inserted;
      node := new Node(key, e, lvl);
      ghost var was := Links();
      RankBelow(nodes, key, k);
      SpliceReady(k, node);
      Splice(node, prev, k, was);
      OwnLinked(nodes, k, node, node.next);
      Adopt(node, k, was);
    }

    // Adds the key, or overwrites the entry of the node that has it. Any level may be drawn.
    method Insert(key: Bytes, e: Entry, lvl: nat) returns (node: Node, ghost k: nat)
      requires Valid() && 1 <= lvl <= MAX_LEVEL
      modifies this, head, nodes
      ensures Valid() && IsRank(old(nodes), key, k) && node.key == key && node.ent == e
      ensures forall x :: x in old(nodes) && x != node ==> x.ent == old(x.ent)
      ensures if k < |old(nodes)| && old(nodes)[k].key == key then nodes == old(nodes) && node == nodes[k]
              else fresh(node) && nodes == Inserted(old(nodes), k, node)
    {
      hide Pred, Succ, Linked, IsRank;
      var prev;
      prev, k := FindPrev(key);
      RankBelow(nodes, key, k);
      Base(k);
      var next := prev[0].next[0];
      if next != null && next.key == key {
        next.ent := e;
        node := next;
      } else {
        node := InsertNew(key, e, lvl, prev, k);
      }
    }

    ghost predicate AllCut(k: nat, i: nat, was: seq<seq<Node?>>)
      requires k < |nodes| < |was|
      reads this, head, nodes
    {
      forall p :: -1 <= p < |nodes| ==> Cut(nodes, k, i, p, was[p + 1], At(head, nodes, p).next)
    }

    // One level: the predecessor skips the target, if it links to it.
    method CutLevel(target: Node, y: Node, i: nat, ghost k: nat, ghost was: seq<seq<Node?>>)
      requires Shape() && k < |nodes| && |was| == |nodes| + 1 && target == nodes[k]
      requires y == At(head, nodes, Pred(nodes, k, i))
      requires AllCut(k, i, was)
      requires forall p :: -1 <= p < |nodes| ==> Linked(nodes, p, At(head, nodes, p).height, was[p + 1])
      requires i < y.height
      modifies y`next
      ensures AllCut(k, i + 1, was)
    {
      hide Pred, Succ, Sorted, Cut, Linked;
      ghost var q := Pred(nodes, k, i);
      assert At(head, nodes, k) == target;
      CutTarget(k, q, i);
      CutLink(nodes, k, i, q, y.height, was[q + 1], y.next);
      CutLink(nodes, k, i, k, target.height, was[k + 1], target.next);
      if y.next[i] == target {
        y.next := y.next[i := target.next[i]];
      }
      forall p | -1 <= p < |nodes| ensures Cut(nodes, k, i + 1, p, was[p + 1], At(head, nodes, p).next) {
        if At(head, nodes, p) == y {
          Distinct(p, q);
        } else if i < At(head, nodes, p).height {
          OnlyPred(nodes, k, i, p);
        }
        CutStep(nodes, k, i, p, At(head, nodes, p).height, was[p + 1], old(At(head, nodes, p).next),
                At(head, nodes, p).next);
      }
    }

    // The predecessor's link is the target exactly when the target is on that level.
    lemma CutTarget(k: nat, q: int, i: nat)
      requires Shape() && k < |nodes| && q == Pred(nodes, k, i)
      ensures (NodeAt(nodes, Succ(nodes, q, i)) == nodes[k]) <==> Succ(nodes, q, i) == k
      ensures Succ(nodes, q, i) == k <==> i < nodes[k].height
    {
      hide Pred, Succ, Sorted;
      var s := Succ(nodes, q, i);
      if i < nodes[k].height {
        SuccIs(nodes, q, i, k);
      }
      if s < |nodes| && nodes[s] == nodes[k] {
        Distinct(s, k);
      }
    }

    // Cuts the target out of every level it is on.
    method Unlink(target: Node, prev: seq<Node>, ghost k: nat, ghost was: seq<seq<Node?>>)
      requires Shape() && k < |nodes| && |was| == |nodes| + 1 && target == nodes[k] && AllCut(k, 0, was)
      requires forall p :: -1 <= p < |nodes| ==> Linked(nodes, p, At(head, nodes, p).height, was[p + 1])
      requires |prev| == MAX_LEVEL && forall l :: 0 <= l < MAX_LEVEL ==> prev[l] == At(head, nodes, Pred(nodes, k, l))
      modifies head`next, (set y | y in nodes)`next
      ensures AllCut(k, level, was)
    {
      hide Pred, Succ, Sorted, Cut, Linked;
      for i := 0 to level
        invariant AllCut(k, i, was)
      {
        CutLevel(target, prev[i], i, k, was);
      }
    }

    lemma CutReady(k: nat)
      requires Valid() && k < |nodes|
      ensures AllCut(k, 0, Links())
      ensures forall p :: -1 <= p < |nodes| ==> Linked(nodes, p, At(head, nodes, p).height, Links()[p + 1])
    {
      hide Succ, Sorted;
      forall p | -1 <= p < |nodes| ensures Linked(nodes, p, At(head, nodes, p).height, Links()[p + 1]) {
        assert Links()[p + 1] == At(head, nodes, p).next;
      }
    }

    // The links after a cut are those of the shorter list.
    lemma CutLinked(k: nat, was: seq<seq<Node?>>, i: int)
      requires Sized() && k < |nodes| && |was| == |nodes| + 1 && -1 <= i < |nodes| - 1 && AllCut(k, level, was)
      requires forall p :: -1 <= p < |nodes| ==> Linked(nodes, p, At(head, nodes, p).height, was[p + 1])
      ensures var y := At(head, Removed(nodes, k), i); Linked(Removed(nodes, k), i, y.height, y.next)
    {
      hide Succ, Sorted, Linked;
      var p := if i < k then i else i + 1;
      var y := At(head, nodes, p);
      assert At(head, Removed(nodes, k), i) == y;
      assert Cut(nodes, k, level, p, was[p + 1], y.next);
      LinkedLength(nodes, p, y.height, was[p + 1]);
      CutAll(nodes, k, level, p, was[p + 1], y.next);
      RemoveLinked(nodes, k, p, y.height, was[p + 1], y.next);
    }

    // Drops levels the removal has emptied.
    method Lower()
      requires Sized() && Linked(nodes, -1, MAX_LEVEL, head.next)
      modifies this`level
      ensures Shape()
    {
      hide Succ, Sorted;
      while level > 1 && head.next[level - 1] == null
        invariant Sized()
      {
        level := level - 1;
      }
    }

    method Remove(key: Bytes) returns (found: bool, ghost k: nat)
      requires Valid()
      modifies this, head, nodes
      ensures Valid() && IsRank(old(nodes), key, k)
      ensures found <==> k < |old(nodes)| && old(nodes)[k].key == key
      ensures nodes == if found then Removed(old(nodes), k) else old(nodes)
      ensures forall x :: x in old(nodes) ==> x.ent == old(x.ent)
    {
      hide Pred, Succ, Linked, Cut, Sorted, IsRank;
      var prev;
      prev, k := FindPrev(key);
      RankBelow(nodes, key, k);
      Base(k);
      var target := prev[0].next[0];
      if target == null || target.key != key {
        return false, k;
      }
      found := true;
      ghost var was := Links();
      CutReady(k);
      Unlink(target, prev, k, was);
      ghost var fewer := Removed(nodes, k);
      forall i | -1 <= i < |nodes| - 1 ensures Linked(fewer, i, At(head, fewer, i).height, At(head, fewer, i).next) {
        CutLinked(k, was, i);
      }
      RemoveSorted(nodes, k);
      nodes, n := fewer, n - 1;
      assert Linked(nodes, -1, MAX_LEVEL, At(head, nodes, -1).next);
      Lower();
      forall i | 0 <= i < |nodes| ensures Linked(nodes, i, nodes[i].height, nodes[i].next) {
        assert At(head, nodes, i) == nodes[i];
      }
    }

    // The first node whose key is not below the given one.
    method SeekNode(key: Bytes) returns (x: Node?, ghost k: nat)
      requires Valid()
      ensures IsRank(nodes, key, k) && x == NodeAt(nodes, k)
      ensures x == null <==> forall y :: y in nodes ==> Less(y.key, key)
      ensures x != null ==> x in nodes && !Less(x.key, key)
      ensures x != null ==> forall y :: y in nodes && !Less(y.key, key) ==> !Less(y.key, x.key)
    {
      hide Pred, Succ, Linked, Sorted, IsRank;
      var prev;
      prev, k := FindPrev(key);
      RankBelow(nodes, key, k);
      Base(k);
      Ordered();
      RankLeast(nodes, key, k);
      x := prev[0].next[0];
    }

    // Visits every node from position k on, along level 0.
    method WalkFrom(start: Node?, ghost k: nat) returns (items: seq<Item>)
      requires Valid() && k <= |nodes| && start == NodeAt(nodes, k)
      ensures items == Items()[k..]
    {
      hide Pred, Succ, Linked, Sorted;
      var x := start;
      items := [];
      ghost var p := k;
      while x != null
        invariant k <= p <= |nodes| && x == NodeAt(nodes, p) && items == Items()[k..p]
        decreases |nodes| - p
      {
        items := items + [Item(x.key, x.ent)];
        Base(p + 1);
        x, p := x.next[0], p + 1;
      }
    }

    // Visits every key from the given one on.
    method Walk(start: Bytes) returns (items: seq<Item>)
      requires Valid()
      ensures |items| <= |Items()| && items == Items()[|Items()| - |items|..]
      ensures forall i :: 0 <= i < |Items()| ==> (Less(Items()[i].key, start) <==> i < |Items()| - |items|)
    {
      hide Pred, Succ, Linked, Sorted, Less;
      var x, k := SeekNode(start);
      items := WalkFrom(x, k);
    }

    // Following the links of one level from the head visits exactly the nodes tall enough for
    // it, in key order; at or above the level in use there are none.
    method WalkLevel(l: nat) returns (xs: seq<Node>)
      requires Valid() && l < MAX_LEVEL
      ensures xs == OnLevel(nodes, l) && (level <= l ==> xs == [])
    {
      hide Pred, Succ, Sorted;
      var x := head;
      ghost var p := -1;
      xs := [];
      assert nodes[..0] == [];
      while x.next[l] != null
        invariant -1 <= p < |nodes| && x == At(head, nodes, p) && l < x.height && xs == OnLevel(nodes[..p + 1], l)
        decreases |nodes| - p
      {
        ghost var s := Succ(nodes, p, l);
        OnLevelTo(nodes, l, p + 1, s);
        x, p := x.next[l], s;
        xs := xs + [x];
      }
      OnLevelGap(nodes, l, p + 1, |nodes|);
      assert nodes[..|nodes|] == nodes;
      if level <= l {
        OnLevelNone(nodes, l);
      }
    }
  }

  function OnLevel(ns: seq<Node>, l: nat): seq<Node> {
    if ns == [] then []
    else OnLevel(ns[..|ns| - 1], l) + (if l < ns[|ns| - 1].height then [ns[|ns| - 1]] else [])
  }

  lemma {:induction false} OnLevelGap(ns: seq<Node>, l: nat, a: nat, b: nat)
    requires a <= b <= |ns| && Bare(ns, a - 1, b, l)
    ensures OnLevel(ns[..b], l) == OnLevel(ns[..a], l)
    decreases b
  {
    if a < b {
      assert ns[..b][..b - 1] == ns[..b - 1];
      OnLevelGap(ns, l, a, b - 1);
    }
  }

  lemma OnLevelTo(ns: seq<Node>, l: nat, a: nat, s: nat)
    requires a <= s < |ns| && Bare(ns, a - 1, s, l) && l < ns[s].height
    ensures OnLevel(ns[..s + 1], l) == OnLevel(ns[..a], l) + [ns[s]]
  {
    OnLevelGap(ns, l, a, s);
    assert ns[..s + 1][..s] == ns[..s];
  }

  lemma {:induction false} OnLevelNone(ns: seq<Node>, l: nat)
    requires forall i :: 0 <= i < |ns| ==> ns[i].height <= l
    ensures OnLevel(ns, l) == []
  {
    if ns != [] {
      OnLevelNone(ns[..|ns| - 1], l);
    }
  }

  lemma OnLevelSnoc(ns: seq<Node>, x: Node, l: nat)
    ensures OnLevel(ns + [x], l) == if l < x.height then OnLevel(ns, l) + [x] else OnLevel(ns, l)
  {
    assert (ns + [x])[..|ns|] == ns;
  }

  // Each level is a subsequence of every level below it ...
  lemma {:induction false} LevelsNest(ns: seq<Node>, l: nat, m: nat)
    requires l <= m
    ensures OnLevel(OnLevel(ns, l), m) == OnLevel(ns, m)
  {
    if ns != [] {
      var init, x := ns[..|ns| - 1], ns[|ns| - 1];
      LevelsNest(init, l, m);
      assert ns == init + [x];
      hide OnLevel;
      OnLevelSnoc(init, x, l);
      OnLevelSnoc(init, x, m);
      OnLevelSnoc(OnLevel(init, l), x, m);
    }
  }

  // ... and level 0 is the whole list.
  lemma {:induction false} LevelZero(ns: seq<Node>)
    requires forall i :: 0 <= i < |ns| ==> 1 <= ns[i].height
    ensures OnLevel(ns, 0) == ns
  {
    if ns != [] {
      LevelZero(ns[..|ns| - 1]);
    }
  }

  // The node at a key's rank is the least one not below it.
  lemma RankLeast(ns: seq<Node>, key: Bytes, k: nat)
    requires Sorted(ns) && IsRank(ns, key, k)
    ensures k == |ns| <==> forall y :: y in ns ==> Less(y.key, key)
    ensures k < |ns| ==> !Less(ns[k].key, key) && forall y :: y in ns && !Less(y.key, key) ==> !Less(y.key, ns[k].key)
  {
    hide Less;
    if k < |ns| {
      assert ns[k] in ns;
      forall y | y in ns && !Less(y.key, key) ensures !Less(y.key, ns[k].key) {
        var j :| 0 <= j < |ns| && ns[j] == y;
        LessTrichotomy(ns[k].key, y.key);
      }
    }
  }

  // Above the level in use no node links to k.
  lemma CutAll(ns: seq<Node>, k: nat, level: nat, p: int, before: seq<Node?>, after: seq<Node?>)
    requires k < |ns| && -1 <= p < |ns| && ns[k].height <= level && Cut(ns, k, level, p, before, after)
    ensures Cut(ns, k, |before|, p, before, after)
  {
    hide Succ;
  }

  lemma LinkedLength(ns: seq<Node>, p: int, height: nat, next: seq<Node?>)
    requires -1 <= p < |ns| && Linked(ns, p, height, next)
    ensures |next| == height
  {
  }

  lemma RemoveSorted(ns: seq<Node>, k: nat)
    requires Sorted(ns) && k < |ns|
    ensures Sorted(Removed(ns, k))
  {
    hide Less;
  }

  // Levels not reached yet still hold the old links.
  lemma CutLink(ns: seq<Node>, k: nat, i: nat, p: int, height: nat, before: seq<Node?>, after: seq<Node?>)
    requires k < |ns| && -1 <= p < |ns| && Cut(ns, k, i, p, before, after) && Linked(ns, p, height, before)
    ensures |after| == height && (i < height ==> after[i] == NodeAt(ns, Succ(ns, p, i)))
  {
    hide Succ;
  }

  lemma CutStep(ns: seq<Node>, k: nat, i: nat, p: int, height: nat, before: seq<Node?>, after: seq<Node?>,
                next: seq<Node?>)
    requires k < |ns| && -1 <= p < |ns| && Cut(ns, k, i, p, before, after) && Linked(ns, p, height, before)
    requires if i < height && Succ(ns, p, i) == k then i < |after| && next == after[i := NodeAt(ns, Succ(ns, k, i))]
             else next == after
    ensures Cut(ns, k, i + 1, p, before, next)
  {
    hide Succ;
  }

  // A node on level l whose successor is k is the last one before k.
  lemma OnlyPred(ns: seq<Node>, k: nat, l: nat, p: int)
    requires k < |ns| && -1 <= p < |ns| && (0 <= p ==> l < ns[p].height)
    ensures Succ(ns, p, l) == k ==> p == Pred(ns, k, l)
  {
    hide Succ, Pred;
    if Succ(ns, p, l) == k {
      PredIs(ns, k, l, p);
    }
  }

  lemma RankBelow(ns: seq<Node>, key: Bytes, k: nat)
    requires IsRank(ns, key, k)
    ensures k <= |ns|
  {
  }

  lemma OwnLinked(ns: seq<Node>, k: nat, x: Node, next: seq<Node?>)
    requires k <= |ns| && |next| == x.height
    requires forall l :: 0 <= l < x.height ==> next[l] == NodeAt(ns, Succ(ns, Pred(ns, k, l), l))
    ensures Linked(Inserted(ns, k, x), k, x.height, next)
  {
    hide Succ, Pred;
    forall l | 0 <= l < x.height ensures next[l] == NodeAt(Inserted(ns, k, x), Succ(Inserted(ns, k, x), k, l)) {
      InsertOwn(ns, k, x, l);
    }
  }

  // Heights and order of the longer list.
  lemma InsertShape(ns: seq<Node>, k: nat, x: Node, level: nat)
    requires Sorted(ns) && IsRank(ns, x.key, k) && (k < |ns| ==> ns[k].key != x.key)
    requires 1 <= x.height && forall i :: 0 <= i < |ns| ==> 1 <= ns[i].height <= level
    requires level > 1 ==> exists i :: 0 <= i < |ns| && ns[i].height == level
    ensures var ms, h := Inserted(ns, k, x), if x.height > level then x.height else level;
            && Sorted(ms) && (forall i :: 0 <= i < |ms| ==> 1 <= ms[i].height <= h)
            && (h > 1 ==> exists i :: 0 <= i < |ms| && ms[i].height == h)
  {
    hide Sorted, Less;
    InsertSorted(ns, k, x);
    var ms := Inserted(ns, k, x);
    if x.height > level {
      assert ms[k] == x;
    } else if level > 1 {
      var i :| 0 <= i < |ns| && ns[i].height == level;
      assert ms[if i < k then i else i + 1] == ns[i];
    }
  }

  // The link a new node takes over on level l.
  ghost predicate Own(ns: seq<Node>, k: nat, was: seq<seq<Node?>>, l: nat)
    requires k <= |ns| < |was|
  {
    var p := Pred(ns, k, l);
    l < |was[p + 1]| && was[p + 1][l] == NodeAt(ns, Succ(ns, p, l))
  }

  lemma SplicedLength(ns: seq<Node>, k: nat, i: nat, x: Node, p: int, before: seq<Node?>, after: seq<Node?>)
    requires k <= |ns| && Spliced(ns, k, i, x, p, before, after)
    ensures |after| == |before|
  {
  }
}
