/** The in-memory index: a hash map for point lookups and a skip list for order, sharing
    their nodes, with the live counters beside them. */
module SharedIndex {
  import opened Bytes
  import opened Engine
  import opened SkipList
  import opened Usage
  import Scanning

  // The two halves hold the same nodes.
  ghost predicate Shared(ks: map<Bytes, Node>, ns: seq<Node>) {
    && (forall k :: k in ks ==> ks[k].key == k && ks[k] in ns)
    && (forall x :: x in ns ==> x.key in ks && ks[x.key] == x)
  }

  lemma SharedInsert(ks: map<Bytes, Node>, ns: seq<Node>, k: nat, x: Node)
    requires Shared(ks, ns) && k <= |ns| && x.key !in ks
    ensures Shared(ks[x.key := x], Inserted(ns, k, x))
  {
    var ms := Inserted(ns, k, x);
    forall y ensures y in ms <==> y in ns || y == x {
      if y in ns {
        var i :| 0 <= i < |ns| && ns[i] == y;
        assert ms[if i < k then i else i + 1] == y;
      }
      assert ms[k] == x;
    }
  }

  lemma SharedRemove(ks: map<Bytes, Node>, ns: seq<Node>, k: nat)
    requires Shared(ks, ns) && Sorted(ns) && k < |ns|
    ensures Shared(ks - {ns[k].key}, Removed(ns, k))
  {
    hide Less;
    var ms := Removed(ns, k);
    forall y ensures y in ms <==> y in ns && y != ns[k] {
      if y in ns && y != ns[k] {
        var i :| 0 <= i < |ns| && ns[i] == y;
        assert ms[if i < k then i else i - 1] == y;
      }
      if y in ms {
        var i :| 0 <= i < |ms| && ms[i] == y;
        LessTrichotomy(ns[if i < k then i else i + 1].key, ns[k].key);
      }
    }
  }

  class KeyDir {
    var keys: map<Bytes, Node>
    var order: List
    var live: int
    var nLive: int

    ghost predicate Valid()
      reads this`keys, this`order, order, order.head, order.nodes
    {
      order.Valid() && Shared(keys, order.nodes)
    }

    // The index it stands for.
    ghost function Model(): Index
      reads this`keys, keys.Values
    {
      map k | k in keys :: keys[k].ent
    }

    ghost function Nodes(): set<Node>
      reads this, order
    {
      set x | x in order.nodes
    }

    // The counters are the bytes and the number of live entries.
    ghost predicate Accounted()
      reads this, keys.Values
    {
      live == Sum(Model(), Bytes1) && nLive == Sum(Model(), Count1)
    }

    constructor ()
      ensures Valid() && Accounted() && Model() == map[] && fresh(order) && fresh(order.head) && order.nodes == []
    {
      order := new List();
      keys, live, nLive := map[], 0, 0;
      new;
      NothingSums(Bytes1);
      NothingSums(Count1);
    }

    // A new node, in both halves. Its height is drawn at random; nothing depends on the draw.
    method Add(key: Bytes, e: Entry)
      requires Valid() && key !in keys
      modifies this`keys, order, order.head, order.nodes
      ensures Valid() && order == old(order) && Model() == old(Model())[key := e]
      ensures fresh(Nodes() - old(Nodes()))
    {
      hide List.Valid, IsRank, Shared, Inserted, Sum;
      ghost var ns := order.nodes;
      Members(keys, ns);
      var lvl: nat :| 1 <= lvl <= MAX_LEVEL;
      var node, k := order.Insert(key, e, lvl);
      RankBelow(ns, key, k);
      NotThere(keys, ns, key, k);
      SharedInsert(keys, ns, k, node);
      InsertedIn(ns, k, node);
      keys := keys[key := node];
    }

    // Overwrites the entry of a node; both halves see it.
    method Replace(node: Node, e: Entry)
      requires Valid() && node.key in keys && keys[node.key] == node
      modifies node`ent
      ensures Valid() && Model() == old(Model())[node.key := e]
    {
      hide Sum;
      node.ent := e;
    }

    // The single place where the index changes: newest sequence wins.
    method Apply(key: Bytes, e: Entry)
      requires Valid() && Accounted()
      modifies this, order, order.head, order.nodes
      ensures Valid() && Accounted() && order == old(order) && Model() == Engine.Apply(old(Model()), key, e)
      ensures fresh(Nodes() - old(Nodes()))
    {
      hide Sum, Shared, List.Valid;
      Members(keys, order.nodes);
      ghost var ix := Model();
      Reweigh(ix, key, e);
      if key in keys {
        var node := keys[key];
        assert ix[key] == node.ent;
        if node.ent.sn >= e.sn {
          return;
        }
        if !node.ent.tomb {
          live, nLive := live - node.ent.size, nLive - 1;
        }
        Replace(node, e);
      } else {
        Add(key, e);
      }
      if !e.tomb {
        live, nLive := live + e.size, nLive + 1;
      }
    }

    // Recovery installs entries without touching the counters.
    method ApplyRecovered(key: Bytes, e: Entry)
      requires Valid()
      modifies this`keys, order, order.head, order.nodes
      ensures Valid() && order == old(order) && Model() == Engine.Apply(old(Model()), key, e)
      ensures fresh(Nodes() - old(Nodes()))
    {
      hide Shared, List.Valid;
      Members(keys, order.nodes);
      if key in keys {
        var node := keys[key];
        if node.ent.sn >= e.sn {
          return;
        }
        Replace(node, e);
      } else {
        Add(key, e);
      }
    }

    // Rebuilds the counters from the index.
    method Recount()
      requires Valid()
      modifies this`live, this`nLive
      ensures Accounted() && Model() == old(Model())
    {
      hide Sum, Shared, List.Valid;
      var l, c, rest := 0, 0, keys.Keys;
      ghost var ix := Model();
      assert Only(ix, rest) == ix;
      while rest != {}
        invariant rest <= keys.Keys && Model() == ix
        invariant l + Sum(Only(ix, rest), Bytes1) == Sum(ix, Bytes1)
        invariant c + Sum(Only(ix, rest), Count1) == Sum(ix, Count1)
        decreases |rest|
      {
        var k :| k in rest;
        OnlyRemove(ix, rest, k);
        if !keys[k].ent.tomb {
          l, c := l + keys[k].ent.size, c + 1;
        }
        rest := rest - {k};
      }
      assert Only(ix, rest) == map[];
      NothingSums(Bytes1);
      NothingSums(Count1);
      live, nLive := l, c;
    }

    // Moves a key onto its merged copy, unless it has been rewritten in the meantime. A copy
    // is as long as its original, so the counters stay right.
    method Repoint(it: Item, e: Entry)
      requires Valid()
      modifies order.nodes
      ensures Valid() && Model() == RepointOne(old(Model()), it, e)
      ensures old(Accounted()) && (Matches(old(Model()), it) ==> SameWeight(old(Model())[it.key], e)) ==> Accounted()
    {
      hide Sum, Shared, List.Valid;
      Members(keys, order.nodes);
      ghost var ix := Model();
      Reweigh(ix, it.key, e);
      if it.key in keys {
        var node := keys[it.key];
        assert ix[it.key] == node.ent;
        if node.ent.sn == it.e.sn && node.ent.file == it.e.file {
          Replace(node, e);
        }
      }
    }

    // Takes a key out of both halves.
    method Forget(key: Bytes)
      requires Valid() && key in keys
      modifies this`keys, order, order.head, order.nodes
      ensures Valid() && order == old(order) && Model() == old(Model()) - {key}
      ensures forall i :: 0 <= i < |order.nodes| ==> order.nodes[i] in old(order.nodes)
    {
      hide Shared, List.Valid, IsRank, Removed;
      ghost var ns := order.nodes;
      Members(keys, ns);
      order.Ordered();
      var found, k := order.Remove(key);
      RankFinds(ns, keys[key], k);
      SharedRemove(keys, ns, k);
      RemovedIn(ns, k);
      keys := keys - {key};
    }

    // Forgets a tombstone, in both halves, unless the key has been rewritten in the meantime.
    method Retire(it: Item)
      requires Valid()
      modifies this`keys, order, order.head, order.nodes
      ensures Valid() && order == old(order) && Model() == RetireOne(old(Model()), it)
      ensures forall i :: 0 <= i < |order.nodes| ==> order.nodes[i] in old(order.nodes)
      ensures old(Accounted()) && (Matches(old(Model()), it) ==> old(Model())[it.key].tomb) ==> Accounted()
    {
      hide Sum, Shared, List.Valid;
      Members(keys, order.nodes);
      ghost var ix := Model();
      if it.key in keys {
        var node := keys[it.key];
        assert ix[it.key] == node.ent;
        if node.ent.sn == it.e.sn && node.ent.file == it.e.file {
          SumRemove(ix, it.key, Bytes1);
          SumRemove(ix, it.key, Count1);
          Forget(it.key);
        }
      }
    }

    // The skip list lists exactly the index, in key order.
    lemma ItemsList()
      requires Valid()
      ensures Scanning.Lists(order.Items(), Model())
    {
      hide Linked, Less;
      var items := order.Items();
      forall k | k in keys ensures Item(k, keys[k].ent) in items {
        var i :| 0 <= i < |order.nodes| && order.nodes[i] == keys[k];
        assert items[i] == Item(k, keys[k].ent);
      }
    }

    // Walks the whole index in order.
    method ListAll() returns (all: seq<Item>)
      requires Valid()
      ensures Scanning.Lists(all, Model())
    {
      hide List.Valid, Shared, Less, KeyOrdered;
      all := order.Walk([]);
      NothingBelow(order.Items(), |all|);
      ItemsList();
    }

    // The live and the deleted keys whose newest record lies in the given files, in key order.
    method CollectMerge(ids: set<nat>) returns (items: seq<Item>, retired: seq<Item>)
      requires Valid()
      ensures Collects(Model(), ids, items, retired)
    {
      hide List.Valid, Shared, Less, Those, KeyOrdered;
      var all := ListAll();
      items, retired := [], [];
      NoneOfThose(all, ids);
      for i := 0 to |all|
        invariant items == Those(all[..i], ids, false) && retired == Those(all[..i], ids, true)
      {
        OneOfThose(all, ids, i);
        if all[i].e.file in ids {
          if all[i].e.tomb {
            retired := retired + [all[i]];
          } else {
            items := items + [all[i]];
          }
        }
      }
      assert all[..|all|] == all;
      ThoseIn(all, ids, false);
      ThoseIn(all, ids, true);
      Listed(all, Model());
    }
  }

  function Those(all: seq<Item>, ids: set<nat>, tomb: bool): seq<Item> {
    if all == [] then []
    else
      var last := all[|all| - 1];
      Those(all[..|all| - 1], ids, tomb) + (if last.e.file in ids && last.e.tomb == tomb then [last] else [])
  }

  lemma NoneOfThose(all: seq<Item>, ids: set<nat>)
    ensures Those(all[..0], ids, false) == [] && Those(all[..0], ids, true) == []
  {
  }

  lemma OneOfThose(all: seq<Item>, ids: set<nat>, i: nat)
    requires i < |all|
    ensures forall tomb :: Those(all[..i + 1], ids, tomb)
                           == if all[i].e.file in ids && all[i].e.tomb == tomb
                              then Those(all[..i], ids, tomb) + [all[i]]
                              else Those(all[..i], ids, tomb)
  {
    assert all[..i + 1][..i] == all[..i];
  }

  lemma {:induction false} ThoseIn(all: seq<Item>, ids: set<nat>, tomb: bool)
    requires KeyOrdered(all)
    ensures forall it :: it in Those(all, ids, tomb) <==> it in all && it.e.file in ids && it.e.tomb == tomb
    ensures KeyOrdered(Those(all, ids, tomb))
  {
    if all != [] {
      ThoseIn(all[..|all| - 1], ids, tomb);
    }
  }

  lemma Listed(all: seq<Item>, ix: Index)
    requires Scanning.Lists(all, ix)
    ensures KeyOrdered(all) && forall it :: it in all <==> it.key in ix && it.e == ix[it.key]
  {
    hide KeyOrdered;
  }

  // No key lies below the empty one.
  lemma NothingBelow(items: seq<Item>, n: nat)
    requires n <= |items| && forall i :: 0 <= i < |items| ==> (Less(items[i].key, []) <==> i < |items| - n)
    ensures items[|items| - n..] == items
  {
    if items != [] {
      assert !Less(items[0].key, []);
    }
  }

  predicate Matches(ix: Index, it: Item) { it.key in ix && ix[it.key].sn == it.e.sn && ix[it.key].file == it.e.file }

  predicate SameWeight(a: Entry, b: Entry) { a.size == b.size && a.tomb == b.tomb }

  lemma RankFinds(ns: seq<Node>, x: Node, k: nat)
    requires Sorted(ns) && IsRank(ns, x.key, k) && x in ns
    ensures k < |ns| && ns[k] == x
  {
    var j :| 0 <= j < |ns| && ns[j] == x;
    LessTrichotomy(x.key, x.key);
    assert k <= j;
  }

  lemma RemovedIn(ns: seq<Node>, k: nat)
    requires k < |ns|
    ensures forall y :: y in Removed(ns, k) ==> y in ns
  {
  }

  function Only(ix: Index, ks: set<Bytes>): Index { map k | k in ix && k in ks :: ix[k] }

  lemma OnlyRemove(ix: Index, ks: set<Bytes>, k: Bytes)
    requires k in ks && k in ix
    ensures Sum(Only(ix, ks), Bytes1) == (if ix[k].tomb then 0 else ix[k].size) + Sum(Only(ix, ks - {k}), Bytes1)
    ensures Sum(Only(ix, ks), Count1) == (if ix[k].tomb then 0 else 1) + Sum(Only(ix, ks - {k}), Count1)
  {
    hide Sum;
    SumRemove(Only(ix, ks), k, Bytes1);
    SumRemove(Only(ix, ks), k, Count1);
    assert Only(ix, ks) - {k} == Only(ix, ks - {k});
  }

  // How the counters move when an entry is put.
  lemma Reweigh(ix: Index, k: Bytes, e: Entry)
    ensures Sum(ix[k := e], Bytes1)
            == Sum(ix, Bytes1) + (if e.tomb then 0 else e.size) - (if k in ix && !ix[k].tomb then ix[k].size else 0)
    ensures Sum(ix[k := e], Count1)
            == Sum(ix, Count1) + (if e.tomb then 0 else 1) - (if k in ix && !ix[k].tomb then 1 else 0)
  {
    SumPut(ix, k, e, Bytes1);
    SumPut(ix, k, e, Count1);
  }

  lemma NotThere(ks: map<Bytes, Node>, ns: seq<Node>, key: Bytes, k: nat)
    requires Shared(ks, ns) && key !in ks
    ensures k < |ns| ==> ns[k].key != key
  {
  }

  lemma Members(ks: map<Bytes, Node>, ns: seq<Node>)
    requires Shared(ks, ns)
    ensures forall k :: k in ks ==> ks[k].key == k && ks[k] in ns
  {
  }

  lemma InsertedIn(ns: seq<Node>, k: nat, x: Node)
    requires k <= |ns|
    ensures forall y :: y in Inserted(ns, k, x) ==> y in ns || y == x
  {
  }
}
