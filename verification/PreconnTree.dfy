/**
 Lookup or creation of the record of a next hop (tcpsplit/preconn_rb_tree.h, search_rb_preconn and
 get_rb_preconn).  Search and insertion lock the tree one after the other, so other callers may act in
 between.  And the search reads the root pointer before it takes the lock (line 42), so by the time it
 descends the root may be another node.
 */
module PreconnTree {
  import opened KeyOrder
  import opened SearchTree

  ghost predicate OneEach(ns: seq<Node<Int32>>) {
    forall m, n :: m in ns && n in ns && m.key == n.key ==> m == n
  }

  /** In a sorted tree over a half circle there is one node for a key. */
  lemma KeysOnce(s: set<Int32>, ns: seq<Node<Int32>>)
    requires HalfCircle(s) && Ordered(WrapDiff, All(s), ns)
    ensures OneEach(ns)
  {
    WrapOrders(s);
    forall m, n | m in ns && n in ns && m.key == n.key ensures m == n {
      OnlyOne(WrapDiff, All(s), m.key, ns, n);
    }
  }

  lemma SameKey(cmp: (Int32, Int32) -> int, s: set<Int32>, a: Int32, b: Int32)
    requires HalfCircle(s) && a in s && b in s && cmp == WrapDiff
    ensures cmp(a, b) == 0 <==> a == b
  {
    WrapOrders(s);
    assert cmp(a, b) == WrapDiff(a, b);
  }

  /** What other callers do to the tree while this one does not hold the lock: they link a node, or turn
      the tree somewhere to balance it. */
  datatype Act = Link(n: Node<Int32>) | Turn(path: seq<bool>, left: bool)

  ghost function Linked(acts: seq<Act>): set<Node<Int32>> {
    set i | 0 <= i < |acts| && acts[i].Link? :: acts[i].n
  }

  ghost function Keys(nodes: set<Node<Int32>>): set<Int32> { set n | n in nodes :: n.key }

  ghost predicate IsKeyTree(root: Root<Int32>, s: set<Int32>)
    reads root, root.Nodes()
  {
    HalfCircle(s) && root.Valid() && root.cmp == WrapDiff && root.dom == All(s)
  }

  /** The nodes they link are not in the tree, and each is linked once. */
  ghost predicate AllNew(nodes: set<Node<Int32>>, s: set<Int32>, acts: seq<Act>) {
    && (forall i :: 0 <= i < |acts| && acts[i].Link? ==> acts[i].n.key in s && acts[i].n !in nodes)
    && (forall i, j :: 0 <= i < j < |acts| && acts[i].Link? && acts[j].Link? ==> acts[i].n != acts[j].n)
  }

  /** add_rb_preconn, in terms of keys */
  method AddRbPreconn(root: Root<Int32>, data: Node<Int32>, ghost s: set<Int32>) returns (r: Node?<Int32>)
    requires IsKeyTree(root, s) && data.key in s && data !in root.Nodes()
    modifies root, data, root.Nodes()
    ensures IsKeyTree(root, s)
    ensures root.Nodes() == (if r == null then old(root.Nodes()) + {data} else old(root.Nodes()))
    ensures r == null <==> data.key !in Keys(old(root.Nodes()))
    ensures r != null ==> r in root.Nodes() && r.key == data.key
  {
    ghost var before := root.shape;
    r := root.Add(data);
    if r == null {
      forall n: Node<Int32> | n in NodesOf(before) ensures n.key != data.key {
        NodeInOrder(before, n);
        SameKey(root.cmp, s, data.key, n.key);
      }
    } else {
      NodeInOrder(before, r);
      SameKey(root.cmp, s, data.key, r.key);
    }
  }

  method OneAct(root: Root<Int32>, act: Act, ghost s: set<Int32>)
    requires IsKeyTree(root, s) && (act.Link? ==> act.n.key in s && act.n !in root.Nodes())
    modifies root, root.Nodes(), Linked([act])
    ensures IsKeyTree(root, s)
    ensures old(root.Nodes()) <= root.Nodes() <= old(root.Nodes()) + Linked([act])
    ensures Keys(root.Nodes()) == Keys(old(root.Nodes())) + Keys(Linked([act]))
  {
    match act
    case Link(n) =>
      assert [act][0] == act;
      var duplicate := AddRbPreconn(root, n, s);
    case Turn(path, left) =>
      root.Rotate(path, left);
  }

  /** After others have acted no node has gone, and a key is in the tree exactly if it was there or one
      of them linked it. */
  method OthersAct(root: Root<Int32>, acts: seq<Act>, ghost s: set<Int32>)
    requires IsKeyTree(root, s) && AllNew(root.Nodes(), s, acts)
    modifies root, root.Nodes(), Linked(acts)
    ensures IsKeyTree(root, s)
    ensures old(root.Nodes()) <= root.Nodes() <= old(root.Nodes()) + Linked(acts)
    ensures Keys(root.Nodes()) == Keys(old(root.Nodes())) + Keys(Linked(acts))
  {
    var i := 0;
    assert acts[..0] == [] && Linked([]) == {} && Keys({}) == {};
    while i < |acts|
      invariant 0 <= i <= |acts| && IsKeyTree(root, s)
      invariant old(root.Nodes()) <= root.Nodes() <= old(root.Nodes()) + Linked(acts[..i])
      invariant Keys(root.Nodes()) == Keys(old(root.Nodes())) + Keys(Linked(acts[..i]))
    {
      OneMore(acts, i);
      StillNew(old(root.Nodes()), root.Nodes(), s, acts, i);
      OneAct(root, acts[i], s);
      i := i + 1;
    }
    assert acts[..i] == acts;
  }

  lemma StillNew(before: set<Node<Int32>>, nodes: set<Node<Int32>>, s: set<Int32>, acts: seq<Act>, i: nat)
    requires AllNew(before, s, acts) && i < |acts| && nodes <= before + Linked(acts[..i])
    ensures acts[i].Link? ==> acts[i].n.key in s && acts[i].n !in nodes
  {
    assert forall k :: 0 <= k < i ==> acts[..i][k] == acts[k];
  }

  lemma OneMore(acts: seq<Act>, i: nat)
    requires i < |acts|
    ensures Linked(acts[..i + 1]) == Linked(acts[..i]) + Linked([acts[i]])
    ensures Keys(Linked(acts[..i + 1])) == Keys(Linked(acts[..i])) + Keys(Linked([acts[i]]))
    ensures Linked([acts[i]]) <= Linked(acts)
  {
    var init, last := acts[..i], [acts[i]];
    assert acts[..i + 1] == init + last;
    assert last[0] == acts[i];
    forall n | n in Linked(acts[..i + 1]) ensures n in Linked(init) + Linked(last) {
      var k :| 0 <= k < i + 1 && acts[..i + 1][k].Link? && acts[..i + 1][k].n == n;
      if k < i {
        assert init[k].n == n;
      } else {
        assert last[0].n == n;
      }
    }
    forall n | n in Linked(init) ensures n in Linked(acts[..i + 1]) {
      var k :| 0 <= k < i && init[k].Link? && init[k].n == n;
      assert acts[..i + 1][k].n == n;
    }
    forall n | n in Linked(last) ensures n in Linked(acts[..i + 1]) && n in Linked(acts) {
      assert acts[..i + 1][i].n == n;
      assert acts[i].n == n;
    }
  }

  /** The keys that a search sees which starts at start. */
  ghost function KeysSeen(shape: Shape<Int32>, start: Node?<Int32>): set<Int32> { Keys(NodesOf(Below(shape, start))) }

  /** search_rb_preconn from the root pointer start read before the lock was taken: it finds the key
      exactly if that is below start now. */
  method SearchRbPreconn(root: Root<Int32>, start: Node?<Int32>, key: Int32, ghost s: set<Int32>) returns (r: Node?<Int32>)
    requires IsKeyTree(root, s) && key in s && (start == null || start in root.Nodes())
    ensures IsKeyTree(root, s)
    ensures r == null <==> key !in KeysSeen(root.shape, start)
    ensures r != null ==> r in root.Nodes() && r.key == key
  {
    r := root.SearchFrom(start, key);
    ghost var below := Below(root.shape, start);
    BelowIsPart(root.cmp, root.dom, root.shape, start);
    if r == null {
      forall n: Node<Int32> | n in NodesOf(below) ensures n.key != key {
        NodeInOrder(below, n);
        SameKey(root.cmp, s, key, n.key);
      }
    } else {
      NodeInOrder(below, r);
      NodeInOrder(root.shape, r);
      SameKey(root.cmp, s, key, r.key);
    }
  }

  /** Whoever starts at the root sees all keys, and whoever does not misses that of the root. */
  lemma SeenFrom(s: set<Int32>, shape: Shape<Int32>, start: Node?<Int32>)
    requires HalfCircle(s) && Ordered(WrapDiff, All(s), InOrder(shape)) && (start == null || start in NodesOf(shape))
    ensures KeysSeen(shape, start) <= Keys(NodesOf(shape))
    ensures shape.Branch? ==> (shape.n.key in KeysSeen(shape, start) <==> start == shape.n)
    ensures KeysSeen(shape, start) == Keys(NodesOf(shape)) <==> start == Ptr(shape)
  {
    WrapOrders(s);
    var below := Below(shape, start);
    BelowIsPart(WrapDiff, All(s), shape, start);
    forall n: Node<Int32> | n in NodesOf(below) ensures n in NodesOf(shape) {
      NodeInOrder(below, n);
      NodeInOrder(shape, n);
    }
    if shape.Branch? {
      StartMatters(WrapDiff, All(s), shape, start);
      KeysOnce(s, InOrder(shape));
      forall n: Node<Int32> | n in NodesOf(below) && n.key == shape.n.key ensures n == shape.n {
        NodeInOrder(below, n);
      }
      NodeInOrder(below, shape.n);
      assert shape.n in NodesOf(shape) && shape.n.key in Keys(NodesOf(shape));
    }
  }

  /** get_rb_preconn.  preconn is the node kmem_cache_alloc returns, with the key set by init_preconn;
      `before` is what others do between the reading of the root and the search, `between` what they do
      between search and insertion.  It returns NULL exactly if the search did not see the key and the
      key is in the tree nevertheless, or another caller links it meanwhile.  A key that is there is
      missed only if another node has become the root. */
  method GetRbPreconn(root: Root<Int32>, key: Int32, preconn: Node<Int32>, before: seq<Act>, between: seq<Act>, ghost s: set<Int32>)
    returns (r: Node?<Int32>, replaced: bool, ghost there: set<Int32>, ghost seen: set<Int32>)
    requires IsKeyTree(root, s) && preconn.key == key && key in s
    requires AllNew(root.Nodes(), s, before + between) && preconn !in root.Nodes() + Linked(before + between)
    modifies root, root.Nodes(), preconn, Linked(before), Linked(between)
    ensures IsKeyTree(root, s) && OneEach(InOrder(root.shape)) && old(root.Nodes()) <= root.Nodes()
    ensures r != null ==> r in root.Nodes() && r.key == key
    ensures root.Nodes() <= old(root.Nodes()) + Linked(before) + Linked(between) + {preconn}
    ensures r == preconn <==> preconn in root.Nodes()
    ensures there == Keys(old(root.Nodes())) + Keys(Linked(before))
    ensures r == null <==> key !in seen && key in there + Keys(Linked(between))
    ensures seen <= there && (seen == there <==> !replaced)
  {
    Halves(root.Nodes(), s, before, between);
    var start := root.node;
    NodesOfRoot(root.shape);
    OthersAct(root, before, s);
    replaced := root.node != start;
    there, seen := Keys(root.Nodes()), KeysSeen(root.shape, start);
    SeenFrom(s, root.shape, start);
    r := SearchRbPreconn(root, start, key, s);
    if r == null {
      OthersAct(root, between, s);
      r := AddRbPreconn(root, preconn, s);
      r := if r == null then preconn else null;
    }
    KeysOnce(s, InOrder(root.shape));
  }

  lemma NodesOfRoot(shape: Shape<Int32>)
    ensures Ptr(shape) == null || Ptr(shape) in NodesOf(shape)
  {
  }

  lemma Halves(nodes: set<Node<Int32>>, s: set<Int32>, before: seq<Act>, between: seq<Act>)
    requires AllNew(nodes, s, before + between)
    ensures AllNew(nodes, s, before) && AllNew(nodes + Linked(before), s, between)
    ensures Linked(before) <= Linked(before + between) && Linked(between) <= Linked(before + between)
  {
    var acts, n := before + between, |before|;
    assert forall i :: 0 <= i < n ==> acts[i] == before[i];
    assert forall i :: 0 <= i < |between| ==> acts[n + i] == between[i];
    forall x | x in Linked(before) ensures x in Linked(acts) {
      var i :| 0 <= i < n && before[i].Link? && before[i].n == x;
      assert acts[i].n == x;
    }
    forall x | x in Linked(between) ensures x in Linked(acts) {
      var i :| 0 <= i < |between| && between[i].Link? && between[i].n == x;
      assert acts[n + i].n == x;
    }
  }

  /** The case that happens: keys 10 and 20 in the tree with 10 at the root, and a search for 20 that has
      read that root.  Another caller links 30, and the tree is turned to the left.  20 is at the root
      now, and the search, which starts at 10, does not see it. */
  lemma StaleRootMisses(n10: Node<Int32>, n20: Node<Int32>, n30: Node<Int32>)
    requires n10.key == 10 && n20.key == 20 && n30.key == 30
    ensures var t := Branch(Leaf, n10, Branch(Leaf, n20, Branch(Leaf, n30, Leaf)));
            var t' := TurnedAt(t, [], true);
            && HalfCircle({10, 20, 30}) && Ordered(WrapDiff, All({10, 20, 30}), InOrder(t))
            && InOrder(t') == InOrder(t) == [n10, n20, n30]
            && Ptr(t) == n10 && 20 in KeysSeen(t, n10)
            && Ptr(t') == n20 && KeysSeen(t', n10) == {10} && Keys(NodesOf(t')) == {10, 20, 30}
  {
    var s: set<Int32> := {10, 20, 30};
    var l3 := Branch(Leaf, n30, Leaf);
    var l2 := Branch(Leaf, n20, l3);
    var l1 := Branch(Leaf, n10, Leaf);
    var t, t' := Branch(Leaf, n10, l2), Branch(l1, n20, l3);
    Singles(n10, n30);
    assert InOrder(l2) == [n20, n30] && NodesOf(l2) == {n20, n30};
    assert InOrder(t) == [n10, n20, n30] && NodesOf(t) == {n10, n20, n30};
    assert InOrder(t') == [n10, n20, n30] && NodesOf(t') == {n10, n20, n30};
    assert TurnedAt(t, [], true) == t';
    SmallSpan(s);
    WrapOrders(s);
    ThreeSorted(n10, n20, n30);
    assert Below(t, n10) == t && Below(t', n10) == l1;
    KeysOfThree(n10, n20, n30);
  }

  lemma Singles(n10: Node<Int32>, n30: Node<Int32>)
    ensures InOrder(Branch(Leaf, n10, Leaf)) == [n10] && NodesOf(Branch(Leaf, n10, Leaf)) == {n10}
    ensures InOrder(Branch(Leaf, n30, Leaf)) == [n30] && NodesOf(Branch(Leaf, n30, Leaf)) == {n30}
  {
  }

  lemma ThreeSorted(n10: Node<Int32>, n20: Node<Int32>, n30: Node<Int32>)
    requires n10.key == 10 && n20.key == 20 && n30.key == 30
    ensures Sorted(WrapDiff, [n10, n20, n30])
  {
    var cmp, ns := WrapDiff, [n10, n20, n30];
    forall i, j | 0 <= i < j < 3 ensures Precedes(cmp, ns, i, j) {
      assert cmp(ns[i].key, ns[j].key) == WrapDiff(ns[i].key, ns[j].key) == ns[i].key - ns[j].key;
    }
  }

  lemma KeysOfThree(n10: Node<Int32>, n20: Node<Int32>, n30: Node<Int32>)
    requires n10.key == 10 && n20.key == 20 && n30.key == 30
    ensures Keys({n10}) == {10} && Keys({n10, n20, n30}) == {10, 20, 30}
  {
    assert n10 in {n10, n20, n30} && n20 in {n10, n20, n30} && n30 in {n10, n20, n30};
    assert n10 in {n10};
  }
}
