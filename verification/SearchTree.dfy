/**
 The search trees of the proxy (tcpsplit/rb_data_tree.h and tcpsplit/preconn_rb_tree.h): pointer
 descent under the tree's lock, lookup, lookup-or-insert, and erasing.  The three trees of the source
 differ in their comparator only, which is a parameter here.  Colours are not part of this model; a
 rotation may come anywhere (Root.Rotate) and keeps the in-order sequence.  Which nodes a search finds
 depends on the shape of the tree only if it starts from a root that has been replaced (StartMatters).
 */
module SearchTree {
  import opened KeyOrder

  class Node<K> {
    const key: K
    var left: Node?<K>
    var right: Node?<K>

    constructor (k: K)
      ensures key == k && left == null && right == null
    {
      key := k;
      left, right := null, null;
    }
  }

  datatype Shape<K> = Leaf | Branch(l: Shape<K>, n: Node<K>, r: Shape<K>)

  /** A tree with a hole: the way down to the position that *new points to. */
  datatype Context<K> = Top | LeftOf(up: Context<K>, n: Node<K>, r: Shape<K>) | RightOf(up: Context<K>, l: Shape<K>, n: Node<K>)

  ghost function InOrder<K>(t: Shape<K>): seq<Node<K>> {
    match t
    case Leaf => []
    case Branch(l, n, r) => InOrder(l) + [n] + InOrder(r)
  }

  ghost function Before<K>(c: Context<K>): seq<Node<K>> {
    match c
    case Top => []
    case LeftOf(up, n, r) => Before(up)
    case RightOf(up, l, n) => Before(up) + InOrder(l) + [n]
  }

  ghost function After<K>(c: Context<K>): seq<Node<K>> {
    match c
    case Top => []
    case LeftOf(up, n, r) => [n] + InOrder(r) + After(up)
    case RightOf(up, l, n) => After(up)
  }

  ghost function Fill<K>(c: Context<K>, t: Shape<K>): Shape<K> {
    match c
    case Top => t
    case LeftOf(up, n, r) => Fill(up, Branch(t, n, r))
    case RightOf(up, l, n) => Fill(up, Branch(l, n, t))
  }

  lemma {:induction false} FillInOrder<K>(c: Context<K>, t: Shape<K>)
    ensures InOrder(Fill(c, t)) == Before(c) + InOrder(t) + After(c)
  {
    match c
    case Top =>
    case LeftOf(up, n, r) =>
      FillInOrder(up, Branch(t, n, r));
      Regroup(Before(up), InOrder(t), [n], InOrder(r), After(up));
    case RightOf(up, l, n) =>
      FillInOrder(up, Branch(l, n, t));
      Regroup(Before(up), InOrder(l), [n], InOrder(t), After(up));
  }

  lemma Regroup<T>(a: seq<T>, b: seq<T>, c: seq<T>, d: seq<T>, e: seq<T>)
    ensures a + (b + c + d) + e == a + b + (c + d + e) == (a + b + c) + d + e
  {
  }

  function Ptr<K>(t: Shape<K>): Node?<K> { if t.Leaf? then null else t.n }

  ghost function NodesOf<K>(t: Shape<K>): set<Node<K>> {
    match t
    case Leaf => {}
    case Branch(l, n, r) => NodesOf(l) + {n} + NodesOf(r)
  }

  /** What the two pointers of a node must be. */
  datatype Children<K> = Children(n: Node<K>, left: Node?<K>, right: Node?<K>)

  ghost function Links<K>(t: Shape<K>): (r: set<Children<K>>)
    ensures forall k :: k in r ==> k.n in NodesOf(t)
  {
    match t
    case Leaf => {}
    case Branch(l, n, r) => Links(l) + {Children(n, Ptr(l), Ptr(r))} + Links(r)
  }

  /** The pointers outside the hole, when the hole holds p. */
  ghost function ContextLinks<K>(c: Context<K>, p: Node?<K>): set<Children<K>> {
    match c
    case Top => {}
    case LeftOf(up, n, r) => {Children(n, p, Ptr(r))} + Links(r) + ContextLinks(up, n)
    case RightOf(up, l, n) => {Children(n, Ptr(l), p)} + Links(l) + ContextLinks(up, n)
  }

  lemma {:induction false} FillLinks<K>(c: Context<K>, t: Shape<K>)
    ensures Links(Fill(c, t)) == Links(t) + ContextLinks(c, Ptr(t))
    ensures Ptr(Fill(c, t)) == if c.Top? then Ptr(t) else Ptr(Fill(c, Leaf))
  {
    match c
    case Top =>
    case LeftOf(up, n, r) =>
      FillLinks(up, Branch(t, n, r));
      FillLinks(up, Branch(Leaf, n, r));
    case RightOf(up, l, n) =>
      FillLinks(up, Branch(l, n, t));
      FillLinks(up, Branch(l, n, Leaf));
  }

  lemma {:induction false} NodesInOrder<K>(t: Shape<K>)
    ensures forall n :: n in NodesOf(t) <==> n in InOrder(t)
    ensures forall k :: k in Links(t) ==> k.n in InOrder(t)
  {
    match t
    case Leaf =>
    case Branch(l, n, r) =>
      NodesInOrder(l);
      NodesInOrder(r);
  }

  lemma NodeInOrder<K>(t: Shape<K>, n: Node<K>)
    ensures n in NodesOf(t) <==> n in InOrder(t)
  {
    NodesInOrder(t);
  }

  lemma {:induction false} FillNodes<K>(c: Context<K>, t: Shape<K>)
    ensures NodesOf(Fill(c, t)) == NodesOf(t) + NodesOf(Fill(c, Leaf))
  {
    match c
    case Top =>
    case LeftOf(up, n, r) =>
      FillNodes(up, Branch(t, n, r));
      FillNodes(up, Branch(Leaf, n, r));
    case RightOf(up, l, n) =>
      FillNodes(up, Branch(l, n, t));
      FillNodes(up, Branch(l, n, Leaf));
  }

  lemma {:induction false} ContextCover<K>(c: Context<K>, p: Node?<K>)
    ensures forall k :: k in ContextLinks(c, p) ==> k.n in Before(c) + After(c)
  {
    match c
    case Top =>
    case LeftOf(up, n, r) =>
      NodesInOrder(r);
      ContextCover(up, n);
    case RightOf(up, l, n) =>
      NodesInOrder(l);
      ContextCover(up, n);
  }

  predicate Precedes<K>(cmp: (K, K) -> int, ns: seq<Node<K>>, i: int, j: int) {
    0 <= i < j < |ns| ==> cmp(ns[i].key, ns[j].key) < 0
  }

  ghost predicate Sorted<K(!new)>(cmp: (K, K) -> int, ns: seq<Node<K>>) {
    forall i, j {:trigger Precedes(cmp, ns, i, j)} :: Precedes(cmp, ns, i, j)
  }

  ghost predicate Ordered<K(!new)>(cmp: (K, K) -> int, dom: iset<K>, ns: seq<Node<K>>) {
    WeakOrder(cmp, dom) && Sorted(cmp, ns) && forall n :: n in ns ==> n.key in dom
  }

  /** key belongs after all of pre and before all of post. */
  ghost predicate Between<K(!new)>(cmp: (K, K) -> int, key: K, pre: seq<Node<K>>, post: seq<Node<K>>) {
    && (forall n :: n in pre ==> cmp(key, n.key) > 0)
    && (forall n :: n in post ==> cmp(key, n.key) < 0)
  }

  ghost predicate NoneEquivalent<K(!new)>(cmp: (K, K) -> int, key: K, ns: seq<Node<K>>) {
    forall n :: n in ns ==> cmp(key, n.key) != 0
  }

  ghost predicate OnlyMatch<K(!new)>(cmp: (K, K) -> int, key: K, ns: seq<Node<K>>, n: Node<K>) {
    forall x :: x in ns && cmp(key, x.key) == 0 ==> x == n
  }

  /** Comparing with the node on top of a subtree decides for one half of it. */
  lemma Halve<K(!new)>(cmp: (K, K) -> int, dom: iset<K>, key: K, pre: seq<Node<K>>, l: seq<Node<K>>, n: Node<K>, r: seq<Node<K>>, post: seq<Node<K>>)
    requires WeakOrder(cmp, dom) && key in dom && Sorted(cmp, pre + (l + [n] + r) + post)
    requires forall x :: x in l || x in r || x == n ==> x.key in dom
    requires Between(cmp, key, pre, post)
    ensures cmp(key, n.key) < 0 ==> Between(cmp, key, pre, [n] + r + post)
    ensures cmp(key, n.key) > 0 ==> Between(cmp, key, pre + l + [n], post)
  {
    var all := pre + (l + [n] + r) + post;
    var m := |pre| + |l|;
    assert all[m] == n;
    assert Laws(cmp, key, n.key, key) && Laws(cmp, n.key, key, key);
    forall x | x in r && cmp(key, n.key) < 0 ensures cmp(key, x.key) < 0 {
      var k :| 0 <= k < |r| && r[k] == x;
      assert all[m + 1 + k] == x && Precedes(cmp, all, m, m + 1 + k);
      assert Laws(cmp, key, n.key, x.key);
    }
    forall x | x in l && cmp(key, n.key) > 0 ensures cmp(key, x.key) > 0 {
      var k :| 0 <= k < |l| && l[k] == x;
      assert all[|pre| + k] == x && Precedes(cmp, all, |pre| + k, m);
      assert Laws(cmp, x.key, n.key, key) && Laws(cmp, x.key, key, key);
    }
  }

  ghost function Parent<K>(c: Context<K>): Node?<K> {
    match c
    case Top => null
    case LeftOf(up, n, r) => n
    case RightOf(up, l, n) => n
  }

  /** ns' is ns with data put in at one place. */
  ghost predicate Inserted<K>(ns: seq<Node<K>>, data: Node<K>, ns': seq<Node<K>>) {
    exists k :: 0 <= k <= |ns| && ns' == ns[..k] + [data] + ns[k..]
  }

  lemma InsertedHere<K>(pre: seq<Node<K>>, data: Node<K>, post: seq<Node<K>>)
    ensures Inserted(pre + post, data, pre + [data] + post)
  {
    var ns, k := pre + post, |pre|;
    assert ns[..k] == pre && ns[k..] == post;
  }

  lemma AppearsOnce<K(!new)>(cmp: (K, K) -> int, dom: iset<K>, pre: seq<Node<K>>, n: Node<K>, post: seq<Node<K>>)
    requires WeakOrder(cmp, dom) && n.key in dom && Sorted(cmp, pre + [n] + post)
    ensures n !in pre && n !in post
  {
    var ns, m := pre + [n] + post, |pre|;
    assert Laws(cmp, n.key, n.key, n.key);
    forall i | 0 <= i < |pre| ensures pre[i] != n {
      assert Precedes(cmp, ns, i, m) && ns[i] == pre[i];
    }
    forall i | 0 <= i < |post| ensures post[i] != n {
      assert Precedes(cmp, ns, m, m + 1 + i) && ns[m + 1 + i] == post[i];
    }
  }

  /** A new node put where its key belongs keeps the order. */
  lemma InsertKeeps<K(!new)>(cmp: (K, K) -> int, dom: iset<K>, pre: seq<Node<K>>, data: Node<K>, post: seq<Node<K>>)
    requires WeakOrder(cmp, dom) && data.key in dom && (forall n :: n in pre + post ==> n.key in dom)
    requires Sorted(cmp, pre + post) && Between(cmp, data.key, pre, post)
    ensures Sorted(cmp, pre + [data] + post)
  {
    var ns, all := pre + post, pre + [data] + post;
    var m := |pre|;
    forall i, j | 0 <= i < j < |all| ensures Precedes(cmp, all, i, j) {
      var i', j' := if i > m then i - 1 else i, if j > m then j - 1 else j;
      assert i != m ==> all[i] == ns[i'] && all[i] in ns;
      assert j != m ==> all[j] == ns[j'] && all[j] in ns;
      if i == m {
        assert all[j] in post;
      } else if j == m {
        assert all[i] in pre;
        assert Laws(cmp, all[i].key, data.key, data.key);
      } else {
        assert Precedes(cmp, ns, i', j');
      }
    }
  }

  // ---------------------------------------------------------------- replacing a subtree

  ghost function ParentLink<K>(c: Context<K>, p: Node?<K>): set<Children<K>> {
    match c
    case Top => {}
    case LeftOf(up, n, r) => {Children(n, p, Ptr(r))}
    case RightOf(up, l, n) => {Children(n, Ptr(l), p)}
  }

  ghost function RestLinks<K>(c: Context<K>): set<Children<K>> {
    match c
    case Top => {}
    case LeftOf(up, n, r) => Links(r) + ContextLinks(up, n)
    case RightOf(up, l, n) => Links(l) + ContextLinks(up, n)
  }

  /** Of the pointers outside the hole only the parent's depends on what is in it. */
  lemma RehangLinks<K>(c: Context<K>, s: Shape<K>, s': Shape<K>)
    ensures Links(Fill(c, s)) == Links(s) + ParentLink(c, Ptr(s)) + RestLinks(c)
    ensures Links(Fill(c, s')) == Links(s') + ParentLink(c, Ptr(s')) + RestLinks(c)
    ensures Ptr(Fill(c, s')) == if c.Top? then Ptr(s') else Ptr(Fill(c, s))
  {
    FillLinks(c, s);
    FillLinks(c, s');
  }

  /** The nodes below the hole, the parent, and the other nodes are different. */
  lemma HoleApart<K(!new)>(cmp: (K, K) -> int, dom: iset<K>, c: Context<K>, s: Shape<K>)
    requires Ordered(cmp, dom, InOrder(Fill(c, s)))
    ensures forall k :: k in RestLinks(c) ==> k.n != Parent(c) && k.n !in InOrder(s) && k.n in InOrder(Fill(c, s))
    ensures Parent(c) != null ==> Parent(c) !in InOrder(s) && Parent(c) in InOrder(Fill(c, s))
  {
    FillInOrder(c, s);
    MidApart(cmp, dom, Before(c), InOrder(s), After(c));
    match c
    case Top =>
    case LeftOf(up, n, r) =>
      assert Before(c) + InOrder(s) + After(c) == (Before(up) + InOrder(s)) + [n] + (InOrder(r) + After(up));
      AppearsOnce(cmp, dom, Before(up) + InOrder(s), n, InOrder(r) + After(up));
      NodesInOrder(r);
      ContextCover(up, n);
    case RightOf(up, l, n) =>
      assert Before(c) + InOrder(s) + After(c) == (Before(up) + InOrder(l)) + [n] + (InOrder(s) + After(up));
      AppearsOnce(cmp, dom, Before(up) + InOrder(l), n, InOrder(s) + After(up));
      NodesInOrder(l);
      ContextCover(up, n);
  }

  /** What the parent's pointer is set among: none of these is the parent's entry. */
  lemma OthersApart<K(!new)>(cmp: (K, K) -> int, dom: iset<K>, c: Context<K>, s: Shape<K>, s': Shape<K>)
    requires Ordered(cmp, dom, InOrder(Fill(c, s)))
    requires forall n :: n in InOrder(s') ==> n in InOrder(s) || n !in InOrder(Fill(c, s))
    ensures forall k :: k in Links(s') ==> k.n != Parent(c)
    ensures forall k :: k in RestLinks(c) ==> k.n != Parent(c)
  {
    HoleApart(cmp, dom, c, s);
    NodesInOrder(s');
  }

  lemma MidApart<K(!new)>(cmp: (K, K) -> int, dom: iset<K>, pre: seq<Node<K>>, mid: seq<Node<K>>, post: seq<Node<K>>)
    requires Ordered(cmp, dom, pre + mid + post)
    ensures forall x :: x in mid ==> x !in pre && x !in post
    ensures Ordered(cmp, dom, mid)
  {
    var ns := pre + mid + post;
    forall x | x in mid ensures x !in pre && x !in post {
      var i :| 0 <= i < |mid| && mid[i] == x;
      assert ns == (pre + mid[..i]) + [x] + (mid[i + 1..] + post);
      assert x in ns;
      AppearsOnce(cmp, dom, pre + mid[..i], x, mid[i + 1..] + post);
    }
    forall i, j | 0 <= i < j < |mid| ensures Precedes(cmp, mid, i, j) {
      assert Precedes(cmp, ns, |pre| + i, |pre| + j) && ns[|pre| + i] == mid[i] && ns[|pre| + j] == mid[j];
    }
    assert forall x :: x in mid ==> x in ns;
  }

  /** The sequence without its middle */
  lemma Shortened<K(!new)>(cmp: (K, K) -> int, dom: iset<K>, pre: seq<Node<K>>, n: Node<K>, post: seq<Node<K>>)
    requires Ordered(cmp, dom, pre + [n] + post)
    ensures Ordered(cmp, dom, pre + post) && n !in pre + post
  {
    var ns, ms := pre + [n] + post, pre + post;
    forall i, j | 0 <= i < j < |ms| ensures Precedes(cmp, ms, i, j) {
      var i', j' := if i < |pre| then i else i + 1, if j < |pre| then j else j + 1;
      assert Precedes(cmp, ns, i', j') && ns[i'] == ms[i] && ns[j'] == ms[j];
    }
    assert forall x :: x in ms ==> x in ns;
    assert n in ns;
    AppearsOnce(cmp, dom, pre, n, post);
  }

  ghost predicate Holds<K>(k: Children<K>)
    reads k.n
  {
    k.n.left == k.left && k.n.right == k.right
  }

  ghost predicate AllHold<K>(ks: set<Children<K>>)
    reads set k | k in ks :: k.n
  {
    forall k :: k in ks ==> Holds(k)
  }

  lemma LoneNode<K>(data: Node<K>)
    ensures var one := Branch(Leaf, data, Leaf);
            InOrder(one) == [data] && Ptr(one) == data && forall k :: k in Links(one) ==> k == Children(data, null, null)
  {
    var one := Branch(Leaf, data, Leaf);
    assert Links(one) == Links(one.l) + {Children(data, Ptr(one.l), Ptr(one.r))} + Links(one.r);
  }

  // ---------------------------------------------------------------- the descent

  /** The descent for key has come down to the subtree sub below ctx. */
  ghost predicate At<K(!new)>(cmp: (K, K) -> int, key: K, shape: Shape<K>, ctx: Context<K>, sub: Shape<K>) {
    && Fill(ctx, sub) == shape && InOrder(shape) == Before(ctx) + InOrder(sub) + After(ctx)
    && Between(cmp, key, Before(ctx), After(ctx))
  }

  lemma NotFound<K(!new)>(cmp: (K, K) -> int, key: K, shape: Shape<K>, ctx: Context<K>)
    requires At(cmp, key, shape, ctx, Leaf)
    ensures InOrder(shape) == Before(ctx) + After(ctx) && NoneEquivalent(cmp, key, InOrder(shape))
  {
  }

  /** The tree with data at the place the descent for its key has reached. */
  lemma Grown<K(!new)>(cmp: (K, K) -> int, dom: iset<K>, shape: Shape<K>, ctx: Context<K>, data: Node<K>)
    requires Ordered(cmp, dom, InOrder(shape)) && data.key in dom && data !in NodesOf(shape)
    requires At(cmp, data.key, shape, ctx, Leaf)
    ensures var t := Fill(ctx, Branch(Leaf, data, Leaf));
            && InOrder(t) == Before(ctx) + [data] + After(ctx) && Ordered(cmp, dom, InOrder(t))
            && NodesOf(t) == NodesOf(shape) + {data}
    ensures data !in InOrder(shape) && forall k :: k in Links(shape) ==> k.n != data
  {
    var one := Branch(Leaf, data, Leaf);
    LoneNode(data);
    FillNodes(ctx, one);
    FillInOrder(ctx, one);
    NotFound(cmp, data.key, shape, ctx);
    InsertKeeps(cmp, dom, Before(ctx), data, After(ctx));
    NodesInOrder(shape);
  }

  /** One step of the descent, by the sign of the comparison with the node on top. */
  lemma Down<K(!new)>(cmp: (K, K) -> int, dom: iset<K>, key: K, shape: Shape<K>, ctx: Context<K>, sub: Shape<K>)
    requires Ordered(cmp, dom, InOrder(shape)) && key in dom && At(cmp, key, shape, ctx, sub) && sub.Branch?
    ensures sub.n in InOrder(shape) && Children(sub.n, Ptr(sub.l), Ptr(sub.r)) in Links(shape)
    ensures cmp(key, sub.n.key) < 0 ==> At(cmp, key, shape, LeftOf(ctx, sub.n, sub.r), sub.l)
    ensures cmp(key, sub.n.key) > 0 ==> At(cmp, key, shape, RightOf(ctx, sub.l, sub.n), sub.r)
  {
    Halve(cmp, dom, key, Before(ctx), InOrder(sub.l), sub.n, InOrder(sub.r), After(ctx));
    FillLinks(ctx, sub);
    FillInOrder(LeftOf(ctx, sub.n, sub.r), sub.l);
    FillInOrder(RightOf(ctx, sub.l, sub.n), sub.r);
  }

  // ---------------------------------------------------------------- the subtree below a node

  /** What a descent sees that starts at the node n, or at a null pointer. */
  ghost function Below<K>(t: Shape<K>, n: Node?<K>): Shape<K> {
    if n == null || t.Leaf? then Leaf
    else if t.n == n then t
    else if n in NodesOf(t.l) then Below(t.l, n)
    else Below(t.r, n)
  }

  lemma {:induction false} BelowContext<K>(t: Shape<K>, n: Node<K>, up: Context<K>) returns (ctx: Context<K>)
    requires n in NodesOf(t)
    ensures Fill(ctx, Below(t, n)) == Fill(up, t) && Ptr(Below(t, n)) == n
  {
    if t.n == n {
      ctx := up;
    } else if n in NodesOf(t.l) {
      ctx := BelowContext(t.l, n, LeftOf(up, t.n, t.r));
    } else {
      ctx := BelowContext(t.r, n, RightOf(up, t.l, t.n));
    }
  }

  lemma BelowIsPart<K(!new)>(cmp: (K, K) -> int, dom: iset<K>, t: Shape<K>, n: Node?<K>)
    requires Ordered(cmp, dom, InOrder(t)) && (n == null || n in NodesOf(t))
    ensures Ptr(Below(t, n)) == n && Links(Below(t, n)) <= Links(t) && Ordered(cmp, dom, InOrder(Below(t, n)))
    ensures forall x :: x in InOrder(Below(t, n)) ==> x in InOrder(t)
  {
    if n != null {
      var ctx := BelowContext(t, n, Top);
      FillLinks(ctx, Below(t, n));
      FillInOrder(ctx, Below(t, n));
      MidApart(cmp, dom, Before(ctx), InOrder(Below(t, n)), After(ctx));
    }
  }

  lemma {:induction false} BelowWithin<K>(t: Shape<K>, n: Node?<K>)
    ensures forall x :: x in InOrder(Below(t, n)) ==> x in InOrder(t)
  {
    if n != null && t.Branch? && t.n != n {
      BelowWithin(t.l, n);
      BelowWithin(t.r, n);
    }
  }

  /** A descent sees the whole tree exactly when it starts at the root: from anywhere else it misses at
      least the node on top. */
  lemma StartMatters<K(!new)>(cmp: (K, K) -> int, dom: iset<K>, t: Shape<K>, start: Node?<K>)
    requires Ordered(cmp, dom, InOrder(t)) && t.Branch?
    ensures start == t.n ==> Below(t, start) == t
    ensures t.n in InOrder(Below(t, start)) <==> start == t.n
  {
    AppearsOnce(cmp, dom, InOrder(t.l), t.n, InOrder(t.r));
    BelowWithin(t.l, start);
    BelowWithin(t.r, start);
  }

  // ---------------------------------------------------------------- rotations

  function RotatedLeft<K>(t: Shape<K>): Shape<K> {
    if t.Branch? && t.r.Branch? then Branch(Branch(t.l, t.n, t.r.l), t.r.n, t.r.r) else t
  }

  function RotatedRight<K>(t: Shape<K>): Shape<K> {
    if t.Branch? && t.l.Branch? then Branch(t.l.l, t.l.n, Branch(t.l.r, t.n, t.r)) else t
  }

  /** The tree with a rotation at the node that path (true: left) leads to, as far as it leads. */
  function TurnedAt<K>(t: Shape<K>, path: seq<bool>, left: bool): Shape<K> {
    if path == [] || t.Leaf? || (if path[0] then t.l else t.r).Leaf? then
      if left then RotatedLeft(t) else RotatedRight(t)
    else if path[0] then t.(l := TurnedAt(t.l, path[1..], left))
    else t.(r := TurnedAt(t.r, path[1..], left))
  }

  lemma RotatedKeeps<K>(t: Shape<K>)
    ensures InOrder(RotatedLeft(t)) == InOrder(t) && NodesOf(RotatedLeft(t)) == NodesOf(t)
    ensures InOrder(RotatedRight(t)) == InOrder(t) && NodesOf(RotatedRight(t)) == NodesOf(t)
  {
    if t.Branch? && t.r.Branch? {
      var u := t.r;
      assert InOrder(t.l) + [t.n] + (InOrder(u.l) + [u.n] + InOrder(u.r)) == (InOrder(t.l) + [t.n] + InOrder(u.l)) + [u.n] + InOrder(u.r);
    }
    if t.Branch? && t.l.Branch? {
      var u := t.l;
      assert (InOrder(u.l) + [u.n] + InOrder(u.r)) + [t.n] + InOrder(t.r) == InOrder(u.l) + [u.n] + (InOrder(u.r) + [t.n] + InOrder(t.r));
    }
  }

  /** The nodes x and y of a rotation and the three subtrees around them have no node in common. */
  lemma TwoApart<K(!new)>(cmp: (K, K) -> int, dom: iset<K>, A: seq<Node<K>>, x: Node<K>, B: seq<Node<K>>, y: Node<K>, C: seq<Node<K>>)
    requires Ordered(cmp, dom, A + [x] + B + [y] + C)
    ensures x != y && x !in A && x !in B && x !in C && y !in A && y !in B && y !in C
    ensures x in A + [x] + B + [y] + C && y in A + [x] + B + [y] + C
  {
    var ns := A + [x] + B + [y] + C;
    assert ns[|A|] == x && ns[|A| + 1 + |B|] == y && x in ns && y in ns;
    assert ns == A + [x] + (B + [y] + C);
    AppearsOnce(cmp, dom, A, x, B + [y] + C);
    AppearsOnce(cmp, dom, A + [x] + B, y, C);
  }

  /** On the way along a path in shape: the rest leads on from sub below ctx, and the rotation at its end
      gives goal. */
  ghost predicate Leads<K>(shape: Shape<K>, ctx: Context<K>, sub: Shape<K>, rest: seq<bool>, left: bool, goal: Shape<K>) {
    Fill(ctx, sub) == shape && Links(sub) <= Links(shape) && Fill(ctx, TurnedAt(sub, rest, left)) == goal
  }

  lemma TurnStep<K>(shape: Shape<K>, ctx: Context<K>, sub: Shape<K>, path: seq<bool>, i: nat, left: bool, goal: Shape<K>)
    requires i < |path| && sub.Branch? && (if path[i] then sub.l else sub.r).Branch?
    requires Leads(shape, ctx, sub, path[i..], left, goal)
    ensures path[i] ==> Leads(shape, LeftOf(ctx, sub.n, sub.r), sub.l, path[i + 1..], left, goal)
    ensures !path[i] ==> Leads(shape, RightOf(ctx, sub.l, sub.n), sub.r, path[i + 1..], left, goal)
    ensures Children(sub.n, Ptr(sub.l), Ptr(sub.r)) in Links(shape)
  {
    var rest := path[i..];
    assert rest[0] == path[i] && rest[1..] == path[i + 1..];
  }

  lemma TurnEnd<K>(shape: Shape<K>, ctx: Context<K>, sub: Shape<K>, path: seq<bool>, i: nat, left: bool, goal: Shape<K>)
    requires i <= |path| && Leads(shape, ctx, sub, path[i..], left, goal)
    requires i == |path| || sub.Leaf? || (if path[i] then sub.l else sub.r).Leaf?
    ensures goal == Fill(ctx, if left then RotatedLeft(sub) else RotatedRight(sub))
    ensures sub.Branch? ==> Children(sub.n, Ptr(sub.l), Ptr(sub.r)) in Links(shape)
  {
    if i < |path| {
      assert path[i..][0] == path[i];
    }
  }

  /** A root pointer with the lock-protected tree below it.  dom is where the comparator is an order. */
  class Root<K(!new)> {
    var node: Node?<K>
    const cmp: (K, K) -> int
    ghost const dom: iset<K>
    ghost var shape: Shape<K>

    ghost function Nodes(): set<Node<K>>
      reads this
    {
      NodesOf(shape)
    }

    ghost predicate Valid()
      reads this, Nodes()
    {
      node == Ptr(shape) && AllHold(Links(shape)) && Ordered(cmp, dom, InOrder(shape))
    }

    constructor (c: (K, K) -> int, ghost d: iset<K>)
      requires WeakOrder(c, d)
      ensures Valid() && shape == Leaf && cmp == c && dom == d
    {
      node := null;
      cmp := c;
      dom := d;
      shape := Leaf;
    }

    /** The child pointer of the parent, or the root, is set to p: the subtree s at ctx becomes s', whose
        own pointers are as they should be. */
    method Hang(p: Node?<K>, parent: Node?<K>, wentLeft: bool, ghost ctx: Context<K>, ghost s: Shape<K>, ghost s': Shape<K>)
      requires shape == Fill(ctx, s) && node == Ptr(shape) && p == Ptr(s')
      requires Ordered(cmp, dom, InOrder(shape)) && Ordered(cmp, dom, InOrder(Fill(ctx, s')))
      requires forall n :: n in InOrder(s') ==> n in InOrder(s) || n !in InOrder(shape)
      requires AllHold(Links(s')) && AllHold(RestLinks(ctx) + ParentLink(ctx, Ptr(s)))
      requires parent == Parent(ctx) && (parent != null ==> wentLeft == ctx.LeftOf?)
      modifies this, parent
      ensures Valid() && shape == Fill(ctx, s')
    {
      OthersApart(cmp, dom, ctx, s, s');
      RehangLinks(ctx, s, s');
      if parent == null {
        node := p;
      } else if wentLeft {
        parent.left := p;
      } else {
        parent.right := p;
      }
      shape := Fill(ctx, s');
      assert AllHold(Links(s'));
      assert AllHold(RestLinks(ctx));
      assert AllHold(ParentLink(ctx, p));
    }

    /** search_rb_listner: finds the node of an equivalent key exactly if the tree has one, and then it is
        the only one. */
    method Search(key: K) returns (r: Node?<K>)
      requires Valid() && key in dom
      ensures Valid()
      ensures r != null ==> r in InOrder(shape) && cmp(key, r.key) == 0
      ensures r == null ==> NoneEquivalent(cmp, key, InOrder(shape))
      ensures r != null ==> OnlyMatch(cmp, key, InOrder(shape), r)
    {
      r := SearchFrom(node, key);
      if r != null {
        OnlyOne(cmp, dom, key, InOrder(shape), r);
      }
    }

    /** search_rb_preconn: the search starts from a pointer read earlier, when the tree may have had
        another shape: it finds the node of an equivalent key exactly if that lies below start. */
    method SearchFrom(start: Node?<K>, key: K) returns (r: Node?<K>)
      requires Valid() && key in dom && (start == null || start in Nodes())
      ensures Valid()
      ensures r != null ==> r in InOrder(Below(shape, start)) && cmp(key, r.key) == 0
      ensures r == null ==> NoneEquivalent(cmp, key, InOrder(Below(shape, start)))
      ensures r != null ==> r in InOrder(shape)
    {
      BelowIsPart(cmp, dom, shape, start);
      r := SearchBelow(start, key, Below(shape, start));
    }

    /** The loop of the search functions: the subtree top holds a node of an equivalent key, or it does not. */
    method SearchBelow(start: Node?<K>, key: K, ghost top: Shape<K>) returns (r: Node?<K>)
      requires Valid() && Links(top) <= Links(shape)
      requires start == Ptr(top) && Ordered(cmp, dom, InOrder(top)) && key in dom
      ensures Valid()
      ensures r != null ==> r in InOrder(top) && cmp(key, r.key) == 0
      ensures r == null ==> NoneEquivalent(cmp, key, InOrder(top))
    {
      r := start;
      ghost var ctx, sub := Top, top;
      while r != null
        invariant At(cmp, key, top, ctx, sub) && r == Ptr(sub) && Valid()
        decreases sub
      {
        var result := cmp(key, r.key);
        Down(cmp, dom, key, top, ctx, sub);
        assert Holds(Children(r, Ptr(sub.l), Ptr(sub.r)));
        if result < 0 {
          ctx, sub, r := LeftOf(ctx, sub.n, sub.r), sub.l, r.left;
        } else if result > 0 {
          ctx, sub, r := RightOf(ctx, sub.l, sub.n), sub.r, r.right;
        } else {
          return;
        }
      }
      NotFound(cmp, key, top, ctx);
    }

    /** add_rb_data, add_rb_listner, add_rb_preconn: the node already there for an equivalent key, and
        nothing changed; or null, and data is linked in between the nodes before and after it. */
    method Add(data: Node<K>) returns (r: Node?<K>)
      requires Valid() && data.key in dom && data !in Nodes()
      modifies this, data, Nodes()
      ensures Valid() && Nodes() == (if r == null then old(Nodes()) + {data} else old(Nodes()))
      ensures r != null ==> r in InOrder(shape) && cmp(data.key, r.key) == 0
      ensures r != null ==> shape == old(shape) && unchanged(this) && unchanged(data)
      ensures r == null ==> NoneEquivalent(cmp, data.key, old(InOrder(shape)))
      ensures r == null ==> Inserted(old(InOrder(shape)), data, InOrder(shape))
    {
      var parent, wentLeft;
      ghost var ctx, sub;
      r, parent, wentLeft, ctx, sub := Descend(data.key);
      if r == null {
        InsertedHere(Before(ctx), data, After(ctx));
        NotFound(cmp, data.key, shape, ctx);
        Link(data, parent, wentLeft, ctx);
      }
    }

    /** The loop of the three add functions: r is the node of an equivalent key, or null once the position
        ctx for a new node has been reached.  The source leaves parent one node further down in the first
        case, where it is not used. */
    method Descend(key: K)
      returns (r: Node?<K>, parent: Node?<K>, wentLeft: bool, ghost ctx: Context<K>, ghost sub: Shape<K>)
      requires Valid() && key in dom
      ensures Valid() && At(cmp, key, shape, ctx, sub) && r == Ptr(sub)
      ensures parent == Parent(ctx) && (parent != null ==> wentLeft == ctx.LeftOf?)
      ensures r != null ==> r in InOrder(shape) && cmp(key, r.key) == 0
    {
      r, parent, wentLeft := node, null, false;
      ctx, sub := Top, shape;
      while r != null
        invariant At(cmp, key, shape, ctx, sub) && r == Ptr(sub)
        invariant parent == Parent(ctx) && (parent != null ==> wentLeft == ctx.LeftOf?)
        invariant Valid()
        decreases sub
      {
        var result := cmp(key, r.key);
        Down(cmp, dom, key, shape, ctx, sub);
        assert Children(r, Ptr(sub.l), Ptr(sub.r)) in Links(shape);
        if result == 0 {
          return;
        }
        parent := r;
        if result < 0 {
          ctx, sub, r, wentLeft := LeftOf(ctx, sub.n, sub.r), sub.l, r.left, true;
        } else {
          ctx, sub, r, wentLeft := RightOf(ctx, sub.l, sub.n), sub.r, r.right, false;
        }
      }
    }

    /** rb_link_node at the position ctx that the descent has reached. */
    method Link(data: Node<K>, parent: Node?<K>, wentLeft: bool, ghost ctx: Context<K>)
      requires Valid() && data.key in dom && data !in Nodes()
      requires At(cmp, data.key, shape, ctx, Leaf)
      requires parent == Parent(ctx) && (parent != null ==> wentLeft == ctx.LeftOf?)
      modifies this, data, Nodes()
      ensures Valid() && Nodes() == old(Nodes()) + {data}
      ensures InOrder(shape) == Before(ctx) + [data] + After(ctx)
    {
      ghost var one := Branch(Leaf, data, Leaf);
      Grown(cmp, dom, shape, ctx, data);
      LoneNode(data);
      RehangLinks(ctx, Leaf, one);
      data.left, data.right := null, null;
      Hang(data, parent, wentLeft, ctx, Leaf, one);
    }

    /** Down along path, as far as it leads. */
    method Walk(path: seq<bool>, ghost left: bool)
      returns (x: Node?<K>, parent: Node?<K>, wentLeft: bool, ghost ctx: Context<K>, ghost sub: Shape<K>)
      requires Valid()
      ensures Valid() && Fill(ctx, sub) == shape && x == Ptr(sub)
      ensures TurnedAt(shape, path, left) == Fill(ctx, if left then RotatedLeft(sub) else RotatedRight(sub))
      ensures parent == Parent(ctx) && (parent != null ==> wentLeft == ctx.LeftOf?)
    {
      x, parent, wentLeft := node, null, false;
      ctx, sub := Top, shape;
      ghost var goal := TurnedAt(shape, path, left);
      assert path[0..] == path;
      var i, more := 0, true;
      while more
        invariant 0 <= i <= |path| && Valid() && Leads(shape, ctx, sub, path[i..], left, goal) && x == Ptr(sub)
        invariant parent == Parent(ctx) && (parent != null ==> wentLeft == ctx.LeftOf?)
        invariant !more ==> i == |path| || sub.Leaf? || (if path[i] then sub.l else sub.r).Leaf?
        decreases |path| - i, more
      {
        more := false;
        if i < |path| && x != null {
          assert Holds(Children(x, Ptr(sub.l), Ptr(sub.r)));
          if (if path[i] then x.left else x.right) != null {
            TurnStep(shape, ctx, sub, path, i, left, goal);
            more, parent, wentLeft := true, x, path[i];
            if wentLeft {
              ctx, sub, x := LeftOf(ctx, sub.n, sub.r), sub.l, x.left;
            } else {
              ctx, sub, x := RightOf(ctx, sub.l, sub.n), sub.r, x.right;
            }
            i := i + 1;
          }
        }
      }
      TurnEnd(shape, ctx, sub, path, i, left, goal);
    }

    /** A rotation, as rb_insert_color and rb_erase make them, at the node that path leads to. */
    method Rotate(path: seq<bool>, left: bool)
      requires Valid()
      modifies this, Nodes()
      ensures Valid() && Nodes() == old(Nodes())
      ensures shape == TurnedAt(old(shape), path, left) && InOrder(shape) == old(InOrder(shape))
    {
      var x, parent, wentLeft;
      ghost var ctx, sub;
      x, parent, wentLeft, ctx, sub := Walk(path, left);
      FillLinks(ctx, sub);
      assert x != null ==> Children(x, Ptr(sub.l), Ptr(sub.r)) in Links(shape);
      if left && x != null && x.right != null {
        RotateLeft(x, parent, wentLeft, ctx, sub);
      } else if !left && x != null && x.left != null {
        RotateRight(x, parent, wentLeft, ctx, sub);
      }
    }

    method RotateLeft(x: Node<K>, parent: Node?<K>, wentLeft: bool, ghost ctx: Context<K>, ghost sub: Shape<K>)
      requires Valid() && Fill(ctx, sub) == shape && x == Ptr(sub) && sub.r.Branch?
      requires parent == Parent(ctx) && (parent != null ==> wentLeft == ctx.LeftOf?)
      modifies this, Nodes()
      ensures Valid() && Nodes() == old(Nodes()) && InOrder(shape) == old(InOrder(shape))
      ensures shape == Fill(ctx, RotatedLeft(sub))
    {
      ghost var a, b, c := sub.l, sub.r.l, sub.r.r;
      ReadyToTurn(cmp, dom, ctx, a, x, b, sub.r.n, c, sub);
      assert Holds(Children(x, Ptr(a), sub.r.n));
      var y := x.right;
      assert Holds(Children(y, Ptr(b), Ptr(c)));
      x.right := y.left;
      y.left := x;
      assert AllHold(TurnRest(ctx, a, b, c, Ptr(sub)));
      assert Holds(Children(x, Ptr(a), Ptr(b))) && Holds(Children(y, x, Ptr(c)));
      assert AllHold(Links(RotatedLeft(sub)));
      Hang(y, parent, wentLeft, ctx, sub, RotatedLeft(sub));
    }

    method RotateRight(x: Node<K>, parent: Node?<K>, wentLeft: bool, ghost ctx: Context<K>, ghost sub: Shape<K>)
      requires Valid() && Fill(ctx, sub) == shape && x == Ptr(sub) && sub.l.Branch?
      requires parent == Parent(ctx) && (parent != null ==> wentLeft == ctx.LeftOf?)
      modifies this, Nodes()
      ensures Valid() && Nodes() == old(Nodes()) && InOrder(shape) == old(InOrder(shape))
      ensures shape == Fill(ctx, RotatedRight(sub))
    {
      ghost var a, b, c := sub.l.l, sub.l.r, sub.r;
      ReadyToTurn(cmp, dom, ctx, a, sub.l.n, b, x, c, sub);
      assert Holds(Children(x, sub.l.n, Ptr(c)));
      var y := x.left;
      assert Holds(Children(y, Ptr(a), Ptr(b)));
      x.left := y.right;
      y.right := x;
      assert AllHold(TurnRest(ctx, a, b, c, Ptr(sub)));
      assert Holds(Children(y, Ptr(a), x)) && Holds(Children(x, Ptr(b), Ptr(c)));
      assert AllHold(Links(RotatedRight(sub)));
      Hang(y, parent, wentLeft, ctx, sub, RotatedRight(sub));
    }

    /** de_tree_qp: takes exactly the node z out.  (Where z has two children, its successor takes its
        place; recolouring is left out.) */
    method Erase(z: Node<K>)
      requires Valid() && z in Nodes()
      modifies this, Nodes()
      ensures Valid() && Nodes() == old(Nodes()) - {z}
      ensures Inserted(InOrder(shape), z, old(InOrder(shape)))
    {
      NodeInOrder(shape, z);
      var r, parent, wentLeft;
      ghost var ctx, sub;
      r, parent, wentLeft, ctx, sub := Descend(z.key);
      FindsItself(cmp, dom, z, shape, ctx, sub);
      assert r == z;
      TakenOut(cmp, dom, ctx, sub);
      RehangLinks(ctx, sub, sub);
      HoleApart(cmp, dom, ctx, sub);
      assert Holds(Children(z, Ptr(sub.l), Ptr(sub.r)));
      if z.left == null {
        Hang(z.right, parent, wentLeft, ctx, sub, Joined(sub.l, sub.r));
      } else if z.right == null {
        Hang(z.left, parent, wentLeft, ctx, sub, Joined(sub.l, sub.r));
      } else {
        EraseInner(z, parent, wentLeft, ctx, sub);
      }
    }

    /** The successor of z: the first node of its right subtree. */
    method Successor(z: Node<K>, ghost sub: Shape<K>)
      returns (y: Node<K>, p: Node?<K>, ghost c: Context<K>, ghost cur: Shape<K>)
      requires Valid() && Links(sub) <= Links(shape) && z == Ptr(sub) && sub.r.Branch?
      ensures Valid() && FirstAt(sub.r, c, cur) && y == Ptr(cur) && p == Parent(c) && cur.l == Leaf
    {
      assert Holds(Children(z, Ptr(sub.l), Ptr(sub.r)));
      y, p := z.right, null;
      c, cur := Top, sub.r;
      FillLinks(c, cur);
      assert Holds(Children(y, Ptr(cur.l), Ptr(cur.r)));
      while y.left != null
        invariant Valid() && FirstAt(sub.r, c, cur) && y == Ptr(cur) && p == Parent(c)
        invariant Children(y, Ptr(cur.l), Ptr(cur.r)) in Links(shape)
        decreases cur
      {
        assert Holds(Children(y, Ptr(cur.l), Ptr(cur.r)));
        FirstStep(sub.r, c, cur);
        p := y;
        c, cur := LeftOf(c, cur.n, cur.r), cur.l;
        y := y.left;
        FillLinks(c, cur);
        assert Children(y, Ptr(cur.l), Ptr(cur.r)) in Links(sub.r);
      }
      assert Holds(Children(y, Ptr(cur.l), Ptr(cur.r)));
    }

    method EraseInner(z: Node<K>, parent: Node?<K>, wentLeft: bool, ghost ctx: Context<K>, ghost sub: Shape<K>)
      requires Valid() && Fill(ctx, sub) == shape && z == Ptr(sub) && sub.l.Branch? && sub.r.Branch?
      requires parent == Parent(ctx) && (parent != null ==> wentLeft == ctx.LeftOf?)
      modifies this, Nodes()
      ensures Valid() && shape == Fill(ctx, Joined(sub.l, sub.r))
    {
      RehangLinks(ctx, sub, sub);
      TakenOut(cmp, dom, ctx, sub);
      var y, p;
      ghost var c, cur;
      y, p, c, cur := Successor(z, sub);
      Splice(z, y, p, ctx, sub, c, cur);
      Hang(y, parent, wentLeft, ctx, sub, Joined(sub.l, sub.r));
    }

    /** The successor y leaves its place and takes over the children of z. */
    method Splice(z: Node<K>, y: Node<K>, p: Node?<K>, ghost ctx: Context<K>, ghost sub: Shape<K>, ghost c: Context<K>, ghost cur: Shape<K>)
      requires Valid() && Fill(ctx, sub) == shape && z == Ptr(sub) && sub.l.Branch? && sub.r.Branch?
      requires FirstAt(sub.r, c, cur) && cur.l == Leaf && y == Ptr(cur) && p == Parent(c)
      modifies Nodes()
      ensures unchanged(this) && y == Ptr(Joined(sub.l, sub.r))
      ensures AllHold(Links(Joined(sub.l, sub.r))) && AllHold(RestLinks(ctx) + ParentLink(ctx, Ptr(sub)))
    {
      RehangLinks(ctx, sub, sub);
      ReadyToErase(cmp, dom, ctx, sub, c, cur);
      assert Holds(Children(z, Ptr(sub.l), Ptr(sub.r)));
      assert Holds(Children(y, null, Ptr(cur.r)));
      if p != null {
        p.left := y.right;
        y.right := z.right;
      }
      y.left := z.left;
      assert AllHold(EraseRest(ctx, sub, c, cur));
    }
  }

  // ---------------------------------------------------------------- taking a node out

  function First<K>(t: Shape<K>): Node<K>
    requires t.Branch?
  {
    if t.l.Leaf? then t.n else First(t.l)
  }

  function WithoutFirst<K>(t: Shape<K>): Shape<K>
    requires t.Branch?
  {
    if t.l.Leaf? then t.r else t.(l := WithoutFirst(t.l))
  }

  /** The tree that takes the place of a node with the subtrees l and r. */
  function Joined<K>(l: Shape<K>, r: Shape<K>): Shape<K> {
    if l.Leaf? then r else if r.Leaf? then l else Branch(l, First(r), WithoutFirst(r))
  }

  lemma {:induction false} FirstInOrder<K>(t: Shape<K>)
    requires t.Branch?
    ensures InOrder(t) == [First(t)] + InOrder(WithoutFirst(t))
    ensures NodesOf(t) == {First(t)} + NodesOf(WithoutFirst(t))
  {
    if t.l.Branch? {
      FirstInOrder(t.l);
    }
  }

  lemma JoinedInOrder<K>(l: Shape<K>, r: Shape<K>)
    ensures InOrder(Joined(l, r)) == InOrder(l) + InOrder(r) && NodesOf(Joined(l, r)) == NodesOf(l) + NodesOf(r)
  {
    if l.Branch? && r.Branch? {
      FirstInOrder(r);
      assert InOrder(l) + [First(r)] + InOrder(WithoutFirst(r)) == InOrder(l) + ([First(r)] + InOrder(WithoutFirst(r)));
    }
  }

  /** The first node of t is that of the subtree cur, down to the left of t. */
  ghost predicate FirstAt<K>(t: Shape<K>, c: Context<K>, cur: Shape<K>) {
    t.Branch? && cur.Branch? && Fill(c, cur) == t && First(cur) == First(t) && WithoutFirst(t) == Fill(c, WithoutFirst(cur))
    && !c.RightOf?
  }

  lemma FirstStep<K>(t: Shape<K>, c: Context<K>, cur: Shape<K>)
    requires FirstAt(t, c, cur) && cur.l.Branch?
    ensures FirstAt(t, LeftOf(c, cur.n, cur.r), cur.l)
  {
  }

  /** The search for the key of a node of the tree ends at that node. */
  lemma FindsItself<K(!new)>(cmp: (K, K) -> int, dom: iset<K>, z: Node<K>, shape: Shape<K>, ctx: Context<K>, sub: Shape<K>)
    requires Ordered(cmp, dom, InOrder(shape)) && z in InOrder(shape) && At(cmp, z.key, shape, ctx, sub)
    requires sub.Branch? ==> sub.n in InOrder(shape) && cmp(z.key, sub.n.key) == 0
    ensures sub.Branch? && sub.n == z
  {
    assert Laws(cmp, z.key, z.key, z.key);
    if sub.Branch? {
      OnlyOne(cmp, dom, z.key, InOrder(shape), sub.n);
    }
  }

  lemma WithoutTop<K>(ctx: Context<K>, sub: Shape<K>) returns (pre: seq<Node<K>>, post: seq<Node<K>>)
    requires sub.Branch?
    ensures InOrder(Fill(ctx, sub)) == pre + [sub.n] + post && InOrder(Fill(ctx, Joined(sub.l, sub.r))) == pre + post
  {
    JoinedInOrder(sub.l, sub.r);
    FillInOrder(ctx, sub);
    FillInOrder(ctx, Joined(sub.l, sub.r));
    pre, post := Before(ctx) + InOrder(sub.l), InOrder(sub.r) + After(ctx);
    Spread(Before(ctx), InOrder(sub.l), sub.n, InOrder(sub.r), After(ctx));
  }

  lemma Spread<T>(a: seq<T>, l: seq<T>, n: T, r: seq<T>, b: seq<T>)
    ensures a + (l + [n] + r) + b == (a + l) + [n] + (r + b)
    ensures a + (l + r) + b == (a + l) + (r + b)
  {
  }

  lemma TakenOutInOrder<K(!new)>(cmp: (K, K) -> int, dom: iset<K>, ctx: Context<K>, sub: Shape<K>)
    requires Ordered(cmp, dom, InOrder(Fill(ctx, sub))) && sub.Branch?
    ensures var t, t' := Fill(ctx, sub), Fill(ctx, Joined(sub.l, sub.r));
            && Ordered(cmp, dom, InOrder(t')) && sub.n !in InOrder(t') && Inserted(InOrder(t'), sub.n, InOrder(t))
  {
    var pre, post := WithoutTop(ctx, sub);
    Shortened(cmp, dom, pre, sub.n, post);
    InsertedHere(pre, sub.n, post);
  }

  lemma TakenOut<K(!new)>(cmp: (K, K) -> int, dom: iset<K>, ctx: Context<K>, sub: Shape<K>)
    requires Ordered(cmp, dom, InOrder(Fill(ctx, sub))) && sub.Branch?
    ensures var t, t' := Fill(ctx, sub), Fill(ctx, Joined(sub.l, sub.r));
            && Ordered(cmp, dom, InOrder(t')) && NodesOf(t') == NodesOf(t) - {sub.n} && Inserted(InOrder(t'), sub.n, InOrder(t))
    ensures forall n :: n in InOrder(Joined(sub.l, sub.r)) ==> n in InOrder(sub)
    ensures Links(sub.l) + Links(sub.r) <= Links(sub) <= Links(Fill(ctx, sub))
  {
    TakenOutInOrder(cmp, dom, ctx, sub);
    JoinedInOrder(sub.l, sub.r);
    FillLinks(ctx, sub);
    FillNodes(ctx, sub);
    FillNodes(ctx, Joined(sub.l, sub.r));
    NodeInOrder(Fill(ctx, Joined(sub.l, sub.r)), sub.n);
  }

  /** The entries that erasing a node with two children leaves alone */
  ghost function EraseRest<K>(ctx: Context<K>, sub: Shape<K>, c: Context<K>, cur: Shape<K>): set<Children<K>>
    requires sub.Branch? && cur.Branch?
  {
    Links(sub.l) + Links(cur.r) + RestLinks(c) + RestLinks(ctx) + ParentLink(ctx, Ptr(sub))
  }

  lemma JoinedLinks<K>(sub: Shape<K>, c: Context<K>, cur: Shape<K>)
    requires sub.Branch? && sub.l.Branch? && FirstAt(sub.r, c, cur) && cur.l == Leaf
    ensures Joined(sub.l, sub.r) == Branch(sub.l, cur.n, Fill(c, cur.r))
    ensures Ptr(Fill(c, cur.r)) == if c.Top? then Ptr(cur.r) else Ptr(sub.r)
    ensures Links(Joined(sub.l, sub.r)) ==
            Links(sub.l) + {Children(cur.n, Ptr(sub.l), Ptr(Fill(c, cur.r)))} + Links(cur.r) + ParentLink(c, Ptr(cur.r)) + RestLinks(c)
    ensures Links(sub.r) == Links(cur) + ParentLink(c, cur.n) + RestLinks(c)
    ensures Children(cur.n, null, Ptr(cur.r)) in Links(cur) && Links(cur.r) <= Links(cur)
  {
    RehangLinks(c, cur, cur.r);
    assert Links(cur) == Links(cur.l) + {Children(cur.n, Ptr(cur.l), Ptr(cur.r))} + Links(cur.r);
  }

  /** The nodes of a subtree are apart: its left part, its top, and its right part. */
  lemma HalvesApart<K(!new)>(cmp: (K, K) -> int, dom: iset<K>, sub: Shape<K>, x: Node<K>)
    requires sub.Branch? && Ordered(cmp, dom, InOrder(sub)) && x in InOrder(sub.r)
    ensures x != sub.n && x !in InOrder(sub.l) && x in InOrder(sub) && Ordered(cmp, dom, InOrder(sub.r))
    ensures forall k :: k in Links(sub.l) ==> k.n != x
  {
    var pre := InOrder(sub.l) + [sub.n];
    assert InOrder(sub) == pre + InOrder(sub.r) + [];
    MidApart(cmp, dom, pre, InOrder(sub.r), []);
    assert sub.n in pre;
    NodesInOrder(sub.l);
  }

  lemma EraseApart<K(!new)>(cmp: (K, K) -> int, dom: iset<K>, ctx: Context<K>, sub: Shape<K>, c: Context<K>, cur: Shape<K>)
    requires Ordered(cmp, dom, InOrder(Fill(ctx, sub))) && sub.Branch? && sub.l.Branch? && FirstAt(sub.r, c, cur) && cur.l == Leaf
    ensures var y, p := cur.n, Parent(c);
            && y != p && y != sub.n && p != sub.n && y in InOrder(sub) && (p != null ==> p in InOrder(sub))
            && (forall k :: k in EraseRest(ctx, sub, c, cur) ==> k.n != y && k.n != p)
  {
    assert Ordered(cmp, dom, InOrder(sub)) by {
      FillInOrder(ctx, sub);
      MidApart(cmp, dom, Before(ctx), InOrder(sub), After(ctx));
    }
    InnerApart(cmp, dom, sub, c, cur);
    OutsideApart(cmp, dom, ctx, sub, cur.n);
    if Parent(c) != null {
      OutsideApart(cmp, dom, ctx, sub, Parent(c));
    }
  }

  /** All that taking a node with two children out relies on. */
  lemma ReadyToErase<K(!new)>(cmp: (K, K) -> int, dom: iset<K>, ctx: Context<K>, sub: Shape<K>, c: Context<K>, cur: Shape<K>)
    requires Ordered(cmp, dom, InOrder(Fill(ctx, sub))) && sub.Branch? && sub.l.Branch? && FirstAt(sub.r, c, cur) && cur.l == Leaf
    ensures var t, y, p := Fill(ctx, sub), cur.n, Parent(c);
            && y != p && y != sub.n && p != sub.n && y in NodesOf(t) && (p != null ==> p in NodesOf(t))
            && Children(y, null, Ptr(cur.r)) in Links(t)
            && (p != null ==> ParentLink(c, y) <= Links(t) && c.LeftOf? && Ptr(Fill(c, cur.r)) == Ptr(sub.r))
            && (p == null ==> c == Top && y == Ptr(sub.r))
            && EraseRest(ctx, sub, c, cur) <= Links(t)
            && (forall k :: k in EraseRest(ctx, sub, c, cur) ==> k.n != y && k.n != p)
    ensures var s' := Joined(sub.l, sub.r);
            && s' == Branch(sub.l, cur.n, Fill(c, cur.r)) && Ordered(cmp, dom, InOrder(Fill(ctx, s')))
            && (forall n :: n in InOrder(s') ==> n in InOrder(sub))
            && Links(s') <= EraseRest(ctx, sub, c, cur) + ParentLink(c, Ptr(cur.r)) + {Children(cur.n, Ptr(sub.l), Ptr(Fill(c, cur.r)))}
  {
    TakenOut(cmp, dom, ctx, sub);
    RehangLinks(ctx, sub, sub);
    EraseApart(cmp, dom, ctx, sub, c, cur);
    JoinedLinks(sub, c, cur);
    FillNodes(ctx, sub);
    NodeInOrder(sub, cur.n);
    if Parent(c) != null {
      NodeInOrder(sub, Parent(c));
    }
  }

  /** Inside the subtree: the successor y and its parent p are apart from all that keeps its pointers. */
  lemma InnerApart<K(!new)>(cmp: (K, K) -> int, dom: iset<K>, sub: Shape<K>, c: Context<K>, cur: Shape<K>)
    requires Ordered(cmp, dom, InOrder(sub)) && sub.Branch? && FirstAt(sub.r, c, cur) && cur.l == Leaf
    ensures var y, p := cur.n, Parent(c);
            && y != p && y != sub.n && p != sub.n && y in InOrder(sub) && (p != null ==> p in InOrder(sub))
            && (forall k :: k in Links(sub.l) + Links(cur.r) + RestLinks(c) ==> k.n != y && k.n != p)
  {
    var y := cur.n;
    assert y in InOrder(cur);
    FillInOrder(c, cur);
    assert y in InOrder(sub.r);
    HalvesApart(cmp, dom, sub, y);
    HoleApart(cmp, dom, c, cur);
    FirstApart(cmp, dom, c, cur);
    if Parent(c) != null {
      HalvesApart(cmp, dom, sub, Parent(c));
    }
  }

  lemma FirstApart<K(!new)>(cmp: (K, K) -> int, dom: iset<K>, c: Context<K>, cur: Shape<K>)
    requires Ordered(cmp, dom, InOrder(Fill(c, cur))) && cur.Branch?
    ensures forall k :: k in Links(cur.r) ==> k.n != cur.n && k.n != Parent(c)
  {
    FillInOrder(c, cur);
    MidApart(cmp, dom, Before(c), InOrder(cur), After(c));
    AppearsOnce(cmp, dom, InOrder(cur.l), cur.n, InOrder(cur.r));
    HoleApart(cmp, dom, c, cur);
    NodesInOrder(cur.r);
  }

  /** A rotation in the hole of ctx keeps nodes and order. */
  lemma Turning<K(!new)>(cmp: (K, K) -> int, dom: iset<K>, ctx: Context<K>, sub: Shape<K>)
    ensures InOrder(Fill(ctx, RotatedLeft(sub))) == InOrder(Fill(ctx, sub)) == InOrder(Fill(ctx, RotatedRight(sub)))
    ensures NodesOf(Fill(ctx, RotatedLeft(sub))) == NodesOf(Fill(ctx, sub)) == NodesOf(Fill(ctx, RotatedRight(sub)))
    ensures forall n :: n in InOrder(RotatedLeft(sub)) || n in InOrder(RotatedRight(sub)) ==> n in InOrder(sub)
  {
    RotatedKeeps(sub);
    FillInOrder(ctx, sub);
    FillInOrder(ctx, RotatedLeft(sub));
    FillInOrder(ctx, RotatedRight(sub));
    FillNodes(ctx, sub);
    FillNodes(ctx, RotatedLeft(sub));
    FillNodes(ctx, RotatedRight(sub));
  }

  /** The two forms of a rotated subtree */
  ghost predicate TwoNodes<K>(sub: Shape<K>, a: Shape<K>, x: Node<K>, b: Shape<K>, y: Node<K>, c: Shape<K>) {
    && InOrder(sub) == InOrder(a) + [x] + InOrder(b) + [y] + InOrder(c)
    && Links(a) + Links(b) + Links(c) <= Links(sub)
  }

  lemma TwoForms<K>(a: Shape<K>, x: Node<K>, b: Shape<K>, y: Node<K>, c: Shape<K>)
    ensures TwoNodes(Branch(a, x, Branch(b, y, c)), a, x, b, y, c)
    ensures TwoNodes(Branch(Branch(a, x, b), y, c), a, x, b, y, c)
  {
    var low, top := Branch(b, y, c), Branch(a, x, b);
    assert InOrder(low) == InOrder(b) + [y] + InOrder(c) && InOrder(top) == InOrder(a) + [x] + InOrder(b);
    assert InOrder(Branch(a, x, low)) == InOrder(a) + [x] + InOrder(low) == InOrder(a) + [x] + InOrder(b) + [y] + InOrder(c);
    assert InOrder(Branch(top, y, c)) == InOrder(top) + [y] + InOrder(c);
    assert Links(Branch(a, x, low)) == Links(a) + {Children(x, Ptr(a), Ptr(low))} + Links(low);
    assert Links(Branch(top, y, c)) == Links(top) + {Children(y, Ptr(top), Ptr(c))} + Links(c);
  }

  lemma TwoApartIn<K(!new)>(cmp: (K, K) -> int, dom: iset<K>, ctx: Context<K>, a: Shape<K>, x: Node<K>, b: Shape<K>, y: Node<K>, c: Shape<K>, sub: Shape<K>)
    requires Ordered(cmp, dom, InOrder(Fill(ctx, sub))) && TwoNodes(sub, a, x, b, y, c)
    ensures x != y && x in InOrder(sub) && y in InOrder(sub)
    ensures x !in InOrder(a) && x !in InOrder(b) && x !in InOrder(c)
    ensures y !in InOrder(a) && y !in InOrder(b) && y !in InOrder(c)
  {
    FillInOrder(ctx, sub);
    MidApart(cmp, dom, Before(ctx), InOrder(sub), After(ctx));
    TwoApart(cmp, dom, InOrder(a), x, InOrder(b), y, InOrder(c));
  }

  lemma EntriesApart<K>(a: Shape<K>, x: Node<K>, y: Node<K>)
    requires x !in InOrder(a) && y !in InOrder(a)
    ensures forall k :: k in Links(a) ==> k.n != x && k.n != y
  {
    NodesInOrder(a);
  }

  /** A node below the hole has no entry outside it. */
  lemma OutsideApart<K(!new)>(cmp: (K, K) -> int, dom: iset<K>, ctx: Context<K>, sub: Shape<K>, x: Node<K>)
    requires Ordered(cmp, dom, InOrder(Fill(ctx, sub))) && x in InOrder(sub)
    ensures forall k :: k in RestLinks(ctx) + ParentLink(ctx, Ptr(sub)) ==> k.n != x
  {
    HoleApart(cmp, dom, ctx, sub);
  }

  /** The pointers that a rotation leaves alone */
  ghost function TurnRest<K>(ctx: Context<K>, a: Shape<K>, b: Shape<K>, c: Shape<K>, p: Node?<K>): set<Children<K>> {
    Links(a) + Links(b) + Links(c) + RestLinks(ctx) + ParentLink(ctx, p)
  }

  /** ... and the two that it sets */
  lemma TurnSets<K>(ctx: Context<K>, a: Shape<K>, x: Node<K>, b: Shape<K>, y: Node<K>, c: Shape<K>)
    ensures forall k :: k in Links(Branch(Branch(a, x, b), y, c)) ==>
              k == Children(x, Ptr(a), Ptr(b)) || k == Children(y, x, Ptr(c)) || k in Links(a) + Links(b) + Links(c)
    ensures forall k :: k in Links(Branch(a, x, Branch(b, y, c))) ==>
              k == Children(x, Ptr(a), y) || k == Children(y, Ptr(b), Ptr(c)) || k in Links(a) + Links(b) + Links(c)
  {
  }

  /** The two nodes of a rotation are apart from each other and from everything else in the tree. */
  lemma TurnLinks<K(!new)>(cmp: (K, K) -> int, dom: iset<K>, ctx: Context<K>, a: Shape<K>, x: Node<K>, b: Shape<K>, y: Node<K>, c: Shape<K>, sub: Shape<K>)
    requires Ordered(cmp, dom, InOrder(Fill(ctx, sub))) && TwoNodes(sub, a, x, b, y, c)
    ensures x != y && x in NodesOf(Fill(ctx, sub)) && y in NodesOf(Fill(ctx, sub))
    ensures forall k :: k in TurnRest(ctx, a, b, c, Ptr(sub)) ==> k.n != x && k.n != y
    ensures TurnRest(ctx, a, b, c, Ptr(sub)) <= Links(Fill(ctx, sub)) && Links(sub) <= Links(Fill(ctx, sub))
  {
    TwoApartIn(cmp, dom, ctx, a, x, b, y, c, sub);
    TurnRestApart(cmp, dom, ctx, a, x, b, y, c, sub);
    RehangLinks(ctx, sub, sub);
    NodeInOrder(sub, x);
    NodeInOrder(sub, y);
    FillNodes(ctx, sub);
  }

  /** All that a rotation of sub in the hole of ctx relies on. */
  lemma ReadyToTurn<K(!new)>(cmp: (K, K) -> int, dom: iset<K>, ctx: Context<K>, a: Shape<K>, x: Node<K>, b: Shape<K>, y: Node<K>, c: Shape<K>, sub: Shape<K>)
    requires Ordered(cmp, dom, InOrder(Fill(ctx, sub)))
    requires sub == Branch(a, x, Branch(b, y, c)) || sub == Branch(Branch(a, x, b), y, c)
    ensures var sub' := if sub.n == x then RotatedLeft(sub) else RotatedRight(sub);
            && sub' == (if sub.n == x then Branch(Branch(a, x, b), y, c) else Branch(a, x, Branch(b, y, c)))
            && InOrder(Fill(ctx, sub')) == InOrder(Fill(ctx, sub)) && NodesOf(Fill(ctx, sub')) == NodesOf(Fill(ctx, sub))
            && (forall n :: n in InOrder(sub') ==> n in InOrder(sub))
            && (forall k :: k in Links(sub') ==>
                  || k in Links(a) + Links(b) + Links(c)
                  || k == Children(x, Ptr(a), if sub.n == x then Ptr(b) else y)
                  || k == Children(y, if sub.n == x then x else Ptr(b), Ptr(c)))
    ensures x != y && x in NodesOf(Fill(ctx, sub)) && y in NodesOf(Fill(ctx, sub))
    ensures forall k :: k in TurnRest(ctx, a, b, c, Ptr(sub)) ==> k.n != x && k.n != y
    ensures TurnRest(ctx, a, b, c, Ptr(sub)) <= Links(Fill(ctx, sub)) && Links(sub) <= Links(Fill(ctx, sub))
  {
    TwoForms(a, x, b, y, c);
    TurnLinks(cmp, dom, ctx, a, x, b, y, c, sub);
    Turning(cmp, dom, ctx, sub);
    TurnSets(ctx, a, x, b, y, c);
  }

  lemma TurnRestApart<K(!new)>(cmp: (K, K) -> int, dom: iset<K>, ctx: Context<K>, a: Shape<K>, x: Node<K>, b: Shape<K>, y: Node<K>, c: Shape<K>, sub: Shape<K>)
    requires Ordered(cmp, dom, InOrder(Fill(ctx, sub))) && x in InOrder(sub) && y in InOrder(sub)
    requires x !in InOrder(a) && x !in InOrder(b) && x !in InOrder(c)
    requires y !in InOrder(a) && y !in InOrder(b) && y !in InOrder(c)
    ensures forall k :: k in TurnRest(ctx, a, b, c, Ptr(sub)) ==> k.n != x && k.n != y
  {
    OutsideApart(cmp, dom, ctx, sub, x);
    OutsideApart(cmp, dom, ctx, sub, y);
    EntriesApart(a, x, y);
    EntriesApart(b, x, y);
    EntriesApart(c, x, y);
  }

  /** In a sorted sequence at most one node is equivalent to a key. */
  lemma OnlyOne<K(!new)>(cmp: (K, K) -> int, dom: iset<K>, key: K, ns: seq<Node<K>>, n: Node<K>)
    requires WeakOrder(cmp, dom) && key in dom && Sorted(cmp, ns) && n in ns && cmp(key, n.key) == 0
    requires forall x :: x in ns ==> x.key in dom
    ensures OnlyMatch(cmp, key, ns, n)
  {
    forall x | x in ns && cmp(key, x.key) == 0 ensures x == n {
      assert Laws(cmp, key, n.key, key) && Laws(cmp, n.key, key, x.key) && Laws(cmp, n.key, key, key) && Laws(cmp, x.key, n.key, key);
      var i :| 0 <= i < |ns| && ns[i] == n;
      var j :| 0 <= j < |ns| && ns[j] == x;
      assert Precedes(cmp, ns, i, j) && Precedes(cmp, ns, j, i);
    }
  }
}
