/**
 The per-CPU tree of QPs of a listener (tcpsplit/rb_data_tree.h, add_rb_data): the search tree with
 strncmp over the 12-byte key.
 */
module QpTree {
  import opened KeyOrder
  import opened SearchTree

  ghost predicate IsQpTree(root: Root<seq<Byte>>)
    reads root, root.Nodes()
  {
    root.Valid() && root.cmp == Strncmp && root.dom == KeysOf(RB_KEY_LENGTH)
  }

  method NewQpTree() returns (root: Root<seq<Byte>>)
    ensures fresh(root) && IsQpTree(root) && InOrder(root.shape) == []
  {
    StrncmpOrders(RB_KEY_LENGTH);
    root := new Root<seq<Byte>>(Strncmp, KeysOf(RB_KEY_LENGTH));
  }

  /** add_rb_data: the node that agrees with data up to the first zero byte, if there is one, in an
      unchanged tree; otherwise null, and data is in the tree.  A node that is returned has the very same
      key when no byte of the key before the last one is zero. */
  method AddRbData(root: Root<seq<Byte>>, data: Node<seq<Byte>>) returns (r: Node?<seq<Byte>>)
    requires IsQpTree(root) && |data.key| == RB_KEY_LENGTH && data !in root.Nodes()
    modifies root, data, root.Nodes()
    ensures IsQpTree(root)
    ensures r != null ==> r in InOrder(root.shape) && Seen(r.key) == Seen(data.key) && root.shape == old(root.shape)
    ensures r != null && 0 !in data.key[..RB_KEY_LENGTH - 1] ==> r.key == data.key
    ensures r == null ==> Inserted(old(InOrder(root.shape)), data, InOrder(root.shape))
    ensures r == null ==> forall n :: n in old(InOrder(root.shape)) ==> Seen(n.key) != Seen(data.key)
  {
    ghost var before := InOrder(root.shape);
    r := root.Add(data);
    if r == null {
      forall n | n in before ensures Seen(n.key) != Seen(data.key) {
        assert root.cmp(data.key, n.key) == Strncmp(data.key, n.key);
        StrncmpSign(data.key, n.key);
      }
    } else {
      assert root.cmp(data.key, r.key) == Strncmp(data.key, r.key);
      StrncmpSign(data.key, r.key);
      if 0 !in data.key[..RB_KEY_LENGTH - 1] {
        SeenWhole(data.key, r.key);
      }
    }
  }
}
