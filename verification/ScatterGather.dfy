/**
 The zero-copy scatter-gather of patch 0018 (net/core/datagram.c as changed by
 kernel_client/zcopy_patches/0018-skb_zerocopy_sg_from_iter.patch): the remaining entries of an iterator
 over kernel memory become page fragments of a packet, without copying.
 */
module ScatterGather {

  const PAGE_SIZE: nat := 4096
  const MAX_SKB_FRAGS: nat := 17
  const EMSGSIZE: int := 90

  datatype Kvec = Kvec(base: nat, len: nat)

  datatype Frag = Frag(page: nat, offset: nat, size: nat)

  /** The addresses of len bytes from base on. */
  function Run(base: nat, len: nat): (r: seq<nat>)
    ensures |r| == len
  {
    seq(len, i requires 0 <= i => base + i)
  }

  /** The bytes that an iterator still has, as addresses. */
  function Addrs(ks: seq<Kvec>): seq<nat> {
    if ks == [] then [] else Run(ks[0].base, ks[0].len) + Addrs(ks[1..])
  }

  /** The bytes that fragments describe. */
  function FragAddrs(fs: seq<Frag>): seq<nat> {
    var n := |fs|;
    if n == 0 then [] else FragAddrs(fs[..n - 1]) + Run(fs[n - 1].page * PAGE_SIZE + fs[n - 1].offset, fs[n - 1].size)
  }

  function Min(a: nat, b: nat): nat { if a < b then a else b }

  /** How many fragments it takes to use up len bytes: an entry without bytes takes one too. */
  function Needed(ks: seq<Kvec>, len: nat): nat {
    if len == 0 || Addrs(ks) == [] then 0
    else if ks[0].len <= len then 1 + Needed(ks[1..], len - ks[0].len)
    else 1
  }

  /** One fragment for each entry is always enough ... */
  lemma {:induction false} NeededAtMost(ks: seq<Kvec>, len: nat)
    ensures Needed(ks, len) <= |ks|
  {
    if ks != [] && ks[0].len <= len {
      NeededAtMost(ks[1..], len - ks[0].len);
    }
  }

  /** ... and entries without bytes in front of the data do use up fragments. */
  lemma {:induction false} EmptyEntriesCost(ks: seq<Kvec>, empty: seq<Kvec>, len: nat)
    requires len > 0 && Addrs(ks) != [] && forall i :: 0 <= i < |empty| ==> empty[i].len == 0
    ensures Addrs(empty + ks) == Addrs(ks) && Needed(empty + ks, len) == |empty| + Needed(ks, len)
  {
    if empty == [] {
      assert empty + ks == ks;
    } else {
      assert (empty + ks)[1..] == empty[1..] + ks && (empty + ks)[0] == empty[0];
      EmptyEntriesCost(ks, empty[1..], len);
      assert empty[0].len == 0 && Run(empty[0].base, 0) == [];
    }
  }

  lemma RunSplit(base: nat, a: nat, b: nat)
    ensures Run(base, a + b) == Run(base, a) + Run(base + a, b)
  {
  }

  /** The entries from i up to j have been used up and cleared, and only they and the j-th, which may be used
      up in part, have been touched. */
  ghost predicate Consumed(before: seq<Kvec>, i: nat, after: seq<Kvec>, j: nat) {
    && i <= j && |after| == |before|
    && (forall k :: i <= k < j && k < |after| ==> after[k] == Kvec(0, 0))
    && (forall k :: 0 <= k < |after| && (k < i || j < k) ==> after[k] == before[k])
  }

  lemma ConsumedOn(a: seq<Kvec>, i: nat, b: seq<Kvec>, j: nat, c: seq<Kvec>, k: nat)
    requires Consumed(a, i, b, j) && Consumed(b, j, c, k)
    ensures Consumed(a, i, c, k)
  {
  }

  /** struct iov_iter over an array of struct kvec; iov_offset is used as an index into it. */
  class IovIter {
    const kvec: array<Kvec>
    var iovOffset: nat
    var count: nat

    ghost predicate Valid()
      reads this, kvec
    {
      iovOffset <= kvec.Length && count == |Addrs(kvec[iovOffset..])|
    }

    ghost function Rest(): seq<Kvec>
      reads this, kvec
      requires iovOffset <= kvec.Length
    {
      kvec[iovOffset..]
    }

    constructor (k: array<Kvec>, c: nat)
      requires c == |Addrs(k[..])|
      ensures Valid() && kvec == k && iovOffset == 0
    {
      kvec, iovOffset, count := k, 0, c;
      assert k[0..] == k[..];
    }

    /** kvec_get_frag_advance */
    method GetFragAdvance(len: nat) returns (page: nat, off: nat, copied: nat)
      requires Valid() && iovOffset < kvec.Length && len > 0 && count > 0
      modifies this, kvec
      ensures Valid() && off < PAGE_SIZE
      ensures copied == Min(len, old(kvec[iovOffset].len))
      ensures Run(page * PAGE_SIZE + off, copied) + Addrs(Rest()) == old(Addrs(Rest()))
      ensures count == old(count) - copied
      ensures 1 + Needed(Rest(), len - copied) == old(Needed(Rest(), len))
      ensures copied < len ==> iovOffset == old(iovOffset) + 1
      ensures Consumed(old(kvec[..]), old(iovOffset), kvec[..], iovOffset)
    {
      ghost var rest := Rest();
      var entry := kvec[iovOffset];
      page, off := entry.base / PAGE_SIZE, entry.base % PAGE_SIZE;
      assert page * PAGE_SIZE + off == entry.base;
      assert rest[0] == entry;
      if len >= entry.len {
        copied := entry.len;
        kvec[iovOffset] := Kvec(0, 0);
        iovOffset := iovOffset + 1;
        assert kvec[iovOffset..] == rest[1..];
      } else {
        copied := len;
        kvec[iovOffset] := Kvec(entry.base + copied, entry.len - copied);
        assert kvec[iovOffset..] == [Kvec(entry.base + copied, entry.len - copied)] + rest[1..];
        RunSplit(entry.base, copied, entry.len - copied);
      }
      count := count - copied;
    }
  }

  /** sk_wmem_queued, sk_forward_alloc and sk_wmem_alloc of a socket */
  datatype Account = Account(queued: int, forward: int, alloc: int)

  /** struct sock: its type and what it is charged */
  class Sock {
    const stream: bool
    var wmemQueued: int
    var forwardAlloc: int
    var wmemAlloc: int

    ghost function Acc(): Account
      reads this
    {
      Account(wmemQueued, forwardAlloc, wmemAlloc)
    }

    constructor (s: bool)
      ensures stream == s && wmemQueued == forwardAlloc == wmemAlloc == 0
    {
      stream, wmemQueued, forwardAlloc, wmemAlloc := s, 0, 0, 0;
    }
  }

  /** struct sk_buff */
  class SkBuff {
    const sk: Sock?
    var frags: seq<Frag>
    var len: nat
    var dataLen: nat
    var truesize: nat

    constructor (s: Sock?)
      ensures sk == s && frags == [] && len == dataLen == truesize == 0
    {
      sk, frags, len, dataLen, truesize := s, [], 0, 0, 0;
    }

    /** skb_fill_page_desc for the next fragment */
    method FillPageDesc(page: nat, offset: nat, size: nat)
      requires |frags| < MAX_SKB_FRAGS
      modifies this`frags
      ensures frags == old(frags) + [Frag(page, offset, size)]
      ensures FragAddrs(frags) == old(FragAddrs(frags)) + Run(page * PAGE_SIZE + offset, size)
    {
      ghost var before := frags;
      frags := frags + [Frag(page, offset, size)];
      assert frags[..|frags| - 1] == before;
    }

    /** Who pays for the bytes: a stream socket passed in, or the socket of the packet */
    function Payer(s: Sock?): Sock
      requires (s != null && s.stream) || sk != null
    {
      if s != null && s.stream then s else sk
    }

    method Charge(s: Sock?, bytes: nat)
      requires (s != null && s.stream) || sk != null
      modifies Payer(s)
      ensures Payer(s).Acc() == Paid(old(Payer(s).Acc()), Payer(s) == s && s.stream, bytes)
    {
      if s != null && s.stream {
        s.wmemQueued := s.wmemQueued + bytes;
        s.forwardAlloc := s.forwardAlloc - bytes;
      } else {
        sk.wmemAlloc := sk.wmemAlloc + bytes;
      }
    }

    /** The packet's part of one turn of the loop: it grows by a fragment, and somebody is charged for it. */
    method Grow(s: Sock?, page: nat, offset: nat, copied: nat)
      requires |frags| < MAX_SKB_FRAGS && ((s != null && s.stream) || sk != null)
      modifies this, Payer(s)
      ensures frags == old(frags) + [Frag(page, offset, copied)]
      ensures FragAddrs(frags) == old(FragAddrs(frags)) + Run(page * PAGE_SIZE + offset, copied)
      ensures len == old(len) + copied && dataLen == old(dataLen) + copied && truesize == old(truesize) + copied
      ensures Payer(s).Acc() == Paid(old(Payer(s).Acc()), Payer(s) == s && s.stream, copied)
    {
      dataLen := dataLen + copied;
      len := len + copied;
      truesize := truesize + copied;
      Charge(s, copied);
      FillPageDesc(page, offset, copied);
    }
  }

  /** A stream socket that was passed in is charged in what it has queued and in its forward allocation, a
      packet's own socket in its write allocation, and neither in anything else. */
  function Paid(a: Account, stream: bool, n: int): Account {
    if stream then Account(a.queued + n, a.forward - n, a.alloc) else Account(a.queued, a.forward, a.alloc + n)
  }

  /** The fragments from k on begin inside their pages. */
  ghost predicate InPages(fs: seq<Frag>, k: nat) { forall j :: k <= j < |fs| ==> fs[j].offset < 4096 }

  lemma InPagesOn(fs: seq<Frag>, k: nat, fs': seq<Frag>)
    requires InPages(fs, k) && fs <= fs' && |fs'| == |fs| + 1 && fs'[|fs|].offset < PAGE_SIZE
    ensures InPages(fs', k)
  {
  }

  /** One turn of the loop: at most len bytes of the next entry become a fragment. */
  method TakeFrag(sk: Sock?, skb: SkBuff, from: IovIter, len: nat) returns (copied: nat)
    requires from.Valid() && |skb.frags| < MAX_SKB_FRAGS && len > 0 && from.count > 0
    requires (sk != null && sk.stream) || skb.sk != null
    modifies skb, from, from.kvec, skb.Payer(sk)
    ensures from.Valid() && |skb.frags| == |old(skb.frags)| + 1 && old(skb.frags) <= skb.frags
    ensures var frag := skb.frags[|old(skb.frags)|]; frag.size == copied && frag.offset < PAGE_SIZE
    ensures FragAddrs(skb.frags) + Addrs(from.Rest()) == old(FragAddrs(skb.frags) + Addrs(from.Rest()))
    ensures copied <= len && from.count == old(from.count) - copied
    ensures copied < len ==> from.iovOffset == old(from.iovOffset) + 1
    ensures skb.len == old(skb.len) + copied && skb.dataLen == old(skb.dataLen) + copied
    ensures skb.truesize == old(skb.truesize) + copied
    ensures skb.Payer(sk).Acc() == Paid(old(skb.Payer(sk).Acc()), skb.Payer(sk) == sk && sk.stream, copied)
    ensures Consumed(old(from.kvec[..]), old(from.iovOffset), from.kvec[..], from.iovOffset)
    ensures 1 + Needed(from.Rest(), len - copied) == old(Needed(from.Rest(), len))
  {
    assert from.Rest() != [];
    ghost var rest := Addrs(from.Rest());
    var page, offset;
    page, offset, copied := from.GetFragAdvance(len);
    ghost var left := from.Rest();
    skb.Grow(sk, page, offset, copied);
    assert from.Rest() == left;
  }

  /** skb_zerocopy_sg_from_iter */
  method ZerocopySgFromIter(sk: Sock?, skb: SkBuff, from: IovIter, length: nat) returns (rc: int)
    requires from.Valid() && |skb.frags| <= MAX_SKB_FRAGS
    requires (sk != null && sk.stream) || skb.sk != null
    modifies skb, from, from.kvec, skb.Payer(sk)
    ensures from.Valid() && |skb.frags| <= MAX_SKB_FRAGS && old(skb.frags) <= skb.frags
    // conservation: the new fragments, then what is left
    ensures FragAddrs(skb.frags) + Addrs(from.Rest()) == old(FragAddrs(skb.frags) + Addrs(from.Rest()))
    ensures var total: int := old(from.count) - from.count;
            && total >= 0 && |FragAddrs(skb.frags)| == |FragAddrs(old(skb.frags))| + total
            && skb.len == old(skb.len) + total && skb.dataLen == old(skb.dataLen) + total
            && skb.truesize == old(skb.truesize) + total
            && (rc == 0 ==> total == Min(length, old(from.count)))
            && (rc != 0 ==> rc == -90 && |skb.frags| == 17 && total < Min(length, old(from.count)))
            && skb.Payer(sk).Acc() == Paid(old(skb.Payer(sk).Acc()), skb.Payer(sk) == sk && sk.stream, total)
    // each new fragment begins inside its page
    ensures InPages(skb.frags, |old(skb.frags)|)
    ensures Consumed(old(from.kvec[..]), old(from.iovOffset), from.kvec[..], from.iovOffset)
    // exactly when the fragments do not suffice does it fail
    ensures rc == 0 <==> |old(skb.frags)| + old(Needed(from.Rest(), length)) <= 17
  {
    var frag := |skb.frags|;
    var len: nat := length;
    ghost var all := FragAddrs(skb.frags) + Addrs(from.Rest());
    ghost var fs, needed := skb.frags, Needed(from.Rest(), len);
    while len > 0 && from.count > 0
      invariant from.Valid() && frag == |skb.frags| <= MAX_SKB_FRAGS && fs <= skb.frags
      invariant FragAddrs(skb.frags) + Addrs(from.Rest()) == all
      invariant len <= length && length - len == old(from.count) - from.count
      invariant skb.len == old(skb.len) + length - len && skb.dataLen == old(skb.dataLen) + length - len
      invariant skb.truesize == old(skb.truesize) + length - len
      invariant skb.Payer(sk).Acc() == Paid(old(skb.Payer(sk).Acc()), skb.Payer(sk) == sk && sk.stream, length - len)
      invariant InPages(skb.frags, |fs|)
      invariant Consumed(old(from.kvec[..]), old(from.iovOffset), from.kvec[..], from.iovOffset)
      invariant needed == Needed(from.Rest(), len) && |fs| + old(Needed(from.Rest(), length)) == frag + needed
      decreases len, from.kvec.Length - from.iovOffset
    {
      if frag == MAX_SKB_FRAGS {
        return -EMSGSIZE;
      }
      ghost var before, i, frags := from.kvec[..], from.iovOffset, skb.frags;
      var copied := TakeFrag(sk, skb, from, len);
      ConsumedOn(old(from.kvec[..]), old(from.iovOffset), before, i, from.kvec[..], from.iovOffset);
      InPagesOn(frags, |fs|, skb.frags);
      needed := needed - 1;
      len := len - copied;
      frag := frag + 1;
    }
    return 0;
  }
}
