/**
 The two orders that the trees of the proxy are sorted by: strncmp over the 12-byte binary key of a QP
 (tcpsplit/rb_data_tree.h), and the sign of a wrapped 32-bit difference for listeners and
 pre-connections (tcpsplit/rb_data_tree.h and tcpsplit/preconn_rb_tree.h).
 */
module KeyOrder {

  /** The laws of an order for three keys: the sign is antisymmetric, < and == are transitive. */
  predicate Laws<K>(cmp: (K, K) -> int, a: K, b: K, c: K) {
    && (cmp(a, b) < 0 <==> cmp(b, a) > 0)
    && (cmp(a, b) < 0 && cmp(b, c) < 0 ==> cmp(a, c) < 0)
    && (cmp(a, b) == 0 && cmp(b, c) == 0 ==> cmp(a, c) == 0)
  }

  /** cmp orders the keys in s. */
  ghost predicate WeakOrder<K(!new)>(cmp: (K, K) -> int, s: iset<K>) {
    forall a, b, c {:trigger Laws(cmp, a, b, c)} :: a in s && b in s && c in s ==> Laws(cmp, a, b, c)
  }

  // ---------------------------------------------------------------- strncmp on binary keys

  type Byte = b: nat | b < 256

  /** strncmp over all bytes of two keys of the same length: unsigned bytes, stopping at a zero. */
  function Strncmp(a: seq<Byte>, b: seq<Byte>): int {
    if a == [] || b == [] then 0
    else if a[0] < b[0] then -1
    else if a[0] > b[0] then 1
    else if a[0] == 0 then 0
    else Strncmp(a[1..], b[1..])
  }

  /** The bytes before the first zero: all that strncmp sees of a key. */
  function Seen(a: seq<Byte>): seq<Byte> {
    if a == [] || a[0] == 0 then [] else [a[0]] + Seen(a[1..])
  }

  lemma {:induction false} StrncmpSign(a: seq<Byte>, b: seq<Byte>)
    requires |a| == |b|
    ensures Strncmp(a, b) == -Strncmp(b, a)
    ensures Strncmp(a, b) == 0 <==> Seen(a) == Seen(b)
  {
    if a != [] && a[0] == b[0] && a[0] != 0 {
      StrncmpSign(a[1..], b[1..]);
      assert Seen(a)[1..] == Seen(a[1..]) && Seen(b)[1..] == Seen(b[1..]);
    } else if a != [] && a[0] != b[0] {
      assert Seen(a) == [] || Seen(a)[0] == a[0];
      assert Seen(b) == [] || Seen(b)[0] == b[0];
    }
  }

  /** Where two keys differ for the first time, before any zero, the smaller byte makes the smaller key. */
  lemma {:induction false} StrncmpFirst(a: seq<Byte>, b: seq<Byte>, i: nat)
    requires i < |a| == |b| && a[..i] == b[..i] && 0 !in a[..i] && a[i] != b[i]
    ensures Strncmp(a, b) < 0 <==> a[i] < b[i]
    ensures Strncmp(a, b) > 0 <==> a[i] > b[i]
  {
    if i > 0 {
      assert a[0] == a[..i][0] == b[..i][0] == b[0] && a[0] in a[..i];
      assert a[1..][..i - 1] == a[..i][1..] == b[..i][1..] == b[1..][..i - 1];
      StrncmpFirst(a[1..], b[1..], i - 1);
    }
  }

  lemma {:induction false} StrncmpTransitive(a: seq<Byte>, b: seq<Byte>, c: seq<Byte>)
    requires |a| == |b| == |c| && Strncmp(a, b) < 0 && Strncmp(b, c) < 0
    ensures Strncmp(a, c) < 0
  {
    if a != [] && a[0] == b[0] == c[0] && a[0] != 0 {
      StrncmpTransitive(a[1..], b[1..], c[1..]);
    }
  }

  /** The bytes in the key of a QP */
  const RB_KEY_LENGTH := 12

  ghost function KeysOf(n: nat): iset<seq<Byte>> { iset a: seq<Byte> | |a| == n }

  /** strncmp is a weak order on the binary keys of any one length; two keys are equivalent when they
      agree up to the first zero byte. */
  lemma StrncmpOrders(n: nat)
    ensures WeakOrder(Strncmp, KeysOf(n))
  {
    forall a: seq<Byte>, b: seq<Byte>, c: seq<Byte> | a in KeysOf(n) && b in KeysOf(n) && c in KeysOf(n)
      ensures Laws(Strncmp, a, b, c)
    {
      StrncmpSign(a, b);
      StrncmpSign(b, c);
      StrncmpSign(a, c);
      if Strncmp(a, b) < 0 && Strncmp(b, c) < 0 {
        StrncmpTransitive(a, b, c);
      }
    }
  }

  /** The key is told apart from every other key. */
  ghost predicate Unique(a: seq<Byte>) {
    forall b: seq<Byte> :: |b| == |a| && Strncmp(a, b) == 0 ==> b == a
  }

  lemma {:induction false} SeenWhole(a: seq<Byte>, b: seq<Byte>)
    requires |a| == |b| && a != [] && 0 !in a[..|a| - 1] && Seen(a) == Seen(b)
    ensures a == b
  {
    if |a| == 1 {
      assert Seen(a[1..]) == Seen(b[1..]) == [];
      assert a == [a[0]] && b == [b[0]];
    } else {
      assert a[0] in a[..|a| - 1];
      assert Seen(a)[0] == a[0] && Seen(b)[0] == b[0];
      assert Seen(a)[1..] == Seen(a[1..]) && Seen(b)[1..] == Seen(b[1..]);
      assert a[1..][..|a| - 2] == a[..|a| - 1][1..];
      SeenWhole(a[1..], b[1..]);
      assert a == [a[0]] + a[1..] && b == [b[0]] + b[1..];
    }
  }

  /** Changing what follows a zero byte is not seen. */
  lemma {:induction false} SeenStops(a: seq<Byte>, b: seq<Byte>, z: nat)
    requires |a| == |b| && z < |a| && a[z] == 0 && a[..z + 1] == b[..z + 1]
    ensures Seen(a) == Seen(b)
  {
    assert a[0] == a[..z + 1][0] == b[0];
    assert b[z] == b[..z + 1][z];
    if a[0] != 0 {
      assert a[1..][..z] == a[..z + 1][1..] == b[..z + 1][1..] == b[1..][..z];
      SeenStops(a[1..], b[1..], z - 1);
    }
  }

  /** Exactly the keys without a zero byte before their last byte are told apart from all others. */
  lemma UniqueIff(a: seq<Byte>)
    requires a != []
    ensures Unique(a) <==> 0 !in a[..|a| - 1]
  {
    var n := |a| - 1;
    if 0 !in a[..n] {
      forall b: seq<Byte> | |b| == |a| && Strncmp(a, b) == 0 ensures b == a {
        StrncmpSign(a, b);
        SeenWhole(a, b);
      }
    } else {
      var z :| 0 <= z < n && a[..n][z] == 0;
      var b := a[n := if a[n] == 0 then 1 else 0];
      SeenStops(a, b, z);
      StrncmpSign(a, b);
      assert b[n] != a[n];
    }
  }

  // ---------------------------------------------------------------- wrapped differences

  const TWO31: int := 0x8000_0000
  const TWO32: int := 0x1_0000_0000

  type Int32 = x: int | -0x8000_0000 <= x < 0x8000_0000

  /** int32_t result = a - b, with the difference wrapped to 32 bits. */
  function WrapDiff(a: Int32, b: Int32): int {
    var d := a - b;
    if d < -TWO31 then d + TWO32 else if d < TWO31 then d else d - TWO32
  }

  /** How far x lies after m on the circle of 32-bit numbers. */
  function Ahead(x: Int32, m: Int32): nat { if x < m then x - m + TWO32 else x - m }

  /** All keys lie in the half of the circle that begins with m. */
  ghost predicate From(s: set<Int32>, m: Int32) { forall x :: x in s ==> Ahead(x, m) < TWO31 }

  /** All keys lie in one half of the circle, beginning with one of them. */
  ghost predicate HalfCircle(s: set<Int32>) {
    s == {} || exists m :: m in s && From(s, m)
  }

  /** Two different keys compare, one way only, and < is transitive. */
  predicate Ranked(a: Int32, b: Int32, c: Int32) {
    && (a != b ==> (WrapDiff(a, b) < 0) != (WrapDiff(b, a) < 0))
    && (WrapDiff(a, b) < 0 && WrapDiff(b, c) < 0 ==> WrapDiff(a, c) < 0)
  }

  /** The sign of the wrapped difference is a strict total order on s. */
  ghost predicate TotalOrder(s: set<Int32>) {
    forall a, b, c {:trigger Ranked(a, b, c)} :: a in s && b in s && c in s ==> Ranked(a, b, c)
  }

  /** Inside a half circle the wrapped difference is the difference of the distances. */
  lemma WrapIsDistance(a: Int32, b: Int32, m: Int32)
    requires Ahead(a, m) < TWO31 && Ahead(b, m) < TWO31
    ensures WrapDiff(a, b) == Ahead(a, m) - Ahead(b, m)
    ensures WrapDiff(a, b) == 0 <==> a == b
  {
  }

  /** A finite set in strict total order has a least key. */
  lemma {:induction false} Least(s: set<Int32>) returns (m: Int32)
    requires TotalOrder(s) && s != {}
    ensures m in s && forall x :: x in s && x != m ==> WrapDiff(m, x) < 0
    decreases |s|
  {
    var y :| y in s;
    var rest := s - {y};
    if rest == {} {
      assert s == {y};
      m := y;
    } else {
      var m' := Least(rest);
      assert Ranked(m', y, y);
      m := if WrapDiff(m', y) < 0 then m' else y;
      forall x | x in s && x != m ensures WrapDiff(m, x) < 0 {
        assert x == y || x in rest;
        assert Ranked(y, m', x);
      }
    }
  }

  lemma HalfCircleIsOrdered(s: set<Int32>, m: Int32)
    requires From(s, m)
    ensures TotalOrder(s)
  {
    forall a, b, c | a in s && b in s && c in s ensures Ranked(a, b, c) {
      WrapSign(a, b, m);
      WrapSign(b, c, m);
      WrapSign(a, c, m);
      WrapIsDistance(a, b, m);
    }
  }

  lemma AfterLeast(m: Int32, x: Int32)
    requires WrapDiff(m, x) < 0 && Ranked(m, x, x)
    ensures Ahead(x, m) < TWO31
  {
  }

  /** The sign of the wrapped difference is a strict total order on a finite set of keys exactly when
      the keys lie in one half of the 32-bit circle. */
  lemma TotalOrderIff(s: set<Int32>)
    ensures TotalOrder(s) <==> HalfCircle(s)
  {
    if HalfCircle(s) && s != {} {
      var m :| m in s && From(s, m);
      HalfCircleIsOrdered(s, m);
    }
    if TotalOrder(s) && s != {} {
      var m := Least(s);
      forall x | x in s ensures Ahead(x, m) < TWO31 {
        if x != m {
          assert Ranked(m, x, x);
          AfterLeast(m, x);
        }
      }
    }
  }

  /** Keys that span less than 2^31 are such a set. */
  lemma SmallSpan(s: set<Int32>)
    requires forall a, b :: a in s && b in s ==> a - b < TWO31
    ensures HalfCircle(s)
  {
    if s != {} {
      var m := Minimum(s);
      forall x | x in s ensures Ahead(x, m) < TWO31 {
        AheadSmall(x, m);
      }
    }
  }

  lemma AheadSmall(x: Int32, m: Int32)
    requires 0 <= x - m < TWO31
    ensures Ahead(x, m) == x - m
  {
  }

  lemma {:induction false} Minimum(s: set<Int32>) returns (m: Int32)
    requires s != {}
    ensures m in s && forall x :: x in s ==> m <= x
    decreases |s|
  {
    var y :| y in s;
    var rest := s - {y};
    if rest == {} {
      assert s == {y};
      m := y;
    } else {
      m := Minimum(rest);
      assert s == rest + {y};
      m := if y < m then y else m;
    }
  }

  /** Three keys on which the order goes round in a circle. */
  lemma WrapCycle()
    ensures WrapDiff(0, 0x5000_0000) < 0 && WrapDiff(0x5000_0000, -0x6000_0000) < 0 && WrapDiff(-0x6000_0000, 0) < 0
  {
  }

  lemma WrapSign(a: Int32, b: Int32, m: Int32)
    requires Ahead(a, m) < TWO31 && Ahead(b, m) < TWO31
    ensures WrapDiff(a, b) < 0 <==> Ahead(a, m) < Ahead(b, m)
    ensures WrapDiff(a, b) > 0 <==> Ahead(b, m) < Ahead(a, m)
  {
    WrapIsDistance(a, b, m);
  }

  ghost function All(s: set<Int32>): iset<Int32> { iset x | x in s }

  /** On a half circle the wrapped difference is a weak order in the sense the trees need, and its
      equivalence is equality. */
  lemma WrapOrders(s: set<Int32>)
    requires HalfCircle(s)
    ensures WeakOrder(WrapDiff, All(s))
    ensures forall a, b :: a in s && b in s ==> (WrapDiff(a, b) == 0 <==> a == b)
  {
    if s != {} {
      var m :| m in s && From(s, m);
      WrapOrdersFrom(s, m);
      forall a, b | a in s && b in s ensures WrapDiff(a, b) == 0 <==> a == b {
        WrapIsDistance(a, b, m);
      }
    }
  }

  lemma WrapOrdersFrom(s: set<Int32>, m: Int32)
    requires From(s, m)
    ensures WeakOrder(WrapDiff, All(s))
  {
    var cmp := WrapDiff;
    forall a, b | a in s && b in s
      ensures (cmp(a, b) < 0 <==> Ahead(a, m) < Ahead(b, m)) && (cmp(a, b) > 0 <==> Ahead(b, m) < Ahead(a, m))
    {
      assert cmp(a, b) == WrapDiff(a, b);
      WrapSign(a, b, m);
    }
    RankOrders(cmp, s, m);
  }

  /** Comparing by the distance from m is a weak order. */
  lemma RankOrders(cmp: (Int32, Int32) -> int, s: set<Int32>, m: Int32)
    requires forall a, b {:trigger cmp(a, b)} :: a in s && b in s ==>
               (cmp(a, b) < 0 <==> Ahead(a, m) < Ahead(b, m)) && (cmp(a, b) > 0 <==> Ahead(b, m) < Ahead(a, m))
    ensures WeakOrder(cmp, All(s))
  {
  }
}
