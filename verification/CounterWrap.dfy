/**
 A run of the magazine allocator that wraps the 16-bit counter of full magazines: from a fresh
 allocator with one pair to 65536 full magazines in the depot and an empty pair, where the next
 allocation fails.
 */
module CounterWrap {
  import opened Magazine
  import opened AllocatorRuns
  import opened AllocatorOrder
  import opened Refill

  // ---------------------------------------------------------------- enough addresses

  /** bit n, and all bits from n on */
  function Bit(n: nat): bv64 { if n == 0 then 1 else Twice(Bit(n - 1)) }
  function From(n: nat): bv64 { if n == 0 then 0xFFFF_FFFF_FFFF_FFFF else Twice(From(n - 1)) }

  function Twice(m: bv64): bv64 { m << 1 }
  function Both(a: bv64, b: bv64): bv64 { a & b }
  function With(a: bv64, m: bv64): bv64 { a | m }

  /** The 2^n addresses that use only the bits below n */
  function Addresses(n: nat): seq<Ptr> {
    if n == 0 then [Ptr(0)] else Addresses(n - 1) + Raised(Addresses(n - 1), Ptr(Bit(n - 1)))
  }

  function Raise(a: Ptr, m: Ptr): Ptr { Ptr(With(a.bits, m.bits)) }

  function Raised(xs: seq<Ptr>, m: Ptr): seq<Ptr> { seq(|xs|, i requires 0 <= i < |xs| => Raise(xs[i], m)) }

  /** a uses none of the bits of high. */
  predicate Clear(a: Ptr, high: Ptr) { Both(a.bits, high.bits) == 0 }

  lemma ShiftBoth(a: bv64, b: bv64, ab: bv64)
    requires ab == a & b
    ensures (a << 1) & (b << 1) == ab << 1
  {
  }

  lemma TwiceIs(a: bv64, b: bv64)
    ensures Twice(a) == a << 1 && Both(a, b) == a & b
  {
  }

  lemma TwiceBoth(a: bv64, b: bv64)
    ensures Both(Twice(a), Twice(b)) == Twice(Both(a, b))
  {
    TwiceIs(a, b);
    TwiceIs(b, a);
    TwiceIs(Both(a, b), a);
    TwiceIs(Twice(a), Twice(b));
    ShiftBoth(a, b, Both(a, b));
  }

  lemma TwiceKeeps(a: bv64, b: bv64)
    ensures Both(a, b) == a ==> Both(Twice(a), Twice(b)) == Twice(a)
    ensures Both(a, b) == 0 ==> Both(Twice(a), Twice(b)) == 0
  {
    TwiceBoth(a, b);
  }

  lemma {:induction false} BitsAndFrom(n: nat)
    ensures Both(Bit(n), From(n)) == Bit(n)
    ensures Both(From(n + 1), Bit(n)) == 0
    ensures Both(From(n + 1), From(n)) == From(n + 1)
  {
    if n > 0 {
      BitsAndFrom(n - 1);
      TwiceKeeps(Bit(n - 1), From(n - 1));
      TwiceKeeps(From(n), Bit(n - 1));
      TwiceKeeps(From(n), From(n - 1));
    }
  }

  lemma {:induction false} BitNotZero(n: nat)
    requires n <= 20
    ensures Bit(n) != 0
    decreases 20 - n
  {
    if n < 20 {
      BitNotZero(n + 1);
    } else {
      assert Bit(4) == 0x10;
      assert Bit(8) == 0x100;
      assert Bit(12) == 0x1000;
      assert Bit(16) == 0x1_0000;
      assert Bit(20) == 0x10_0000;
    }
  }

  lemma Disjoint(a: bv64, low: bv64, high: bv64)
    requires Both(a, low) == 0 && Both(high, low) == high
    ensures Both(a, high) == 0
  {
  }

  lemma WithDisjoint(a: bv64, m: bv64, high: bv64)
    requires Both(a, high) == 0 && Both(high, m) == 0
    ensures Both(With(a, m), high) == 0
  {
  }

  lemma WithDiffers(a: bv64, b: bv64, m: bv64)
    requires Both(a, m) == 0 && Both(b, m) == 0 && m != 0
    ensures a != With(b, m) && (a != b ==> With(a, m) != With(b, m))
  {
  }

  lemma RaiseDiffers(a: Ptr, b: Ptr, m: Ptr)
    requires Clear(a, m) && Clear(b, m) && m.bits != 0
    ensures a != Raise(b, m) && (a != b ==> Raise(a, m) != Raise(b, m))
  {
    WithDiffers(a.bits, b.bits, m.bits);
  }

  function Pow2(n: nat): nat { if n == 0 then 1 else 2 * Pow2(n - 1) }

  ghost predicate AllClear(xs: seq<Ptr>, high: Ptr) { forall i :: 0 <= i < |xs| ==> Clear(xs[i], high) }

  lemma RaisedDiffer(xs: seq<Ptr>, m: Ptr)
    requires Distinct(xs) && AllClear(xs, m) && m.bits != 0
    ensures Distinct(xs + Raised(xs, m))
  {
    var zs, n := Raised(xs, m), |xs|;
    forall i, j | 0 <= i < n && 0 <= j < n ensures xs[i] != zs[j] && (i < j ==> zs[i] != zs[j]) {
      RaiseDiffers(xs[i], xs[j], m);
    }
    ConcatDiffer(xs, zs);
  }

  lemma ConcatDiffer(xs: seq<Ptr>, zs: seq<Ptr>)
    requires Distinct(xs) && Distinct(zs) && forall i, j :: 0 <= i < |xs| && 0 <= j < |zs| ==> xs[i] != zs[j]
    ensures Distinct(xs + zs)
  {
  }

  lemma NextClear(n: nat, a: Ptr)
    requires Clear(a, Ptr(From(n)))
    ensures Clear(a, Ptr(Bit(n))) && Clear(a, Ptr(From(n + 1))) && Clear(Raise(a, Ptr(Bit(n))), Ptr(From(n + 1)))
  {
    BitsAndFrom(n);
    Disjoint(a.bits, From(n), Bit(n));
    Disjoint(a.bits, From(n), From(n + 1));
    WithDisjoint(a.bits, Bit(n), From(n + 1));
  }

  lemma FirstClear()
    ensures Clear(Ptr(0), Ptr(From(0)))
  {
    assert 0 & 0xFFFF_FFFF_FFFF_FFFF == 0 as bv64;
  }

  lemma {:induction false} AddressesDiffer(n: nat)
    requires n <= 20
    ensures |Addresses(n)| == Pow2(n) && AllClear(Addresses(n), Ptr(From(n))) && Distinct(Addresses(n))
  {
    if n == 0 {
      FirstClear();
    } else {
      AddressesDiffer(n - 1);
      BitNotZero(n - 1);
      var xs, m := Addresses(n - 1), Ptr(Bit(n - 1));
      forall i | 0 <= i < |xs|
        ensures Clear(xs[i], m) && Clear(xs[i], Ptr(From(n))) && Clear(Raise(xs[i], m), Ptr(From(n)))
      {
        NextClear(n - 1, xs[i]);
      }
      RaisedDiffer(xs, m);
    }
  }

  /** n different addresses */
  ghost function Ptrs(n: nat): (ps: seq<Ptr>)
    requires n <= 0x8_0000
    ensures |ps| == n && Distinct(ps)
  {
    AddressesDiffer(19);
    Pow2Of19();
    Addresses(19)[..n]
  }

  lemma Pow2Of19()
    ensures Pow2(19) == 0x8_0000
  {
    assert Pow2(4) == 16;
    assert Pow2(8) == 256;
    assert Pow2(12) == 4096;
    assert Pow2(16) == 65536;
  }

  // ---------------------------------------------------------------- the run

  /** Free the elements one after the other on pair 0. */
  function FreeOps(elems: seq<Elem>, zallocs: seq<Ptr>): seq<Op>
    requires |elems| <= |zallocs|
  {
    seq(|elems|, k requires 0 <= k < |elems| => Free(0, elems[k], zallocs[k]))
  }

  lemma FreeOpsLast(elems: seq<Elem>, zallocs: seq<Ptr>)
    requires 0 < |elems| <= |zallocs|
    ensures var n := |elems| - 1;
            FreeOps(elems, zallocs) == FreeOps(elems[..n], zallocs) + [Free(0, elems[n], zallocs[n])]
  {
  }

  lemma {:induction false} FreeOpsRun(s: State, elems: seq<Elem>, zallocs: seq<Ptr>)
    requires StateOk(s) && |s.pairs| > 0 && |elems| <= |zallocs| && Distinct(zallocs)
    requires Unused(s, zallocs, 0)
    ensures LegalRun(s, FreeOps(elems, zallocs)) && Run(s, FreeOps(elems, zallocs)) == FreeMany(s, 0, elems, zallocs)
    ensures Unused(FreeMany(s, 0, elems, zallocs), zallocs, |elems|)
    decreases |elems|
  {
    var n := |elems|;
    if n > 0 {
      var init, last := elems[..n - 1], Free(0, elems[n - 1], zallocs[n - 1]);
      FreeOpsRun(s, init, zallocs);
      var s1 := FreeMany(s, 0, init, zallocs);
      RunKeeps(s, FreeOps(init, zallocs));
      assert Places(s1, zallocs[n - 1]) == 0;
      FreeOpsLast(elems, zallocs);
      OneMore(s, FreeOps(init, zallocs), last);
      StillUnused(s1, 0, elems[n - 1], zallocs, n - 1);
    }
  }

  lemma OneMore(s: State, ops: seq<Op>, op: Op)
    requires LegalRun(s, ops) && Legal(Run(s, ops), op)
    ensures LegalRun(s, ops + [op]) && Run(s, ops + [op]) == Step(Run(s, ops), op).0
  {
    OneStep(Run(s, ops), op);
    RunAppend(s, ops, [op]);
  }

  lemma OneStep(s: State, op: Op)
    requires Legal(s, op)
    ensures LegalRun(s, [op]) && Run(s, [op]) == Step(s, op).0
  {
    assert [op][1..] == [];
    assert LegalRun(Step(s, op).0, []) && Run(Step(s, op).0, []) == Step(s, op).0;
  }

  /** Allocate what the pair holds. */
  lemma {:induction false} Emptied(s: State, t: nat) returns (ops: seq<Op>)
    requires StateOk(s) && |s.pairs| > 0 && s.pairs[0].Total() == t
    ensures forall k :: 0 <= k < |ops| ==> ops[k].Alloc?
    ensures LegalRun(s, ops) && Run(s, ops).depot == s.depot && |Run(s, ops).pairs| > 0 && Run(s, ops).pairs[0].Total() == 0
    decreases t
  {
    if t == 0 {
      ops := [];
    } else {
      var s1 := AllocElem(s, 0).0;
      AllocKeeps(s, 0);
      PairAllocConserves(s.pairs[0], Count);
      var rest := Emptied(s1, t - 1);
      OneStep(s, Alloc(0));
      RunAppend(s, [Alloc(0)], rest);
      ops := [Alloc(0)] + rest;
    }
  }

  /** 262148 frees fill 65536 magazines and leave four elements in the pair. */
  lemma Filled(zalloc: seq<Ptr>, elems: seq<Elem>, zallocs: seq<Ptr>)
    requires |zalloc| == 2 && Distinct(zalloc) && |elems| == |zallocs| == 4 * U16 + 4 && Distinct(zallocs)
    requires forall m :: m in zallocs ==> m !in zalloc
    ensures var s0, ops := InitState(zalloc), FreeOps(elems, zallocs);
            && LegalRun(s0, ops) && StateOk(Run(s0, ops)) && |Run(s0, ops).pairs| == 1
            && |Run(s0, ops).depot.full| == U16
  {
    var s0 := InitState(zalloc);
    InitOk(zalloc);
    forall k | 0 <= k < |zallocs| ensures Places(s0, zallocs[k]) == 0 {
      assert zallocs[k] in zallocs;
    }
    FreeOpsRun(s0, elems, zallocs);
    RunKeeps(s0, FreeOps(elems, zallocs));
    FreeManyCounts(s0, 0, elems, zallocs);
    assert PairOk(FreeMany(s0, 0, elems, zallocs).pairs[0]);
  }

  lemma {:induction false} TakenInAppend(ops: seq<Op>, more: seq<Op>, e: Elem)
    ensures TakenIn(ops + more, e) == TakenIn(ops, e) + TakenIn(more, e)
  {
    if ops == [] {
      assert ops + more == more;
    } else {
      assert (ops + more)[1..] == ops[1..] + more;
      TakenInAppend(ops[1..], more, e);
    }
  }

  lemma {:induction false} AllocsTakeNothing(ops: seq<Op>, e: Elem)
    requires forall k :: 0 <= k < |ops| ==> ops[k].Alloc?
    ensures TakenIn(ops, e) == 0
  {
    if ops != [] {
      AllocsTakeNothing(ops[1..], e);
    }
  }

  /** 0, 1, ..., n - 1 */
  function UpTo(n: nat): seq<Elem> { seq(n, k requires 0 <= k < n => k) }

  lemma {:induction false} FreedOnce(n: nat, zallocs: seq<Ptr>, e: Elem)
    requires n <= |zallocs|
    ensures TakenIn(FreeOps(UpTo(n), zallocs), e) == if e < n then 1 else 0
  {
    if n > 0 {
      var last := Free(0, n - 1, zallocs[n - 1]);
      assert FreeOps(UpTo(n), zallocs) == FreeOps(UpTo(n - 1), zallocs) + [last];
      TakenInAppend(FreeOps(UpTo(n - 1), zallocs), [last], e);
      assert [last][1..] == [];
      FreedOnce(n - 1, zallocs, e);
    }
  }

  /** From a fresh allocator with one pair some run leads to 65536 full magazines and an empty pair, no
      element held twice.  The next allocation fails with 262144 elements free, and all those magazines
      stay where they are for ever (BuriedForever). */
  lemma CounterWraps() returns (zalloc: seq<Ptr>, ops: seq<Op>)
    ensures |zalloc| == 2 && Distinct(zalloc) && LegalRun(InitState(zalloc), ops)
    ensures var s := Run(InitState(zalloc), ops);
            && StateOk(s) && |s.pairs| == 1 && s.pairs[0].Total() == 0 && |s.depot.full| == U16
            && AllocElem(s, 0).1 == None && Size(s) >= 262144
            && Buried(s) == s.depot.full && forall e :: Held(s, e) <= 1
  {
    var zallocs;
    zalloc, zallocs := Apart();
    var elems := UpTo(4 * U16 + 4);
    Filled(zalloc, elems, zallocs);
    var more;
    ops, more := FilledThenEmptied(zalloc, FreeOps(elems, zallocs));
    forall e ensures Held(Run(InitState(zalloc), ops), e) <= 1 {
      FreedOnce(|elems|, zallocs, e);
      HeldOnceAfter(zalloc, FreeOps(elems, zallocs), more, e);
    }
  }

  lemma HeldOnceAfter(zalloc: seq<Ptr>, fill: seq<Op>, more: seq<Op>, e: Elem)
    requires |zalloc| == 2 && Distinct(zalloc) && LegalRun(InitState(zalloc), fill + more) && TakenIn(fill, e) <= 1
    requires forall k :: 0 <= k < |more| ==> more[k].Alloc?
    ensures Held(Run(InitState(zalloc), fill + more), e) <= 1
  {
    InitOk(zalloc);
    assert Held(InitState(zalloc), e) == 0;
    TakenInAppend(fill, more, e);
    AllocsTakeNothing(more, e);
    RunIsBag(InitState(zalloc), fill + more, e);
  }

  lemma Apart() returns (zalloc: seq<Ptr>, zallocs: seq<Ptr>)
    ensures |zalloc| == 2 && |zallocs| == 4 * U16 + 4 && Distinct(zalloc) && Distinct(zallocs)
    ensures forall m :: m in zallocs ==> m !in zalloc
  {
    var n := 4 * U16 + 4;
    var ps := Ptrs(n + 2);
    zalloc, zallocs := ps[n..], ps[..n];
    SplitDiffer(ps, n);
  }

  lemma SplitDiffer(ps: seq<Ptr>, n: nat)
    requires Distinct(ps) && n <= |ps|
    ensures Distinct(ps[..n]) && Distinct(ps[n..]) && forall m :: m in ps[..n] ==> m !in ps[n..]
  {
    forall m | m in ps[..n] ensures m !in ps[n..] {
      var i :| 0 <= i < n && ps[i] == m;
      forall j | 0 <= j < |ps| - n ensures ps[n..][j] != m {
        assert ps[n..][j] == ps[n + j];
      }
    }
  }

  lemma FilledThenEmptied(zalloc: seq<Ptr>, fill: seq<Op>) returns (ops: seq<Op>, more: seq<Op>)
    requires |zalloc| == 2 && Distinct(zalloc) && LegalRun(InitState(zalloc), fill)
    requires StateOk(Run(InitState(zalloc), fill)) && |Run(InitState(zalloc), fill).pairs| == 1
    requires |Run(InitState(zalloc), fill).depot.full| == U16
    ensures LegalRun(InitState(zalloc), ops) && ops == fill + more && forall k :: 0 <= k < |more| ==> more[k].Alloc?
    ensures var s := Run(InitState(zalloc), ops);
            && StateOk(s) && |s.pairs| == 1 && s.pairs[0].Total() == 0 && |s.depot.full| == U16
            && AllocElem(s, 0).1 == None && Size(s) >= 262144
  {
    var s0 := InitState(zalloc);
    InitOk(zalloc);
    var s1 := Run(s0, fill);
    more := Emptied(s1, s1.pairs[0].Total());
    RunAppend(s0, fill, more);
    ops := fill + more;
    RunKeeps(s0, ops);
    WrappedCounterStarves(Run(s0, ops), 0);
  }
}
