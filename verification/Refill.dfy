/**
 The refill pass of the kthread pool (tcpsplit/thread_pool.c, refill_pool), run on one CPU without
 other traffic: the loop itself, where one pass ends, and that repeated passes come to rest.
 */
module Refill {
  import opened Magazine
  import opened MagazineHeap
  import opened AllocatorOrder

  /** struct kthread_pool */
  class KthreadPool {
    const poolSize: nat
    const allocator: MagAllocator
    var topCount: nat

    /** cbn_kthread_pool_init */
    constructor (size: nat, zalloc: seq<Ptr>)
      requires |zalloc| % 2 == 0 && Distinct(zalloc)
      ensures poolSize == size && topCount == 0 && fresh(allocator) && fresh(allocator.Repr)
      ensures allocator.Valid() && allocator.state == InitState(zalloc)
    {
      poolSize := size;
      topCount := 0;
      allocator := new MagAllocator(zalloc);
    }

    /** One turn of the loop of refill_pool. */
    method CreateOne(i: nat, elem: Elem, zallocs: seq<Ptr>, done: nat)
      requires allocator.Valid() && i < |allocator.pairs| && this !in allocator.Repr
      requires done < |zallocs| && Distinct(zallocs) && Unused(allocator.state, zallocs, done)
      modifies this, allocator.Repr
      ensures allocator.Valid() && Unused(allocator.state, zallocs, done + 1)
      ensures i < |old(allocator.state.pairs)| && allocator.state == FreeElem(old(allocator.state), i, elem, zallocs[done])
      ensures topCount == old(topCount) + 1
    {
      assert Places(allocator.state, zallocs[done]) == 0;
      allocator.Fulls();
      StillUnused(allocator.state, i, elem, zallocs, done);
      allocator.FreeElem(i, elem, zallocs[done]);
      topCount := topCount + 1;
    }

    /** refill_pool on pair i.  elems are the addresses kmem_cache_alloc returns, zallocs those kzalloc
        would return. */
    method RefillPool(i: nat, elems: seq<Elem>, zallocs: seq<Ptr>)
      requires allocator.Valid() && i < |allocator.pairs| && this !in allocator.Repr
      requires |elems| == |zallocs| == Deficit(poolSize, allocator.state)
      requires Distinct(zallocs) && forall k :: 0 <= k < |zallocs| ==> zallocs[k] !in allocator.mem.stack
      modifies this, allocator.Repr
      ensures allocator.Valid()
      ensures allocator.state == FreeMany(old(allocator.state), i, elems, zallocs)
      ensures topCount == old(topCount) + Deficit(poolSize, old(allocator.state))
    {
      ghost var s := allocator.state;
      var count: int := poolSize - allocator.fullCount * 4;
      count := if count < 0 then 0 else count;
      var done := 0;
      while count > 0
        invariant 0 <= count && done + count == |elems|
        invariant allocator.Valid() && allocator.state == FreeMany(s, i, elems[..done], zallocs)
        invariant Unused(allocator.state, zallocs, done)
        invariant topCount == old(topCount) + done
      {
        count := count - 1;
        CreateOne(i, elems[done], zallocs, done);
        assert elems[..done + 1][..done] == elems[..done];
        done := done + 1;
      }
      assert elems[..done] == elems;
    }
  }

  /** No magazine has one of the addresses from the j-th on. */
  ghost predicate Unused(s: State, zallocs: seq<Ptr>, j: nat) {
    forall k :: j <= k < |zallocs| ==> Places(s, zallocs[k]) == 0
  }

  /** A free uses up no address but the one kzalloc returns to it. */
  lemma StillUnused(s: State, i: nat, e: Elem, zallocs: seq<Ptr>, j: nat)
    requires InOrder(s) && i < |s.pairs| && j < |zallocs| && Distinct(zallocs)
    requires Unused(s, zallocs, j)
    ensures Unused(FreeElem(s, i, e, zallocs[j]), zallocs, j + 1)
  {
    forall k | j + 1 <= k < |zallocs| ensures Places(FreeElem(s, i, e, zallocs[j]), zallocs[k]) == 0 {
      FreeConserves(s, i, e, zallocs[j], Place(zallocs[k]));
      assert Places(s, zallocs[k]) == 0;
    }
  }

  /** Where the elements of a pass go: into full magazines of the depot, four at a time, and into the
      pair, which holds at least four once it has handed a magazine over. */
  lemma {:induction false} FreeManyCounts(s: State, i: nat, elems: seq<Elem>, zallocs: seq<Ptr>)
    requires InOrder(s) && i < |s.pairs| && |elems| <= |zallocs|
    ensures var s' := FreeMany(s, i, elems, zallocs);
            && InOrder(s') && |s'.depot.full| >= |s.depot.full|
            && s'.pairs[i].Total() + 4 * |s'.depot.full| == s.pairs[i].Total() + |elems| + 4 * |s.depot.full|
            && (|s'.depot.full| > |s.depot.full| ==> s'.pairs[i].Total() >= 4)
    decreases |elems|
  {
    var n := |elems|;
    if n > 0 {
      var s1 := FreeMany(s, i, elems[..n - 1], zallocs);
      FreeManyCounts(s, i, elems[..n - 1], zallocs);
      FreeConserves(s1, i, elems[n - 1], zallocs[n - 1], Count);
      PairFreeConserves(s1.pairs[i], elems[n - 1], Count);
      if PairFree(s1.pairs[i], elems[n - 1]).Total() == 8 {
        SwitchFullConserves(s1.depot, PairFree(s1.pairs[i], elems[n - 1]), zallocs[n - 1], Count);
      }
    }
  }

  lemma FreeHolds(s: State, i: nat, e: Elem, zalloc: Ptr, x: Elem)
    requires InOrder(s) && i < |s.pairs|
    ensures Held(FreeElem(s, i, e, zalloc), x) == Held(s, x) + if e == x then 1 else 0
  {
    FreeConserves(s, i, e, zalloc, Item(x));
  }

  lemma LastOf(elems: seq<Elem>, e: Elem)
    requires elems != []
    ensures var n := |elems| - 1;
            multiset(elems)[e] == multiset(elems[..n])[e] + if elems[n] == e then 1 else 0
  {
    var n := |elems| - 1;
    assert elems == elems[..n] + [elems[n]];
  }

  /** A pass adds its elements to what the allocator holds, each as often as it is in the list. */
  lemma {:induction false} FreeManyHolds(s: State, i: nat, elems: seq<Elem>, zallocs: seq<Ptr>, e: Elem)
    requires InOrder(s) && i < |s.pairs| && |elems| <= |zallocs|
    ensures Held(FreeMany(s, i, elems, zallocs), e) == Held(s, e) + multiset(elems)[e]
    decreases |elems|
  {
    var n := |elems|;
    if n > 0 {
      var init := elems[..n - 1];
      FreeManyHolds(s, i, init, zallocs, e);
      FreeManyInOrder(s, i, init, zallocs);
      FreeHolds(FreeMany(s, i, init, zallocs), i, elems[n - 1], zallocs[n - 1], e);
      LastOf(elems, e);
    }
  }

  /** s' is the state after one undisturbed pass on pair i. */
  ghost predicate Pass(poolSize: nat, i: nat, s: State, s': State) {
    && i < |s.pairs|
    && exists elems: seq<Elem>, zallocs: seq<Ptr> ::
         |elems| == |zallocs| == Deficit(poolSize, s) && s' == FreeMany(s, i, elems, zallocs)
  }

  lemma PassCounts(poolSize: nat, i: nat, s: State, elems: seq<Elem>, zallocs: seq<Ptr>)
    requires InOrder(s) && i < |s.pairs| && |s.depot.full| < U16
    requires |elems| == |zallocs| == Deficit(poolSize, s)
    ensures var s' := FreeMany(s, i, elems, zallocs);
            && InOrder(s')
            && 0 <= s'.pairs[i].Total() <= 7
            && (elems == [] ==> s' == s)
            && (elems != [] ==>
                  && 4 * |s'.depot.full| == poolSize + s.pairs[i].Total() - s'.pairs[i].Total()
                  && poolSize - 7 <= 4 * |s'.depot.full| <= poolSize + 3)
  {
    FreeManyCounts(s, i, elems, zallocs);
    var s' := FreeMany(s, i, elems, zallocs);
    assert PairOk(s.pairs[i]) && PairOk(s'.pairs[i]);
    assert |s.depot.full| % U16 == |s.depot.full|;
  }

  /** One pass that creates something, from k elements in the pair to r, ends with four times the full
      magazines equal to pool_size + k - r: between pool_size - 7 and pool_size + 3. */
  lemma PassEnds(poolSize: nat, i: nat, s: State, s': State)
    requires InOrder(s) && Pass(poolSize, i, s, s') && |s.depot.full| < U16
    ensures InOrder(s') && i < |s'.pairs|
    ensures Deficit(poolSize, s) == 0 ==> s' == s
    ensures Deficit(poolSize, s) > 0 ==>
              && 4 * |s'.depot.full| == poolSize + s.pairs[i].Total() - s'.pairs[i].Total()
              && poolSize - 7 <= 4 * |s'.depot.full| <= poolSize + 3
  {
    var elems: seq<Elem>, zallocs: seq<Ptr> :|
      |elems| == |zallocs| == Deficit(poolSize, s) && s' == FreeMany(s, i, elems, zallocs);
    PassCounts(poolSize, i, s, elems, zallocs);
  }

  ghost predicate Passes(poolSize: nat, i: nat, trace: seq<State>) {
    forall j :: 0 < j < |trace| ==> Pass(poolSize, i, trace[j - 1], trace[j])
  }

  /** While passes keep creating, the pair fills up by at least one element a pass. */
  lemma {:induction false} PairFills(poolSize: nat, i: nat, trace: seq<State>, m: nat)
    requires m < |trace| && Passes(poolSize, i, trace)
    requires InOrder(trace[0]) && i < |trace[0].pairs| && |trace[0].depot.full| < U16 && poolSize + 3 < 4 * U16
    ensures InOrder(trace[m]) && i < |trace[m].pairs| && |trace[m].depot.full| < U16
    ensures Deficit(poolSize, trace[m]) > 0 ==>
              && trace[m].pairs[i].Total() >= m
              && (m > 0 ==> Deficit(poolSize, trace[m - 1]) > 0)
  {
    if m > 0 {
      PairFills(poolSize, i, trace, m - 1);
      var s, s' := trace[m - 1], trace[m];
      assert Pass(poolSize, i, s, s');
      PassEnds(poolSize, i, s, s');
      if Deficit(poolSize, s) > 0 {
        DeficitAfter(poolSize, s, s', i);
      }
    }
  }

  lemma DeficitAfter(poolSize: nat, s: State, s': State, i: nat)
    requires |s.depot.full| < U16 && poolSize + 3 < 4 * U16 && i < |s.pairs| && i < |s'.pairs|
    requires 4 * |s'.depot.full| == poolSize + s.pairs[i].Total() - s'.pairs[i].Total() <= poolSize + 3
    ensures |s'.depot.full| < U16
    ensures Deficit(poolSize, s') > 0 ==> s'.pairs[i].Total() == s.pairs[i].Total() + Deficit(poolSize, s')
  {
    assert |s'.depot.full| % U16 == |s'.depot.full|;
  }

  /** Repeated undisturbed passes come to rest: from the eighth pass on nothing more is created and
      the state no longer changes, whatever state the first pass met. */
  lemma {:induction false} PassesSettle(poolSize: nat, i: nat, trace: seq<State>, m: nat)
    requires 8 <= m < |trace| && Passes(poolSize, i, trace)
    requires InOrder(trace[0]) && i < |trace[0].pairs| && |trace[0].depot.full| < U16 && poolSize + 3 < 4 * U16
    ensures Deficit(poolSize, trace[m]) == 0
    ensures trace[m] == trace[8]
    decreases m
  {
    PairFills(poolSize, i, trace, m);
    assert PairOk(trace[m].pairs[i]);
    if m > 8 {
      PassesSettle(poolSize, i, trace, m - 1);
      PassEnds(poolSize, i, trace[m - 1], trace[m]);
    }
  }
}
