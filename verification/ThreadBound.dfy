/**
 How many threads the pool ever creates (tcpsplit/thread_pool.c, refill_pool): a bound over every run
 of the step relation of module ThreadPool, with dispatchers and workers allocating and freeing while
 the refill thread counts and creates.
 */
module ThreadBound {
  import opened Magazine
  import opened ThreadPool

  /** 1 for an element outside the allocator: claimed by a dispatcher or owned by its worker. */
  function Out(w: Worker): nat { if w.owner.Claimed? || w.owner.Owned? then 1 else 0 }

  function OutCount(ws: seq<Worker>): nat {
    if ws == [] then 0 else Out(ws[0]) + OutCount(ws[1..])
  }

  lemma {:induction false} OutUpdate(ws: seq<Worker>, e: nat, w: Worker)
    requires e < |ws|
    ensures OutCount(ws[e := w]) + Out(ws[e]) == OutCount(ws) + Out(w)
  {
    var vs := ws[e := w];
    if e == 0 {
      assert vs[1..] == ws[1..];
    } else {
      assert vs[0] == ws[0] && vs[1..] == ws[1..][e - 1 := w];
      OutUpdate(ws[1..], e - 1, w);
    }
  }

  lemma {:induction false} OutAppend(ws: seq<Worker>, w: Worker)
    ensures OutCount(ws + [w]) == OutCount(ws) + Out(w)
  {
    if ws == [] {
      assert ws + [w] == [w];
    } else {
      assert (ws + [w])[1..] == ws[1..] + [w];
      OutAppend(ws[1..], w);
    }
  }

  /** The element the refill thread has created and not yet published. */
  function InHand(s: PoolState): nat { if s.refill.Have? then 1 else 0 }

  /** Every thread ever created is in the allocator, outside, or in the hand of the refill thread. */
  ghost predicate Conserved(s: PoolState) {
    Size(s.alloc) + OutCount(s.workers) + InHand(s) == |s.workers|
  }

  /** A step that rewrites worker e moves it into or out of the allocator with the size. */
  lemma PutConserves(s: PoolState, s': PoolState, e: Elem)
    requires e < |s.workers| == |s'.workers| && s'.workers == s.workers[e := s'.workers[e]] && Conserved(s)
    requires Size(s'.alloc) + Out(s'.workers[e]) + InHand(s') == Size(s.alloc) + Out(s.workers[e]) + InHand(s)
    ensures Conserved(s')
  {
    OutUpdate(s.workers, e, s'.workers[e]);
  }

  lemma ClaimConserves(s: PoolState, d: nat, i: nat, job: Job)
    requires Inv(s) && Enabled(s, Claim(d, i, job)) && Conserved(s)
    ensures var s' := Next(s, Claim(d, i, job)); Conserved(s') && |s'.alloc.pairs| == |s.alloc.pairs|
  {
    ClaimKeeps(s, d, i, job);
    AllocConserves(s.alloc, i, Count);
    var r := AllocElem(s.alloc, i).1;
    if r.Some? {
      PutConserves(s, Next(s, Claim(d, i, job)), r.value);
    }
  }

  lemma RepublishConserves(s: PoolState, e: Elem, i: nat, zalloc: Ptr)
    requires Inv(s) && Enabled(s, Republish(e, i, zalloc)) && Conserved(s)
    ensures var s' := Next(s, Republish(e, i, zalloc)); Conserved(s') && |s'.alloc.pairs| == |s.alloc.pairs|
  {
    RepublishKeeps(s, e, i, zalloc);
    FreeConserves(s.alloc, i, e, zalloc, Count);
    PutConserves(s, Next(s, Republish(e, i, zalloc)), e);
  }

  lemma PublishConserves(s: PoolState, i: nat, zalloc: Ptr)
    requires Inv(s) && Enabled(s, RefillPublish(i, zalloc)) && Conserved(s)
    ensures var s' := Next(s, RefillPublish(i, zalloc)); Conserved(s') && |s'.alloc.pairs| == |s.alloc.pairs|
  {
    FreeConserves(s.alloc, i, s.refill.e, zalloc, Count);
    PutConserves(s, Next(s, RefillPublish(i, zalloc)), s.refill.e);
  }

  lemma StepConserves(s: PoolState, ev: Event)
    requires Inv(s) && Enabled(s, ev) && Conserved(s)
    ensures Conserved(Next(s, ev))
    ensures |Next(s, ev).alloc.pairs| == |s.alloc.pairs| && Next(s, ev).poolSize == s.poolSize
  {
    var s' := Next(s, ev);
    if ev.Claim? {
      ClaimConserves(s, ev.d, ev.i, ev.job);
    } else if ev.Republish? {
      RepublishConserves(s, ev.e, ev.i, ev.zalloc);
    } else if ev.RefillPublish? {
      PublishConserves(s, ev.i, ev.zalloc);
    } else if ev.SetTask? || ev.SetData? || ev.Wake? {
      DispatchStepKeeps(s, ev);
      PutConserves(s, s', s.disp[ev.d].e);
    } else if ev.Begin? || ev.Work? {
      PutConserves(s, s', ev.e);
    } else if ev.RefillCreate? {
      OutAppend(s.workers, s'.workers[|s.workers|]);
    }
  }

  /** Threads that the running refill pass will still create. */
  function Left(s: PoolState): nat { if s.refill.Outside? then 0 else s.refill.left }

  function Budget(s: PoolState, peak: nat): nat { s.poolSize + 7 * |s.alloc.pairs| + peak }

  ghost predicate Within(s: PoolState, peak: nat) { |s.workers| + Left(s) <= Budget(s, peak) }

  /** At the instant the refill thread reads the counter, what it will create fits the budget: all but
      the full magazines it counted are at most 7 per pair or outside. */
  lemma RefillEnterWithin(s: PoolState)
    requires Inv(s) && Conserved(s) && s.refill.Outside? && |s.alloc.depot.full| < U16
    ensures |s.workers| + Deficit(s.poolSize, s.alloc) <= Max(|s.workers|, Budget(s, OutCount(s.workers)))
  {
    SizeSplit(s.alloc);
    PairsSize(s.alloc.pairs);
  }

  /** The counter of full magazines has not wrapped where the step reads it. */
  predicate ReadsRight(s: PoolState, ev: Event) { ev.RefillEnter? ==> |s.alloc.depot.full| < U16 }

  lemma StepWithin(s: PoolState, ev: Event, peak: nat)
    requires Inv(s) && Enabled(s, ev) && Conserved(s) && Within(s, peak)
    requires OutCount(s.workers) <= peak && ReadsRight(s, ev)
    ensures Within(Next(s, ev), peak)
  {
    StepConserves(s, ev);
    if ev.RefillEnter? {
      RefillEnterWithin(s);
    }
  }

  /** The largest number of elements outside the allocator at any point of the run. */
  ghost function PeakOut(s: PoolState, evs: seq<Event>): nat
    requires IsRun(s, evs)
    decreases |evs|
  {
    if evs == [] then OutCount(s.workers) else Max(OutCount(s.workers), PeakOut(Next(s, evs[0]), evs[1..]))
  }

  /** Nor anywhere in the run. */
  ghost predicate AllReadRight(s: PoolState, evs: seq<Event>)
    requires IsRun(s, evs)
    decreases |evs|
  {
    evs == [] || (ReadsRight(s, evs[0]) && AllReadRight(Next(s, evs[0]), evs[1..]))
  }

  lemma {:induction false} RunWithin(s: PoolState, evs: seq<Event>, peak: nat)
    requires Inv(s) && IsRun(s, evs) && Conserved(s) && Within(s, peak)
    requires PeakOut(s, evs) <= peak && AllReadRight(s, evs)
    ensures var s' := Run(s, evs); Within(s', peak) && Budget(s', peak) == Budget(s, peak)
    decreases |evs|
  {
    if evs != [] {
      StepKeeps(s, evs[0]);
      StepConserves(s, evs[0]);
      StepWithin(s, evs[0], peak);
      RunWithin(Next(s, evs[0]), evs[1..], peak);
    }
  }

  /** The total of threads ever created never exceeds pool_size, plus 7 for every magazine pair, plus
      the peak number of elements outside, under arbitrary concurrent traffic, in every run in which
      fewer than 65536 magazines are full whenever the refill thread counts them. */
  lemma ThreadsBounded(s: PoolState, evs: seq<Event>)
    requires Init(s) && IsRun(s, evs) && AllReadRight(s, evs)
    ensures |Run(s, evs).workers| <= s.poolSize + 7 * |s.alloc.pairs| + PeakOut(s, evs)
  {
    InitInv(s);
    SizeZero(s.alloc);
    RunWithin(s, evs, PeakOut(s, evs));
  }

  /** While all threads are within a budget below 262144, there cannot be 65536 full magazines. */
  lemma FullWithin(s: PoolState, peak: nat)
    requires Inv(s) && Conserved(s) && Within(s, peak) && Budget(s, peak) < 4 * U16
    ensures |s.alloc.depot.full| < U16
  {
    SizeSplit(s.alloc);
  }

  lemma {:induction false} SmallReadRight(s: PoolState, evs: seq<Event>, peak: nat)
    requires Inv(s) && IsRun(s, evs) && Conserved(s) && Within(s, peak)
    requires PeakOut(s, evs) <= peak && Budget(s, peak) < 4 * U16
    ensures AllReadRight(s, evs)
    decreases |evs|
  {
    if evs != [] {
      FullWithin(s, peak);
      StepKeeps(s, evs[0]);
      StepConserves(s, evs[0]);
      StepWithin(s, evs[0], peak);
      SmallReadRight(Next(s, evs[0]), evs[1..], peak);
    }
  }

  /** A bound below 262144 keeps the counter from wrapping, and so needs no such condition. */
  lemma SmallPoolBounded(s: PoolState, evs: seq<Event>)
    requires Init(s) && IsRun(s, evs)
    requires s.poolSize + 7 * |s.alloc.pairs| + PeakOut(s, evs) < 262144
    ensures AllReadRight(s, evs)
    ensures |Run(s, evs).workers| <= s.poolSize + 7 * |s.alloc.pairs| + PeakOut(s, evs)
  {
    InitInv(s);
    SizeZero(s.alloc);
    SmallReadRight(s, evs, PeakOut(s, evs));
    ThreadsBounded(s, evs);
  }

  /** An allocator that holds no element has size 0. */
  lemma SizeZero(a: State)
    requires StateOk(a) && forall e :: Held(a, e) == 0
    ensures Size(a) == 0
  {
    forall i | 0 <= i < |a.pairs| ensures a.pairs[i].Total() == 0 {
      if a.pairs[i].s0.items != [] {
        FirstHeld(a, i);
      }
    }
    if a.depot.full != [] {
      FullHeld(a);
    }
    EmptyPairs(a.pairs);
    SizeSplit(a);
  }

  lemma FirstHeld(a: State, i: nat)
    requires i < |a.pairs| && a.pairs[i].s0.items != []
    ensures Held(a, a.pairs[i].s0.items[0]) > 0
  {
    PairsPart(Item(a.pairs[i].s0.items[0]), a.pairs, i);
  }

  lemma FullHeld(a: State)
    requires a.depot.full != [] && AllFull(a.depot.full)
    ensures Held(a, a.depot.full[0].items[0]) > 0
  {
    SlotsPart(Item(a.depot.full[0].items[0]), a.depot.full, 0);
  }

  lemma {:induction false} EmptyPairs(ps: seq<Pair>)
    requires forall i :: 0 <= i < |ps| ==> ps[i].Total() == 0
    ensures PairsWeight(Count, ps) == 0
  {
    if ps != [] {
      EmptyPairs(ps[1..]);
    }
  }
}
