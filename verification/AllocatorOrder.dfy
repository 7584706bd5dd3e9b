/**
 In which order the magazine allocator hands elements out (tcpsplit/magazine.c): seen from one pair it is
 a list, from whose front allocations take and into which frees put at one of two places.
 */
module AllocatorOrder {
  import opened Magazine

  function Reverse(xs: seq<Elem>): (r: seq<Elem>)
    ensures |r| == |xs|
    ensures forall k :: 0 <= k < |xs| ==> r[k] == xs[|xs| - 1 - k]
  {
    seq(|xs|, k requires 0 <= k < |xs| => xs[|xs| - 1 - k])
  }

  lemma ReverseLast(xs: seq<Elem>, e: Elem)
    ensures Reverse(xs + [e]) == [e] + Reverse(xs)
  {
  }

  lemma ReverseFirst(xs: seq<Elem>)
    requires xs != []
    ensures Reverse(xs)[0] == xs[|xs| - 1] && Reverse(xs)[1..] == Reverse(xs[..|xs| - 1])
    ensures Reverse(xs) == [xs[|xs| - 1]] + Reverse(xs[..|xs| - 1])
  {
  }

  /** The elements of magazines, each magazine newest first. */
  function Flat(xs: seq<Slot>): seq<Elem> {
    if xs == [] then [] else Reverse(xs[0].items) + Flat(xs[1..])
  }

  /** Slot 0, and then slot 1. */
  function PairQueue(p: Pair): seq<Elem> { Reverse(p.s0.items) + Reverse(p.s1.items) }

  /** The full magazines down to where the 16-bit counter reads 0. */
  function DepotQueue(d: Depot): seq<Elem> { Flat(d.full[..|d.full| % U16]) }

  /** What allocations on pair i return, in this order, if nobody else comes in between. */
  function Queue(s: State, i: nat): seq<Elem>
    requires i < |s.pairs|
  {
    PairQueue(s.pairs[i]) + DepotQueue(s.depot)
  }

  ghost predicate InOrder(s: State) { PairsOk(s.pairs) && AllFull(s.depot.full) }

  /** Only the newest element of slot 0 goes, and slot 1 is untouched, address and elements; when slot 0
      has become empty, and only then, the two are exchanged. */
  lemma PairAllocTakesNewest(p: Pair)
    requires PairOk(p) && p.Total() > 0
    ensures var (p', r) := PairAlloc(p); var rest := p.s0.items[..|p.s0.items| - 1];
            && r == Some(p.s0.items[|p.s0.items| - 1])
            && (rest != [] ==> p' == Pair(Slot(p.s0.mag, rest), p.s1))
            && (rest == [] ==> p' == Pair(p.s1, Slot(p.s0.mag, [])))
  {
  }

  /** A free fills slot 0 first, and goes to slot 1 only when slot 0 is full; the other slot is untouched. */
  lemma PairFreeFillsFirst(p: Pair, e: Elem)
    requires PairOk(p)
    ensures var p' := PairFree(p, e);
            if |p.s0.items| < 4 then p'.s1 == p.s1 && p'.s0.mag == p.s0.mag && p'.s0.items == p.s0.items + [e]
            else p'.s0 == p.s0 && p'.s1.mag == p.s1.mag && p'.s1.items == p.s1.items + [e]
  {
  }

  /** The magazine that was handed over last is the one that comes back first. */
  lemma FullMagazineComesBack(d: Depot, p: Pair, zalloc: Ptr, q: Pair)
    requires |p.s0.items| == MAG_DEPTH == |p.s1.items| && q.Total() == 0
    ensures var (d1, p1) := SwitchFull(d, p, zalloc); var (d2, q2) := SwitchEmpty(d1, q);
            && p1.s0 == p.s0 && p1.s1.items == []
            && if (|d.full| + 1) % U16 == 0 then d2 == d1 && q2 == q
               else q2 == Pair(p.s1, q.s1) && d2.full == d.full && d2.empty == [q.s0.mag] + d1.empty
  {
  }

  /** And an emptied magazine is used again before any older one, and before a new one is made. */
  lemma EmptyMagazineComesBack(d: Depot, p: Pair, zalloc: Ptr, q: Pair)
    requires |p.s0.items| == MAG_DEPTH == |p.s1.items| && q.Total() == 0 && |d.full| % U16 != 0
    ensures var (d1, q1) := SwitchEmpty(d, q); var (d2, p2) := SwitchFull(d1, p, zalloc);
            && p2.s0 == p.s0 && p2.s1.items == [] && q1 == Pair(d.full[0], q.s1)
            && if (|d.empty| + 1) % U16 == 0 then p2.s1.mag == zalloc && d2.empty == d1.empty
               else p2.s1.mag == q.s0.mag && d2.empty == d.empty
  {
  }

  lemma EmptyPairNext(d: Depot, p: Pair)
    requires p.Total() == 0 && AllFull(d.full) && |d.full| % U16 != 0
    ensures var (d', p') := SwitchEmpty(d, p);
            && PairOk(p') && p'.Total() == 4 && PairQueue(p') + DepotQueue(d') == DepotQueue(d)
  {
    var m := |d.full| % U16;
    assert d.full[1..][..m - 1] == d.full[..m][1..];
    assert (|d.full| - 1) % U16 == m - 1;
    assert Reverse(p.s1.items) == [];
  }

  lemma FullPairNext(d: Depot, p: Pair, zalloc: Ptr)
    requires |p.s0.items| == MAG_DEPTH == |p.s1.items|
    ensures var (d', p') := SwitchFull(d, p, zalloc); var q := PairQueue(p) + DepotQueue(d);
            PairQueue(p') + DepotQueue(d') == if (|d.full| + 1) % U16 == 0 then q[..4] else q
  {
    var full := [p.s1] + d.full;
    var m := |d.full| % U16;
    assert Reverse([]) == [];
    if (|d.full| + 1) % U16 == 0 {
      assert full[..0] == [];
    } else {
      assert (|d.full| + 1) % U16 == m + 1;
      assert full[..m + 1][1..] == d.full[..m];
    }
  }

  lemma PairNext(p: Pair)
    requires PairOk(p) && p.Total() > 0
    ensures var (p', r) := PairAlloc(p);
            PairQueue(p) != [] && r == Some(PairQueue(p)[0]) && PairQueue(p') == PairQueue(p)[1..]
  {
    ReverseFirst(p.s0.items);
    assert Reverse([]) == [];
  }

  lemma AllocOthers(s: State, i: nat)
    requires i < |s.pairs|
    ensures var s' := AllocElem(s, i).0;
            |s'.pairs| == |s.pairs| && forall j :: 0 <= j < |s.pairs| && j != i ==> s'.pairs[j] == s.pairs[j]
  {
  }

  lemma AllocFront(s: State, i: nat)
    requires InOrder(s) && i < |s.pairs|
    ensures var (s', r) := AllocElem(s, i); var q := Queue(s, i);
            |s'.pairs| == |s.pairs| &&
            (if q == [] then r == None && Queue(s', i) == [] else r == Some(q[0]) && Queue(s', i) == q[1..])
  {
    var p := s.pairs[i];
    if p.Total() > 0 {
      PairNext(p);
    } else if |s.depot.full| % U16 != 0 {
      EmptyPairNext(s.depot, p);
      PairNext(SwitchEmpty(s.depot, p).1);
    } else {
      assert s.depot.full[..0] == [];
    }
  }

  /** An allocation takes the front of the queue, or fails if there is none; no other pair is touched. */
  lemma AllocTakesFront(s: State, i: nat)
    requires InOrder(s) && i < |s.pairs|
    ensures InOrder(AllocElem(s, i).0)
    ensures var (s', r) := AllocElem(s, i); var q := Queue(s, i);
            && |s'.pairs| == |s.pairs| && (forall j :: 0 <= j < |s.pairs| && j != i ==> s'.pairs[j] == s.pairs[j])
            && (if q == [] then r == None && Queue(s', i) == [] else r == Some(q[0]) && Queue(s', i) == q[1..])
  {
    AllocConserves(s, i, Count);
    AllocOthers(s, i);
    AllocFront(s, i);
  }

  /** q with e at place k. */
  function Inserted(q: seq<Elem>, k: nat, e: Elem): seq<Elem>
    requires k <= |q|
  {
    q[..k] + [e] + q[k..]
  }

  /** Where a free puts its element: in front while slot 0 has room, behind slot 0 when it is full. */
  function Position(p: Pair): nat { if |p.s0.items| < 4 then 0 else 4 }

  lemma PairPut(p: Pair, e: Elem)
    requires PairOk(p)
    ensures Position(p) <= |PairQueue(p)| && PairQueue(PairFree(p, e)) == Inserted(PairQueue(p), Position(p), e)
  {
    if |p.s0.items| < 4 {
      ReverseLast(p.s0.items, e);
    } else {
      ReverseLast(p.s1.items, e);
    }
  }

  lemma PutAppend(q: seq<Elem>, k: nat, e: Elem, rest: seq<Elem>)
    requires k <= |q|
    ensures Inserted(q, k, e) + rest == Inserted(q + rest, k, e)
  {
    assert (q + rest)[..k] == q[..k] && (q + rest)[k..] == q[k..] + rest;
  }

  /** A free puts the element at the front of the queue as long as slot 0 has room, and behind slot 0, at
      position 4, when it is full.  Only when this hands over the magazine with which the 16-bit counter
      wraps to 0 is nothing left of the queue but slot 0.  No other pair is touched. */
  lemma FreePutsInFront(s: State, i: nat, e: Elem, zalloc: Ptr)
    requires InOrder(s) && i < |s.pairs|
    ensures InOrder(FreeElem(s, i, e, zalloc))
    ensures var s' := FreeElem(s, i, e, zalloc); var q, k := Queue(s, i), if |s.pairs[i].s0.items| < 4 then 0 else 4;
            && |s'.pairs| == |s.pairs| && (forall j :: 0 <= j < |s.pairs| && j != i ==> s'.pairs[j] == s.pairs[j])
            && k <= |q|
            && Queue(s', i) == if s.pairs[i].Total() == 7 && (|s.depot.full| + 1) % U16 == 0 then q[..4] else Inserted(q, k, e)
  {
    var p := s.pairs[i];
    FreeConserves(s, i, e, zalloc, Count);
    PairPut(p, e);
    PutAppend(PairQueue(p), Position(p), e, DepotQueue(s.depot));
    PairFreeConserves(p, e, Count);
    if PairFree(p, e).Total() == 8 {
      FullPairNext(s.depot, PairFree(p, e), zalloc);
    }
  }

  // ---------------------------------------------------------------- many calls

  /** k allocations on pair i, one after the other. */
  function AllocMany(s: State, i: nat, k: nat): (r: (State, seq<Option<Elem>>))
    requires i < |s.pairs|
    ensures |r.0.pairs| == |s.pairs| && |r.1| == k
  {
    if k == 0 then (s, [])
    else
      var (s1, rs) := AllocMany(s, i, k - 1);
      var (s2, r) := AllocElem(s1, i);
      (s2, rs + [r])
  }

  /** What is left of q when its first k have gone. */
  function Behind(q: seq<Elem>, k: nat): seq<Elem> { if k <= |q| then q[k..] else [] }

  /** They return the queue, element by element, and NULL when it is at its end. */
  lemma {:induction false} AllocManyTakesQueue(s: State, i: nat, k: nat)
    requires InOrder(s) && i < |s.pairs|
    ensures var (s', rs) := AllocMany(s, i, k); var q := Queue(s, i);
            && InOrder(s') && Queue(s', i) == Behind(q, k)
            && (forall j :: 0 <= j < k ==> rs[j] == if j < |q| then Some(q[j]) else None)
  {
    if k > 0 {
      AllocManyTakesQueue(s, i, k - 1);
      AllocTakesFront(AllocMany(s, i, k - 1).0, i);
    }
  }

  /** mag_free_elem of several elements, one after the other, on pair i. */
  function FreeMany(s: State, i: nat, elems: seq<Elem>, zallocs: seq<Ptr>): (r: State)
    requires i < |s.pairs| && |elems| <= |zallocs|
    ensures |r.pairs| == |s.pairs|
  {
    var n := |elems|;
    if n == 0 then s else FreeElem(FreeMany(s, i, elems[..n - 1], zallocs), i, elems[n - 1], zallocs[n - 1])
  }

  lemma {:induction false} FreeManyInOrder(s: State, i: nat, elems: seq<Elem>, zallocs: seq<Ptr>)
    requires InOrder(s) && i < |s.pairs| && |elems| <= |zallocs|
    ensures InOrder(FreeMany(s, i, elems, zallocs))
    decreases |elems|
  {
    var n := |elems|;
    if n > 0 {
      FreeManyInOrder(s, i, elems[..n - 1], zallocs);
      FreeConserves(FreeMany(s, i, elems[..n - 1], zallocs), i, elems[n - 1], zallocs[n - 1], Count);
    }
  }

  /** A free into a slot 0 that has room. */
  lemma FreeInFront(s: State, i: nat, e: Elem, zalloc: Ptr)
    requires InOrder(s) && i < |s.pairs| && |s.pairs[i].s0.items| < 4
    ensures var s' := FreeElem(s, i, e, zalloc);
            && InOrder(s') && i < |s'.pairs| && |s'.pairs[i].s0.items| == |s.pairs[i].s0.items| + 1
            && Queue(s', i) == [e] + Queue(s, i)
  {
    FreePutsInFront(s, i, e, zalloc);
  }

  lemma {:induction false} FreeManyQueue(s: State, i: nat, es: seq<Elem>, zallocs: seq<Ptr>)
    requires InOrder(s) && i < |s.pairs| && |es| <= |zallocs| && |s.pairs[i].s0.items| + |es| <= 4
    ensures var s' := FreeMany(s, i, es, zallocs);
            && |s'.pairs[i].s0.items| == |s.pairs[i].s0.items| + |es|
            && Queue(s', i) == Reverse(es) + Queue(s, i)
    decreases |es|
  {
    var n := |es|;
    if n > 0 {
      FreeManyQueue(s, i, es[..n - 1], zallocs);
      FreeManyInOrder(s, i, es[..n - 1], zallocs);
      FreeInFront(FreeMany(s, i, es[..n - 1], zallocs), i, es[n - 1], zallocs[n - 1]);
      ReverseFirst(es);
    }
  }

  /** What is freed while slot 0 has room comes back in the opposite order, and then what was there
      before. */
  lemma AllocsReturnFrees(s: State, i: nat, es: seq<Elem>, zallocs: seq<Ptr>)
    requires InOrder(s) && i < |s.pairs| && |es| <= |zallocs| && |s.pairs[i].s0.items| + |es| <= 4
    ensures var (s', rs) := AllocMany(FreeMany(s, i, es, zallocs), i, |es|);
            && (forall k :: 0 <= k < |es| ==> rs[k] == Some(es[|es| - 1 - k]))
            && Queue(s', i) == Queue(s, i)
  {
    FreeManyQueue(s, i, es, zallocs);
    FreeManyInOrder(s, i, es, zallocs);
    AllocManyTakesQueue(FreeMany(s, i, es, zallocs), i, |es|);
  }
}
