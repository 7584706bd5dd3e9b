/**
 Laws of the magazine allocator over whole runs: any sequence of mag_alloc_elem and mag_free_elem
 calls, made from any pairs (CPU and context) in any order.
 */
module AllocatorRuns {
  import opened Magazine

  datatype Op = Alloc(i: nat) | Free(i: nat, e: Elem, zalloc: Ptr)

  /** The pair exists, and kzalloc would return an address that is not in use. */
  ghost predicate Legal(s: State, op: Op) {
    op.i < |s.pairs| && (op.Free? ==> Places(s, op.zalloc) == 0)
  }

  function Step(s: State, op: Op): (State, Option<Elem>)
    requires op.i < |s.pairs|
  {
    match op
    case Alloc(i) => AllocElem(s, i)
    case Free(i, e, zalloc) => (FreeElem(s, i, e, zalloc), None)
  }

  ghost predicate LegalRun(s: State, ops: seq<Op>)
    decreases |ops|
  {
    ops == [] || (Legal(s, ops[0]) && LegalRun(Step(s, ops[0]).0, ops[1..]))
  }

  ghost function Run(s: State, ops: seq<Op>): State
    requires LegalRun(s, ops)
    decreases |ops|
  {
    if ops == [] then s else Run(Step(s, ops[0]).0, ops[1..])
  }

  lemma StepKeeps(s: State, op: Op)
    requires StateOk(s) && Legal(s, op)
    ensures StateOk(Step(s, op).0) && |Step(s, op).0.pairs| == |s.pairs|
  {
    match op
    case Alloc(i) => AllocKeeps(s, i);
    case Free(i, e, zalloc) => FreeKeeps(s, i, e, zalloc);
  }

  /** Over every run the pair totals stay at most 7, slot 0 of a pair is non-empty whenever the pair
      is, full magazines are full, and no magazine sits at two places. */
  lemma {:induction false} RunKeeps(s: State, ops: seq<Op>)
    requires StateOk(s) && LegalRun(s, ops)
    ensures StateOk(Run(s, ops)) && |Run(s, ops).pairs| == |s.pairs|
    decreases |ops|
  {
    if ops != [] {
      StepKeeps(s, ops[0]);
      RunKeeps(Step(s, ops[0]).0, ops[1..]);
    }
  }

  lemma {:induction false} RunAppend(s: State, ops: seq<Op>, more: seq<Op>)
    requires LegalRun(s, ops) && LegalRun(Run(s, ops), more)
    ensures LegalRun(s, ops + more) && Run(s, ops + more) == Run(Run(s, ops), more)
    decreases |ops|
  {
    if ops == [] {
      assert ops + more == more;
    } else {
      assert (ops + more)[1..] == ops[1..] + more;
      RunAppend(Step(s, ops[0]).0, ops[1..], more);
    }
  }

  // ---------------------------------------------------------------- the bag

  /** How often a run hands e out, and how often it takes e in. */
  ghost function HandedOut(s: State, ops: seq<Op>, e: Elem): nat
    requires LegalRun(s, ops)
    decreases |ops|
  {
    if ops == [] then 0
    else (if Step(s, ops[0]).1 == Some(e) then 1 else 0) + HandedOut(Step(s, ops[0]).0, ops[1..], e)
  }

  ghost function TakenIn(ops: seq<Op>, e: Elem): nat {
    if ops == [] then 0
    else (if ops[0].Free? && ops[0].e == e then 1 else 0) + TakenIn(ops[1..], e)
  }

  /** The allocator is a bag: over any run from any pairs, what is held of e is what was held, plus
      what was taken in, minus what was handed out. */
  lemma {:induction false} RunIsBag(s: State, ops: seq<Op>, e: Elem)
    requires StateOk(s) && LegalRun(s, ops)
    ensures Held(Run(s, ops), e) + HandedOut(s, ops, e) == Held(s, e) + TakenIn(ops, e)
    decreases |ops|
  {
    if ops != [] {
      StepKeeps(s, ops[0]);
      match ops[0] {
        case Alloc(i) => AllocConserves(s, i, Item(e));
        case Free(i, x, zalloc) => FreeConserves(s, i, x, zalloc, Item(e));
      }
      RunIsBag(Step(s, ops[0]).0, ops[1..], e);
    }
  }

  /** An element held once is not handed out twice unless it is freed in between. */
  lemma NoDoubleHandOut(s: State, ops: seq<Op>, e: Elem)
    requires StateOk(s) && LegalRun(s, ops) && Held(s, e) <= 1
    requires HandedOut(s, ops, e) >= 2
    ensures TakenIn(ops, e) >= 1
  {
    RunIsBag(s, ops, e);
  }

  /** Callers free only elements that are outside. */
  ghost predicate Disciplined(s: State, ops: seq<Op>)
    requires LegalRun(s, ops)
    decreases |ops|
  {
    ops == [] ||
    ((ops[0].Free? ==> Held(s, ops[0].e) == 0) && Disciplined(Step(s, ops[0]).0, ops[1..]))
  }

  /** Then no element is ever held twice, wherever it sits. */
  lemma {:induction false} HeldOnce(s: State, ops: seq<Op>)
    requires StateOk(s) && LegalRun(s, ops) && Disciplined(s, ops)
    requires forall e :: Held(s, e) <= 1
    ensures forall e :: Held(Run(s, ops), e) <= 1
    decreases |ops|
  {
    if ops != [] {
      StepKeeps(s, ops[0]);
      var s' := Step(s, ops[0]).0;
      forall e ensures Held(s', e) <= 1 {
        assert Held(s, e) <= 1;
        match ops[0] {
          case Alloc(i) => AllocConserves(s, i, Item(e));
          case Free(i, x, zalloc) => FreeConserves(s, i, x, zalloc, Item(e));
        }
      }
      HeldOnce(s', ops[1..]);
    }
  }

  // ---------------------------------------------------------------- depot high-water law

  /** Magazines in the depot. */
  function InDepot(s: State): nat { |s.depot.full| + |s.depot.empty| }

  /** The largest number of full magazines in the depot at any point of the run. */
  ghost function Peak(s: State, ops: seq<Op>): nat
    requires LegalRun(s, ops)
    ensures Peak(s, ops) >= |s.depot.full|
    decreases |ops|
  {
    if ops == [] then |s.depot.full| else Max(|s.depot.full|, Peak(Step(s, ops[0]).0, ops[1..]))
  }

  /** Whether the step calls kzalloc for a magazine. */
  predicate Creates(s: State, op: Op)
    requires op.i < |s.pairs|
  {
    op.Free? && FreeCreates(s, op.i)
  }

  /** The depot holds as many magazines as there were ever full ones, and no more of the full ones have
      gone than the 16-bit counter lets go: a pop needs a counter that does not read 0. */
  ghost predicate Floor(s: State, peak: nat) { InDepot(s) == peak && |s.depot.full| >= peak / U16 * U16 }

  /** One step keeps "the depot holds as many magazines as there were ever full ones" exactly unless
      it exchanges a full magazine while the 16-bit count of empty ones has wrapped to 0, and creates a
      magazine exactly when it sets a new maximum.  Above the floor it has not wrapped, and the step
      stays above it. */
  lemma HighWaterStep(s: State, op: Op, peak: nat)
    requires StateOk(s) && Legal(s, op) && InDepot(s) == peak
    ensures var s' := Step(s, op).0;
            var wrapped := op.Free? && s.pairs[op.i].Total() == 7 && s.depot.empty != [] && |s.depot.empty| % U16 == 0;
            && (InDepot(s') == Max(peak, |s'.depot.full|) <==> !wrapped)
            && (!wrapped ==> (Creates(s, op) <==> |s'.depot.full| > peak))
            && (Floor(s, peak) ==> !wrapped && Floor(s', Max(peak, |s'.depot.full|)))
  {
    match op
    case Alloc(i) =>
      SwitchEmptyKeepsCount(s, i);
    case Free(i, e, zalloc) =>
      var p := PairFree(s.pairs[i], e);
      PairFreeConserves(s.pairs[i], e, Count);
  }

  lemma SwitchEmptyKeepsCount(s: State, i: nat)
    requires i < |s.pairs|
    ensures InDepot(AllocElem(s, i).0) == InDepot(s)
    ensures |AllocElem(s, i).0.depot.full| == |s.depot.full| - (if Exchanges(s, Alloc(i)) then 1 else 0)
  {
  }

  ghost function Created(s: State, ops: seq<Op>): nat
    requires LegalRun(s, ops)
    decreases |ops|
  {
    if ops == [] then 0
    else (if Creates(s, ops[0]) then 1 else 0) + Created(Step(s, ops[0]).0, ops[1..])
  }

  /** The high-water law over every run from above the floor: the depot holds exactly as many magazines,
      full or empty, as the maximum of full ones so far, and that many were created. */
  lemma {:induction false} HighWater(s: State, ops: seq<Op>)
    requires StateOk(s) && LegalRun(s, ops) && Floor(s, InDepot(s))
    ensures InDepot(Run(s, ops)) == Max(InDepot(s), Peak(s, ops))
    ensures Created(s, ops) == InDepot(Run(s, ops)) - InDepot(s)
    ensures Floor(Run(s, ops), InDepot(Run(s, ops)))
    decreases |ops|
  {
    if ops != [] {
      StepKeeps(s, ops[0]);
      HighWaterStep(s, ops[0], InDepot(s));
      HighWater(Step(s, ops[0]).0, ops[1..]);
    }
  }

  /** From a fresh allocator, whatever the length of the run: the magazines in existence are two per pair
      plus the maximum, and fewer than 65536 of them are empty ones in the depot. */
  lemma HighWaterFromInit(zalloc: seq<Ptr>, ops: seq<Op>)
    requires |zalloc| % 2 == 0 && Distinct(zalloc) && LegalRun(InitState(zalloc), ops)
    ensures var s := InitState(zalloc);
            && InDepot(Run(s, ops)) == Peak(s, ops) == Created(s, ops)
            && |Run(s, ops).depot.full| >= Peak(s, ops) / U16 * U16
            && |Run(s, ops).depot.empty| < U16
  {
    InitOk(zalloc);
    HighWater(InitState(zalloc), ops);
  }

  // ---------------------------------------------------------------- buried magazines

  /** The full magazines that lie below a multiple of 65536 in the full list, the oldest ones. */
  function Buried(s: State): seq<Slot> { s.depot.full[|s.depot.full| % U16..] }

  ghost predicate EndsWith(xs: seq<Slot>, ys: seq<Slot>) { |ys| <= |xs| && xs[|xs| - |ys|..] == ys }

  lemma EndsLonger(xs: seq<Slot>, ys: seq<Slot>, x: Slot)
    requires EndsWith(xs, ys)
    ensures EndsWith([x] + xs, ys)
  {
    assert ([x] + xs)[|xs| + 1 - |ys|..] == xs[|xs| - |ys|..];
  }

  lemma EndsShorter(xs: seq<Slot>, ys: seq<Slot>)
    requires EndsWith(xs, ys) && |ys| < |xs|
    ensures EndsWith(xs[1..], ys)
  {
    assert xs[1..][|xs| - 1 - |ys|..] == xs[|xs| - |ys|..];
  }

  /** What a step does to the full list: it pushes one magazine, or pops one unless the length is a
      multiple of 65536, or leaves it alone. */
  lemma FullStep(s: State, op: Op)
    requires StateOk(s) && Legal(s, op)
    ensures var full, full' := s.depot.full, Step(s, op).0.depot.full;
            if !Exchanges(s, op) then full' == full
            else if op.Free? then full' == [PairFree(s.pairs[op.i], op.e).s1] + full
            else |full| % U16 != 0 && full' == full[1..]
  {
    if op.Free? {
      PairFreeConserves(s.pairs[op.i], op.e, Count);
    }
  }

  lemma BuriedStep(s: State, op: Op, ys: seq<Slot>)
    requires StateOk(s) && Legal(s, op) && EndsWith(s.depot.full, ys) && |ys| % U16 == 0
    ensures EndsWith(Step(s, op).0.depot.full, ys)
  {
    FullStep(s, op);
    if Exchanges(s, op) {
      if op.Free? {
        EndsLonger(s.depot.full, ys, PairFree(s.pairs[op.i], op.e).s1);
      } else {
        EndsShorter(s.depot.full, ys);
      }
    }
  }

  lemma {:induction false} BuriedRun(s: State, ops: seq<Op>, ys: seq<Slot>)
    requires StateOk(s) && LegalRun(s, ops) && EndsWith(s.depot.full, ys) && |ys| % U16 == 0
    ensures EndsWith(Run(s, ops).depot.full, ys)
    decreases |ops|
  {
    if ops != [] {
      StepKeeps(s, ops[0]);
      BuriedStep(s, ops[0], ys);
      BuriedRun(Step(s, ops[0]).0, ops[1..], ys);
    }
  }

  /** Once 65536 magazines have been full in the depot, the 65536 oldest stay in the full list for ever,
      with what is in them: the list never shrinks past a multiple of 65536. */
  lemma BuriedForever(s: State, ops: seq<Op>)
    requires StateOk(s) && LegalRun(s, ops)
    ensures |Buried(s)| == |s.depot.full| / U16 * U16
    ensures EndsWith(Run(s, ops).depot.full, Buried(s))
    ensures Size(Run(s, ops)) >= MAG_DEPTH * |Buried(s)|
  {
    BuriedRun(s, ops, Buried(s));
    RunKeeps(s, ops);
    SizeSplit(Run(s, ops));
  }

  /** How often e is in the magazines. */
  ghost function In(e: Elem, xs: seq<Slot>): nat { SlotsWeight(Item(e), xs) }

  lemma {:induction false} TailWeight(w: Measure, xs: seq<Slot>, k: nat)
    requires k <= |xs|
    ensures SlotsWeight(w, xs[k..]) <= SlotsWeight(w, xs)
  {
    if k > 0 {
      assert xs[1..][k - 1..] == xs[k..];
      TailWeight(w, xs[1..], k - 1);
    }
  }

  lemma BuriedHeld(s: State, e: Elem, ys: seq<Slot>)
    requires EndsWith(s.depot.full, ys)
    ensures In(e, ys) <= Held(s, e)
  {
    TailWeight(Item(e), s.depot.full, |s.depot.full| - |ys|);
  }

  lemma {:induction false} NotTakenIn(s: State, ops: seq<Op>, e: Elem, ys: seq<Slot>)
    requires StateOk(s) && LegalRun(s, ops) && Disciplined(s, ops)
    requires EndsWith(s.depot.full, ys) && |ys| % U16 == 0 && In(e, ys) > 0
    ensures TakenIn(ops, e) == 0
    decreases |ops|
  {
    if ops != [] {
      BuriedHeld(s, e, ys);
      StepKeeps(s, ops[0]);
      BuriedStep(s, ops[0], ys);
      NotTakenIn(Step(s, ops[0]).0, ops[1..], e, ys);
    }
  }

  /** So no element in them is handed out again, as long as callers free only what is outside. */
  lemma BuriedNotHandedOut(s: State, ops: seq<Op>, e: Elem)
    requires StateOk(s) && LegalRun(s, ops) && Disciplined(s, ops)
    requires In(e, Buried(s)) > 0 && Held(s, e) <= 1
    ensures HandedOut(s, ops, e) == 0 && TakenIn(ops, e) == 0
  {
    BuriedForever(s, ops);
    NotTakenIn(s, ops, e, Buried(s));
    BuriedHeld(Run(s, ops), e, Buried(s));
    RunIsBag(s, ops, e);
  }

  // ---------------------------------------------------------------- amortised depot traffic

  /** Whether the step successfully exchanges a magazine with the depot. */
  predicate Exchanges(s: State, op: Op)
    requires op.i < |s.pairs|
  {
    match op
    case Alloc(i) => s.pairs[i].Total() == 0 && |s.depot.full| % U16 != 0
    case Free(i, _, _) => s.pairs[i].Total() == 7
  }

  /** Operations of the run on pair i, and those of them that exchange a magazine. */
  ghost function OpsOn(ops: seq<Op>, i: nat): nat {
    if ops == [] then 0 else (if ops[0].i == i then 1 else 0) + OpsOn(ops[1..], i)
  }

  ghost function ExchangesOn(s: State, ops: seq<Op>, i: nat): nat
    requires LegalRun(s, ops)
    decreases |ops|
  {
    if ops == [] then 0
    else (if ops[0].i == i && Exchanges(s, ops[0]) then 1 else 0) + ExchangesOn(Step(s, ops[0]).0, ops[1..], i)
  }

  /** How many operations on a pair with t elements are needed to reach the next exchange. */
  function Distance(t: nat): int { if 8 - t < t + 1 then 8 - t else t + 1 }

  lemma DistanceStep(s: State, op: Op)
    requires StateOk(s) && Legal(s, op)
    ensures var s' := Step(s, op).0;
            && |s'.pairs| == |s.pairs|
            && (forall j :: 0 <= j < |s.pairs| && j != op.i ==> s'.pairs[j] == s.pairs[j])
            && (if Exchanges(s, op)
                then Distance(s.pairs[op.i].Total()) == 1 && Distance(s'.pairs[op.i].Total()) == 4
                else Distance(s'.pairs[op.i].Total()) >= Distance(s.pairs[op.i].Total()) - 1)
  {
    StepKeeps(s, op);
    match op
    case Alloc(i) =>
      var p := s.pairs[i];
      if p.Total() == 0 {
        SwitchEmptyConserves(s.depot, p, Count);
      }
      PairAllocConserves(if p.Total() == 0 then SwitchEmpty(s.depot, p).1 else p, Count);
    case Free(i, e, zalloc) =>
      PairFreeConserves(s.pairs[i], e, Count);
      if PairFree(s.pairs[i], e).Total() == 8 {
        SwitchFullConserves(s.depot, PairFree(s.pairs[i], e), zalloc, Count);
      }
  }

  /** However the other pairs use the depot meanwhile, four exchanges of pair i cost it at least four
      operations beyond the distance it starts from. */
  lemma {:induction false} AmortisedFrom(s: State, ops: seq<Op>, i: nat)
    requires StateOk(s) && LegalRun(s, ops) && i < |s.pairs|
    ensures i < |Run(s, ops).pairs|
    ensures 4 * ExchangesOn(s, ops, i) <=
            OpsOn(ops, i) + Distance(Run(s, ops).pairs[i].Total()) - Distance(s.pairs[i].Total())
    decreases |ops|
  {
    if ops != [] {
      StepKeeps(s, ops[0]);
      DistanceStep(s, ops[0]);
      AmortisedFrom(Step(s, ops[0]).0, ops[1..], i);
    }
  }

  /** Any n operations on a pair that starts empty exchange at most (n + 3) / 4 magazines. */
  lemma Amortised(s: State, ops: seq<Op>, i: nat)
    requires StateOk(s) && LegalRun(s, ops) && i < |s.pairs| && s.pairs[i].Total() == 0
    ensures ExchangesOn(s, ops, i) <= (OpsOn(ops, i) + 3) / 4
  {
    AmortisedFrom(s, ops, i);
  }
}
