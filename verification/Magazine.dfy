/**
 The value-level model of the magazine allocator (tcpsplit/magazine.c): what one operation on one
 per-CPU magazine pair does to the pair and to the shared depot, and what every operation keeps.

 A slot is one magazine together with the elements below its count, oldest first.  The depot lists
 are sequences whose index 0 is the list head, the end that list_add and list_del_init work on.
 */
module Magazine {

  datatype Ptr = Ptr(bits: bv64)   // address of a magazine
  type Elem = nat   // a cached object, known by its identity

  const MAG_DEPTH: nat := 4
  const U16: nat := 0x1_0000

  datatype Option<+T> = None | Some(value: T)

  function Max(a: nat, b: nat): nat { if a < b then b else a }

  datatype Slot = Slot(mag: Ptr, items: seq<Elem>)

  datatype Pair = Pair(s0: Slot, s1: Slot) {
    function Total(): nat { |s0.items| + |s1.items| }
  }

  datatype Depot = Depot(full: seq<Slot>, empty: seq<Ptr>)

  datatype State = State(pairs: seq<Pair>, depot: Depot)

  // ---------------------------------------------------------------- what is counted

  /** The quantities that are counted over an allocator: how often an element is held, at how many
      places a magazine sits, and how many elements are held in all. */
  datatype Measure = Item(e: Elem) | Place(m: Ptr) | Count

  ghost function SlotWeight(w: Measure, s: Slot): nat {
    match w
    case Item(e) => multiset(s.items)[e]
    case Place(m) => if s.mag == m then 1 else 0
    case Count => |s.items|
  }

  ghost function PairWeight(w: Measure, p: Pair): nat { SlotWeight(w, p.s0) + SlotWeight(w, p.s1) }

  ghost function PairsWeight(w: Measure, ps: seq<Pair>): nat {
    if ps == [] then 0 else PairWeight(w, ps[0]) + PairsWeight(w, ps[1..])
  }

  ghost function SlotsWeight(w: Measure, xs: seq<Slot>): nat {
    if xs == [] then 0 else SlotWeight(w, xs[0]) + SlotsWeight(w, xs[1..])
  }

  ghost function EmptyWeight(w: Measure, ms: seq<Ptr>): nat {
    if ms == [] then 0 else (if w == Place(ms[0]) then 1 else 0) + EmptyWeight(w, ms[1..])
  }

  ghost function DepotWeight(w: Measure, d: Depot): nat { SlotsWeight(w, d.full) + EmptyWeight(w, d.empty) }

  ghost function Weigh(w: Measure, s: State): nat { PairsWeight(w, s.pairs) + DepotWeight(w, s.depot) }

  /** The bag the allocator stands for: how many times e is below a count of a pair or in a full
      magazine of the depot. */
  ghost function Held(s: State, e: Elem): nat { Weigh(Item(e), s) }

  /** At how many places (slots of pairs, full list, empty list) magazine m sits. */
  ghost function Places(s: State, m: Ptr): nat { Weigh(Place(m), s) }

  /** How many elements the allocator holds. */
  ghost function Size(s: State): nat { Weigh(Count, s) }

  lemma {:induction false} PairsUpdate(w: Measure, ps: seq<Pair>, i: nat, p: Pair)
    requires i < |ps|
    ensures PairsWeight(w, ps[i := p]) + PairWeight(w, ps[i]) == PairsWeight(w, ps) + PairWeight(w, p)
  {
    var qs := ps[i := p];
    if i == 0 {
      assert qs[1..] == ps[1..];
    } else {
      assert qs[0] == ps[0] && qs[1..] == ps[1..][i - 1 := p];
      PairsUpdate(w, ps[1..], i - 1, p);
    }
  }

  lemma {:induction false} PairsPart(w: Measure, ps: seq<Pair>, i: nat)
    requires i < |ps|
    ensures PairWeight(w, ps[i]) <= PairsWeight(w, ps)
  {
    if i > 0 {
      PairsPart(w, ps[1..], i - 1);
    }
  }

  lemma {:induction false} PairsTwoParts(w: Measure, ps: seq<Pair>, i: nat, j: nat)
    requires i < j < |ps|
    ensures PairWeight(w, ps[i]) + PairWeight(w, ps[j]) <= PairsWeight(w, ps)
  {
    if i > 0 {
      PairsTwoParts(w, ps[1..], i - 1, j - 1);
    } else {
      PairsPart(w, ps[1..], j - 1);
    }
  }

  lemma {:induction false} SlotsPart(w: Measure, xs: seq<Slot>, i: nat)
    requires i < |xs|
    ensures SlotWeight(w, xs[i]) <= SlotsWeight(w, xs)
  {
    if i > 0 {
      SlotsPart(w, xs[1..], i - 1);
    }
  }

  lemma SlotsCons(w: Measure, x: Slot, xs: seq<Slot>)
    ensures SlotsWeight(w, [x] + xs) == SlotWeight(w, x) + SlotsWeight(w, xs)
  {
    assert ([x] + xs)[1..] == xs;
  }

  lemma EmptyCons(w: Measure, m: Ptr, ms: seq<Ptr>)
    ensures EmptyWeight(w, [m] + ms) == EmptyWeight(w, ms) + (if w == Place(m) then 1 else 0)
  {
    assert ([m] + ms)[1..] == ms;
  }

  lemma {:induction false} EmptyPart(ms: seq<Ptr>, k: nat)
    requires k < |ms|
    ensures EmptyWeight(Place(ms[k]), ms) >= 1
  {
    if k > 0 {
      EmptyPart(ms[1..], k - 1);
    }
  }

  // ---------------------------------------------------------------- the operations

  /** mag_pair_alloc: pop slot 0, and keep the elements in slot 0 by swapping an emptied one away. */
  function PairAlloc(p: Pair): (Pair, Option<Elem>) {
    if p.s0.items == [] then (p, None)
    else
      var n := |p.s0.items| - 1;
      var s0 := p.s0.(items := p.s0.items[..n]);
      (if n == 0 then Pair(p.s1, s0) else p.(s0 := s0), Some(p.s0.items[n]))
  }

  /** mag_pair_free: push on slot 0, or on slot 1 when slot 0 is full. */
  function PairFree(p: Pair, e: Elem): Pair {
    if |p.s0.items| == MAG_DEPTH then p.(s1 := p.s1.(items := p.s1.items + [e]))
    else p.(s0 := p.s0.(items := p.s0.items + [e]))
  }

  /** mag_allocator_switch_full: hand a full magazine to the depot for an empty or a new one.  The
      empty list is consulted through its 16-bit counter. */
  function SwitchFull(d: Depot, p: Pair, zalloc: Ptr): (Depot, Pair) {
    var one := |p.s1.items| == MAG_DEPTH;
    var full := [if one then p.s1 else p.s0] + d.full;
    var reuse := |d.empty| % U16 != 0;
    var slot := Slot(if reuse then d.empty[0] else zalloc, []);
    (Depot(full, if reuse then d.empty[1..] else d.empty),
     if one then p.(s1 := slot) else p.(s0 := slot))
  }

  /** mag_allocator_switch_empty: trade an empty magazine for a full one, when the 16-bit counter
      says that there is one. */
  function SwitchEmpty(d: Depot, p: Pair): (Depot, Pair) {
    if |d.full| % U16 == 0 then (d, p)
    else if p.s0.items != [] then (Depot(d.full[1..], [p.s1.mag] + d.empty), p.(s1 := d.full[0]))
    else (Depot(d.full[1..], [p.s0.mag] + d.empty), p.(s0 := d.full[0]))
  }

  /** mag_alloc_elem on pair i. */
  function AllocElem(s: State, i: nat): (State, Option<Elem>)
    requires i < |s.pairs|
  {
    var (d, p) := if s.pairs[i].Total() == 0 then SwitchEmpty(s.depot, s.pairs[i]) else (s.depot, s.pairs[i]);
    var (p', r) := PairAlloc(p);
    (State(s.pairs[i := p'], d), r)
  }

  /** mag_free_elem of e on pair i; zalloc is the address kzalloc returns if it is called. */
  function FreeElem(s: State, i: nat, e: Elem, zalloc: Ptr): State
    requires i < |s.pairs|
  {
    var p := PairFree(s.pairs[i], e);
    var (d, p') := if p.Total() == 2 * MAG_DEPTH then SwitchFull(s.depot, p, zalloc) else (s.depot, p);
    State(s.pairs[i := p'], d)
  }

  /** Whether this free makes the allocator call kzalloc for a new magazine. */
  predicate FreeCreates(s: State, i: nat)
    requires i < |s.pairs|
  {
    s.pairs[i].Total() == 7 && |s.depot.empty| % U16 == 0
  }

  /** The count that refill_pool computes: int arithmetic on the 16-bit counter, negative cut to 0. */
  function Deficit(poolSize: nat, s: State): nat {
    var count := poolSize - 4 * (|s.depot.full| % U16);
    if count < 0 then 0 else count
  }

  // ---------------------------------------------------------------- the invariant

  /** What holds of a pair between operations. */
  ghost predicate PairOk(p: Pair) {
    && |p.s0.items| <= MAG_DEPTH
    && |p.s1.items| < MAG_DEPTH
    && (p.s0.items == [] ==> p.s1.items == [])
  }

  ghost predicate PairsOk(ps: seq<Pair>) { forall i :: 0 <= i < |ps| ==> PairOk(ps[i]) }

  ghost predicate AllFull(xs: seq<Slot>) { forall i :: 0 <= i < |xs| ==> |xs[i].items| == MAG_DEPTH }

  /** No magazine sits at two places. */
  ghost predicate Once(s: State) { forall m {:trigger Places(s, m)} :: Places(s, m) <= 1 }

  /** The magazines of the allocator are exactly `mags`, each at exactly one place. */
  ghost predicate Located(s: State, mags: set<Ptr>) {
    forall m {:trigger Places(s, m)} :: Places(s, m) == if m in mags then 1 else 0
  }

  ghost predicate StateOk(s: State) { PairsOk(s.pairs) && AllFull(s.depot.full) && Once(s) }

  /** mag_allocator_init: every pair gets two empty magazines, the depot starts empty. */
  function InitState(zalloc: seq<Ptr>): State {
    State(InitPairs(zalloc), Depot([], []))
  }

  function InitPairs(zalloc: seq<Ptr>): (ps: seq<Pair>)
    ensures |ps| == |zalloc| / 2
  {
    seq(|zalloc| / 2, i requires 0 <= i < |zalloc| / 2 => Pair(Slot(zalloc[2 * i], []), Slot(zalloc[2 * i + 1], [])))
  }

  ghost predicate Distinct(ms: seq<Ptr>) { forall i, j :: 0 <= i < j < |ms| ==> ms[i] != ms[j] }

  lemma {:induction false} InitWeight(w: Measure, zalloc: seq<Ptr>)
    requires |zalloc| % 2 == 0
    ensures PairsWeight(w, InitPairs(zalloc)) == EmptyWeight(w, zalloc)
  {
    if zalloc != [] {
      var ps := InitPairs(zalloc);
      assert ps[1..] == InitPairs(zalloc[2..]);
      assert zalloc == [zalloc[0]] + ([zalloc[1]] + zalloc[2..]);
      EmptyCons(w, zalloc[1], zalloc[2..]);
      EmptyCons(w, zalloc[0], [zalloc[1]] + zalloc[2..]);
      InitWeight(w, zalloc[2..]);
    }
  }

  lemma {:induction false} DistinctOnce(ms: seq<Ptr>, m: Ptr)
    requires Distinct(ms)
    ensures EmptyWeight(Place(m), ms) == if m in ms then 1 else 0
  {
    if ms != [] {
      DistinctOnce(ms[1..], m);
    }
  }

  /** A fresh allocator is in order, holds nothing, and has each of its magazines in one place. */
  lemma InitOk(zalloc: seq<Ptr>)
    requires |zalloc| % 2 == 0 && Distinct(zalloc)
    ensures StateOk(InitState(zalloc))
    ensures forall e :: Held(InitState(zalloc), e) == 0
    ensures Located(InitState(zalloc), set m | m in zalloc)
    ensures forall i :: 0 <= i < |zalloc| / 2 ==>
              var p := InitState(zalloc).pairs[i]; p.s0.mag == zalloc[2 * i] && p.s1.mag == zalloc[2 * i + 1] && p.Total() == 0
  {
    forall e ensures Held(InitState(zalloc), e) == 0 {
      InitWeight(Item(e), zalloc);
      EmptySize(Item(e), zalloc);
    }
    forall m ensures Places(InitState(zalloc), m) == if m in zalloc then 1 else 0 {
      InitWeight(Place(m), zalloc);
      DistinctOnce(zalloc, m);
    }
  }

  // ---------------------------------------------------------------- what the operations keep

  /** What r takes out of a count. */
  ghost function Taken(w: Measure, r: Option<Elem>): nat {
    if r.Some? && (w == Item(r.value) || w == Count) then 1 else 0
  }

  lemma PopWeight(w: Measure, s: Slot)
    requires s.items != []
    ensures var n := |s.items| - 1;
            SlotWeight(w, s) == SlotWeight(w, s.(items := s.items[..n])) + Taken(w, Some(s.items[n]))
  {
    var n := |s.items| - 1;
    assert s.items == s.items[..n] + [s.items[n]];
  }

  lemma PairAllocConserves(p: Pair, w: Measure)
    requires PairOk(p)
    ensures var (p', r) := PairAlloc(p);
            && PairOk(p') && PairWeight(w, p) == PairWeight(w, p') + Taken(w, r)
            && (r == None <==> p.Total() == 0)
  {
    if p.s0.items != [] {
      PopWeight(w, p.s0);
    }
  }

  lemma PairFreeConserves(p: Pair, e: Elem, w: Measure)
    requires PairOk(p)
    ensures var p' := PairFree(p, e);
            && PairWeight(w, p') == PairWeight(w, p) + Taken(w, Some(e))
            && p'.Total() == p.Total() + 1
            && (p'.Total() < 8 ==> PairOk(p'))
            && (p'.Total() == 8 ==> |p'.s0.items| == MAG_DEPTH == |p'.s1.items|)
  {
  }

  lemma SwitchFullConserves(d: Depot, p: Pair, zalloc: Ptr, w: Measure)
    requires |p.s0.items| == MAG_DEPTH == |p.s1.items|
    ensures var (d', p') := SwitchFull(d, p, zalloc);
            && PairOk(p') && p'.Total() == 4 && d'.full == [p.s1] + d.full
            && PairWeight(w, p') + DepotWeight(w, d') == PairWeight(w, p) + DepotWeight(w, d) +
               (if |d.empty| % U16 == 0 && w == Place(zalloc) then 1 else 0)
  {
    SlotsCons(w, p.s1, d.full);
    if |d.empty| % U16 != 0 {
      assert d.empty == [d.empty[0]] + d.empty[1..];
      EmptyCons(w, d.empty[0], d.empty[1..]);
    }
  }

  lemma SwitchEmptyConserves(d: Depot, p: Pair, w: Measure)
    requires p.Total() == 0 && AllFull(d.full)
    ensures var (d', p') := SwitchEmpty(d, p);
            && PairOk(p') && AllFull(d'.full)
            && p'.Total() == (if |d.full| % U16 == 0 then 0 else 4)
            && PairWeight(w, p') + DepotWeight(w, d') == PairWeight(w, p) + DepotWeight(w, d)
  {
    EmptyCons(w, p.s0.mag, d.empty);
  }

  /** mag_alloc_elem takes exactly the element it returns out of the bag, moves no magazine in or
      out, keeps the invariant, and fails exactly when its own pair is empty and the 16-bit counter
      of full magazines reads 0. */
  lemma AllocConserves(s: State, i: nat, w: Measure)
    requires PairsOk(s.pairs) && AllFull(s.depot.full) && i < |s.pairs|
    ensures var (s', r) := AllocElem(s, i);
            && PairsOk(s'.pairs) && AllFull(s'.depot.full) && |s'.pairs| == |s.pairs|
            && Weigh(w, s) == Weigh(w, s') + Taken(w, r)
            && (r == None <==> s.pairs[i].Total() == 0 && |s.depot.full| % U16 == 0)
  {
    var p := s.pairs[i];
    if p.Total() == 0 {
      SwitchEmptyConserves(s.depot, p, w);
    }
    var (d1, p1) := if p.Total() == 0 then SwitchEmpty(s.depot, p) else (s.depot, p);
    PairAllocConserves(p1, w);
    PairsUpdate(w, s.pairs, i, PairAlloc(p1).0);
  }

  /** mag_free_elem puts exactly its argument into the bag and keeps the invariant; the only
      magazine that can join the allocator is the one kzalloc returns. */
  lemma FreeConserves(s: State, i: nat, e: Elem, zalloc: Ptr, w: Measure)
    requires PairsOk(s.pairs) && AllFull(s.depot.full) && i < |s.pairs|
    ensures var s' := FreeElem(s, i, e, zalloc);
            && PairsOk(s'.pairs) && AllFull(s'.depot.full) && |s'.pairs| == |s.pairs|
            && Weigh(w, s') == Weigh(w, s) + Taken(w, Some(e)) +
               (if FreeCreates(s, i) && w == Place(zalloc) then 1 else 0)
  {
    var p := s.pairs[i];
    PairFreeConserves(p, e, w);
    var p1 := PairFree(p, e);
    if p1.Total() == 8 {
      SwitchFullConserves(s.depot, p1, zalloc, w);
    }
    var (d2, p2) := if p1.Total() == 8 then SwitchFull(s.depot, p1, zalloc) else (s.depot, p1);
    PairsUpdate(w, s.pairs, i, p2);
  }

  /** The steps of an operation leave every magazine at exactly one place; only kzalloc's can join. */
  lemma AllocPlaces(s: State, i: nat, mags: set<Ptr>)
    requires i < |s.pairs| && PairOk(s.pairs[i]) && Located(s, mags)
    ensures Located(s.(pairs := s.pairs[i := PairAlloc(s.pairs[i]).0]), mags)
  {
    var p := PairAlloc(s.pairs[i]).0;
    forall m ensures Places(s.(pairs := s.pairs[i := p]), m) == if m in mags then 1 else 0 {
      assert Places(s, m) == if m in mags then 1 else 0;
      PairAllocConserves(s.pairs[i], Place(m));
      PairsUpdate(Place(m), s.pairs, i, p);
    }
  }

  lemma FreePlaces(s: State, i: nat, e: Elem, mags: set<Ptr>)
    requires i < |s.pairs| && PairOk(s.pairs[i]) && Located(s, mags)
    ensures Located(s.(pairs := s.pairs[i := PairFree(s.pairs[i], e)]), mags)
  {
    var p := PairFree(s.pairs[i], e);
    forall m ensures Places(s.(pairs := s.pairs[i := p]), m) == if m in mags then 1 else 0 {
      assert Places(s, m) == if m in mags then 1 else 0;
      PairFreeConserves(s.pairs[i], e, Place(m));
      PairsUpdate(Place(m), s.pairs, i, p);
    }
  }

  lemma SwitchFullPlaces(s: State, i: nat, zalloc: Ptr, mags: set<Ptr>)
    requires i < |s.pairs| && |s.pairs[i].s0.items| == MAG_DEPTH == |s.pairs[i].s1.items|
    requires Located(s, mags) && zalloc !in mags
    ensures var (d, p) := SwitchFull(s.depot, s.pairs[i], zalloc);
            Located(State(s.pairs[i := p], d), mags + if |s.depot.empty| % U16 == 0 then {zalloc} else {})
  {
    var (d, p) := SwitchFull(s.depot, s.pairs[i], zalloc);
    var mags' := mags + if |s.depot.empty| % U16 == 0 then {zalloc} else {};
    forall m ensures Places(State(s.pairs[i := p], d), m) == if m in mags' then 1 else 0 {
      assert Places(s, m) == if m in mags then 1 else 0;
      SwitchFullConserves(s.depot, s.pairs[i], zalloc, Place(m));
      PairsUpdate(Place(m), s.pairs, i, p);
    }
  }

  lemma SwitchEmptyPlaces(s: State, i: nat, mags: set<Ptr>)
    requires i < |s.pairs| && s.pairs[i].Total() == 0 && AllFull(s.depot.full) && Located(s, mags)
    ensures var (d, p) := SwitchEmpty(s.depot, s.pairs[i]);
            Located(State(s.pairs[i := p], d), mags)
  {
    var (d, p) := SwitchEmpty(s.depot, s.pairs[i]);
    forall m ensures Places(State(s.pairs[i := p], d), m) == if m in mags then 1 else 0 {
      assert Places(s, m) == if m in mags then 1 else 0;
      SwitchEmptyConserves(s.depot, s.pairs[i], Place(m));
      PairsUpdate(Place(m), s.pairs, i, p);
    }
  }

  lemma AllocKeeps(s: State, i: nat)
    requires StateOk(s) && i < |s.pairs|
    ensures StateOk(AllocElem(s, i).0)
  {
    AllocConserves(s, i, Count);
    forall m ensures Places(AllocElem(s, i).0, m) <= 1 {
      AllocConserves(s, i, Place(m));
      assert Places(s, m) <= 1;
    }
  }

  lemma FreeKeeps(s: State, i: nat, e: Elem, zalloc: Ptr)
    requires StateOk(s) && i < |s.pairs| && Places(s, zalloc) == 0
    ensures StateOk(FreeElem(s, i, e, zalloc))
  {
    FreeConserves(s, i, e, zalloc, Count);
    forall m ensures Places(FreeElem(s, i, e, zalloc), m) <= 1 {
      FreeConserves(s, i, e, zalloc, Place(m));
      assert Places(s, m) <= 1;
    }
  }

  // ---------------------------------------------------------------- sizes

  lemma {:induction false} FullSize(full: seq<Slot>)
    requires AllFull(full)
    ensures SlotsWeight(Count, full) == MAG_DEPTH * |full|
  {
    if full != [] {
      FullSize(full[1..]);
    }
  }

  lemma {:induction false} EmptySize(w: Measure, ms: seq<Ptr>)
    requires !w.Place?
    ensures EmptyWeight(w, ms) == 0
  {
    if ms != [] {
      EmptySize(w, ms[1..]);
    }
  }

  /** The elements in the allocator are those of the pairs plus four for every full magazine. */
  lemma SizeSplit(s: State)
    requires AllFull(s.depot.full)
    ensures Size(s) == PairsWeight(Count, s.pairs) + MAG_DEPTH * |s.depot.full|
  {
    FullSize(s.depot.full);
    EmptySize(Count, s.depot.empty);
  }

  lemma {:induction false} PairsSize(ps: seq<Pair>)
    requires PairsOk(ps)
    ensures PairsWeight(Count, ps) <= 7 * |ps|
  {
    if ps != [] {
      PairsSize(ps[1..]);
    }
  }

  /** When mag_alloc_elem returns NULL although the counter has not wrapped, at most
      7 * (pairs - 1) free elements exist anywhere: all of them sit in the other pairs. */
  lemma AllocFailureBound(s: State, i: nat)
    requires StateOk(s) && i < |s.pairs| && |s.depot.full| < U16
    requires AllocElem(s, i).1 == None
    ensures s.pairs[i].Total() == 0 && s.depot.full == []
    ensures Size(s) <= 7 * (|s.pairs| - 1)
  {
    AllocConserves(s, i, Count);
    SizeSplit(s);
    PairsSizeWithout(s.pairs, i);
  }

  lemma {:induction false} PairsSizeWithout(ps: seq<Pair>, i: nat)
    requires PairsOk(ps) && i < |ps|
    ensures PairsWeight(Count, ps) <= ps[i].Total() + 7 * (|ps| - 1)
  {
    if i == 0 {
      PairsSize(ps[1..]);
    } else {
      PairsSizeWithout(ps[1..], i - 1);
    }
  }

  /** Where the 16-bit counter bites: with 65536 full magazines in the depot it reads 0, so an
      allocation on an empty pair fails although 262144 elements are free. */
  lemma WrappedCounterStarves(s: State, i: nat)
    requires StateOk(s) && i < |s.pairs| && s.pairs[i].Total() == 0 && |s.depot.full| == U16
    ensures AllocElem(s, i).1 == None
    ensures Size(s) >= 262144
  {
    FullSize(s.depot.full);
  }

  lemma EmptyLocated(s: State, mags: set<Ptr>, k: nat)
    requires Located(s, mags) && k < |s.depot.empty|
    ensures s.depot.empty[k] in mags
  {
    EmptyPart(s.depot.empty, k);
    assert Places(s, s.depot.empty[k]) > 0;
  }

  lemma FullLocated(s: State, mags: set<Ptr>, k: nat)
    requires Located(s, mags) && k < |s.depot.full|
    ensures s.depot.full[k].mag in mags
  {
    SlotsPart(Place(s.depot.full[k].mag), s.depot.full, k);
    assert Places(s, s.depot.full[k].mag) > 0;
  }

  predicate Uses(p: Pair, m: Ptr) { m == p.s0.mag || m == p.s1.mag }

  /** The magazines of pair i are different from each other and from those at every other place. */
  lemma MagsApart(s: State, i: nat)
    requires Once(s) && i < |s.pairs|
    ensures s.pairs[i].s0.mag != s.pairs[i].s1.mag
    ensures forall j :: 0 <= j < |s.pairs| && j != i ==>
              !Uses(s.pairs[i], s.pairs[j].s0.mag) && !Uses(s.pairs[i], s.pairs[j].s1.mag)
    ensures forall k :: 0 <= k < |s.depot.full| ==> !Uses(s.pairs[i], s.depot.full[k].mag)
    ensures forall k :: 0 <= k < |s.depot.empty| ==> !Uses(s.pairs[i], s.depot.empty[k])
  {
    var p := s.pairs[i];
    PairsPart(Place(p.s0.mag), s.pairs, i);
    assert Places(s, p.s0.mag) <= 1;
    forall j | 0 <= j < |s.pairs| && j != i
      ensures !Uses(p, s.pairs[j].s0.mag) && !Uses(p, s.pairs[j].s1.mag)
    {
      PairsApart(s, i, j, s.pairs[j].s0.mag);
      PairsApart(s, i, j, s.pairs[j].s1.mag);
    }
    forall k | 0 <= k < |s.depot.full|
      ensures !Uses(p, s.depot.full[k].mag)
    {
      var m := s.depot.full[k].mag;
      PairsPart(Place(m), s.pairs, i);
      SlotsPart(Place(m), s.depot.full, k);
      assert Places(s, m) <= 1;
    }
    forall k | 0 <= k < |s.depot.empty|
      ensures !Uses(p, s.depot.empty[k])
    {
      var m := s.depot.empty[k];
      PairsPart(Place(m), s.pairs, i);
      EmptyPart(s.depot.empty, k);
      assert Places(s, m) <= 1;
    }
  }

  lemma PairsApart(s: State, i: nat, j: nat, m: Ptr)
    requires Once(s) && i < |s.pairs| && j < |s.pairs| && i != j
    ensures !Uses(s.pairs[i], m) || !Uses(s.pairs[j], m)
  {
    PairsTwoParts(Place(m), s.pairs, if i < j then i else j, if i < j then j else i);
    assert Places(s, m) <= 1;
  }
}
