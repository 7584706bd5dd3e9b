/**
 The magazine allocator as the kernel code writes it (tcpsplit/magazine.c and lib/magazine.h):
 magazines are reached through 64-bit addresses, a pair keeps two addresses and two 32-bit counts
 that the XOR exchange rewrites in place, and the depot keeps two address lists with 16-bit counters.
 Every method is proved against the value-level operation of module Magazine.
 */
module MagazineHeap {
  import opened Magazine
  import opened Words

  /** Kernel memory as far as the allocator is concerned: the stack of MAG_DEPTH element pointers of
      the struct magazine at each address that kzalloc has returned. */
  class Memory {
    var stack: map<Ptr, seq<Elem>>

    constructor ()
      ensures stack == map[]
    {
      stack := map[];
    }

    ghost predicate Whole()
      reads this
    {
      forall a :: a in stack ==> |stack[a]| == MAG_DEPTH
    }

    /** kzalloc of one magazine at an address that is not in use */
    method Kzalloc(a: Ptr)
      requires a !in stack && Whole()
      modifies this
      ensures stack == old(stack)[a := [0, 0, 0, 0]] && Whole()
    {
      stack := stack[a := [0, 0, 0, 0]];
    }

    /** The store mags[idx]->stack[k] = elem */
    method Store(a: Ptr, k: nat, elem: Elem)
      requires a in stack && Whole() && k < MAG_DEPTH
      modifies this
      ensures Whole() && stack == old(stack)[a := old(stack)[a][..k] + [elem] + old(stack)[a][k + 1..]]
    {
      stack := stack[a := stack[a][..k] + [elem] + stack[a][k + 1..]];
    }
  }

  /** A 32-bit count, its number, and the count one up and one down. */
  function Val(c: bv32): nat { c as nat }
  function Up(c: bv32): bv32 { c + 1 }
  function Down(c: bv32): bv32 { c - 1 }

  lemma SmallCount(c: bv32)
    requires c <= 4
    ensures Val(c) <= MAG_DEPTH && (Val(c) == MAG_DEPTH <==> c == 4) && (Val(c) == 0 <==> c == 0)
    ensures c != 0 ==> Down(c) <= 4 && Val(Down(c)) == Val(c) - 1
    ensures c != 4 ==> Up(c) <= 4 && Val(Up(c)) == Val(c) + 1
  {
    if c == 0 {} else if c == 1 {} else if c == 2 {} else if c == 3 {} else { assert c == 4; }
  }

  /** mag_pair_count: the 32-bit sum of the counts */
  function Both(c: bv32, d: bv32): bv32 { c + d }

  lemma SmallCounts(c: bv32, d: bv32)
    requires c <= 4 && d <= 4
    ensures Both(c, d) == 0 <==> c == 0 && d == 0
    ensures Both(c, d) == 8 <==> c == 4 && d == 4
  {
  }

  /** struct mag_pair: the two addresses (the union of mags and mag_ptr) and the two counts. */
  class MagPair {
    var magPtr: seq<Ptr>
    var count: seq<bv32>

    constructor (mag0: Ptr, mag1: Ptr)
      ensures magPtr == [mag0, mag1] && count == [0, 0]
    {
      magPtr := [mag0, mag1];
      count := [0, 0];
    }

    ghost predicate Shape()
      reads this
    {
      |magPtr| == 2 && |count| == 2
    }

    ghost predicate Ready(mem: Memory)
      reads this, mem
    {
      && Shape() && mem.Whole()
      && magPtr[0] in mem.stack && magPtr[1] in mem.stack && magPtr[0] != magPtr[1]
      && count[0] <= 4 && count[1] <= 4 && Val(count[0]) <= MAG_DEPTH && Val(count[1]) <= MAG_DEPTH
    }

    ghost function SlotAt(mem: Memory, idx: nat): Slot
      requires Ready(mem) && idx < 2
      reads this, mem
    {
      Slot(magPtr[idx], mem.stack[magPtr[idx]][..Val(count[idx])])
    }

    ghost function View(mem: Memory): Pair
      requires Ready(mem)
      reads this, mem
    {
      Pair(SlotAt(mem, 0), SlotAt(mem, 1))
    }

    /** swap_mags */
    method SwapMags()
      requires Shape()
      modifies this
      ensures magPtr == [old(magPtr[1]), old(magPtr[0])]
      ensures count == [old(count[1]), old(count[0])]
    {
      XorExchange64(magPtr[0].bits, magPtr[1].bits);
      XorExchange32(count[0], count[1]);
      magPtr := magPtr[0 := Ptr(Xor64(magPtr[0].bits, magPtr[1].bits))];
      magPtr := magPtr[1 := Ptr(Xor64(magPtr[1].bits, magPtr[0].bits))];
      magPtr := magPtr[0 := Ptr(Xor64(magPtr[0].bits, magPtr[1].bits))];
      count := count[0 := Xor32(count[0], count[1])];
      count := count[1 := Xor32(count[1], count[0])];
      count := count[0 := Xor32(count[0], count[1])];
    }

    /** mag_pair_alloc */
    method Alloc(mem: Memory) returns (r: Option<Elem>)
      requires Ready(mem)
      modifies this
      ensures Ready(mem) && (View(mem), r) == PairAlloc(old(View(mem)))
    {
      ghost var p := View(mem);
      SmallCount(count[0]);
      if count[0] == 0 {
        return None;
      }
      count := count[0 := Down(count[0])];
      r := Some(mem.stack[magPtr[0]][Val(count[0])]);
      SmallCount(count[0]);
      assert SlotAt(mem, 0) == p.s0.(items := p.s0.items[..|p.s0.items| - 1]) && SlotAt(mem, 1) == p.s1;
      ghost var q := View(mem);
      if count[0] == 0 {
        SwapMags();
        assert SlotAt(mem, 0) == q.s1 && SlotAt(mem, 1) == q.s0;
      }
    }

    /** Put magazine mag with n elements, n == 0 or n == MAG_DEPTH, into slot idx. */
    method Install(mem: Memory, idx: nat, mag: Ptr, n: bv32)
      requires Ready(mem) && idx < 2 && mag in mem.stack && mag != magPtr[1 - idx]
      requires n == 0 || n == 4
      modifies this
      ensures Ready(mem)
      ensures SlotAt(mem, 1 - idx) == old(SlotAt(mem, 1 - idx))
      ensures SlotAt(mem, idx) == Slot(mag, if n == 0 then [] else mem.stack[mag])
    {
      SmallCount(n);
      magPtr := magPtr[idx := mag];
      count := count[idx := n];
    }

    /** mag_pair_free: the assertion on the counts is its precondition. */
    method Free(mem: Memory, elem: Elem)
      requires Ready(mem)
      requires count[0] < 4 || count[1] < 4
      modifies this, mem
      ensures magPtr == old(magPtr)
      ensures Ready(mem) && View(mem) == PairFree(old(View(mem)), elem)
      ensures mem.stack.Keys == old(mem.stack.Keys)
      ensures forall a :: a in mem.stack && a != magPtr[0] && a != magPtr[1] ==> mem.stack[a] == old(mem.stack[a])
    {
      ghost var p := View(mem);
      var idx := 0;
      SmallCount(count[0]);
      SmallCount(count[1]);
      if count[0] == 4 {
        idx := 1;
      }
      mem.Store(magPtr[idx], Val(count[idx]), elem);
      count := count[idx := Up(count[idx])];
      if idx == 0 {
        assert SlotAt(mem, 0).items == p.s0.items + [elem] && SlotAt(mem, 1) == p.s1;
      } else {
        assert SlotAt(mem, 1).items == p.s1.items + [elem] && SlotAt(mem, 0) == p.s0;
      }
    }
  }

  /** struct mag_allocator: the pairs (two per CPU) and the depot.  `state` is the value-level state
      that the addresses, counts, stacks, lists and counters stand for. */
  class MagAllocator {
    const mem: Memory
    const pairs: seq<MagPair>
    var fullList: seq<Ptr>     // index 0 is the list head
    var emptyList: seq<Ptr>
    var fullCount: nat         // uint16_t
    var emptyCount: nat        // uint16_t
    ghost var state: State

    ghost const Repr: set<object>

    /** mag_allocator_init for |zalloc| / 2 pairs; zalloc lists the addresses kzalloc returns. */
    constructor (zalloc: seq<Ptr>)
      requires |zalloc| % 2 == 0 && Distinct(zalloc)
      ensures Valid() && fresh(Repr) && state == InitState(zalloc)
    {
      var memory, ps := InitPairs(zalloc);
      InitOk(zalloc);
      mem := memory;
      pairs := ps;
      fullList, emptyList, fullCount, emptyCount := [], [], 0, 0;
      state := InitState(zalloc);
      Repr := {this, memory} + set p | p in ps :: p as object;
      new;
      InitMatches(zalloc);
    }

    lemma InitMatches(zalloc: seq<Ptr>)
      requires |zalloc| % 2 == 0 && Distinct(zalloc)
      requires this in Repr && mem in Repr && Repr >= set p | p in pairs :: p as object
      requires mem.Whole() && mem.stack.Keys == set m | m in zalloc
      requires |pairs| == |zalloc| / 2 && state == InitState(zalloc)
      requires forall j :: 0 <= j < |pairs| ==> pairs[j].magPtr == [zalloc[2 * j], zalloc[2 * j + 1]] && pairs[j].count == [0, 0]
      ensures forall j :: 0 <= j < |pairs| ==> pairs[j] in Repr && PairMatches(j)
    {
      SmallCount(0);
      forall j | 0 <= j < |pairs| ensures pairs[j] in Repr && PairMatches(j) {
        assert pairs[j] in pairs;
        assert zalloc[2 * j] != zalloc[2 * j + 1] && zalloc[2 * j] in zalloc && zalloc[2 * j + 1] in zalloc;
        assert pairs[j].Ready(mem);
        assert pairs[j].SlotAt(mem, 0) == Slot(zalloc[2 * j], []);
        assert pairs[j].SlotAt(mem, 1) == Slot(zalloc[2 * j + 1], []);
      }
    }

    /** init_mag_pair for every pair */
    static method InitPairs(zalloc: seq<Ptr>) returns (memory: Memory, ps: seq<MagPair>)
      requires |zalloc| % 2 == 0 && Distinct(zalloc)
      ensures fresh(memory) && memory.Whole() && memory.stack.Keys == set m | m in zalloc
      ensures |ps| == |zalloc| / 2
      ensures forall j :: 0 <= j < |ps| ==> fresh(ps[j]) && ps[j].magPtr == [zalloc[2 * j], zalloc[2 * j + 1]] && ps[j].count == [0, 0]
      ensures forall j, k :: 0 <= j < k < |ps| ==> ps[j] != ps[k]
    {
      memory := new Memory();
      ps := [];
      for i := 0 to |zalloc| / 2
        invariant fresh(memory) && memory.Whole() && |ps| == i
        invariant memory.stack.Keys == set m | m in zalloc[..2 * i]
        invariant forall j :: 0 <= j < i ==> fresh(ps[j]) && ps[j].magPtr == [zalloc[2 * j], zalloc[2 * j + 1]] && ps[j].count == [0, 0]
        invariant forall j, k :: 0 <= j < k < i ==> ps[j] != ps[k]
      {
        memory.Kzalloc(zalloc[2 * i]);
        memory.Kzalloc(zalloc[2 * i + 1]);
        assert zalloc[..2 * (i + 1)] == zalloc[..2 * i] + [zalloc[2 * i], zalloc[2 * i + 1]];
        var pair := new MagPair(zalloc[2 * i], zalloc[2 * i + 1]);
        ps := ps + [pair];
      }
      assert zalloc[..2 * (|zalloc| / 2)] == zalloc;
    }

    ghost predicate PairMatches(i: nat)
      requires i < |pairs| && pairs[i] in Repr && mem in Repr
      reads this, Repr
    {
      pairs[i].Ready(mem) && i < |state.pairs| && pairs[i].View(mem) == state.pairs[i]
    }

    ghost predicate FullMatches(k: nat)
      reads this, mem
    {
      && k < |fullList| && k < |state.depot.full| && fullList[k] in mem.stack
      && state.depot.full[k] == Slot(fullList[k], mem.stack[fullList[k]])
    }

    /** The fields stand for `state`, and every magazine sits in exactly one place. */
    ghost predicate Linked()
      reads this, Repr
    {
      && this in Repr && mem in Repr && mem.Whole()
      && (forall i :: 0 <= i < |pairs| ==> pairs[i] in Repr)
      && (forall i, j :: 0 <= i < j < |pairs| ==> pairs[i] != pairs[j])
      && |state.pairs| == |pairs| && (forall i :: 0 <= i < |pairs| ==> PairMatches(i))
      && |state.depot.full| == |fullList| && (forall k :: 0 <= k < |fullList| ==> FullMatches(k))
      && state.depot.empty == emptyList
      && Located(state, mem.stack.Keys)
      && fullCount == |fullList| % U16
      && emptyCount == |emptyList| % U16
    }

    ghost predicate Valid()
      reads this, Repr
    {
      Linked() && PairsOk(state.pairs)
    }

    /** A step on pair i alone leaves the other pairs and the lists linked. */
    twostate lemma Relink(i: nat)
      requires i < |pairs|
      requires old(Linked()) && unchanged(`fullList) && unchanged(`emptyList)
      requires unchanged(`fullCount) && unchanged(`emptyCount)
      requires state.depot == old(state.depot) && |state.pairs| == |pairs| && PairMatches(i)
      requires forall j :: 0 <= j < |pairs| && j != i ==> state.pairs[j] == old(state.pairs[j]) && unchanged(pairs[j])
      requires mem.stack.Keys == old(mem.stack.Keys) && Located(state, mem.stack.Keys)
      requires forall a :: a in old(mem.stack) && !Uses(old(state.pairs[i]), a) ==> mem.stack[a] == old(mem.stack[a])
      ensures Linked()
    {
      MagsApart(old(state), i);
      forall j | 0 <= j < |pairs| && j != i ensures PairMatches(j) {
        assert old(PairMatches(j));
      }
      forall k | 0 <= k < |fullList| ensures FullMatches(k) {
        assert old(FullMatches(k));
      }
    }

    /** mag_pair_alloc on pair i */
    method PairAlloc(i: nat) returns (r: Option<Elem>)
      requires Linked() && i < |pairs| && PairOk(state.pairs[i])
      modifies pairs[i], this`state
      ensures Linked() && state.depot == old(state.depot)
      ensures state.pairs == old(state.pairs)[i := Magazine.PairAlloc(old(state.pairs[i])).0]
      ensures r == Magazine.PairAlloc(old(state.pairs[i])).1
    {
      AllocPlaces(state, i, mem.stack.Keys);
      assert PairMatches(i);
      r := pairs[i].Alloc(mem);
      state := state.(pairs := state.pairs[i := Magazine.PairAlloc(state.pairs[i]).0]);
      assert PairMatches(i);
      Relink(i);
    }

    /** mag_pair_free on pair i */
    method PairFree(i: nat, elem: Elem)
      requires Linked() && i < |pairs| && PairOk(state.pairs[i])
      modifies pairs[i], mem, this`state
      ensures Linked() && state.depot == old(state.depot)
      ensures state.pairs == old(state.pairs)[i := Magazine.PairFree(old(state.pairs[i]), elem)]
      ensures mem.stack.Keys == old(mem.stack.Keys)
    {
      ghost var mags := mem.stack.Keys;
      ghost var s' := state.(pairs := state.pairs[i := Magazine.PairFree(state.pairs[i], elem)]);
      FreePlaces(state, i, elem, mags);
      assert PairMatches(i);
      SmallCount(pairs[i].count[0]);
      SmallCount(pairs[i].count[1]);
      pairs[i].Free(mem, elem);
      state := s';
      assert mem.stack.Keys == mags && Located(state, mags);
      assert PairMatches(i);
      Relink(i);
    }

    /** The locked part of mag_allocator_switch_full */
    method PushFull(full: Ptr, zalloc: Ptr) returns (mag: Ptr)
      requires mem.Whole() && zalloc !in mem.stack
      requires fullCount == |fullList| % U16 && emptyCount == |emptyList| % U16
      modifies this, mem
      ensures unchanged(`state) && mem.Whole()
      ensures fullList == [full] + old(fullList)
      ensures fullCount == |fullList| % U16 && emptyCount == |emptyList| % U16
      ensures if old(emptyCount) != 0
              then [mag] + emptyList == old(emptyList) && mem.stack == old(mem.stack)
              else mag == zalloc && emptyList == old(emptyList) && mem.stack == old(mem.stack)[zalloc := [0, 0, 0, 0]]
    {
      fullList := [full] + fullList;
      fullCount := (fullCount + 1) % U16;
      if emptyCount != 0 {
        mag := emptyList[0];
        emptyList := emptyList[1..];
        emptyCount := emptyCount - 1;
      } else {
        mag := zalloc;
        mem.Kzalloc(zalloc);
      }
    }

    /** mag_allocator_switch_full on pair i; the assertion on the count is its precondition. */
    method SwitchFull(i: nat, zalloc: Ptr)
      requires Linked() && i < |pairs|
      requires |state.pairs[i].s0.items| == MAG_DEPTH == |state.pairs[i].s1.items|
      requires zalloc !in mem.stack
      modifies pairs[i], mem, this
      ensures Linked()
      ensures var (d, p) := Magazine.SwitchFull(old(state.depot), old(state.pairs[i]), zalloc);
              state == State(old(state.pairs)[i := p], d)
    {
      ghost var (d, p) := Magazine.SwitchFull(state.depot, state.pairs[i], zalloc);
      ghost var s' := State(state.pairs[i := p], d);
      SwitchFullPlaces(state, i, zalloc, mem.stack.Keys);
      if emptyCount != 0 {
        EmptyLocated(state, mem.stack.Keys, 0);
      }
      MagsApart(s', i);
      var pair := pairs[i];
      assert PairMatches(i);
      SmallCount(pair.count[1]);
      var idx := if pair.count[1] == 4 then 1 else 0;
      var mag := PushFull(pair.magPtr[idx], zalloc);
      assert p == Pair(old(state.pairs[i].s0), Slot(mag, []));
      pair.Install(mem, idx, mag, 0);
      state := s';
      assert PairMatches(i);
      RelinkFull(i);
    }

    /** Linked() again after pair i has handed its slot 1 to the full list. */
    twostate lemma RelinkFull(i: nat)
      requires i < |pairs| && old(Linked()) && |old(state.pairs[i].s1.items)| == MAG_DEPTH
      requires |state.pairs| == |pairs| && this in Repr && PairMatches(i)
      requires forall j :: 0 <= j < |pairs| && j != i ==> state.pairs[j] == old(state.pairs[j]) && unchanged(pairs[j])
      requires forall a :: a in old(mem.stack) ==> a in mem.stack && mem.stack[a] == old(mem.stack[a])
      requires fullList == [old(state.pairs[i].s1.mag)] + old(fullList)
      requires state.depot == Depot([old(state.pairs[i].s1)] + old(state.depot.full), emptyList)
      requires Located(state, mem.stack.Keys)
      requires fullCount == |fullList| % U16 && emptyCount == |emptyList| % U16
      ensures Linked()
    {
      assert old(PairMatches(i));
      forall j | 0 <= j < |pairs| && j != i ensures PairMatches(j) {
        assert old(PairMatches(j));
      }
      forall k | 0 <= k < |fullList| ensures FullMatches(k) {
        assert k > 0 ==> old(FullMatches(k - 1));
      }
    }

    /** The locked part of mag_allocator_switch_empty, when there is a full magazine */
    method PopFull(empty: Ptr) returns (mag: Ptr)
      requires fullCount != 0
      requires fullCount == |fullList| % U16 && emptyCount == |emptyList| % U16
      modifies this
      ensures unchanged(`state)
      ensures emptyList == [empty] + old(emptyList) && [mag] + fullList == old(fullList)
      ensures fullCount == |fullList| % U16 && emptyCount == |emptyList| % U16
    {
      emptyList := [empty] + emptyList;
      emptyCount := (emptyCount + 1) % U16;
      mag := fullList[0];
      fullList := fullList[1..];
      fullCount := fullCount - 1;
    }

    /** mag_allocator_switch_empty on pair i, which mag_alloc_elem found empty */
    method SwitchEmpty(i: nat)
      requires Linked() && i < |pairs| && state.pairs[i].Total() == 0
      modifies pairs[i], this
      ensures Linked()
      ensures var (d, p) := Magazine.SwitchEmpty(old(state.depot), old(state.pairs[i]));
              state == State(old(state.pairs)[i := p], d)
    {
      ghost var (d, p) := Magazine.SwitchEmpty(state.depot, state.pairs[i]);
      ghost var s' := State(state.pairs[i := p], d);
      if fullCount == 0 {
        assert s' == state;
        return;
      }
      assert FullMatches(0);
      Fulls();
      SwitchEmptyPlaces(state, i, mem.stack.Keys);
      FullLocated(state, mem.stack.Keys, 0);
      MagsApart(s', i);
      var pair := pairs[i];
      assert PairMatches(i);
      SmallCount(pair.count[0]);
      var idx := if pair.count[0] != 0 then 1 else 0;
      var mag := PopFull(pair.magPtr[idx]);
      assert p == Pair(Slot(mag, mem.stack[mag]), old(state.pairs[i].s1));
      pair.Install(mem, idx, mag, 4);
      state := s';
      assert PairMatches(i);
      RelinkEmpty(i);
    }

    /** Linked() again after pair i has traded its empty slot 0 for the first full magazine. */
    twostate lemma RelinkEmpty(i: nat)
      requires i < |pairs| && old(Linked()) && old(fullList) != []
      requires |state.pairs| == |pairs| && this in Repr && PairMatches(i)
      requires forall j :: 0 <= j < |pairs| && j != i ==> state.pairs[j] == old(state.pairs[j]) && unchanged(pairs[j])
      requires unchanged(mem)
      requires fullList == old(fullList)[1..]
      requires state.depot == Depot(old(state.depot.full)[1..], emptyList)
      requires Located(state, mem.stack.Keys)
      requires fullCount == |fullList| % U16 && emptyCount == |emptyList| % U16
      ensures Linked()
    {
      forall j | 0 <= j < |pairs| && j != i ensures PairMatches(j) {
        assert old(PairMatches(j));
      }
      forall k | 0 <= k < |fullList| ensures FullMatches(k) {
        assert old(FullMatches(k + 1));
      }
    }

    /** What mag_pair_count says about the pair that the fields stand for. */
    lemma PairCount(i: nat)
      requires Linked() && i < |pairs|
      ensures |pairs| == |state.pairs| && pairs[i].Shape()
      ensures Both(pairs[i].count[0], pairs[i].count[1]) == 0 <==> state.pairs[i].Total() == 0
      ensures Both(pairs[i].count[0], pairs[i].count[1]) == 8 <==> state.pairs[i].Total() == 2 * MAG_DEPTH
      ensures state.pairs[i].Total() == 2 * MAG_DEPTH ==>
                |state.pairs[i].s0.items| == MAG_DEPTH == |state.pairs[i].s1.items|
    {
      assert PairMatches(i);
      SmallCount(pairs[i].count[0]);
      SmallCount(pairs[i].count[1]);
      SmallCounts(pairs[i].count[0], pairs[i].count[1]);
    }

    lemma Fulls()
      requires Linked()
      ensures |pairs| == |state.pairs| && AllFull(state.depot.full)
    {
      forall k | 0 <= k < |fullList| ensures |state.depot.full[k].items| == MAG_DEPTH {
        assert FullMatches(k);
      }
    }

    /** mag_alloc_elem on pair i, the pair of the running CPU and context */
    method AllocElem(i: nat) returns (r: Option<Elem>)
      requires Valid() && i < |pairs|
      modifies Repr
      ensures Valid()
      ensures (state, r) == Magazine.AllocElem(old(state), i)
    {
      Fulls();
      PairCount(i);
      AllocConserves(state, i, Count);
      if Both(pairs[i].count[0], pairs[i].count[1]) == 0 {
        SwitchEmptyConserves(state.depot, state.pairs[i], Count);
        SwitchEmpty(i);
      }
      ghost var p := state.pairs[i];
      r := PairAlloc(i);
      assert state.pairs == old(state.pairs)[i := Magazine.PairAlloc(p).0];
    }

    /** mag_free_elem of elem on pair i; zalloc is what kzalloc returns if a magazine is needed. */
    method FreeElem(i: nat, elem: Elem, zalloc: Ptr)
      requires Valid() && i < |pairs| && zalloc !in mem.stack
      modifies Repr
      ensures Valid()
      ensures state == Magazine.FreeElem(old(state), i, elem, zalloc)
    {
      Fulls();
      FreeConserves(state, i, elem, zalloc, Count);
      PairFreeConserves(state.pairs[i], elem, Count);
      PairFree(i, elem);
      PairCount(i);
      if Both(pairs[i].count[0], pairs[i].count[1]) == 8 {
        SwitchFull(i, zalloc);
      }
    }
  }
}
