/**
 Whole passes and whole cycles of the kthread pool (module ThreadPool): what a refill pass creates, that
 jobs do get called, that workers come back, and where elements go in the allocator.
 */
module PoolRuns {
  import opened Magazine
  import opened AllocatorOrder
  import opened ThreadPool
  import opened ThreadBound

  // ---------------------------------------------------------------- a refill pass

  /** The refill thread puts e into the allocator, which did not hold it. */
  ghost predicate Enters(s: PoolState, ev: Event, e: Elem)
    requires Enabled(s, ev)
  {
    ev.RefillPublish? && Held(s.alloc, e) == 0 && Held(Next(s, ev).alloc, e) == 1
  }

  ghost function Entries(s: PoolState, evs: seq<Event>, e: Elem): nat
    requires IsRun(s, evs)
    decreases |evs|
  {
    if evs == [] then 0 else (if Enters(s, evs[0], e) then 1 else 0) + Entries(Next(s, evs[0]), evs[1..], e)
  }

  /** Threads that the pass will have created when it ends. */
  function Goal(s: PoolState): nat
    requires !s.refill.Outside?
  {
    |s.workers| + s.refill.left
  }

  lemma RefillCreateStep(s: PoolState)
    requires Enabled(s, RefillCreate)
    ensures var s' := Next(s, RefillCreate); s'.refill.Have? && s'.refill.e == |s.workers| && Goal(s') == Goal(s) && |s'.workers| == |s.workers| + 1
  {
  }

  lemma RefillPublishStep(s: PoolState, i: nat, zalloc: Ptr, e: Elem)
    requires Inv(s) && Enabled(s, RefillPublish(i, zalloc))
    ensures var s' := Next(s, RefillPublish(i, zalloc));
            && s'.refill.Loop? && Goal(s') == Goal(s) && |s'.workers| == |s.workers|
            && (Enters(s, RefillPublish(i, zalloc), e) <==> e == s.refill.e)
  {
    FreeHeld(s.alloc, i, s.refill.e, zalloc);
    assert WorkerOk(s, s.refill.e);
    assert Held(s.alloc, s.refill.e) == 0;
  }

  lemma OthersLeaveRefill(s: PoolState, ev: Event)
    requires Inv(s) && Enabled(s, ev) && !s.refill.Outside?
    requires !ev.RefillCreate? && !ev.RefillPublish? && !ev.RefillLeave?
    ensures Next(s, ev).refill == s.refill && |Next(s, ev).workers| == |s.workers|
  {
  }

  /** From within a pass to its end: the goal is met, and what is in the hand of the refill thread, or is
      created still, enters the allocator once. */
  lemma {:induction false} RestOfPass(s: PoolState, mid: seq<Event>, e: Elem)
    requires Inv(s) && IsRun(s, mid + [RefillLeave]) && RefillLeave !in mid && !s.refill.Outside?
    ensures var s' := Run(s, mid + [RefillLeave]);
            && s'.refill.Outside? && |s'.workers| == Goal(s)
            && Entries(s, mid + [RefillLeave], e) ==
               if (s.refill.Have? && s.refill.e == e) || |s.workers| <= e < Goal(s) then 1 else 0
    decreases |mid|
  {
    var evs := mid + [RefillLeave];
    if mid == [] {
      assert evs[1..] == [];
      var s' := Next(s, evs[0]);
      assert Run(s', evs[1..]) == s' && Entries(s', evs[1..], e) == 0;
    } else {
      var ev, s' := mid[0], Next(s, mid[0]);
      assert evs[0] == ev && evs[1..] == mid[1..] + [RefillLeave];
      StepKeeps(s, ev);
      PassStep(s, ev, e);
      RestOfPass(s', mid[1..], e);
    }
  }

  lemma PassStep(s: PoolState, ev: Event, e: Elem)
    requires Inv(s) && Enabled(s, ev) && !s.refill.Outside? && ev != RefillLeave
    ensures var s' := Next(s, ev);
            && !s'.refill.Outside? && Goal(s') == Goal(s)
            && (var due := (s.refill.Have? && s.refill.e == e) || |s.workers| <= e < Goal(s);
                var due' := (s'.refill.Have? && s'.refill.e == e) || |s'.workers| <= e < Goal(s');
                if Enters(s, ev, e) then due && !due' else due' == due)
  {
    match ev
    case RefillCreate => RefillCreateStep(s);
    case RefillPublish(i, zalloc) =>
      RefillPublishStep(s, i, zalloc, e);
      assert RefillOk(s);
    case _ => OthersLeaveRefill(s, ev);
  }

  /** A pass creates pool_size - 4 * full_count threads, with the 16-bit counter as it reads when the pass
      begins, or none if that is negative, whatever all others do meanwhile; each of them, and no other,
      enters the allocator by it, once. */
  lemma PassCreates(s: PoolState, mid: seq<Event>, e: Elem)
    requires Reachable(s) && IsRun(s, [RefillEnter] + mid + [RefillLeave]) && RefillLeave !in mid
    ensures var evs := [RefillEnter] + mid + [RefillLeave];
            var s', count := Run(s, evs), s.poolSize - 4 * (|s.alloc.depot.full| % 0x1_0000);
            && s'.refill.Outside? && |s'.workers| == |s.workers| + (if count > 0 then count else 0)
            && Entries(s, evs, e) == if |s.workers| <= e < |s'.workers| then 1 else 0
  {
    ReachableInv(s);
    var evs := [RefillEnter] + mid + [RefillLeave];
    assert evs[0] == RefillEnter && evs[1..] == mid + [RefillLeave];
    StepKeeps(s, RefillEnter);
    RestOfPass(Next(s, RefillEnter), mid, e);
  }

  // ---------------------------------------------------------------- workers come back

  /** Between the call of its task and kthread_pool_reuse. */
  predicate Busy(s: PoolState, e: Elem) {
    e < |s.workers| && s.workers[e].owner == Owned && s.workers[e].pc in {InTask, Done, Marked, Cleared}
  }

  /** How many steps of its own such a worker is away from being in the allocator again. */
  function BackRank(pc: Pc): nat {
    match pc
    case InTask => 4
    case Done => 3
    case Marked => 2
    case _ => 1
  }

  lemma BeginsBusy(s: PoolState, e: Elem)
    requires Inv(s) && Enabled(s, Begin(e))
    ensures Busy(Next(s, Begin(e)), e)
  {
    BeginKeeps(s, e);
  }

  lemma BusyStep(s: PoolState, ev: Event, e: Elem)
    requires Inv(s) && Busy(s, e) && Enabled(s, ev)
    ensures var s' := Next(s, ev);
            if ev.Republish? && ev.e == e then s'.workers[e].owner == InPool && Held(s'.alloc, e) == 1
            else Busy(s', e) && BackRank(s'.workers[e].pc) + (if StepOf(ev, e) then 1 else 0) <= BackRank(s.workers[e].pc)
  {
    StepKeeps(s, ev);
    if StepOf(ev, e) {
      assert ev.Republish? ==> WorkerOk(Next(s, ev), e);
    } else {
      OwnedAlone(s, ev, e);
    }
  }

  lemma {:induction false} WorkerReturns(s: PoolState, evs: seq<Event>, e: Elem)
    requires Inv(s) && Busy(s, e) && IsRun(s, evs) && StepsOf(evs, e) >= BackRank(s.workers[e].pc)
    ensures exists k :: 0 <= k < |evs| && evs[k].Republish? && evs[k].e == e
    decreases |evs|
  {
    var ev := evs[0];
    BusyStep(s, ev, e);
    if !(ev.Republish? && ev.e == e) {
      StepKeeps(s, ev);
      WorkerReturns(Next(s, ev), evs[1..], e);
      var k :| 0 <= k < |evs[1..]| && evs[1..][k].Republish? && evs[1..][k].e == e;
      assert evs[k + 1] == evs[1..][k];
    }
  }

  /** A worker that calls its task puts its element back after at most four more steps of its own, in every
      interleaving. */
  lemma CalledThenReturns(s: PoolState, e: Elem, evs: seq<Event>)
    requires Reachable(s) && Enabled(s, Begin(e)) && IsRun(Next(s, Begin(e)), evs) && StepsOf(evs, e) >= 4
    ensures exists k :: 0 <= k < |evs| && evs[k].Republish? && evs[k].e == e
  {
    ReachableInv(s);
    BeginsBusy(s, e);
    StepKeeps(s, Begin(e));
    WorkerReturns(Next(s, Begin(e)), evs, e);
  }

  /** The step that a worker is about to make. */
  function OwnStep(pc: Pc, e: Elem, i: nat, zalloc: Ptr): Event {
    match pc
    case AtTop => Begin(e)
    case Cleared => Republish(e, i, zalloc)
    case _ => Work(e)
  }

  /** A worker is stuck only when it sleeps in schedule(), or has not been woken for the first time. */
  lemma StuckIff(s: PoolState, e: Elem, i: nat, zalloc: Ptr)
    requires Inv(s) && e < |s.workers| && CanFree(s, i, zalloc)
    ensures (exists ev :: StepOf(ev, e) && Enabled(s, ev)) <==>
              s.workers[e].awake || (s.workers[e].pc != InSchedule && s.workers[e].pc != Born)
  {
    var ev := OwnStep(s.workers[e].pc, e, i, zalloc);
    assert StepOf(ev, e);
  }

  /** Dispatchers and the refill thread are never stuck. */
  lemma OthersCanStep(s: PoolState, d: nat, i: nat, zalloc: Ptr)
    requires Inv(s) && CanFree(s, i, zalloc)
    ensures (exists ev :: DispatchOf(ev, d) && Enabled(s, ev)) <==> d in s.disp
    ensures if s.refill.Outside? then Enabled(s, RefillEnter)
            else if s.refill.Have? then Enabled(s, RefillPublish(i, zalloc))
            else if s.refill.left > 0 then Enabled(s, RefillCreate)
            else Enabled(s, RefillLeave)
  {
    if d in s.disp {
      assert DispatcherOk(s, d);
      assert WorkerOk(s, s.disp[d].e);
      var ev := match s.disp[d] case Holding(_, _) => SetTask(d) case HalfInstalled(_, _) => SetData(d) case Installed(_, _) => Wake(d);
      assert DispatchOf(ev, d) && Enabled(s, ev);
    }
  }

  // ---------------------------------------------------------------- where elements go

  /** What happens to the allocator when e is freed on pair i: it goes to the front of the queue of that
      pair, or behind slot 0 when that is full. */
  ghost predicate PutBack(a: State, a': State, i: nat, e: Elem)
    requires i < |a.pairs| == |a'.pairs|
  {
    var q, q', p := Queue(a, i), Queue(a', i), a.pairs[i];
    if |p.s0.items| < 4 then q' == [e] + q
    else |q| >= 4 && q' == q[..4] + (if p.Total() == 7 && (|a.depot.full| + 1) % U16 == 0 then [] else [e] + q[4..])
  }

  ghost predicate OnPair(ev: Event) { ev.Claim? || ev.Republish? || ev.RefillPublish? }

  /** Only claims and frees touch the allocator, and only the pair they are made on and the depot. */
  lemma StepOnAllocator(s: PoolState, ev: Event)
    requires Inv(s) && Enabled(s, ev)
    ensures var a, a' := s.alloc, Next(s, ev).alloc;
            && |a'.pairs| == |a.pairs|
            && if OnPair(ev) then forall j :: 0 <= j < |a.pairs| && j != ev.i ==> a'.pairs[j] == a.pairs[j] else a' == a
  {
    match ev
    case Claim(d, i, job) =>
      AllocTakesFront(s.alloc, i);
    case Republish(e, i, zalloc) => FreePutsInFront(s.alloc, i, e, zalloc);
    case RefillPublish(i, zalloc) => FreePutsInFront(s.alloc, i, s.refill.e, zalloc);
    case _ =>
  }

  /** A claim takes the front of the queue of its pair, and is accepted exactly if there is one. */
  lemma ClaimTakesFront(s: PoolState, d: nat, i: nat, job: Job)
    requires Inv(s) && Enabled(s, Claim(d, i, job))
    ensures var s', q := Next(s, Claim(d, i, job)), Queue(s.alloc, i);
            && |s'.alloc.pairs| == |s.alloc.pairs| && Queue(s'.alloc, i) == Behind(q, 1)
            && if q == [] then s'.accepted == s.accepted && s'.disp == s.disp
               else s'.accepted == s.accepted + [job] && s'.disp == s.disp[d := Holding(q[0], |s.accepted|)]
  {
    ClaimKeeps(s, d, i, job);
    AllocTakesFront(s.alloc, i);
  }

  lemma FreePutsBack(a: State, i: nat, e: Elem, zalloc: Ptr)
    requires StateOk(a) && i < |a.pairs|
    ensures |FreeElem(a, i, e, zalloc).pairs| == |a.pairs| && PutBack(a, FreeElem(a, i, e, zalloc), i, e)
  {
    FreePutsInFront(a, i, e, zalloc);
  }

  /** A worker puts its own element back, the refill thread the one it has just created. */
  lemma PublishPutsBack(s: PoolState, ev: Event)
    requires Inv(s) && Enabled(s, ev) && (ev.Republish? || ev.RefillPublish?)
    ensures var e, a' := if ev.Republish? then ev.e else s.refill.e, Next(s, ev).alloc;
            |a'.pairs| == |s.alloc.pairs| && PutBack(s.alloc, a', ev.i, e)
  {
    FreePutsBack(s.alloc, ev.i, if ev.Republish? then ev.e else s.refill.e, ev.zalloc);
  }

  // ---------------------------------------------------------------- jobs do get called

  ghost predicate Leads(s: PoolState, evs: seq<Event>, s': PoolState) { IsRun(s, evs) && Run(s, evs) == s' }

  lemma {:induction false} LeadsOn(s: PoolState, evs: seq<Event>, s1: PoolState, ev: Event, s': PoolState)
    requires Leads(s, evs, s1) && Enabled(s1, ev) && s' == Next(s1, ev)
    ensures Leads(s, evs + [ev], s')
    decreases |evs|
  {
    var more := evs + [ev];
    if evs == [] {
      assert more[0] == ev && more[1..] == [];
      assert Run(s', []) == s';
    } else {
      assert more[0] == evs[0] && more[1..] == evs[1..] + [ev];
      LeadsOn(Next(s, evs[0]), evs[1..], s1, ev, s');
    }
  }

  /** A pool as cbn_kthread_pool_init leaves it. */
  function FreshPool(poolSize: nat, zalloc: seq<Ptr>): PoolState {
    PoolState(poolSize, InitState(zalloc), [], map[], Outside, [], [], [])
  }

  lemma FreshPoolInit(poolSize: nat, zalloc: seq<Ptr>)
    requires |zalloc| % 2 == 0 && Distinct(zalloc)
    ensures Init(FreshPool(poolSize, zalloc))
  {
    InitOk(zalloc);
  }

  /** s with its one worker and its one dispatcher. */
  ghost predicate One(s: PoolState, w: Worker, disp: map<nat, Dispatcher>, job: Job) {
    s.workers == [w] && s.disp == disp && s.accepted == [job] && s.started == []
  }

  /** From a pool without threads, with pool_size > 0, the refill thread makes one ... */
  lemma FirstThread(s: PoolState, zalloc: Ptr) returns (evs: seq<Event>, s': PoolState)
    requires Init(s) && s.poolSize > 0 && CanFree(s, 0, zalloc)
    ensures Leads(s, evs, s') && |s'.alloc.pairs| == |s.alloc.pairs|
    ensures s'.workers == [Worker(Born, false, None, 0, InPool, 0)]
    ensures s'.disp == map[] && s'.accepted == [] && s'.started == [] && Queue(s'.alloc, 0) != []
  {
    InitInv(s);
    SizeZero(s.alloc);
    SizeSplit(s.alloc);
    assert s.alloc.depot.full == [];
    var s1 := Next(s, RefillEnter);
    assert Leads(s, [], s);
    LeadsOn(s, [], s, RefillEnter, s1);
    var s2 := Next(s1, RefillCreate);
    LeadsOn(s, [] + [RefillEnter], s1, RefillCreate, s2);
    evs := [] + [RefillEnter] + [RefillCreate];
    assert CanFree(s2, 0, zalloc);
    s' := Next(s2, RefillPublish(0, zalloc));
    LeadsOn(s, evs, s2, RefillPublish(0, zalloc), s');
    evs := evs + [RefillPublish(0, zalloc)];
    FreePutsInFront(s2.alloc, 0, 0, zalloc);
  }

  /** ... which a dispatcher claims ... */
  lemma FirstClaim(s0: PoolState, evs0: seq<Event>, s: PoolState, job: Job) returns (evs: seq<Event>, s': PoolState)
    requires Leads(s0, evs0, s) && Inv(s) && |s.alloc.pairs| > 0
    requires s.workers == [Worker(Born, false, None, 0, InPool, 0)]
    requires s.disp == map[] && s.accepted == [] && s.started == [] && Queue(s.alloc, 0) != []
    ensures Leads(s0, evs, s')
    ensures One(s', Worker(Born, false, None, 0, Claimed(0), 0), map[0 := Holding(0, 0)], job)
  {
    s' := Next(s, Claim(0, 0, job));
    LeadsOn(s0, evs0, s, Claim(0, 0, job), s');
    evs := evs0 + [Claim(0, 0, job)];
    ClaimKeeps(s, 0, 0, job);
    AllocTakesFront(s.alloc, 0);
  }

  /** ... and wakes with the job ... */
  lemma FirstWake(s0: PoolState, evs0: seq<Event>, s: PoolState, job: Job) returns (evs: seq<Event>, s': PoolState)
    requires Leads(s0, evs0, s) && One(s, Worker(Born, false, None, 0, Claimed(0), 0), map[0 := Holding(0, 0)], job)
    ensures Leads(s0, evs, s') && One(s', Worker(Born, true, Some(job.func), job.data, Owned, 0), map[], job)
  {
    var s1 := Next(s, SetTask(0));
    LeadsOn(s0, evs0, s, SetTask(0), s1);
    var s2 := Next(s1, SetData(0));
    LeadsOn(s0, evs0 + [SetTask(0)], s1, SetData(0), s2);
    s' := Next(s2, Wake(0));
    LeadsOn(s0, evs0 + [SetTask(0)] + [SetData(0)], s2, Wake(0), s');
    evs := evs0 + [SetTask(0)] + [SetData(0)] + [Wake(0)];
  }

  /** ... which it calls. */
  lemma FirstCall(s0: PoolState, evs0: seq<Event>, s: PoolState, job: Job) returns (evs: seq<Event>, s': PoolState)
    requires Leads(s0, evs0, s) && One(s, Worker(Born, true, Some(job.func), job.data, Owned, 0), map[], job)
    ensures Leads(s0, evs, s') && s'.accepted == [job] && s'.started == [Start(0, job)]
  {
    var s1 := Next(s, Work(0));
    LeadsOn(s0, evs0, s, Work(0), s1);
    s' := Next(s1, Begin(0));
    LeadsOn(s0, evs0 + [Work(0)], s1, Begin(0), s');
    evs := evs0 + [Work(0)] + [Begin(0)];
  }

  /** A pool that is to have threads gets some and they call what is dispatched: for every pool_size > 0 and
      every job there is a run from the start in which the job is accepted and called. */
  lemma JobIsCalled(s: PoolState, zalloc: Ptr, job: Job)
    requires Init(s) && s.poolSize > 0 && CanFree(s, 0, zalloc)
    ensures exists evs :: IsRun(s, evs) && Run(s, evs).accepted == [job] && Run(s, evs).started == [Start(0, job)]
  {
    var evs, s1 := FirstThread(s, zalloc);
    InitInv(s);
    RunKeeps(s, evs);
    var s2;
    evs, s2 := FirstClaim(s, evs, s1, job);
    evs, s2 := FirstWake(s, evs, s2, job);
    evs, s2 := FirstCall(s, evs, s2, job);
  }
}
