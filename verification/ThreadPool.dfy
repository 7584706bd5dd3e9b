/**
 The kthread pool (tcpsplit/thread_pool.c) as a step relation: any number of worker threads, any
 number of concurrent dispatchers on any CPUs, and the refill thread share one magazine allocator.
 Every step is one memory access of the source; magazine operations run with interrupts off and are
 one step each.  Memory is sequentially consistent, kzalloc and kthread_create succeed, and the
 kthread_should_stop exits are not taken.
 */
module ThreadPool {
  import opened Magazine

  /** What a caller asks to run: a (non-NULL) function and its argument. */
  datatype Job = Job(func: nat, data: nat)

  /** Where the worker thread of an element stands. */
  datatype Pc =
    | Born          // created by kthread_create, not woken yet
    | AtTop         // before the test of elem->pool_task
    | InTask        // inside the task function
    | Done          // before set_current_state(TASK_UNINTERRUPTIBLE)
    | Marked        // before elem->pool_task = NULL
    | Cleared       // before kthread_pool_reuse
    | Published     // before schedule()
    | InSchedule    // inside schedule()
    | Resumed       // before __set_current_state(TASK_RUNNING)

  /** Who may touch an element.  This records history; no step reads it. */
  datatype Owner = InPool | WithRefill | Claimed(d: nat) | Owned

  /** struct pool_elem with its task: awake says that the task state is TASK_RUNNING.  ticket numbers
      the last claim; no step reads it. */
  datatype Worker = Worker(pc: Pc, awake: bool, task: Option<nat>, data: nat, owner: Owner, ticket: nat)

  /** A dispatcher inside __kthread_pool_run; one that is outside has no entry. */
  datatype Dispatcher =
    | Holding(e: Elem, ticket: nat)         // element claimed
    | HalfInstalled(e: Elem, ticket: nat)   // pool_task written, data not yet
    | Installed(e: Elem, ticket: nat)       // before wake_up_process

  datatype Refill =
    | Outside                   // not inside refill_pool
    | Loop(left: nat)           // before the test of the loop
    | Have(left: nat, e: Elem)  // created e, before mag_free_elem

  datatype Start = Start(ticket: nat, job: Job)

  datatype PoolState = PoolState(
    poolSize: nat,
    alloc: State,
    workers: seq<Worker>,             // every pool_elem ever created; an Elem is an index
    disp: map<nat, Dispatcher>,
    refill: Refill,
    accepted: seq<Job>,               // job of every successful claim, in order
    holder: seq<Elem>,                // the element each of them got
    started: seq<Start>)              // task calls made by workers, in order

  datatype Event =
    | Claim(d: nat, i: nat, job: Job)
    | SetTask(d: nat)
    | SetData(d: nat)
    | Wake(d: nat)
    | Begin(e: Elem)
    | Work(e: Elem)                             // any other step of the worker loop, see Advance
    | Republish(e: Elem, i: nat, zalloc: Ptr)
    | RefillEnter
    | RefillCreate
    | RefillPublish(i: nat, zalloc: Ptr)
    | RefillLeave

  ghost predicate CanFree(s: PoolState, i: nat, zalloc: Ptr) {
    i < |s.alloc.pairs| && Places(s.alloc, zalloc) == 0
  }

  predicate At(s: PoolState, e: Elem, pc: Pc) { e < |s.workers| && s.workers[e].pc == pc }

  ghost predicate Enabled(s: PoolState, ev: Event) {
    match ev
    case Claim(d, i, _) => d !in s.disp && i < |s.alloc.pairs|
    case SetTask(d) => d in s.disp && s.disp[d].Holding? && s.disp[d].e < |s.workers| && s.disp[d].ticket < |s.accepted|
    case SetData(d) => d in s.disp && s.disp[d].HalfInstalled? && s.disp[d].e < |s.workers| && s.disp[d].ticket < |s.accepted|
    case Wake(d) => d in s.disp && s.disp[d].Installed? && s.disp[d].e < |s.workers|
    case Begin(e) => At(s, e, AtTop)
    case Work(e) =>
      && e < |s.workers| && s.workers[e].pc !in {AtTop, Cleared}
      && (s.workers[e].pc == InSchedule || s.workers[e].pc == Born ==> s.workers[e].awake)
    case Republish(e, i, zalloc) => At(s, e, Cleared) && CanFree(s, i, zalloc)
    case RefillEnter => s.refill.Outside?
    case RefillCreate => s.refill.Loop? && s.refill.left > 0
    case RefillPublish(i, zalloc) => s.refill.Have? && CanFree(s, i, zalloc)
    case RefillLeave => s.refill.Loop? && s.refill.left == 0
  }

  function Put(s: PoolState, e: Elem, w: Worker): PoolState
    requires e < |s.workers|
  {
    s.(workers := s.workers[e := w])
  }

  /** The steps of the worker loop that touch only its own task state and element: leaving the task,
      set_current_state, pool_task = NULL, entering schedule(), leaving it (possible only once the task
      state is TASK_RUNNING again; a thread that was just created starts this way), and
      __set_current_state. */
  function Advance(w: Worker): Worker {
    match w.pc
    case InTask => w.(pc := Done)
    case Done => w.(pc := Marked, awake := false)
    case Marked => w.(pc := Cleared, task := None)
    case Published => w.(pc := InSchedule)
    case Resumed => w.(pc := AtTop, awake := true)
    case Born => w.(pc := AtTop)
    case _ => w.(pc := Resumed)
  }

  ghost function Next(s: PoolState, ev: Event): PoolState
    requires Enabled(s, ev)
  {
    match ev
    case Claim(d, i, job) =>
      var (alloc, r) := AllocElem(s.alloc, i);
      if r == None || r.value >= |s.workers| then s.(alloc := alloc)   // returns -ENOMEM
      else
        var t := |s.accepted|;
        Put(s, r.value, s.workers[r.value].(owner := Claimed(d), ticket := t))
          .(alloc := alloc, disp := s.disp[d := Holding(r.value, t)],
            accepted := s.accepted + [job], holder := s.holder + [r.value])
    case SetTask(d) =>
      var Holding(e, t) := s.disp[d];
      Put(s, e, s.workers[e].(task := Some(s.accepted[t].func))).(disp := s.disp[d := HalfInstalled(e, t)])
    case SetData(d) =>
      var HalfInstalled(e, t) := s.disp[d];
      Put(s, e, s.workers[e].(data := s.accepted[t].data)).(disp := s.disp[d := Installed(e, t)])
    case Wake(d) =>
      var e := s.disp[d].e;
      Put(s, e, s.workers[e].(awake := true, owner := Owned)).(disp := s.disp - {d})
    case Begin(e) =>
      var w := s.workers[e];
      if w.task == None then Put(s, e, w.(pc := Done))   // "no pool task"
      else Put(s, e, w.(pc := InTask)).(started := s.started + [Start(w.ticket, Job(w.task.value, w.data))])
    case Work(e) => Put(s, e, Advance(s.workers[e]))
    case Republish(e, i, zalloc) =>
      Put(s, e, s.workers[e].(pc := Published, owner := InPool)).(alloc := FreeElem(s.alloc, i, e, zalloc))
    case RefillEnter => s.(refill := Loop(Deficit(s.poolSize, s.alloc)))
    case RefillCreate =>
      s.(workers := s.workers + [Worker(Born, false, None, 0, WithRefill, 0)],
         refill := Have(s.refill.left - 1, |s.workers|))
    case RefillPublish(i, zalloc) =>
      var Have(left, e) := s.refill;
      var s' := s.(alloc := FreeElem(s.alloc, i, e, zalloc), refill := Loop(left));
      if e < |s.workers| then Put(s', e, s.workers[e].(owner := InPool)) else s'
    case RefillLeave => s.(refill := Outside)
  }

  ghost predicate Init(s: PoolState) {
    && StateOk(s.alloc) && (forall e :: Held(s.alloc, e) == 0)
    && s.workers == [] && s.disp == map[] && s.refill == Outside
    && s.accepted == [] && s.holder == [] && s.started == []
  }

  ghost predicate IsRun(s: PoolState, evs: seq<Event>)
    decreases |evs|
  {
    evs == [] || (Enabled(s, evs[0]) && IsRun(Next(s, evs[0]), evs[1..]))
  }

  ghost function Run(s: PoolState, evs: seq<Event>): PoolState
    requires IsRun(s, evs)
    decreases |evs|
  {
    if evs == [] then s else Run(Next(s, evs[0]), evs[1..])
  }

  // ---------------------------------------------------------------- the invariant

  predicate Parked(w: Worker) { !w.awake && (w.pc == Born || w.pc == Published || w.pc == InSchedule) }

  /** The worker has been dispatched and has not called its task yet. */
  predicate Pending(w: Worker) {
    w.owner.Claimed? ||
    (w.owner.Owned? && (w.pc == Born || w.pc == Published || w.pc == InSchedule || w.pc == Resumed || w.pc == AtTop))
  }

  ghost predicate Started(s: PoolState, t: nat) {
    exists k :: 0 <= k < |s.started| && s.started[k].ticket == t
  }

  ghost predicate Carries(s: PoolState, w: Worker) {
    w.ticket < |s.accepted| && w.task == Some(s.accepted[w.ticket].func) && w.data == s.accepted[w.ticket].data
  }

  ghost predicate WorkerOk(s: PoolState, e: Elem)
    requires e < |s.workers|
  {
    var w := s.workers[e];
    && Held(s.alloc, e) == (if w.owner == InPool then 1 else 0)
    && (w.owner == InPool || w.owner == WithRefill ==> Parked(w) && w.task == None)
    && (w.owner == WithRefill ==> s.refill.Have? && s.refill.e == e)
    && (w.owner.Claimed? ==>
          && Parked(w) && w.owner.d in s.disp && s.disp[w.owner.d].e == e && s.disp[w.owner.d].ticket == w.ticket
          && w.ticket < |s.accepted|
          && match s.disp[w.owner.d]
             case Holding(_, _) => w.task == None
             case HalfInstalled(_, t) => w.task == Some(s.accepted[t].func)
             case Installed(_, _) => Carries(s, w))
    && (w.owner.Owned? ==>
          && (Pending(w) ==> w.awake && Carries(s, w))
          && (w.pc == InTask || w.pc == Done ==> w.awake)
          && (w.pc == Marked || w.pc == Cleared ==> !w.awake)
          && (w.pc == Cleared ==> w.task == None))
    && (Pending(w) ==> w.ticket < |s.holder| && s.holder[w.ticket] == e && !Started(s, w.ticket))
  }

  ghost predicate DispatcherOk(s: PoolState, d: nat)
    requires d in s.disp
  {
    s.disp[d].e < |s.workers| && s.workers[s.disp[d].e].owner == Claimed(d)
  }

  ghost predicate TicketOk(s: PoolState, t: nat)
    requires t < |s.holder|
  {
    Started(s, t) ||
    (s.holder[t] < |s.workers| && Pending(s.workers[s.holder[t]]) && s.workers[s.holder[t]].ticket == t)
  }

  ghost predicate StartedOk(s: PoolState) {
    && (forall k :: 0 <= k < |s.started| ==>
          s.started[k].ticket < |s.accepted| && s.started[k].job == s.accepted[s.started[k].ticket])
    && (forall k, l :: 0 <= k < l < |s.started| ==> s.started[k].ticket != s.started[l].ticket)
  }

  ghost predicate RefillOk(s: PoolState) {
    s.refill.Have? ==> s.refill.e < |s.workers| && s.workers[s.refill.e].owner == WithRefill
  }

  ghost predicate Inv(s: PoolState) {
    && StateOk(s.alloc)
    && (forall e :: 0 <= e < |s.workers| ==> WorkerOk(s, e))
    && (forall e: Elem :: e >= |s.workers| ==> Held(s.alloc, e) == 0)
    && (forall d :: d in s.disp ==> DispatcherOk(s, d))
    && |s.holder| == |s.accepted|
    && (forall t :: 0 <= t < |s.holder| ==> TicketOk(s, t))
    && StartedOk(s) && RefillOk(s)
  }

  // ---------------------------------------------------------------- every step keeps it

  /** s' differs from s for nobody but element e: the allocator, the dispatchers, the refill thread and
      the tickets of the other elements are as they were. */
  ghost predicate OnlyAt(s: PoolState, s': PoolState, e: Elem) {
    && e < |s.workers| == |s'.workers|
    && (forall x :: 0 <= x < |s.workers| && x != e ==> s'.workers[x] == s.workers[x])
    && (forall x: Elem :: x != e ==> Held(s'.alloc, x) == Held(s.alloc, x))
    && (forall d :: d in s.disp && s.disp[d].e != e ==> d in s'.disp && s'.disp[d] == s.disp[d])
    && (forall d :: d in s'.disp && s'.disp[d].e != e ==> d in s.disp && s'.disp[d] == s.disp[d])
    && (s.refill.Have? && s.refill.e != e ==> s'.refill == s.refill)
    && (s'.refill.Have? && s'.refill.e != e ==> s'.refill == s.refill)
    && s.accepted <= s'.accepted && s.holder <= s'.holder && |s'.holder| == |s'.accepted|
    && (forall t :: |s.holder| <= t < |s'.holder| ==> s'.holder[t] == e)
    && (forall t :: Started(s, t) ==> Started(s', t))
    && (forall t :: 0 <= t < |s.holder| && s.holder[t] != e ==> (Started(s', t) ==> Started(s, t)))
  }

  /** Then only what concerns e has to be looked at again. */
  lemma Assemble(s: PoolState, s': PoolState, e: Elem)
    requires Inv(s) && OnlyAt(s, s', e)
    requires StateOk(s'.alloc) && WorkerOk(s', e) && StartedOk(s') && RefillOk(s')
    requires forall d :: d in s'.disp && s'.disp[d].e == e ==> DispatcherOk(s', d)
    requires forall t :: 0 <= t < |s'.holder| && s'.holder[t] == e ==> TicketOk(s', t)
    ensures Inv(s')
  {
    forall x | 0 <= x < |s'.workers| && x != e ensures WorkerOk(s', x) {
      assert WorkerOk(s, x);
    }
    forall d | d in s'.disp && s'.disp[d].e != e ensures DispatcherOk(s', d) {
      assert DispatcherOk(s, d);
    }
    forall t | 0 <= t < |s'.holder| && s'.holder[t] != e ensures TicketOk(s', t) {
      assert TicketOk(s, t);
    }
  }

  /** A step of worker e that leaves its claim alone and at most records the call of its task. */
  lemma AssembleWorker(s: PoolState, e: Elem, w: Worker, started: seq<Start>)
    requires Inv(s) && e < |s.workers|
    requires w.owner == s.workers[e].owner && w.ticket == s.workers[e].ticket
    requires var s' := Put(s, e, w).(started := started);
             && WorkerOk(s', e) && StartedOk(s')
             && (forall t :: Started(s', t) == (Started(s, t) || (Pending(s.workers[e]) && !Pending(w) && t == w.ticket)))
    ensures Inv(Put(s, e, w).(started := started))
  {
    var s' := Put(s, e, w).(started := started);
    assert WorkerOk(s, e);
    forall d | d in s'.disp && s'.disp[d].e == e ensures DispatcherOk(s', d) {
      assert DispatcherOk(s, d);
    }
    forall t | 0 <= t < |s'.holder| && s'.holder[t] == e ensures TicketOk(s', t) {
      assert TicketOk(s, t);
    }
    Assemble(s, s', e);
  }

  lemma WorkKeeps(s: PoolState, e: Elem)
    requires Inv(s) && Enabled(s, Work(e))
    ensures Inv(Next(s, Work(e)))
  {
    var w := Advance(s.workers[e]);
    var s' := Put(s, e, w).(started := s.started);
    assert WorkerOk(s, e);
    assert forall t :: Started(s', t) == Started(s, t);
    AssembleWorker(s, e, w, s.started);
    assert s' == Next(s, Work(e));
  }

  lemma {:induction false} AppendStarted(s: PoolState, s': PoolState, x: Start, t: nat)
    requires s'.started == s.started + [x]
    ensures Started(s', t) == (Started(s, t) || t == x.ticket)
  {
    var n := |s.started|;
    if Started(s, t) {
      var k :| 0 <= k < n && s.started[k].ticket == t;
      assert s'.started[k].ticket == t;
    }
    if Started(s', t) && t != x.ticket {
      var k :| 0 <= k < |s'.started| && s'.started[k].ticket == t;
      assert s.started[k].ticket == t;
    }
    if t == x.ticket {
      assert s'.started[n].ticket == t;
    }
  }

  lemma BeginKeeps(s: PoolState, e: Elem)
    requires Inv(s) && Enabled(s, Begin(e))
    ensures s.workers[e].owner == Owned && s.workers[e].task.Some?
    ensures Inv(Next(s, Begin(e)))
  {
    var w, s' := s.workers[e], Next(s, Begin(e));
    assert WorkerOk(s, e);
    var x := Start(w.ticket, s.accepted[w.ticket]);
    assert s'.started == s.started + [x];
    forall t ensures Started(s', t) == (Started(s, t) || t == w.ticket) {
      AppendStarted(s, s', x, t);
    }
    forall k | 0 <= k < |s.started| ensures s.started[k].ticket != w.ticket {
      assert !Started(s, w.ticket);
    }
    assert s' == Put(s, e, w.(pc := InTask)).(started := s'.started);
    AssembleWorker(s, e, w.(pc := InTask), s'.started);
  }

  lemma DispatchStepKeeps(s: PoolState, ev: Event)
    requires Inv(s) && Enabled(s, ev)
    requires ev.SetTask? || ev.SetData? || ev.Wake?
    ensures s.workers[s.disp[ev.d].e].owner == Claimed(ev.d)
    ensures ev.SetTask? ==> s.workers[s.disp[ev.d].e].task == None
    ensures Inv(Next(s, ev))
  {
    var d, s' := ev.d, Next(s, ev);
    assert DispatcherOk(s, d);
    var e := s.disp[d].e;
    assert WorkerOk(s, e);
    assert forall t :: Started(s', t) == Started(s, t);
    forall c | c in s'.disp && s'.disp[c].e == e ensures DispatcherOk(s', c) {
      assert DispatcherOk(s, c);
    }
    forall t | 0 <= t < |s'.holder| && s'.holder[t] == e ensures TicketOk(s', t) {
      assert TicketOk(s, t);
    }
    Assemble(s, s', e);
  }

  lemma ClaimKeeps(s: PoolState, d: nat, i: nat, job: Job)
    requires Inv(s) && Enabled(s, Claim(d, i, job))
    ensures var r := AllocElem(s.alloc, i).1;
            r.Some? ==> r.value < |s.workers| && s.workers[r.value].owner == InPool
    ensures Inv(Next(s, Claim(d, i, job)))
  {
    var (alloc, r) := AllocElem(s.alloc, i);
    var s' := Next(s, Claim(d, i, job));
    AllocKeeps(s.alloc, i);
    AllocHeld(s.alloc, i);
    assert forall t :: Started(s', t) == Started(s, t);
    if r == None {
      SameHeld(s, s');
      return;
    }
    assert Held(s.alloc, r.value) >= 1;
    assert WorkerOk(s, r.value);
    ClaimedKeeps(s, d, r.value, job, alloc);
  }

  /** Dispatcher d took element e out of the allocator, which is a' afterwards. */
  lemma ClaimedKeeps(s: PoolState, d: nat, e: Elem, job: Job, a': State)
    requires Inv(s) && d !in s.disp && e < |s.workers| && s.workers[e].owner == InPool && StateOk(a')
    requires forall x: Elem :: Held(s.alloc, x) == Held(a', x) + (if x == e then 1 else 0)
    ensures var t := |s.accepted|;
            Inv(Put(s, e, s.workers[e].(owner := Claimed(d), ticket := t))
                .(alloc := a', disp := s.disp[d := Holding(e, t)], accepted := s.accepted + [job], holder := s.holder + [e]))
  {
    var t := |s.accepted|;
    var s' := Put(s, e, s.workers[e].(owner := Claimed(d), ticket := t))
              .(alloc := a', disp := s.disp[d := Holding(e, t)], accepted := s.accepted + [job], holder := s.holder + [e]);
    assert WorkerOk(s, e);
    Unclaimed(s, e);
    assert !Started(s, t);
    assert forall t :: Started(s', t) == Started(s, t);
    Assemble(s, s', e);
  }

  lemma SameHeld(s: PoolState, s': PoolState)
    requires Inv(s) && s' == s.(alloc := s'.alloc) && StateOk(s'.alloc)
    requires forall x: Elem :: Held(s'.alloc, x) == Held(s.alloc, x)
    ensures Inv(s')
  {
    assert forall t :: Started(s', t) == Started(s, t);
    forall x | 0 <= x < |s'.workers| ensures WorkerOk(s', x) {
      assert WorkerOk(s, x);
    }
    forall d | d in s'.disp ensures DispatcherOk(s', d) {
      assert DispatcherOk(s, d);
    }
    forall t | 0 <= t < |s'.holder| ensures TicketOk(s', t) {
      assert TicketOk(s, t);
    }
  }

  lemma AllocHeld(a: State, i: nat)
    requires StateOk(a) && i < |a.pairs|
    ensures var (a', r) := AllocElem(a, i);
            forall x: Elem {:trigger Held(a', x)} {:trigger Held(a, x)} ::
              Held(a, x) == Held(a', x) + (if r == Some(x) then 1 else 0)
  {
    var (a', r) := AllocElem(a, i);
    forall x: Elem ensures Held(a, x) == Held(a', x) + (if r == Some(x) then 1 else 0) {
      AllocConserves(a, i, Item(x));
    }
  }

  lemma FreeHeld(a: State, i: nat, e: Elem, zalloc: Ptr)
    requires StateOk(a) && i < |a.pairs| && Places(a, zalloc) == 0
    ensures var a' := FreeElem(a, i, e, zalloc);
            && StateOk(a')
            && forall x: Elem {:trigger Held(a', x)} {:trigger Held(a, x)} ::
                 Held(a', x) == Held(a, x) + (if x == e then 1 else 0)
  {
    FreeKeeps(a, i, e, zalloc);
    var a' := FreeElem(a, i, e, zalloc);
    forall x: Elem ensures Held(a', x) == Held(a, x) + (if x == e then 1 else 0) {
      FreeConserves(a, i, e, zalloc, Item(x));
    }
  }

  /** Nobody dispatches an element that is not claimed, and all its tickets are used up. */
  lemma Unclaimed(s: PoolState, e: Elem)
    requires Inv(s) && e < |s.workers| && !Pending(s.workers[e])
    ensures forall d :: d in s.disp ==> s.disp[d].e != e
    ensures forall t :: 0 <= t < |s.holder| && s.holder[t] == e ==> Started(s, t)
  {
    forall d | d in s.disp ensures s.disp[d].e != e {
      assert DispatcherOk(s, d);
    }
    forall t | 0 <= t < |s.holder| && s.holder[t] == e ensures Started(s, t) {
      assert TicketOk(s, t);
    }
  }

  /** Element e goes (back) into the allocator, which is a' afterwards. */
  lemma PublishKeeps(s: PoolState, e: Elem, w: Worker, a': State, refill: Refill)
    requires Inv(s) && e < |s.workers| && !Pending(s.workers[e])
    requires w.owner == InPool && Parked(w) && w.task == None && Held(s.alloc, e) == 0 && StateOk(a')
    requires forall x: Elem :: Held(a', x) == Held(s.alloc, x) + (if x == e then 1 else 0)
    requires refill == s.refill || (s.refill.Have? && s.refill.e == e && !refill.Have?)
    requires s.workers[e].owner == WithRefill ==> !refill.Have?
    ensures Inv(Put(s, e, w).(alloc := a', refill := refill))
  {
    var s' := Put(s, e, w).(alloc := a', refill := refill);
    Unclaimed(s, e);
    assert forall t :: Started(s', t) == Started(s, t);
    Assemble(s, s', e);
  }

  lemma RepublishKeeps(s: PoolState, e: Elem, i: nat, zalloc: Ptr)
    requires Inv(s) && Enabled(s, Republish(e, i, zalloc))
    ensures s.workers[e].owner == Owned
    ensures Inv(Next(s, Republish(e, i, zalloc)))
  {
    FreeHeld(s.alloc, i, e, zalloc);
    assert WorkerOk(s, e);
    PublishKeeps(s, e, s.workers[e].(pc := Published, owner := InPool), FreeElem(s.alloc, i, e, zalloc), s.refill);
  }

  lemma RefillPublishKeeps(s: PoolState, i: nat, zalloc: Ptr)
    requires Inv(s) && Enabled(s, RefillPublish(i, zalloc))
    ensures Inv(Next(s, RefillPublish(i, zalloc)))
  {
    var e := s.refill.e;
    FreeHeld(s.alloc, i, e, zalloc);
    assert WorkerOk(s, e);
    PublishKeeps(s, e, s.workers[e].(owner := InPool), FreeElem(s.alloc, i, e, zalloc), Loop(s.refill.left));
  }

  lemma RefillStepKeeps(s: PoolState, ev: Event)
    requires Inv(s) && Enabled(s, ev)
    requires ev.RefillEnter? || ev.RefillLeave? || ev.RefillCreate?
    ensures Inv(Next(s, ev))
  {
    var s' := Next(s, ev);
    assert forall t :: Started(s', t) == Started(s, t);
    forall x | 0 <= x < |s'.workers| ensures WorkerOk(s', x) {
      if x < |s.workers| {
        assert WorkerOk(s, x);
      }
    }
    forall d | d in s'.disp ensures DispatcherOk(s', d) {
      assert DispatcherOk(s, d);
    }
    forall t | 0 <= t < |s'.holder| ensures TicketOk(s', t) {
      assert TicketOk(s, t);
    }
  }

  lemma StepKeeps(s: PoolState, ev: Event)
    requires Inv(s) && Enabled(s, ev)
    ensures Inv(Next(s, ev))
  {
    match ev
    case Claim(d, i, job) => ClaimKeeps(s, d, i, job);
    case Begin(e) => BeginKeeps(s, e);
    case Republish(e, i, zalloc) => RepublishKeeps(s, e, i, zalloc);
    case RefillPublish(i, zalloc) => RefillPublishKeeps(s, i, zalloc);
    case SetTask(_) => DispatchStepKeeps(s, ev);
    case SetData(_) => DispatchStepKeeps(s, ev);
    case Wake(_) => DispatchStepKeeps(s, ev);
    case RefillEnter => RefillStepKeeps(s, ev);
    case RefillCreate => RefillStepKeeps(s, ev);
    case RefillLeave => RefillStepKeeps(s, ev);
    case Work(e) => WorkKeeps(s, e);
  }

  lemma {:induction false} RunKeeps(s: PoolState, evs: seq<Event>)
    requires Inv(s) && IsRun(s, evs)
    ensures Inv(Run(s, evs))
    decreases |evs|
  {
    if evs != [] {
      StepKeeps(s, evs[0]);
      RunKeeps(Next(s, evs[0]), evs[1..]);
    }
  }

  lemma InitInv(s: PoolState)
    requires Init(s)
    ensures Inv(s)
  {
  }

  ghost predicate Reachable(s: PoolState) {
    exists s0, evs :: Init(s0) && IsRun(s0, evs) && s == Run(s0, evs)
  }

  lemma ReachableInv(s: PoolState)
    requires Reachable(s)
    ensures Inv(s)
  {
    var s0, evs :| Init(s0) && IsRun(s0, evs) && s == Run(s0, evs);
    InitInv(s0);
    RunKeeps(s0, evs);
  }

  // ---------------------------------------------------------------- what it means

  /** In the allocator, exactly once, with no task, its worker asleep or about to sleep. */
  ghost predicate Idle(s: PoolState, e: Elem)
    requires e < |s.workers|
  {
    Held(s.alloc, e) == 1 && s.workers[e].task == None && Parked(s.workers[e])
  }

  ghost predicate ClaimedBy(s: PoolState, e: Elem, d: nat) { d in s.disp && s.disp[d].e == e }

  ghost predicate BeingBorn(s: PoolState, e: Elem) { s.refill.Have? && s.refill.e == e }

  /** The worker has its element for itself: it is awake, or between set_current_state and
      kthread_pool_reuse. */
  predicate Running(w: Worker) { w.awake || w.pc == Marked || w.pc == Cleared }

  /** In every reachable state, under any interleaving, every element is idle in the allocator,
      claimed by one dispatcher and no other, owned by its running worker, or just being created, and
      is in the allocator in the first case only. */
  lemma DispatchSafety(s: PoolState, e: Elem)
    requires Reachable(s) && e < |s.workers|
    ensures Held(s.alloc, e) == 1 || (exists d :: ClaimedBy(s, e, d)) || BeingBorn(s, e) || Running(s.workers[e])
    ensures Running(s.workers[e]) ==> Held(s.alloc, e) == 0 && !BeingBorn(s, e) && forall d :: !ClaimedBy(s, e, d)
    ensures Held(s.alloc, e) <= 1
    ensures Held(s.alloc, e) == 1 <==> s.workers[e].owner == InPool
    ensures Held(s.alloc, e) == 1 ==> Idle(s, e) && !BeingBorn(s, e) && forall d :: !ClaimedBy(s, e, d)
    ensures forall d, d' :: ClaimedBy(s, e, d) && ClaimedBy(s, e, d') ==> d == d'
    ensures forall d :: ClaimedBy(s, e, d) ==> Held(s.alloc, e) == 0 && Parked(s.workers[e]) && !BeingBorn(s, e)
    ensures !Parked(s.workers[e]) ==> Held(s.alloc, e) == 0 && !BeingBorn(s, e) && forall d :: !ClaimedBy(s, e, d)
  {
    ReachableInv(s);
    assert WorkerOk(s, e);
    forall d | ClaimedBy(s, e, d) ensures s.workers[e].owner == Claimed(d) {
      assert DispatcherOk(s, d);
    }
    if s.workers[e].owner.Claimed? {
      assert ClaimedBy(s, e, s.workers[e].owner.d);
    }
  }

  /** Neither error branch is ever taken: a dispatcher never finds a task in the element it claimed
      ("task allocated twice"), and a worker never tests an element without one ("no pool task"). */
  lemma NoErrorBranch(s: PoolState)
    requires Reachable(s)
    ensures forall d :: d in s.disp && s.disp[d].Holding? ==>
              s.disp[d].e < |s.workers| && s.workers[s.disp[d].e].task == None
    ensures forall e :: 0 <= e < |s.workers| && s.workers[e].pc == AtTop ==> s.workers[e].task.Some?
  {
    ReachableInv(s);
    forall d | d in s.disp && s.disp[d].Holding?
      ensures s.disp[d].e < |s.workers| && s.workers[s.disp[d].e].task == None
    {
      assert DispatcherOk(s, d);
      assert WorkerOk(s, s.disp[d].e);
    }
    forall e | 0 <= e < |s.workers| && s.workers[e].pc == AtTop ensures s.workers[e].task.Some? {
      assert WorkerOk(s, e);
    }
  }

  /** Every accepted job is called at most once, with its own function and argument, and if it was
      not called yet, it waits at the element its dispatcher claimed. */
  lemma ExactlyOnce(s: PoolState, t: nat)
    requires Reachable(s) && t < |s.accepted|
    ensures forall k, l :: 0 <= k < |s.started| && 0 <= l < |s.started| && s.started[k].ticket == s.started[l].ticket ==> k == l
    ensures forall k :: 0 <= k < |s.started| && s.started[k].ticket == t ==> s.started[k].job == s.accepted[t]
    ensures t < |s.holder|
    ensures Started(s, t) <==>
              !(s.holder[t] < |s.workers| && Pending(s.workers[s.holder[t]]) && s.workers[s.holder[t]].ticket == t)
  {
    ReachableInv(s);
    assert TicketOk(s, t);
    if s.holder[t] < |s.workers| {
      assert WorkerOk(s, s.holder[t]);
    }
  }

  // ---------------------------------------------------------------- no lost wakeup

  /** Woken by its dispatcher for ticket t, and t not called yet. */
  predicate Woken(s: PoolState, e: Elem, t: nat) {
    e < |s.workers| && s.workers[e].owner == Owned && Pending(s.workers[e]) && s.workers[e].ticket == t
  }

  /** How many steps of its own a woken worker is away from having called its task. */
  function Rank(pc: Pc): nat {
    match pc
    case Published => 4
    case InSchedule => 3
    case Resumed => 2
    case Born => 2
    case _ => 1
  }

  predicate StepOf(ev: Event, e: Elem) {
    match ev
    case Begin(x) => x == e
    case Work(x) => x == e
    case Republish(x, _, _) => x == e
    case _ => false
  }

  ghost function StepsOf(evs: seq<Event>, e: Elem): nat {
    if evs == [] then 0 else (if StepOf(evs[0], e) then 1 else 0) + StepsOf(evs[1..], e)
  }

  /** wake_up_process makes the worker woken, whatever it was doing on its way to sleep. */
  lemma WakeWakes(s: PoolState, d: nat)
    requires Inv(s) && Enabled(s, Wake(d))
    ensures Woken(Next(s, Wake(d)), s.disp[d].e, s.disp[d].ticket)
  {
    assert DispatcherOk(s, d);
    assert WorkerOk(s, s.disp[d].e);
  }

  /** A woken worker is never stuck: it is not asleep, and its next step is enabled. */
  lemma WokenCanStep(s: PoolState, e: Elem, t: nat)
    requires Inv(s) && Woken(s, e, t)
    ensures s.workers[e].awake
    ensures if s.workers[e].pc == AtTop then Enabled(s, Begin(e)) else Enabled(s, Work(e))
  {
    assert WorkerOk(s, e);
  }

  /** Each of its steps brings a woken worker nearer to its task; nobody else's step matters to it. */
  lemma WokenStep(s: PoolState, ev: Event, e: Elem, t: nat)
    requires Inv(s) && Woken(s, e, t) && Enabled(s, ev)
    ensures var s' := Next(s, ev);
            || (StepOf(ev, e) && Started(s', t))
            || (Woken(s', e, t) && Rank(s'.workers[e].pc) + (if StepOf(ev, e) then 1 else 0) <= Rank(s.workers[e].pc))
  {
    assert WorkerOk(s, e);
    match ev
    case Begin(x) =>
      if x == e {
        assert Next(s, ev).started[|s.started|].ticket == t;
      } else {
        OwnedAlone(s, ev, e);
      }
    case _ =>
      if !StepOf(ev, e) {
        OwnedAlone(s, ev, e);
      }
  }

  /** Only worker e itself touches an element that it owns. */
  lemma OwnedAlone(s: PoolState, ev: Event, e: Elem)
    requires Inv(s) && e < |s.workers| && s.workers[e].owner == Owned && Enabled(s, ev) && !StepOf(ev, e)
    ensures e < |Next(s, ev).workers| && Next(s, ev).workers[e] == s.workers[e]
  {
    match ev
    case Claim(d, i, job) => ClaimKeeps(s, d, i, job);
    case SetTask(d) => assert DispatcherOk(s, d);
    case SetData(d) => assert DispatcherOk(s, d);
    case Wake(d) => assert DispatcherOk(s, d);
    case RefillPublish(_, _) => assert RefillOk(s);
    case _ =>
  }

  lemma StartedStays(s: PoolState, ev: Event, t: nat)
    requires Enabled(s, ev) && Started(s, t)
    ensures Started(Next(s, ev), t)
  {
    var k :| 0 <= k < |s.started| && s.started[k].ticket == t;
    assert Next(s, ev).started[k].ticket == t;
  }

  lemma {:induction false} StartedForever(s: PoolState, evs: seq<Event>, t: nat)
    requires IsRun(s, evs) && Started(s, t)
    ensures Started(Run(s, evs), t)
    decreases |evs|
  {
    if evs != [] {
      StartedStays(s, evs[0], t);
      StartedForever(Next(s, evs[0]), evs[1..], t);
    }
  }

  lemma {:induction false} WokenRuns(s: PoolState, evs: seq<Event>, e: Elem, t: nat)
    requires Inv(s) && Woken(s, e, t) && IsRun(s, evs)
    requires StepsOf(evs, e) >= Rank(s.workers[e].pc)
    ensures Started(Run(s, evs), t)
    decreases |evs|
  {
    StepKeeps(s, evs[0]);
    WokenStep(s, evs[0], e, t);
    var s' := Next(s, evs[0]);
    if Started(s', t) {
      StartedForever(s', evs[1..], t);
    } else {
      WokenRuns(s', evs[1..], e, t);
    }
  }

  /** No lost wakeup: once a dispatcher has woken its element, the job is called in every run in which
      the worker gets four steps, however they interleave with everybody else's. */
  lemma NoLostWakeup(s: PoolState, d: nat, evs: seq<Event>)
    requires Reachable(s) && d in s.disp && s.disp[d].Installed? && s.disp[d].e < |s.workers|
    requires IsRun(Next(s, Wake(d)), evs) && StepsOf(evs, s.disp[d].e) >= 4
    ensures Started(Run(Next(s, Wake(d)), evs), s.disp[d].ticket)
  {
    ReachableInv(s);
    StepKeeps(s, Wake(d));
    WakeWakes(s, d);
    WokenRuns(Next(s, Wake(d)), evs, s.disp[d].e, s.disp[d].ticket);
  }

  // ---------------------------------------------------------------- exactly once, from end to end

  predicate DispatchOf(ev: Event, d: nat) { (ev.SetTask? || ev.SetData? || ev.Wake?) && ev.d == d }

  ghost function DispatchesOf(evs: seq<Event>, d: nat): nat {
    if evs == [] then 0 else (if DispatchOf(evs[0], d) then 1 else 0) + DispatchesOf(evs[1..], d)
  }

  /** How many steps of its own a dispatcher is away from having woken its element. */
  function ToGo(x: Dispatcher): nat {
    match x
    case Holding(_, _) => 3
    case HalfInstalled(_, _) => 2
    case Installed(_, _) => 1
  }

  predicate Dispatching(s: PoolState, d: nat, e: Elem, t: nat) {
    d in s.disp && s.disp[d].e == e && s.disp[d].ticket == t
  }

  lemma DispatchStep(s: PoolState, ev: Event, d: nat, e: Elem, t: nat)
    requires Inv(s) && Dispatching(s, d, e, t) && Enabled(s, ev)
    ensures var s' := Next(s, ev);
            || (DispatchOf(ev, d) && Woken(s', e, t))
            || (Dispatching(s', d, e, t) && ToGo(s'.disp[d]) + (if DispatchOf(ev, d) then 1 else 0) <= ToGo(s.disp[d]))
  {
    if ev == Wake(d) {
      WakeWakes(s, d);
    }
  }

  lemma {:induction false} DispatchRuns(s: PoolState, evs: seq<Event>, d: nat, e: Elem, t: nat)
    requires Inv(s) && Dispatching(s, d, e, t) && IsRun(s, evs) && DispatchesOf(evs, d) >= ToGo(s.disp[d])
    ensures Woken(Run(s, evs), e, t) || Started(Run(s, evs), t)
    decreases |evs|
  {
    StepKeeps(s, evs[0]);
    DispatchStep(s, evs[0], d, e, t);
    var s' := Next(s, evs[0]);
    if Woken(s', e, t) {
      WokenStays(s', evs[1..], e, t);
    } else {
      DispatchRuns(s', evs[1..], d, e, t);
    }
  }

  lemma {:induction false} WokenStays(s: PoolState, evs: seq<Event>, e: Elem, t: nat)
    requires Inv(s) && IsRun(s, evs) && Woken(s, e, t)
    ensures Woken(Run(s, evs), e, t) || Started(Run(s, evs), t)
    decreases |evs|
  {
    if evs != [] {
      StepKeeps(s, evs[0]);
      WokenStep(s, evs[0], e, t);
      if Started(Next(s, evs[0]), t) {
        StartedForever(Next(s, evs[0]), evs[1..], t);
      } else {
        WokenStays(Next(s, evs[0]), evs[1..], e, t);
      }
    }
  }

  lemma {:induction false} AcceptedGrows(s: PoolState, evs: seq<Event>)
    requires IsRun(s, evs)
    ensures s.accepted <= Run(s, evs).accepted
    decreases |evs|
  {
    if evs != [] {
      AcceptedGrows(Next(s, evs[0]), evs[1..]);
    }
  }

  /** Called exactly once: a job that is accepted, which it is exactly if the allocator has an element,
      is called once and with its own function and argument in every run in which its dispatcher takes
      its three steps and the worker then takes four, whatever all others do in between. */
  lemma CalledExactlyOnce(s: PoolState, d: nat, i: nat, job: Job, before: seq<Event>, after: seq<Event>)
    requires Reachable(s) && Enabled(s, Claim(d, i, job)) && AllocElem(s.alloc, i).1.Some?
    requires IsRun(Next(s, Claim(d, i, job)), before) && DispatchesOf(before, d) >= 3
    requires IsRun(Run(Next(s, Claim(d, i, job)), before), after) && StepsOf(after, AllocElem(s.alloc, i).1.value) >= 4
    ensures Next(s, Claim(d, i, job)).accepted == s.accepted + [job]
    ensures var s', t := Run(Run(Next(s, Claim(d, i, job)), before), after), |s.accepted|;
            exists k :: 0 <= k < |s'.started| && s'.started[k] == Start(t, job) &&
                        forall l :: 0 <= l < |s'.started| && s'.started[l].ticket == t ==> l == k
  {
    var t, e, s1 := |s.accepted|, AllocElem(s.alloc, i).1.value, Next(s, Claim(d, i, job));
    ReachableInv(s);
    ClaimKeeps(s, d, i, job);
    DispatchedIsCalled(s1, d, e, t, before, after);
    OneStart(Run(Run(s1, before), after), t, job);
  }

  lemma DispatchedIsCalled(s: PoolState, d: nat, e: Elem, t: nat, before: seq<Event>, after: seq<Event>)
    requires Inv(s) && Dispatching(s, d, e, t)
    requires IsRun(s, before) && DispatchesOf(before, d) >= 3
    requires IsRun(Run(s, before), after) && StepsOf(after, e) >= 4
    ensures var s' := Run(Run(s, before), after); Inv(s') && Started(s', t) && s.accepted <= s'.accepted
  {
    DispatchRuns(s, before, d, e, t);
    RunKeeps(s, before);
    var s1 := Run(s, before);
    if Started(s1, t) {
      StartedForever(s1, after, t);
    } else {
      WokenRuns(s1, after, e, t);
    }
    RunKeeps(s1, after);
    AcceptedGrows(s, before);
    AcceptedGrows(s1, after);
  }

  lemma OneStart(s: PoolState, t: nat, job: Job)
    requires Inv(s) && Started(s, t) && t < |s.accepted| && s.accepted[t] == job
    ensures exists k :: 0 <= k < |s.started| && s.started[k] == Start(t, job) &&
                        forall l :: 0 <= l < |s.started| && s.started[l].ticket == t ==> l == k
  {
    var k :| 0 <= k < |s.started| && s.started[k].ticket == t;
    assert s.started[k] == Start(t, job);
  }
}
