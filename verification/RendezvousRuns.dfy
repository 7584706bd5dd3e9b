/**
 Runs of the rendezvous (modules Rendezvous and RendezvousLaws) that meet the situations its theorems speak of: each of
 them happens, for every key.
 */
module RendezvousRuns {
  import opened Rendezvous
  import opened RendezvousFrames
  import opened RendezvousSteps
  import opened RendezvousLaws

  function Start(): State {
    State(map[], map[], map[], 0, 0, map[], multiset{}, multiset{}, multiset{}, multiset{})
  }

  lemma StartReachable()
    ensures Reachable(Start())
  {
    assert Ends([Start()], [], Start());
  }

  // ---------------------------------------------------------------- a late relay

  /** L waits; R finds its QP, connects, relays and leaves before L has run again. */
  function LateRun(key: Key, k: nat): State {
    match k
    case 0 => Start()
    case 1 =>
      State(map[0 := Qp(key, Null, Valid(0), 1, Open, Absent, Waits(0))], map[key := 0], map[0 := Waiting(RX, 0)],
            1, 1, map[0 := 0], multiset{}, multiset{}, multiset{0}, multiset{})
    case 2 =>
      State(map[0 := Qp(key, Err, Valid(0), 1, Open, Trying(1), Waits(0))], map[key := 0],
            map[0 := Waiting(RX, 0), 1 := Connecting(0)],
            2, 1, map[0 := 0], multiset{}, multiset{1}, multiset{0}, multiset{})
    case 3 =>
      State(map[0 := Qp(key, Valid(1), Valid(0), 2, Open, Relays(1), Waits(0))], map[],
            map[0 := Waiting(RX, 0), 1 := Relaying(TX, 0, 1, 0)],
            2, 2, map[0 := 0, 1 := 0], multiset{}, multiset{1}, multiset{0}, multiset{0})
    case 4 =>
      State(map[0 := Qp(key, Valid(1), Valid(0), 2, Open, Leaving(1), Waits(0))], map[],
            map[0 := Waiting(RX, 0), 1 := Putting(TX, 0)],
            2, 2, map[0 := 0, 1 := 0], multiset{}, multiset{1}, multiset{0}, multiset{0})
    case 5 =>
      State(map[0 := Qp(key, Valid(1), Valid(0), 2, By(1), Leaving(1), Waits(0))], map[],
            map[0 := Waiting(RX, 0), 1 := Locked(TX, 0)],
            2, 2, map[0 := 0, 1 := 0], multiset{}, multiset{1}, multiset{0}, multiset{0})
    case _ =>
      State(map[0 := Qp(key, Valid(1), Valid(0), 1, By(1), Left, Waits(0))], map[],
            map[0 := Waiting(RX, 0), 1 := Unlocking(TX, 0, 1)],
            2, 2, map[0 := 0, 1 := 0], multiset{}, multiset{1}, multiset{0}, multiset{0})
  }

  lemma FirstAccept(key: Key)
    ensures Leads(Start(), Accept(0, key), LateRun(key, 1))
  {
    AcceptNewForm(Start(), 0, key);
  }

  lemma LateSyn(key: Key)
    ensures Leads(LateRun(key, 1), Syn(1, key), LateRun(key, 2))
  {
  }

  lemma LateEnd(key: Key)
    ensures Leads(LateRun(key, 3), RelayEnds(1), LateRun(key, 4))
  {
    assert CallPut(LateRun(key, 3), 1, 0, TX) == LateRun(key, 4);
  }

  lemma LateLock(key: Key)
    ensures Leads(LateRun(key, 4), PutLock(1), LateRun(key, 5))
  {
    assert DoLock(LateRun(key, 4), 1, 0, TX) == LateRun(key, 5);
  }

  lemma LateDrop(key: Key)
    ensures Leads(LateRun(key, 5), PutDrop(1), LateRun(key, 6))
  {
    var s := LateRun(key, 5);
    assert s.threads[1] == Locked(TX, 0) && s.qps[0].refCnt == 2;
    DropForms(s, 1, 0, TX);
    LateDropped(key);
  }

  lemma LateDropped(key: Key)
    ensures DropFirst(LateRun(key, 5), 1, 0, TX) == LateRun(key, 6)
  {
  }

  lemma LateArrival(key: Key)
    ensures Leads(LateRun(key, 2), ConnectWorks(1), LateRun(key, 3))
  {
    var s := LateRun(key, 2);
    ArrivesSecond(s, 0, TX, 1, 1);
    assert Next(s, ConnectWorks(1)) == ArriveSecond(s, 0, TX, 1, 1);
  }

  lemma LateReachable2(key: Key)
    ensures Reachable(LateRun(key, 1)) && Reachable(LateRun(key, 2))
  {
    StartReachable();
    FirstAccept(key);
    LeadsOn(Start(), Accept(0, key), LateRun(key, 1));
    LateSyn(key);
    LeadsOn(LateRun(key, 1), Syn(1, key), LateRun(key, 2));
  }

  lemma LateReachable4(key: Key)
    ensures Reachable(LateRun(key, 4))
  {
    LateReachable2(key);
    LateArrival(key);
    LeadsOn(LateRun(key, 2), ConnectWorks(1), LateRun(key, 3));
    LateEnd(key);
    LeadsOn(LateRun(key, 3), RelayEnds(1), LateRun(key, 4));
  }

  lemma LateReachable6(key: Key)
    ensures Reachable(LateRun(key, 6))
  {
    LateReachable4(key);
    LateLock(key);
    LeadsOn(LateRun(key, 4), PutLock(1), LateRun(key, 5));
    LateDrop(key);
    LeadsOn(LateRun(key, 5), PutDrop(1), LateRun(key, 6));
  }

  /** In this reachable state L's relay is about to start at count 1. */
  lemma LateRelayStartsAtOne(key: Key)
    ensures Reachable(LateRun(key, 6)) && Enabled(LateRun(key, 6), WaitDone(0))
    ensures LateRun(key, 6).qps[0].refCnt == 1
  {
    LateReachable6(key);
  }

  /** In this one a waiter's timeout would meet the connect of its peer. */
  lemma TimeoutMeetsConnect(key: Key)
    ensures var s := LateRun(key, 2);
            Reachable(s) && s.qps[0].l == Waits(0) && s.qps[0].r == Trying(1)
    ensures var s := LateRun(key, 2);
            var s' := DoDrop(DoLock(DoTimeout(s, 0, 0, RX), 0, 0, RX), 0, 0, RX);
            s'.threads[1] == Connecting(0) && 0 !in s'.qps
  {
    LateReachable2(key);
    TimeoutDuringConnectFrees(LateRun(key, 2), 0, 1, 0);
  }

  // ---------------------------------------------------------------- the last put

  /** L waits, times out, and drops its reference, the last one. */
  function LastRun(key: Key, k: nat): State {
    match k
    case 1 => LateRun(key, 1)
    case 2 =>
      State(map[0 := Qp(key, Null, Valid(0), 1, Open, Absent, Leaving(0))], map[], map[0 := Putting(RX, 0)],
            1, 1, map[0 := 0], multiset{}, multiset{}, multiset{0}, multiset{0})
    case 3 =>
      State(map[0 := Qp(key, Null, Valid(0), 1, By(0), Absent, Leaving(0))], map[], map[0 := Locked(RX, 0)],
            1, 1, map[0 := 0], multiset{}, multiset{}, multiset{0}, multiset{0})
    case _ =>
      State(map[], map[], map[0 := Unlocking(RX, 0, 0)],
            1, 1, map[0 := 0], multiset{0}, multiset{0}, multiset{0}, multiset{0})
  }

  lemma LastTimeout(key: Key)
    ensures Leads(LastRun(key, 1), Timeout(0), LastRun(key, 2))
  {
    assert DoTimeout(LastRun(key, 1), 0, 0, RX) == LastRun(key, 2);
  }

  lemma LastLock(key: Key)
    ensures Leads(LastRun(key, 2), PutLock(0), LastRun(key, 3))
  {
  }

  lemma LastDrop(key: Key)
    ensures Leads(LastRun(key, 3), PutDrop(0), LastRun(key, 4))
  {
    var s := LastRun(key, 3);
    assert s.threads[0] == Locked(RX, 0) && s.qps[0].refCnt == 1;
    DropForms(s, 0, 0, RX);
    LastDropped(key);
  }

  lemma LastDropped(key: Key)
    ensures DropLast(LastRun(key, 3), 0, 0, RX) == LastRun(key, 4)
  {
  }

  lemma LastReachable2(key: Key)
    ensures Reachable(LastRun(key, 2))
  {
    LateReachable2(key);
    LastTimeout(key);
    LeadsOn(LateRun(key, 1), Timeout(0), LastRun(key, 2));
  }

  lemma LastReachable4(key: Key)
    ensures Reachable(LastRun(key, 4))
  {
    LastReachable2(key);
    LastLock(key);
    LeadsOn(LastRun(key, 2), PutLock(0), LastRun(key, 3));
    LastDrop(key);
    LeadsOn(LastRun(key, 3), PutDrop(0), LastRun(key, 4));
  }

  /** The unlocking that follows is an access to a QP that has been freed. */
  lemma LastPutUnlocksFreed(key: Key)
    ensures var s := LastRun(key, 4);
            && Reachable(s) && Enabled(s, PutUnlock(0))
            && 0 in Touched(s, PutUnlock(0)) && 0 !in s.qps && s.freed[0] == 1
  {
    LastReachable4(key);
  }

  /** A walk over the trees that does not take their locks, as trace_connections in the timeout path of
      another CPU makes it, can get to a QP while it is linked and read it after it was freed. */
  lemma TraceWalkMeetsFreed(key: Key)
    ensures Reachable(LastRun(key, 1)) && Linked(LastRun(key, 1), 0) && 0 !in LastRun(key, 4).qps
    ensures Follows([LastRun(key, 1), LastRun(key, 2), LastRun(key, 3), LastRun(key, 4)], [Timeout(0), PutLock(0), PutDrop(0)])
  {
    LateReachable2(key);
    LastTimeout(key);
    LastLock(key);
    LastDrop(key);
  }

  // ---------------------------------------------------------------- what is left over

  /** Two SYNs for one key, and a connect that fails. */
  function LeftRun(key: Key, k: nat): State {
    match k
    case 0 => Start()
    case 1 =>
      State(map[0 := Qp(key, Err, Null, 0, Open, Trying(0), Absent)], map[key := 0], map[0 := Connecting(0)],
            1, 0, map[], multiset{}, multiset{}, multiset{0}, multiset{})
    case 2 =>
      State(map[0 := Qp(key, Err, Null, 0, Open, Trying(0), Absent), 1 := Qp(key, Err, Null, 0, Open, Dropped, Absent)],
            map[key := 0], map[0 := Connecting(0)],
            2, 0, map[], multiset{}, multiset{}, multiset{0}, multiset{})
    case _ =>
      State(map[0 := Qp(key, Err, Null, 0, Open, GaveUp, Absent), 1 := Qp(key, Err, Null, 0, Open, Dropped, Absent)],
            map[key := 0], map[],
            2, 0, map[], multiset{}, multiset{}, multiset{0}, multiset{})
  }

  lemma LeftFirst(key: Key)
    ensures Leads(LeftRun(key, 0), Syn(0, key), LeftRun(key, 1))
  {
  }

  lemma LeftSecond(key: Key)
    ensures Leads(LeftRun(key, 1), Syn(1, key), LeftRun(key, 2))
  {
  }

  lemma LeftFails(key: Key)
    ensures Leads(LeftRun(key, 2), ConnectFails(0), LeftRun(key, 3))
  {
  }

  lemma LeftReachable3(key: Key)
    ensures Reachable(LeftRun(key, 3))
  {
    StartReachable();
    LeftFirst(key);
    LeadsOn(Start(), Syn(0, key), LeftRun(key, 1));
    LeftSecond(key);
    LeadsOn(LeftRun(key, 1), Syn(1, key), LeftRun(key, 2));
    LeftFails(key);
    LeadsOn(LeftRun(key, 2), ConnectFails(0), LeftRun(key, 3));
  }

  /** Both kinds of leftovers happen: no thread is left, QP 0 is in the tree for good, QP 1 in no tree. */
  lemma LeftoversHappen(key: Key)
    ensures var s := LeftRun(key, 3);
            && Reachable(s) && s.threads == map[] && s.qps.Keys == {0, 1}
            && Linked(s, 0) && s.qps[0].r == GaveUp && !Linked(s, 1) && s.qps[1].r == Dropped && s.entered[1] == 0
  {
    LeftReachable3(key);
  }
}
