/**
 What holds over whole runs of the rendezvous (module Rendezvous): which accesses meet a freed QP, how
 the reference count, the tree and the releases go, and what is left in the end.
 */
module RendezvousLaws {
  import opened Rendezvous
  import opened RendezvousFrames
  import opened RendezvousSteps

  // ---------------------------------------------------------------- whole runs

  ghost predicate Init(s: State) {
    s == State(map[], map[], map[], 0, 0, map[], multiset{}, multiset{}, multiset{}, multiset{})
  }

  /** tr is what the events evs go through from its first state. */
  ghost predicate Follows(tr: seq<State>, evs: seq<Event>) {
    && |tr| == |evs| + 1
    && forall i {:trigger Leads(tr[i], evs[i], tr[i + 1])} :: 0 <= i < |evs| ==> Leads(tr[i], evs[i], tr[i + 1])
  }

  lemma StepAt(tr: seq<State>, evs: seq<Event>, i: nat)
    requires Follows(tr, evs) && i < |evs|
    ensures Leads(tr[i], evs[i], tr[i + 1])
  {
  }

  ghost predicate Leads(s: State, ev: Event, s': State) { Sound(s, ev) && Next(s, ev) == s' }

  /** A run from the start. */
  ghost predicate IsRun(tr: seq<State>, evs: seq<Event>) { Follows(tr, evs) && Init(tr[0]) }

  lemma {:induction false} RunKeeps(tr: seq<State>, evs: seq<Event>, n: nat)
    requires Follows(tr, evs) && Inv(tr[0]) && n < |tr|
    ensures Inv(tr[n])
  {
    if n > 0 {
      RunKeeps(tr, evs, n - 1);
      StepAt(tr, evs, n - 1);
      StepKeeps(tr[n - 1], evs[n - 1]);
    }
  }

  ghost predicate Ends(tr: seq<State>, evs: seq<Event>, s: State) { IsRun(tr, evs) && tr[|evs|] == s }

  ghost predicate Reachable(s: State) { exists tr, evs :: Ends(tr, evs, s) }

  lemma ReachableInv(s: State)
    requires Reachable(s)
    ensures Inv(s)
  {
    var tr, evs :| Ends(tr, evs, s);
    InitInv(tr[0]);
    RunKeeps(tr, evs, |evs|);
  }

  lemma InitInv(s: State)
    requires Init(s)
    ensures Inv(s)
  {
  }

  /** In a reachable state exactly one access is to a QP that has been freed: the unlocking at the end of
      the put_qp that dropped its last reference.  Every other step touches only QPs that are allocated,
      drops only references that are held, and erases only nodes that are linked. */
  lemma FreedTouchedIff(s: State, ev: Event)
    requires Reachable(s) && Enabled(s, ev)
    ensures Sound(s, ev)
    ensures (exists q :: q in Touched(s, ev) && s.freed[q] > 0) <==> ev.PutUnlock? && s.threads[ev.t].rc == 0
    ensures (exists q :: q in Touched(s, ev) && q !in s.qps) <==> ev.PutUnlock? && s.threads[ev.t].rc == 0
  {
    ReachableInv(s);
    EnabledIsSound(s, ev);
    forall q | q in Touched(s, ev) ensures s.freed[q] > 0 <==> q !in s.qps {
      assert LogOk(s, q);
      FreshQp(s);
      if ev.PutUnlock? {
        assert ThreadOk(s, ev.t);
      }
    }
    if ev.PutUnlock? {
      assert ThreadOk(s, ev.t);
      assert s.threads[ev.t].q in Touched(s, ev);
    }
  }

  /** That put_qp is the one that found the count at 1, and it has freed the QP already. */
  lemma LastPutFrees(s: State, t: Tid)
    requires Reachable(s) && Enabled(s, PutDrop(t))
    ensures Sound(s, PutDrop(t))
    ensures var q := s.threads[t].q; var s' := Next(s, PutDrop(t));
            && s'.threads[t].Unlocking? && s'.threads[t].q == q
            && (s'.threads[t].rc == 0 <==> s.qps[q].refCnt == 1)
            && (s'.threads[t].rc == 0 <==> q !in s'.qps)
            && (s'.threads[t].rc == 0 <==> forall u :: u in s.threads && u != t ==> s.threads[u].q != q)
  {
    ReachableInv(s);
    EnabledIsSound(s, PutDrop(t));
    var q, d := s.threads[t].q, s.threads[t].d;
    HoldsReference(s, t);
    DropForms(s, t, q, d);
    if s.qps[q].refCnt == 1 {
      forall u | u in s.threads && u != t ensures s.threads[u].q != q {
        LastIsAlone(s, t, q, u);
      }
    } else {
      var other := if d == TX then s.qps[q].l else s.qps[q].r;
      assert other.t in s.threads && other.t != t && s.threads[other.t].q == q;
    }
  }

  /** The thread holds a reference to q. */
  ghost predicate Holds(s: State, t: Tid, q: QpId) {
    t in s.threads && !s.threads[t].Connecting? && !s.threads[t].Unlocking? && s.threads[t].q == q
  }

  /** The reference count is the number of threads that hold a reference, and at most 2, one a side. */
  lemma CountInRange(s: State, q: QpId)
    requires Reachable(s) && q in s.qps
    ensures s.qps[q].refCnt <= 2
    ensures forall t, u :: Holds(s, t, q) && Holds(s, u, q) && t != u ==> s.qps[q].refCnt == 2 && s.threads[t].d != s.threads[u].d
    ensures forall t :: Holds(s, t, q) ==> s.qps[q].refCnt >= 1
    ensures s.qps[q].refCnt >= 1 ==> exists t :: Holds(s, t, q)
  {
    ReachableInv(s);
    assert QpOk(s, q);
    forall t | Holds(s, t, q) ensures Refs(s.qps[q].Of(s.threads[t].d)) && s.qps[q].Of(s.threads[t].d).t == t {
      assert ThreadOk(s, t);
    }
    if s.qps[q].refCnt >= 1 {
      var x := if Refs(s.qps[q].r) then s.qps[q].r else s.qps[q].l;
      assert Holds(s, x.t, q);
    }
  }

  /** A QP that was inserted is in the tree until both sides have arrived or its waiter gives up, and is
      erased exactly once. */
  lemma InTreeUntilMatched(s: State, q: QpId)
    requires Reachable(s) && s.entered[q] > 0
    ensures s.entered[q] == 1
    ensures Linked(s, q) <==> q in s.qps && !Matched(s.qps[q]) && !GivenUp(s.qps[q])
    ensures s.erased[q] == if Linked(s, q) then 0 else 1
  {
    ReachableInv(s);
    assert LogOk(s, q);
    if q in s.qps {
      assert QpOk(s, q);
    }
  }

  /** A QP is freed once or not at all; each socket published into it is released exactly once, when it
      is freed. */
  lemma ReleasedExactlyOnce(s: State, q: QpId, c: Sock)
    requires Reachable(s)
    ensures s.freed[q] == if q < s.nextQp && q !in s.qps then 1 else 0
    ensures s.released[c] == if c in s.installed && s.installed[c] !in s.qps then 1 else 0
  {
    ReachableInv(s);
    assert LogOk(s, q);
    if c in s.installed {
      assert SockOk(s, c);
    }
  }

  /** Relays run only on matched QPs; the two relays of a QP use the same two sockets, crossed, and
      neither is released while one of them runs. */
  lemma RelaysAreCrossed(s: State, t: Tid, u: Tid)
    requires Reachable(s) && t in s.threads && s.threads[t].Relaying?
    ensures var th := s.threads[t];
            && th.q in s.qps && Matched(s.qps[th.q]) && s.released[th.src] == 0 == s.released[th.dst] && th.src != th.dst
            && (u in s.threads && s.threads[u].Relaying? && s.threads[u].q == th.q && u != t ==>
                  s.threads[u].src == th.dst && s.threads[u].dst == th.src)
  {
    ReachableInv(s);
    assert ThreadOk(s, t);
    var q := s.threads[t].q;
    assert QpOk(s, q);
    assert SockOk(s, s.threads[t].src) && SockOk(s, s.threads[t].dst);
    if u in s.threads {
      assert ThreadOk(s, u);
    }
  }

  /** The relay that starts first, by the side that finds its peer waiting, starts at count 2. */
  lemma FirstRelayCount(s: State, ev: Event)
    requires Reachable(s) && Enabled(s, ev) && (ev.ConnectWorks? || ev.Accept?)
    ensures Sound(s, ev)
    ensures var s' := Next(s, ev);
            && ev.t in s'.threads && s'.threads[ev.t].q in s'.qps
            && s'.qps[s'.threads[ev.t].q].refCnt == if s'.threads[ev.t].Relaying? then 2 else 1
  {
    ReachableInv(s);
    EnabledIsSound(s, ev);
    if ev.ConnectWorks? {
      assert ThreadOk(s, ev.t);
      assert QpOk(s, s.threads[ev.t].q);
      ArrivalCount(s, s.threads[ev.t].q, TX, ev.t);
    } else if ev.key in s.tree {
      AcceptMergeKeeps(s);
      assert QpOk(AcceptMerge(s), s.tree[ev.key]);
      ArrivalCount(AcceptMerge(s), s.tree[ev.key], RX, ev.t);
    } else {
      AcceptNewForm(s, ev.t, ev.key);
    }
  }

  lemma ArrivalCount(s: State, q: QpId, d: Dir, t: Tid)
    requires Inv(s) && MayArrive(s, q, d, t)
    ensures var s' := WaitQpReady(Publish(s, q, d, s.nextSock), q, d, t);
            && t in s'.threads && s'.threads[t].q == q && q in s'.qps
            && s'.qps[q].refCnt == if s'.threads[t].Relaying? then 2 else 1
  {
    assert QpOk(s, q);
    if s.qps[q].Peer(d).Valid? {
      ArrivesSecond(s, q, d, t, s.nextSock);
    } else {
      ArrivesFirst(s, q, d, t, s.nextSock);
    }
  }

  /** The relay that starts second does not always start at count 2: at that moment the count is 2
      exactly if the other side has not dropped its reference yet, and 1 if it has. */
  lemma SecondRelayCount(s: State, t: Tid)
    requires Reachable(s) && Enabled(s, WaitDone(t))
    ensures s.threads[t].q in s.qps
    ensures var q := s.threads[t].q;
            && 1 <= s.qps[q].refCnt <= 2
            && (s.qps[q].refCnt == 2 <==> exists u :: Holds(s, u, q) && u != t && !s.threads[u].Waiting?)
  {
    ReachableInv(s);
    assert ThreadOk(s, t);
    var Waiting(d, q) := s.threads[t];
    var v := s.qps[q];
    assert QpOk(s, q);
    if v.refCnt == 2 {
      var other := if d == TX then v.l else v.r;
      assert Holds(s, other.t, q) && other.t != t && !s.threads[other.t].Waiting?;
    }
    forall u | Holds(s, u, q) && u != t && !s.threads[u].Waiting?
      ensures v.refCnt == 2
    {
      assert ThreadOk(s, u);
    }
  }

  lemma LeadsOn(s: State, ev: Event, s': State)
    requires Reachable(s) && Leads(s, ev, s')
    ensures Reachable(s')
  {
    var tr, evs :| Ends(tr, evs, s);
    var tr', evs' := tr + [s'], evs + [ev];
    var n := |evs|;
    assert tr'[n] == s && tr'[n + 1] == s' && evs'[n] == ev;
    forall i | 0 <= i <= n ensures Leads(tr'[i], evs'[i], tr'[i + 1]) {
      if i < n {
        StepAt(tr, evs, i);
        assert tr'[i] == tr[i] && tr'[i + 1] == tr[i + 1] && evs'[i] == evs[i];
      }
    }
    assert tr'[0] == tr[0];
    assert Ends(tr', evs', s');
  }

  /** When all threads are gone, what is left are QPs whose connect failed and for which nobody ever
      waited, still in the tree, and the QPs of duplicate SYNs, which are in no tree and never freed. */
  lemma Leftovers(s: State, q: QpId)
    requires Reachable(s) && s.threads == map[] && q in s.qps
    ensures s.qps[q].refCnt == 0 && s.qps[q].tx == Err && s.qps[q].rx == Null
    ensures if Linked(s, q) then s.qps[q].r == GaveUp else s.qps[q].r == Dropped && s.entered[q] == 0
    ensures forall c :: c in s.installed ==> s.released[c] == 1
  {
    ReachableInv(s);
    assert QpOk(s, q);
    forall p | p in s.qps ensures !s.qps[p].tx.Valid? && !s.qps[p].rx.Valid? {
      assert QpOk(s, p);
    }
    forall c | c in s.installed ensures s.released[c] == 1 {
      assert SockOk(s, c);
    }
  }

  /** Why the timeout must not fire during the connect: if it did, the put_qp of the waiter would free
      the QP that the connecting thread is about to write. */
  lemma TimeoutDuringConnectFrees(s: State, t: Tid, u: Tid, q: QpId)
    requires Reachable(s) && q in s.qps && s.qps[q].l == Waits(t) && s.qps[q].r == Trying(u)
    ensures s.qps[q].refCnt == 1
    ensures var s' := DoDrop(DoLock(DoTimeout(s, t, q, RX), t, q, RX), t, q, RX);
            u in s'.threads && s'.threads[u] == Connecting(q) && q !in s'.qps && s'.freed[q] == 1
  {
    ReachableInv(s);
    assert QpOk(s, q) && LogOk(s, q);
    DropForms(DoLock(DoTimeout(s, t, q, RX), t, q, RX), t, q, RX);
  }
}
