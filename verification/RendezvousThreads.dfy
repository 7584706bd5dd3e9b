/**
 The life of a thread of the rendezvous (module Rendezvous): it goes through its phases in one direction,
 and no state is a deadlock.
 */
module RendezvousThreads {
  import opened Rendezvous
  import opened RendezvousFrames
  import opened RendezvousSteps
  import opened RendezvousLaws
  import opened RendezvousLifetimes
  import opened RendezvousProtocol

  // ---------------------------------------------------------------- the life of a thread

  datatype Phase = Gone | InUnlock | InDrop | InPut | InRelay | InWait | InConnect

  ghost function PhaseOf(s: State, t: Tid): Phase {
    if t in s.threads then PhaseIn(s.threads[t]) else Gone
  }

  function PhaseIn(th: Thread): Phase {
    match th
    case Connecting(_) => InConnect
    case Waiting(_, _) => InWait
    case Relaying(_, _, _, _) => InRelay
    case Putting(_, _) => InPut
    case Locked(_, _) => InDrop
    case Unlocking(_, _, _) => InUnlock
  }

  function Rank(p: Phase): nat {
    match p
    case Gone => 0
    case InUnlock => 1
    case InDrop => 2
    case InPut => 3
    case InRelay => 4
    case InWait => 5
    case InConnect => 6
  }

  /** Where a step takes its thread. */
  ghost function PhaseAfter(s: State, ev: Event): Phase
    requires Enabled(s, ev)
  {
    match ev
    case Syn(_, _) => if Duplicate(s, ev) then Gone else InConnect
    case ConnectFails(_) => Gone
    case ConnectWorks(_) => if PeerArrived(s, ev) then InRelay else InWait
    case Accept(_, _) => if PeerArrived(s, ev) then InRelay else InWait
    case Timeout(_) => InPut
    case WaitDone(_) => InRelay
    case RelayEnds(_) => InPut
    case PutLock(_) => InDrop
    case PutDrop(_) => InUnlock
    case PutUnlock(_) => Gone
  }

  /** The other side of the QP that the step works on has come. */
  ghost predicate PeerArrived(s: State, ev: Event)
    requires Enabled(s, ev)
  {
    var q := Target(s, ev);
    q in s.qps && Arrived(s.qps[q].Of(Other(SideOf(s, ev))))
  }

  ghost predicate ThreadMoved(s: State, ev: Event, s': State)
    requires Enabled(s, ev)
  {
    && (forall u :: u != ev.t ==> (u in s'.threads <==> u in s.threads))
    && (forall u :: u != ev.t && u in s.threads ==> s'.threads[u] == s.threads[u])
    && PhaseOf(s', ev.t) == PhaseAfter(s, ev)
    && (ev.t in s'.threads ==> s'.threads[ev.t].q == Target(s, ev))
    && (ev.t in s'.threads && !s'.threads[ev.t].Connecting? ==> s'.threads[ev.t].d == SideOf(s, ev))
  }

  lemma ThreadSet(s: State, ev: Event, s': State, th: Thread)
    requires Enabled(s, ev) && s'.threads == s.threads[ev.t := th] && th.q == Target(s, ev)
    requires PhaseIn(th) == PhaseAfter(s, ev) && (th.Connecting? || th.d == SideOf(s, ev))
    ensures ThreadMoved(s, ev, s')
  {
  }

  lemma ThreadEnded(s: State, ev: Event, s': State)
    requires Enabled(s, ev) && s'.threads == s.threads - {ev.t} && PhaseAfter(s, ev) == Gone
    ensures ThreadMoved(s, ev, s')
  {
  }

  lemma ArrivalThread(s: State, q: QpId, d: Dir, t: Tid)
    requires Inv(s) && MayArrive(s, q, d, t)
    ensures var v, s' := s.qps[q], WaitQpReady(Publish(s, q, d, s.nextSock), q, d, t);
            && (Arrived(v.Of(Other(d))) <==> v.Peer(d).Valid?)
            && s'.threads == s.threads[t := if v.Peer(d).Valid? then Relaying(d, q, s.nextSock, v.Peer(d).sock) else Waiting(d, q)]
  {
    assert QpOk(s, q);
    if s.qps[q].Peer(d).Valid? {
      ArrivesSecond(s, q, d, t, s.nextSock);
    } else {
      ArrivesFirst(s, q, d, t, s.nextSock);
    }
  }

  lemma AcceptMergeThread(s: State, t: Tid, key: Key)
    requires Inv(s) && Enabled(s, Accept(t, key)) && Sound(s, Accept(t, key)) && key in s.tree
    ensures ThreadMoved(s, Accept(t, key), Next(s, Accept(t, key)))
  {
    AcceptMergeKeeps(s);
    assert QpOk(AcceptMerge(s), s.tree[key]);
    ArrivalThread(AcceptMerge(s), s.tree[key], RX, t);
    var s' := Next(s, Accept(t, key));
    ThreadSet(s, Accept(t, key), s', s'.threads[t]);
  }

  lemma AcceptNewThread(s: State, t: Tid, key: Key)
    requires Inv(s) && Enabled(s, Accept(t, key)) && Sound(s, Accept(t, key)) && key !in s.tree
    ensures ThreadMoved(s, Accept(t, key), Next(s, Accept(t, key)))
  {
    FreshQp(s);
    AcceptNewForm(s, t, key);
    ThreadSet(s, Accept(t, key), Next(s, Accept(t, key)), Waiting(RX, s.nextQp));
  }

  lemma ConnectThread(s: State, t: Tid)
    requires Inv(s) && Enabled(s, ConnectWorks(t)) && Sound(s, ConnectWorks(t))
    ensures ThreadMoved(s, ConnectWorks(t), Next(s, ConnectWorks(t)))
  {
    assert ThreadOk(s, t) && QpOk(s, s.threads[t].q);
    ArrivalThread(s, s.threads[t].q, TX, t);
    var s' := Next(s, ConnectWorks(t));
    ThreadSet(s, ConnectWorks(t), s', s'.threads[t]);
  }

  lemma DropForm(s: State, t: Tid)
    requires Inv(s) && Enabled(s, PutDrop(t)) && Sound(s, PutDrop(t))
    ensures var th := s.threads[t];
            Next(s, PutDrop(t)).threads == s.threads[t := Unlocking(th.d, th.q, s.qps[th.q].refCnt - 1)]
  {
    HoldsReference(s, t);
    DropForms(s, t, s.threads[t].q, s.threads[t].d);
  }

  lemma DropThread(s: State, t: Tid)
    requires Inv(s) && Enabled(s, PutDrop(t)) && Sound(s, PutDrop(t))
    ensures ThreadMoved(s, PutDrop(t), Next(s, PutDrop(t)))
  {
    DropForm(s, t);
    var th := s.threads[t];
    ThreadSet(s, PutDrop(t), Next(s, PutDrop(t)), Unlocking(th.d, th.q, s.qps[th.q].refCnt - 1));
  }

  lemma SynThread(s: State, t: Tid, key: Key)
    requires Inv(s) && Enabled(s, Syn(t, key)) && Sound(s, Syn(t, key))
    ensures ThreadMoved(s, Syn(t, key), Next(s, Syn(t, key)))
  {
    var s' := Next(s, Syn(t, key));
    if Duplicate(s, Syn(t, key)) {
      assert s.threads - {t} == s.threads;
      ThreadEnded(s, Syn(t, key), s');
    } else {
      ThreadSet(s, Syn(t, key), s', s'.threads[t]);
    }
  }

  lemma EndThread(s: State, ev: Event)
    requires Inv(s) && Enabled(s, ev) && Sound(s, ev) && (ev.ConnectFails? || ev.PutUnlock?)
    ensures ThreadMoved(s, ev, Next(s, ev))
  {
    ThreadEnded(s, ev, Next(s, ev));
  }

  lemma OwnThread(s: State, ev: Event)
    requires Inv(s) && Enabled(s, ev) && Sound(s, ev) && (ev.Timeout? || ev.WaitDone? || ev.RelayEnds? || ev.PutLock?)
    ensures ThreadMoved(s, ev, Next(s, ev))
  {
    var s' := Next(s, ev);
    ThreadSet(s, ev, s', s'.threads[ev.t]);
  }

  /** Every step takes its own thread to the next phase of its life, at the same QP and on the same side, and
      leaves all other threads where they are. */
  lemma StepMovesThread(s: State, ev: Event)
    requires Reachable(s) && Enabled(s, ev)
    ensures Sound(s, ev) && ThreadMoved(s, ev, Next(s, ev))
  {
    ReachableInv(s);
    EnabledIsSound(s, ev);
    match ev
    case Accept(t, key) => if key in s.tree { AcceptMergeThread(s, t, key); } else { AcceptNewThread(s, t, key); }
    case ConnectWorks(t) => ConnectThread(s, t);
    case PutDrop(t) => DropThread(s, t);
    case Syn(t, key) => SynThread(s, t, key);
    case ConnectFails(_) => EndThread(s, ev);
    case PutUnlock(_) => EndThread(s, ev);
    case _ => OwnThread(s, ev);
  }

  lemma PhaseFalls(s: State, ev: Event)
    requires Enabled(s, ev) && ev.t in s.threads
    ensures Rank(PhaseAfter(s, ev)) < Rank(PhaseOf(s, ev.t)) <= 6
  {
  }

  /** Once started, a thread takes at most six steps. */
  lemma StepLowersRank(s: State, ev: Event)
    requires Reachable(s) && Enabled(s, ev) && ev.t in s.threads
    ensures Sound(s, ev) && Rank(PhaseOf(Next(s, ev), ev.t)) < Rank(PhaseOf(s, ev.t)) <= 6
    ensures forall u :: u != ev.t ==> PhaseOf(Next(s, ev), u) == PhaseOf(s, u)
  {
    StepMovesThread(s, ev);
    PhaseFalls(s, ev);
  }

  /** What each side of a reachable state may do next: a waiter goes on exactly when the other side has come,
      and may time out exactly when it has not come and is not connecting; a client is accepted exactly where
      none is; the lock of a QP is there for whoever comes when no other thread is in its put. */
  lemma EnabledIff(s: State, ev: Event)
    requires Reachable(s)
    ensures match ev
            case Syn(t, _) => Enabled(s, ev) <==> PhaseOf(s, t) == Gone
            case Accept(t, key) => Enabled(s, ev) <==> PhaseOf(s, t) == Gone && (key in s.tree ==> s.tree[key] in s.qps && s.qps[s.tree[key]].l == Absent)
            case ConnectFails(t) => Enabled(s, ev) <==> PhaseOf(s, t) == InConnect
            case ConnectWorks(t) => Enabled(s, ev) <==> PhaseOf(s, t) == InConnect
            case WaitDone(t) => Enabled(s, ev) <==> PhaseOf(s, t) == InWait && Arrived(PeerSide(s, t))
            case Timeout(t) => Enabled(s, ev) <==> PhaseOf(s, t) == InWait && !Arrived(PeerSide(s, t)) && !PeerSide(s, t).Trying?
            case RelayEnds(t) => Enabled(s, ev) <==> PhaseOf(s, t) == InRelay
            case PutLock(t) => Enabled(s, ev) <==> PhaseOf(s, t) == InPut && forall u :: u != t && PhaseOf(s, u) in {InDrop, InUnlock} ==> s.threads[u].q != s.threads[t].q
            case PutDrop(t) => Enabled(s, ev) <==> PhaseOf(s, t) == InDrop
            case PutUnlock(t) => Enabled(s, ev) <==> PhaseOf(s, t) == InUnlock
  {
    ReachableInv(s);
    match ev
    case Accept(t, key) =>
      if key in s.tree {
        assert QpOk(s, s.tree[key]);
      }
    case WaitDone(t) => WaiterSees(s, t);
    case Timeout(t) => WaiterSees(s, t);
    case PutLock(t) => LockIsFree(s, t);
    case _ =>
  }

  /** How far the other side of the QP of thread t has come. */
  ghost function PeerSide(s: State, t: Tid): Side {
    if t in s.threads && s.threads[t].Waiting? && s.threads[t].q in s.qps then s.qps[s.threads[t].q].Of(Other(s.threads[t].d)) else Absent
  }

  lemma WaiterSees(s: State, t: Tid)
    requires Inv(s)
    ensures Enabled(s, WaitDone(t)) <==> PhaseOf(s, t) == InWait && Arrived(PeerSide(s, t))
    ensures Enabled(s, Timeout(t)) <==> PhaseOf(s, t) == InWait && !Arrived(PeerSide(s, t)) && !PeerSide(s, t).Trying?
  {
    if t in s.threads && s.threads[t].Waiting? {
      assert ThreadOk(s, t);
      var q := s.threads[t].q;
      assert QpOk(s, q);
      forall u | u in s.threads && s.threads[u] == Connecting(q) ensures s.qps[q].r == Trying(u) {
        assert ThreadOk(s, u);
      }
    }
  }

  lemma LockIsFree(s: State, t: Tid)
    requires Inv(s)
    ensures Enabled(s, PutLock(t)) <==>
              PhaseOf(s, t) == InPut && forall u :: u != t && PhaseOf(s, u) in {InDrop, InUnlock} ==> s.threads[u].q != s.threads[t].q
  {
    if t in s.threads && s.threads[t].Putting? {
      assert ThreadOk(s, t);
      var q := s.threads[t].q;
      assert QpOk(s, q);
      forall u | u in s.threads && PhaseOf(s, u) in {InDrop, InUnlock} && s.threads[u].q == q ensures s.qps[q].lock == By(u) {
        assert ThreadOk(s, u);
      }
      if s.qps[q].lock.By? {
        var u := s.qps[q].lock.t;
        assert u != t && PhaseOf(s, u) in {InDrop, InUnlock} && s.threads[u].q == q;
      }
    }
  }

  /** No deadlock: while there are threads, one of them can go on. */
  lemma NoDeadlock(s: State)
    requires Reachable(s) && s.threads != map[]
    ensures exists ev :: Enabled(s, ev) && ev.t in s.threads
  {
    ReachableInv(s);
    var t :| t in s.threads;
    assert ThreadOk(s, t);
    var q := s.threads[t].q;
    match s.threads[t]
    case Connecting(_) => assert Enabled(s, ConnectFails(t));
    case Relaying(_, _, _, _) => assert Enabled(s, RelayEnds(t));
    case Locked(_, _) => assert Enabled(s, PutDrop(t));
    case Unlocking(_, _, _) => assert Enabled(s, PutUnlock(t));
    case Putting(_, _) => PutGoesOn(s, t);
    case Waiting(d, _) =>
      if s.qps[q].Peer(d).Valid? {
        assert Enabled(s, WaitDone(t));
      } else if u :| u in s.threads && s.threads[u] == Connecting(q) {
        assert Enabled(s, ConnectFails(u));
      } else {
        assert Enabled(s, Timeout(t));
      }
  }

  lemma PutGoesOn(s: State, t: Tid)
    requires Inv(s) && t in s.threads && s.threads[t].Putting?
    ensures exists ev :: Enabled(s, ev) && ev.t in s.threads
  {
    assert ThreadOk(s, t);
    var q := s.threads[t].q;
    assert QpOk(s, q);
    if s.qps[q].lock == Open {
      assert Enabled(s, PutLock(t));
    } else {
      var u := s.qps[q].lock.t;
      assert if s.threads[u].Locked? then Enabled(s, PutDrop(u)) else Enabled(s, PutUnlock(u));
    }
  }

  /** A client that waits at a QP whose connect has failed leaves by its timeout, which is possible, and in
      no other way. */
  lemma FailedClientTimesOut(s: State, q: QpId, u: Tid, ev: Event)
    requires Reachable(s) && q in s.qps && s.qps[q].r == GaveUp && s.qps[q].l == Waits(u) && Enabled(s, ev)
    ensures Enabled(s, Timeout(u)) && Sound(s, ev)
    ensures var s' := Next(s, ev);
            && u in s'.threads
            && if ev == Timeout(u) then PhaseOf(s', u) == InPut && !Linked(s', q)
               else s'.threads[u] == s.threads[u] == Waiting(RX, q)
  {
    ReachableInv(s);
    assert QpOk(s, q);
    forall x | x in s.threads ensures s.threads[x] != Connecting(q) {
      assert ThreadOk(s, x);
    }
    StepMovesThread(s, ev);
  }
}
