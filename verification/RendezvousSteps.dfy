/**
 Every step of the rendezvous (module Rendezvous) keeps its invariant.
 */
module RendezvousSteps {
  import opened Rendezvous
  import opened RendezvousFrames

  /** The side d of q arrives first: it takes the first reference and waits. */
  function ArriveFirst(s: State, q: QpId, d: Dir, t: Tid, c: Sock): State
    requires q in s.qps
  {
    var v := s.qps[q].With(d, Waits(t)).(refCnt := 1);
    SetQp(s, q, if d == TX then v.(tx := Valid(c)) else v.(rx := Valid(c)))
      .(threads := s.threads[t := Waiting(d, q)], nextSock := c + 1, installed := s.installed[c := q])
  }

  /** The side d of q arrives second: it takes the second reference, unlinks q and relays. */
  function ArriveSecond(s: State, q: QpId, d: Dir, t: Tid, c: Sock): State
    requires q in s.qps && s.qps[q].Peer(d).Valid?
  {
    var v := s.qps[q].With(d, Relays(t)).(refCnt := 2);
    SetQp(s, q, if d == TX then v.(tx := Valid(c)) else v.(rx := Valid(c)))
      .(threads := s.threads[t := Relaying(d, q, c, v.Peer(d).sock)], nextSock := c + 1, installed := s.installed[c := q],
        tree := s.tree - {s.qps[q].key}, erased := s.erased + multiset{q})
  }

  /** get_qp in wait_qp_ready takes the first reference of a side that comes first ... */
  lemma ArrivesFirst(s: State, q: QpId, d: Dir, t: Tid, c: Sock)
    requires q in s.qps && s.qps[q].refCnt == 0 && !s.qps[q].Peer(d).Valid?
    ensures WaitQpReady(Publish(s, q, d, c), q, d, t) == ArriveFirst(s, q, d, t, c)
  {
    var s' := WaitQpReady(Publish(s, q, d, c), q, d, t);
    var v := ArriveFirst(s, q, d, t, c).qps[q];
    if d == TX {
      assert s'.qps[q] == v;
    } else {
      assert s'.qps[q] == v;
    }
    assert s'.qps == s.qps[q := v];
  }

  /** ... and the second reference of a side that finds its peer. */
  lemma ArrivesSecond(s: State, q: QpId, d: Dir, t: Tid, c: Sock)
    requires q in s.qps && s.qps[q].refCnt == 1 && s.qps[q].Peer(d).Valid?
    ensures WaitQpReady(Publish(s, q, d, c), q, d, t) == ArriveSecond(s, q, d, t, c)
  {
    var s' := WaitQpReady(Publish(s, q, d, c), q, d, t);
    var v := ArriveSecond(s, q, d, t, c).qps[q];
    if d == TX {
      assert s'.qps[q] == v;
    } else {
      assert s'.qps[q] == v;
    }
    assert s'.qps == s.qps[q := v];
  }

  /** The side is free to arrive: R by the thread that connects for it, L by a new thread. */
  ghost predicate MayArrive(s: State, q: QpId, d: Dir, t: Tid) {
    && q in s.qps && InTree(s, q)
    && if d == TX then t in s.threads && s.threads[t] == Connecting(q) && s.qps[q].r == Trying(t)
       else t !in s.threads && s.qps[q].l == Absent
  }

  lemma ArriveFirstFrame(s: State, q: QpId, d: Dir, t: Tid)
    requires Inv(s) && MayArrive(s, q, d, t)
    ensures OnlyAt(s, ArriveFirst(s, q, d, t, s.nextSock), q, t)
  {
    FreshQp(s);
  }

  lemma ArriveSecondFrame(s: State, q: QpId, d: Dir, t: Tid)
    requires Inv(s) && MayArrive(s, q, d, t) && s.qps[q].Peer(d).Valid?
    ensures OnlyAt(s, ArriveSecond(s, q, d, t, s.nextSock), q, t)
  {
    FreshQp(s);
  }

  lemma ArriveFirstQp(s: State, q: QpId, d: Dir, t: Tid)
    requires Inv(s) && MayArrive(s, q, d, t) && !s.qps[q].Peer(d).Valid?
    ensures QpOk(ArriveFirst(s, q, d, t, s.nextSock), q)
  {
    FreshQp(s);
    assert QpOk(s, q);
  }

  lemma ArriveFirstLocal(s: State, q: QpId, d: Dir, t: Tid)
    requires Inv(s) && MayArrive(s, q, d, t) && !s.qps[q].Peer(d).Valid?
    ensures LocalOk(ArriveFirst(s, q, d, t, s.nextSock), q, t)
  {
    FreshQp(s);
    AroundQp(s, q);
    ArriveFirstQp(s, q, d, t);
  }

  lemma ArriveFirstKeeps(s: State, q: QpId, d: Dir, t: Tid)
    requires Inv(s) && MayArrive(s, q, d, t) && !s.qps[q].Peer(d).Valid?
    ensures Inv(ArriveFirst(s, q, d, t, s.nextSock))
  {
    ArriveFirstFrame(s, q, d, t);
    ArriveFirstLocal(s, q, d, t);
    Assemble(s, ArriveFirst(s, q, d, t, s.nextSock), q, t);
  }

  lemma ArriveSecondQp(s: State, q: QpId, d: Dir, t: Tid)
    requires Inv(s) && MayArrive(s, q, d, t) && s.qps[q].Peer(d).Valid?
    ensures QpOk(ArriveSecond(s, q, d, t, s.nextSock), q)
  {
    FreshQp(s);
    assert QpOk(s, q);
  }

  lemma ArriveSecondLocal(s: State, q: QpId, d: Dir, t: Tid)
    requires Inv(s) && MayArrive(s, q, d, t) && s.qps[q].Peer(d).Valid?
    ensures LocalOk(ArriveSecond(s, q, d, t, s.nextSock), q, t)
  {
    FreshQp(s);
    AroundQp(s, q);
    ArriveSecondQp(s, q, d, t);
  }

  lemma ArriveSecondKeeps(s: State, q: QpId, d: Dir, t: Tid)
    requires Inv(s) && MayArrive(s, q, d, t) && s.qps[q].Peer(d).Valid?
    ensures Inv(ArriveSecond(s, q, d, t, s.nextSock))
  {
    ArriveSecondFrame(s, q, d, t);
    ArriveSecondLocal(s, q, d, t);
    Assemble(s, ArriveSecond(s, q, d, t, s.nextSock), q, t);
  }

  /** What a thread and its QP look like while it holds a reference. */
  lemma HoldsReference(s: State, t: Tid)
    requires Inv(s) && t in s.threads && !s.threads[t].Connecting? && !s.threads[t].Unlocking?
    ensures var th := s.threads[t];
            && th.q in s.qps && s.qps[th.q].refCnt > 0
            && s.qps[th.q].Of(th.d) == (if th.Waiting? then Waits(t) else if th.Relaying? then Relays(t) else Leaving(t))
            && s.qps[th.q].Get(th.d).Valid?
            && QpOk(s, th.q)
  {
    assert ThreadOk(s, t);
    assert QpOk(s, s.threads[t].q);
  }

  // a relay ends

  lemma RelayEndsLocal(s: State, t: Tid, q: QpId, d: Dir)
    requires Inv(s) && t in s.threads && s.threads[t].Relaying? && s.threads[t].q == q && s.threads[t].d == d && q in s.qps
    ensures Update(s, CallPut(s, t, q, d), q, t) && QpOk(CallPut(s, t, q, d), q) && ThreadOk(CallPut(s, t, q, d), t)
  {
    HoldsReference(s, t);
    assert ThreadOk(s, t);
  }

  lemma RelayEndsKeeps(s: State, t: Tid)
    requires Inv(s) && Sound(s, RelayEnds(t))
    ensures Inv(Next(s, RelayEnds(t)))
  {
    var q, d := s.threads[t].q, s.threads[t].d;
    RelayEndsLocal(s, t, q, d);
    UpdateKeeps(s, CallPut(s, t, q, d), q, t);
  }

  // a waiter gives up

  /** The waiter that times out held the only reference, and its QP is linked. */
  function GaveUpOn(s: State, t: Tid, q: QpId, d: Dir): State
    requires q in s.qps
  {
    s.(qps := s.qps[q := s.qps[q].With(d, Leaving(t))], threads := s.threads[t := Putting(d, q)],
       tree := s.tree - {s.qps[q].key}, erased := s.erased + multiset{q})
  }

  lemma TimedOutLocal(s: State, t: Tid, q: QpId, d: Dir)
    requires Inv(s) && Enabled(s, Timeout(t)) && s.threads[t].q == q && s.threads[t].d == d && q in s.qps
    ensures s.qps[q].refCnt == 1 && InTree(s, q) && LocalOk(GaveUpOn(s, t, q, d), q, t)
  {
    AroundQp(s, q);
    HoldsReference(s, t);
  }

  lemma TimedOutFrame(s: State, t: Tid, q: QpId, d: Dir)
    requires Inv(s) && t in s.threads && s.threads[t].q == q && q in s.qps && InTree(s, q)
    ensures OnlyAt(s, GaveUpOn(s, t, q, d), q, t)
  {
    FreshQp(s);
  }

  lemma TimedOutKeeps(s: State, t: Tid, q: QpId, d: Dir)
    requires Inv(s) && Enabled(s, Timeout(t)) && s.threads[t].q == q && s.threads[t].d == d && q in s.qps
    ensures Inv(DoTimeout(s, t, q, d))
  {
    TimedOutLocal(s, t, q, d);
    TimedOutFrame(s, t, q, d);
    Assemble(s, GaveUpOn(s, t, q, d), q, t);
    assert DoTimeout(s, t, q, d) == GaveUpOn(s, t, q, d);
  }

  // put_qp

  lemma LockKeeps(s: State, t: Tid)
    requires Inv(s) && Sound(s, PutLock(t))
    ensures Inv(Next(s, PutLock(t)))
  {
    var q, d := s.threads[t].q, s.threads[t].d;
    HoldsReference(s, t);
    assert ThreadOk(s, t);
    UpdateKeeps(s, DoLock(s, t, q, d), q, t);
  }

  /** The last reference is dropped. */
  function DropLast(s: State, t: Tid, q: QpId, d: Dir): State
    requires q in s.qps
  {
    var v := s.qps[q];
    s.(qps := s.qps - {q}, threads := s.threads[t := Unlocking(d, q, 0)],
       released := s.released + Socks(v.tx) + Socks(v.rx), freed := s.freed + multiset{q})
  }

  /** The other side still holds its reference. */
  function DropFirst(s: State, t: Tid, q: QpId, d: Dir): State
    requires q in s.qps
  {
    SetQp(s, q, s.qps[q].With(d, Left).(refCnt := 1)).(threads := s.threads[t := Unlocking(d, q, 1)])
  }

  lemma DropForms(s: State, t: Tid, q: QpId, d: Dir)
    requires q in s.qps && s.qps[q].refCnt > 0
    ensures s.qps[q].refCnt == 1 ==> DoDrop(s, t, q, d) == DropLast(s, t, q, d)
    ensures s.qps[q].refCnt == 2 ==> DoDrop(s, t, q, d) == DropFirst(s, t, q, d)
  {
    var s' := DoDrop(s, t, q, d);
    if s.qps[q].refCnt == 1 {
      assert s'.qps == s.qps - {q};
    } else if s.qps[q].refCnt == 2 {
      assert s'.qps == DropFirst(s, t, q, d).qps;
    }
  }

  /** Freeing q releases only sockets that were published into q. */
  lemma OnlyItsSockets(s: State, q: QpId)
    requires q in s.qps && QpOk(s, q)
    ensures forall c: Sock :: c !in s.installed || s.installed[c] != q ==>
              (s.released + Socks(s.qps[q].tx) + Socks(s.qps[q].rx))[c] == s.released[c]
  {
  }

  /** No other thread has anything to do with a QP whose last reference is about to be dropped. */
  lemma LastIsAlone(s: State, t: Tid, q: QpId, u: Tid)
    requires Inv(s) && t in s.threads && s.threads[t].Locked? && s.threads[t].q == q && q in s.qps && s.qps[q].refCnt == 1
    requires u in s.threads && u != t
    ensures s.threads[u].q != q
  {
    assert ThreadOk(s, t) && ThreadOk(s, u);
    assert QpOk(s, q);
  }

  lemma DropLastLocal(s: State, t: Tid, q: QpId, d: Dir)
    requires Inv(s) && t in s.threads && s.threads[t] == Locked(d, q) && q in s.qps && s.qps[q].refCnt == 1
    ensures LocalOk(DropLast(s, t, q, d), q, t)
  {
    AroundQp(s, q);
    HoldsReference(s, t);
    forall u | u in s.threads && u != t ensures s.threads[u].q != q {
      LastIsAlone(s, t, q, u);
    }
  }

  lemma DropLastFrame(s: State, t: Tid, q: QpId, d: Dir)
    requires Inv(s) && t in s.threads && s.threads[t].q == q && q in s.qps
    ensures OnlyAt(s, DropLast(s, t, q, d), q, t)
  {
    FreshQp(s);
    OnlyItsSockets(s, q) by {
      assert QpOk(s, q);
    }
  }

  lemma DropFirstKeeps(s: State, t: Tid, q: QpId, d: Dir)
    requires Inv(s) && t in s.threads && s.threads[t] == Locked(d, q) && q in s.qps && s.qps[q].refCnt == 2
    ensures Inv(DropFirst(s, t, q, d))
  {
    HoldsReference(s, t);
    assert ThreadOk(s, t);
    UpdateKeeps(s, DropFirst(s, t, q, d), q, t);
  }

  lemma DropKeeps(s: State, t: Tid)
    requires Inv(s) && Sound(s, PutDrop(t))
    ensures Inv(Next(s, PutDrop(t)))
  {
    var q, d := s.threads[t].q, s.threads[t].d;
    HoldsReference(s, t);
    DropForms(s, t, q, d);
    if s.qps[q].refCnt == 1 {
      DropLastLocal(s, t, q, d);
      DropLastFrame(s, t, q, d);
      Assemble(s, DropLast(s, t, q, d), q, t);
    } else {
      DropFirstKeeps(s, t, q, d);
    }
  }

  /** Unlocking a freed QP changes nothing that the model speaks of. */
  lemma UnlockFreedKeeps(s: State, t: Tid, q: QpId)
    requires Inv(s) && t in s.threads && s.threads[t].Unlocking? && s.threads[t].q == q && q !in s.qps
    ensures Inv(DoUnlock(s, t, q))
  {
    var s' := DoUnlock(s, t, q);
    forall x | x in s'.qps ensures QpOk(s', x) { assert QpOk(s, x); }
    forall u | u in s'.threads ensures ThreadOk(s', u) { assert ThreadOk(s, u); }
    forall c | c in s'.installed ensures SockOk(s', c) { assert SockOk(s, c); }
    forall x: QpId ensures LogOk(s', x) { assert LogOk(s, x); }
  }

  lemma UnlockLocal(s: State, t: Tid, q: QpId)
    requires Inv(s) && t in s.threads && s.threads[t].Unlocking? && s.threads[t].q == q && q in s.qps
    ensures Update(s, DoUnlock(s, t, q), q, t) && QpOk(DoUnlock(s, t, q), q)
  {
    assert ThreadOk(s, t);
    assert QpOk(s, q);
  }

  lemma UnlockKeeps(s: State, t: Tid)
    requires Inv(s) && Sound(s, PutUnlock(t))
    ensures Inv(Next(s, PutUnlock(t)))
  {
    var q := s.threads[t].q;
    if q in s.qps {
      UnlockLocal(s, t, q);
      UpdateKeeps(s, DoUnlock(s, t, q), q, t);
    } else {
      UnlockFreedKeeps(s, t, q);
    }
  }

  lemma AcceptMergeKeeps(s: State)
    requires Inv(s)
    ensures Inv(AcceptMerge(s))
  {
    var s' := AcceptMerge(s);
    FreshQp(s);
    forall q | q in s'.qps ensures QpOk(s', q) { assert QpOk(s, q); }
    forall u | u in s'.threads ensures ThreadOk(s', u) { assert ThreadOk(s, u); }
    forall c | c in s'.installed ensures SockOk(s', c) { assert SockOk(s, c); }
    forall q: QpId ensures LogOk(s', q) { assert LogOk(s, q); }
  }

  /** The result of an accept for a key nobody has. */
  function AcceptFirst(s: State, t: Tid, key: Key): State {
    SetQp(s, s.nextQp, Qp(key, Null, Valid(s.nextSock), 1, Open, Absent, Waits(t)))
      .(nextQp := s.nextQp + 1, nextSock := s.nextSock + 1, tree := s.tree[key := s.nextQp],
        entered := s.entered + multiset{s.nextQp}, threads := s.threads[t := Waiting(RX, s.nextQp)],
        installed := s.installed[s.nextSock := s.nextQp])
  }

  lemma AcceptNewForm(s: State, t: Tid, key: Key)
    ensures WaitQpReady(Publish(AcceptNew(s, key), s.nextQp, RX, s.nextSock), s.nextQp, RX, t) == AcceptFirst(s, t, key)
  {
    var s1 := AcceptNew(s, key);
    ArrivesFirst(s1, s.nextQp, RX, t, s.nextSock);
    assert ArriveFirst(s1, s.nextQp, RX, t, s.nextSock).qps == AcceptFirst(s, t, key).qps;
  }

  lemma AcceptFirstFrame(s: State, t: Tid, key: Key)
    requires Inv(s) && t !in s.threads && key !in s.tree
    ensures OnlyAt(s, AcceptFirst(s, t, key), s.nextQp, t)
  {
    FreshQp(s);
  }

  lemma AcceptFirstQp(s: State, t: Tid, key: Key)
    requires Inv(s) && t !in s.threads && key !in s.tree
    ensures QpOk(AcceptFirst(s, t, key), s.nextQp)
  {
    FreshQp(s);
    assert s.released[s.nextSock] == 0;
  }

  lemma AcceptFirstLocal(s: State, t: Tid, key: Key)
    requires Inv(s) && t !in s.threads && key !in s.tree
    ensures LocalOk(AcceptFirst(s, t, key), s.nextQp, t)
  {
    FreshQp(s);
    AcceptFirstQp(s, t, key);
  }

  lemma AcceptFirstKeeps(s: State, t: Tid, key: Key)
    requires Inv(s) && t !in s.threads && key !in s.tree
    ensures Inv(AcceptFirst(s, t, key))
  {
    AcceptFirstFrame(s, t, key);
    AcceptFirstLocal(s, t, key);
    Assemble(s, AcceptFirst(s, t, key), s.nextQp, t);
  }

  /** A side that may arrive finds the count at 0 or 1, as its peer is absent or waiting. */
  lemma ArriveKeeps(s: State, q: QpId, d: Dir, t: Tid)
    requires Inv(s) && MayArrive(s, q, d, t)
    ensures Inv(WaitQpReady(Publish(s, q, d, s.nextSock), q, d, t))
  {
    assert QpOk(s, q);
    if s.qps[q].Peer(d).Valid? {
      ArrivesSecond(s, q, d, t, s.nextSock);
      ArriveSecondKeeps(s, q, d, t);
    } else {
      ArrivesFirst(s, q, d, t, s.nextSock);
      ArriveFirstKeeps(s, q, d, t);
    }
  }

  lemma SynKeeps(s: State, t: Tid, key: Key)
    requires Inv(s) && Sound(s, Syn(t, key))
    ensures Inv(Next(s, Syn(t, key)))
  {
    if key !in s.tree {
      SynNewKeeps(s, t, key);
    } else if s.qps[s.tree[key]].tx != Null {
      SynDropKeeps(s, t, key);
    } else {
      SynMergeKeeps(s, t, s.tree[key]);
    }
  }

  lemma ConnectWorksKeeps(s: State, t: Tid)
    requires Inv(s) && Sound(s, ConnectWorks(t))
    ensures Inv(Next(s, ConnectWorks(t)))
  {
    assert ThreadOk(s, t);
    assert QpOk(s, s.threads[t].q);
    ArriveKeeps(s, s.threads[t].q, TX, t);
  }

  lemma AcceptKeeps(s: State, t: Tid, key: Key)
    requires Inv(s) && Sound(s, Accept(t, key))
    ensures Inv(Next(s, Accept(t, key)))
  {
    if key in s.tree {
      var s1 := AcceptMerge(s);
      AcceptMergeKeeps(s);
      assert QpOk(s1, s.tree[key]);
      ArriveKeeps(s1, s.tree[key], RX, t);
    } else {
      AcceptNewForm(s, t, key);
      AcceptFirstKeeps(s, t, key);
    }
  }

  lemma StepKeeps(s: State, ev: Event)
    requires Inv(s) && Sound(s, ev)
    ensures Inv(Next(s, ev))
  {
    match ev
    case Syn(t, key) => SynKeeps(s, t, key);
    case ConnectFails(t) => ConnectFailKeeps(s, t, s.threads[t].q);
    case ConnectWorks(t) => ConnectWorksKeeps(s, t);
    case Accept(t, key) => AcceptKeeps(s, t, key);
    case Timeout(t) => TimedOutKeeps(s, t, s.threads[t].q, s.threads[t].d);
    case WaitDone(t) =>
      assert ThreadOk(s, t);
      WaitDoneKeeps(s, t, s.threads[t].q, s.threads[t].d);
    case RelayEnds(t) => RelayEndsKeeps(s, t);
    case PutLock(t) => LockKeeps(s, t);
    case PutDrop(t) => DropKeeps(s, t);
    case PutUnlock(t) => UnlockKeeps(s, t);
  }
}
