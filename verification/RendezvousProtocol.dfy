/**
 What each step of the rendezvous (module Rendezvous) does to the two sides of a QP and to the threads,
 as a protocol of two sides that take turns; that a failed connect is final; and that no state is a
 deadlock.
 */
module RendezvousProtocol {
  import opened Rendezvous
  import opened RendezvousFrames
  import opened RendezvousSteps
  import opened RendezvousLaws
  import opened RendezvousLifetimes

  // ---------------------------------------------------------------- the sides of a QP

  /** The side that a step belongs to: R for SYNs and connects, L for accepted sockets. */
  ghost function SideOf(s: State, ev: Event): Dir
    requires Enabled(s, ev)
  {
    if ev.Syn? || ev.ConnectFails? || ev.ConnectWorks? then TX
    else if ev.Accept? then RX
    else s.threads[ev.t].d
  }

  /** What becomes of it: it goes from one step of its life to the next, and looks at the other side only
      when it arrives. */
  function Moved(ev: Event, own: Side, other: Side): Side {
    match ev
    case Syn(t, _) => Trying(t)
    case ConnectFails(_) => GaveUp
    case ConnectWorks(t) => if Arrived(other) then Relays(t) else Waits(t)
    case Accept(t, _) => if Arrived(other) then Relays(t) else Waits(t)
    case Timeout(t) => Leaving(t)
    case WaitDone(t) => Relays(t)
    case RelayEnds(t) => Leaving(t)
    case PutDrop(_) => Left
    case _ => own
  }

  function Other(d: Dir): Dir { if d == TX then RX else TX }

  /** v' is v with the side d moved to x: the other side, the key, and the sockets that were there are as
      before. */
  predicate OnlySide(v: Qp, v': Qp, d: Dir, x: Side) {
    && v'.key == v.key && v'.Of(d) == x && v'.Of(Other(d)) == v.Of(Other(d)) && v'.Peer(d) == v.Peer(d)
    && (v.Get(d).Valid? ==> v'.Get(d) == v.Get(d))
  }

  /** The side of Target that the step belongs to has moved, if the QP is still there. */
  ghost predicate SideMoved(s: State, ev: Event, s': State)
    requires Enabled(s, ev)
  {
    var q, d := Target(s, ev), SideOf(s, ev);
    && q in s.qps
    && (q in s'.qps ==>
          && OnlySide(s.qps[q], s'.qps[q], d, Moved(ev, s.qps[q].Of(d), s.qps[q].Of(Other(d))))
          && (ev.ConnectWorks? || ev.Accept? ==> s'.qps[q].Get(d) == Valid(s.nextSock)))
  }

  lemma ArrivalMoves(s: State, q: QpId, d: Dir, t: Tid)
    requires Inv(s) && MayArrive(s, q, d, t)
    ensures var v, s' := s.qps[q], WaitQpReady(Publish(s, q, d, s.nextSock), q, d, t);
            && q in s'.qps && OnlySide(v, s'.qps[q], d, if Arrived(v.Of(Other(d))) then Relays(t) else Waits(t))
            && s'.threads == s.threads[t := s'.threads[t]] && s'.qps[q].Get(d) == Valid(s.nextSock)
  {
    assert QpOk(s, q);
    if s.qps[q].Peer(d).Valid? {
      ArrivesSecond(s, q, d, t, s.nextSock);
    } else {
      ArrivesFirst(s, q, d, t, s.nextSock);
    }
  }

  lemma AcceptMoves(s: State, t: Tid, key: Key)
    requires Inv(s) && Enabled(s, Accept(t, key)) && Sound(s, Accept(t, key)) && key in s.tree
    ensures SideMoved(s, Accept(t, key), Next(s, Accept(t, key)))
  {
    AcceptMergeKeeps(s);
    assert QpOk(AcceptMerge(s), s.tree[key]);
    ArrivalMoves(AcceptMerge(s), s.tree[key], RX, t);
  }

  lemma ConnectMoves(s: State, t: Tid)
    requires Inv(s) && Enabled(s, ConnectWorks(t)) && Sound(s, ConnectWorks(t))
    ensures SideMoved(s, ConnectWorks(t), Next(s, ConnectWorks(t)))
  {
    assert ThreadOk(s, t) && QpOk(s, s.threads[t].q);
    ArrivalMoves(s, s.threads[t].q, TX, t);
  }

  lemma DropMoves(s: State, t: Tid)
    requires Inv(s) && Enabled(s, PutDrop(t)) && Sound(s, PutDrop(t))
    ensures SideMoved(s, PutDrop(t), Next(s, PutDrop(t)))
  {
    HoldsReference(s, t);
    DropForms(s, t, s.threads[t].q, s.threads[t].d);
  }

  lemma SynMoves(s: State, t: Tid, key: Key)
    requires Inv(s) && Enabled(s, Syn(t, key)) && Sound(s, Syn(t, key)) && key in s.tree && s.qps[s.tree[key]].tx == Null
    ensures SideMoved(s, Syn(t, key), Next(s, Syn(t, key)))
  {
    assert QpOk(s, s.tree[key]);
  }

  lemma OwnMoves(s: State, ev: Event)
    requires Inv(s) && Enabled(s, ev) && Sound(s, ev)
    requires ev.ConnectFails? || ev.Timeout? || ev.WaitDone? || ev.RelayEnds? || ev.PutLock?
    ensures SideMoved(s, ev, Next(s, ev))
  {
    assert ThreadOk(s, ev.t);
    assert QpOk(s, s.threads[ev.t].q);
  }

  lemma UnlockMoves(s: State, t: Tid)
    requires Inv(s) && Enabled(s, PutUnlock(t)) && Sound(s, PutUnlock(t)) && s.threads[t].q in s.qps
    ensures SideMoved(s, PutUnlock(t), Next(s, PutUnlock(t)))
  {
  }

  /** A duplicate SYN moves no side. */
  ghost predicate Duplicate(s: State, ev: Event) {
    ev.Syn? && ev.key in s.tree && s.tree[ev.key] in s.qps && s.qps[s.tree[ev.key]].tx != Null
  }

  /** Every step moves one side of one QP, to what comes next in the life of that side, and leaves all else
      about this QP and all about the others as it was. */
  lemma StepMovesSide(s: State, ev: Event)
    requires Reachable(s) && Enabled(s, ev)
    ensures Sound(s, ev)
    ensures var q, s' := Target(s, ev), Next(s, ev);
            && (q in s.qps ==> if Duplicate(s, ev) then Same(s, s', q) else SideMoved(s, ev, s'))
            && (forall x :: x in s.qps && x != q ==> Same(s, s', x))
  {
    ReachableInv(s);
    EnabledIsSound(s, ev);
    var q, s' := Target(s, ev), Next(s, ev);
    forall x | x in s.qps && x != q ensures Same(s, s', x) { OthersStay(s, ev, x); }
    if q in s.qps {
      FreshQp(s);
      match ev
      case Syn(t, key) => if Duplicate(s, ev) { SynLeaves(s, t, key, q); } else { SynMoves(s, t, key); }
      case Accept(t, key) => AcceptMoves(s, t, key);
      case ConnectWorks(t) => ConnectMoves(s, t);
      case PutDrop(t) => DropMoves(s, t);
      case PutUnlock(t) => UnlockMoves(s, t);
      case _ => OwnMoves(s, ev);
    }
  }

  // ---------------------------------------------------------------- new QPs

  lemma ArrivalAddsNone(s: State, q: QpId, d: Dir, t: Tid)
    requires Inv(s) && MayArrive(s, q, d, t)
    ensures WaitQpReady(Publish(s, q, d, s.nextSock), q, d, t).qps.Keys == s.qps.Keys
  {
    assert QpOk(s, q);
    if s.qps[q].Peer(d).Valid? {
      ArrivesSecond(s, q, d, t, s.nextSock);
    } else {
      ArrivesFirst(s, q, d, t, s.nextSock);
    }
  }

  lemma AcceptAdds(s: State, t: Tid, key: Key)
    requires Inv(s) && Enabled(s, Accept(t, key)) && Sound(s, Accept(t, key))
    ensures Adds(s, Accept(t, key), Next(s, Accept(t, key)))
  {
    FreshQp(s);
    if key in s.tree {
      AcceptMergeKeeps(s);
      assert QpOk(AcceptMerge(s), s.tree[key]);
      ArrivalAddsNone(AcceptMerge(s), s.tree[key], RX, t);
    } else {
      AcceptNewForm(s, t, key);
    }
  }

  /** A new QP for the key with these sides. */
  ghost predicate Made(s: State, s': State, key: Key, r: Side, l: Side) {
    s.nextQp in s'.qps && s'.qps[s.nextQp].key == key && s'.qps[s.nextQp].r == r && s'.qps[s.nextQp].l == l
  }

  ghost predicate Adds(s: State, ev: Event, s': State) {
    && s'.qps.Keys <= s.qps.Keys + {s.nextQp}
    && if ev.Syn? && ev.key !in s.tree then Made(s, s', ev.key, Trying(ev.t), Absent)
       else if Duplicate(s, ev) then Made(s, s', ev.key, Dropped, Absent)
       else if ev.Accept? && ev.key !in s.tree then
         Made(s, s', ev.key, Absent, Waits(ev.t)) && s'.qps[s.nextQp].rx == Valid(s.nextSock)
       else s.nextQp !in s'.qps
  }

  lemma SynAdds(s: State, t: Tid, key: Key)
    requires Inv(s) && Enabled(s, Syn(t, key)) && Sound(s, Syn(t, key))
    ensures Adds(s, Syn(t, key), Next(s, Syn(t, key)))
  {
    FreshQp(s);
  }

  lemma ConnectAdds(s: State, t: Tid)
    requires Inv(s) && Enabled(s, ConnectWorks(t)) && Sound(s, ConnectWorks(t))
    ensures Adds(s, ConnectWorks(t), Next(s, ConnectWorks(t)))
  {
    FreshQp(s);
    assert ThreadOk(s, t) && QpOk(s, s.threads[t].q);
    ArrivalAddsNone(s, s.threads[t].q, TX, t);
  }

  lemma DropAdds(s: State, t: Tid)
    requires Inv(s) && Enabled(s, PutDrop(t)) && Sound(s, PutDrop(t))
    ensures Adds(s, PutDrop(t), Next(s, PutDrop(t)))
  {
    FreshQp(s);
    HoldsReference(s, t);
    DropForms(s, t, s.threads[t].q, s.threads[t].d);
  }

  /** Which QPs there are after a step: a SYN for a key that is in no tree makes one with a connect in flight,
      one for a key with an R side leaves one behind, an accept for a key that is in no tree makes one with a
      waiting client; nothing else makes any. */
  lemma StepAdds(s: State, ev: Event)
    requires Reachable(s) && Enabled(s, ev)
    ensures Sound(s, ev) && Adds(s, ev, Next(s, ev))
  {
    ReachableInv(s);
    EnabledIsSound(s, ev);
    FreshQp(s);
    match ev
    case Syn(t, key) => SynAdds(s, t, key);
    case Accept(t, key) => AcceptAdds(s, t, key);
    case ConnectWorks(t) => ConnectAdds(s, t);
    case PutDrop(t) => DropAdds(s, t);
    case _ =>
  }

  // ---------------------------------------------------------------- a failed connect is final

  /** If it is still allocated, the connect into q has failed, and its tx is an error. */
  ghost predicate Failed(s: State, q: QpId, key: Key) {
    && q < s.nextQp
    && (q in s.qps ==> s.qps[q].key == key && s.qps[q].r == GaveUp && s.qps[q].tx == Err)
  }

  /** Only clients work on it. */
  lemma FailedSide(s: State, ev: Event, q: QpId)
    requires Inv(s) && Enabled(s, ev) && Target(s, ev) == q && q in s.qps && s.qps[q].r == GaveUp
    ensures Duplicate(s, ev) || SideOf(s, ev) == RX
  {
    assert QpOk(s, q);
    if !ev.Syn? && !ev.Accept? {
      assert ThreadOk(s, ev.t);
    }
  }

  lemma FailedQpStep(s: State, ev: Event, s': State, q: QpId)
    requires Reachable(s) && Leads(s, ev, s') && q in s.qps && q in s'.qps && s.qps[q].r == GaveUp
    ensures s'.qps[q].key == s.qps[q].key && s'.qps[q].r == GaveUp
  {
    ReachableInv(s);
    if Target(s, ev) == q {
      FailedSide(s, ev, q);
    }
    StepMovesSide(s, ev);
  }

  lemma FailedIsErr(s: State, q: QpId)
    requires Reachable(s) && q in s.qps && s.qps[q].r == GaveUp
    ensures s.qps[q].tx == Err
  {
    ReachableInv(s);
    assert QpOk(s, q);
  }

  lemma FailedStep(s: State, ev: Event, s': State, q: QpId, key: Key)
    requires Reachable(s) && Leads(s, ev, s') && Failed(s, q, key)
    ensures Failed(s', q, key)
  {
    LeadsOn(s, ev, s');
    ReachableInv(s);
    StepAdds(s, ev);
    FreeingStep(s, ev, q);
    if q in s'.qps {
      FailedQpStep(s, ev, s', q);
      FailedIsErr(s', q);
    }
  }

  lemma {:induction false} ReachableOn(tr: seq<State>, evs: seq<Event>, n: nat)
    requires Follows(tr, evs) && Reachable(tr[0]) && n < |tr|
    ensures Reachable(tr[n])
  {
    if n > 0 {
      var i := n - 1;
      ReachableOn(tr, evs, i);
      StepAt(tr, evs, i);
      LeadsOn(tr[i], evs[i], tr[i + 1]);
    }
  }

  lemma {:induction false} FailedSoFar(tr: seq<State>, evs: seq<Event>, q: QpId, key: Key, n: nat)
    requires Follows(tr, evs) && Reachable(tr[0]) && n < |tr| && Failed(tr[0], q, key)
    ensures Failed(tr[n], q, key)
  {
    if n > 0 {
      var i := n - 1;
      FailedSoFar(tr, evs, q, key, i);
      ReachableOn(tr, evs, i);
      StepAt(tr, evs, i);
      FailedStep(tr[i], evs[i], tr[i + 1], q, key);
    }
  }

  /** After a connect into q has failed its tx stays ERR_PTR(-EINVAL) for as long as q is allocated, with or
      without a client, in every continuation of every run. */
  lemma FailedStays(tr: seq<State>, evs: seq<Event>, t: Tid, n: nat)
    requires Follows(tr, evs) && Reachable(tr[0]) && 0 < n < |tr| && evs[0] == ConnectFails(t)
    ensures t in tr[0].threads && tr[0].threads[t].q in tr[0].qps
    ensures var q := tr[0].threads[t].q;
            q in tr[n].qps ==> tr[n].qps[q].tx == Err && tr[n].qps[q].r == GaveUp && tr[n].qps[q].key == tr[0].qps[q].key
  {
    ReachableInv(tr[0]);
    StepAt(tr, evs, 0);
    assert ThreadOk(tr[0], t);
    var q := tr[0].threads[t].q;
    assert QpOk(tr[0], q);
    ReachableOn(tr, evs, 1);
    StepMovesSide(tr[0], evs[0]);
    ReachableInv(tr[1]);
    assert tr[1].qps[q].tx == Err by { FailsToErr(tr[0], t); }
    FailedTail(tr, evs, q, tr[0].qps[q].key, n);
  }

  lemma FailsToErr(s: State, t: Tid)
    requires Reachable(s) && Enabled(s, ConnectFails(t)) && Sound(s, ConnectFails(t))
    ensures var q := s.threads[t].q; q in s.qps && Failed(Next(s, ConnectFails(t)), q, s.qps[q].key)
  {
    ReachableInv(s);
    assert ThreadOk(s, t) && QpOk(s, s.threads[t].q);
  }

  lemma FailedTail(tr: seq<State>, evs: seq<Event>, q: QpId, key: Key, n: nat)
    requires Follows(tr, evs) && Reachable(tr[0]) && 0 < n < |tr| && Failed(tr[1], q, key)
    ensures Failed(tr[n], q, key)
  {
    ReachableOn(tr, evs, 1);
    var tr', evs' := tr[1..], evs[1..];
    forall i | 0 <= i < |evs'| ensures Leads(tr'[i], evs'[i], tr'[i + 1]) {
      StepAt(tr, evs, i + 1);
    }
    FailedSoFar(tr', evs', q, key, n - 1);
  }

  /** While such a QP is in its tree, client or no client, every SYN for its key is dropped: no thread starts,
      the QP stays as it is, and the new one is left behind. */
  lemma FailedDropsSyns(s: State, q: QpId, t: Tid)
    requires Reachable(s) && Linked(s, q) && s.qps[q].r == GaveUp && Enabled(s, Syn(t, s.qps[q].key))
    ensures var ev := Syn(t, s.qps[q].key);
            && Sound(s, ev)
            && var s' := Next(s, ev);
               s'.threads == s.threads && Same(s, s', q) && Made(s, s', s.qps[q].key, Dropped, Absent)
  {
    ReachableInv(s);
    assert QpOk(s, q);
    StepMovesSide(s, Syn(t, s.qps[q].key));
    StepAdds(s, Syn(t, s.qps[q].key));
  }
}
