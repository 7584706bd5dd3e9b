/**
 For how long a QP of the rendezvous (module Rendezvous) stays allocated and as it is: one that a
 duplicate SYN has left behind, one whose connect has failed, and any other.
 */
module RendezvousLifetimes {
  import opened Rendezvous
  import opened RendezvousFrames
  import opened RendezvousSteps
  import opened RendezvousLaws

  // ---------------------------------------------------------------- who is concerned by a step

  /** The QP that a step works on: the one its thread has, or the one in the tree under its key, or the
      next to be allocated. */
  ghost function Target(s: State, ev: Event): QpId
    requires Enabled(s, ev)
  {
    match ev
    case Syn(_, key) => if key in s.tree then s.tree[key] else s.nextQp
    case Accept(_, key) => if key in s.tree then s.tree[key] else s.nextQp
    case _ => s.threads[ev.t].q
  }

  ghost predicate Same(s: State, s': State, q: QpId) {
    q in s.qps && q in s'.qps && s'.qps[q] == s.qps[q] && (Linked(s', q) <==> Linked(s, q))
  }

  lemma ArrivalLeaves(s: State, q: QpId, d: Dir, t: Tid, x: QpId)
    requires Inv(s) && MayArrive(s, q, d, t) && x in s.qps && x != q
    ensures Same(s, WaitQpReady(Publish(s, q, d, s.nextSock), q, d, t), x)
  {
    assert QpOk(s, q);
    if s.qps[q].Peer(d).Valid? {
      ArrivesSecond(s, q, d, t, s.nextSock);
    } else {
      ArrivesFirst(s, q, d, t, s.nextSock);
    }
  }

  lemma AcceptLeaves(s: State, t: Tid, key: Key, x: QpId)
    requires Inv(s) && Enabled(s, Accept(t, key)) && Sound(s, Accept(t, key)) && x in s.qps && x != Target(s, Accept(t, key))
    ensures Same(s, Next(s, Accept(t, key)), x)
  {
    if key in s.tree {
      AcceptMergeKeeps(s);
      assert QpOk(AcceptMerge(s), s.tree[key]);
      ArrivalLeaves(AcceptMerge(s), s.tree[key], RX, t, x);
    } else {
      AcceptNewForm(s, t, key);
    }
  }

  lemma ConnectLeaves(s: State, t: Tid, x: QpId)
    requires Inv(s) && Enabled(s, ConnectWorks(t)) && Sound(s, ConnectWorks(t)) && x in s.qps && x != s.threads[t].q
    ensures Same(s, Next(s, ConnectWorks(t)), x)
  {
    assert ThreadOk(s, t) && QpOk(s, s.threads[t].q);
    ArrivalLeaves(s, s.threads[t].q, TX, t, x);
  }

  lemma DropLeaves(s: State, t: Tid, x: QpId)
    requires Inv(s) && Enabled(s, PutDrop(t)) && Sound(s, PutDrop(t)) && x in s.qps && x != s.threads[t].q
    ensures Same(s, Next(s, PutDrop(t)), x)
  {
    HoldsReference(s, t);
    DropForms(s, t, s.threads[t].q, s.threads[t].d);
  }

  lemma SynLeaves(s: State, t: Tid, key: Key, x: QpId)
    requires Inv(s) && Enabled(s, Syn(t, key)) && Sound(s, Syn(t, key)) && x in s.qps
    requires x != Target(s, Syn(t, key)) || s.qps[x].tx != Null
    ensures Same(s, Next(s, Syn(t, key)), x)
  {
    assert QpOk(s, x);
  }

  lemma TimeoutLeaves(s: State, t: Tid, x: QpId)
    requires Inv(s) && Enabled(s, Timeout(t)) && Sound(s, Timeout(t)) && x in s.qps && x != s.threads[t].q
    ensures Same(s, Next(s, Timeout(t)), x)
  {
  }

  lemma OwnLeaves(s: State, ev: Event, x: QpId)
    requires Inv(s) && Enabled(s, ev) && Sound(s, ev) && x in s.qps
    requires ev.ConnectFails? || ev.WaitDone? || ev.RelayEnds? || ev.PutLock? || ev.PutUnlock?
    requires x != s.threads[ev.t].q
    ensures Same(s, Next(s, ev), x)
  {
  }

  /** A step leaves all QPs as they are but the one it works on. */
  lemma OthersStay(s: State, ev: Event, x: QpId)
    requires Inv(s) && Enabled(s, ev) && Sound(s, ev) && x in s.qps && x != Target(s, ev)
    ensures Same(s, Next(s, ev), x)
  {
    match ev
    case Syn(t, key) => SynLeaves(s, t, key, x);
    case Accept(t, key) => AcceptLeaves(s, t, key, x);
    case ConnectWorks(t) => ConnectLeaves(s, t, x);
    case PutDrop(t) => DropLeaves(s, t, x);
    case Timeout(t) => TimeoutLeaves(s, t, x);
    case _ => OwnLeaves(s, ev, x);
  }

  // ---------------------------------------------------------------- the QP of a duplicate SYN

  lemma DroppedStep(s: State, ev: Event, q: QpId)
    requires Inv(s) && Sound(s, ev) && q in s.qps && s.qps[q].r == Dropped
    ensures Same(s, Next(s, ev), q)
  {
    assert QpOk(s, q);
    if !ev.Syn? && !ev.Accept? {
      assert ThreadOk(s, ev.t);
    }
    OthersStay(s, ev, q);
  }

  /** The QP of a duplicate SYN stays for ever: in every continuation of every run it is allocated, as it
      was, outside the tree. */
  lemma {:induction false} DroppedStays(tr: seq<State>, evs: seq<Event>, q: QpId, n: nat)
    requires Follows(tr, evs) && Reachable(tr[0]) && n < |tr|
    requires q in tr[0].qps && tr[0].qps[q].r == Dropped
    ensures q in tr[n].qps && tr[n].qps[q] == tr[0].qps[q] && !Linked(tr[n], q) && tr[n].freed[q] == 0
  {
    ReachableInv(tr[0]);
    RunKeeps(tr, evs, n);
    if n > 0 {
      DroppedStays(tr, evs, q, n - 1);
      RunKeeps(tr, evs, n - 1);
      StepAt(tr, evs, n - 1);
      DroppedStep(tr[n - 1], evs[n - 1], q);
    } else {
      assert QpOk(tr[0], q);
    }
    assert LogOk(tr[n], q);
  }

  // ---------------------------------------------------------------- a connect that failed

  /** No client has come for it. */
  predicate Stranded(v: Qp) { v.r == GaveUp && v.rx == Null }

  /** A socket has been published into q, which may have been freed since. */
  ghost predicate Met(s: State, q: QpId) { exists c :: c in s.installed && s.installed[c] == q }

  predicate Accepts(ev: Event, key: Key) { ev.Accept? && ev.key == key }

  lemma NotMet(s: State, q: QpId)
    requires Inv(s) && q in s.qps && Stranded(s.qps[q])
    ensures Linked(s, q) && !Met(s, q)
  {
    assert QpOk(s, q);
    forall c | c in s.installed ensures s.installed[c] != q {
      assert SockOk(s, c);
    }
  }

  /** As long as none comes, nothing changes; and all SYNs for the key are taken for duplicates, each of
      which leaves a QP of its own behind. */
  lemma StrandedStep(s: State, ev: Event, q: QpId)
    requires Inv(s) && Sound(s, ev) && q in s.qps && Stranded(s.qps[q])
    ensures if Accepts(ev, s.qps[q].key) then Met(Next(s, ev), q) else Same(s, Next(s, ev), q)
    ensures ev.Syn? && ev.key == s.qps[q].key ==> s.nextQp in Next(s, ev).qps && Next(s, ev).qps[s.nextQp].r == Dropped
  {
    NotMet(s, q);
    assert QpOk(s, q);
    if Accepts(ev, s.qps[q].key) {
      ArrivesFirst(AcceptMerge(s), q, RX, ev.t, s.nextSock);
      assert s.nextSock in Next(s, ev).installed && Next(s, ev).installed[s.nextSock] == q;
    } else if ev.Syn? {
      SynLeaves(s, ev.t, ev.key, q);
    } else {
      if !ev.Accept? {
        assert ThreadOk(s, ev.t);
      }
      OthersStay(s, ev, q);
    }
  }

  lemma ArrivalLogs(s: State, q: QpId, d: Dir, t: Tid)
    requires q in s.qps
    ensures var s' := WaitQpReady(Publish(s, q, d, s.nextSock), q, d, t);
            s'.installed == s.installed[s.nextSock := q] && s'.freed == s.freed && s'.nextQp == s.nextQp
  {
  }

  lemma MetStep(s: State, ev: Event, q: QpId)
    requires Inv(s) && Sound(s, ev) && Met(s, q)
    ensures Met(Next(s, ev), q)
  {
    FreshQp(s);
    var c :| c in s.installed && s.installed[c] == q;
    if ev.Accept? && ev.key in s.tree {
      ArrivalLogs(AcceptMerge(s), s.tree[ev.key], RX, ev.t);
    } else if ev.Accept? {
      ArrivalLogs(AcceptNew(s, ev.key), s.nextQp, RX, ev.t);
    } else if ev.ConnectWorks? {
      ArrivalLogs(s, s.threads[ev.t].q, TX, ev.t);
    }
    assert c in Next(s, ev).installed && Next(s, ev).installed[c] == q;
  }

  /** q has been met if a client came, and is as it was otherwise. */
  ghost predicate StrandedOr(came: bool, s: State, q: QpId, v: Qp) {
    if came then Met(s, q) else q in s.qps && s.qps[q] == v
  }

  lemma LeadKeeps(s: State, ev: Event, s': State, q: QpId, v: Qp, came: bool)
    requires Inv(s) && Leads(s, ev, s') && Stranded(v) && StrandedOr(came, s, q, v)
    ensures StrandedOr(came || Accepts(ev, v.key), s', q, v)
  {
    if came {
      MetStep(s, ev, q);
    } else {
      StrandedStep(s, ev, q);
    }
  }

  /** A client with the key was accepted among the first n steps. */
  ghost predicate Came(evs: seq<Event>, key: Key, n: nat)
    requires n <= |evs|
  {
    exists i :: 0 <= i < n && Accepts(evs[i], key)
  }

  lemma CameStep(evs: seq<Event>, key: Key, n: nat)
    requires n < |evs|
    ensures Came(evs, key, n + 1) <==> Came(evs, key, n) || Accepts(evs[n], key)
  {
  }

  lemma {:induction false} StrandedOrMet(tr: seq<State>, evs: seq<Event>, q: QpId, n: nat)
    requires Follows(tr, evs) && Inv(tr[0]) && n < |tr| && q in tr[0].qps && Stranded(tr[0].qps[q])
    ensures StrandedOr(Came(evs, tr[0].qps[q].key, n), tr[n], q, tr[0].qps[q])
  {
    if n > 0 {
      var i, v := n - 1, tr[0].qps[q];
      StrandedOrMet(tr, evs, q, i);
      RunKeeps(tr, evs, i);
      StepAt(tr, evs, i);
      LeadKeeps(tr[i], evs[i], tr[i + 1], q, v, Came(evs, v.key, i));
      CameStep(evs, v.key, i);
    }
  }

  /** A QP whose connect failed stays in the tree, as it is, exactly until a client with its key is
      accepted. */
  lemma StrandedUntilAccept(tr: seq<State>, evs: seq<Event>, q: QpId, n: nat)
    requires Follows(tr, evs) && Reachable(tr[0]) && n < |tr| && q in tr[0].qps && Stranded(tr[0].qps[q])
    ensures q in tr[n].qps && tr[n].qps[q] == tr[0].qps[q] && Linked(tr[n], q) <==> !Came(evs, tr[0].qps[q].key, n)
  {
    ReachableInv(tr[0]);
    RunKeeps(tr, evs, n);
    StrandedOrMet(tr, evs, q, n);
    if q in tr[n].qps && Stranded(tr[n].qps[q]) {
      NotMet(tr[n], q);
    }
  }

  // ---------------------------------------------------------------- until the last put

  /** The put of the last reference to q. */
  predicate LastPut(s: State, ev: Event, q: QpId) {
    ev.PutDrop? && ev.t in s.threads && s.threads[ev.t].q == q && q in s.qps && s.qps[q].refCnt == 1
  }

  lemma PutFrees(s: State, t: Tid)
    requires Inv(s) && Enabled(s, PutDrop(t)) && Sound(s, PutDrop(t))
    ensures var s' := Next(s, PutDrop(t)); var q := s.threads[t].q;
            s'.nextQp == s.nextQp &&
            if s.qps[q].refCnt == 1 then s'.freed == s.freed + multiset{q} else s'.freed == s.freed
  {
    HoldsReference(s, t);
    DropForms(s, t, s.threads[t].q, s.threads[t].d);
  }

  /** Which step frees an allocated QP, and that none takes a free back. */
  lemma FreeingStep(s: State, ev: Event, q: QpId)
    requires Inv(s) && Enabled(s, ev) && Sound(s, ev) && q < s.nextQp
    ensures Next(s, ev).nextQp >= s.nextQp
    ensures Next(s, ev).freed[q] == s.freed[q] + if LastPut(s, ev, q) then 1 else 0
  {
    FreshQp(s);
    if ev.PutDrop? {
      PutFrees(s, ev.t);
    } else if ev.ConnectWorks? {
      ArrivalLogs(s, s.threads[ev.t].q, TX, ev.t);
    } else if ev.Accept? && ev.key in s.tree {
      ArrivalLogs(AcceptMerge(s), s.tree[ev.key], RX, ev.t);
    } else if ev.Accept? {
      ArrivalLogs(AcceptNew(s, ev.key), s.nextQp, RX, ev.t);
    }
  }

  /** The last put was among the first n steps. */
  ghost predicate PutBefore(tr: seq<State>, evs: seq<Event>, q: QpId, n: nat)
    requires |tr| == |evs| + 1 && n < |tr|
  {
    exists i :: 0 <= i < n && LastPut(tr[i], evs[i], q)
  }

  lemma PutBeforeStep(tr: seq<State>, evs: seq<Event>, q: QpId, n: nat)
    requires |tr| == |evs| + 1 && n < |evs|
    ensures PutBefore(tr, evs, q, n + 1) <==> PutBefore(tr, evs, q, n) || LastPut(tr[n], evs[n], q)
  {
  }

  /** q has been allocated, and freed if `put`. */
  ghost predicate FreedIf(put: bool, s: State, q: QpId) { q < s.nextQp && (s.freed[q] > 0 <==> put) }

  lemma LeadFrees(s: State, ev: Event, s': State, q: QpId, put: bool)
    requires Inv(s) && Leads(s, ev, s') && FreedIf(put, s, q)
    ensures FreedIf(put || LastPut(s, ev, q), s', q)
  {
    FreeingStep(s, ev, q);
  }

  lemma {:induction false} FreedSoFar(tr: seq<State>, evs: seq<Event>, q: QpId, n: nat)
    requires Follows(tr, evs) && Inv(tr[0]) && n < |tr| && q in tr[0].qps
    ensures FreedIf(PutBefore(tr, evs, q, n), tr[n], q)
  {
    if n == 0 {
      assert QpOk(tr[0], q) && LogOk(tr[0], q);
    } else {
      var i := n - 1;
      FreedSoFar(tr, evs, q, i);
      RunKeeps(tr, evs, i);
      StepAt(tr, evs, i);
      LeadFrees(tr[i], evs[i], tr[i + 1], q, PutBefore(tr, evs, q, i));
      PutBeforeStep(tr, evs, q, i);
    }
  }

  /** A pointer to a QP that was taken at some time, out of a tree say, is to a freed QP later exactly if
      the last put came in between. */
  lemma GoneIffLastPut(tr: seq<State>, evs: seq<Event>, q: QpId, n: nat)
    requires Follows(tr, evs) && Reachable(tr[0]) && n < |tr| && q in tr[0].qps
    ensures q !in tr[n].qps <==> PutBefore(tr, evs, q, n)
  {
    ReachableInv(tr[0]);
    RunKeeps(tr, evs, n);
    FreedSoFar(tr, evs, q, n);
    assert LogOk(tr[n], q);
  }
}
