/**
 Steps of the rendezvous (module Rendezvous) that concern one QP and one thread: all else that the
 invariant says carries over.
 */
module RendezvousFrames {
  import opened Rendezvous

  /** s' differs from s for nobody but QP q, thread t and QPs allocated meanwhile. */
  ghost predicate OnlyAt(s: State, s': State, q: QpId, t: Tid) {
    && s.nextQp <= s'.nextQp && s.nextSock <= s'.nextSock
    && (forall x :: x in s.qps && x != q ==> x in s'.qps && s'.qps[x] == s.qps[x])
    && (forall x :: x in s'.qps && x != q ==> x in s.qps)
    && (forall u :: u in s.threads && u != t ==> u in s'.threads && s'.threads[u] == s.threads[u])
    && (forall u :: u in s'.threads && u != t ==> u in s.threads)
    && (t in s.threads ==> s.threads[t].q == q)
    && (forall k :: k in s.tree && s.tree[k] != q ==> k in s'.tree && s'.tree[k] == s.tree[k])
    && (forall k :: k in s'.tree && s'.tree[k] != q ==> k in s.tree && s.tree[k] == s'.tree[k])
    && (forall c :: c in s.installed ==> c in s'.installed && s'.installed[c] == s.installed[c])
    && (forall c :: c in s'.installed && c !in s.installed ==> s'.installed[c] == q)
    && (forall c: Sock :: c !in s'.installed || s'.installed[c] != q ==> s'.released[c] == s.released[c])
    && (forall x: QpId :: x != q && x < s.nextQp ==>
          s'.freed[x] == s.freed[x] && s'.entered[x] == s.entered[x] && s'.erased[x] == s.erased[x])
    && (forall x: QpId :: x != q && x >= s.nextQp ==>
          s'.freed[x] == (if x < s'.nextQp then 1 else 0) && s'.entered[x] == 0 && s'.erased[x] == 0)
  }

  /** What concerns q and t is in order. */
  ghost predicate LocalOk(s: State, q: QpId, t: Tid) {
    && LogOk(s, q)
    && (q in s.qps ==> QpOk(s, q))
    && (forall k :: k in s.tree && s.tree[k] == q ==> q in s.qps && k == s.qps[q].key)
    && (t in s.threads ==> ThreadOk(s, t))
    && (forall u {:trigger ThreadOk(s, u)} :: u in s.threads && u != t && s.threads[u].q == q ==> ThreadOk(s, u))
    && (forall c {:trigger SockOk(s, c)} :: c in s.installed && s.installed[c] == q ==> SockOk(s, c))
  }

  lemma OtherQps(s: State, s': State, q: QpId, t: Tid)
    requires Inv(s) && OnlyAt(s, s', q, t)
    ensures forall x {:trigger QpOk(s', x)} :: x in s'.qps && x != q ==> QpOk(s', x)
  {
    forall x | x in s'.qps && x != q ensures QpOk(s', x) {
      assert QpOk(s, x);
    }
  }

  lemma OtherThreads(s: State, s': State, q: QpId, t: Tid)
    requires Inv(s) && OnlyAt(s, s', q, t)
    ensures forall u {:trigger ThreadOk(s', u)} :: u in s'.threads && u != t && s'.threads[u].q != q ==> ThreadOk(s', u)
    ensures forall c {:trigger SockOk(s', c)} :: c in s'.installed && s'.installed[c] != q ==> SockOk(s', c)
  {
    forall u | u in s'.threads && u != t && s'.threads[u].q != q ensures ThreadOk(s', u) {
      assert ThreadOk(s, u);
    }
    forall c | c in s'.installed && s'.installed[c] != q ensures SockOk(s', c) {
      assert SockOk(s, c);
    }
  }

  lemma OtherLogs(s: State, s': State, q: QpId, t: Tid)
    requires Inv(s) && OnlyAt(s, s', q, t)
    ensures forall x: QpId {:trigger LogOk(s', x)} :: x != q ==> LogOk(s', x)
  {
    FreshQp(s);
    forall x: QpId | x != q ensures LogOk(s', x) {
      assert LogOk(s, x);
    }
  }

  lemma FreshQp(s: State)
    requires Inv(s)
    ensures forall q :: q in s.qps ==> q < s.nextQp
    ensures forall k :: k in s.tree ==> s.tree[k] < s.nextQp
    ensures forall u :: u in s.threads ==> s.threads[u].q < s.nextQp
    ensures forall c :: c in s.installed ==> c < s.nextSock && s.installed[c] < s.nextQp
    ensures forall x: QpId :: x >= s.nextQp ==> s.freed[x] == s.entered[x] == s.erased[x] == 0
  {
    forall q | q in s.qps ensures q < s.nextQp {
      assert QpOk(s, q);
    }
    forall u | u in s.threads ensures s.threads[u].q < s.nextQp {
      assert ThreadOk(s, u);
    }
    forall c | c in s.installed ensures c < s.nextSock && s.installed[c] < s.nextQp {
      assert SockOk(s, c);
    }
    forall x: QpId | x >= s.nextQp ensures s.freed[x] == s.entered[x] == s.erased[x] == 0 {
      assert LogOk(s, x);
    }
  }

  /** Then only what concerns q and t has to be looked at again. */
  lemma Assemble(s: State, s': State, q: QpId, t: Tid)
    requires Inv(s) && OnlyAt(s, s', q, t) && LocalOk(s', q, t)
    ensures Inv(s')
  {
    OtherQps(s, s', q, t);
    OtherThreads(s, s', q, t);
    OtherLogs(s, s', q, t);
  }

  /** Everything Inv says around a live QP. */
  lemma AroundQp(s: State, q: QpId)
    requires Inv(s) && q in s.qps
    ensures QpOk(s, q) && LogOk(s, q)
    ensures forall u :: u in s.threads && s.threads[u].q == q ==> ThreadOk(s, u)
    ensures forall c :: c in s.installed && s.installed[c] == q ==> SockOk(s, c)
  {
    assert QpOk(s, q) && LogOk(s, q);
    forall u | u in s.threads && s.threads[u].q == q ensures ThreadOk(s, u) { assert ThreadOk(s, u); }
    forall c | c in s.installed && s.installed[c] == q ensures SockOk(s, c) { assert SockOk(s, c); }
  }

  lemma SynNewFrame(s: State, t: Tid, key: Key)
    requires Inv(s) && t !in s.threads && key !in s.tree
    ensures OnlyAt(s, SynNew(s, t, key), s.nextQp, t)
  {
    FreshQp(s);
  }

  lemma SynNewKeeps(s: State, t: Tid, key: Key)
    requires Inv(s) && t !in s.threads && key !in s.tree
    ensures Inv(SynNew(s, t, key))
  {
    FreshQp(s);
    SynNewFrame(s, t, key);
    Assemble(s, SynNew(s, t, key), s.nextQp, t);
  }

  lemma SynDropKeeps(s: State, t: Tid, key: Key)
    requires Inv(s) && t !in s.threads && key in s.tree
    ensures Inv(SynDrop(s, key))
  {
    FreshQp(s);
    Assemble(s, SynDrop(s, key), s.nextQp, t);
  }

  lemma SynMergeFrame(s: State, t: Tid, q: QpId)
    requires Inv(s) && t !in s.threads && q in s.qps
    ensures OnlyAt(s, SynMerge(s, t, q), q, t)
  {
    FreshQp(s);
  }

  lemma SynMergeLocal(s: State, t: Tid, q: QpId)
    requires Inv(s) && t !in s.threads && q in s.qps && InTree(s, q) && s.qps[q].tx == Null
    ensures LocalOk(SynMerge(s, t, q), q, t)
  {
    FreshQp(s);
    AroundQp(s, q);
  }

  lemma SynMergeKeeps(s: State, t: Tid, q: QpId)
    requires Inv(s) && t !in s.threads && q in s.qps && InTree(s, q) && s.qps[q].tx == Null
    ensures Inv(SynMerge(s, t, q))
  {
    FreshQp(s);
    SynMergeFrame(s, t, q);
    SynMergeLocal(s, t, q);
    Assemble(s, SynMerge(s, t, q), q, t);
  }

  predicate IsOf(x: Side, t: Tid) { (x.Trying? || x.Waits? || x.Relays? || x.Leaving?) && x.t == t }

  /** s' differs from s in q and the entry of t only, and in q at most in the side of t and in the lock,
      when that was open or held by t. */
  ghost predicate Update(s: State, s': State, q: QpId, t: Tid) {
    && t in s.threads && s.threads[t].q == q && q in s.qps && q in s'.qps
    && s' == s.(qps := s.qps[q := s'.qps[q]], threads := s'.threads) && s'.threads - {t} == s.threads - {t}
    && SideUpdate(s.qps[q], s'.qps[q], t)
  }

  predicate SideUpdate(v: Qp, v': Qp, t: Tid) {
    && v'.key == v.key && v'.tx == v.tx && v'.rx == v.rx && (Matched(v) ==> Matched(v'))
    && (v'.r != v.r ==> IsOf(v.r, t)) && (v'.l != v.l ==> IsOf(v.l, t))
    && (v'.lock != v.lock ==> v.lock == Open || v.lock == By(t))
  }

  lemma UpdateFrame(s: State, s': State, q: QpId, t: Tid)
    requires Inv(s) && Update(s, s', q, t)
    ensures OnlyAt(s, s', q, t)
  {
    FreshQp(s);
    forall u | u != t ensures (u in s.threads <==> u in s'.threads) && (u in s.threads ==> s'.threads[u] == s.threads[u]) {
      assert u in s.threads <==> u in s.threads - {t};
      assert u in s'.threads <==> u in s'.threads - {t};
    }
  }

  lemma UpdateThread(s: State, s': State, q: QpId, t: Tid, u: Tid)
    requires Inv(s) && Update(s, s', q, t) && u in s'.threads && u != t && s'.threads[u].q == q
    ensures ThreadOk(s', u)
  {
    assert u in s'.threads - {t};
    assert u in s.threads && s.threads[u] == s'.threads[u];
    assert ThreadOk(s, u);
  }

  lemma UpdateLocal(s: State, s': State, q: QpId, t: Tid)
    requires Inv(s) && Update(s, s', q, t) && QpOk(s', q) && (t in s'.threads ==> ThreadOk(s', t))
    ensures LocalOk(s', q, t)
  {
    AroundQp(s, q);
    forall u | u in s'.threads && u != t && s'.threads[u].q == q ensures ThreadOk(s', u) {
      UpdateThread(s, s', q, t, u);
    }
  }

  /** Then only q and t themselves have to be looked at again. */
  lemma UpdateKeeps(s: State, s': State, q: QpId, t: Tid)
    requires Inv(s) && Update(s, s', q, t) && QpOk(s', q) && (t in s'.threads ==> ThreadOk(s', t))
    ensures Inv(s')
  {
    UpdateLocal(s, s', q, t);
    UpdateFrame(s, s', q, t);
    Assemble(s, s', q, t);
  }

  lemma ConnectFailKeeps(s: State, t: Tid, q: QpId)
    requires Inv(s) && t in s.threads && s.threads[t] == Connecting(q) && q in s.qps
    ensures Inv(ConnectFail(s, t, q))
  {
    assert ThreadOk(s, t);
    assert QpOk(s, q);
    UpdateKeeps(s, ConnectFail(s, t, q), q, t);
  }

  lemma WaitDoneKeeps(s: State, t: Tid, q: QpId, d: Dir)
    requires Inv(s) && t in s.threads && s.threads[t] == Waiting(d, q) && q in s.qps
    requires s.qps[q].Get(d).Valid? && s.qps[q].Peer(d).Valid?
    ensures Inv(DoWaitDone(s, t, q, d))
  {
    assert ThreadOk(s, t);
    assert QpOk(s, q);
    UpdateKeeps(s, DoWaitDone(s, t, q, d), q, t);
  }
}
