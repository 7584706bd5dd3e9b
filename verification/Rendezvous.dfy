/**
 The meeting of the two halves of a split connection (tcpsplit/split.c and tcpsplit/qp.c) as a step
 relation over any number of threads.  L threads come from accept, R threads from a SYN probe.  Until
 it relays, a thread stays on the CPU of its key, so what it does there between two sleeping calls is
 one step: entering the tree; publishing the own socket, checking the peer and taking the reference;
 waking up from the wait.  A relay may run on any CPU (tcpsplit/split.c:415), and so may the put_qp
 after it: put_qp is three steps, taking the lock in the QP, dropping the reference, and unlocking.

 What the environment is assumed to do is in Enabled: a waiter's timeout does not fire while the
 connect of its peer is in flight, a second socket is not accepted for a key that has one, no signals
 arrive, and allocations succeed.
 */
module Rendezvous {

  /** What the per-CPU trees of a listener tell apart. */
  type Key = nat
  type QpId = nat
  type Sock = nat
  type Tid = nat

  datatype Field = Null | Err | Valid(sock: Sock)   // NULL, ERR_PTR(-EINVAL), a socket

  datatype Dir = TX | RX

  /** How far the thread of one side has got with a QP.  Records history; no step reads it. */
  datatype Side =
    | Absent
    | Trying(t: Tid)    // R: connect in flight
    | GaveUp            // R: connect failed
    | Dropped           // R: found that it is a duplicate; its QP is left behind
    | Waits(t: Tid)
    | Relays(t: Tid)
    | Leaving(t: Tid)   // in put_qp, the reference not dropped yet
    | Left

  datatype Lock = Open | By(t: Tid)   // qp->lock

  datatype Qp = Qp(key: Key, tx: Field, rx: Field, refCnt: nat, lock: Lock, r: Side, l: Side) {
    function Get(d: Dir): Field { if d == TX then tx else rx }
    function Peer(d: Dir): Field { if d == TX then rx else tx }
    function Of(d: Dir): Side { if d == TX then r else l }
    function With(d: Dir, x: Side): Qp { if d == TX then this.(r := x) else this.(l := x) }
  }

  datatype Thread =
    | Connecting(q: QpId)
    | Waiting(d: Dir, q: QpId)
    | Relaying(d: Dir, q: QpId, src: Sock, dst: Sock)
    | Putting(d: Dir, q: QpId)                // put_qp, before spin_lock_irqsave
    | Locked(d: Dir, q: QpId)                 // before atomic_dec_return
    | Unlocking(d: Dir, q: QpId, rc: nat)     // before spin_unlock_irqrestore

  datatype State = State(
    qps: map<QpId, Qp>,              // allocated and not freed
    tree: map<Key, QpId>,
    threads: map<Tid, Thread>,
    nextQp: QpId,                    // addresses and sockets are never reused
    nextSock: Sock,
    installed: map<Sock, QpId>,      // which QP each published socket went into
    released: multiset<Sock>,        // sock_release calls on published sockets
    freed: multiset<QpId>,           // kmem_cache_free calls
    entered: multiset<QpId>,         // insertions into a tree
    erased: multiset<QpId>)          // rb_erase calls

  datatype Event =
    | Syn(t: Tid, key: Key)          // start_new_connection_syn up to the connect
    | ConnectFails(t: Tid)
    | ConnectWorks(t: Tid)           // publish tx, check peer, take reference
    | Accept(t: Tid, key: Key)       // start_new_connection from qp_exists on
    | Timeout(t: Tid)                // wait_event returns 0: leave the tree, call put_qp
    | WaitDone(t: Tid)               // wait_event returns because the condition holds
    | RelayEnds(t: Tid)              // half_duplex meets an error or the end of the stream, and calls put_qp
    | PutLock(t: Tid)                // put_qp takes qp->lock
    | PutDrop(t: Tid)                // drops the reference; the last one releases the sockets and frees the QP
    | PutUnlock(t: Tid)              // releases qp->lock

  // ---------------------------------------------------------------- qp.c

  function SetQp(s: State, q: QpId, v: Qp): State { s.(qps := s.qps[q := v]) }

  /** de_tree_qp */
  function DeTree(s: State, q: QpId): State
    requires q in s.qps
  {
    s.(tree := s.tree - {s.qps[q].key}, erased := s.erased + multiset{q})
  }

  /** get_qp: the second reference takes the QP out of the tree. */
  function GetQp(s: State, q: QpId): State
    requires q in s.qps
  {
    var v := s.qps[q].(refCnt := s.qps[q].refCnt + 1);
    if v.refCnt == 2 then DeTree(SetQp(s, q, v), q) else SetQp(s, q, v)
  }

  function Socks(f: Field): multiset<Sock> { if f.Valid? then multiset{f.sock} else multiset{} }

  /** put_qp under the lock: the last reference releases the sockets and frees the QP. */
  function DropQp(s: State, q: QpId): State
    requires q in s.qps && s.qps[q].refCnt > 0
  {
    var v := s.qps[q].(refCnt := s.qps[q].refCnt - 1);
    if v.refCnt == 0 then
      s.(qps := s.qps - {q}, released := s.released + Socks(v.tx) + Socks(v.rx), freed := s.freed + multiset{q})
    else SetQp(s, q, v)
  }

  /** wait_qp_ready by the thread t of side d, whose socket is in the QP. */
  function WaitQpReady(s: State, q: QpId, d: Dir, t: Tid): State
    requires q in s.qps && s.qps[q].Get(d).Valid?
  {
    var v := s.qps[q];
    if !v.Peer(d).Valid? then
      GetQp(SetQp(s, q, v.With(d, Waits(t))), q).(threads := s.threads[t := Waiting(d, q)])
    else
      GetQp(SetQp(s, q, v.With(d, Relays(t))), q)
        .(threads := s.threads[t := Relaying(d, q, v.Get(d).sock, v.Peer(d).sock)])
  }

  // ---------------------------------------------------------------- the steps

  ghost predicate Enabled(s: State, ev: Event) {
    match ev
    case Syn(t, _) => t !in s.threads
    case ConnectFails(t) => t in s.threads && s.threads[t].Connecting?
    case ConnectWorks(t) => t in s.threads && s.threads[t].Connecting?
    case Accept(t, key) =>
      && t !in s.threads
      && (key in s.tree && s.tree[key] in s.qps ==> s.qps[s.tree[key]].rx == Null)
    case Timeout(t) =>
      && t in s.threads && s.threads[t].Waiting?
      && (s.threads[t].q in s.qps ==> !s.qps[s.threads[t].q].Peer(s.threads[t].d).Valid?)
      && (forall u :: u in s.threads ==> s.threads[u] != Connecting(s.threads[t].q))
    case WaitDone(t) =>
      && t in s.threads && s.threads[t].Waiting?
      && (s.threads[t].q in s.qps ==> s.qps[s.threads[t].q].Peer(s.threads[t].d).Valid?)
    case RelayEnds(t) => t in s.threads && s.threads[t].Relaying?
    case PutLock(t) =>
      && t in s.threads && s.threads[t].Putting?
      && (s.threads[t].q in s.qps ==> s.qps[s.threads[t].q].lock == Open)
    case PutDrop(t) => t in s.threads && s.threads[t].Locked?
    case PutUnlock(t) => t in s.threads && s.threads[t].Unlocking?
  }

  /** The QP objects that a step may read or write: those it holds a pointer to, and for a step that
      works on the tree all that are linked in it. */
  ghost function Touched(s: State, ev: Event): set<QpId>
    requires Enabled(s, ev)
  {
    match ev
    case Syn(_, _) => s.tree.Values
    case Accept(_, _) => s.tree.Values
    case ConnectWorks(t) => s.tree.Values + {s.threads[t].q}
    case Timeout(t) => s.tree.Values + {s.threads[t].q}
    case _ => {s.threads[ev.t].q}
  }

  /** Where the step is defined: no QP is touched after it was freed except by the unlocking of one, no
      reference is dropped that was not taken, and no node is erased that is not linked. */
  ghost predicate Sound(s: State, ev: Event) {
    && Enabled(s, ev)
    && (!ev.PutUnlock? ==> Touched(s, ev) <= s.qps.Keys)
    && (ev.PutUnlock? ==> s.threads[ev.t].rc == 0 || s.threads[ev.t].q in s.qps)
    && (ev.Syn? && ev.key in s.tree ==> s.tree[ev.key] in s.qps)
    && (ev.Timeout? ==>
          var q := s.threads[ev.t].q;
          s.qps[q].refCnt > 0 && s.qps[q].key in s.tree && s.tree[s.qps[q].key] == q)
    && (ev.PutDrop? ==> s.qps[s.threads[ev.t].q].refCnt > 0)
    && (ev.WaitDone? ==> var th := s.threads[ev.t]; s.qps[th.q].Get(th.d).Valid?)
    && (ev.ConnectWorks? ==>
          var q := s.threads[ev.t].q;
          s.qps[q].refCnt == 1 ==> s.qps[q].key in s.tree && s.tree[s.qps[q].key] == q)
    && (ev.Accept? && ev.key in s.tree ==>
          s.tree[ev.key] in s.qps && s.qps[s.tree[ev.key]].key == ev.key)
  }

  /** A SYN for a key nobody has: the new QP enters the tree. */
  function SynNew(s: State, t: Tid, key: Key): State {
    SetQp(s, s.nextQp, Qp(key, Err, Null, 0, Open, Trying(t), Absent))
      .(nextQp := s.nextQp + 1, tree := s.tree[key := s.nextQp], entered := s.entered + multiset{s.nextQp},
        threads := s.threads[t := Connecting(s.nextQp)])
  }

  /** A SYN that meets the QP of a waiting L thread: that QP is used, the new one freed. */
  function SynMerge(s: State, t: Tid, q: QpId): State
    requires q in s.qps
  {
    SetQp(s, q, s.qps[q].(tx := Err, r := Trying(t)))
      .(nextQp := s.nextQp + 1, threads := s.threads[t := Connecting(q)], freed := s.freed + multiset{s.nextQp})
  }

  /** A SYN whose key has an R side already: the thread returns and its QP is neither linked nor freed. */
  function SynDrop(s: State, key: Key): State {
    SetQp(s, s.nextQp, Qp(key, Err, Null, 0, Open, Dropped, Absent)).(nextQp := s.nextQp + 1)
  }

  function ConnectFail(s: State, t: Tid, q: QpId): State
    requires q in s.qps
  {
    SetQp(s, q, s.qps[q].(r := GaveUp)).(threads := s.threads - {t})
  }

  /** Publish a connected or accepted socket c of side d. */
  function Publish(s: State, q: QpId, d: Dir, c: Sock): State
    requires q in s.qps
  {
    SetQp(s, q, if d == TX then s.qps[q].(tx := Valid(c)) else s.qps[q].(rx := Valid(c)))
      .(nextSock := c + 1, installed := s.installed[c := q])
  }

  /** An accepted socket for a key nobody has: its QP enters the tree. */
  function AcceptNew(s: State, key: Key): State {
    SetQp(s, s.nextQp, Qp(key, Null, Null, 0, Open, Absent, Absent))
      .(nextQp := s.nextQp + 1, tree := s.tree[key := s.nextQp], entered := s.entered + multiset{s.nextQp})
  }

  /** An accepted socket that meets the QP of an R thread: that QP is used, the new one freed. */
  function AcceptMerge(s: State): State {
    s.(nextQp := s.nextQp + 1, freed := s.freed + multiset{s.nextQp})
  }

  /** A waiter gives up: it takes the QP out of the tree and calls put_qp. */
  function DoTimeout(s: State, t: Tid, q: QpId, d: Dir): State
    requires q in s.qps
  {
    CallPut(DeTree(s, q), t, q, d)
  }

  function DoWaitDone(s: State, t: Tid, q: QpId, d: Dir): State
    requires q in s.qps && s.qps[q].Get(d).Valid? && s.qps[q].Peer(d).Valid?
  {
    var v := s.qps[q];
    SetQp(s, q, v.With(d, Relays(t)))
      .(threads := s.threads[t := Relaying(d, q, v.Get(d).sock, v.Peer(d).sock)])
  }

  /** The thread t of side d enters put_qp. */
  function CallPut(s: State, t: Tid, q: QpId, d: Dir): State
    requires q in s.qps
  {
    SetQp(s, q, s.qps[q].With(d, Leaving(t))).(threads := s.threads[t := Putting(d, q)])
  }

  function DoLock(s: State, t: Tid, q: QpId, d: Dir): State
    requires q in s.qps
  {
    SetQp(s, q, s.qps[q].(lock := By(t))).(threads := s.threads[t := Locked(d, q)])
  }

  function DoDrop(s: State, t: Tid, q: QpId, d: Dir): State
    requires q in s.qps && s.qps[q].refCnt > 0
  {
    DropQp(SetQp(s, q, s.qps[q].With(d, Left)), q).(threads := s.threads[t := Unlocking(d, q, s.qps[q].refCnt - 1)])
  }

  /** spin_unlock_irqrestore: when the QP has been freed, what it writes is no QP any more. */
  function DoUnlock(s: State, t: Tid, q: QpId): State {
    var s' := if q in s.qps then SetQp(s, q, s.qps[q].(lock := Open)) else s;
    s'.(threads := s.threads - {t})
  }

  ghost function Next(s: State, ev: Event): State
    requires Sound(s, ev)
  {
    match ev
    case Syn(t, key) =>
      if key !in s.tree then SynNew(s, t, key)
      else if s.qps[s.tree[key]].tx != Null then SynDrop(s, key)
      else SynMerge(s, t, s.tree[key])
    case ConnectFails(t) => ConnectFail(s, t, s.threads[t].q)
    case ConnectWorks(t) =>
      var q := s.threads[t].q;
      WaitQpReady(Publish(s, q, TX, s.nextSock), q, TX, t)
    case Accept(t, key) =>
      if key in s.tree then WaitQpReady(Publish(AcceptMerge(s), s.tree[key], RX, s.nextSock), s.tree[key], RX, t)
      else WaitQpReady(Publish(AcceptNew(s, key), s.nextQp, RX, s.nextSock), s.nextQp, RX, t)
    case Timeout(t) => DoTimeout(s, t, s.threads[t].q, s.threads[t].d)
    case WaitDone(t) => DoWaitDone(s, t, s.threads[t].q, s.threads[t].d)
    case RelayEnds(t) => CallPut(s, t, s.threads[t].q, s.threads[t].d)
    case PutLock(t) => DoLock(s, t, s.threads[t].q, s.threads[t].d)
    case PutDrop(t) => DoDrop(s, t, s.threads[t].q, s.threads[t].d)
    case PutUnlock(t) => DoUnlock(s, t, s.threads[t].q)
  }

  // ---------------------------------------------------------------- the invariant

  predicate Refs(x: Side) { x.Waits? || x.Relays? || x.Leaving? }
  predicate Arrived(x: Side) { x.Waits? || x.Relays? || x.Leaving? || x.Left? }
  function Count(x: Side): nat { if Refs(x) then 1 else 0 }

  /** Both sides have come: the count has reached 2. */
  predicate Matched(v: Qp) { Arrived(v.r) && Arrived(v.l) }

  /** Its waiter has given up before the other side came. */
  predicate GivenUp(v: Qp) { !Matched(v) && (v.r.Leaving? || v.l.Leaving?) }

  ghost predicate InTree(s: State, q: QpId)
    requires q in s.qps
  {
    s.qps[q].key in s.tree && s.tree[s.qps[q].key] == q
  }

  /** The thread recorded for side d of q is there and where the record says. */
  ghost predicate Attached(s: State, q: QpId, d: Dir, x: Side) {
    match x
    case Trying(t) => t in s.threads && s.threads[t] == Connecting(q)
    case Waits(t) => t in s.threads && s.threads[t] == Waiting(d, q)
    case Relays(t) => t in s.threads && s.threads[t].Relaying? && s.threads[t].q == q && s.threads[t].d == d
    case Leaving(t) => t in s.threads && (s.threads[t] == Putting(d, q) || s.threads[t] == Locked(d, q))
    case _ => true
  }

  /** The fields of a QP fit how far its two sides have got. */
  predicate Consistent(v: Qp) {
    && v.refCnt == Count(v.r) + Count(v.l)
    && (v.tx == Null <==> v.r == Absent)
    && (v.tx == Err <==> v.r.Trying? || v.r == GaveUp || v.r == Dropped)
    && (v.rx == Null <==> v.l == Absent) && v.rx != Err
    && !v.l.Trying? && v.l != GaveUp && v.l != Dropped
    && (v.r == Dropped ==> v.l == Absent)
    && (GivenUp(v) ==> !v.r.Trying?)
    && (Matched(v) ==> v.refCnt > 0 && !(v.r.Waits? && v.l.Waits?))
    && (!Matched(v) ==> !v.r.Left? && !v.l.Left? && !v.r.Relays? && !v.l.Relays?)
    && (v.r == Absent ==> v.l.Waits? || v.l.Leaving?)
    && (v.tx.Valid? && v.rx.Valid? ==> v.tx.sock != v.rx.sock)
  }

  /** It is linked in the tree as long as the other side may still come. */
  predicate Expects(v: Qp) { v.r != Dropped && !Matched(v) && !GivenUp(v) }

  /** The holder of the lock is inside put_qp for q. */
  ghost predicate LockOk(s: State, q: QpId, lock: Lock) {
    lock.By? ==> lock.t in s.threads && s.threads[lock.t].q == q && (s.threads[lock.t].Locked? || s.threads[lock.t].Unlocking?)
  }

  ghost predicate Installed(s: State, q: QpId, f: Field) { f.Valid? ==> f.sock in s.installed && s.installed[f.sock] == q }

  ghost predicate QpOk(s: State, q: QpId)
    requires q in s.qps
  {
    var v := s.qps[q];
    && q < s.nextQp && Consistent(v)
    && s.entered[q] == (if v.r == Dropped then 0 else 1)
    && (InTree(s, q) <==> Expects(v))
    && LockOk(s, q, v.lock)
    && Attached(s, q, TX, v.r) && Attached(s, q, RX, v.l)
    && Installed(s, q, v.tx) && Installed(s, q, v.rx)
  }

  ghost predicate ThreadOk(s: State, t: Tid)
    requires t in s.threads
  {
    match s.threads[t]
    case Connecting(q) => q in s.qps && s.qps[q].r == Trying(t)
    case Waiting(d, q) => q in s.qps && s.qps[q].Of(d) == Waits(t)
    case Relaying(d, q, src, dst) =>
      && q in s.qps && s.qps[q].Of(d) == Relays(t) && Matched(s.qps[q])
      && s.qps[q].Get(d) == Valid(src) && s.qps[q].Peer(d) == Valid(dst)
    case Putting(d, q) => q in s.qps && s.qps[q].Of(d) == Leaving(t)
    case Locked(d, q) => q in s.qps && s.qps[q].Of(d) == Leaving(t) && s.qps[q].lock == By(t)
    case Unlocking(d, q, rc) =>
      if rc == 0 then q < s.nextQp && q !in s.qps
      else q in s.qps && s.qps[q].Of(d) == Left && s.qps[q].lock == By(t)
  }

  ghost predicate SockOk(s: State, c: Sock)
    requires c in s.installed
  {
    var q := s.installed[c];
    && c < s.nextSock && q < s.nextQp
    && s.released[c] == (if q in s.qps then 0 else 1)
    && (q in s.qps ==> s.qps[q].tx == Valid(c) || s.qps[q].rx == Valid(c))
  }

  ghost predicate Linked(s: State, q: QpId) { q in s.qps && InTree(s, q) }

  /** Freed once or still allocated; inserted at most once; erased once unless still linked. */
  ghost predicate LogOk(s: State, q: QpId) {
    && s.freed[q] == (if q < s.nextQp && q !in s.qps then 1 else 0)
    && s.entered[q] <= (if q < s.nextQp then 1 else 0)
    && s.erased[q] + (if Linked(s, q) then 1 else 0) == s.entered[q]
  }

  ghost predicate Inv(s: State) {
    && (forall q {:trigger QpOk(s, q)} :: q in s.qps ==> QpOk(s, q))
    && (forall t {:trigger ThreadOk(s, t)} :: t in s.threads ==> ThreadOk(s, t))
    && (forall k :: k in s.tree ==> s.tree[k] in s.qps && s.qps[s.tree[k]].key == k)
    && (forall c {:trigger SockOk(s, c)} :: c in s.installed ==> SockOk(s, c))
    && (forall q: QpId {:trigger LogOk(s, q)} :: LogOk(s, q))
    && (forall c: Sock :: c !in s.installed ==> s.released[c] == 0)
  }

  // ---------------------------------------------------------------- every step keeps it

  /** No step of a reachable state touches a freed QP, drops a reference that was not taken, or erases
      a node that is not linked. */
  lemma EnabledIsSound(s: State, ev: Event)
    requires Inv(s) && Enabled(s, ev)
    ensures Sound(s, ev)
  {
    if ev.Syn? || ev.Accept? {
    } else {
      assert ThreadOk(s, ev.t);
      if s.threads[ev.t].q in s.qps {
        assert QpOk(s, s.threads[ev.t].q);
      }
    }
  }
}
