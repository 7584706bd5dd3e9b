/**
 The pool of connections opened in advance to one next hop (tcpsplit/conn_pool.c): the per-CPU list with
 its length, the round of refills, and how far the list of a CPU can grow.
 */
module PreconnPool {

  const PER_CORE_POOL_MIN: nat := 4
  const PER_CORE_POOL_MAX: nat := 16

  const U32: nat := 0x1_0000_0000

  type QpId = nat

  /** int len = pcpl->len, from a uint32_t */
  function AsInt(len: nat): int { if len < U32 / 2 then len else len - U32 }

  /** len++ and len-- on a uint32_t */
  function Inc(len: nat): nat { (len + 1) % U32 }
  function Dec(len: nat): nat { (len + U32 - 1) % U32 }

  lemma IncIs(n: nat)
    ensures Inc(n % U32) == (n + 1) % U32
  {
  }

  lemma DecIs(n: nat)
    requires n > 0
    ensures Dec(n % U32) == (n - 1) % U32
  {
  }

  lemma SmallLen(n: nat)
    requires n < U32
    ensures n % U32 == n
  {
  }

  // ---------------------------------------------------------------- the list of a CPU

  /** struct percpu_list */
  class PercpuList {
    var list: seq<QpId>
    var len: nat

    ghost predicate Valid()
      reads this
    {
      len == |list| % U32
    }

    /** init_preconn */
    constructor ()
      ensures Valid() && list == []
    {
      list, len := [], 0;
    }

    /** add_preconn_qp */
    method AddPreconnQp(qp: QpId)
      requires Valid()
      modifies this
      ensures Valid() && list == [qp] + old(list)
    {
      IncIs(|list|);
      list := [qp] + list;
      len := Inc(len);
    }

    /** alloc_prexeisting_conn, once the record has been found */
    method AllocExisting() returns (qp: QpId, found: bool)
      requires Valid()
      modifies this
      ensures Valid() && found == (old(list) != [])
      ensures if found then old(list) == [qp] + list else list == old(list)
    {
      qp := 0;
      found := list != [];
      if found {
        DecIs(|list|);
        qp := list[0];
        len := Dec(len);
        list := list[1..];
      }
    }
  }

  /** How many connections a round opens on a CPU, by the length it reads there. */
  function Opens(len: int): nat { if len < PER_CORE_POOL_MAX then PER_CORE_POOL_MIN else 0 }

  /** prealloc_connection_pool on an undisturbed pool: the CPUs for which it starts prealloc_connection, one
      entry for each.  found tells whether the record of the next hop exists. */
  method PreallocConnectionPool(pcpls: seq<PercpuList>, found: bool) returns (runs: seq<nat>)
    requires forall c :: 0 <= c < |pcpls| ==> pcpls[c].Valid()
    ensures forall c :: 0 <= c < |pcpls| ==>
              multiset(runs)[c] == if found && 16 <= |pcpls[c].list| % 0x1_0000_0000 < 0x8000_0000 then 0 else 4
    ensures forall c :: c in runs ==> c < |pcpls|
  {
    runs := [];
    var cpu := 0;
    while cpu < |pcpls|
      invariant 0 <= cpu <= |pcpls|
      invariant forall c :: 0 <= c < cpu ==> multiset(runs)[c] == Opens(if found then AsInt(|pcpls[c].list| % U32) else 0)
      invariant forall c :: c in runs ==> c < cpu
    {
      assert cpu !in runs;
      assert multiset(runs)[cpu] == 0;
      var i, len := 0, 0;
      if found {
        len := AsInt(pcpls[cpu].len);
      }
      ghost var before := runs;
      if len < PER_CORE_POOL_MAX {
        while i < PER_CORE_POOL_MIN
          invariant 0 <= i <= PER_CORE_POOL_MIN
          invariant forall c :: c != cpu ==> multiset(runs)[c] == multiset(before)[c]
          invariant multiset(runs)[cpu] == i
          invariant forall c :: c in runs ==> c <= cpu
        {
          runs := runs + [cpu];
          i := i + 1;
        }
      }
      cpu := cpu + 1;
    }
  }

  // ---------------------------------------------------------------- rounds, connects and users together

  /** A round as one CPU sees it: still going to read the length there; having decided to open
      connections, of which `left` have still to be started and `running` are being connected; or over. */
  datatype Round = Looking | Opening(left: nat, running: nat) | Over

  /** The pool of one CPU.  record: the next hop has its record, whichever CPU made it.  root: how often
      the tree of records has got another root.  A search that reads the root pointer before such a change
      and takes the lock after it can miss a record that is there (PreconnTree.SeenFrom, StaleRootMisses);
      a round then works with length 0. */
  datatype State = State(record: bool, list: seq<QpId>, len: nat, rounds: seq<Round>, root: nat)

  datatype Event =
    | Search(root: nat, missed: bool)     // a round begins: search_rb_preconn from the root it read
    | ReadLen(r: nat)                     // it reads the length of this CPU
    | Start(r: nat)                       // kthread_pool_run_cpu of one prealloc_connection
    | Connected(r: nat, qp: QpId)         // which ends in add_preconn_qp
    | ConnectFailed(r: nat)               // or not
    | RecordMade                          // another CPU adds the first connection
    | RootReplaced                        // an insertion gives the tree another root
    | Take(root: nat, missed: bool)       // alloc_prexeisting_conn, whose search may miss the record, too

  /** What a search that read the given root pointer may do: it misses the record only if the root is
      another one by now. */
  predicate MayEnd(s: State, root: nat, missed: bool) {
    root <= s.root && (missed ==> s.record && root < s.root)
  }

  ghost predicate Enabled(s: State, e: Event) {
    match e
    case Search(root, missed) => MayEnd(s, root, missed)
    case ReadLen(r) => r < |s.rounds| && s.rounds[r].Looking?
    case Start(r) => r < |s.rounds| && s.rounds[r].Opening? && s.rounds[r].left > 0
    case Connected(r, qp) => r < |s.rounds| && s.rounds[r].Opening? && s.rounds[r].running > 0
    case ConnectFailed(r) => r < |s.rounds| && s.rounds[r].Opening? && s.rounds[r].running > 0
    case RecordMade => true
    case RootReplaced => true
    case Take(root, missed) => MayEnd(s, root, missed)
  }

  /** A round none of whose connects is left is over. */
  function Settle(left: nat, running: nat): Round { if left == 0 && running == 0 then Over else Opening(left, running) }

  function Decide(len: int): Round { Settle(Opens(len), 0) }

  function Next(s: State, e: Event): State
    requires Enabled(s, e)
  {
    match e
    case Search(_, missed) => s.(rounds := s.rounds + [if s.record && !missed then Looking else Decide(0)])
    case ReadLen(r) => s.(rounds := s.rounds[r := Decide(AsInt(s.len))])
    case Start(r) => s.(rounds := s.rounds[r := Opening(s.rounds[r].left - 1, s.rounds[r].running + 1)])
    case Connected(r, qp) =>
      State(true, [qp] + s.list, Inc(s.len), s.rounds[r := Settle(s.rounds[r].left, s.rounds[r].running - 1)], s.root)
    case ConnectFailed(r) => s.(rounds := s.rounds[r := Settle(s.rounds[r].left, s.rounds[r].running - 1)])
    case RecordMade => s.(record := true)
    case RootReplaced => s.(root := s.root + 1)
    case Take(_, missed) =>
      if missed || s.list == [] then s else s.(list := s.list[1..], len := Dec(s.len))
  }

  /** Connects started and not ended, and those that rounds are about to start. */
  function Outstanding(rs: seq<Round>): nat {
    var n := |rs|;
    if n == 0 then 0
    else Outstanding(rs[..n - 1]) + if rs[n - 1].Opening? then rs[n - 1].left + rs[n - 1].running else 0
  }

  /** Rounds that have decided to open connections here and are not over. */
  function Unfinished(rs: seq<Round>): nat {
    var n := |rs|;
    if n == 0 then 0 else Unfinished(rs[..n - 1]) + if rs[n - 1].Opening? then 1 else 0
  }

  function Share(r: Round): nat { if r.Opening? then r.left + r.running else 0 }

  ghost predicate RoundOk(r: Round) { r.Opening? ==> 0 < Share(r) <= PER_CORE_POOL_MIN }

  ghost predicate RoundsOk(rs: seq<Round>) { forall r :: 0 <= r < |rs| ==> RoundOk(rs[r]) }

  /** What list and outstanding connects may come to, with k unfinished rounds and m missed records */
  function Bound(k: nat, m: nat): nat { PER_CORE_POOL_MAX - 1 + PER_CORE_POOL_MIN * k + PER_CORE_POOL_MIN * m }

  ghost predicate Inv(s: State, bound: nat) {
    && s.len == |s.list| % U32
    && (!s.record ==> s.list == [])
    && RoundsOk(s.rounds)
    && |s.list| + Outstanding(s.rounds) <= bound
  }

  lemma {:induction false} Replaced(rs: seq<Round>, r: nat, x: Round)
    requires r < |rs|
    ensures Outstanding(rs[r := x]) == Outstanding(rs) - Share(rs[r]) + Share(x)
    ensures Unfinished(rs[r := x]) == Unfinished(rs) - (if rs[r].Opening? then 1 else 0) + if x.Opening? then 1 else 0
  {
    var n := |rs| - 1;
    if r == n {
      assert rs[r := x][..n] == rs[..n];
    } else {
      assert rs[r := x][..n] == rs[..n][r := x];
      Replaced(rs[..n], r, x);
    }
  }

  lemma {:induction false} FourEach(rs: seq<Round>)
    requires RoundsOk(rs)
    ensures Outstanding(rs) <= PER_CORE_POOL_MIN * Unfinished(rs)
  {
    if rs != [] {
      FourEach(rs[..|rs| - 1]);
      assert RoundOk(rs[|rs| - 1]);
    }
  }

  /** The rounds after one of them has changed, as far as the bound is concerned. */
  lemma RoundChanged(s: State, r: nat, x: Round, bound: nat)
    requires Inv(s, bound) && r < |s.rounds| && RoundOk(x)
    ensures RoundsOk(s.rounds[r := x])
    ensures Outstanding(s.rounds[r := x]) == Outstanding(s.rounds) - Share(s.rounds[r]) + Share(x)
    ensures Outstanding(s.rounds[r := x]) <= PER_CORE_POOL_MIN * Unfinished(s.rounds[r := x])
  {
    Replaced(s.rounds, r, x);
    FourEach(s.rounds[r := x]);
  }

  /** A round that finds the record, or rightly finds none, keeps the bound. */
  lemma SearchKeeps(s: State, root: nat, k: nat, m: nat)
    requires Inv(s, Bound(k, m)) && Enabled(s, Search(root, false)) && Unfinished(Next(s, Search(root, false)).rounds) <= k
    ensures Inv(Next(s, Search(root, false)), Bound(k, m))
  {
    var s' := Next(s, Search(root, false));
    assert s'.rounds[..|s.rounds|] == s.rounds;
    FourEach(s'.rounds);
  }

  /** A round that misses the record keeps the bound exactly if there is room for its four connects. */
  lemma MissKeepsIff(s: State, root: nat, bound: nat)
    requires Inv(s, bound) && Enabled(s, Search(root, true))
    ensures Inv(Next(s, Search(root, true)), bound) <==> |s.list| + Outstanding(s.rounds) + 4 <= bound
    ensures Inv(Next(s, Search(root, true)), bound + 4)
  {
    var s' := Next(s, Search(root, true));
    assert s'.rounds[..|s.rounds|] == s.rounds;
  }

  /** Where a round decides by the length to open connections, the list is shorter than 16. */
  lemma ReadLenKeeps(s: State, r: nat, k: nat, m: nat)
    requires Inv(s, Bound(k, m)) && Enabled(s, ReadLen(r)) && Unfinished(Next(s, ReadLen(r)).rounds) <= k
    requires Bound(k, m) < U32 / 2
    ensures Inv(Next(s, ReadLen(r)), Bound(k, m))
  {
    SmallLen(|s.list|);
    RoundChanged(s, r, Decide(AsInt(s.len)), Bound(k, m));
  }

  lemma ConnectEndKeeps(s: State, r: nat, bound: nat)
    requires Inv(s, bound) && r < |s.rounds| && s.rounds[r].Opening? && s.rounds[r].running > 0
    ensures var x := Settle(s.rounds[r].left, s.rounds[r].running - 1);
            && RoundsOk(s.rounds[r := x])
            && Outstanding(s.rounds[r := x]) == Outstanding(s.rounds) - 1
  {
    assert RoundOk(s.rounds[r]);
    RoundChanged(s, r, Settle(s.rounds[r].left, s.rounds[r].running - 1), bound);
  }

  lemma ConnectedKeeps(s: State, r: nat, qp: QpId, bound: nat)
    requires Inv(s, bound) && Enabled(s, Connected(r, qp))
    ensures Inv(Next(s, Connected(r, qp)), bound)
  {
    ConnectEndKeeps(s, r, bound);
    IncIs(|s.list|);
  }

  lemma TakeKeeps(s: State, root: nat, missed: bool, bound: nat)
    requires Inv(s, bound) && Enabled(s, Take(root, missed))
    ensures Inv(Next(s, Take(root, missed)), bound)
  {
    if s.list != [] {
      DecIs(|s.list|);
    }
  }

  lemma StartKeeps(s: State, r: nat, bound: nat)
    requires Inv(s, bound) && Enabled(s, Start(r))
    ensures Inv(Next(s, Start(r)), bound)
  {
    assert RoundOk(s.rounds[r]);
    RoundChanged(s, r, Opening(s.rounds[r].left - 1, s.rounds[r].running + 1), bound);
  }

  function Misses(e: Event): nat { if e.Search? && e.missed then 1 else 0 }

  /** One step, when it leaves at most k rounds unfinished. */
  lemma StepKeeps(s: State, e: Event, k: nat, m: nat)
    requires Inv(s, Bound(k, m)) && Enabled(s, e) && Unfinished(Next(s, e).rounds) <= k
    requires Bound(k, m) < U32 / 2
    ensures Inv(Next(s, e), Bound(k, m + Misses(e)))
  {
    match e
    case Search(root, missed) =>
      if missed {
        MissKeepsIff(s, root, Bound(k, m));
      } else {
        SearchKeeps(s, root, k, m);
      }
    case ReadLen(r) => ReadLenKeeps(s, r, k, m);
    case Start(r) => StartKeeps(s, r, Bound(k, m));
    case Connected(r, qp) => ConnectedKeeps(s, r, qp, Bound(k, m));
    case ConnectFailed(r) => ConnectEndKeeps(s, r, Bound(k, m));
    case RecordMade =>
    case RootReplaced =>
    case Take(root, missed) => TakeKeeps(s, root, missed, Bound(k, m));
  }

  ghost predicate IsRun(tr: seq<State>, es: seq<Event>) {
    && |tr| == |es| + 1 && tr[0] == State(false, [], 0, [], 0)
    && forall i {:trigger Follows(tr[i], es[i], tr[i + 1])} :: 0 <= i < |es| ==> Follows(tr[i], es[i], tr[i + 1])
  }

  ghost predicate Follows(s: State, e: Event, s': State) { Enabled(s, e) && s' == Next(s, e) }

  lemma StepAt(tr: seq<State>, es: seq<Event>, i: nat)
    requires IsRun(tr, es) && i < |es|
    ensures Follows(tr[i], es[i], tr[i + 1])
  {
  }

  lemma OneLonger(tr: seq<State>, es: seq<Event>, e: Event, s': State)
    requires IsRun(tr, es) && Follows(tr[|es|], e, s')
    ensures IsRun(tr + [s'], es + [e])
  {
    var tr', es' := tr + [s'], es + [e];
    forall i | 0 <= i < |es'| ensures Follows(tr'[i], es'[i], tr'[i + 1]) {
      if i < |es| {
        StepAt(tr, es, i);
        assert tr'[i] == tr[i] && es'[i] == es[i] && tr'[i + 1] == tr[i + 1];
      }
    }
  }

  /** How many searches of a run miss the record. */
  function Missed(es: seq<Event>): nat {
    var n := |es|;
    if n == 0 then 0 else Missed(es[..n - 1]) + Misses(es[n - 1])
  }

  lemma {:induction false} MissedPart(es: seq<Event>, n: nat)
    requires n <= |es|
    ensures Missed(es[..n]) <= Missed(es)
    decreases |es|
  {
    if n < |es| {
      assert es[..|es| - 1][..n] == es[..n];
      MissedPart(es[..|es| - 1], n);
    } else {
      assert es[..n] == es;
    }
  }

  /** Over every run in which at most k rounds are unfinished for the CPU at any time, its list together
      with its outstanding connects never exceeds 15 + 4k and another 4 for every search so far that has
      missed the record; and the stored length is the length. */
  lemma {:induction false} PoolBound(tr: seq<State>, es: seq<Event>, k: nat, n: nat)
    requires IsRun(tr, es) && n < |tr| && Few(tr, k) && 15 + 4 * k + 4 * Missed(es) < U32 / 2
    ensures Inv(tr[n], Bound(k, Missed(es[..n]))) && tr[n].len == |tr[n].list|
    ensures |tr[n].list| + Outstanding(tr[n].rounds) <= 15 + 4 * k + 4 * Missed(es[..n])
  {
    MissedPart(es, n);
    if n > 0 {
      PoolBound(tr, es, k, n - 1);
      MissedPart(es, n - 1);
      StepAt(tr, es, n - 1);
      assert es[..n][..n - 1] == es[..n - 1];
      StepKeeps(tr[n - 1], es[n - 1], k, Missed(es[..n - 1]));
      assert Missed(es[..n]) == Missed(es[..n - 1]) + Misses(es[n - 1]);
    }
    SmallLen(|tr[n].list|);
  }

  lemma {:induction false} RootCounts(tr: seq<State>, es: seq<Event>, n: nat)
    requires IsRun(tr, es) && n < |tr| && forall i :: 0 <= i < n ==> es[i] != RootReplaced
    ensures tr[n].root == 0 && Missed(es[..n]) == 0
  {
    if n > 0 {
      RootCounts(tr, es, n - 1);
      StepAt(tr, es, n - 1);
      assert es[..n][..n - 1] == es[..n - 1];
    }
  }

  /** As long as the tree keeps its root, no record is missed and the bound is 15 + 4k. */
  lemma StableRootBound(tr: seq<State>, es: seq<Event>, k: nat, n: nat)
    requires IsRun(tr, es) && n < |tr| && Few(tr, k) && 15 + 4 * k < U32 / 2
    requires forall i :: 0 <= i < n ==> es[i] != RootReplaced
    ensures |tr[n].list| + Outstanding(tr[n].rounds) <= 15 + 4 * k
  {
    RootCounts(tr, es, n);
    assert IsRun(tr[..n + 1], es[..n]) by {
      forall i | 0 <= i < n ensures Follows(tr[..n + 1][i], es[..n][i], tr[..n + 1][i + 1]) {
        StepAt(tr, es, i);
      }
    }
    assert es[..n][..n] == es[..n];
    PoolBound(tr[..n + 1], es[..n], k, n);
  }

  ghost predicate Few(tr: seq<State>, k: nat) { forall i :: 0 <= i < |tr| ==> Unfinished(tr[i].rounds) <= k }

  // ---------------------------------------------------------------- what becomes of a round, and of the list

  predicate Starts(e: Event, r: nat) { e == Start(r) }
  predicate Ended(e: Event, r: nat) { e == ConnectFailed(r) || (e.Connected? && e.r == r) }

  /** How many connects of round r are started, and how many end, in the steps from i to n. */
  function StartsIn(es: seq<Event>, r: nat, i: nat, n: nat): nat
    requires i <= n <= |es|
  {
    if n == i then 0 else StartsIn(es, r, i, n - 1) + if Starts(es[n - 1], r) then 1 else 0
  }

  function EndsIn(es: seq<Event>, r: nat, i: nat, n: nat): nat
    requires i <= n <= |es|
  {
    if n == i then 0 else EndsIn(es, r, i, n - 1) + if Ended(es[n - 1], r) then 1 else 0
  }

  /** Round r when so many of its four connects have been started, and so many have ended. */
  ghost predicate Opened(s: State, r: nat, started: nat, ended: nat) {
    && r < |s.rounds| && ended <= started <= 4
    && s.rounds[r] == if ended == 4 then Over else Opening(4 - started, started - ended)
  }

  lemma OpenedStep(s: State, e: Event, s': State, r: nat, started: nat, ended: nat)
    requires Follows(s, e, s') && Opened(s, r, started, ended)
    ensures Opened(s', r, started + (if Starts(e, r) then 1 else 0), ended + if Ended(e, r) then 1 else 0)
  {
  }

  /** A round that opens connections starts four, no more and no fewer before it is over; it is over exactly
      when all four have ended, and one that fails leaves the others as they are. */
  lemma {:induction false} RoundOpensFour(tr: seq<State>, es: seq<Event>, r: nat, i: nat, n: nat)
    requires IsRun(tr, es) && i <= n < |tr| && r < |tr[i].rounds| && tr[i].rounds[r] == Opening(4, 0)
    ensures Opened(tr[n], r, StartsIn(es, r, i, n), EndsIn(es, r, i, n))
    decreases n
  {
    if i < n {
      RoundOpensFour(tr, es, r, i, n - 1);
      StepAt(tr, es, n - 1);
      OpenedStep(tr[n - 1], es[n - 1], tr[n], r, StartsIn(es, r, i, n - 1), EndsIn(es, r, i, n - 1));
    }
  }

  /** Whether a round opens connections: not if it finds the record and reads a length from 16 on, unless that
      is so large that it is negative as an int. */
  lemma RoundDecides(s: State, r: nat, root: nat, missed: bool)
    requires s.len == |s.list| % 0x1_0000_0000
    ensures Enabled(s, ReadLen(r)) ==>
              Next(s, ReadLen(r)).rounds == s.rounds[r := if 16 <= |s.list| % 0x1_0000_0000 < 0x8000_0000 then Over else Opening(4, 0)]
    ensures Enabled(s, Search(root, missed)) ==>
              Next(s, Search(root, missed)).rounds == s.rounds + [if s.record && !missed then Looking else Opening(4, 0)]
  {
  }

  /** The connections made and not yet taken, newest first. */
  function Stack(es: seq<Event>): seq<QpId> {
    var n := |es|;
    if n == 0 then []
    else
      var qs := Stack(es[..n - 1]);
      match es[n - 1]
      case Connected(_, qp) => [qp] + qs
      case Take(_, missed) => if missed || qs == [] then qs else qs[1..]
      case _ => qs
  }

  /** Over every run the list is the stack of those connections, and there is a record exactly if somebody
      has made a connection or the record. */
  lemma {:induction false} ListIsStack(tr: seq<State>, es: seq<Event>, n: nat)
    requires IsRun(tr, es) && n < |tr|
    ensures tr[n].list == Stack(es[..n])
    ensures tr[n].record <==> exists i :: 0 <= i < n && (es[i].Connected? || es[i].RecordMade?)
  {
    if n > 0 {
      ListIsStack(tr, es, n - 1);
      StepAt(tr, es, n - 1);
      assert es[..n][..n - 1] == es[..n - 1];
    }
  }

  // ---------------------------------------------------------------- the bound is reached

  datatype Trace = Trace(tr: seq<State>, es: seq<Event>)

  /** A run with at most k unfinished rounds at any time and m missed records that ends in s. */
  ghost predicate Ends(t: Trace, s: State, k: nat, m: nat) {
    IsRun(t.tr, t.es) && Few(t.tr, k) && t.tr[|t.tr| - 1] == s && Missed(t.es) == m
  }

  ghost predicate Reach(s: State, k: nat, m: nat) { exists t :: Ends(t, s, k, m) }

  lemma Go(s: State, e: Event, s': State, k: nat, m: nat, m': nat)
    requires Reach(s, k, m) && Follows(s, e, s') && Unfinished(s'.rounds) <= k && m' == m + Misses(e)
    ensures Reach(s', k, m')
  {
    var t :| Ends(t, s, k, m);
    var tr', es' := t.tr + [s'], t.es + [e];
    OneLonger(t.tr, t.es, e, s');
    assert es'[..|t.es|] == t.es;
    assert Ends(Trace(tr', es'), s', k, m');
  }

  lemma Appended(rs: seq<Round>, x: Round)
    ensures Unfinished(rs + [x]) == Unfinished(rs) + if x.Opening? then 1 else 0
    ensures Outstanding(rs + [x]) == Outstanding(rs) + Share(x)
  {
    assert (rs + [x])[..|rs|] == rs;
  }

  lemma LastReplaced(rest: seq<Round>, x: Round, y: Round)
    ensures (rest + [x])[|rest|] == x && (rest + [x])[|rest| := y] == rest + [y]
  {
  }

  function Total(s: State): nat { |s.list| + Outstanding(s.rounds) }

  /** The last round has so many connections still to start and none running; the others are rest. */
  predicate LastOpening(s: State, rest: seq<Round>, left: nat) {
    s.rounds == rest + [Settle(left, 0)] && s.len == |s.list| && (left == 0 ==> s.record)
  }

  function AfterStart(s: State, rest: seq<Round>, left: nat): State { s.(rounds := rest + [Opening(left, 1)]) }

  function AfterConnect(s: State, rest: seq<Round>, left: nat): State {
    State(true, [0] + s.list, s.len + 1, rest + [Settle(left, 0)], s.root)
  }

  lemma StartForm(s: State, rest: seq<Round>, left: nat)
    requires s.rounds == rest + [Opening(left + 1, 0)]
    ensures Follows(s, Start(|rest|), AfterStart(s, rest, left))
  {
    LastReplaced(rest, Opening(left + 1, 0), Opening(left, 1));
  }

  lemma ConnectForm(s: State, rest: seq<Round>, left: nat)
    requires s.rounds == rest + [Opening(left, 1)] && s.len + 1 < U32
    ensures Follows(s, Connected(|rest|, 0), AfterConnect(s, rest, left))
  {
    LastReplaced(rest, Opening(left, 1), Settle(left, 0));
    SmallLen(s.len + 1);
  }

  /** One of its connections is started ... */
  lemma StartLast(s: State, rest: seq<Round>, left: nat, k: nat, m: nat)
    requires Reach(s, k, m) && s.rounds == rest + [Opening(left + 1, 0)] && Unfinished(rest) < k
    ensures Reach(AfterStart(s, rest, left), k, m)
  {
    StartForm(s, rest, left);
    assert Unfinished(AfterStart(s, rest, left).rounds) <= k by { Appended(rest, Opening(left, 1)); }
    Go(s, Start(|rest|), AfterStart(s, rest, left), k, m, m);
  }

  /** ... and succeeds. */
  lemma ConnectLast(s: State, rest: seq<Round>, left: nat, k: nat, m: nat)
    requires Reach(s, k, m) && s.rounds == rest + [Opening(left, 1)] && Unfinished(rest) < k && s.len + 1 < U32
    ensures Reach(AfterConnect(s, rest, left), k, m)
  {
    ConnectForm(s, rest, left);
    Appended(rest, Settle(left, 0));
    Go(s, Connected(|rest|, 0), AfterConnect(s, rest, left), k, m, m);
  }

  lemma OneConnect(s: State, rest: seq<Round>, left: nat, k: nat, m: nat) returns (s': State)
    requires Reach(s, k, m) && LastOpening(s, rest, left + 1) && Unfinished(rest) < k && |s.list| + 1 < U32
    ensures Reach(s', k, m) && LastOpening(s', rest, left) && |s'.list| == |s.list| + 1 && s'.root == s.root
  {
    StartLast(s, rest, left, k, m);
    ConnectLast(AfterStart(s, rest, left), rest, left, k, m);
    s' := AfterConnect(AfterStart(s, rest, left), rest, left);
  }

  /** Its connections all succeed: they pass from the outstanding ones to the list. */
  lemma {:induction false} Drain(s: State, rest: seq<Round>, left: nat, k: nat, m: nat) returns (s': State)
    requires Reach(s, k, m) && LastOpening(s, rest, left) && Unfinished(rest) < k && |s.list| + left < U32
    ensures Reach(s', k, m) && LastOpening(s', rest, 0) && |s'.list| == |s.list| + left && s'.root == s.root
    decreases left
  {
    s' := s;
    if left > 0 {
      s' := OneConnect(s, rest, left - 1, k, m);
      s' := Drain(s', rest, left - 1, k, m);
    }
  }

  /** s with one more round. */
  function Joined(s: State, x: Round): State { s.(rounds := s.rounds + [x]) }

  lemma ReadsShort(s: State)
    requires s.len < PER_CORE_POOL_MAX
    ensures Follows(Joined(s, Looking), ReadLen(|s.rounds|), Joined(s, Opening(4, 0)))
  {
    LastReplaced(s.rounds, Looking, Opening(4, 0));
  }

  /** A new round begins on a pool that reads a length below 16. */
  lemma Begin(s: State, k: nat, m: nat)
    requires Reach(s, k, m) && s.record && s.len == |s.list| < PER_CORE_POOL_MAX && Unfinished(s.rounds) < k
    ensures Reach(Joined(s, Opening(4, 0)), k, m)
  {
    assert Unfinished(Joined(s, Looking).rounds) <= k by { Appended(s.rounds, Looking); }
    Go(s, Search(s.root, false), Joined(s, Looking), k, m, m);
    ReadsShort(s);
    assert Unfinished(Joined(s, Opening(4, 0)).rounds) <= k by { Appended(s.rounds, Opening(4, 0)); }
    Go(Joined(s, Looking), ReadLen(|s.rounds|), Joined(s, Opening(4, 0)), k, m, m);
  }

  /** A new round misses the record, however long the list is. */
  lemma Miss(s: State, k: nat, m: nat)
    requires Reach(s, k, m) && s.record && s.root > 0 && Unfinished(s.rounds) < k
    ensures Reach(Joined(s, Opening(4, 0)), k, m + 1)
  {
    Appended(s.rounds, Opening(4, 0));
    Go(s, Search(0, true), Joined(s, Opening(4, 0)), k, m, m + 1);
  }

  /** An undisturbed round adds four connections. */
  lemma WholeRound(s: State, k: nat) returns (s': State)
    requires Reach(s, k, 0) && s.record && s.len == |s.list| < PER_CORE_POOL_MAX && Unfinished(s.rounds) == 0 && k > 0
    ensures Reach(s', k, 0) && s'.record && s'.root == s.root && s'.len == |s'.list| == |s.list| + 4 && Unfinished(s'.rounds) == 0
  {
    Begin(s, k, 0);
    s' := Drain(Joined(s, Opening(4, 0)), s.rounds, 4, k, 0);
    Appended(s.rounds, Over);
  }

  /** The first round of all finds no record and does not read a length. */
  lemma FirstRound(k: nat) returns (s: State)
    requires k > 0
    ensures Reach(s, k, 0) && s.record && s.root > 0 && s.len == |s.list| == 4 && Unfinished(s.rounds) == 0
  {
    var s0 := State(false, [], 0, [], 0);
    assert Ends(Trace([s0], []), s0, k, 0);
    var s1 := s0.(root := 1);
    Go(s0, RootReplaced, s1, k, 0, 0);
    var s2 := State(false, [], 0, [] + [Opening(4, 0)], 1);
    Appended([], Opening(4, 0));
    Go(s1, Search(1, false), s2, k, 0, 0);
    s := Drain(s2, [], 4, k, 0);
    Appended([], Over);
  }

  lemma {:induction false} QuietHasNone(rs: seq<Round>)
    requires Unfinished(rs) == 0
    ensures Outstanding(rs) == 0
  {
    if rs != [] {
      QuietHasNone(rs[..|rs| - 1]);
    }
  }

  lemma TakeOne(s: State, k: nat) returns (s': State)
    requires Reach(s, k, 0) && s.len == |s.list| == 16 && Unfinished(s.rounds) == 0
    ensures Reach(s', k, 0) && s'.record == s.record && s'.root == s.root && s'.len == |s'.list| == 15 && s'.rounds == s.rounds
  {
    s' := Next(s, Take(s.root, false));
    Go(s, Take(s.root, false), s', k, 0, 0);
    DecIs(16);
    SmallLen(16);
    SmallLen(15);
  }

  /** A list of 15 and no unfinished round. */
  lemma Fifteen(k: nat) returns (s: State)
    requires k > 0
    ensures Reach(s, k, 0) && s.record && s.root > 0 && s.len == |s.list| == 15 && Unfinished(s.rounds) == 0
  {
    s := FirstRound(k);
    s := WholeRound(s, k);
    s := WholeRound(s, k);
    s := WholeRound(s, k);
    s := TakeOne(s, k);
  }

  /** A list of 15, and j rounds that have all read it and have not started a connect yet */
  ghost predicate Pile(s: State, j: nat) {
    && s.record && s.root > 0 && s.len == |s.list| == 15
    && Unfinished(s.rounds) == j && Outstanding(s.rounds) == 4 * j
  }

  lemma OneMoreRound(s: State, j: nat, k: nat) returns (s': State)
    requires Reach(s, k, 0) && Pile(s, j) && j < k
    ensures Reach(s', k, 0) && Pile(s', j + 1) && s' == Joined(s, Opening(4, 0))
  {
    Begin(s, k, 0);
    Appended(s.rounds, Opening(4, 0));
    s' := Joined(s, Opening(4, 0));
  }

  lemma {:induction false} Piled(j: nat, k: nat) returns (s: State)
    requires j <= k && k > 0
    ensures Reach(s, k, 0) && Pile(s, j)
  {
    if j == 0 {
      s := Fifteen(k);
      QuietHasNone(s.rounds);
    } else {
      var s1 := Piled(j - 1, k);
      s := OneMoreRound(s1, j - 1, k);
    }
  }

  /** The bound cannot be improved: for every k > 0 and m some run with m missed records reaches
      15 + 4k + 4m.  The tree gets another root once in it; all searches that miss read the old one. */
  lemma BoundReached(k: nat, m: nat) returns (s: State)
    requires k > 0 && 15 + 4 * k + 4 * m < U32 / 2
    ensures Reach(s, k, m) && Total(s) == 15 + 4 * k + 4 * m
  {
    var rest;
    s, rest := MissedAgain(k, m);
    Appended(rest, Opening(4, 0));
  }

  /** k rounds unfinished, the last of which has just begun */
  lemma {:induction false} MissedAgain(k: nat, m: nat) returns (s: State, rest: seq<Round>)
    requires k > 0 && 15 + 4 * k + 4 * m < U32 / 2
    ensures Reach(s, k, m) && LastOpening(s, rest, 4) && s.record && s.root > 0 && |s.list| == 15 + 4 * m
    ensures Unfinished(rest) == k - 1 && Outstanding(rest) == 4 * k - 4
    decreases m
  {
    if m == 0 {
      var s1 := Piled(k - 1, k);
      s := OneMoreRound(s1, k - 1, k);
      rest := s1.rounds;
    } else {
      var s1, rest1 := MissedAgain(k, m - 1);
      s, rest := OneMoreMiss(s1, rest1, k, m - 1);
    }
  }

  lemma OneMoreMiss(s: State, rest: seq<Round>, k: nat, m: nat) returns (s': State, rest': seq<Round>)
    requires Reach(s, k, m) && LastOpening(s, rest, 4) && s.record && s.root > 0 && |s.list| + 4 < U32 && k > 0
    requires Unfinished(rest) == k - 1 && Outstanding(rest) == 4 * k - 4
    ensures Reach(s', k, m + 1) && LastOpening(s', rest', 4) && s'.record && |s'.list| == |s.list| + 4 && s'.root > 0
    ensures Unfinished(rest') == k - 1 && Outstanding(rest') == 4 * k - 4
  {
    var s1 := Drain(s, rest, 4, k, m);
    Appended(rest, Over);
    Miss(s1, k, m);
    s', rest' := Joined(s1, Opening(4, 0)), s1.rounds;
  }
}
