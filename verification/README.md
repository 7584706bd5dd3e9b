# A model of the split-TCP proxy

The proxy cuts a TCP connection in two. L is the half accepted from the client. R is the half that is
connected to the server as soon as the client's SYN has been seen. Both halves run on kernel threads
from a pool, find each other in a per-CPU tree, and relay bytes until one of them ends. This project
models that machinery and proves what it keeps. `dafny verify dfyconfig.toml` checks all of it.

| file | what it models |
|---|---|
| Magazine.dfy, AllocatorOrder.dfy, AllocatorRuns.dfy, CounterWrap.dfy | the per-CPU magazine allocator on values, the order in which it hands elements out, its laws over every run, and a run that wraps its counter |
| MagazineHeap.dfy, Words.dfy | the same allocator as objects with addresses, counts, lists and counters updated in place, each method proved against Magazine.dfy; the XOR exchange |
| ThreadPool.dfy, PoolRuns.dfy, ThreadBound.dfy, Refill.dfy | the kthread pool as a step relation over any number of workers and dispatchers, whole refill passes and worker cycles in it, the bound on threads, the refill loop |
| Rendezvous.dfy, RendezvousFrames.dfy, RendezvousSteps.dfy, RendezvousLaws.dfy, RendezvousLifetimes.dfy, RendezvousProtocol.dfy, RendezvousThreads.dfy, RendezvousRuns.dfy | how L and R meet in one QP, count references, and release it; that every step keeps its invariant; what holds over whole runs; how long QPs stay; what each step does to the sides of a QP and to the threads; runs that meet the situations the laws speak of |
| KeyOrder.dfy, SearchTree.dfy, QpTree.dfy, PreconnTree.dfy | the two comparators, the trees as linked nodes, and the lookups built on them |
| Steering.dfy | the CPU of a flow, and the SYN probe that carries the four-tuple from L's side to R's |
| Relay.dfy | the relay loop |
| PreconnPool.dfy | the pool of connections opened in advance |
| ScatterGather.dfy | the zero-copy iterator of patch 0018 |

## Where the code does not do what one would expect

Each of these is a lemma, with the exact condition under which the code does meet the expectation, and a
run or an input where it does not.

- `put_qp` frees the QP and then releases the lock inside it (tcpsplit/qp.c:74 and 81). In every run the
  put that drops the last reference touches a freed QP, and tracing aside no other access does
  (`RendezvousLaws.FreedTouchedIff`, `RendezvousLaws.LastPutFrees`, `RendezvousRuns.LastPutUnlocksFreed`).
- `trace_connections` in the timeout path (tcpsplit/split.c:531) walks the QP trees of all CPUs without their
  locks. A QP that such a walk got to in a tree is freed when it is read exactly if its last put came in
  between (`RendezvousLifetimes.GoneIffLastPut`, `RendezvousRuns.TraceWalkMeetsFreed`).
- `search_rb_preconn` reads the root pointer before it takes the lock (tcpsplit/preconn_rb_tree.h:42 and
  44). If the tree has got another root by the time it holds the lock, it sees only what is below the old
  one: all keys if and only if the root is still the same (`PreconnTree.SeenFrom`,
  `PreconnTree.StaleRootMisses`). So `get_rb_preconn` can return NULL for a key that was there all along,
  though it never makes a second node (`PreconnTree.GetRbPreconn`), and every refill round that misses the
  record can put four connections on top of the bound of 15 + 4k (`PreconnPool.PoolBound`,
  `PreconnPool.BoundReached`), which holds as long as the tree keeps its root (`PreconnPool.StableRootBound`).
- The two relays of a QP do not both start at reference count 2. The first does
  (`RendezvousLaws.FirstRelayCount`); the second exactly if the other side has not dropped its reference yet
  (`RendezvousLaws.SecondRelayCount`). `RendezvousRuns.LateRelayStartsAtOne` is a run where it starts at 1.
- The QP of a duplicate SYN is in no tree and is never freed (`RendezvousLifetimes.DroppedStays`). A QP whose
  connect failed stays in its tree exactly until a client with its key is accepted
  (`RendezvousLifetimes.StrandedUntilAccept`); until then every SYN for the key is taken for a duplicate and
  leaves another QP behind (`RendezvousLifetimes.StrandedStep`). When all threads have gone these two kinds are
  all that is left (`RendezvousLaws.Leftovers`, `RendezvousRuns.LeftoversHappen`). tcpsplit/split.c:486 admits
  the second.
- A failed connect is final for its QP, client or no client: tx stays an error, every SYN for the key is dropped
  while the QP is in its tree, and a client that waits there can only run into its timeout
  (`RendezvousProtocol.FailedStays`, `RendezvousProtocol.FailedDropsSyns`, `RendezvousThreads.FailedClientTimesOut`).
- If a waiter's timeout fired while its peer connects, the QP that the peer is about to write would be
  freed (`RendezvousLaws.TimeoutDuringConnectFrees`, `RendezvousRuns.TimeoutMeetsConnect`).
- `strncmp` stops at a zero byte, so the QP tree takes different four-tuples for one: a flow is told apart
  from all others exactly when none of the first eleven bytes of its key is zero
  (`Steering.ToldApartIff`, `Steering.LowPortsMerge`).
- The sign of a wrapped 32-bit difference is a strict total order on a finite set of keys exactly when they
  lie in one half of the circle of 32-bit numbers (`KeyOrder.TotalOrderIff`, `KeyOrder.WrapCycle`).
- The 16-bit counter of full magazines: with 65536 of them an allocation fails although 262144 elements are
  free (`Magazine.WrappedCounterStarves`; `CounterWrap.CounterWraps` is a run that gets there). From then on
  the 65536 oldest full magazines stay in the depot for ever, and as long as callers free only what is outside
  no element in them is handed out again (`AllocatorRuns.BuriedForever`, `AllocatorRuns.BuriedNotHandedOut`).
  The counter of empty magazines never wraps, for that very reason, and the high-water law holds in all runs
  (`AllocatorRuns.HighWaterFromInit`).
- The stream survives the relay exactly when no send takes only a part of its chunk
  (`Relay.StreamPreservedIff`, `Relay.PartialSendLosesBytes`).
- Entries without bytes use up packet fragments in the zero-copy iterator
  (`ScatterGather.EmptyEntriesCost`).
- The record behind a tunnelled probe is read where it was written exactly if the probe has neither TCP
  options nor payload; the probes that are sent have neither (`Steering.TagReadBackIff`).

## What is assumed

- Memory is sequentially consistent. Operations on a magazine pair run with interrupts off and are one step.
- Memory allocation and thread creation succeed; the addresses they return are parameters.
- Callers of `mag_free_elem` get addresses from `kzalloc` that are not in use.
- In the rendezvous: a waiter's timeout does not fire while its peer's connect is in flight, a key that has
  an accepted socket gets no second one, no signals arrive. These stand in `Rendezvous.Enabled`. A run is
  made of steps that satisfy `Rendezvous.Sound`; `EnabledIsSound` shows that in every state of a run each
  enabled step does, so nothing is lost by it.
- Until it relays, a thread runs on the CPU of its key and is not preempted there, so what it does between
  two sleeping calls is one step. `half_duplex` lifts the pinning (tcpsplit/split.c:415): relays, and the
  steps of the put after them, run on any CPU in any interleaving.
- The listener of a SYN exists, and no listener is added while the tree of listeners is searched
  (tcpsplit/rb_data_tree.h:76 says that this tree is unprotected).
- A client's SYN has no IP options, so that its TCP header follows the 20 bytes that are copied.
- What the sockets do (connect, accept, receive, send) is arbitrary: events, or a script of results.
- `char` is signed, as on x86.

## Model

| member | source | states |
|---|---|---|
| MagazineHeap.MagPair.SwapMags | tcpsplit/magazine.c:57-66 | the three XORs on addresses and on counts, done in place, exchange the two slots |
| Words.XorExchange64 | tcpsplit/magazine.c:59-61 | the three-XOR exchange is a swap for all 64-bit addresses, equal ones included |
| Words.XorExchange32 | tcpsplit/magazine.c:63-65 | and for all 32-bit counts |
| MagazineHeap.MagPair.Alloc | tcpsplit/magazine.c:68-83 | what the addresses, counts and stacks stand for afterwards is the popped pair, with the same element returned |
| MagazineHeap.MagPair.Free | tcpsplit/magazine.c:85-96 | the element is on top of slot 0, or of slot 1 if slot 0 is full, and no other magazine in memory has changed |
| MagazineHeap.MagAllocator.constructor | tcpsplit/magazine.c:178-213 | all pairs get two empty magazines of their own, the depot is empty |
| MagazineHeap.MagAllocator.PushFull | tcpsplit/magazine.c:105-119 | the locked part: full magazine at the head of the full list, an empty one from the head of the empty list or from kzalloc, counters equal list lengths modulo 65536 |
| MagazineHeap.MagAllocator.PopFull | tcpsplit/magazine.c:131-142 | the locked part: empty magazine to the empty list, full one from the full list, counters follow |
| MagazineHeap.MagAllocator.SwitchFull | tcpsplit/magazine.c:98-123 | trades the pair's full magazine with the depot; every magazine is still in exactly one place and the assertion on the count never fires |
| MagazineHeap.MagAllocator.SwitchEmpty | tcpsplit/magazine.c:125-143 | trades an empty magazine for a full one if the counter says there is one, otherwise changes nothing |
| MagazineHeap.MagAllocator.AllocElem | tcpsplit/magazine.c:145-160 | the whole call on memory is the value-level allocation on the state the memory stands for |
| MagazineHeap.MagAllocator.FreeElem | tcpsplit/magazine.c:162-175 | the whole call on memory is the value-level free; its assertions never fire |
| Magazine.PairAllocConserves | tcpsplit/magazine.c:68-83 | a pair keeps its invariant and loses exactly what is returned; NULL means the whole pair is empty |
| Magazine.PairFreeConserves | tcpsplit/magazine.c:85-96 | a pair gains exactly the argument; at 8 elements both slots are full |
| AllocatorOrder.PairAllocTakesNewest | tcpsplit/magazine.c:75-81 | the newest element of slot 0 is returned; slot 1, address and elements, is untouched until slot 0 is empty, and then the two are exchanged |
| AllocatorOrder.PairFreeFillsFirst | tcpsplit/magazine.c:91-95 | slot 0 is filled first, and the other slot is untouched |
| Magazine.SwitchFullConserves | tcpsplit/magazine.c:98-123 | the exchange moves one full magazine to the depot and conserves every element and magazine, kzalloc's aside |
| Magazine.SwitchEmptyConserves | tcpsplit/magazine.c:125-143 | the exchange brings four elements or none and conserves every element and magazine |
| Magazine.AllocConserves | tcpsplit/magazine.c:145-160 | for every element, magazine and the total: allocation takes out exactly what it returns; it fails exactly if its pair is empty and the counter reads 0 |
| Magazine.FreeConserves | tcpsplit/magazine.c:162-175 | free puts in exactly its argument; only kzalloc's magazine can join |
| Magazine.AllocKeeps | tcpsplit/magazine.c:145-160 | pair totals at most 7, slot 0 non-empty when the pair is, full magazines full, no magazine at two places |
| Magazine.FreeKeeps | tcpsplit/magazine.c:162-175 | the same for free |
| Magazine.InitOk | tcpsplit/magazine.c:191-213 | a fresh allocator satisfies the invariant, holds nothing, has each magazine at one place |
| Magazine.AllocFailureBound | tcpsplit/magazine.c:125-160 | when allocation returns NULL at most 7 * (pairs - 1) free elements exist anywhere |
| Magazine.WrappedCounterStarves | tcpsplit/lib/magazine.h:37-38 | with 65536 full magazines the 16-bit counter makes an allocation fail |
| Magazine.MagsApart | tcpsplit/magazine.c:98-143 | the magazines of a pair are different from each other and from those everywhere else |
| CounterWrap.CounterWraps | tcpsplit/lib/magazine.h:37-38 | a run from a fresh allocator with one pair to 65536 full magazines and an empty pair, no element held twice, where the next allocation fails and all those magazines are buried |
| AllocatorOrder.AllocTakesFront | tcpsplit/magazine.c:145-160 | from one pair the allocator is a list: slot 0 newest first, slot 1, then the full magazines down to where the counter reads 0; an allocation takes its front, NULL means it is empty, and no other pair is touched |
| AllocatorOrder.FreePutsInFront | tcpsplit/magazine.c:162-175 | a free puts its element at the front, or at position 4 when slot 0 is full; the rest is lost to the list exactly when the counter wraps to 0 |
| AllocatorOrder.AllocManyTakesQueue | tcpsplit/magazine.c:145-160 | any number of allocations returns the list in order, and then NULL |
| AllocatorOrder.AllocsReturnFrees | tcpsplit/magazine.c:145-175 | what is freed while slot 0 has room comes back in the opposite order, and then what was there before |
| AllocatorOrder.FullMagazineComesBack | tcpsplit/magazine.c:105-142 | the magazine handed over last comes back first, unless the counter has wrapped |
| AllocatorOrder.EmptyMagazineComesBack | tcpsplit/magazine.c:107-133 | the magazine emptied last is used again first |
| AllocatorRuns.RunKeeps | tcpsplit/magazine.c:145-175 | the invariant holds over every sequence of calls from any pairs |
| AllocatorRuns.RunIsBag | tcpsplit/magazine.c:145-175 | over any run: held afterwards plus handed out = held before plus taken in, for every element |
| AllocatorRuns.NoDoubleHandOut | tcpsplit/magazine.c:145-175 | nothing is handed out twice without a free in between |
| AllocatorRuns.HeldOnce | tcpsplit/magazine.c:145-175 | if callers free only what is outside, no element is ever held twice |
| AllocatorRuns.HighWaterStep | tcpsplit/magazine.c:107-139 | a step keeps "magazines in the depot = largest number of full ones so far" exactly unless the empty counter has wrapped; it creates a magazine exactly at a new maximum; above the floor, where every run from a fresh allocator is, it never has wrapped |
| AllocatorRuns.HighWater | tcpsplit/magazine.c:98-143 | the law over every run from above the floor, with the number of magazines created; the run stays above it |
| AllocatorRuns.HighWaterFromInit | tcpsplit/magazine.c:98-143 | in every run from a fresh allocator: in the depot = largest number of full ones = created; fewer than 65536 are empty, and the full ones never fall below the last multiple of 65536 they reached |
| AllocatorRuns.BuriedForever | tcpsplit/magazine.c:131-139 | the oldest full magazines, up to a multiple of 65536, are at the end of the full list in every continuation, with what is in them |
| AllocatorRuns.BuriedNotHandedOut | tcpsplit/magazine.c:131-160 | no element in them is handed out again, nor taken in by callers who free only what is outside |
| AllocatorRuns.DistanceStep | tcpsplit/magazine.c:145-175 | the potential min(8-t, t+1) is 1 before an exchange and 4 after it, and drops by at most 1 otherwise; other pairs are untouched |
| AllocatorRuns.Amortised | tcpsplit/magazine.c:98-175 | n operations on a pair that starts empty make at most (n+3)/4 exchanges, whatever the other pairs do |
| ThreadPool.StepKeeps | tcpsplit/thread_pool.c:27-146 | every step of workers, dispatchers and refill thread keeps the invariant of the pool |
| ThreadPool.DispatchSafety | tcpsplit/thread_pool.c:32-47 | in every reachable state an element is idle in the allocator with no task, or claimed by one dispatcher, or owned by its running worker, or being created, and only one of these |
| ThreadPool.NoErrorBranch | tcpsplit/thread_pool.c:34-37 | neither "no pool task" nor "task allocated twice" (lines 133-135) is reachable |
| ThreadPool.ExactlyOnce | tcpsplit/thread_pool.c:125-146 | every accepted job is called at most once, with its own function and data, and until then waits at the element claimed for it |
| ThreadPool.WakeWakes | tcpsplit/thread_pool.c:144 | after wake_up_process the worker is awake with its task, wherever it was on the way to sleep |
| ThreadPool.WokenCanStep | tcpsplit/thread_pool.c:39-47 | a woken worker is not asleep and its next step is possible |
| ThreadPool.WokenStep | tcpsplit/thread_pool.c:32-47 | each of its steps brings it nearer to the task and nobody else's step matters |
| ThreadPool.NoLostWakeup | tcpsplit/thread_pool.c:27-50 | a dispatched and woken worker has called the job after at most four steps of its own, in every interleaving |
| ThreadPool.CalledExactlyOnce | tcpsplit/thread_pool.c:27-146 | a job for which the allocator has an element is called once, with its own function and data, in every run with three steps of its dispatcher and then four of the worker |
| PoolRuns.PassCreates | tcpsplit/thread_pool.c:54-86 | whatever others do meanwhile, a refill pass creates pool_size - 4 * full_count threads, the 16-bit counter read at its beginning, or none if negative; each of them, and no other, enters the allocator by it, once |
| PoolRuns.FreshPoolInit | tcpsplit/thread_pool.c:160-177 | a pool of any size as initialisation leaves it is a start of runs |
| PoolRuns.JobIsCalled | tcpsplit/thread_pool.c:54-146 | for every pool_size > 0 and every job there is a run from the start in which the job is accepted and called |
| PoolRuns.CalledThenReturns | tcpsplit/thread_pool.c:32-47 | a worker that calls its task is back in the allocator after at most four more steps of its own, in every interleaving |
| PoolRuns.StuckIff | tcpsplit/thread_pool.c:32-47 | a worker has no step to make exactly if it sleeps in schedule() or was never woken |
| PoolRuns.OthersCanStep | tcpsplit/thread_pool.c:54-146 | a dispatcher that holds an element, and the refill thread, always have one |
| PoolRuns.StepOnAllocator | tcpsplit/thread_pool.c:22-25 | only claims and frees touch the allocator, and only the pair they are made on and the depot |
| PoolRuns.ClaimTakesFront | tcpsplit/thread_pool.c:107-131 | a claim gets the front of the list of its pair, and is accepted exactly if there is one |
| PoolRuns.PublishPutsBack | tcpsplit/thread_pool.c:22-25 | a worker puts its own element, the refill thread the new one, into the list of the pair it runs on |
| ThreadBound.StepConserves | tcpsplit/thread_pool.c:54-86 | threads created = in the allocator + outside + in the hand of the refill thread, at every step |
| ThreadBound.RefillEnterWithin | tcpsplit/thread_pool.c:56-59 | at the instant the count is computed, what will be created fits the budget, if fewer than 65536 magazines are full |
| ThreadBound.ThreadsBounded | tcpsplit/thread_pool.c:54-86 | threads ever created <= pool_size + 7 * pairs + peak number of elements outside, under any concurrent traffic, in every run in which fewer than 65536 magazines are full whenever they are counted |
| ThreadBound.SmallPoolBounded | tcpsplit/thread_pool.c:54-86 | which is so in every run for which that bound is below 262144 |
| Refill.KthreadPool.RefillPool | tcpsplit/thread_pool.c:54-86 | the loop creates exactly the deficit it computed and frees all of it to the caller's pair |
| Refill.FreeManyCounts | tcpsplit/magazine.c:162-175 | where freed elements go: into full magazines, four at a time, and the pair |
| Refill.FreeManyHolds | tcpsplit/thread_pool.c:60-81 | a pass adds its elements to what the allocator holds, each as often as it was created |
| Refill.PassEnds | tcpsplit/thread_pool.c:54-86 | an undisturbed pass from k to r elements in the pair ends with 4 * full_count = pool_size + k - r, between pool_size - 7 and pool_size + 3 |
| Refill.PassesSettle | tcpsplit/thread_pool.c:88-99 | from the eighth undisturbed pass on nothing is created, whatever the first met |
| Rendezvous.EnabledIsSound | tcpsplit/split.c:481-549 | in a state of the invariant no step drops an untaken reference or erases an unlinked node, and none but the unlocking at the end of a put can touch a freed QP, tracing aside |
| RendezvousSteps.StepKeeps | tcpsplit/split.c:481-549 | every step keeps the invariant of QPs, threads, tree, sockets and logs |
| RendezvousProtocol.StepMovesSide | tcpsplit/split.c:481-549 | every step takes one side of one QP to what comes next in the life of that side; the other side, the key, sockets that are there, and all other QPs stay as they are |
| RendezvousProtocol.StepAdds | tcpsplit/split.c:481-508 | which QPs a step makes, and with which sides: SYNs for new keys, duplicate SYNs, accepts for new keys, and nothing else |
| RendezvousThreads.StepMovesThread | tcpsplit/split.c:510-549 | every step takes its own thread to the next phase of its life, at the same QP and side, and leaves the others where they are |
| RendezvousThreads.StepLowersRank | tcpsplit/split.c:510-549 | so a thread takes at most six steps once it has started |
| RendezvousThreads.EnabledIff | tcpsplit/split.c:515-543 | what each thread may do next, in terms of how far the other side has come |
| RendezvousThreads.NoDeadlock | tcpsplit/split.c:481-549 | in every reachable state with threads one of them can go on |
| RendezvousProtocol.FailedStays | tcpsplit/split.c:603-661 | after a failed connect tx stays ERR_PTR(-EINVAL) as long as the QP is allocated, in every continuation of every run |
| RendezvousProtocol.FailedDropsSyns | tcpsplit/split.c:489-497 | while that QP is in its tree a SYN for the key starts no thread, leaves the QP alone and a new one behind |
| RendezvousThreads.FailedClientTimesOut | tcpsplit/split.c:515-541 | a client that waits there leaves by its timeout, which is possible, and in no other way |
| RendezvousLaws.FreedTouchedIff | tcpsplit/qp.c:58-84 | over whole runs a step touches a freed QP if and only if it is the unlocking after the put that dropped the last reference |
| RendezvousLaws.LastPutFrees | tcpsplit/qp.c:66-74 | that put is the one that found the count at 1, with no other thread left at the QP, and has freed it |
| RendezvousRuns.LastPutUnlocksFreed | tcpsplit/qp.c:74-81 | a reachable state, for every key, in which that access is next |
| RendezvousLaws.CountInRange | tcpsplit/qp.c:38-56 | the count stays in 0..2 (the "impossible refcount" branch is dead) and is positive exactly while a thread holds a reference; two holders mean count 2 and opposite sides |
| RendezvousLaws.InTreeUntilMatched | tcpsplit/qp.c:14-36 | a QP is in its tree from insertion until both sides have come or its waiter gives up, and is erased exactly once |
| RendezvousLaws.ReleasedExactlyOnce | tcpsplit/qp.c:67-74 | a QP is freed once, and then each of its sockets is released exactly once |
| RendezvousLaws.RelaysAreCrossed | tcpsplit/split.c:671-681 | relays run only on matched QPs, on the same two valid sockets crossed, none of them released |
| RendezvousLaws.FirstRelayCount | tcpsplit/split.c:542-546 | the side that finds its peer waiting takes the second reference: its relay starts at count 2 |
| RendezvousLaws.SecondRelayCount | tcpsplit/split.c:518-541 | when the waiter's relay starts the count is 2 if and only if the other side has not dropped its reference |
| RendezvousRuns.LateRelayStartsAtOne | tcpsplit/split.c:785-792 | a reachable state in which it starts at count 1 |
| RendezvousLaws.Leftovers | tcpsplit/split.c:486-497 | what is left when all threads have gone |
| RendezvousLifetimes.OthersStay | tcpsplit/split.c:481-549 | every step leaves all QPs but the one it works on as they are, in the tree or not |
| RendezvousLifetimes.DroppedStays | tcpsplit/split.c:489-497 | the QP of a duplicate SYN is allocated, unchanged and in no tree, in every continuation of every run |
| RendezvousLifetimes.StrandedStep | tcpsplit/split.c:486-497 | a QP whose connect failed is left alone by all but an accept for its key; SYNs for the key leave QPs of their own behind |
| RendezvousLifetimes.StrandedUntilAccept | tcpsplit/split.c:486-508 | it is allocated, unchanged and in the tree if and only if no client with its key has been accepted since |
| RendezvousLifetimes.GoneIffLastPut | tcpsplit/qp.c:67-74 | an allocated QP is freed later if and only if a put found its count at 1 in between |
| RendezvousRuns.TraceWalkMeetsFreed | tcpsplit/split.c:531 | a run from a reachable state in which a QP is in the tree to one in which it is freed |
| RendezvousRuns.LeftoversHappen | tcpsplit/split.c:486-497 | a reachable state without threads that holds both kinds of leftovers |
| RendezvousLaws.TimeoutDuringConnectFrees | tcpsplit/split.c:524-541 | why the timeout must not fire during the connect |
| RendezvousRuns.TimeoutMeetsConnect | tcpsplit/split.c:524-541 | a reachable state in which it would |
| KeyOrder.StrncmpOrders | tcpsplit/rb_data_tree.h:53 | strncmp is a weak order on binary keys of one length |
| KeyOrder.StrncmpSign | tcpsplit/rb_data_tree.h:53 | antisymmetric, and 0 exactly on keys that agree up to the first zero byte |
| KeyOrder.StrncmpFirst | tcpsplit/rb_data_tree.h:53 | the first byte that differs, before any zero, decides |
| KeyOrder.UniqueIff | tcpsplit/rb_data_tree.h:53 | a key is told apart from all others exactly if no byte before its last is zero |
| KeyOrder.WrapIsDistance | tcpsplit/preconn_rb_tree.h:49 | in a half circle the wrapped difference is the difference of distances |
| KeyOrder.TotalOrderIff | tcpsplit/preconn_rb_tree.h:49-59 | strict total order on a finite set of keys if and only if it lies in a half circle |
| KeyOrder.SmallSpan | tcpsplit/preconn_rb_tree.h:49-59 | keys that span less than 2^31 are such a set |
| KeyOrder.WrapOrders | tcpsplit/rb_data_tree.h:84 | there it is the order the trees need, and its equivalence is equality |
| KeyOrder.WrapCycle | tcpsplit/preconn_rb_tree.h:49 | three keys that the comparison puts in a circle |
| SearchTree.Root.Search | tcpsplit/rb_data_tree.h:78-95 | finds a node of an equivalent key exactly if there is one, and then it is the only one |
| SearchTree.Root.Add | tcpsplit/rb_data_tree.h:43-74 | returns the equivalent node with nothing changed, or null, and the sequence of nodes is the old one with the new node put in at the place its key belongs |
| SearchTree.Root.Descend | tcpsplit/rb_data_tree.h:51-66 | the descent ends at an equivalent node or at the only position that keeps the order |
| SearchTree.Root.Link | tcpsplit/rb_data_tree.h:69-70 | linking at that position yields a sorted tree with exactly one more node |
| SearchTree.Down | tcpsplit/rb_data_tree.h:57-60 | going left or right by the sign leaves out no node that could be equivalent |
| SearchTree.Root.SearchFrom | tcpsplit/preconn_rb_tree.h:39-61 | from a pointer read earlier the search finds a node of an equivalent key exactly if one is below that pointer now |
| SearchTree.StartMatters | tcpsplit/preconn_rb_tree.h:42-45 | a search sees the whole tree exactly when it starts at the root |
| SearchTree.Root.Rotate | tcpsplit/preconn_rb_tree.h:86 | a rotation anywhere keeps nodes and in-order sequence; the shape it leads to |
| SearchTree.Root.Erase | tcpsplit/rb_data_tree.h:30-39 | exactly the one node is taken out of the in-order sequence, which stays sorted |
| QpTree.AddRbData | tcpsplit/rb_data_tree.h:43-74 | the QP found agrees up to the first zero byte, and is the same key when no zero is in the first eleven; otherwise none in the tree agrees and the new one is inserted |
| PreconnTree.KeysOnce | tcpsplit/preconn_rb_tree.h:63-90 | a sorted tree over a half circle has one node for a key |
| PreconnTree.SearchRbPreconn | tcpsplit/preconn_rb_tree.h:39-61 | with the root read before the lock, the key is found exactly if it is below that node now |
| PreconnTree.SeenFrom | tcpsplit/preconn_rb_tree.h:42-45 | all keys are seen if and only if the root is still the same; otherwise at least the key of the new root is missed |
| PreconnTree.AddRbPreconn | tcpsplit/preconn_rb_tree.h:63-90 | links the node exactly if the key is not there, otherwise returns the node of the key |
| PreconnTree.OthersAct | tcpsplit/preconn_rb_tree.h:63-90 | after any insertions and rotations by others no node has gone, and the keys are the old ones and those linked |
| PreconnTree.GetRbPreconn | tcpsplit/preconn_rb_tree.h:94-115 | whatever others do in between there is never a second node for a key; NULL is returned exactly if the search did not see the key and it is there at the insertion; a key that was there is missed only if the root was replaced |
| PreconnTree.StaleRootMisses | tcpsplit/preconn_rb_tree.h:42-45 | keys 10 and 20, another caller links 30 and the tree turns: a search from the old root misses 20 |
| Steering.Qp2Cpu | tcpsplit/qp.c:98-114 | the loop computes the fold of the sign-extended bytes; the result is its remainder, below the number of CPUs |
| Steering.FoldIgnoresOrder | tcpsplit/qp.c:105-106 | the fold depends on the bytes as a multiset only |
| Steering.CpuIsSymmetric | tcpsplit/qp.c:98-124 | exchanging source and destination does not change the CPU |
| Steering.FoldIsOneByte | tcpsplit/qp.c:105-106 | the fold is the sign extension of the exclusive-or of the bytes, so it takes at most 256 values |
| Steering.CpuIsRemainder | tcpsplit/qp.c:105-114 | the CPU is the remainder by the number of CPUs of the exclusive-or of the bytes, read as a char and converted to unsigned int |
| Steering.HookOn | tcpsplit/split.c:221-254 | for every packet what the hook does with it: which go on, which are dropped, and which start which task, each if and only if |
| Steering.HookRecord | tcpsplit/split.c:166-248 | the record that is sent along or handed to R, for every probe, and the CPU R runs on |
| Steering.Probe.StartProbeSyn | tcpsplit/conn_pool.c:404-439 | the header rewritten in place, source port to the window and probe port to the source, all else as it was; and what is sent |
| Steering.BothSidesMeet | tcpsplit/split.c:230-247 | for all headers the hook recovers the four-tuple; R gets L's key and L's CPU |
| Steering.BothSidesMeetInTunnel | tcpsplit/split.c:204-263 | the same when the record travels in a tunnelled packet, written at its tail and read behind its TCP header |
| Steering.TagReadBackIff | tcpsplit/split.c:204-219 | the pointer written at the tail is the one read behind the inner TCP header exactly if nothing follows that header |
| Steering.ToldApartIff | tcpsplit/tcp_split.h:61-68 | the QP tree tells a four-tuple apart from all others if and only if no byte of its ports and source address, and none of the first three of its destination address, is zero |
| Steering.LowPortsMerge | tcpsplit/tcp_split.h:61-68 | all flows with source ports below 256 are one to the tree |
| Words.VoidRoundTrip | tcpsplit/qp.c:86-96 | packing two words into a pointer and unpacking are inverse, both ways |
| Words.VoidHalves | tcpsplit/qp.c:86-89 | the first word is the high half |
| Relay.Receive | tcpsplit/split.c:418-426 | whatever the pages held before, gathering what was received gives it back |
| Relay.HalfDuplex | tcpsplit/split.c:407-479 | bytes is the total received, the sending socket got what the script says, the result is that of the call that ended the loop, put_qp is called once if it ended and never before |
| Relay.EndsAtFirst | tcpsplit/split.c:424-465 | the loop ends in the first round with a call that fails or meets the end, and with its result; received and delivered by then are all bytes received and all bytes taken by the sends |
| Relay.StreamPreserved | tcpsplit/split.c:424-465 | if no send is partial, received = delivered followed by the chunk whose send failed |
| Relay.StreamPreservedIff | tcpsplit/split.c:448 | and only then |
| Relay.FailedIsLast | tcpsplit/split.c:448-459 | a chunk is missing only if its send failed, which ends the loop |
| Relay.PartialSendLosesBytes | tcpsplit/split.c:448 | a partial send in the middle: what arrives is no prefix |
| PreconnPool.PercpuList.AddPreconnQp | tcpsplit/conn_pool.c:181-196 | the connection is at the head of the list and len is its length modulo 2^32 |
| PreconnPool.PercpuList.AllocExisting | tcpsplit/conn_pool.c:75-88 | takes the head of the list, if there is one, and len follows |
| PreconnPool.PreallocConnectionPool | tcpsplit/conn_pool.c:39-59 | a round starts four connections for every CPU whose length reads below 16 and none for the others |
| PreconnPool.RoundDecides | tcpsplit/conn_pool.c:43-58 | a round opens connections unless it finds the record and reads a length from 16 on that is not negative as an int |
| PreconnPool.RoundOpensFour | tcpsplit/conn_pool.c:54-56 | a round that opens connections starts exactly four and is over exactly when all have ended; one that fails leaves the others standing |
| PreconnPool.ListIsStack | tcpsplit/conn_pool.c:75-88 | over every run the list is the stack of the connections made and not taken |
| PreconnPool.StepKeeps | tcpsplit/conn_pool.c:39-88 | every interleaved step of rounds, connects and takers keeps the bound, which a missed record raises by 4; a search misses it only if the tree has got another root since it read the pointer |
| PreconnPool.MissKeepsIff | tcpsplit/conn_pool.c:43-56 | a round that misses the record keeps a bound exactly if there is room for its four connects |
| PreconnPool.PoolBound | tcpsplit/conn_pool.c:39-59 | list and outstanding connects of a CPU never exceed 15 + 4k while at most k rounds are unfinished, and 4 more for every search that has missed the record |
| PreconnPool.BoundReached | tcpsplit/conn_pool.c:39-59 | for every k > 0 and m some run with m missed records does reach 15 + 4k + 4m, so the bound is exact; one replaced root is enough for it |
| PreconnPool.StableRootBound | tcpsplit/conn_pool.c:39-59 | while the tree keeps its root the bound is 15 + 4k |
| ScatterGather.IovIter.GetFragAdvance | kernel_client/zcopy_patches/0018-skb_zerocopy_sg_from_iter.patch:20-43 | page and offset name the first bytes of the iterator; they and what remains are what there was |
| ScatterGather.SkBuff.Charge | kernel_client/zcopy_patches/0018-skb_zerocopy_sg_from_iter.patch:67-72 | a stream socket that is passed in pays in what it has queued and in its forward allocation, otherwise the packet's socket in its write allocation; no other field of either changes |
| ScatterGather.TakeFrag | kernel_client/zcopy_patches/0018-skb_zerocopy_sg_from_iter.patch:59-74 | one turn of the loop conserves the bytes, clears an entry that is used up and touches no other, and charges the right socket and nobody else |
| ScatterGather.ZerocopySgFromIter | kernel_client/zcopy_patches/0018-skb_zerocopy_sg_from_iter.patch:45-77 | the bytes of the fragments followed by those left are the original ones; len, data_len and truesize grow by the total; success means min(len, count); it fails exactly if the fragments needed do not fit; entries that are used up are cleared, those behind untouched; only the payer is charged; it terminates |
| ScatterGather.NeededAtMost | kernel_client/zcopy_patches/0018-skb_zerocopy_sg_from_iter.patch:50 | as many fragments as entries always suffice |
| ScatterGather.EmptyEntriesCost | kernel_client/zcopy_patches/0018-skb_zerocopy_sg_from_iter.patch:30-34 | every entry without bytes in front costs a fragment |

## Left out

- MagazineHeap.MagAllocator.FreeElem: the stack of a magazine is a sequence kept under the magazine's address in one memory object, not an array object of its own; aliasing between addresses is modelled, placement inside a cache line (ALIGN) is not.
- Red-black colours, and when and where rb_insert_color and rb_erase rotate, are kernel code. The trees here insert at a leaf and erase by the successor; rotations may come anywhere (SearchTree.Root.Rotate). Rendezvous uses a map whose keys are what the tree tells apart, as QpTree.AddRbData and SearchTree.Root.Erase establish.
- ThreadPool.NoLostWakeup: does not model kthread_should_stop exits, kthread_bind_mask, or the sleep of the refill thread, which only delays its next pass.
- Rendezvous.EnabledIsSound: does not count the reads of trace_connections among the accesses; RendezvousLifetimes.GoneIffLastPut says when they meet a freed QP.
- RendezvousSteps.StepKeeps: does not model start_new_pre_connection_syn and start_new_pending_connection, which publish a valid socket before a sleeping send, nor failures of L before qp_exists, where the QP is not shared yet.
- PreconnPool.PoolBound: does not model preconn_write_cb, which starts connections without looking at the length.
- Relay.HalfDuplex: does not model kthread_should_stop, failing page allocation, or the shutdown of sockets by put_qp, which is one of the ways a later receive or send fails.
- ScatterGather.ZerocopySgFromIter: lengths are unbounded, where skb->len is 32 bits wide; page reference counts are not modelled.
- Sockets, netfilter registration, procfs, module start and stop, statistics and tracing: foreign kernel calls and I/O.
- Failing memory allocation: the code marks these paths as unfinished.
- logger/, kernel_client/client.c, pkt_tracer/, tcping/, results_parser/ and the other zero-copy patches: benchmarks, plotting, and fragments of kernel files.
