/**
 * Properties of the relay: how the node list is edited, what a fan-out
 * and a drain put on the main queue, and what activation, caching and
 * registration promise over whole runs.
 */
module RelayProperties {

  import opened Wrappers
  import opened RelaySpec

  // ---------------------------------------------------------------------------
  // Node-list editing

  /** Filtering distributes over concatenation, so relative order is kept. */
  lemma {:induction false} FilterAppend(a: seq<ObserverId>, b: seq<ObserverId>, keep: ObserverId -> bool)
    ensures Filter(a + b, keep) == Filter(a, keep) + Filter(b, keep)
  {
    if b == [] {
      assert a + b == a;
    } else {
      var init := b[..|b| - 1];
      assert (a + b)[..|a + b| - 1] == a + init;
      assert (a + b)[|a + b| - 1] == b[|b| - 1];
      FilterAppend(a, init, keep);
    }
  }

  /** Each observer keeps all of its nodes if `keep` accepts it, and none otherwise. */
  lemma {:induction false} FilterCount(nodes: seq<ObserverId>, keep: ObserverId -> bool, x: ObserverId)
    ensures multiset(Filter(nodes, keep))[x] == if keep(x) then multiset(nodes)[x] else 0
  {
    if nodes != [] {
      var init: seq<ObserverId> := nodes[..|nodes| - 1];
      FilterCount(init, keep, x);
      assert nodes == init + [nodes[|nodes| - 1]];
    }
  }

  /** Every node that survives a filter is accepted by it. */
  lemma {:induction false} FilterKeeps(nodes: seq<ObserverId>, keep: ObserverId -> bool)
    ensures forall i | 0 <= i < |Filter(nodes, keep)| :: keep(Filter(nodes, keep)[i])
  {
    if nodes != [] {
      FilterKeeps(nodes[..|nodes| - 1], keep);
    }
  }

  /** Pruning twice with the same liveness prunes nothing more. */
  lemma {:induction false} PruneIdempotent(nodes: seq<ObserverId>, alive: set<ObserverId>)
    ensures Prune(Prune(nodes, alive), alive) == Prune(nodes, alive)
  {
    if nodes != [] {
      var init: seq<ObserverId> := nodes[..|nodes| - 1];
      var x := nodes[|nodes| - 1];
      PruneIdempotent(init, alive);
      FilterAppend(Prune(init, alive), if x in alive then [x] else [], y => y in alive);
      assert Prune(nodes, alive) == Prune(init, alive) + (if x in alive then [x] else []);
      if x in alive {
        assert [x][..0] == [];
      }
    }
  }

  /**
   * `removeDelegate(d)` for a live d: every node of d goes, every other node
   * stays (dead ones included, since their delegate is nil), and the nodes
   * that stay keep their relative order.
   */
  lemma RemoveDelegateEffect<P>(s: State<P>, d: ObserverId, alive: set<ObserverId>, x: ObserverId, k: nat)
    requires d in alive
    requires k <= |s.delegates|
    ensures var t := RemoveDelegate(s, d, alive);
      && multiset(t.delegates)[x] == (if x == d then 0 else multiset(s.delegates)[x])
      && t.delegates == RemoveMatching(s.delegates[..k], d, alive) + RemoveMatching(s.delegates[k..], d, alive)
      && t.isActive == s.isActive && t.caches == s.caches && t.mainQueue == s.mainQueue
  {
    FilterCount(s.delegates, y => !(y in alive && y == d), x);
    assert s.delegates == s.delegates[..k] + s.delegates[k..];
    FilterAppend(s.delegates[..k], s.delegates[k..], y => !(y in alive && y == d));
  }

  /** `addDelegate` appends without de-duplication: one more node for d, the list otherwise unchanged. */
  lemma AddDelegateEffect<P>(s: State<P>, d: ObserverId, x: ObserverId)
    ensures var t := AddDelegate(s, d);
      && t.delegates[..|s.delegates|] == s.delegates
      && multiset(t.delegates)[x] == multiset(s.delegates)[x] + (if x == d then 1 else 0)
  {
  }

  // ---------------------------------------------------------------------------
  // Fan-out and drain

  /** The fan-out puts node j's delivery at position j. */
  lemma {:induction false} FanOutAt<P>(nodes: seq<ObserverId>, isInside: bool, userInfo: P)
    ensures |FanOut(nodes, isInside, userInfo)| == |nodes|
    ensures forall j | 0 <= j < |nodes| ::
      FanOut(nodes, isInside, userInfo)[j] == Delivery(nodes[j], Tag(isInside), userInfo)
  {
    if nodes != [] {
      FanOutAt(nodes[..|nodes| - 1], isInside, userInfo);
    }
  }

  /** What an observer receives from a concatenated queue is what it receives from each part. */
  lemma {:induction false} ReceivedAppend<P>(a: seq<Delivery<P>>, b: seq<Delivery<P>>, o: ObserverId)
    ensures Received(a + b, o) == Received(a, o) + Received(b, o)
  {
    if b == [] {
      assert a + b == a;
    } else {
      var init := b[..|b| - 1];
      assert (a + b)[..|a + b| - 1] == a + init;
      assert (a + b)[|a + b| - 1] == b[|b| - 1];
      ReceivedAppend(a, init, o);
    }
  }

  /** Appending one delivery adds it to the addressee's list only. */
  lemma ReceivedSnoc<P>(q: seq<Delivery<P>>, d: Delivery<P>, o: ObserverId)
    ensures Received(q + [d], o) == Received(q, o) + (if d.observer == o then [(d.callback, d.userInfo)] else [])
  {
  }

  /** One more node adds one delivery for its observer, and one to that observer's count. */
  lemma FanOutSnoc<P>(nodes: seq<ObserverId>, isInside: bool, userInfo: P, o: ObserverId)
    requires nodes != []
    ensures var init, x := nodes[..|nodes| - 1], nodes[|nodes| - 1];
      && Received(FanOut(nodes, isInside, userInfo), o)
         == Received(FanOut(init, isInside, userInfo), o) + (if x == o then [(Tag(isInside), userInfo)] else [])
      && multiset(nodes)[o] == multiset(init)[o] + (if x == o then 1 else 0)
  {
    var init: seq<ObserverId> := nodes[..|nodes| - 1];
    var x := nodes[|nodes| - 1];
    ReceivedSnoc(FanOut(init, isInside, userInfo), Delivery(x, Tag(isInside), userInfo), o);
    assert nodes == init + [x];
  }

  /** An observer on k nodes gets k deliveries of the event, each with the event's callback. */
  lemma {:induction false} ReceivedFanOut<P>(nodes: seq<ObserverId>, isInside: bool, userInfo: P, o: ObserverId)
    ensures Received(FanOut(nodes, isInside, userInfo), o) == Repeat((Tag(isInside), userInfo), multiset(nodes)[o])
  {
    if nodes != [] {
      var init: seq<ObserverId> := nodes[..|nodes| - 1];
      var v := (Tag(isInside), userInfo);
      FanOutSnoc(nodes, isInside, userInfo, o);
      ReceivedFanOut(init, isInside, userInfo, o);
      var k := multiset(init)[o];
      if nodes[|nodes| - 1] == o {
        assert Repeat(v, k + 1) == Repeat(v, k) + [v];
      } else {
        assert Repeat(v, k) + [] == Repeat(v, k);
      }
    }
  }

  lemma {:induction false} DrainLogLength<P>(events: seq<CachedNotification<P>>, nodes: seq<ObserverId>)
    ensures |DrainLog(events, nodes)| == |events| * |nodes|
  {
    if events != [] {
      var last := events[|events| - 1];
      DrainLogLength(events[..|events| - 1], nodes);
      FanOutAt(nodes, last.isInside, last.userInfo);
      assert (|events| - 1) * |nodes| + |nodes| == |events| * |nodes|;
    }
  }

  /**
   * The drain is FIFO: the deliveries of cached event i come in block i, and
   * within the block node j's delivery is at offset j, with event i's callback.
   */
  lemma {:induction false} DrainLogAt<P>(events: seq<CachedNotification<P>>, nodes: seq<ObserverId>, i: nat, j: nat)
    requires i < |events| && j < |nodes|
    ensures |DrainLog(events, nodes)| == |events| * |nodes|
    ensures DrainLog(events, nodes)[i * |nodes| + j]
         == Delivery(nodes[j], Tag(events[i].isInside), events[i].userInfo)
  {
    DrainLogLength(events, nodes);
    var m, n := |events|, |nodes|;
    var init := events[..m - 1];
    var last := events[m - 1];
    var head := DrainLog(init, nodes);
    var fan := FanOut(nodes, last.isInside, last.userInfo);
    var p := i * n + j;
    assert DrainLog(events, nodes) == head + fan;
    DrainLogLength(init, nodes);
    if i == m - 1 {
      assert p == |head| + j;
      FanOutAt(nodes, last.isInside, last.userInfo);
      assert (head + fan)[p] == fan[j];
    } else {
      BlockBefore(i, j, m - 1, n);
      DrainLogAt(init, nodes, i, j);
      assert (head + fan)[p] == head[p];
      assert events[i] == init[i];
    }
  }

  /** Position j of block i lies before block k when i < k. */
  lemma BlockBefore(i: nat, j: nat, k: nat, n: nat)
    requires i < k && j < n
    ensures i * n + j < k * n
  {
    assert (i + 1) * n <= k * n by { MulMonotone(i + 1, k, n); }
  }

  lemma MulMonotone(a: nat, b: nat, n: nat)
    requires a <= b
    ensures a * n <= b * n
  {
  }

  /** An observer absent from the node list receives nothing from a drain. */
  lemma {:induction false} ReceivedDrainAbsent<P>(events: seq<CachedNotification<P>>, nodes: seq<ObserverId>, o: ObserverId)
    requires o !in nodes
    ensures Received(DrainLog(events, nodes), o) == []
  {
    if events != [] {
      var last := events[|events| - 1];
      ReceivedDrainAbsent(events[..|events| - 1], nodes, o);
      ReceivedAppend(DrainLog(events[..|events| - 1], nodes), FanOut(nodes, last.isInside, last.userInfo), o);
      ReceivedFanOut(nodes, last.isInside, last.userInfo, o);
    }
  }

  /** An observer on exactly one node receives every drained event once, in cache order, with its callback. */
  lemma {:induction false} ReceivedDrainOnce<P>(events: seq<CachedNotification<P>>, nodes: seq<ObserverId>, o: ObserverId)
    requires multiset(nodes)[o] == 1
    ensures |Received(DrainLog(events, nodes), o)| == |events|
    ensures forall i | 0 <= i < |events| ::
      Received(DrainLog(events, nodes), o)[i] == (Tag(events[i].isInside), events[i].userInfo)
  {
    if events != [] {
      var init := events[..|events| - 1];
      var last := events[|events| - 1];
      var v := (Tag(last.isInside), last.userInfo);
      var before := Received(DrainLog(init, nodes), o);
      var after := Received(DrainLog(events, nodes), o);
      assert after == before + [v] by {
        ReceivedAppend(DrainLog(init, nodes), FanOut(nodes, last.isInside, last.userInfo), o);
        ReceivedFanOut(nodes, last.isInside, last.userInfo, o);
        assert Repeat(v, 1) == [v];
      }
      ReceivedDrainOnce(init, nodes, o);
      forall i | 0 <= i < |events|
        ensures after[i] == (Tag(events[i].isInside), events[i].userInfo)
      {
        if i < |init| {
          assert events[i] == init[i];
        }
      }
    }
  }

  // ---------------------------------------------------------------------------
  // Posting, caching and activation

  /** While inactive, posting a list of notifications appends them, in order, to the cache and does nothing else. */
  lemma {:induction false} PostAllInactive<P>(s: State<P>, events: seq<CachedNotification<P>>, alive: set<ObserverId>)
    requires !s.isActive
    ensures PostAll(s, events, alive)
         == if events == [] then s else s.(caches := Some(Pending(s.caches) + events))
  {
    if events != [] {
      var init := events[..|events| - 1];
      var last := events[|events| - 1];
      PostAllInactive(s, init, alive);
      var u := PostAll(s, init, alive);
      assert !u.isActive && u.delegates == s.delegates && u.mainQueue == s.mainQueue;
      assert Pending(u.caches) == Pending(s.caches) + init;
      assert CachedNotification(last.userInfo, last.isInside) == last;
      assert Pending(s.caches) + init + [last] == Pending(s.caches) + events;
    }
  }

  /**
   * While active, posting a list of notifications never caches: it prunes
   * the node list (once there is something to post) and puts the drain of
   * the list through the surviving nodes on the main queue.
   */
  lemma {:induction false} PostAllActive<P>(s: State<P>, events: seq<CachedNotification<P>>, alive: set<ObserverId>)
    requires s.isActive
    ensures PostAll(s, events, alive)
         == s.(delegates := if events == [] then s.delegates else Prune(s.delegates, alive),
               mainQueue := s.mainQueue + DrainLog(events, Prune(s.delegates, alive)))
  {
    if events != [] {
      var init := events[..|events| - 1];
      var last := events[|events| - 1];
      var live := Prune(s.delegates, alive);
      PostAllActive(s, init, alive);
      var u := PostAll(s, init, alive);
      PruneIdempotent(s.delegates, alive);
      assert Prune(u.delegates, alive) == live;
      var fan := FanOut(live, last.isInside, last.userInfo);
      assert PostAll(s, events, alive) == PostNotification(u, last.userInfo, last.isInside, alive);
      assert PostNotification(u, last.userInfo, last.isInside, alive) == u.(delegates := live, mainQueue := u.mainQueue + fan);
      assert DrainLog(events, live) == DrainLog(init, live) + fan;
      assert u.mainQueue + fan == s.mainQueue + DrainLog(events, live);
    }
  }

  /**
   * Activating an inactive relay: it becomes active, the cache becomes nil
   * (whether or not anything was cached), and every cached notification is
   * dispatched in arrival order to the live nodes. The node list is pruned
   * only if there was something to dispatch.
   */
  lemma ActivateDrains<P>(s: State<P>, alive: set<ObserverId>)
    requires !s.isActive
    ensures var pending := Pending(s.caches);
      Activate(s, alive)
        == s.(isActive := true, caches := None,
              delegates := if pending == [] then s.delegates else Prune(s.delegates, alive),
              mainQueue := s.mainQueue + DrainLog(pending, Prune(s.delegates, alive)))
  {
    PostAllActive(s.(isActive := true), Pending(s.caches), alive);
  }

  /** `activate` is idempotent: a second call changes nothing and delivers nothing. */
  lemma ActivateIdempotent<P>(s: State<P>, alive: set<ObserverId>, alive2: set<ObserverId>)
    ensures Activate(s, alive).isActive && Activate(s, alive).caches == (if s.isActive then s.caches else None)
    ensures Activate(Activate(s, alive), alive2) == Activate(s, alive)
  {
    if !s.isActive {
      ActivateDrains(s, alive);
    }
  }

  /**
   * Activation delivers the whole cache, in arrival order and each with its
   * own `isInside` flag, to an observer that is alive and on exactly one node
   * at the moment of activation, however and whenever it was added.
   */
  lemma DrainReachesObserver<P>(s: State<P>, alive: set<ObserverId>, o: ObserverId)
    requires Inv(s) && !s.isActive
    requires o in alive && multiset(s.delegates)[o] == 1
    ensures var t, pending := Activate(s, alive), Pending(s.caches);
      && t.isActive && t.caches == None
      && |Received(t.mainQueue, o)| == |pending|
      && forall i | 0 <= i < |pending| :: Received(t.mainQueue, o)[i] == (Tag(pending[i].isInside), pending[i].userInfo)
  {
    var live: seq<ObserverId> := Prune(s.delegates, alive);
    ActivateDrains(s, alive);
    assert multiset(live)[o] == 1 by {
      FilterCount(s.delegates, x => x in alive, o);
    }
    assert Activate(s, alive).mainQueue == DrainLog(Pending(s.caches), live);
    ReceivedDrainOnce(Pending(s.caches), live, o);
  }

  /** A filter that accepts none of the nodes leaves nothing. */
  lemma {:induction false} FilterNone(nodes: seq<ObserverId>, keep: ObserverId -> bool)
    requires forall x | x in nodes :: !keep(x)
    ensures Filter(nodes, keep) == []
  {
    if nodes != [] {
      FilterNone(nodes[..|nodes| - 1], keep);
      assert nodes[|nodes| - 1] in nodes;
    }
  }

  /** Once active, a notification posted with no live observer is dropped, not cached. */
  lemma DroppedWithoutObservers<P>(s: State<P>, userInfo: P, isInside: bool, alive: set<ObserverId>)
    requires s.isActive
    requires forall x | x in s.delegates :: x !in alive
    ensures PostNotification(s, userInfo, isInside, alive) == s.(delegates := [])
  {
    FilterNone(s.delegates, x => x in alive);
  }

  /** Once active, each live observer gets one delivery per node it is registered on; duplicates are not merged. */
  lemma DuplicateDelivery<P>(s: State<P>, userInfo: P, isInside: bool, alive: set<ObserverId>, o: ObserverId)
    requires s.isActive && o in alive
    ensures Received(PostNotification(s, userInfo, isInside, alive).mainQueue, o)
         == Received(s.mainQueue, o) + Repeat((Tag(isInside), userInfo), multiset(s.delegates)[o])
  {
    var live: seq<ObserverId> := Prune(s.delegates, alive);
    ReceivedAppend(s.mainQueue, FanOut(live, isInside, userInfo), o);
    ReceivedFanOut(live, isInside, userInfo, o);
    FilterCount(s.delegates, x => x in alive, o);
  }

  /** An observer added after activation is not sent anything posted before it was added. */
  lemma NoReplayForLateObserver<P>(s: State<P>, events: seq<CachedNotification<P>>, alive: set<ObserverId>,
                                   o: ObserverId, alive2: set<ObserverId>)
    requires s.isActive && o !in s.delegates
    ensures var t := AddDelegate(PostAll(s, events, alive), o);
      && Received(t.mainQueue, o) == Received(s.mainQueue, o)
      && Activate(t, alive2) == t
  {
    PostAllActive(s, events, alive);
    var live: seq<ObserverId> := Prune(s.delegates, alive);
    FilterCount(s.delegates, x => x in alive, o);
    assert o !in live;
    ReceivedDrainAbsent(events, live, o);
    ReceivedAppend(s.mainQueue, DrainLog(events, live), o);
  }

  /** After `removeDelegate(o)` for a live o, nothing posted reaches o until it is added again. */
  lemma RemovedObserverGetsNothing<P>(s: State<P>, o: ObserverId, alive: set<ObserverId>,
                                      userInfo: P, isInside: bool, alive2: set<ObserverId>)
    requires o in alive
    ensures o !in RemoveDelegate(s, o, alive).delegates
    ensures var t := RemoveDelegate(s, o, alive);
      Received(PostNotification(t, userInfo, isInside, alive2).mainQueue, o) == Received(t.mainQueue, o)
  {
    var t := RemoveDelegate(s, o, alive);
    FilterCount(s.delegates, x => !(x in alive && x == o), o);
    assert o !in t.delegates;
    if t.isActive {
      var live := Prune(t.delegates, alive2);
      FilterCount(t.delegates, x => x in alive2, o);
      ReceivedAppend(t.mainQueue, FanOut(live, isInside, userInfo), o);
      ReceivedFanOut(live, isInside, userInfo, o);
    }
  }

  /** add(O1), add(O2), post(E), remove(O1), post(F). */
  function Scenario<P>(s: State<P>, o1: ObserverId, o2: ObserverId, alive: set<ObserverId>,
                       e: CachedNotification<P>, f: CachedNotification<P>): State<P>
  {
    var t1 := PostNotification(AddDelegate(AddDelegate(s, o1), o2), e.userInfo, e.isInside, alive);
    PostNotification(RemoveDelegate(t1, o1, alive), f.userInfo, f.isInside, alive)
  }

  /**
   * add(O1), add(O2), post(E) while active: both receive E; then remove(O1),
   * post(F): only O2 receives F.
   */
  lemma TwoObserverScenario<P>(s: State<P>, o1: ObserverId, o2: ObserverId, alive: set<ObserverId>,
                               e: CachedNotification<P>, f: CachedNotification<P>)
    requires s.isActive && s.delegates == [] && o1 != o2 && o1 in alive && o2 in alive
    ensures Received(Scenario(s, o1, o2, alive, e, f).mainQueue, o1)
         == Received(s.mainQueue, o1) + [(Tag(e.isInside), e.userInfo)]
    ensures Received(Scenario(s, o1, o2, alive, e, f).mainQueue, o2)
         == Received(s.mainQueue, o2) + [(Tag(e.isInside), e.userInfo)] + [(Tag(f.isInside), f.userInfo)]
  {
    var t1 := PostNotification(AddDelegate(AddDelegate(s, o1), o2), e.userInfo, e.isInside, alive);
    ScenarioFirstPost(s, o1, o2, alive, e);
    ScenarioSecondPost(t1, o1, o2, alive, f);
  }

  /** The first half of TwoObserverScenario: both observers receive E. */
  lemma ScenarioFirstPost<P>(s: State<P>, o1: ObserverId, o2: ObserverId, alive: set<ObserverId>, e: CachedNotification<P>)
    requires s.isActive && s.delegates == [] && o1 != o2 && o1 in alive && o2 in alive
    ensures var t1 := PostNotification(AddDelegate(AddDelegate(s, o1), o2), e.userInfo, e.isInside, alive);
      && Received(t1.mainQueue, o1) == Received(s.mainQueue, o1) + [(Tag(e.isInside), e.userInfo)]
      && Received(t1.mainQueue, o2) == Received(s.mainQueue, o2) + [(Tag(e.isInside), e.userInfo)]
      && multiset(t1.delegates)[o2] == 1 && t1.isActive
  {
    var ve := (Tag(e.isInside), e.userInfo);
    var s2 := AddDelegate(AddDelegate(s, o1), o2);
    assert s2.delegates == [o1, o2];
    assert multiset(s2.delegates)[o1] == 1 && multiset(s2.delegates)[o2] == 1;
    assert Repeat(ve, 1) == [ve];
    DuplicateDelivery(s2, e.userInfo, e.isInside, alive, o1);
    DuplicateDelivery(s2, e.userInfo, e.isInside, alive, o2);
    FilterCount(s2.delegates, x => x in alive, o2);
  }

  /** The second half of TwoObserverScenario: after removing O1, only O2 receives F. */
  lemma ScenarioSecondPost<P>(t1: State<P>, o1: ObserverId, o2: ObserverId, alive: set<ObserverId>, f: CachedNotification<P>)
    requires t1.isActive && multiset(t1.delegates)[o2] == 1 && o1 != o2 && o1 in alive && o2 in alive
    ensures var t2 := PostNotification(RemoveDelegate(t1, o1, alive), f.userInfo, f.isInside, alive);
      && Received(t2.mainQueue, o1) == Received(t1.mainQueue, o1)
      && Received(t2.mainQueue, o2) == Received(t1.mainQueue, o2) + [(Tag(f.isInside), f.userInfo)]
  {
    var vf := (Tag(f.isInside), f.userInfo);
    var r := RemoveDelegate(t1, o1, alive);
    RemoveDelegateEffect(t1, o1, alive, o2, 0);
    DuplicateDelivery(r, f.userInfo, f.isInside, alive, o2);
    assert Repeat(vf, 1) == [vf];
    RemovedObserverGetsNothing(t1, o1, alive, f.userInfo, f.isInside, alive);
  }

  // ---------------------------------------------------------------------------
  // Whole runs

  /** Every operation keeps the invariant. */
  lemma StepInv<P>(s: State<P>, op: Op<P>)
    requires Inv(s)
    ensures Inv(Step(s, op))
  {
    if op.ActivateOp? && !s.isActive {
      ActivateDrains(s, op.alive);
    }
  }

  /** Every reachable relay satisfies the invariant. */
  lemma {:induction false} RunInv<P>(ops: seq<Op<P>>)
    ensures Inv(Run(Init(), ops))
  {
    if ops != [] {
      RunInv(ops[..|ops| - 1]);
      StepInv(Run(Init(), ops[..|ops| - 1]), ops[|ops| - 1]);
    }
  }

  /** Activation is one-way, and the main queue only ever grows at its tail. */
  lemma {:induction false} RunMonotone<P>(s: State<P>, ops: seq<Op<P>>)
    ensures s.isActive ==> Run(s, ops).isActive
    ensures s.mainQueue <= Run(s, ops).mainQueue
  {
    if ops != [] {
      var u := Run(s, ops[..|ops| - 1]);
      RunMonotone(s, ops[..|ops| - 1]);
      var op := ops[|ops| - 1];
      if op.ActivateOp? && !u.isActive {
        ActivateDrains(u, op.alive);
      }
    }
  }

  /** While no activation happens, the cache collects every posted notification in order and nothing is delivered. */
  lemma {:induction false} InactiveRun<P>(s: State<P>, ops: seq<Op<P>>)
    requires !s.isActive
    requires forall i | 0 <= i < |ops| :: !ops[i].ActivateOp?
    ensures var t := Run(s, ops);
      && !t.isActive && t.mainQueue == s.mainQueue
      && Pending(t.caches) == Pending(s.caches) + Posted(ops)
  {
    if ops != [] {
      var init := ops[..|ops| - 1];
      InactiveRun(s, init);
      var last := ops[|ops| - 1];
      if last.PostOp? {
        assert Pending(s.caches) + Posted(init) + [CachedNotification(last.userInfo, last.isInside)]
            == Pending(s.caches) + Posted(ops);
      }
    }
  }

  /**
   * From a fresh relay, any mix of posts, additions and removals before
   * `activate()`: an observer that is alive and on exactly one node at
   * activation receives every posted notification once, in posting order,
   * each with its own `isInside` flag.
   */
  lemma BufferedThenActivated<P>(ops: seq<Op<P>>, alive: set<ObserverId>, o: ObserverId)
    requires forall i | 0 <= i < |ops| :: !ops[i].ActivateOp?
    requires o in alive && multiset(Run(Init(), ops).delegates)[o] == 1
    ensures var t, posted := Activate(Run(Init(), ops), alive), Posted(ops);
      && t.isActive && t.caches == None
      && |Received(t.mainQueue, o)| == |posted|
      && forall i | 0 <= i < |posted| :: Received(t.mainQueue, o)[i] == (Tag(posted[i].isInside), posted[i].userInfo)
  {
    var u := Run(Init(), ops);
    InactiveRun(Init(), ops);
    assert Pending(u.caches) == Posted(ops);
    DrainReachesObserver(u, alive, o);
  }

  /** One operation other than adding o keeps o off the node list and sends o nothing. */
  lemma StepKeepsAbsent<P>(s: State<P>, op: Op<P>, o: ObserverId)
    requires o !in s.delegates && op != AddOp(o)
    ensures o !in Step(s, op).delegates
    ensures Received(Step(s, op).mainQueue, o) == Received(s.mainQueue, o)
  {
    match op
    case PostOp(userInfo, isInside, alive) =>
      if s.isActive {
        var live: seq<ObserverId> := Prune(s.delegates, alive);
        FilterCount(s.delegates, x => x in alive, o);
        assert o !in live;
        ReceivedDrainAbsent([CachedNotification(userInfo, isInside)], live, o);
        assert DrainLog([CachedNotification(userInfo, isInside)], live) == FanOut(live, isInside, userInfo);
        ReceivedAppend(s.mainQueue, FanOut(live, isInside, userInfo), o);
      }
    case ActivateOp(alive) =>
      if !s.isActive {
        var live: seq<ObserverId> := Prune(s.delegates, alive);
        ActivateDrains(s, alive);
        FilterCount(s.delegates, x => x in alive, o);
        assert o !in live;
        ReceivedDrainAbsent(Pending(s.caches), live, o);
        ReceivedAppend(s.mainQueue, DrainLog(Pending(s.caches), live), o);
      }
    case AddOp(d) =>
    case RemoveOp(d, alive) =>
      FilterCount(s.delegates, x => !(x in alive && x == d), o);
    case RemoveAllOp =>
  }

  /**
   * After `removeDelegate(o)` for a live o, o receives nothing more for as
   * long as it is not added again: not from later posts, and not from the
   * drain of notifications cached while it was still registered.
   */
  lemma {:induction false} RemovedObserverNeverReceives<P>(s: State<P>, o: ObserverId, alive: set<ObserverId>, ops: seq<Op<P>>)
    requires o in alive
    requires forall i | 0 <= i < |ops| :: ops[i] != AddOp(o)
    ensures var t := RemoveDelegate(s, o, alive);
      && o !in Run(t, ops).delegates
      && Received(Run(t, ops).mainQueue, o) == Received(s.mainQueue, o)
  {
    var t := RemoveDelegate(s, o, alive);
    if ops == [] {
      FilterCount(s.delegates, x => !(x in alive && x == o), o);
    } else {
      var init := ops[..|ops| - 1];
      RemovedObserverNeverReceives(s, o, alive, init);
      StepKeepsAbsent(Run(t, init), ops[|ops| - 1], o);
    }
  }

}
