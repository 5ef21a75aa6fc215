/**
 * The notification relay of ZJRemoteNotification.swift as a value-level
 * state machine. `State` holds the singleton's three relay fields
 * (`isActive`, `caches`, `delegates`) plus the main dispatch queue, on
 * which every observer callback is scheduled with `DispatchQueue.main.async`.
 *
 * Observers are ids. A `DelegateNode` is the id of the observer it points
 * at, and an `alive` set tells which observers still exist: a node whose
 * id is not alive is a node whose weak `delegate` has become nil.
 * Payloads (`userInfo`) are opaque values of type P.
 */
module RelaySpec {

  import opened Wrappers

  type ObserverId = nat

  /** The two callbacks of ZJRemoteNotificationDelegate. */
  datatype Callback = Inside | Outside

  function Tag(isInside: bool): Callback
  {
    if isInside then Inside else Outside
  }

  /** `CacheNotification`: a notification received before activation. */
  datatype CachedNotification<P> = CachedNotification(userInfo: P, isInside: bool)

  /** One work item on the main queue: `observer.didReceiveNotification<callback>(userInfo:)`. */
  datatype Delivery<P> = Delivery(observer: ObserverId, callback: Callback, userInfo: P)

  datatype State<P> = State(
    isActive: bool,
    caches: Option<seq<CachedNotification<P>>>,
    delegates: seq<ObserverId>,
    mainQueue: seq<Delivery<P>>)

  /** The singleton as `init` leaves it. */
  function Init<P>(): State<P>
  {
    State(false, None, [], [])
  }

  /** The cached notifications, with an absent cache read as none. */
  function Pending<P>(caches: Option<seq<CachedNotification<P>>>): seq<CachedNotification<P>>
  {
    if caches.Some? then caches.value else []
  }

  // ---------------------------------------------------------------------------
  // The node list: `removeAll(where:)` keeps the nodes the predicate rejects.

  /** The nodes for which `keep` holds, in their original order. */
  function Filter(nodes: seq<ObserverId>, keep: ObserverId -> bool): seq<ObserverId>
  {
    if nodes == [] then []
    else Filter(nodes[..|nodes| - 1], keep) + (if keep(nodes[|nodes| - 1]) then [nodes[|nodes| - 1]] else [])
  }

  /** `delegates.removeAll { $0.delegate == nil }`: drop the nodes of dead observers. */
  function Prune(nodes: seq<ObserverId>, alive: set<ObserverId>): seq<ObserverId>
  {
    Filter(nodes, x => x in alive)
  }

  /**
   * `delegates.removeAll { if let a = $0.delegate, a.isEqual(d) ... }`: drop the
   * nodes whose observer is still alive and is d. A dead node's delegate is nil,
   * so the predicate rejects it and the node stays.
   */
  function RemoveMatching(nodes: seq<ObserverId>, d: ObserverId, alive: set<ObserverId>): seq<ObserverId>
  {
    Filter(nodes, x => !(x in alive && x == d))
  }

  /** `delegates.forEach { executeInMain { ... } }`: one delivery per node, in node order. */
  function FanOut<P>(nodes: seq<ObserverId>, isInside: bool, userInfo: P): seq<Delivery<P>>
  {
    if nodes == [] then []
    else FanOut(nodes[..|nodes| - 1], isInside, userInfo) + [Delivery(nodes[|nodes| - 1], Tag(isInside), userInfo)]
  }

  // ---------------------------------------------------------------------------
  // The operations.

  /** `cacheNotification`: create the list if absent, then append at the tail. */
  function CacheNotification<P>(caches: Option<seq<CachedNotification<P>>>, userInfo: P, isInside: bool)
    : Option<seq<CachedNotification<P>>>
  {
    Some(Pending(caches) + [CachedNotification(userInfo, isInside)])
  }

  /** `postNotification`: fan out once active (after pruning dead nodes), cache before. */
  function PostNotification<P>(s: State<P>, userInfo: P, isInside: bool, alive: set<ObserverId>): State<P>
  {
    if s.isActive then
      var live := Prune(s.delegates, alive);
      s.(delegates := live, mainQueue := s.mainQueue + FanOut(live, isInside, userInfo))
    else
      s.(caches := CacheNotification(s.caches, userInfo, isInside))
  }

  /** `notifications.forEach { postNotification(...) }`: post a list of notifications in order. */
  function PostAll<P>(s: State<P>, events: seq<CachedNotification<P>>, alive: set<ObserverId>): State<P>
  {
    if events == [] then s
    else
      var last := events[|events| - 1];
      PostNotification(PostAll(s, events[..|events| - 1], alive), last.userInfo, last.isInside, alive)
  }

  /** `postCacheNotifications`: replay a non-empty cache, then set the cache to nil. */
  function PostCacheNotifications<P>(s: State<P>, alive: set<ObserverId>): State<P>
  {
    var drained := if s.caches.Some? && s.caches.value != [] then PostAll(s, s.caches.value, alive) else s;
    drained.(caches := None)
  }

  /** `activate`: set `isActive` once; its `didSet` drains the cache. */
  function Activate<P>(s: State<P>, alive: set<ObserverId>): State<P>
  {
    if s.isActive then s else PostCacheNotifications(s.(isActive := true), alive)
  }

  function AddDelegate<P>(s: State<P>, d: ObserverId): State<P>
  {
    s.(delegates := s.delegates + [d])
  }

  function RemoveDelegate<P>(s: State<P>, d: ObserverId, alive: set<ObserverId>): State<P>
  {
    s.(delegates := RemoveMatching(s.delegates, d, alive))
  }

  function RemoveAllDelegate<P>(s: State<P>): State<P>
  {
    s.(delegates := [])
  }

  /** One call into the relay, with the liveness of observers at the time of the call. */
  datatype Op<P> =
    | PostOp(userInfo: P, isInside: bool, alive: set<ObserverId>)
    | ActivateOp(alive: set<ObserverId>)
    | AddOp(d: ObserverId)
    | RemoveOp(d: ObserverId, alive: set<ObserverId>)
    | RemoveAllOp

  function Step<P>(s: State<P>, op: Op<P>): State<P>
  {
    match op
    case PostOp(userInfo, isInside, alive) => PostNotification(s, userInfo, isInside, alive)
    case ActivateOp(alive) => Activate(s, alive)
    case AddOp(d) => AddDelegate(s, d)
    case RemoveOp(d, alive) => RemoveDelegate(s, d, alive)
    case RemoveAllOp => RemoveAllDelegate(s)
  }

  function Run<P>(s: State<P>, ops: seq<Op<P>>): State<P>
  {
    if ops == [] then s else Step(Run(s, ops[..|ops| - 1]), ops[|ops| - 1])
  }

  /** The notifications posted by a run, in posting order. */
  function Posted<P>(ops: seq<Op<P>>): seq<CachedNotification<P>>
  {
    if ops == [] then []
    else
      var last := ops[|ops| - 1];
      Posted(ops[..|ops| - 1]) + (if last.PostOp? then [CachedNotification(last.userInfo, last.isInside)] else [])
  }

  /**
   * The relay's invariant: an active relay has no cache (it is nil, not
   * empty), and an inactive relay has delivered nothing.
   */
  ghost predicate Inv<P>(s: State<P>)
  {
    (s.isActive ==> s.caches == None) && (!s.isActive ==> s.mainQueue == [])
  }

  // ---------------------------------------------------------------------------
  // What one observer sees: its callbacks, in main-queue order.

  function Received<P>(queue: seq<Delivery<P>>, o: ObserverId): seq<(Callback, P)>
  {
    if queue == [] then []
    else
      var d := queue[|queue| - 1];
      Received(queue[..|queue| - 1], o) + (if d.observer == o then [(d.callback, d.userInfo)] else [])
  }

  /** k copies of x. */
  function Repeat<T>(x: T, k: nat): seq<T>
  {
    if k == 0 then [] else Repeat(x, k - 1) + [x]
  }

  /** What draining `events` through the live node list `nodes` puts on the main queue. */
  function DrainLog<P>(events: seq<CachedNotification<P>>, nodes: seq<ObserverId>): seq<Delivery<P>>
  {
    if events == [] then []
    else
      var last := events[|events| - 1];
      DrainLog(events[..|events| - 1], nodes) + FanOut(nodes, last.isInside, last.userInfo)
  }

}
