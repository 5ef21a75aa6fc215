/**
 * The `ZJRemoteNotification` singleton as a class whose methods update its
 * fields in place. Every relay method states its new state as the matching
 * step function of RelaySpec applied to the old state; the properties of
 * those step functions are proved in RelayProperties.
 *
 * `mainQueue` stands for the work items queued with `DispatchQueue.main.async`:
 * the main queue is FIFO, so observers are called in this order.
 */
module Notifications {

  import opened Wrappers
  import opened DeviceToken
  import opened RelaySpec
  import RelayProperties

  class RemoteNotification<P> {
    var deviceToken: Option<string>
    var delegates: seq<ObserverId>
    var isActive: bool
    var caches: Option<seq<CachedNotification<P>>>
    var mainQueue: seq<Delivery<P>>

    /** The relay part of the object as a value. */
    function View(): State<P>
      reads this
    {
      State(isActive, caches, delegates, mainQueue)
    }

    /** The relay invariant of RelaySpec holds of the object. */
    ghost predicate Valid()
      reads this
    {
      Inv(View())
    }

    /** `private override init()`: inactive, no cache (nil, not empty), no observers. */
    constructor ()
      ensures Valid() && View() == Init() && deviceToken == None
      ensures !isActive && caches == None && delegates == [] && mainQueue == []
    {
      deviceToken := None;
      delegates := [];
      isActive := false;
      caches := None;
      mainQueue := [];
    }

    /** `activate`: the first call sets `isActive`, whose `didSet` drains the cache. */
    method Activate(alive: set<ObserverId>)
      requires Valid()
      modifies this
      ensures Valid()
      ensures View() == RelaySpec.Activate(old(View()), alive)
      ensures isActive && (old(isActive) ==> View() == old(View()))
      ensures deviceToken == old(deviceToken)
    {
      ghost var before := View();
      if !isActive {
        isActive := true;
        // didSet { if isActive { postCacheNotifications() } }
        PostCacheNotifications(alive);
      }
      RelayProperties.StepInv(before, ActivateOp(alive));
    }

    /** `addDelegate`: a new node at the tail, duplicates allowed. */
    method AddDelegate(d: ObserverId)
      requires Valid()
      modifies this
      ensures Valid()
      ensures View() == RelaySpec.AddDelegate(old(View()), d)
      ensures delegates == old(delegates) + [d]
      ensures deviceToken == old(deviceToken)
    {
      ghost var before := View();
      delegates := delegates + [d];
      RelayProperties.StepInv(before, AddOp(d));
    }

    /**
     * `removeDelegate`: drops the nodes whose observer is alive and is `d`.
     * `d` is a strong reference held by the caller, so it is alive.
     */
    method RemoveDelegate(d: ObserverId, alive: set<ObserverId>)
      requires d in alive
      requires Valid()
      modifies this
      ensures Valid()
      ensures View() == RelaySpec.RemoveDelegate(old(View()), d, alive)
      ensures d !in delegates
      ensures deviceToken == old(deviceToken)
    {
      var kept: seq<ObserverId> := [];
      var i := 0;
      while i < |delegates|
        invariant 0 <= i <= |delegates|
        invariant kept == RemoveMatching(delegates[..i], d, alive)
        invariant d !in kept
      {
        var node := delegates[i];
        if !(node in alive && node == d) {
          kept := kept + [node];
        }
        assert delegates[..i + 1][..i] == delegates[..i];
        i := i + 1;
      }
      assert delegates[..i] == delegates;
      ghost var before := View();
      delegates := kept;
      RelayProperties.StepInv(before, RemoveOp(d, alive));
    }

    /** `removeAllDelegate` */
    method RemoveAllDelegate()
      requires Valid()
      modifies this
      ensures Valid()
      ensures View() == RelaySpec.RemoveAllDelegate(old(View()))
      ensures delegates == []
      ensures deviceToken == old(deviceToken)
    {
      delegates := [];
    }

    /** `application(_:didRegisterForRemoteNotificationsWithDeviceToken:)` */
    method DidRegisterForRemoteNotifications(token: seq<byte>)
      requires Valid()
      modifies this
      ensures Valid()
      ensures deviceToken == Some(Hex(token))
      ensures View() == old(View())
    {
      deviceToken := Some(Hex(token));
    }

    /** `application(_ deviceToken: String)`: stores a token given as text. */
    method SetDeviceToken(token: string)
      requires Valid()
      modifies this
      ensures Valid()
      ensures deviceToken == Some(token)
      ensures View() == old(View())
    {
      deviceToken := Some(token);
    }

    /** `application(_:didReceiveRemoteNotification:fetchCompletionHandler:)`: inside iff the app is active. */
    method DidReceiveRemoteNotification(userInfo: P, applicationIsActive: bool, alive: set<ObserverId>)
      requires Valid()
      modifies this
      ensures Valid()
      ensures View() == RelaySpec.PostNotification(old(View()), userInfo, applicationIsActive, alive)
      ensures deviceToken == old(deviceToken)
    {
      ghost var before := View();
      PostNotification(userInfo, applicationIsActive, alive);
      RelayProperties.StepInv(before, PostOp(userInfo, applicationIsActive, alive));
    }

    /** `userNotificationCenter(_:willPresent:withCompletionHandler:)`: always inside. */
    method WillPresent(userInfo: P, alive: set<ObserverId>)
      requires Valid()
      modifies this
      ensures Valid()
      ensures View() == RelaySpec.PostNotification(old(View()), userInfo, true, alive)
      ensures deviceToken == old(deviceToken)
    {
      ghost var before := View();
      PostNotification(userInfo, true, alive);
      RelayProperties.StepInv(before, PostOp(userInfo, true, alive));
    }

    /** `userNotificationCenter(_:didReceive:withCompletionHandler:)`: always outside. */
    method DidReceiveResponse(userInfo: P, alive: set<ObserverId>)
      requires Valid()
      modifies this
      ensures Valid()
      ensures View() == RelaySpec.PostNotification(old(View()), userInfo, false, alive)
      ensures deviceToken == old(deviceToken)
    {
      ghost var before := View();
      PostNotification(userInfo, false, alive);
      RelayProperties.StepInv(before, PostOp(userInfo, false, alive));
    }

    /**
     * `postNotification`: when active, prune the nodes of dead observers, then
     * queue one callback per surviving node; when inactive, cache.
     */
    method PostNotification(userInfo: P, isInside: bool, alive: set<ObserverId>)
      modifies this
      ensures View() == RelaySpec.PostNotification(old(View()), userInfo, isInside, alive)
      ensures deviceToken == old(deviceToken)
    {
      if isActive {
        // delegates.removeAll { $0.delegate == nil }
        var kept: seq<ObserverId> := [];
        var i := 0;
        while i < |delegates|
          invariant 0 <= i <= |delegates|
          invariant kept == Prune(delegates[..i], alive)
          invariant forall k | 0 <= k < |kept| :: kept[k] in alive
        {
          var node := delegates[i];
          if node in alive {
            kept := kept + [node];
          }
          assert delegates[..i + 1][..i] == delegates[..i];
          i := i + 1;
        }
        assert delegates[..i] == delegates;
        delegates := kept;
        // delegates.forEach { if let delegate = ... { executeInMain { ... } } }
        ghost var queued := mainQueue;
        i := 0;
        while i < |delegates|
          invariant 0 <= i <= |delegates|
          invariant delegates == kept && isActive && caches == old(caches) && deviceToken == old(deviceToken)
          invariant mainQueue == queued + FanOut(delegates[..i], isInside, userInfo)
        {
          var node := delegates[i];
          if node in alive {
            mainQueue := mainQueue + [Delivery(node, Tag(isInside), userInfo)];
          }
          assert delegates[..i + 1][..i] == delegates[..i];
          i := i + 1;
        }
        assert delegates[..i] == delegates;
      } else {
        CacheNotification(userInfo, isInside);
      }
    }

    /** `postCacheNotifications`: post every cached notification in order, then set the cache to nil. */
    method PostCacheNotifications(alive: set<ObserverId>)
      requires isActive
      modifies this
      ensures View() == RelaySpec.PostCacheNotifications(old(View()), alive)
      ensures isActive
      ensures deviceToken == old(deviceToken)
    {
      if caches.Some? && caches.value != [] {
        var notifications := caches.value;
        ghost var start := View();
        var i := 0;
        while i < |notifications|
          invariant 0 <= i <= |notifications|
          invariant View() == PostAll(start, notifications[..i], alive)
          invariant isActive
          invariant deviceToken == old(deviceToken)
        {
          PostNotification(notifications[i].userInfo, notifications[i].isInside, alive);
          assert notifications[..i + 1][..i] == notifications[..i];
          i := i + 1;
        }
        assert notifications[..i] == notifications;
      }
      caches := None;
    }

    /** `cacheNotification`: create the list if it is nil, then append at the tail. */
    method CacheNotification(userInfo: P, isInside: bool)
      requires !isActive
      modifies this
      ensures caches == Some(Pending(old(caches)) + [CachedNotification(userInfo, isInside)])
      ensures isActive == old(isActive) && delegates == old(delegates) && mainQueue == old(mainQueue)
      ensures deviceToken == old(deviceToken)
    {
      if caches == None {
        caches := Some([]);
      }
      caches := Some(caches.value + [CachedNotification(userInfo, isInside)]);
    }
  }

}
