# ZJRemoteNotification relay, modelled in Dafny

`ZJRemoteNotification` is an iOS singleton that wraps Apple's push-notification
callbacks. It adds two behaviours of its own, and this project models both:

- **The notification relay.** Before the app calls `activate()`, incoming
  notifications are cached as `(userInfo, isInside)` pairs. `activate()` flips
  `isActive` once. The `didSet` on that flag then replays the cache in arrival
  order and sets the cache to `nil`. Once active, each notification first prunes
  the observer nodes whose weak reference has expired. It then queues one
  callback per surviving node on the main queue: `didReceiveNotificationInside`
  when `isInside` holds, `didReceiveNotificationOutside` otherwise. Observers are
  added without de-duplication. They are removed by identity or all at once.
- **The device-token string.** The token bytes are formatted with `%02.2hhx` and
  joined. This is base16 (section 8 of RFC 4648) with lowercase digits.

Files:

- `Wrappers.dfy`: `Option`, for Swift's optionals.
- `DeviceToken.dfy`: the hex formatting as functions. A decoder `Unhex` is its
  partner, and the lemmas cover length, alphabet, pair-per-byte and round trip.
- `RelaySpec.dfy`: the relay as a value-level state machine. `State` holds
  `isActive`, `caches`, `delegates` and the main queue. There is one step
  function per operation.
- `RelayProperties.dfy`: lemmas about the step functions.
- `Notifications.dfy`: the singleton as a class `RemoteNotification`. Its methods
  update the fields in place with loops, and each one ensures that its new
  `View()` equals the step function applied to the old one. The public
  methods also require and keep `Valid()`, the relay invariant `Inv` of the
  object's view.

How the runtime is represented:

- Observers are ids (`ObserverId`). A `DelegateNode` is the id it points at.
- Weak-reference expiry is an `alive` set passed to every operation that looks
  at liveness: posting, activation (through the drain) and `removeDelegate`. A
  node whose id is not in `alive` is a node whose `delegate` has become `nil`.
- Each `DispatchQueue.main.async` callback is a `Delivery(observer, Inside |
  Outside, userInfo)` appended to `mainQueue`. The main queue is FIFO, so this
  order is the order in which observers are called.
- `userInfo` is an opaque type parameter `P`.

Two details of the code that are easy to miss, both kept by the model:

- `removeDelegate` does not prune expired nodes. A node whose delegate is `nil`
  fails the `if let` at `ZJRemoteNotification/Classes/ZJRemoteNotification.swift:110`
  and is kept. Only posting while active prunes.
- Activation prunes the node list only when the cache is non-empty, because
  only then does the drain call `postNotification`. With a `nil` or empty cache,
  `activate()` leaves `delegates` untouched.

## Model

| member | source | states |
|---|---|---|
| DeviceToken.DigitValue | ZJRemoteNotification/Classes/ZJRemoteNotification.swift:131 | a character has a value exactly when it is a lowercase hex digit, and that value is a nibble |
| DeviceToken.HexDigit | ZJRemoteNotification/Classes/ZJRemoteNotification.swift:131 | each nibble becomes a lowercase hex digit that reads back as the same nibble |
| DeviceToken.FormatByte | ZJRemoteNotification/Classes/ZJRemoteNotification.swift:131 | `%02.2hhx` gives exactly two lowercase hex digits, and they parse back to the byte |
| DeviceToken.ParseByte | ZJRemoteNotification/Classes/ZJRemoteNotification.swift:131 | a digit pair parses exactly when both characters are lowercase hex digits |
| DeviceToken.Hex | ZJRemoteNotification/Classes/ZJRemoteNotification.swift:131 | the token string has length 2·n for n bytes and uses only `0-9a-f` |
| DeviceToken.Unhex | ZJRemoteNotification/Classes/ZJRemoteNotification.swift:131 | a decoded string has half as many bytes as characters |
| DeviceToken.FormatParsedByte | ZJRemoteNotification/Classes/ZJRemoteNotification.swift:131 | formatting a parsed pair gives back the pair |
| DeviceToken.HexPairAt | ZJRemoteNotification/Classes/ZJRemoteNotification.swift:131 | the hex pair at position i of the string is the formatting of byte i |
| DeviceToken.UnhexHex | ZJRemoteNotification/Classes/ZJRemoteNotification.swift:131 | decoding the device-token string gives back the original bytes |
| DeviceToken.HexUnhex | ZJRemoteNotification/Classes/ZJRemoteNotification.swift:131 | every string the decoder accepts is the encoding of its result |
| DeviceToken.UnhexDefined | ZJRemoteNotification/Classes/ZJRemoteNotification.swift:131 | the decoder accepts exactly even-length strings of lowercase hex digits, so these are the strings the formatter can produce |
| DeviceToken.HexInjective | ZJRemoteNotification/Classes/ZJRemoteNotification.swift:131 | different tokens give different strings |
| RelaySpec.Init | ZJRemoteNotification/Classes/ZJRemoteNotification.swift:18-32 | the state `init` leaves: inactive, cache nil, no nodes, nothing queued |
| RelaySpec.Pending | ZJRemoteNotification/Classes/ZJRemoteNotification.swift:212 | the cached notifications, an absent cache read as none, as the `if let` on the cache does |
| RelaySpec.Filter | ZJRemoteNotification/Classes/ZJRemoteNotification.swift:108-116 | `removeAll(where:)`: the nodes the predicate spares, in their original order |
| RelaySpec.Prune | ZJRemoteNotification/Classes/ZJRemoteNotification.swift:185 | drops exactly the nodes whose observer is no longer alive (weak reference now nil) |
| RelaySpec.RemoveMatching | ZJRemoteNotification/Classes/ZJRemoteNotification.swift:108-116 | drops exactly the nodes whose observer is alive and is d; a dead node fails the `if let` and stays |
| RelaySpec.FanOut | ZJRemoteNotification/Classes/ZJRemoteNotification.swift:187-199 | one main-queue delivery per node, in node order, with the inside callback when `isInside` holds and the outside one otherwise |
| RelaySpec.CacheNotification | ZJRemoteNotification/Classes/ZJRemoteNotification.swift:218-221 | a nil cache becomes an empty list, then the pair is appended at its tail |
| RelaySpec.PostNotification | ZJRemoteNotification/Classes/ZJRemoteNotification.swift:179-209 | active: prune the dead nodes, then queue one delivery per surviving node; inactive: cache the pair and change nothing else |
| RelaySpec.PostAll | ZJRemoteNotification/Classes/ZJRemoteNotification.swift:213 | posts a list of notifications one after another, in list order |
| RelaySpec.Posted | ZJRemoteNotification/Classes/ZJRemoteNotification.swift:179-205 | the notifications a run posts, in posting order |
| RelaySpec.PostCacheNotifications | ZJRemoteNotification/Classes/ZJRemoteNotification.swift:211-216 | posts a non-empty cache in order through `postNotification`, then sets the cache to nil in every case |
| RelaySpec.Activate | ZJRemoteNotification/Classes/ZJRemoteNotification.swift:96-98 | no change when already active; otherwise sets `isActive` and runs the `didSet` drain of lines 20-22 |
| RelaySpec.AddDelegate | ZJRemoteNotification/Classes/ZJRemoteNotification.swift:100-102 | appends a node for d at the tail, without de-duplication |
| RelaySpec.RemoveDelegate | ZJRemoteNotification/Classes/ZJRemoteNotification.swift:104-120 | replaces the node list by `RemoveMatching` of it; nothing else changes |
| RelaySpec.RemoveAllDelegate | ZJRemoteNotification/Classes/ZJRemoteNotification.swift:122-124 | empties the node list; nothing else changes |
| RelayProperties.FilterAppend | ZJRemoteNotification/Classes/ZJRemoteNotification.swift:108-116 | `removeAll(where:)` distributes over concatenation, so the kept nodes stay in their relative order |
| RelayProperties.FilterCount | ZJRemoteNotification/Classes/ZJRemoteNotification.swift:185 | after `removeAll(where:)` an observer keeps all of its nodes if the predicate spares it and none otherwise |
| RelayProperties.FilterKeeps | ZJRemoteNotification/Classes/ZJRemoteNotification.swift:185 | every node left by `removeAll(where:)` is one the predicate spares |
| RelayProperties.FilterNone | ZJRemoteNotification/Classes/ZJRemoteNotification.swift:185 | if the predicate removes every node, nothing is left |
| RelayProperties.PruneIdempotent | ZJRemoteNotification/Classes/ZJRemoteNotification.swift:185 | pruning dead nodes a second time with the same liveness removes nothing more |
| RelayProperties.RemoveDelegateEffect | ZJRemoteNotification/Classes/ZJRemoteNotification.swift:104-120 | `removeDelegate(d)` removes every node of the live observer d and no other node, dead nodes included; the rest keep their order; state other than `delegates` is unchanged |
| RelayProperties.AddDelegateEffect | ZJRemoteNotification/Classes/ZJRemoteNotification.swift:100-102 | `addDelegate(d)` keeps the old list as a prefix and adds exactly one node for d, even if d is already there |
| RelayProperties.FanOutAt | ZJRemoteNotification/Classes/ZJRemoteNotification.swift:187-199 | the fan-out queues one delivery per node, node j's at position j, with the callback chosen by `isInside` |
| RelayProperties.ReceivedFanOut | ZJRemoteNotification/Classes/ZJRemoteNotification.swift:187-199 | an observer on k nodes receives the event k times, with its callback |
| RelayProperties.DrainLogAt | ZJRemoteNotification/Classes/ZJRemoteNotification.swift:211-216 | the drain queues cached event i for node j at position i·n+j, so the drain is FIFO with each event's own `isInside` |
| RelayProperties.ReceivedDrainAbsent | ZJRemoteNotification/Classes/ZJRemoteNotification.swift:187-199 | an observer with no node receives nothing from a series of dispatches |
| RelayProperties.ReceivedDrainOnce | ZJRemoteNotification/Classes/ZJRemoteNotification.swift:211-216 | an observer on one node receives every drained event exactly once, in cache order, with its callback |
| RelayProperties.PostAllInactive | ZJRemoteNotification/Classes/ZJRemoteNotification.swift:201-221 | while inactive, posting appends the notifications in order to the cache (creating it if nil) and changes nothing else, so nothing is delivered |
| RelayProperties.PostAllActive | ZJRemoteNotification/Classes/ZJRemoteNotification.swift:183-199 | while active, posting never caches: it prunes the dead nodes and queues the fan-out of each notification, in order, to the surviving nodes |
| RelayProperties.ActivateDrains | ZJRemoteNotification/Classes/ZJRemoteNotification.swift:20-22 | activating an inactive relay makes it active, sets the cache to nil whether or not it held anything, and dispatches every cached notification in arrival order |
| RelayProperties.ActivateIdempotent | ZJRemoteNotification/Classes/ZJRemoteNotification.swift:96-98 | after `activate()` the relay is active with no cache, and a second call changes nothing and delivers nothing |
| RelayProperties.DrainReachesObserver | ZJRemoteNotification/Classes/ZJRemoteNotification.swift:211-216 | an observer alive and on exactly one node at activation receives the whole cache, in arrival order, each with its own `isInside` callback, however late it was added before activation |
| RelayProperties.InactiveRun | ZJRemoteNotification/Classes/ZJRemoteNotification.swift:201-221 | any run without activation leaves the relay inactive, delivers nothing, and leaves the cache holding every posted notification in posting order |
| RelayProperties.BufferedThenActivated | ZJRemoteNotification/Classes/ZJRemoteNotification.swift:201-221 | from a fresh relay, after any mix of posts, additions and removals, activation delivers every posted notification once, in posting order, with its own callback, to each observer alive and on one node at that moment |
| RelayProperties.DroppedWithoutObservers | ZJRemoteNotification/Classes/ZJRemoteNotification.swift:183-199 | once active, a notification with no live observer is dropped: nothing is queued or cached, and the node list becomes empty |
| RelayProperties.DuplicateDelivery | ZJRemoteNotification/Classes/ZJRemoteNotification.swift:187-197 | a live observer registered k times gets k deliveries of each dispatched notification |
| RelayProperties.NoReplayForLateObserver | ZJRemoteNotification/Classes/ZJRemoteNotification.swift:183-199 | an observer added after activation receives nothing that was posted before it was added, and a later `activate()` replays nothing |
| RelayProperties.RemovedObserverGetsNothing | ZJRemoteNotification/Classes/ZJRemoteNotification.swift:104-120 | after `removeDelegate(o)` the list has no node for o, and the next notification delivers nothing to o |
| RelayProperties.StepKeepsAbsent | ZJRemoteNotification/Classes/ZJRemoteNotification.swift:100-124 | any operation other than adding o keeps o off the node list and queues nothing for o, the drain at activation included |
| RelayProperties.RemovedObserverNeverReceives | ZJRemoteNotification/Classes/ZJRemoteNotification.swift:104-120 | after `removeDelegate(o)` o receives nothing more until it is added again, including notifications cached while it was registered and drained later by `activate()` |
| RelayProperties.TwoObserverScenario | ZJRemoteNotification/Classes/ZJRemoteNotification.swift:100-124 | add O1, add O2, post E, remove O1, post F: O1 receives only E, and O2 receives E then F |
| RelayProperties.StepInv | ZJRemoteNotification/Classes/ZJRemoteNotification.swift:18-28 | every operation keeps the invariant: an active relay has a nil cache, and an inactive relay has delivered nothing |
| RelayProperties.RunInv | ZJRemoteNotification/Classes/ZJRemoteNotification.swift:18-28 | every relay reachable from the initial state satisfies that invariant |
| RelayProperties.RunMonotone | ZJRemoteNotification/Classes/ZJRemoteNotification.swift:20-22 | over any run, activation is never undone and the main queue only grows at its tail |
| Notifications.RemoteNotification.constructor | ZJRemoteNotification/Classes/ZJRemoteNotification.swift:18-32 | a fresh relay is inactive, has a nil cache (not an empty one), no observers, nothing queued and no token, and satisfies the relay invariant |
| Notifications.RemoteNotification.Activate | ZJRemoteNotification/Classes/ZJRemoteNotification.swift:96-98 | the new state is the `Activate` step of the old one; the relay is active afterwards, a second call leaves it unchanged, and the relay invariant (active implies nil cache, inactive implies nothing queued) is kept |
| Notifications.RemoteNotification.AddDelegate | ZJRemoteNotification/Classes/ZJRemoteNotification.swift:100-102 | the node list gains d at its tail and nothing else changes |
| Notifications.RemoteNotification.RemoveDelegate | ZJRemoteNotification/Classes/ZJRemoteNotification.swift:104-120 | the node list loses exactly the live nodes equal to d, by the `RemoveDelegate` step, and no node for d is left |
| Notifications.RemoteNotification.RemoveAllDelegate | ZJRemoteNotification/Classes/ZJRemoteNotification.swift:122-124 | the node list becomes empty and nothing else changes |
| Notifications.RemoteNotification.DidRegisterForRemoteNotifications | ZJRemoteNotification/Classes/ZJRemoteNotification.swift:130-132 | the stored token is the lowercase hex string of the bytes, and the relay state is unchanged |
| Notifications.RemoteNotification.SetDeviceToken | ZJRemoteNotification/Classes/ZJRemoteNotification.swift:143-145 | the stored token is the given string, and the relay state is unchanged |
| Notifications.RemoteNotification.DidReceiveRemoteNotification | ZJRemoteNotification/Classes/ZJRemoteNotification.swift:134-141 | posts the notification as inside exactly when the application is active |
| Notifications.RemoteNotification.WillPresent | ZJRemoteNotification/Classes/ZJRemoteNotification.swift:152-161 | posts the notification as inside |
| Notifications.RemoteNotification.DidReceiveResponse | ZJRemoteNotification/Classes/ZJRemoteNotification.swift:163-172 | posts the notification as outside |
| Notifications.RemoteNotification.PostNotification | ZJRemoteNotification/Classes/ZJRemoteNotification.swift:179-209 | the in-place prune and fan-out loops (or the caching when inactive) give exactly the `PostNotification` step; the token is unchanged |
| Notifications.RemoteNotification.PostCacheNotifications | ZJRemoteNotification/Classes/ZJRemoteNotification.swift:211-216 | the loop posts the cached notifications in order and then sets the cache to nil, by the `PostCacheNotifications` step; the relay stays active |
| Notifications.RemoteNotification.CacheNotification | ZJRemoteNotification/Classes/ZJRemoteNotification.swift:218-221 | called only while inactive, as its one caller does; a nil cache becomes a list, the notification is appended at its tail, and nothing else changes |

## Left out

- Permission and registration calls (`getAuthorizationStatus`, `registerRemoteNotification`) and the completion handlers of the entry points. They are calls into the operating system with no semantics visible here. This includes the pre-iOS-10 branch of `getAuthorizationStatus`, which can call its callback twice.
- The `badgeNumber` setter. It only writes a UIKit property.
- Threading. The serial queue behind `safe`, `DispatchQueue.main.async`, and the fact that `activate()` and the drain run outside that queue are not modelled. Every operation is atomic, and callbacks queued on the main queue are an ordered list rather than code that runs later.
- Weak-reference expiry between two steps of one operation. Liveness is one `alive` set for the whole call, so an observer cannot die between the prune and the fan-out of the same notification, or during a drain. Liveness is also not required to shrink from one call to the next.
- `isEqual`. Observers are compared by identity, because an override of `isEqual` is not visible here.
- Payload contents and the `as? [String: Any]` casts. The payload is an opaque value, and a failed cast (which gives `nil`) is just another payload value.
- The lost-event race between `activate()` and a concurrent post. `activate()` (lines 96-98) and the drain (lines 211-216) run outside `safe`. A post that read `isActive == false` can append to `caches` after line 212 has copied the list, and line 215 then sets the cache to nil, so that notification is never delivered. Every operation here is atomic, so the model cannot show this interleaving; this has not been reproduced.
- `deinit` and the queue construction in `init`. The singleton is never torn down.
- The observers' own callback bodies. `ZJRemoteNotificationDelegate` is represented only by the `Inside`/`Outside` tag of a delivery; its default bodies do nothing.
