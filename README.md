# CarUxRestrictionsUtil in Dafny

A model of `CarUxRestrictionsUtil`, the helper in `car-apps-common` that makes
car UI comply with the user-experience restrictions the platform imposes while
the car is moving. The helper has three parts:

- **`isRestricted`** tests whether any requested restriction flag is active.
  A missing restrictions object counts as restricted, for safety.
- **`complyString`** shortens a string to the restricted length limit and
  appends an ellipsis. It does this only when the length-limit flag is active
  and the string is too long.
- **A singleton registry** holds client listeners and the last restrictions
  reported by the platform's restrictions manager. A listener is told the
  stored value when it registers. Every registered listener is told each new
  value when the manager reports a change.

Files:

- `wrappers.dfy`: `Option` (a Java reference that may be null) and `Result` (a
  returned value or a thrown exception).
- `flags.dfy`: restriction masks as 32-bit vectors (Java `int`). It proves that
  the bitwise test `a & b != 0` means "some flag is set in both masks".
- `restrictions.dfy`: the restrictions record, `IsRestricted` and
  `ComplyString` as functions, and lemmas about them.
- `observers.dfy`: the registry as a class. It has a set of listener ids, the
  stored restrictions, and a ghost log of every `onRestrictionsChanged` call.
  Its invariant `Valid()` says that every registered listener was last told
  the stored restrictions. A holder class stands in for the static `sInstance`
  field.

The ellipsis text and the default maximum string length come from Android
resources in the source. Here they are parameters of `ComplyString`. The flag
`UX_RESTRICTIONS_LIMIT_STRING_LENGTH` is bit 2 (`0x4`) of the platform's
`CarUxRestrictions` class. That class is not part of this model.

When the length limit is in force and negative, Java's `substring(0, maxLength)`
throws. `ComplyString` returns `Failure(StringIndexOutOfBounds)` in that case.
It does not exclude the case with a precondition. Such a limit always throws,
because every string is longer than a negative limit.

## Model

| member | source | states |
|---|---|---|
| `UxRestrictions.IsRestricted` | car-apps-common/src/com/android/car/apps/common/CarUxRestrictionsUtil.java:112-119 | an absent restrictions object restricts every flag set; otherwise the result is true exactly when some requested flag is among the active restrictions |
| `UxRestrictions.NoFlagsNeverRestricted` | car-apps-common/src/com/android/car/apps/common/CarUxRestrictionsUtil.java:118 | with a restrictions object present, requesting no flags (`0`) is never restricted |
| `UxRestrictions.IsRestrictedUnion` | car-apps-common/src/com/android/car/apps/common/CarUxRestrictionsUtil.java:112-118 | "any of the given flags": the union `f \| g` is restricted exactly when `f` or `g` is |
| `Flags.AndNonZeroIffShared` | car-apps-common/src/com/android/car/apps/common/CarUxRestrictionsUtil.java:118 | the bitwise test `active & flags != 0` holds exactly when the two masks share a set bit, in both directions |
| `Flags.SharesFlagOr` | car-apps-common/src/com/android/car/apps/common/CarUxRestrictionsUtil.java:118 | a mask shares a flag with `b \| c` exactly when it shares one with `b` or with `c` |
| `UxRestrictions.ComplyStringIgnoresDefault` | car-apps-common/src/com/android/car/apps/common/CarUxRestrictionsUtil.java:128-130 | with a restrictions record present, the result does not depend on the default limit |
| `UxRestrictions.ComplyStringAbsentAsDefaultLimit` | car-apps-common/src/com/android/car/apps/common/CarUxRestrictionsUtil.java:127-130 | without a record, a string is complied exactly as under a record whose length-limit flag is active and whose limit is the default |
| `UxRestrictions.ComplyString` | car-apps-common/src/com/android/car/apps/common/CarUxRestrictionsUtil.java:121-138 | the limit is the record's own, or the default when the record is absent; it fails (substring throws) exactly when the limit flag is active and the limit is negative; the string is unchanged when the flag is inactive or the string fits; a too-long string becomes exactly `maxLength + \|ellipsis\|` characters, starting with the first `maxLength` characters of the input and ending with the ellipsis; every successful restricted result complies with the limit |
| `UxRestrictions.ComplyStringIdempotent` | car-apps-common/src/com/android/car/apps/common/CarUxRestrictionsUtil.java:121-138 | a string that was already made compliant is returned unchanged when complied again with the same restrictions |
| `UxRestrictionsObservers.CarUxRestrictionsUtil.constructor` | car-apps-common/src/com/android/car/apps/common/CarUxRestrictionsUtil.java:50-67 | the helper starts with no observers, nothing delivered, and the manager's current restrictions (absent if the car is not connected) as its stored value |
| `UxRestrictionsObservers.CarUxRestrictionsUtil.Notify` | car-apps-common/src/com/android/car/apps/common/CarUxRestrictionsUtil.java:90-94 | the earlier log is kept, and the new deliveries call every observer exactly once (multiset of recipients equals the observer set) with the given value and call no one else |
| `UxRestrictionsObservers.CarUxRestrictionsUtil.OnUxRestrictionsChanged` | car-apps-common/src/com/android/car/apps/common/CarUxRestrictionsUtil.java:51-54 | the stored value becomes the new restrictions, the observer set is unchanged, and the value is then broadcast once to every observer; the invariant is kept |
| `UxRestrictionsObservers.CarUxRestrictionsUtil.Register` | car-apps-common/src/com/android/car/apps/common/CarUxRestrictionsUtil.java:96-103 | the observer set becomes old ∪ {listener}; exactly one delivery is made, of the stored restrictions to that listener; the stored value is unchanged; the invariant is kept |
| `UxRestrictionsObservers.CarUxRestrictionsUtil.Unregister` | car-apps-common/src/com/android/car/apps/common/CarUxRestrictionsUtil.java:105-110 | the observer set becomes old \ {listener}; the stored restrictions and the delivery log are unchanged; the invariant is kept |
| `UxRestrictionsObservers.BroadcastEffect` | car-apps-common/src/com/android/car/apps/common/CarUxRestrictionsUtil.java:90-94 | after a broadcast, every observer was last told the broadcast value, and a listener outside the observer set (one that was unregistered, say) was told nothing new |
| `UxRestrictionsObservers.LastDeliveredSkipsOthers` | car-apps-common/src/com/android/car/apps/common/CarUxRestrictionsUtil.java:90-94 | deliveries to other listeners leave what a listener last received unchanged |
| `UxRestrictionsObservers.LastDeliveredUniform` | car-apps-common/src/com/android/car/apps/common/CarUxRestrictionsUtil.java:90-94 | after a batch of deliveries that all carry one value and reach a listener, that listener was last told that value |
| `UxRestrictionsObservers.InstanceHolder.GetInstance` | car-apps-common/src/com/android/car/apps/common/CarUxRestrictionsUtil.java:79-88 | the first call builds a fresh helper from the current restrictions and caches it; every later call returns the cached helper unchanged; the returned helper always satisfies its invariant, and the holder keeps the invariant that its cached helper does |
| `UxRestrictionsObservers.RegisterWithInstance` | car-apps-common/src/com/android/car/apps/common/CarUxRestrictionsUtil.java:82-103 | a client's `getInstance(...).register(listener)`: on the first call a fresh helper is built from the current restrictions, with only the listener registered and one delivery of those restrictions to it; on later calls the cached helper is reused, its observer set gains the listener, its stored restrictions stay, and exactly one delivery of them to the listener is added; either way the listener was last told the helper's stored restrictions and both invariants hold |

## Left out

- The platform binding in the constructor is left out: `Car.createCar`, `getCarManager`, `registerListener` with the manager, and the logging of `CarNotConnectedException`. The manager's current restrictions are a constructor input, and `None` stands for a car that is not connected.
- The observer set is backed by a `WeakHashMap` in the source. The garbage collector can drop a listener from it at any time. The model uses a plain finite set, and `Notify` visits it in an arbitrary order.
- The resource lookups for the ellipsis and the default maximum length are parameters of `ComplyString`.
- What a listener's `onRestrictionsChanged` does is not modelled. A call is only recorded in the ghost log. A listener that calls `register` or `unregister` from inside `notify` is not modelled either. In Java such a call may throw `ConcurrentModificationException`, but only when it actually changes the set and the iteration then goes on to another listener. A re-entrant `register` also delivers the stored value again to the listener it registers.
- Strings are sequences of Dafny characters. Java counts lengths in UTF-16 code units, so a Java `substring` can split a surrogate pair. The model cannot express that split.
- `getInstance` is not synchronized in the source. The model is single-threaded. The static field is a field of `InstanceHolder`.
- The value the manager passes to its callback is modelled as possibly absent, like the stored field.
- The other files of the repository are not part of this model. They are `FocusParkingView`, `ViewUtilsTest`, `PreferenceFragment`, `QueueTitleLiveData` and `TestActivity`. Each is glue over Android view, focus, preference or media framework classes, or a test of `ViewUtils`, whose source is not part of this model.
