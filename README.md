# Permissionist in Dafny

A verified model of the core of Permissionist, an Android library that
requests runtime permissions. An application builds a request. It adds
permission names, optionally with a per-permission listener. It may add a
rationale dialog (system-styled or custom) and one common listener. The
library then:

- sorts every name into accepted, unknown to the system, not declared in
  the manifest, or already granted;
- launches a helper activity that asks the platform for the accepted
  names;
- turns the platform's answer into a name -> granted map;
- dispatches that map to the per-permission listeners and to the common
  listener, together with an ordered list of errors.

The model has three modules:

- `Collections` (`collections.dfy`): `Option`, and `OrderedMap`. An
  `OrderedMap` is Kotlin's insertion-ordered `LinkedHashMap`, written as a
  list of pairs with `Get` and `Put` (`m[k]`, `m[k] = v`).
- `Permissionist` (`permissionist.dfy`): the `Permissionist` singleton as
  class `Coordinator`, and `Permissionist.Builder` as class `Builder`.
  Their fields and methods mirror the source. Every listener call is
  appended to the coordinator's `events` log. The platform's three queries
  are answered by a `Device` value.
- `PermissionistActivity` (`permissionist_activity.dfy`): the result
  handler `onRequestPermissionsResult`. It builds the granted and denied
  lists with `filterIndexed` (a method with a loop) and the result map
  with `associateBy` (a function).

Model choices:

- Listener objects are identities (`SingleListener(id)`, `CommonListener(id)`).
  A call on a listener is an `Event` named after the listener method.
- The singleton is passed to `OnRequestPermissionsResult` as a parameter.
- The source's builder methods return the builder for chaining; the
  model's return nothing.
- `request` returns a `RequestPath`: which dialog it showed, what it
  launched, or that it reported an empty request.
- A dialog's proceed button calls `createPermissionistActivity`. In the
  model the caller calls `Builder.CreatePermissionistActivity` itself.
- The crash when `grantResults` is shorter than `permissions` is the
  outcome `IndexOutOfBounds`. It is not a precondition.

Quirks of the source that the model keeps:

- `reset` does not clear `noPermissionInManifest`, so manifest errors pile
  up across request cycles (`Coordinator.Reset`, `Coordinator.Cleared`).
- The empty-request path reports `NoPermissionsProvided` but does not reset
  the coordinator (`Builder.CreatePermissionistActivity`).
- A name repeated in the activity's result arrays takes its value from its
  first index (`indexOf`). It keeps its first position in the map.

## Model

The behaviour is defined by functions whose properties are stated by the
lemmas and methods in the table:

- `Collections.Put` is `m[k] = v` on a `LinkedHashMap` (Permissionist.kt:115).
- `PermissionistActivity.WithCode` is `filterIndexed` (PermissionistActivity.kt:24-25).
- `PermissionistActivity.AssociateBy` and `ResultMap` are `associateBy`
  (PermissionistActivity.kt:27).
- `Permissionist.Errors` is the list `notifyAboutErrors` builds
  (Permissionist.kt:62-79).
- `Permissionist.SingleEvents` is the calls `notifySinglePermissionListeners`
  makes (Permissionist.kt:81-88).

| member | source | states |
|---|---|---|
| `Collections.Get` | permissionist/src/main/java/ru/appvelox/permissionist/Permissionist.kt:24 | a lookup finds a value iff the key is in the map, and the value found is paired with that key in the map |
| `Collections.PutLookup` | permissionist/src/main/java/ru/appvelox/permissionist/Permissionist.kt:115 | after `m[k] = v`, the key set gains `k`, `k` maps to `v`, and every other key keeps its value |
| `Collections.PutExisting` | permissionist/src/main/java/ru/appvelox/permissionist/Permissionist.kt:115 | re-adding a name already present keeps the iteration order of the keys |
| `Collections.PutNew` | permissionist/src/main/java/ru/appvelox/permissionist/Permissionist.kt:115 | adding a new name appends it last |
| `Collections.PutDistinct` | permissionist/src/main/java/ru/appvelox/permissionist/Permissionist.kt:115 | assignment keeps the keys distinct |
| `Permissionist.Classify` | permissionist/src/main/java/ru/appvelox/permissionist/Permissionist.kt:99-117 | the checks run in the fixed order exists, declared in the manifest, not yet granted, and the first that fails decides: not existing iff the name does not exist; not in the manifest iff it exists but is not declared (always so when the manifest list is null); already granted iff it exists, is declared and is granted; accepted iff it exists, is declared and is not granted |
| `Permissionist.KeysWithValue` | permissionist/src/main/java/ru/appvelox/permissionist/Permissionist.kt:51 | the filtered key list holds exactly the keys paired with the given value, and is no longer than the map |
| `Permissionist.GrantedDeniedPartition` | permissionist/src/main/java/ru/appvelox/permissionist/Permissionist.kt:50-60 | every key of a result map is in exactly one of the granted and denied lists, and the two lists together are as long as the map |
| `Permissionist.ErrorListMembers` | permissionist/src/main/java/ru/appvelox/permissionist/Permissionist.kt:62-79 | the error list holds AlreadyGranted, DoesNotExist and NoPermissionInManifest iff their lists are non-empty, NoPermissionsProvided iff the result map is empty, and nothing else |
| `Permissionist.ErrorListOrder` | permissionist/src/main/java/ru/appvelox/permissionist/Permissionist.kt:62-79 | the errors come in the fixed order AlreadyGranted, DoesNotExist, NoPermissionInManifest, NoPermissionsProvided |
| `Permissionist.OneCallbackPerKey` | permissionist/src/main/java/ru/appvelox/permissionist/Permissionist.kt:81-88 | each key of the result map fires exactly one per-permission call when it has a registered listener and none otherwise: granted when its value is true, denied when false; a name that is not a key fires none |
| `Permissionist.CommonCallbacks` | permissionist/src/main/java/ru/appvelox/permissionist/Permissionist.kt:44-79 | without a common listener nothing is called; with one, the calls are granted (iff some key is true), then denied (iff some key is false), then failure (iff the error list is non-empty) |
| `Permissionist.EmptyRequestReportsNoPermissionsProvided` | permissionist/src/main/java/ru/appvelox/permissionist/Permissionist.kt:183-189 | an empty request makes exactly one failure call on the common listener, and its error list ends with NoPermissionsProvided |
| `Permissionist.Coordinator.constructor` | permissionist/src/main/java/ru/appvelox/permissionist/Permissionist.kt:11-16 | the singleton starts with empty collections, no common listener and no calls made |
| `Permissionist.Coordinator.ForActivity` | permissionist/src/main/java/ru/appvelox/permissionist/Permissionist.kt:18-21 | resets the coordinator first, then returns a fresh builder for the activity with no rationale |
| `Permissionist.Coordinator.Reset` | permissionist/src/main/java/ru/appvelox/permissionist/Permissionist.kt:37-42 | empties the accepted map, the already-granted and not-existing lists and the common listener; leaves `noPermissionInManifest` and the call log as they were |
| `Permissionist.Coordinator.PermissionGranted` | permissionist/src/main/java/ru/appvelox/permissionist/Permissionist.kt:23-25 | calls `onPermissionGranted` on the name's listener if it has one, and nothing else |
| `Permissionist.Coordinator.PermissionDenied` | permissionist/src/main/java/ru/appvelox/permissionist/Permissionist.kt:27-29 | calls `onPermissionDenied` on the name's listener if it has one, and nothing else |
| `Permissionist.Coordinator.OnResult` | permissionist/src/main/java/ru/appvelox/permissionist/Permissionist.kt:31-35 | makes the per-permission calls, then the common-listener calls with the errors of the state before the call, then resets (leaving `noPermissionInManifest`) |
| `Permissionist.Coordinator.NotifyCommonListener` | permissionist/src/main/java/ru/appvelox/permissionist/Permissionist.kt:44-48 | the granted, denied and failure notifications, in that order |
| `Permissionist.Coordinator.NotifyAboutGrantedPermissions` | permissionist/src/main/java/ru/appvelox/permissionist/Permissionist.kt:50-54 | calls `onPermissionsGranted` with the true keys only if there are some and a common listener is set |
| `Permissionist.Coordinator.NotifyAboutDeniedPermissions` | permissionist/src/main/java/ru/appvelox/permissionist/Permissionist.kt:56-60 | calls `onPermissionsDenied` with the false keys only if there are some and a common listener is set |
| `Permissionist.Coordinator.NotifyAboutErrors` | permissionist/src/main/java/ru/appvelox/permissionist/Permissionist.kt:62-79 | builds the error list by successive appends and calls `onFailure` with it only if it is non-empty and a common listener is set |
| `Permissionist.Coordinator.NotifySinglePermissionListeners` | permissionist/src/main/java/ru/appvelox/permissionist/Permissionist.kt:81-88 | walks the result map in order and makes each key's granted or denied call |
| `Permissionist.Builder.constructor` | permissionist/src/main/java/ru/appvelox/permissionist/Permissionist.kt:94-97 | a builder for the given activity and singleton, with neither rationale set |
| `Permissionist.Builder.AddPermission` | permissionist/src/main/java/ru/appvelox/permissionist/Permissionist.kt:99-117 | appends the name to exactly the one list that `Classify` names, or registers it with its listener when accepted; every other collection, the common listener and the call log are unchanged; accepted names stay distinct |
| `Permissionist.Builder.WithRationale` | permissionist/src/main/java/ru/appvelox/permissionist/Permissionist.kt:119-123 | sets the system rationale and clears the custom one |
| `Permissionist.Builder.WithCustomRationale` | permissionist/src/main/java/ru/appvelox/permissionist/Permissionist.kt:125-129 | sets the custom rationale and clears the system one |
| `Permissionist.Builder.AddCommonListener` | permissionist/src/main/java/ru/appvelox/permissionist/Permissionist.kt:131-134 | sets the singleton's common listener and changes nothing else |
| `Permissionist.Builder.Request` | permissionist/src/main/java/ru/appvelox/permissionist/Permissionist.kt:136-148 | a custom rationale takes precedence over a system rationale, which takes precedence over going straight to the request activity; showing a dialog calls no listener |
| `Permissionist.Builder.CreatePermissionistActivity` | permissionist/src/main/java/ru/appvelox/permissionist/Permissionist.kt:183-195 | with no accepted name, reports an empty result to the common listener and neither launches nor resets; otherwise launches with the accepted names in insertion order and the rationale, and calls no listener |
| `PermissionistActivity.FirstIndex` | permissionist/src/main/java/ru/appvelox/permissionist/PermissionistActivity.kt:27 | `indexOf` returns an index holding the name, and no earlier index holds it |
| `PermissionistActivity.WithCodeMembers` | permissionist/src/main/java/ru/appvelox/permissionist/PermissionistActivity.kt:24-25 | a name is in a filtered list iff it stands at an index whose code is the filter's code |
| `PermissionistActivity.CodesPartition` | permissionist/src/main/java/ru/appvelox/permissionist/PermissionistActivity.kt:24-25 | when every code is GRANTED or DENIED, the granted and denied lists together hold every name of the array, with its multiplicity |
| `PermissionistActivity.AssociateByKeys` | permissionist/src/main/java/ru/appvelox/permissionist/PermissionistActivity.kt:27 | after `associateBy` over a prefix of the names, the keys are distinct and are exactly the names of the prefix |
| `PermissionistActivity.AssociateByValues` | permissionist/src/main/java/ru/appvelox/permissionist/PermissionistActivity.kt:27 | after `associateBy` over a prefix of the names, each of them maps to whether the code at its first index is GRANTED |
| `PermissionistActivity.ResultMapContents` | permissionist/src/main/java/ru/appvelox/permissionist/PermissionistActivity.kt:27 | the forwarded map's key set is exactly the requested names, each once, and a name maps to true iff the code at its first index is GRANTED |
| `PermissionistActivity.RequestedNameCallback` | permissionist/src/main/java/ru/appvelox/permissionist/PermissionistActivity.kt:27-29 | after forwarding, a requested name with a listener fires exactly one callback, granted iff its first code is GRANTED; any other name fires none |
| `PermissionistActivity.FilterIndexed` | permissionist/src/main/java/ru/appvelox/permissionist/PermissionistActivity.kt:24-25 | fails iff `grantResults` is shorter than `permissions` (an index past its end); otherwise returns the names whose own index holds the code, in array order |
| `PermissionistActivity.OnRequestPermissionsResult` | permissionist/src/main/java/ru/appvelox/permissionist/PermissionistActivity.kt:16-33 | another request code is ignored and a short `grantResults` fails, both leaving the singleton unchanged; otherwise forwards the `associateBy` map to `onResult`, whose calls and reset follow |

## Left out

- The platform queries `getPermissionInfo`, `getPackageInfo` and
  `ContextCompat.checkSelfPermission` (`isPermissionExists`,
  `isManifestContainsPermission`, the public `isPermissionGranted`). They
  are answered from the `Device` value, because they ask the Android
  package manager.
- Dialog rendering in `showSystemRationale` and `showCustomRationale`, and
  launching the activity through an `Intent`. They are Android UI; `Request`
  reports which one would happen.
- `PermissionistActivity.onCreate`, which hands the names to
  `ActivityCompat.requestPermissions`, and the `finish()` after forwarding.
  Both are platform calls.
- Aliasing of error lists. The source's error objects hold the
  coordinator's live lists, and `reset` clears those same list objects
  rather than replacing them. A `PermissionsAlreadyGranted` or
  `PermissionsDoesNotExist` error kept past the callback is therefore
  empty after the reset and then refilled by the names later cycles file
  (after the empty-request path, which does not reset, the lists stay
  filled until the next `forActivity`). `reset` never
  clears `noPermissionInManifest`, so a kept `NoPermissionInManifest` error
  instead grows as later cycles reject more names. The model's errors are
  copies taken when the list is built.
- Coordinator.OnResult: does not model listener callbacks that call back
  into `Permissionist` during `onResult`. The model's listeners have no
  effect beyond the logged call, so `OnResult`, `OneCallbackPerKey` and
  `CommonCallbacks` assume no re-entrant request. In the source, a callback that starts a new
  request (`forActivity`, builder methods) changes the state the rest of
  `notifyCommonListener` reads, so the later common calls report the new
  cycle's errors to the new listener, and `onResult`'s trailing `reset`
  then wipes the new cycle's accepted names and listener.
- Builder chaining (each builder method returning `this`) and the Kotlin
  default arguments of `withRationale`.
- `NoPermissionProvidedException`, which nothing throws, and the
  `Serializable` transport of `Rationale` in an `Intent` extra.
- `SimpleSingleListener` and `SimpleCommonListener`, whose callbacks do
  nothing. The model records the calls made on any listener.
