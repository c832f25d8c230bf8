/** The permission-request coordinator of Permissionist.kt: a singleton that
    collects the permissions a builder accepts, classifies the rejected
    ones into three error lists, and dispatches a permission -> granted
    result map to per-permission listeners and one common listener.

    Listeners are identified by value and every call the coordinator makes
    on one is appended to an event log. The platform's three queries
    (does the permission exist, does the manifest declare it, is it already
    granted) are answered by a `Device` value. */
module Permissionist {
  import opened Collections

  datatype SingleListener = SingleListener(id: nat)
  datatype CommonListener = CommonListener(id: nat)
  datatype CustomRationale = CustomRationale(id: nat)

  /** The system-styled rationale dialog's texts. */
  datatype Rationale = Rationale(
    title: Option<string>,
    message: Option<string>,
    positiveButtonText: string,
    negativeButtonText: Option<string>)

  /** The errors reported to `CommonListener.onFailure`. The source's error
      objects hold the coordinator's live lists: the reset after a result
      empties the already-granted and not-existing lists, and later cycles
      refill the same lists, while the not-in-manifest list, which `reset`
      never clears, keeps growing. Here each error holds the list as it was
      when the error was built. */
  datatype Error =
    | PermissionsAlreadyGranted(permissions: seq<string>)
    | PermissionsDoesNotExist(permissions: seq<string>)
    | NoPermissionInManifest(permissions: seq<string>)
    | NoPermissionsProvided

  /** One call on a listener, named after the listener method called. */
  datatype Event =
    | OnPermissionGranted(single: SingleListener, permission: string)
    | OnPermissionDenied(single: SingleListener, permission: string)
    | OnPermissionsGranted(common: CommonListener, permissions: seq<string>)
    | OnPermissionsDenied(common: CommonListener, permissions: seq<string>)
    | OnFailure(common: CommonListener, errors: seq<Error>)

  /** What the builder's activity reports about the platform: the names
      `getPermissionInfo` knows, the manifest's `requestedPermissions`
      (None when the package declares none) and the names
      `checkSelfPermission` reports as granted. */
  datatype Device = Device(
    known: set<string>,
    requestedPermissions: Option<seq<string>>,
    selfGranted: set<string>)

  predicate IsPermissionExists(activity: Device, permission: string) {
    permission in activity.known
  }

  predicate IsManifestContainsPermission(activity: Device, permission: string) {
    match activity.requestedPermissions
    case None => false
    case Some(requested) => permission in requested
  }

  predicate IsPermissionGranted(activity: Device, permission: string) {
    permission in activity.selfGranted
  }

  /** The collection `addPermission` files a name under. */
  datatype Bucket = NotExisting | NotInManifest | AlreadyGranted | Accepted

  /** The checks of `addPermission`, in their fixed order: the first check a
      name fails decides its bucket. */
  function Classify(activity: Device, permission: string): (b: Bucket)
    ensures b == Accepted <==>
      IsPermissionExists(activity, permission)
      && IsManifestContainsPermission(activity, permission)
      && !IsPermissionGranted(activity, permission)
    ensures b == NotExisting <==> !IsPermissionExists(activity, permission)
    ensures b == NotInManifest <==>
      IsPermissionExists(activity, permission)
      && !IsManifestContainsPermission(activity, permission)
    ensures b == AlreadyGranted <==>
      IsPermissionExists(activity, permission)
      && IsManifestContainsPermission(activity, permission)
      && IsPermissionGranted(activity, permission)
    ensures activity.requestedPermissions.None? && IsPermissionExists(activity, permission)
      ==> b == NotInManifest
  {
    if !IsPermissionExists(activity, permission) then NotExisting
    else if !IsManifestContainsPermission(activity, permission) then NotInManifest
    else if IsPermissionGranted(activity, permission) then AlreadyGranted
    else Accepted
  }

  /** The keys of `resultMap` whose value is `value`, in iteration order:
      `resultMap.filter { it.value == value }.keys.toList()`. */
  function KeysWithValue(resultMap: OrderedMap<bool>, value: bool): (r: seq<string>)
    ensures forall k :: k in r <==> (k, value) in resultMap
    ensures |r| <= |resultMap|
  {
    if resultMap == [] then []
    else
      var rest := KeysWithValue(resultMap[1..], value);
      assert forall e :: e in resultMap <==> e == resultMap[0] || e in resultMap[1..];
      (if resultMap[0].1 == value then [resultMap[0].0] else []) + rest
  }

  /** The granted and denied lists split the keys of a result map: every key
      is in exactly one of them, and together they are as long as the map. */
  lemma {:induction false} GrantedDeniedPartition(resultMap: OrderedMap<bool>)
    requires DistinctKeys(resultMap)
    ensures forall k :: k in Keys(resultMap) <==>
      k in KeysWithValue(resultMap, true) || k in KeysWithValue(resultMap, false)
    ensures forall k :: !(k in KeysWithValue(resultMap, true) && k in KeysWithValue(resultMap, false))
    ensures |KeysWithValue(resultMap, true)| + |KeysWithValue(resultMap, false)| == |resultMap|
  {
    if resultMap != [] {
      var rest := resultMap[1..];
      GrantedDeniedPartition(rest);
      KeysHaveEntries(rest);
      assert forall e :: e in resultMap <==> e == resultMap[0] || e in rest;
    }
  }

  /** A pair of the map has its key in the key set, and a key of the set has
      a pair. */
  lemma {:induction false} KeysHaveEntries<V>(m: OrderedMap<V>)
    ensures forall k, v :: (k, v) in m ==> k in Keys(m)
    ensures forall k :: k in Keys(m) ==> exists v :: (k, v) in m
  {
    if m != [] {
      KeysHaveEntries(m[1..]);
      assert forall e :: e in m <==> e == m[0] || e in m[1..];
      forall k | k in Keys(m) ensures exists v :: (k, v) in m {
        if k == m[0].0 {
          assert (k, m[0].1) in m;
        } else {
          assert k in Keys(m[1..]);
          var v :| (k, v) in m[1..];
          assert (k, v) in m;
        }
      }
    }
  }

  /** The rank of an error in the list `notifyAboutErrors` builds. */
  function Rank(e: Error): nat {
    match e
    case PermissionsAlreadyGranted(_) => 0
    case PermissionsDoesNotExist(_) => 1
    case NoPermissionInManifest(_) => 2
    case NoPermissionsProvided => 3
  }

  /** The error list reported for one result: one entry per non-empty error
      list, and NoPermissionsProvided when the result map is empty, in that
      fixed order. */
  function Errors(alreadyGranted: seq<string>, notExisting: seq<string>,
                  noManifest: seq<string>, resultEmpty: bool): seq<Error>
  {
    (if alreadyGranted != [] then [PermissionsAlreadyGranted(alreadyGranted)] else [])
    + (if notExisting != [] then [PermissionsDoesNotExist(notExisting)] else [])
    + (if noManifest != [] then [NoPermissionInManifest(noManifest)] else [])
    + (if resultEmpty then [NoPermissionsProvided] else [])
  }

  /** Each error is present iff its list is non-empty (NoPermissionsProvided
      iff the result map is empty), and nothing else is present. */
  lemma ErrorListMembers(alreadyGranted: seq<string>, notExisting: seq<string>,
                         noManifest: seq<string>, resultEmpty: bool)
    ensures var r := Errors(alreadyGranted, notExisting, noManifest, resultEmpty);
      && (PermissionsAlreadyGranted(alreadyGranted) in r <==> alreadyGranted != [])
      && (PermissionsDoesNotExist(notExisting) in r <==> notExisting != [])
      && (NoPermissionInManifest(noManifest) in r <==> noManifest != [])
      && (NoPermissionsProvided in r <==> resultEmpty)
      && (forall e :: e in r ==>
            e == PermissionsAlreadyGranted(alreadyGranted) || e == PermissionsDoesNotExist(notExisting)
            || e == NoPermissionInManifest(noManifest) || e == NoPermissionsProvided)
  {
    // Dafny proves this unaided; splitting the list into its four parts
    // keeps the proof cheap.
    var p0 := if alreadyGranted != [] then [PermissionsAlreadyGranted(alreadyGranted)] else [];
    var p1 := if notExisting != [] then [PermissionsDoesNotExist(notExisting)] else [];
    var p2 := if noManifest != [] then [NoPermissionInManifest(noManifest)] else [];
    var p3 := if resultEmpty then [NoPermissionsProvided] else [];
    assert Errors(alreadyGranted, notExisting, noManifest, resultEmpty) == p0 + p1 + p2 + p3;
    assert forall e :: e in p0 + p1 + p2 + p3 <==> e in p0 || e in p1 || e in p2 || e in p3;
  }

  /** The errors of `r` come in strictly increasing rank. */
  predicate RankOrdered(r: seq<Error>) {
    forall i, j :: 0 <= i < j < |r| ==> Rank(r[i]) < Rank(r[j])
  }

  /** The errors come in the fixed order AlreadyGranted, DoesNotExist,
      NoPermissionInManifest, NoPermissionsProvided. */
  lemma ErrorListOrder(alreadyGranted: seq<string>, notExisting: seq<string>,
                       noManifest: seq<string>, resultEmpty: bool)
    ensures RankOrdered(Errors(alreadyGranted, notExisting, noManifest, resultEmpty))
  {
  }

  /** `permissions[permission]`: the listener registered for a name, None
      when the name is absent or was added without a listener. */
  function ListenerOf(listeners: OrderedMap<Option<SingleListener>>, permission: string): Option<SingleListener> {
    var r := Get(listeners, permission);
    if r.Some? then r.value else None
  }

  /** The call `permissions[permission]?.onPermissionGranted/Denied` makes:
      one event when the name is registered with a listener, none otherwise. */
  function SingleEvent(listeners: OrderedMap<Option<SingleListener>>, permission: string,
                       granted: bool): seq<Event>
  {
    var l := ListenerOf(listeners, permission);
    if l.Some? then
      [if granted then OnPermissionGranted(l.value, permission) else OnPermissionDenied(l.value, permission)]
    else []
  }

  /** The per-permission calls for a whole result map, in its iteration order. */
  function SingleEvents(resultMap: OrderedMap<bool>,
                        listeners: OrderedMap<Option<SingleListener>>): seq<Event>
  {
    if resultMap == [] then []
    else SingleEvent(listeners, resultMap[0].0, resultMap[0].1) + SingleEvents(resultMap[1..], listeners)
  }

  lemma {:induction false} SingleEventsAppend(resultMap: OrderedMap<bool>, e: (string, bool),
                                              listeners: OrderedMap<Option<SingleListener>>)
    ensures SingleEvents(resultMap + [e], listeners)
         == SingleEvents(resultMap, listeners) + SingleEvent(listeners, e.0, e.1)
  {
    if resultMap != [] {
      SingleEventsAppend(resultMap[1..], e, listeners);
      assert (resultMap + [e])[1..] == resultMap[1..] + [e];
    }
  }

  /** The per-permission calls among `events` that concern `permission`. */
  function About(events: seq<Event>, permission: string): seq<Event> {
    if events == [] then []
    else
      (if (events[0].OnPermissionGranted? || events[0].OnPermissionDenied?)
          && events[0].permission == permission
       then [events[0]] else [])
      + About(events[1..], permission)
  }

  lemma {:induction false} AboutAppend(a: seq<Event>, b: seq<Event>, permission: string)
    ensures About(a + b, permission) == About(a, permission) + About(b, permission)
  {
    if a != [] {
      AboutAppend(a[1..], b, permission);
      assert (a + b)[1..] == a[1..] + b;
    } else {
      assert a + b == b;
    }
  }

  /** Each key of a result map gets exactly one per-permission call when it is
      registered with a listener and none otherwise: granted when its value
      is true, denied when it is false. A name that is not a key gets none. */
  lemma {:induction false} OneCallbackPerKey(resultMap: OrderedMap<bool>,
                                             listeners: OrderedMap<Option<SingleListener>>,
                                             permission: string)
    requires DistinctKeys(resultMap)
    ensures var granted, l := Get(resultMap, permission), ListenerOf(listeners, permission);
      About(SingleEvents(resultMap, listeners), permission) ==
        if granted.Some? && l.Some? then
          [if granted.value then OnPermissionGranted(l.value, permission)
           else OnPermissionDenied(l.value, permission)]
        else []
  {
    if resultMap != [] {
      var head := SingleEvent(listeners, resultMap[0].0, resultMap[0].1);
      OneCallbackPerKey(resultMap[1..], listeners, permission);
      AboutAppend(head, SingleEvents(resultMap[1..], listeners), permission);
      if resultMap[0].0 == permission {
        assert Get(resultMap[1..], permission).None?;
      } else {
        assert About(head, permission) == [];
      }
    }
  }

  /** `commonListener?.onPermissionsGranted(granted)` when some key is true. */
  function GrantedEvents(common: Option<CommonListener>, resultMap: OrderedMap<bool>): seq<Event> {
    var granted := KeysWithValue(resultMap, true);
    if common.Some? && granted != [] then [OnPermissionsGranted(common.value, granted)] else []
  }

  /** `commonListener?.onPermissionsDenied(denied)` when some key is false. */
  function DeniedEvents(common: Option<CommonListener>, resultMap: OrderedMap<bool>): seq<Event> {
    var denied := KeysWithValue(resultMap, false);
    if common.Some? && denied != [] then [OnPermissionsDenied(common.value, denied)] else []
  }

  /** `commonListener?.onFailure(errors)` when there is an error. */
  function FailureEvents(common: Option<CommonListener>, errors: seq<Error>): seq<Event> {
    if common.Some? && errors != [] then [OnFailure(common.value, errors)] else []
  }

  /** The calls `notifyCommonListener` makes. */
  function CommonEvents(common: Option<CommonListener>, resultMap: OrderedMap<bool>,
                        errors: seq<Error>): seq<Event>
  {
    GrantedEvents(common, resultMap) + DeniedEvents(common, resultMap) + FailureEvents(common, errors)
  }

  /** The common listener hears at most one granted, one denied and one failure
      call, in that order: the granted list is exactly the true keys and is
      reported iff one exists, the denied list likewise for false, and the
      errors iff there are any. Without a common listener nothing is called. */
  lemma CommonCallbacks(common: Option<CommonListener>, resultMap: OrderedMap<bool>,
                        errors: seq<Error>)
    ensures common.None? ==> CommonEvents(common, resultMap, errors) == []
    ensures common.Some? ==> (CommonEvents(common, resultMap, errors) ==
      (if exists k :: (k, true) in resultMap
       then [OnPermissionsGranted(common.value, KeysWithValue(resultMap, true))] else [])
      + (if exists k :: (k, false) in resultMap
         then [OnPermissionsDenied(common.value, KeysWithValue(resultMap, false))] else [])
      + (if errors != [] then [OnFailure(common.value, errors)] else []))
  {
  }

  /** What the source's `permissionist.request()` did: showed one of the two
      rationale dialogs (whose proceed action later calls
      `createPermissionistActivity`), launched the request activity with the
      accepted names and the rationale, or reported an empty request to the
      common listener. */
  datatype RequestPath =
    | ShowedCustomRationale(custom: CustomRationale)
    | ShowedSystemRationale(shown: Rationale)
    | Launched(names: seq<string>, extraRationale: Option<Rationale>)
    | NotifiedEmpty

  /** The `Permissionist` singleton. */
  class Coordinator {
    /** Accepted permissions and their optional listeners, in insertion order. */
    var permissions: OrderedMap<Option<SingleListener>>
    var alreadyGrantedPermissions: seq<string>
    var notExistingPermissions: seq<string>
    var noPermissionInManifest: seq<string>
    var commonListener: Option<CommonListener>
    /** Every listener call made so far, oldest first. */
    var events: seq<Event>

    ghost predicate Valid()
      reads this
    {
      DistinctKeys(permissions)
    }

    /** The state `reset` leaves; it does not touch `noPermissionInManifest`. */
    predicate Cleared()
      reads this`permissions, this`alreadyGrantedPermissions, this`notExistingPermissions,
            this`commonListener
    {
      permissions == [] && alreadyGrantedPermissions == [] && notExistingPermissions == []
      && commonListener == None
    }

    constructor ()
      ensures Valid() && Cleared()
      ensures noPermissionInManifest == [] && events == []
    {
      permissions := [];
      alreadyGrantedPermissions := [];
      notExistingPermissions := [];
      noPermissionInManifest := [];
      commonListener := None;
      events := [];
    }

    /** The errors the current state reports for `resultMap`. */
    function CurrentErrors(resultMap: OrderedMap<bool>): seq<Error>
      reads this`alreadyGrantedPermissions, this`notExistingPermissions, this`noPermissionInManifest
    {
      Errors(alreadyGrantedPermissions, notExistingPermissions, noPermissionInManifest, resultMap == [])
    }

    /** Every call `onResult(resultMap)` makes from the current state. */
    function ResultEvents(resultMap: OrderedMap<bool>): seq<Event>
      reads this`permissions, this`commonListener,
            this`alreadyGrantedPermissions, this`notExistingPermissions, this`noPermissionInManifest
    {
      SingleEvents(resultMap, permissions) + CommonEvents(commonListener, resultMap, CurrentErrors(resultMap))
    }

    method ForActivity(activity: Device) returns (b: Builder)
      modifies this
      ensures Valid() && Cleared()
      ensures noPermissionInManifest == old(noPermissionInManifest) && events == old(events)
      ensures fresh(b) && b.coordinator == this && b.activity == activity && b.Valid()
      ensures b.rationale == None && b.customRationale == None
    {
      Reset();
      b := new Builder(this, activity);
    }

    method Reset()
      modifies this
      ensures Valid() && Cleared()
      ensures noPermissionInManifest == old(noPermissionInManifest) && events == old(events)
    {
      permissions := [];
      alreadyGrantedPermissions := [];
      notExistingPermissions := [];
      commonListener := None;
    }

    method PermissionGranted(permission: string)
      modifies this`events
      ensures events == old(events) + SingleEvent(permissions, permission, true)
    {
      var listener := ListenerOf(permissions, permission);
      if listener.Some? {
        events := events + [OnPermissionGranted(listener.value, permission)];
      }
    }

    method PermissionDenied(permission: string)
      modifies this`events
      ensures events == old(events) + SingleEvent(permissions, permission, false)
    {
      var listener := ListenerOf(permissions, permission);
      if listener.Some? {
        events := events + [OnPermissionDenied(listener.value, permission)];
      }
    }

    method OnResult(resultMap: OrderedMap<bool>)
      requires Valid()
      modifies this
      ensures Valid() && Cleared()
      ensures events == old(events) + old(ResultEvents(resultMap))
      ensures noPermissionInManifest == old(noPermissionInManifest)
    {
      ghost var before := old(ResultEvents(resultMap));
      NotifySinglePermissionListeners(resultMap);
      assert events == old(events) + SingleEvents(resultMap, permissions);
      NotifyCommonListener(resultMap);
      assert events == old(events) + before;
      Reset();
    }

    method NotifyCommonListener(resultMap: OrderedMap<bool>)
      modifies this`events
      ensures events == old(events) + CommonEvents(commonListener, resultMap, CurrentErrors(resultMap))
    {
      ghost var granted := GrantedEvents(commonListener, resultMap);
      ghost var denied := DeniedEvents(commonListener, resultMap);
      NotifyAboutGrantedPermissions(resultMap);
      NotifyAboutDeniedPermissions(resultMap);
      assert events == old(events) + (granted + denied);
      NotifyAboutErrors(resultMap);
    }

    method NotifyAboutGrantedPermissions(resultMap: OrderedMap<bool>)
      modifies this`events
      ensures events == old(events) + GrantedEvents(commonListener, resultMap)
    {
      var grantedPermissions := KeysWithValue(resultMap, true);
      if grantedPermissions != [] && commonListener.Some? {
        events := events + [OnPermissionsGranted(commonListener.value, grantedPermissions)];
      }
    }

    method NotifyAboutDeniedPermissions(resultMap: OrderedMap<bool>)
      modifies this`events
      ensures events == old(events) + DeniedEvents(commonListener, resultMap)
    {
      var deniedPermissions := KeysWithValue(resultMap, false);
      if deniedPermissions != [] && commonListener.Some? {
        events := events + [OnPermissionsDenied(commonListener.value, deniedPermissions)];
      }
    }

    method NotifyAboutErrors(resultMap: OrderedMap<bool>)
      modifies this`events
      ensures events == old(events) + FailureEvents(commonListener, CurrentErrors(resultMap))
    {
      var errors: seq<Error> := [];
      if alreadyGrantedPermissions != [] {
        errors := errors + [PermissionsAlreadyGranted(alreadyGrantedPermissions)];
      }
      if notExistingPermissions != [] {
        errors := errors + [PermissionsDoesNotExist(notExistingPermissions)];
      }
      if noPermissionInManifest != [] {
        errors := errors + [NoPermissionInManifest(noPermissionInManifest)];
      }
      if resultMap == [] {
        errors := errors + [NoPermissionsProvided];
      }
      assert errors == CurrentErrors(resultMap);
      if errors != [] && commonListener.Some? {
        events := events + [OnFailure(commonListener.value, errors)];
      }
    }

    method NotifySinglePermissionListeners(resultMap: OrderedMap<bool>)
      modifies this`events
      ensures events == old(events) + SingleEvents(resultMap, permissions)
    {
      var i := 0;
      while i < |resultMap|
        invariant 0 <= i <= |resultMap|
        invariant events == old(events) + SingleEvents(resultMap[..i], permissions)
      {
        var entry := resultMap[i];
        SingleEventsAppend(resultMap[..i], entry, permissions);
        assert resultMap[..i + 1] == resultMap[..i] + [entry];
        if entry.1 {
          PermissionGranted(entry.0);
        } else {
          PermissionDenied(entry.0);
        }
        i := i + 1;
      }
      assert resultMap[..i] == resultMap;
    }
  }

  /** `Permissionist.Builder`: collects the request of one cycle. */
  class Builder {
    const coordinator: Coordinator
    const activity: Device
    var rationale: Option<Rationale>
    var customRationale: Option<CustomRationale>

    /** The two kinds of rationale exclude each other. */
    ghost predicate Valid()
      reads this
    {
      rationale.None? || customRationale.None?
    }

    constructor (coordinator: Coordinator, activity: Device)
      ensures this.coordinator == coordinator && this.activity == activity
      ensures rationale == None && customRationale == None && Valid()
    {
      this.coordinator := coordinator;
      this.activity := activity;
      rationale := None;
      customRationale := None;
    }

    /** Files `permission` under exactly one collection of the coordinator,
        the one `Classify` names; only an accepted name is registered, with
        its listener. */
    method AddPermission(permission: string, listener: Option<SingleListener>)
      requires coordinator.Valid()
      modifies coordinator
      ensures coordinator.Valid()
      ensures var b := Classify(activity, permission);
        && coordinator.notExistingPermissions
           == old(coordinator.notExistingPermissions) + (if b == NotExisting then [permission] else [])
        && coordinator.noPermissionInManifest
           == old(coordinator.noPermissionInManifest) + (if b == NotInManifest then [permission] else [])
        && coordinator.alreadyGrantedPermissions
           == old(coordinator.alreadyGrantedPermissions) + (if b == AlreadyGranted then [permission] else [])
        && coordinator.permissions
           == (if b == Accepted then Put(old(coordinator.permissions), permission, listener)
               else old(coordinator.permissions))
      ensures coordinator.commonListener == old(coordinator.commonListener)
      ensures coordinator.events == old(coordinator.events)
    {
      if !IsPermissionExists(activity, permission) {
        coordinator.notExistingPermissions := coordinator.notExistingPermissions + [permission];
        return;
      }
      if !IsManifestContainsPermission(activity, permission) {
        coordinator.noPermissionInManifest := coordinator.noPermissionInManifest + [permission];
        return;
      }
      if IsPermissionGranted(activity, permission) {
        coordinator.alreadyGrantedPermissions := coordinator.alreadyGrantedPermissions + [permission];
        return;
      }
      PutDistinct(coordinator.permissions, permission, listener);
      coordinator.permissions := Put(coordinator.permissions, permission, listener);
    }

    /** The system rationale replaces any custom one. */
    method WithRationale(title: Option<string>, message: Option<string>,
                         positiveButtonText: string, negativeButtonText: Option<string>)
      modifies this
      ensures Valid()
      ensures customRationale == None
      ensures rationale == Some(Rationale(title, message, positiveButtonText, negativeButtonText))
    {
      customRationale := None;
      rationale := Some(Rationale(title, message, positiveButtonText, negativeButtonText));
    }

    /** A custom rationale replaces any system one. */
    method WithCustomRationale(custom: CustomRationale)
      modifies this
      ensures Valid()
      ensures rationale == None && customRationale == Some(custom)
    {
      rationale := None;
      customRationale := Some(custom);
    }

    method AddCommonListener(listener: CommonListener)
      modifies coordinator`commonListener
      ensures coordinator.commonListener == Some(listener)
    {
      coordinator.commonListener := Some(listener);
    }

    /** A custom rationale wins over a system rationale, which wins over
        going straight to the request activity. */
    method Request() returns (path: RequestPath)
      modifies coordinator`events
      ensures customRationale.Some? ==>
        path == ShowedCustomRationale(customRationale.value) && coordinator.events == old(coordinator.events)
      ensures customRationale.None? && rationale.Some? ==>
        path == ShowedSystemRationale(rationale.value) && coordinator.events == old(coordinator.events)
      ensures customRationale.None? && rationale.None? ==>
        if coordinator.permissions == [] then
          path == NotifiedEmpty
          && coordinator.events == old(coordinator.events) + coordinator.ResultEvents([])
        else
          path == Launched(KeyList(coordinator.permissions), None)
          && coordinator.events == old(coordinator.events)
    {
      if customRationale.Some? {
        path := ShowedCustomRationale(customRationale.value);
        return;
      }
      if rationale.Some? {
        path := ShowedSystemRationale(rationale.value);
        return;
      }
      path := CreatePermissionistActivity();
    }

    /** Launches the request activity with the accepted names; with none
        accepted, reports an empty result to the common listener instead,
        without launching and without resetting the coordinator. */
    method CreatePermissionistActivity() returns (path: RequestPath)
      modifies coordinator`events
      ensures coordinator.permissions == [] ==>
        path == NotifiedEmpty
        && coordinator.events == old(coordinator.events) + coordinator.ResultEvents([])
      ensures coordinator.permissions != [] ==>
        path == Launched(KeyList(coordinator.permissions), rationale)
        && coordinator.events == old(coordinator.events)
    {
      var names := KeyList(coordinator.permissions);
      if coordinator.permissions == [] {
        coordinator.NotifyCommonListener([]);
        path := NotifiedEmpty;
        return;
      }
      path := Launched(names, rationale);
    }
  }

  /** An empty request reports NoPermissionsProvided, after the other errors,
      to a common listener, and nothing else. */
  lemma EmptyRequestReportsNoPermissionsProvided(c: Coordinator)
    requires c.permissions == [] && c.commonListener.Some?
    ensures c.ResultEvents([]) == [OnFailure(c.commonListener.value, c.CurrentErrors([]))]
    ensures NoPermissionsProvided in c.CurrentErrors([])
    ensures c.CurrentErrors([])[|c.CurrentErrors([])| - 1] == NoPermissionsProvided
  {
  }
}
