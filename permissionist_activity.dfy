/** The result half of PermissionistActivity.kt: the platform hands back the
    requested names and a parallel array of grant codes, and the activity
    turns them into the granted list, the denied list and the name -> granted
    map it forwards to the coordinator. */
module PermissionistActivity {
  import opened Collections
  import Permissionist

  /** `PackageManager.PERMISSION_GRANTED` and `PERMISSION_DENIED`. */
  const PERMISSION_GRANTED: int := 0
  const PERMISSION_DENIED: int := -1

  const REQUEST_PERMISSION_CODE: int := 0

  /** `s.indexOf(x)` for a name that occurs: the first index holding it. */
  function FirstIndex(s: seq<string>, x: string): (i: nat)
    requires x in s
    ensures i < |s| && s[i] == x
    ensures forall j :: 0 <= j < i ==> s[j] != x
  {
    if s[0] == x then 0
    else
      assert x in s[1..];
      1 + FirstIndex(s[1..], x)
  }

  /** `permissions.filterIndexed { index, _ -> grantResults[index] == code }`. */
  function WithCode(permissions: seq<string>, grantResults: seq<int>, code: int): seq<string>
    requires |permissions| <= |grantResults|
  {
    if permissions == [] then []
    else
      var n := |permissions| - 1;
      WithCode(permissions[..n], grantResults, code) + (if grantResults[n] == code then [permissions[n]] else [])
  }

  /** A name is in the filtered list iff it stands at an index whose code is
      `code`. */
  lemma {:induction false} WithCodeMembers(permissions: seq<string>, grantResults: seq<int>, code: int)
    requires |permissions| <= |grantResults|
    ensures forall p :: p in WithCode(permissions, grantResults, code) <==>
      exists i :: 0 <= i < |permissions| && permissions[i] == p && grantResults[i] == code
  {
    if permissions != [] {
      var n := |permissions| - 1;
      WithCodeMembers(permissions[..n], grantResults, code);
      forall p | p in WithCode(permissions, grantResults, code)
        ensures exists i :: 0 <= i < |permissions| && permissions[i] == p && grantResults[i] == code
      {
        if p in WithCode(permissions[..n], grantResults, code) {
          var i :| 0 <= i < n && permissions[..n][i] == p && grantResults[i] == code;
          assert permissions[i] == p;
        }
      }
      forall p | exists i :: 0 <= i < |permissions| && permissions[i] == p && grantResults[i] == code
        ensures p in WithCode(permissions, grantResults, code)
      {
        var i :| 0 <= i < |permissions| && permissions[i] == p && grantResults[i] == code;
        if i < n { assert permissions[..n][i] == p; }
      }
    }
  }

  /** When every code is GRANTED or DENIED, the granted and denied lists
      together hold every name of the array, as often as it occurs there. */
  lemma {:induction false} CodesPartition(permissions: seq<string>, grantResults: seq<int>)
    requires |permissions| <= |grantResults|
    requires forall i :: 0 <= i < |permissions| ==>
      grantResults[i] == PERMISSION_GRANTED || grantResults[i] == PERMISSION_DENIED
    ensures multiset(WithCode(permissions, grantResults, PERMISSION_GRANTED))
          + multiset(WithCode(permissions, grantResults, PERMISSION_DENIED))
         == multiset(permissions)
  {
    if permissions != [] {
      var n := |permissions| - 1;
      CodesPartition(permissions[..n], grantResults);
      assert permissions == permissions[..n] + [permissions[n]];
    }
  }

  /** Whether the code at a name's first index is GRANTED: the value
      `associateBy` stores for it. */
  function GrantedAtFirst(permissions: seq<string>, grantResults: seq<int>, p: string): bool
    requires p in permissions && |permissions| <= |grantResults|
  {
    grantResults[FirstIndex(permissions, p)] == PERMISSION_GRANTED
  }

  /** `associateBy` over the first `n` names: each name is put in turn, so a
      repeated name keeps the position of its first occurrence. */
  function AssociateBy(permissions: seq<string>, grantResults: seq<int>, n: nat): OrderedMap<bool>
    requires n <= |permissions| <= |grantResults|
  {
    if n == 0 then []
    else
      Put(AssociateBy(permissions, grantResults, n - 1), permissions[n - 1],
          GrantedAtFirst(permissions, grantResults, permissions[n - 1]))
  }

  /** The map the activity forwards. */
  function ResultMap(permissions: seq<string>, grantResults: seq<int>): OrderedMap<bool>
    requires |permissions| <= |grantResults|
  {
    AssociateBy(permissions, grantResults, |permissions|)
  }

  /** After `associateBy` over the first `n` names the keys are distinct and
      are exactly those names. */
  lemma {:induction false} AssociateByKeys(permissions: seq<string>, grantResults: seq<int>, n: nat)
    requires n <= |permissions| <= |grantResults|
    ensures DistinctKeys(AssociateBy(permissions, grantResults, n))
    ensures forall p :: p in Keys(AssociateBy(permissions, grantResults, n)) <==> p in permissions[..n]
  {
    if n > 0 {
      var prev := AssociateBy(permissions, grantResults, n - 1);
      var p := permissions[n - 1];
      var v := GrantedAtFirst(permissions, grantResults, p);
      assert AssociateBy(permissions, grantResults, n) == Put(prev, p, v);
      AssociateByKeys(permissions, grantResults, n - 1);
      PutLookup(prev, p, v);
      PutDistinct(prev, p, v);
      assert permissions[..n] == permissions[..n - 1] + [p];
    }
  }

  /** After `associateBy` over the first `n` names each of them maps to
      whether the code at its first index is GRANTED. */
  lemma {:induction false} AssociateByValues(permissions: seq<string>, grantResults: seq<int>, n: nat)
    requires n <= |permissions| <= |grantResults|
    ensures forall p :: p in permissions[..n] ==>
      Get(AssociateBy(permissions, grantResults, n), p) == Some(GrantedAtFirst(permissions, grantResults, p))
  {
    if n > 0 {
      var prev := AssociateBy(permissions, grantResults, n - 1);
      var p := permissions[n - 1];
      var v := GrantedAtFirst(permissions, grantResults, p);
      var m := AssociateBy(permissions, grantResults, n);
      assert m == Put(prev, p, v);
      AssociateByValues(permissions, grantResults, n - 1);
      PutLookup(prev, p, v);
      assert permissions[..n] == permissions[..n - 1] + [p];
      forall q | q in permissions[..n]
        ensures Get(m, q) == Some(GrantedAtFirst(permissions, grantResults, q))
      {
        if q != p {
          assert q in permissions[..n - 1];
        }
      }
    }
  }

  /** The forwarded map has exactly the requested names as keys, each once,
      and a name maps to true iff the code at its first index is GRANTED. */
  lemma ResultMapContents(permissions: seq<string>, grantResults: seq<int>)
    requires |permissions| <= |grantResults|
    ensures DistinctKeys(ResultMap(permissions, grantResults))
    ensures forall p :: p in Keys(ResultMap(permissions, grantResults)) <==> p in permissions
    ensures forall p :: p in permissions ==>
      Get(ResultMap(permissions, grantResults), p)
      == Some(grantResults[FirstIndex(permissions, p)] == PERMISSION_GRANTED)
  {
    AssociateByKeys(permissions, grantResults, |permissions|);
    AssociateByValues(permissions, grantResults, |permissions|);
    assert permissions[..|permissions|] == permissions;
  }

  /** Forwarding the map: a requested name registered with a listener hears
      exactly one per-permission call, granted iff the code at its first index
      is GRANTED; any other name hears none. */
  lemma RequestedNameCallback(permissions: seq<string>, grantResults: seq<int>,
                              listeners: OrderedMap<Option<Permissionist.SingleListener>>, p: string)
    requires |permissions| <= |grantResults|
    ensures var l := Permissionist.ListenerOf(listeners, p);
      Permissionist.About(Permissionist.SingleEvents(ResultMap(permissions, grantResults), listeners), p) ==
        if p in permissions && l.Some? then
          [if GrantedAtFirst(permissions, grantResults, p)
           then Permissionist.OnPermissionGranted(l.value, p)
           else Permissionist.OnPermissionDenied(l.value, p)]
        else []
  {
    ResultMapContents(permissions, grantResults);
    Permissionist.OneCallbackPerKey(ResultMap(permissions, grantResults), listeners, p);
  }

  /** One `filterIndexed` pass; None when `grantResults[index]` runs past the
      end of the array, where the source throws. */
  method FilterIndexed(permissions: seq<string>, grantResults: seq<int>, code: int)
    returns (r: Option<seq<string>>)
    ensures r.None? <==> |grantResults| < |permissions|
    ensures r.Some? ==> r.value == WithCode(permissions, grantResults, code)
  {
    var filtered := [];
    var index := 0;
    while index < |permissions|
      invariant index <= |permissions| && index <= |grantResults|
      invariant filtered == WithCode(permissions[..index], grantResults, code)
    {
      if index >= |grantResults| {
        return None;
      }
      assert permissions[..index + 1][..index] == permissions[..index];
      if grantResults[index] == code {
        filtered := filtered + [permissions[index]];
      }
      index := index + 1;
    }
    assert permissions[..index] == permissions;
    return Some(filtered);
  }

  /** What `onRequestPermissionsResult` did with one callback. */
  datatype Outcome =
    | Ignored
    | IndexOutOfBounds
    | Forwarded(resultMap: OrderedMap<bool>, granted: seq<string>, denied: seq<string>)

  /** Only a callback for the activity's own request code is handled; its map
      is forwarded to the coordinator's `onResult`, which dispatches it and
      resets. The granted and denied lists are built but not used further. */
  method OnRequestPermissionsResult(coordinator: Permissionist.Coordinator, requestCode: int,
                                    permissions: seq<string>, grantResults: seq<int>)
    returns (outcome: Outcome)
    requires coordinator.Valid()
    modifies coordinator
    ensures coordinator.Valid()
    ensures requestCode != REQUEST_PERMISSION_CODE ==> outcome == Ignored && unchanged(coordinator)
    ensures requestCode == REQUEST_PERMISSION_CODE && |grantResults| < |permissions| ==>
      outcome == IndexOutOfBounds && unchanged(coordinator)
    ensures requestCode == REQUEST_PERMISSION_CODE && |permissions| <= |grantResults| ==>
      && outcome == Forwarded(ResultMap(permissions, grantResults),
                              WithCode(permissions, grantResults, PERMISSION_GRANTED),
                              WithCode(permissions, grantResults, PERMISSION_DENIED))
      && coordinator.events
         == old(coordinator.events) + old(coordinator.ResultEvents(ResultMap(permissions, grantResults)))
      && coordinator.Cleared()
      && coordinator.noPermissionInManifest == old(coordinator.noPermissionInManifest)
  {
    if requestCode != REQUEST_PERMISSION_CODE {
      return Ignored;
    }
    var grantedPermissions := FilterIndexed(permissions, grantResults, PERMISSION_GRANTED);
    if grantedPermissions.None? {
      return IndexOutOfBounds;
    }
    var deniedPermissions := FilterIndexed(permissions, grantResults, PERMISSION_DENIED);
    var resultMap := ResultMap(permissions, grantResults);
    coordinator.OnResult(resultMap);
    outcome := Forwarded(resultMap, grantedPermissions.value, deniedPermissions.value);
  }
}
