/**
 * The Permissions service: the backend handle, the two registries that are
 * appended to and erased from in place, the resolution and check operations,
 * and the mutation wrappers with the notifications each one fires.
 *
 * A subscriber's reaction to a notification is outside the model; what is kept
 * is that it is called, in which order, with which arguments, and which backend
 * state it would observe: each call appends a Delivery to `deliveries`. Each
 * invocation of a group provider appends its handle to `invocations`.
 */
module Permissions {
  import opened Wrappers
  import opened Registry
  import opened Backend
  import opened Host
  import opened TribeDefaults
  import opened Resolution

  /** One call of a group-updated subscriber. */
  datatype Delivery = Delivery(subscriber: nat, eosId: string, tribeId: int, seen: Database)

  /** The calls one NotifySubscribers(eos_id, tribeid) makes. */
  function NotifyEvents(subs: seq<Entry<()>>, eosId: string, tribeId: int, db: Database): (ev: seq<Delivery>)
    ensures |ev| == |subs|
    ensures forall i :: 0 <= i < |subs| ==> ev[i] == Delivery(subs[i].handle, eosId, tribeId, db)
    decreases |subs|
  {
    if |subs| == 0 then []
    else NotifyEvents(subs[..|subs| - 1], eosId, tribeId, db) + [Delivery(subs[|subs| - 1].handle, eosId, tribeId, db)]
  }

  /** How often subscriber `h` is called in `ev`. */
  function CallsOf(ev: seq<Delivery>, h: nat): nat
  {
    if |ev| == 0 then 0
    else CallsOf(ev[..|ev| - 1], h) + (if ev[|ev| - 1].subscriber == h then 1 else 0)
  }

  /** Every registered subscriber is called exactly once per notification, unregistered ones never. */
  lemma {:induction false} EachSubscriberOnce(subs: seq<Entry<()>>, eosId: string, tribeId: int, db: Database, h: nat)
    requires DistinctHandles(subs)
    ensures CallsOf(NotifyEvents(subs, eosId, tribeId, db), h)
            == (if exists i :: 0 <= i < |subs| && subs[i].handle == h then 1 else 0)
    decreases |subs|
  {
    if |subs| > 0 {
      var init := subs[..|subs| - 1];
      var ev := NotifyEvents(subs, eosId, tribeId, db);
      assert ev[..|ev| - 1] == NotifyEvents(init, eosId, tribeId, db);
      assert forall i :: 0 <= i < |init| ==> init[i] == subs[i];
      EachSubscriberOnce(init, eosId, tribeId, db, h);
      if subs[|subs| - 1].handle == h {
        assert !exists i :: 0 <= i < |init| && init[i].handle == h;
      }
    }
  }

  class Service {
    /** The backend behind `database`. */
    var db: Database
    /** permissionGroupUpdatedSubscribers */
    var subscribers: seq<Entry<()>>
    /** playerPermissionCallbacks */
    var callbacks: seq<Entry<CallbackInfo>>
    /** The next identity a registration receives. */
    var nextHandle: nat
    var deliveries: seq<Delivery>
    var invocations: seq<nat>

    ghost predicate Valid()
      reads this
    {
      DistinctHandles(subscribers) && HandlesBelow(subscribers, nextHandle)
      && DistinctHandles(callbacks) && HandlesBelow(callbacks, nextHandle)
    }

    constructor (backend: Database)
      ensures Valid()
      ensures db == backend && subscribers == [] && callbacks == []
      ensures deliveries == [] && invocations == []
    {
      db := backend;
      subscribers := [];
      callbacks := [];
      nextHandle := 0;
      deliveries := [];
      invocations := [];
    }

    // ------------------------------------------------------------ subscribers

    /** SubscribePermissionGroupUpdatedCallback: appended at the end. */
    method Subscribe(name: string)
      requires Valid()
      modifies this`subscribers, this`nextHandle
      ensures Valid()
      ensures subscribers == old(subscribers) + [Entry(name, old(nextHandle), ())]
      ensures nextHandle == old(nextHandle) + 1
    {
      DistinctAfterAppend(subscribers, Entry(name, nextHandle, ()), nextHandle);
      DistinctAfterAppend(callbacks, Entry(name, nextHandle, CallbackInfo(false, false, false, (e: string, t: int) => ([], t))), nextHandle);
      subscribers := subscribers + [Entry(name, nextHandle, ())];
      nextHandle := nextHandle + 1;
    }

    /** UnSubscribePermissionGroupUpdatedCallback: the first subscriber with that name leaves. */
    method UnSubscribe(name: string)
      requires Valid()
      modifies this`subscribers
      ensures Valid()
      ensures subscribers == WithoutFirstNamed(old(subscribers), name)
    {
      var iter := FirstNamed(subscribers, name);
      EraseFoundIsWithoutFirstNamed(subscribers, name);
      DistinctAfterRemoval(subscribers, name, nextHandle);
      if iter.Some? {
        subscribers := WithoutHandle(subscribers, subscribers[iter.value].handle);
      }
    }

    /** NotifySubscribers(eos_id, tribeid): every subscriber, in registration order. */
    method NotifySubscribers(eosId: string, tribeId: int)
      modifies this`deliveries
      ensures deliveries == old(deliveries) + NotifyEvents(subscribers, eosId, tribeId, db)
    {
      ghost var before := deliveries;
      for i := 0 to |subscribers|
        invariant deliveries == before + NotifyEvents(subscribers[..i], eosId, tribeId, db)
      {
        assert subscribers[..i + 1][..i] == subscribers[..i];
        deliveries := deliveries + [Delivery(subscribers[i].handle, eosId, tribeId, db)];
      }
      assert subscribers[..|subscribers|] == subscribers;
    }

    // ------------------------------------------------------------ group providers

    /** AddPlayerPermissionCallback: appended at the end. */
    method AddPlayerPermissionCallback(name: string, onlyCheckOnline: bool, cacheBySteamId: bool, cacheByTribe: bool, provider: GroupProvider)
      requires Valid()
      modifies this`callbacks, this`nextHandle
      ensures Valid()
      ensures callbacks == old(callbacks)
                           + [Entry(name, old(nextHandle), CallbackInfo(onlyCheckOnline, cacheBySteamId, cacheByTribe, provider))]
      ensures nextHandle == old(nextHandle) + 1
    {
      var e := Entry(name, nextHandle, CallbackInfo(onlyCheckOnline, cacheBySteamId, cacheByTribe, provider));
      DistinctAfterAppend(callbacks, e, nextHandle);
      DistinctAfterAppend(subscribers, Entry(name, nextHandle, ()), nextHandle);
      callbacks := callbacks + [e];
      nextHandle := nextHandle + 1;
    }

    /** RemovePlayerPermissionCallback: the first provider with that name leaves. */
    method RemovePlayerPermissionCallback(name: string)
      requires Valid()
      modifies this`callbacks
      ensures Valid()
      ensures callbacks == WithoutFirstNamed(old(callbacks), name)
    {
      var iter := FirstNamed(callbacks, name);
      EraseFoundIsWithoutFirstNamed(callbacks, name);
      DistinctAfterRemoval(callbacks, name, nextHandle);
      if iter.Some? {
        callbacks := WithoutHandle(callbacks, callbacks[iter.value].handle);
      }
    }

    // ------------------------------------------------------------ resolution

    /** GetCallbackGroups: one pass over the providers, writing the callback caches. */
    method GetCallbackGroups(eosId: string, tribeId: int, isOnline: bool) returns (groups: seq<string>)
      modifies this`db, this`invocations
      ensures var r := CallbackGroups(old(db), callbacks, eosId, tribeId, old(invocations));
        groups == r.groups && db == r.db && invocations == r.invoked
    {
      ghost var start := CallbackPass([], tribeId, db, invocations);
      groups := [];
      var tid := tribeId;
      for i := 0 to |callbacks|
        invariant CallbackPass(groups, tid, db, invocations) == CallbackFold(start, eosId, callbacks[..i])
      {
        assert callbacks[..i + 1][..i] == callbacks[..i];
        groups, tid := RunCallback(callbacks[i], eosId, groups, tid);
      }
      assert callbacks[..|callbacks|] == callbacks;
    }

    /** The body of the loop of GetCallbackGroups for one provider; `return` is its `continue`. */
    method RunCallback(permissionCallback: Entry<CallbackInfo>, eosId: string, groups: seq<string>, tribeId: int)
      returns (groups': seq<string>, tribeId': int)
      modifies this`db, this`invocations
      ensures CallbackPass(groups', tribeId', db, invocations)
              == CallbackStep(CallbackPass(groups, tribeId, old(db), old(invocations)), eosId, permissionCallback)
    {
      groups', tribeId' := groups, tribeId;
      var c := permissionCallback.payload;
      var cache := false;
      if c.onlyCheckOnline {
        return;
      }
      if c.cacheBySteamId && IsPlayerExists(db, eosId) {
        var permissions := Hydrate(db, Player(eosId));
        if permissions.hasCheckedCallbacks {
          groups' := AddMissing(groups', permissions.callbackGroups);
          return;
        }
        cache := true;
      }
      if c.cacheByTribe && IsTribeExists(db, tribeId') {
        var permissions := Hydrate(db, Tribe(tribeId'));
        if permissions.hasCheckedCallbacks {
          groups' := AddMissing(groups', permissions.callbackGroups);
          return;
        }
        cache := true;
      }
      var out := c.provider(eosId, tribeId');
      var callbackGroups := out.0;
      tribeId' := out.1;
      invocations := invocations + [permissionCallback.handle];
      if cache && |callbackGroups| > 0 {
        if c.cacheBySteamId && IsPlayerExists(db, eosId) {
          db := UpdateGroupCallbacks(db, Player(eosId), callbackGroups);
        }
        if c.cacheByTribe && IsTribeExists(db, tribeId') {
          db := UpdateGroupCallbacks(db, Tribe(tribeId'), callbackGroups);
        }
      }
      groups' := AddMissing(groups', callbackGroups);
    }

    /** GetTribeGroups: the backend's groups of the tribe at `now`. */
    function GetTribeGroups(tribeId: int, now: int): (r: seq<string>)
      reads this
      ensures Hydrate(db, Tribe(tribeId)).groups <= r
    {
      SubjectGroups(db, Tribe(tribeId), now)
    }

    /** GetPlayerGroups: see Resolution.ResolvePlayer. */
    method GetPlayerGroups(eosId: string, world: World, now: int) returns (groups: seq<string>)
      modifies this`db, this`invocations
      ensures var r := ResolvePlayer(old(db), callbacks, world, eosId, now, old(invocations));
        groups == r.groups && db == r.db && invocations == r.invoked
      ensures StaticAndTribeGroups(old(db), world, eosId, now) <= groups
      ensures NoRepeatFrom(groups, |SubjectGroups(old(db), Player(eosId), now)|)
      ensures InOrderMerge(StaticAndTribeGroups(old(db), world, eosId, now), groups,
                           CallbackGroups(old(db), callbacks, eosId, ResolvedTribeId(world, eosId), old(invocations)).groups)
    {
      groups := SubjectGroups(db, Player(eosId), now);
      var shooterPc := FindPlayerFromEOSID(world, eosId);
      var tribeId := -1;
      var isOnline := false;
      if shooterPc.Some? {
        var tribeData := GetTribeData(shooterPc.value);
        isOnline := true;
        if tribeData.Some? {
          tribeId := tribeData.value.tribeId;
          var tribeGroups := GetTribeGroups(tribeId, now);
          groups := AddMissing(groups, tribeGroups);
          var defaultTribeGroups := GetTribeDefaultGroups(tribeData, world);
          groups := AddMissing(groups, defaultTribeGroups);
        }
      }
      var callbackGroups := GetCallbackGroups(eosId, tribeId, isOnline);
      groups := AddMissing(groups, callbackGroups);
    }

    /** GetGroupPermissions: the empty group name has no permissions. */
    function GetGroupPermissions(group: string): (r: seq<string>)
      reads this
      ensures group == "" ==> r == []
      ensures group != "" ==> r == Backend.GetGroupPermissions(db, group)
    {
      if group == "" then [] else Backend.GetGroupPermissions(db, group)
    }

    // ------------------------------------------------------------ checks

    /** IsPlayerInGroup: the group is among the resolved groups. */
    method IsPlayerInGroup(eosId: string, group: string, world: World, now: int) returns (b: bool)
      modifies this`db, this`invocations
      ensures var r := ResolvePlayer(old(db), callbacks, world, eosId, now, old(invocations));
        (b <==> group in r.groups) && db == r.db && invocations == r.invoked
    {
      var groups := GetPlayerGroups(eosId, world, now);
      b := Contains(groups, group);
    }

    /** IsTribeInGroup: the group is among the tribe's groups. */
    method IsTribeInGroup(tribeId: int, group: string, now: int) returns (b: bool)
      ensures b <==> group in SubjectGroups(db, Tribe(tribeId), now)
    {
      var groups := GetTribeGroups(tribeId, now);
      b := Contains(groups, group);
    }

    /** IsGroupHasPermission: false for a missing group, otherwise the grant is looked up. */
    method IsGroupHasPermission(group: string, permission: string) returns (b: bool)
      ensures b <==> GroupHasPermission(db, group, permission)
    {
      if !IsGroupExists(db, group) {
        return false;
      }
      var permissions := GetGroupPermissions(group);
      b := Contains(permissions, permission);
    }

    /** The scan shared by IsPlayerHasPermission and IsTribeHasPermission. */
    method AnyGroupGrants(groups: seq<string>, permission: string) returns (b: bool)
      ensures b <==> GroupsGrant(db, groups, permission)
    {
      for i := 0 to |groups|
        invariant forall k :: 0 <= k < i ==>
          !GroupHasPermission(db, groups[k], permission) && !GroupHasPermission(db, groups[k], "*")
      {
        var exact := IsGroupHasPermission(groups[i], permission);
        var all := IsGroupHasPermission(groups[i], "*");
        if exact || all {
          return true;
        }
      }
      return false;
    }

    /** IsPlayerHasPermission: some resolved group grants the permission or "*". */
    method IsPlayerHasPermission(eosId: string, permission: string, world: World, now: int) returns (b: bool)
      modifies this`db, this`invocations
      ensures var r := ResolvePlayer(old(db), callbacks, world, eosId, now, old(invocations));
        (b <==> GroupsGrant(old(db), r.groups, permission)) && db == r.db && invocations == r.invoked
    {
      var groups := GetPlayerGroups(eosId, world, now);
      b := AnyGroupGrants(groups, permission);
      GrantsIgnoreCaches(old(db), db, groups, permission);
    }

    /** IsTribeHasPermission: some group of the tribe grants the permission or "*". */
    method IsTribeHasPermission(tribeId: int, permission: string, now: int) returns (b: bool)
      ensures b <==> GroupsGrant(db, SubjectGroups(db, Tribe(tribeId), now), permission)
    {
      var groups := GetTribeGroups(tribeId, now);
      b := AnyGroupGrants(groups, permission);
    }

    // ------------------------------------------------------------ mutations

    /** AddPlayerToGroup: one notification, after the backend call, with tribe id 0. */
    method AddPlayerToGroup(eosId: string, group: string) returns (err: Option<string>)
      modifies this`db, this`deliveries
      ensures var u := Backend.AddToGroup(old(db), Player(eosId), group);
        db == u.db && err == u.error
        && deliveries == old(deliveries) + NotifyEvents(subscribers, eosId, 0, u.db)
    {
      var u := Backend.AddToGroup(db, Player(eosId), group);
      db := u.db;
      NotifySubscribers(eosId, 0);
      err := u.error;
    }

    /** RemovePlayerFromGroup: notifications before and after the backend call. */
    method RemovePlayerFromGroup(eosId: string, group: string) returns (err: Option<string>)
      modifies this`db, this`deliveries
      ensures var u := Backend.RemoveFromGroup(old(db), Player(eosId), group);
        db == u.db && err == u.error
        && deliveries == old(deliveries) + NotifyEvents(subscribers, eosId, 0, old(db))
                                         + NotifyEvents(subscribers, eosId, 0, u.db)
    {
      NotifySubscribers(eosId, 0);
      var u := Backend.RemoveFromGroup(db, Player(eosId), group);
      db := u.db;
      NotifySubscribers(eosId, 0);
      err := u.error;
    }

    /** AddPlayerToTimedGroup: notifications before and after the backend call. */
    method AddPlayerToTimedGroup(eosId: string, group: string, secs: int, delaySecs: int, now: int) returns (err: Option<string>)
      modifies this`db, this`deliveries
      ensures var u := Backend.AddToTimedGroup(old(db), Player(eosId), group, secs, delaySecs, now);
        db == u.db && err == u.error
        && deliveries == old(deliveries) + NotifyEvents(subscribers, eosId, 0, old(db))
                                         + NotifyEvents(subscribers, eosId, 0, u.db)
    {
      NotifySubscribers(eosId, 0);
      var u := Backend.AddToTimedGroup(db, Player(eosId), group, secs, delaySecs, now);
      db := u.db;
      NotifySubscribers(eosId, 0);
      err := u.error;
    }

    /** RemovePlayerFromTimedGroup: one notification, after the backend call. */
    method RemovePlayerFromTimedGroup(eosId: string, group: string) returns (err: Option<string>)
      modifies this`db, this`deliveries
      ensures var u := Backend.RemoveFromTimedGroup(old(db), Player(eosId), group);
        db == u.db && err == u.error
        && deliveries == old(deliveries) + NotifyEvents(subscribers, eosId, 0, u.db)
    {
      var u := Backend.RemoveFromTimedGroup(db, Player(eosId), group);
      db := u.db;
      NotifySubscribers(eosId, 0);
      err := u.error;
    }

    /** AddTribeToGroup: one notification with an empty EOS id. */
    method AddTribeToGroup(tribeId: int, group: string) returns (err: Option<string>)
      modifies this`db, this`deliveries
      ensures var u := Backend.AddToGroup(old(db), Tribe(tribeId), group);
        db == u.db && err == u.error
        && deliveries == old(deliveries) + NotifyEvents(subscribers, "", tribeId, u.db)
    {
      var u := Backend.AddToGroup(db, Tribe(tribeId), group);
      db := u.db;
      NotifySubscribers("", tribeId);
      err := u.error;
    }

    /** RemoveTribeFromGroup: one notification with an empty EOS id. */
    method RemoveTribeFromGroup(tribeId: int, group: string) returns (err: Option<string>)
      modifies this`db, this`deliveries
      ensures var u := Backend.RemoveFromGroup(old(db), Tribe(tribeId), group);
        db == u.db && err == u.error
        && deliveries == old(deliveries) + NotifyEvents(subscribers, "", tribeId, u.db)
    {
      var u := Backend.RemoveFromGroup(db, Tribe(tribeId), group);
      db := u.db;
      NotifySubscribers("", tribeId);
      err := u.error;
    }

    /** AddTribeToTimedGroup: one notification with an empty EOS id. */
    method AddTribeToTimedGroup(tribeId: int, group: string, secs: int, delaySecs: int, now: int) returns (err: Option<string>)
      modifies this`db, this`deliveries
      ensures var u := Backend.AddToTimedGroup(old(db), Tribe(tribeId), group, secs, delaySecs, now);
        db == u.db && err == u.error
        && deliveries == old(deliveries) + NotifyEvents(subscribers, "", tribeId, u.db)
    {
      var u := Backend.AddToTimedGroup(db, Tribe(tribeId), group, secs, delaySecs, now);
      db := u.db;
      NotifySubscribers("", tribeId);
      err := u.error;
    }

    /** RemoveTribeFromTimedGroup: one notification with an empty EOS id. */
    method RemoveTribeFromTimedGroup(tribeId: int, group: string) returns (err: Option<string>)
      modifies this`db, this`deliveries
      ensures var u := Backend.RemoveFromTimedGroup(old(db), Tribe(tribeId), group);
        db == u.db && err == u.error
        && deliveries == old(deliveries) + NotifyEvents(subscribers, "", tribeId, u.db)
    {
      var u := Backend.RemoveFromTimedGroup(db, Tribe(tribeId), group);
      db := u.db;
      NotifySubscribers("", tribeId);
      err := u.error;
    }

    /** AddGroup: no notification. */
    method AddGroup(group: string) returns (err: Option<string>)
      modifies this`db
      ensures db == Backend.AddGroup(old(db), group).db && err == Backend.AddGroup(old(db), group).error
    {
      var u := Backend.AddGroup(db, group);
      db := u.db;
      err := u.error;
    }

    /** RemoveGroup: no notification. */
    method RemoveGroup(group: string) returns (err: Option<string>)
      modifies this`db
      ensures db == Backend.RemoveGroup(old(db), group).db && err == Backend.RemoveGroup(old(db), group).error
    {
      var u := Backend.RemoveGroup(db, group);
      db := u.db;
      err := u.error;
    }

    /** GroupGrantPermission: no notification. */
    method GroupGrantPermission(group: string, permission: string) returns (err: Option<string>)
      modifies this`db
      ensures var u := Backend.GroupGrantPermission(old(db), group, permission); db == u.db && err == u.error
    {
      var u := Backend.GroupGrantPermission(db, group, permission);
      db := u.db;
      err := u.error;
    }

    /** GroupRevokePermission: no notification. */
    method GroupRevokePermission(group: string, permission: string) returns (err: Option<string>)
      modifies this`db
      ensures var u := Backend.GroupRevokePermission(old(db), group, permission); db == u.db && err == u.error
    {
      var u := Backend.GroupRevokePermission(db, group, permission);
      db := u.db;
      err := u.error;
    }
  }

  /** The early-return scan `for (x : xs) if (x == y) return true; return false;`. */
  method Contains(xs: seq<string>, y: string) returns (b: bool)
    ensures b <==> y in xs
  {
    for i := 0 to |xs|
      invariant y !in xs[..i]
    {
      if xs[i] == y {
        return true;
      }
      assert xs[..i + 1] == xs[..i] + [xs[i]];
    }
    assert xs[..|xs|] == xs;
    return false;
  }

  /** Writes to the callback caches do not change what the groups grant. */
  lemma GrantsIgnoreCaches(a: Database, b: Database, groups: seq<string>, permission: string)
    requires SameMemberships(a, b)
    ensures GroupsGrant(a, groups, permission) == GroupsGrant(b, groups, permission)
  {
  }
}
