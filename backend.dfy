/**
 * The persistence backend behind the Permissions service, as an in-memory store.
 *
 * The plugin talks to SQLite or MySQL through one interface; neither
 * implementation is part of this model. What the service relies on is kept:
 * the list of groups, the permissions granted to each group, and for every
 * known player (by EOS id) and tribe (by tribe id) a CachedPermission record
 * holding static groups, timed groups and the cached callback groups with
 * their `hasCheckedCallbacks` flag. Mutations return the new store and an
 * optional error message, as the backend's std::optional<std::string> does.
 */
module Backend {
  import opened Wrappers

  /** A timed membership; both times are absolute epoch seconds, 0 meaning "no delay". */
  datatype TimedGroup = TimedGroup(groupName: string, expireAtTime: int, delayUntilTime: int)

  /** What the backend knows about one player or tribe. */
  datatype CachedPermission = CachedPermission(
    groups: seq<string>,
    timedGroups: seq<TimedGroup>,
    callbackGroups: seq<string>,
    hasCheckedCallbacks: bool)

  const NoPermissions := CachedPermission([], [], [], false)

  /** Memberships are attached to a player or to a tribe. */
  datatype Subject = Player(eosId: string) | Tribe(tribeId: int)

  datatype Database = Database(
    allGroups: seq<string>,
    grants: map<string, seq<string>>,
    players: map<string, CachedPermission>,
    tribes: map<int, CachedPermission>)

  /** The result of a backend mutation. */
  datatype Update = Update(db: Database, error: Option<string>)

  // Error texts of the in-memory store (the SQL backends' own texts are not modelled).
  const GroupExistsError := "Group already exists"
  const GroupMissingError := "Group does not exist"
  const AlreadyMemberError := "Already in this group"
  const NotMemberError := "Not in this group"
  const AlreadyGrantedError := "Permission already granted"
  const NotGrantedError := "Permission not granted"

  // ---------------------------------------------------------------- queries

  predicate IsGroupExists(db: Database, group: string)
  {
    group in db.allGroups
  }

  predicate IsExists(db: Database, s: Subject)
  {
    match s
    case Player(id) => id in db.players
    case Tribe(t) => t in db.tribes
  }

  predicate IsPlayerExists(db: Database, eosId: string)
  {
    IsExists(db, Player(eosId))
  }

  predicate IsTribeExists(db: Database, tribeId: int)
  {
    IsExists(db, Tribe(tribeId))
  }

  /** HydratePlayerGroups / HydrateTribeGroups: the stored record, empty for an unknown subject. */
  function Hydrate(db: Database, s: Subject): (p: CachedPermission)
    ensures !IsExists(db, s) ==> p == NoPermissions
  {
    match s
    case Player(id) => if id in db.players then db.players[id] else NoPermissions
    case Tribe(t) => if t in db.tribes then db.tribes[t] else NoPermissions
  }

  /** The record stored for `s` replaced by `p`; every other subject is untouched. */
  function Put(db: Database, s: Subject, p: CachedPermission): (r: Database)
    ensures IsExists(r, s) && Hydrate(r, s) == p
    ensures forall o :: o != s ==> IsExists(r, o) == IsExists(db, o) && Hydrate(r, o) == Hydrate(db, o)
    ensures r.allGroups == db.allGroups && r.grants == db.grants
  {
    match s
    case Player(id) => db.(players := db.players[id := p])
    case Tribe(t) => db.(tribes := db.tribes[t := p])
  }

  /** A timed membership whose delay has not yet run out. */
  predicate IsPending(t: TimedGroup, now: int)
  {
    t.delayUntilTime > 0 && t.delayUntilTime > now
  }

  /** A timed membership that counts as a group right now. */
  predicate IsActive(t: TimedGroup, now: int)
  {
    !IsPending(t, now) && t.expireAtTime > now
  }

  function ActiveTimedGroups(ts: seq<TimedGroup>, now: int): (r: seq<string>)
    ensures forall g :: g in r <==> exists i :: 0 <= i < |ts| && ts[i].groupName == g && IsActive(ts[i], now)
  {
    if |ts| == 0 then []
    else
      var rest := ActiveTimedGroups(ts[1..], now);
      assert forall i :: 1 <= i < |ts| ==> ts[i] == ts[1..][i - 1];
      if IsActive(ts[0], now) then [ts[0].groupName] + rest else rest
  }

  /**
   * The backend's GetPlayerGroups / GetTribeGroups: static groups followed by the
   * timed groups that are active at `now`.
   */
  function SubjectGroups(db: Database, s: Subject, now: int): (r: seq<string>)
    ensures Hydrate(db, s).groups <= r
    ensures forall g :: g in r <==> (g in Hydrate(db, s).groups
      || exists i :: 0 <= i < |Hydrate(db, s).timedGroups| && Hydrate(db, s).timedGroups[i].groupName == g
                     && IsActive(Hydrate(db, s).timedGroups[i], now))
  {
    var p := Hydrate(db, s);
    p.groups + ActiveTimedGroups(p.timedGroups, now)
  }

  function GetGroupPermissions(db: Database, group: string): (r: seq<string>)
    ensures group !in db.grants ==> r == []
  {
    if group in db.grants then db.grants[group] else []
  }

  /** GetGroupMembers: the players holding `group` statically (the SQL row order is not modelled). */
  function GetGroupMembers(db: Database, group: string): (r: set<string>)
    ensures forall id :: id in r <==> id in db.players && group in db.players[id].groups
  {
    set id | id in db.players && group in db.players[id].groups
  }

  // ---------------------------------------------------------------- mutations

  function Remove(xs: seq<string>, x: string): (r: seq<string>)
    ensures x !in r
    ensures forall y :: y != x ==> (y in r <==> y in xs)
  {
    if |xs| == 0 then []
    else
      assert forall y :: y in xs ==> y == xs[0] || y in xs[1..];
      if xs[0] == x then Remove(xs[1..], x) else [xs[0]] + Remove(xs[1..], x)
  }

  function RemoveTimed(ts: seq<TimedGroup>, group: string): (r: seq<TimedGroup>)
    ensures forall i :: 0 <= i < |r| ==> r[i].groupName != group
    ensures forall t: TimedGroup :: t.groupName != group ==> (t in r <==> t in ts)
  {
    if |ts| == 0 then []
    else
      assert forall t: TimedGroup :: t in ts ==> t == ts[0] || t in ts[1..];
      if ts[0].groupName == group then RemoveTimed(ts[1..], group)
      else [ts[0]] + RemoveTimed(ts[1..], group)
  }

  predicate HasTimed(ts: seq<TimedGroup>, group: string)
  {
    exists i :: 0 <= i < |ts| && ts[i].groupName == group
  }

  function Strip(p: CachedPermission, group: string): CachedPermission
  {
    p.(groups := Remove(p.groups, group), timedGroups := RemoveTimed(p.timedGroups, group))
  }

  /** AddGroup: fails when the group already exists. */
  function AddGroup(db: Database, group: string): (u: Update)
    ensures u.error.None? <==> !IsGroupExists(db, group)
    ensures u.error.Some? ==> u.db == db
    ensures u.error.None? ==> (u.db.allGroups == db.allGroups + [group]
      && GetGroupPermissions(u.db, group) == []
      && u.db.players == db.players && u.db.tribes == db.tribes)
  {
    if IsGroupExists(db, group) then Update(db, Some(GroupExistsError))
    else Update(db.(allGroups := db.allGroups + [group], grants := db.grants[group := []]), None)
  }

  /** RemoveGroup: fails when the group is absent; otherwise its grants and memberships go too. */
  function RemoveGroup(db: Database, group: string): (u: Update)
    ensures u.error.None? <==> IsGroupExists(db, group)
    ensures u.error.Some? ==> u.db == db
    ensures u.error.None? ==> !IsGroupExists(u.db, group) && GetGroupPermissions(u.db, group) == []
    ensures u.error.None? ==> forall id :: id in u.db.players <==> id in db.players
    ensures u.error.None? ==> forall t :: t in u.db.tribes <==> t in db.tribes
  {
    if !IsGroupExists(db, group) then Update(db, Some(GroupMissingError))
    else
      Update(Database(
        Remove(db.allGroups, group),
        db.grants - {group},
        map id | id in db.players :: Strip(db.players[id], group),
        map t | t in db.tribes :: Strip(db.tribes[t], group)), None)
  }

  /** GroupGrantPermission: needs the group; a permission is granted at most once. */
  function GroupGrantPermission(db: Database, group: string, permission: string): (u: Update)
    ensures u.error.None? <==> IsGroupExists(db, group) && permission !in GetGroupPermissions(db, group)
    ensures u.error.Some? ==> u.db == db
    ensures u.error.None? ==> GetGroupPermissions(u.db, group) == GetGroupPermissions(db, group) + [permission]
    ensures u.db.allGroups == db.allGroups && u.db.players == db.players && u.db.tribes == db.tribes
    ensures forall g :: g != group ==> GetGroupPermissions(u.db, g) == GetGroupPermissions(db, g)
  {
    if !IsGroupExists(db, group) then Update(db, Some(GroupMissingError))
    else if permission in GetGroupPermissions(db, group) then Update(db, Some(AlreadyGrantedError))
    else Update(db.(grants := db.grants[group := GetGroupPermissions(db, group) + [permission]]), None)
  }

  /** GroupRevokePermission: needs the group and the grant. */
  function GroupRevokePermission(db: Database, group: string, permission: string): (u: Update)
    ensures u.error.None? <==> IsGroupExists(db, group) && permission in GetGroupPermissions(db, group)
    ensures u.error.Some? ==> u.db == db
    ensures u.error.None? ==> permission !in GetGroupPermissions(u.db, group)
    ensures forall p :: p != permission ==>
      (p in GetGroupPermissions(u.db, group) <==> p in GetGroupPermissions(db, group))
    ensures u.db.allGroups == db.allGroups && u.db.players == db.players && u.db.tribes == db.tribes
  {
    if !IsGroupExists(db, group) then Update(db, Some(GroupMissingError))
    else if permission !in GetGroupPermissions(db, group) then Update(db, Some(NotGrantedError))
    else Update(db.(grants := db.grants[group := Remove(GetGroupPermissions(db, group), permission)]), None)
  }

  /** AddPlayerToGroup / AddTribeToGroup: a permanent membership, the subject is created if new. */
  function AddToGroup(db: Database, s: Subject, group: string): (u: Update)
    ensures u.error.None? <==> IsGroupExists(db, group) && group !in Hydrate(db, s).groups
    ensures u.error.Some? ==> u.db == db
    ensures u.error.None? ==> Hydrate(u.db, s) == Hydrate(db, s).(groups := Hydrate(db, s).groups + [group])
    ensures u.db.allGroups == db.allGroups && u.db.grants == db.grants
    ensures forall o :: o != s ==> IsExists(u.db, o) == IsExists(db, o) && Hydrate(u.db, o) == Hydrate(db, o)
  {
    var p := Hydrate(db, s);
    if !IsGroupExists(db, group) then Update(db, Some(GroupMissingError))
    else if group in p.groups then Update(db, Some(AlreadyMemberError))
    else Update(Put(db, s, p.(groups := p.groups + [group])), None)
  }

  /** RemovePlayerFromGroup / RemoveTribeFromGroup. */
  function RemoveFromGroup(db: Database, s: Subject, group: string): (u: Update)
    ensures u.error.None? <==> IsGroupExists(db, group) && group in Hydrate(db, s).groups
    ensures u.error.Some? ==> u.db == db
    ensures u.error.None? ==> (group !in Hydrate(u.db, s).groups
      && Hydrate(u.db, s).timedGroups == Hydrate(db, s).timedGroups
      && forall g :: g != group ==> (g in Hydrate(u.db, s).groups <==> g in Hydrate(db, s).groups))
    ensures u.db.allGroups == db.allGroups && u.db.grants == db.grants
    ensures forall o :: o != s ==> IsExists(u.db, o) == IsExists(db, o) && Hydrate(u.db, o) == Hydrate(db, o)
  {
    var p := Hydrate(db, s);
    if !IsGroupExists(db, group) then Update(db, Some(GroupMissingError))
    else if group !in p.groups then Update(db, Some(NotMemberError))
    else Update(Put(db, s, p.(groups := Remove(p.groups, group))), None)
  }

  /**
   * AddPlayerToTimedGroup / AddTribeToTimedGroup: replaces any timed entry for the
   * group by one that expires `secs` after `now` and, when `delaySecs` is positive,
   * activates `delaySecs` after `now`.
   */
  function AddToTimedGroup(db: Database, s: Subject, group: string, secs: int, delaySecs: int, now: int): (u: Update)
    ensures u.error.None? <==> IsGroupExists(db, group)
    ensures u.error.Some? ==> u.db == db
    ensures u.error.None? ==> (
      var t := Hydrate(u.db, s).timedGroups;
      |t| > 0 && t[|t| - 1] == TimedGroup(group, now + secs, if delaySecs > 0 then now + delaySecs else 0)
      && forall i :: 0 <= i < |t| - 1 ==> t[i].groupName != group)
    ensures u.error.None? ==> Hydrate(u.db, s).groups == Hydrate(db, s).groups
    ensures u.db.allGroups == db.allGroups && u.db.grants == db.grants
    ensures forall o :: o != s ==> IsExists(u.db, o) == IsExists(db, o) && Hydrate(u.db, o) == Hydrate(db, o)
  {
    var p := Hydrate(db, s);
    if !IsGroupExists(db, group) then Update(db, Some(GroupMissingError))
    else
      var entry := TimedGroup(group, now + secs, if delaySecs > 0 then now + delaySecs else 0);
      Update(Put(db, s, p.(timedGroups := RemoveTimed(p.timedGroups, group) + [entry])), None)
  }

  /** RemovePlayerFromTimedGroup / RemoveTribeFromTimedGroup. */
  function RemoveFromTimedGroup(db: Database, s: Subject, group: string): (u: Update)
    ensures u.error.None? <==> IsGroupExists(db, group) && HasTimed(Hydrate(db, s).timedGroups, group)
    ensures u.error.Some? ==> u.db == db
    ensures u.error.None? ==> (!HasTimed(Hydrate(u.db, s).timedGroups, group)
      && Hydrate(u.db, s).groups == Hydrate(db, s).groups)
    ensures u.db.allGroups == db.allGroups && u.db.grants == db.grants
    ensures forall o :: o != s ==> IsExists(u.db, o) == IsExists(db, o) && Hydrate(u.db, o) == Hydrate(db, o)
  {
    var p := Hydrate(db, s);
    if !IsGroupExists(db, group) then Update(db, Some(GroupMissingError))
    else if !HasTimed(p.timedGroups, group) then Update(db, Some(NotMemberError))
    else Update(Put(db, s, p.(timedGroups := RemoveTimed(p.timedGroups, group))), None)
  }

  /**
   * UpdatePlayerGroupCallbacks / UpdateTribeGroupCallbacks: stores the callback
   * result for an existing subject and marks its callbacks as checked.
   */
  function UpdateGroupCallbacks(db: Database, s: Subject, groups: seq<string>): (r: Database)
    ensures IsExists(db, s) ==> Hydrate(r, s) == Hydrate(db, s).(callbackGroups := groups, hasCheckedCallbacks := true)
    ensures !IsExists(db, s) ==> r == db
    ensures r.allGroups == db.allGroups && r.grants == db.grants
    ensures forall o :: IsExists(r, o) == IsExists(db, o)
    ensures forall o :: o != s ==> Hydrate(r, o) == Hydrate(db, o)
  {
    if IsExists(db, s) then Put(db, s, Hydrate(db, s).(callbackGroups := groups, hasCheckedCallbacks := true))
    else db
  }

  // ---------------------------------------------------------------- properties

  /** A group added is there; removing it again removes it with all its grants and memberships. */
  lemma AddThenRemoveGroup(db: Database, group: string, s: Subject, now: int)
    requires !IsGroupExists(db, group)
    ensures var added := AddGroup(db, group);
      added.error.None? && IsGroupExists(added.db, group)
      && var removed := RemoveGroup(added.db, group);
      removed.error.None? && !IsGroupExists(removed.db, group)
      && GetGroupPermissions(removed.db, group) == []
      && group !in SubjectGroups(removed.db, s, now)
  {
    var added := AddGroup(db, group);
    var removed := RemoveGroup(added.db, group);
    var p := Hydrate(removed.db, s);
    assert p == Strip(Hydrate(added.db, s), group) || p == NoPermissions;
    assert forall i :: 0 <= i < |p.timedGroups| ==> p.timedGroups[i].groupName != group;
  }

  /** A permanent membership added is reported by the backend; removing it drops it from the static list. */
  lemma AddThenRemoveMember(db: Database, s: Subject, group: string, now: int)
    requires IsGroupExists(db, group) && group !in Hydrate(db, s).groups
    ensures var added := AddToGroup(db, s, group);
      added.error.None? && group in SubjectGroups(added.db, s, now)
      && var removed := RemoveFromGroup(added.db, s, group);
      removed.error.None? && group !in Hydrate(removed.db, s).groups
  {
  }

  /**
   * A membership added for `hours` with a delay of `delayHours`, as the command layer
   * passes them, becomes active at the end of the delay and stops at the expiry.
   */
  lemma TimedMembershipWindow(db: Database, s: Subject, group: string, hours: nat, delayHours: nat, start: nat, at: int)
    requires IsGroupExists(db, group)
    ensures var u := AddToTimedGroup(db, s, group, hours * 3600 + delayHours * 3600, delayHours * 3600, start);
      var entry := TimedGroup(group, start + (hours + delayHours) * 3600, if delayHours > 0 then start + delayHours * 3600 else 0);
      u.error.None? && entry in Hydrate(u.db, s).timedGroups
      && (IsActive(entry, at) <==>
            (delayHours > 0 ==> start + delayHours * 3600 <= at) && at < start + (hours + delayHours) * 3600)
  {
    var u := AddToTimedGroup(db, s, group, hours * 3600 + delayHours * 3600, delayHours * 3600, start);
    var t := Hydrate(u.db, s).timedGroups;
    assert t[|t| - 1] in t;
  }
}
