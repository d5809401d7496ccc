/**
 * The group-resolution engine of the Permissions service, as specification
 * functions: order-preserving merging without duplicates, one pass over the
 * dynamic group-provider callbacks with their cache rules, and the full
 * resolution of a player's groups. The Service class in module Permissions
 * runs the same steps imperatively and is proved equal to these functions.
 */
module Resolution {
  import opened Wrappers
  import opened Registry
  import opened Backend
  import opened Host
  import opened TribeDefaults

  predicate NoDup(s: seq<string>)
  {
    forall i, j :: 0 <= i < j < |s| ==> s[i] != s[j]
  }

  /** From position `k` on, no element repeats one before it. */
  predicate NoRepeatFrom(s: seq<string>, k: nat)
  {
    forall i :: k <= i < |s| ==> s[i] !in s[..i]
  }

  /** The position where `g` first occurs in `s`. */
  function FirstIndex(s: seq<string>, g: string): (k: nat)
    requires g in s
    ensures k < |s| && s[k] == g && g !in s[..k]
  {
    if s[0] == g then 0
    else
      assert g in s[1..];
      var k := FirstIndex(s[1..], g);
      assert s[..k + 1] == [s[0]] + s[1..][..k];
      k + 1
  }

  /** Appending to a list does not move the first occurrence of what it already holds. */
  lemma {:induction false} FirstIndexSnoc(s: seq<string>, x: string, g: string)
    requires g in s
    ensures FirstIndex(s + [x], g) == FirstIndex(s, g)
  {
    if s[0] != g {
      assert (s + [x])[1..] == s[1..] + [x];
      FirstIndexSnoc(s[1..], x, g);
    }
  }

  /** A new element appended to a list first occurs at the end. */
  lemma {:induction false} FirstIndexAppended(s: seq<string>, x: string)
    requires x !in s
    ensures FirstIndex(s + [x], x) == |s|
  {
    if s != [] {
      assert (s + [x])[1..] == s[1..] + [x];
      FirstIndexAppended(s[1..], x);
    }
  }

  /** From position `k` on, the elements of `s` are in the order of their first occurrence in `xs`. */
  predicate FirstSeenOrder(s: seq<string>, k: nat, xs: seq<string>)
  {
    forall i, j :: k <= i < j < |s| && s[i] in xs && s[j] in xs ==> FirstIndex(xs, s[i]) < FirstIndex(xs, s[j])
  }

  /**
   * `after` extends `before` by exactly the groups of `xs` it lacks: `before` is
   * a prefix; every later element comes from `xs` and is not in `before`; every
   * group of `xs` missing from `before` is among them; none repeats an earlier
   * element; and they follow the order of their first occurrence in `xs`.
   */
  predicate InOrderMerge(before: seq<string>, after: seq<string>, xs: seq<string>)
  {
    && before <= after
    && (forall i :: |before| <= i < |after| ==> after[i] in xs && after[i] !in before)
    && (forall g :: g in xs && g !in before ==> g in after[|before|..])
    && NoRepeatFrom(after, |before|)
    && FirstSeenOrder(after, |before|, xs)
  }

  /**
   * `for (g : xs) if (!acc.Contains(g)) acc.Add(g);`: `acc` followed by the
   * groups of `xs` it lacks, each once, in the order they are first listed
   * (InOrderMerge spells this out clause by clause).
   */
  function MergeNew(acc: seq<string>, xs: seq<string>): (r: seq<string>)
    ensures InOrderMerge(acc, r, xs)
    ensures forall g :: g in r <==> g in acc || g in xs
    ensures NoDup(acc) ==> NoDup(r)
    decreases |xs|
  {
    if |xs| == 0 then acc
    else
      var init := xs[..|xs| - 1];
      var x := xs[|xs| - 1];
      assert xs == init + [x];
      var m := MergeNew(acc, init);
      if x in m then
        MergeKept(acc, init, x, m);
        m
      else
        MergeAppended(acc, init, x, m);
        m + [x]
  }

  /** A merge step whose element is already present keeps the order with respect to the longer list. */
  lemma MergeKept(acc: seq<string>, init: seq<string>, x: string, m: seq<string>)
    requires x in m && InOrderMerge(acc, m, init)
    requires forall g :: g in m <==> g in acc || g in init
    ensures InOrderMerge(acc, m, init + [x])
    ensures forall g :: g in m <==> g in acc || g in init + [x]
  {
    var xs := init + [x];
    forall k | |acc| <= k < |m| ensures FirstIndex(xs, m[k]) == FirstIndex(init, m[k]) {
      FirstIndexSnoc(init, x, m[k]);
    }
    assert m == acc + m[|acc|..];
  }

  /** A merge step that appends a new element keeps the order: the new one first occurs last. */
  lemma MergeAppended(acc: seq<string>, init: seq<string>, x: string, m: seq<string>)
    requires x !in m && InOrderMerge(acc, m, init)
    requires forall g :: g in m <==> g in acc || g in init
    ensures InOrderMerge(acc, m + [x], init + [x])
    ensures forall g :: g in m + [x] <==> g in acc || g in init + [x]
    ensures NoDup(m) ==> NoDup(m + [x])
  {
    AppendedTail(acc, init, x, m);
    AppendedComplete(acc, init, x, m);
    AppendedOrder(acc, init, x, m);
  }

  /** The prefix, tail and no-repeat part of MergeAppended. */
  lemma AppendedTail(acc: seq<string>, init: seq<string>, x: string, m: seq<string>)
    requires x !in m && InOrderMerge(acc, m, init)
    requires forall g :: g in m <==> g in acc || g in init
    ensures acc <= m + [x]
    ensures forall i :: |acc| <= i < |m + [x]| ==> (m + [x])[i] in init + [x] && (m + [x])[i] !in acc
    ensures NoRepeatFrom(m + [x], |acc|)
  {
    var r := m + [x];
    assert r[..|m|] == m;
    assert forall i :: |acc| <= i < |m| ==> r[..i] == m[..i];
  }

  /** The completeness part of MergeAppended. */
  lemma AppendedComplete(acc: seq<string>, init: seq<string>, x: string, m: seq<string>)
    requires x !in m && InOrderMerge(acc, m, init)
    ensures forall g :: g in init + [x] && g !in acc ==> g in (m + [x])[|acc|..]
  {
    assert (m + [x])[|acc|..] == m[|acc|..] + [x];
  }

  /** The first-seen order part of MergeAppended. */
  lemma AppendedOrder(acc: seq<string>, init: seq<string>, x: string, m: seq<string>)
    requires x !in m && InOrderMerge(acc, m, init)
    requires forall g :: g in m <==> g in acc || g in init
    ensures FirstSeenOrder(m + [x], |acc|, init + [x])
  {
    var xs, r := init + [x], m + [x];
    forall k | |acc| <= k < |m| ensures FirstIndex(xs, m[k]) == FirstIndex(init, m[k]) {
      FirstIndexSnoc(init, x, m[k]);
    }
    FirstIndexAppended(init, x);
    forall i, j | |acc| <= i < j < |r| && r[i] in xs && r[j] in xs
      ensures FirstIndex(xs, r[i]) < FirstIndex(xs, r[j])
    {
      assert r[i] == m[i];
      if j < |m| {
        assert r[j] == m[j];
      }
    }
  }

  /** Two merges in a row: nothing appended by either repeats an earlier element. */
  lemma NoRepeatChain(a: seq<string>, b: seq<string>, c: seq<string>)
    requires a <= b <= c && NoRepeatFrom(b, |a|) && NoRepeatFrom(c, |b|)
    ensures NoRepeatFrom(c, |a|)
  {
    forall i | |a| <= i < |c| ensures c[i] !in c[..i] {
      if i < |b| {
        assert c[..i] == b[..i];
        assert c[i] == b[i];
      }
    }
  }

  /**
   * The merge contract pins the result down: a list extending `acc` by exactly
   * the missing groups of `xs`, once each and in first-seen order, is MergeNew.
   */
  lemma MergeNewCharacterized(acc: seq<string>, r: seq<string>, xs: seq<string>)
    ensures InOrderMerge(acc, r, xs) <==> r == MergeNew(acc, xs)
  {
    if InOrderMerge(acc, r, xs) {
      InOrderMergeUnique(acc, r, MergeNew(acc, xs), xs);
    }
  }

  /** Two lists that both extend `before` by `xs` in first-seen order are equal. */
  lemma InOrderMergeUnique(before: seq<string>, a1: seq<string>, a2: seq<string>, xs: seq<string>)
    requires InOrderMerge(before, a1, xs) && InOrderMerge(before, a2, xs)
    ensures a1 == a2
  {
    var t1, t2 := a1[|before|..], a2[|before|..];
    TailInOrder(before, a1, xs);
    TailInOrder(before, a2, xs);
    IncreasingUnique(t1, t2, xs);
    assert a1 == before + t1 && a2 == before + t2;
  }

  /** The appended part of an in-order merge, on its own, is in first-seen order. */
  lemma TailInOrder(before: seq<string>, a: seq<string>, xs: seq<string>)
    requires InOrderMerge(before, a, xs)
    ensures forall g :: g in a[|before|..] <==> g in xs && g !in before
    ensures forall i :: 0 <= i < |a[|before|..]| ==> a[|before|..][i] in xs
    ensures FirstSeenOrder(a[|before|..], 0, xs)
  {
    var t := a[|before|..];
    forall g | g in t ensures g in xs && g !in before {
      var k :| 0 <= k < |t| && t[k] == g;
      assert a[|before| + k] == g;
    }
    forall i, j | 0 <= i < j < |t| && t[i] in xs && t[j] in xs
      ensures FirstIndex(xs, t[i]) < FirstIndex(xs, t[j])
    {
      assert t[i] == a[|before| + i] && t[j] == a[|before| + j];
    }
  }

  /** Two lists holding the same groups of `xs`, each in first-seen order, are equal. */
  lemma {:induction false} IncreasingUnique(t1: seq<string>, t2: seq<string>, xs: seq<string>)
    requires forall g :: g in t1 <==> g in t2
    requires forall i :: 0 <= i < |t1| ==> t1[i] in xs
    requires forall i :: 0 <= i < |t2| ==> t2[i] in xs
    requires FirstSeenOrder(t1, 0, xs) && FirstSeenOrder(t2, 0, xs)
    ensures t1 == t2
    decreases |t1|
  {
    if |t1| == 0 {
      if |t2| > 0 {
        HeadIn(t2);
      }
    } else {
      assert t1[0] in t2;
      var a, b := t1[0], t2[0];
      LeastFirst(t1, xs, b);
      LeastFirst(t2, xs, a);
      assert a == xs[FirstIndex(xs, a)] && b == xs[FirstIndex(xs, b)];
      TailMembers(t1, xs);
      TailMembers(t2, xs);
      IncreasingUnique(t1[1..], t2[1..], xs);
      assert t1 == [a] + t1[1..] && t2 == [b] + t2[1..];
    }
  }

  /** The head of a non-empty list is in it. */
  lemma HeadIn(t: seq<string>)
    requires |t| > 0
    ensures t[0] in t
  {
  }

  /** In a list in first-seen order, the head first occurs no later than any element. */
  lemma LeastFirst(t: seq<string>, xs: seq<string>, g: string)
    requires |t| > 0 && g in t
    requires forall i :: 0 <= i < |t| ==> t[i] in xs
    requires FirstSeenOrder(t, 0, xs)
    ensures FirstIndex(xs, t[0]) <= FirstIndex(xs, g)
  {
    var k :| 0 <= k < |t| && t[k] == g;
    if k > 0 {
      assert FirstIndex(xs, t[0]) < FirstIndex(xs, t[k]);
    }
  }

  /** Dropping the head of a list in first-seen order removes exactly the head from it. */
  lemma TailMembers(t: seq<string>, xs: seq<string>)
    requires |t| > 0
    requires forall i :: 0 <= i < |t| ==> t[i] in xs
    requires FirstSeenOrder(t, 0, xs)
    ensures forall g :: g in t[1..] <==> g in t && g != t[0]
    ensures forall i :: 0 <= i < |t[1..]| ==> t[1..][i] in xs
    ensures FirstSeenOrder(t[1..], 0, xs)
  {
    forall g | g in t[1..] ensures g != t[0] {
      var k :| 0 <= k < |t[1..]| && t[1..][k] == g;
      assert FirstIndex(xs, t[0]) < FirstIndex(xs, t[k + 1]);
    }
    forall g | g in t && g != t[0] ensures g in t[1..] {
      var k :| 0 <= k < |t| && t[k] == g;
      assert t[1..][k - 1] == g;
    }
    var u := t[1..];
    forall i, j | 0 <= i < j < |u| && u[i] in xs && u[j] in xs
      ensures FirstIndex(xs, u[i]) < FirstIndex(xs, u[j])
    {
      assert u[i] == t[i + 1] && u[j] == t[j + 1];
    }
  }

  /** The merging loop the service runs wherever it extends a group list. */
  method AddMissing(acc: seq<string>, xs: seq<string>) returns (r: seq<string>)
    ensures r == MergeNew(acc, xs)
  {
    r := acc;
    for j := 0 to |xs|
      invariant r == MergeNew(acc, xs[..j])
    {
      assert xs[..j + 1][..j] == xs[..j];
      if xs[j] !in r {
        r := r + [xs[j]];
      }
    }
    assert xs[..|xs|] == xs;
  }

  /**
   * A dynamic group provider: given the EOS id and the current tribe id it
   * returns groups and the tribe id that later providers see (the int* of the source).
   */
  type GroupProvider = (string, int) -> (seq<string>, int)

  datatype CallbackInfo = CallbackInfo(
    onlyCheckOnline: bool,
    cacheBySteamId: bool,
    cacheByTribe: bool,
    provider: GroupProvider)

  /**
   * The state threaded through one pass over the callbacks: the groups gathered,
   * the current tribe id, the backend (whose callback cache may be written) and
   * the log of the handles of the providers actually invoked.
   */
  datatype CallbackPass = CallbackPass(groups: seq<string>, tribeId: int, db: Database, invoked: seq<nat>)

  predicate PlayerCacheHit(db: Database, eosId: string, c: CallbackInfo)
  {
    c.cacheBySteamId && IsPlayerExists(db, eosId) && Hydrate(db, Player(eosId)).hasCheckedCallbacks
  }

  predicate TribeCacheHit(db: Database, tribeId: int, c: CallbackInfo)
  {
    c.cacheByTribe && IsTribeExists(db, tribeId) && Hydrate(db, Tribe(tribeId)).hasCheckedCallbacks
  }

  /** The `cache` flag: a cache the callback uses exists but holds no checked result yet. */
  predicate Cacheable(db: Database, eosId: string, tribeId: int, c: CallbackInfo)
  {
    (c.cacheBySteamId && IsPlayerExists(db, eosId)) || (c.cacheByTribe && IsTribeExists(db, tribeId))
  }

  /** The cache writes of a pass touch callback caches only. */
  ghost predicate SameMemberships(a: Database, b: Database)
  {
    a.allGroups == b.allGroups && a.grants == b.grants
    && (forall o :: IsExists(a, o) == IsExists(b, o))
    && (forall o :: Hydrate(a, o).groups == Hydrate(b, o).groups
                    && Hydrate(a, o).timedGroups == Hydrate(b, o).timedGroups)
  }

  /** One iteration of the callback loop of GetCallbackGroups. */
  function CallbackStep(st: CallbackPass, eosId: string, cb: Entry<CallbackInfo>): (r: CallbackPass)
    ensures SameMemberships(r.db, st.db)
    ensures r.invoked == st.invoked || (r.invoked == st.invoked + [cb.handle] && !cb.payload.onlyCheckOnline)
    ensures st.groups <= r.groups && (NoDup(st.groups) ==> NoDup(r.groups))
  {
    var c := cb.payload;
    if c.onlyCheckOnline then st
    else if PlayerCacheHit(st.db, eosId, c) then
      st.(groups := MergeNew(st.groups, Hydrate(st.db, Player(eosId)).callbackGroups))
    else if TribeCacheHit(st.db, st.tribeId, c) then
      st.(groups := MergeNew(st.groups, Hydrate(st.db, Tribe(st.tribeId)).callbackGroups))
    else
      var cache := Cacheable(st.db, eosId, st.tribeId, c);
      var out := c.provider(eosId, st.tribeId);
      var persist := cache && |out.0| > 0;
      var db1 := if persist && c.cacheBySteamId && IsPlayerExists(st.db, eosId)
                 then UpdateGroupCallbacks(st.db, Player(eosId), out.0) else st.db;
      var db2 := if persist && c.cacheByTribe && IsTribeExists(db1, out.1)
                 then UpdateGroupCallbacks(db1, Tribe(out.1), out.0) else db1;
      CallbackPass(MergeNew(st.groups, out.0), out.1, db2, st.invoked + [cb.handle])
  }

  /** The callback loop over the registered providers, in registration order. */
  function CallbackFold(st: CallbackPass, eosId: string, cbs: seq<Entry<CallbackInfo>>): (r: CallbackPass)
    ensures SameMemberships(r.db, st.db)
    ensures st.invoked <= r.invoked && |r.invoked| <= |st.invoked| + |cbs|
    ensures st.groups <= r.groups && (NoDup(st.groups) ==> NoDup(r.groups))
    decreases |cbs|
  {
    if |cbs| == 0 then st
    else CallbackStep(CallbackFold(st, eosId, cbs[..|cbs| - 1]), eosId, cbs[|cbs| - 1])
  }

  /** GetCallbackGroups(eos_id, tribeId, isOnline): `isOnline` plays no part. */
  function CallbackGroups(db: Database, cbs: seq<Entry<CallbackInfo>>, eosId: string, tribeId: int, invoked: seq<nat>): (r: CallbackPass)
    ensures NoDup(r.groups)
    ensures SameMemberships(r.db, db) && invoked <= r.invoked
  {
    CallbackFold(CallbackPass([], tribeId, db, invoked), eosId, cbs)
  }

  /** The tribe data of the player when online, as GetPlayerGroups looks it up. */
  function OnlineTribe(world: World, eosId: string): Option<TribeData>
  {
    match FindPlayerFromEOSID(world, eosId)
    case Some(pc) => GetTribeData(pc)
    case None => None
  }

  /** The tribe id handed to the callbacks: -1 unless the player is online with tribe data. */
  function ResolvedTribeId(world: World, eosId: string): (t: int)
    ensures OnlineTribe(world, eosId).None? ==> t == -1
    ensures OnlineTribe(world, eosId).Some? ==> t == OnlineTribe(world, eosId).value.tribeId
  {
    match OnlineTribe(world, eosId)
    case Some(td) => td.tribeId
    case None => -1
  }

  /**
   * The static and tribe part of GetPlayerGroups, before the callbacks: the
   * player's own groups, then the tribe's groups, then the synthetic tribe
   * groups, each appended only when not yet present, in the order it is first
   * listed.
   */
  function StaticAndTribeGroups(db: Database, world: World, eosId: string, now: int): (r: seq<string>)
    ensures OnlineTribe(world, eosId).None? ==> r == SubjectGroups(db, Player(eosId), now)
    ensures OnlineTribe(world, eosId).Some? ==>
      var own := SubjectGroups(db, Player(eosId), now);
      var tribe := SubjectGroups(db, Tribe(OnlineTribe(world, eosId).value.tribeId), now);
      var withTribe := MergeNew(own, tribe);
      own <= withTribe <= r
      && (forall i :: |own| <= i < |withTribe| ==> withTribe[i] in tribe)
      && (forall i :: |withTribe| <= i < |r| ==> r[i] in TribeDefaultGroups(OnlineTribe(world, eosId), world))
      && InOrderMerge(own, withTribe, tribe)
      && InOrderMerge(withTribe, r, TribeDefaultGroups(OnlineTribe(world, eosId), world))
    ensures SubjectGroups(db, Player(eosId), now) <= r
    ensures NoRepeatFrom(r, |SubjectGroups(db, Player(eosId), now)|)
  {
    var own := SubjectGroups(db, Player(eosId), now);
    match OnlineTribe(world, eosId)
    case Some(td) =>
      var withTribe := MergeNew(own, SubjectGroups(db, Tribe(td.tribeId), now));
      var r := MergeNew(withTribe, TribeDefaultGroups(Some(td), world));
      NoRepeatChain(own, withTribe, r);
      r
    case None => own
  }

  /**
   * GetPlayerGroups(eos_id): the backend's groups of the player, then (when the
   * player is online with tribe data) the tribe's groups and the synthetic tribe
   * groups, then the callback groups, each added only when not yet present.
   */
  function ResolvePlayer(db: Database, cbs: seq<Entry<CallbackInfo>>, world: World, eosId: string, now: int, invoked: seq<nat>): (r: CallbackPass)
    ensures SubjectGroups(db, Player(eosId), now) <= r.groups
    ensures forall g :: g in r.groups <==> (
      g in SubjectGroups(db, Player(eosId), now)
      || (OnlineTribe(world, eosId).Some?
          && (g in SubjectGroups(db, Tribe(OnlineTribe(world, eosId).value.tribeId), now)
              || g in TribeDefaultGroups(OnlineTribe(world, eosId), world)))
      || g in CallbackGroups(db, cbs, eosId, ResolvedTribeId(world, eosId), invoked).groups)
    ensures StaticAndTribeGroups(db, world, eosId, now) <= r.groups
    ensures forall i :: |StaticAndTribeGroups(db, world, eosId, now)| <= i < |r.groups| ==>
      r.groups[i] in CallbackGroups(db, cbs, eosId, ResolvedTribeId(world, eosId), invoked).groups
    ensures InOrderMerge(StaticAndTribeGroups(db, world, eosId, now), r.groups,
                         CallbackGroups(db, cbs, eosId, ResolvedTribeId(world, eosId), invoked).groups)
    ensures NoRepeatFrom(r.groups, |SubjectGroups(db, Player(eosId), now)|)
    ensures SameMemberships(r.db, db) && invoked <= r.invoked
  {
    var base := StaticAndTribeGroups(db, world, eosId, now);
    var cb := CallbackGroups(db, cbs, eosId, ResolvedTribeId(world, eosId), invoked);
    var groups := MergeNew(base, cb.groups);
    NoRepeatChain(SubjectGroups(db, Player(eosId), now), base, groups);
    cb.(groups := groups)
  }

  // ---------------------------------------------------------------- permission checks

  /** IsGroupHasPermission: an existing group holding exactly that grant (the empty name has none). */
  predicate GroupHasPermission(db: Database, group: string, permission: string)
  {
    IsGroupExists(db, group) && group != "" && permission in GetGroupPermissions(db, group)
  }

  /** Some resolved group grants the permission, or grants everything with "*". */
  predicate GroupsGrant(db: Database, groups: seq<string>, permission: string)
  {
    exists i :: 0 <= i < |groups|
      && (GroupHasPermission(db, groups[i], permission) || GroupHasPermission(db, groups[i], "*"))
  }

  // ---------------------------------------------------------------- properties

  /** Every provider invoked by a pass is a registered one without `onlyCheckOnline`. */
  lemma {:induction false} InvokedAreEligible(st: CallbackPass, eosId: string, cbs: seq<Entry<CallbackInfo>>, k: nat)
    requires |st.invoked| <= k < |CallbackFold(st, eosId, cbs).invoked|
    ensures exists j :: 0 <= j < |cbs| && cbs[j].handle == CallbackFold(st, eosId, cbs).invoked[k]
                        && !cbs[j].payload.onlyCheckOnline
    decreases |cbs|
  {
    var init := cbs[..|cbs| - 1];
    var m := CallbackFold(st, eosId, init);
    var r := CallbackFold(st, eosId, cbs);
    assert r == CallbackStep(m, eosId, cbs[|cbs| - 1]);
    if k < |m.invoked| {
      InvokedAreEligible(st, eosId, init, k);
      var j :| 0 <= j < |init| && init[j].handle == m.invoked[k] && !init[j].payload.onlyCheckOnline;
      assert cbs[j] == init[j];
      assert r.invoked[k] == m.invoked[k];
    } else {
      assert r.invoked[k] == cbs[|cbs| - 1].handle;
    }
  }

  /** A provider registered with `onlyCheckOnline` is never invoked by the resolution. */
  lemma OnlineOnlyNeverInvoked(st: CallbackPass, eosId: string, cbs: seq<Entry<CallbackInfo>>, j: nat)
    requires DistinctHandles(cbs) && j < |cbs| && cbs[j].payload.onlyCheckOnline
    ensures cbs[j].handle !in CallbackFold(st, eosId, cbs).invoked[|st.invoked|..]
  {
    var invoked := CallbackFold(st, eosId, cbs).invoked;
    assert |st.invoked| <= |invoked|;
    forall k | |st.invoked| <= k < |invoked| ensures EligibleHandle(cbs, invoked[k]) {
      InvokedAreEligible(st, eosId, cbs, k);
    }
    EligibleExcludesOnlineOnly(cbs, j, invoked, |st.invoked|);
  }

  /** `h` is the handle of a registered provider without `onlyCheckOnline`. */
  ghost predicate EligibleHandle(cbs: seq<Entry<CallbackInfo>>, h: nat)
  {
    exists j :: 0 <= j < |cbs| && cbs[j].handle == h && !cbs[j].payload.onlyCheckOnline
  }

  /** With distinct handles, handles of providers without `onlyCheckOnline` never name one with it. */
  lemma EligibleExcludesOnlineOnly(cbs: seq<Entry<CallbackInfo>>, j: nat, invoked: seq<nat>, from: nat)
    requires DistinctHandles(cbs) && j < |cbs| && cbs[j].payload.onlyCheckOnline && from <= |invoked|
    requires forall k :: from <= k < |invoked| ==> EligibleHandle(cbs, invoked[k])
    ensures cbs[j].handle !in invoked[from..]
  {
    forall i | 0 <= i < |invoked| - from ensures invoked[from..][i] != cbs[j].handle {
      var j' :| 0 <= j' < |cbs| && cbs[j'].handle == invoked[from + i] && !cbs[j'].payload.onlyCheckOnline;
      assert j' != j;
    }
  }

  /**
   * When every provider caches by player and the player's cached result is
   * already checked, a pass invokes nothing, writes nothing, and adds exactly the
   * stored callback groups (unless every provider is an online-only one).
   */
  lemma {:induction false} CheckedPlayerCacheReused(st: CallbackPass, eosId: string, cbs: seq<Entry<CallbackInfo>>)
    requires forall j :: 0 <= j < |cbs| ==> cbs[j].payload.cacheBySteamId
    requires IsPlayerExists(st.db, eosId) && Hydrate(st.db, Player(eosId)).hasCheckedCallbacks
    ensures var r := CallbackFold(st, eosId, cbs);
      r.invoked == st.invoked && r.db == st.db && r.tribeId == st.tribeId
      && forall g :: g in r.groups <==> (g in st.groups
           || (g in Hydrate(st.db, Player(eosId)).callbackGroups
               && exists j :: 0 <= j < |cbs| && !cbs[j].payload.onlyCheckOnline))
    decreases |cbs|
  {
    if |cbs| > 0 {
      var init := cbs[..|cbs| - 1];
      assert forall j :: 0 <= j < |init| ==> init[j] == cbs[j];
      CheckedPlayerCacheReused(st, eosId, init);
      var r := CallbackFold(st, eosId, cbs);
      var m := CallbackFold(st, eosId, init);
      var stored := Hydrate(st.db, Player(eosId)).callbackGroups;
      var someInit := exists j :: 0 <= j < |init| && !init[j].payload.onlyCheckOnline;
      var some := exists j :: 0 <= j < |cbs| && !cbs[j].payload.onlyCheckOnline;
      if cbs[|cbs| - 1].payload.onlyCheckOnline {
        assert r == m;
        assert some == someInit;
      } else {
        assert PlayerCacheHit(m.db, eosId, cbs[|cbs| - 1].payload);
        assert r == m.(groups := MergeNew(m.groups, stored));
        assert some;
      }
    }
  }

  /** The same for providers that cache by tribe only, with the tribe's result checked. */
  lemma {:induction false} CheckedTribeCacheReused(st: CallbackPass, eosId: string, cbs: seq<Entry<CallbackInfo>>)
    requires forall j :: 0 <= j < |cbs| ==> cbs[j].payload.cacheByTribe && !cbs[j].payload.cacheBySteamId
    requires IsTribeExists(st.db, st.tribeId) && Hydrate(st.db, Tribe(st.tribeId)).hasCheckedCallbacks
    ensures var r := CallbackFold(st, eosId, cbs);
      r.invoked == st.invoked && r.db == st.db && r.tribeId == st.tribeId
      && forall g :: g in r.groups <==> (g in st.groups
           || (g in Hydrate(st.db, Tribe(st.tribeId)).callbackGroups
               && exists j :: 0 <= j < |cbs| && !cbs[j].payload.onlyCheckOnline))
    decreases |cbs|
  {
    if |cbs| > 0 {
      var init := cbs[..|cbs| - 1];
      assert forall j :: 0 <= j < |init| ==> init[j] == cbs[j];
      CheckedTribeCacheReused(st, eosId, init);
      var r := CallbackFold(st, eosId, cbs);
      var m := CallbackFold(st, eosId, init);
      var stored := Hydrate(st.db, Tribe(st.tribeId)).callbackGroups;
      var someInit := exists j :: 0 <= j < |init| && !init[j].payload.onlyCheckOnline;
      var some := exists j :: 0 <= j < |cbs| && !cbs[j].payload.onlyCheckOnline;
      if cbs[|cbs| - 1].payload.onlyCheckOnline {
        assert r == m;
        assert some == someInit;
      } else {
        assert !PlayerCacheHit(m.db, eosId, cbs[|cbs| - 1].payload);
        assert TribeCacheHit(m.db, m.tribeId, cbs[|cbs| - 1].payload);
        assert r == m.(groups := MergeNew(m.groups, stored));
        assert some;
      }
    }
  }

  /** A checked cache of the player or of the current tribe applies to the provider. */
  predicate CacheApplies(db: Database, eosId: string, tribeId: int, c: CallbackInfo)
  {
    PlayerCacheHit(db, eosId, c) || TribeCacheHit(db, tribeId, c)
  }

  /** The stored result a provider is served from: the player's when that cache applies, else the tribe's. */
  function StoredFor(db: Database, eosId: string, tribeId: int, c: CallbackInfo): seq<string>
  {
    if PlayerCacheHit(db, eosId, c) then Hydrate(db, Player(eosId)).callbackGroups
    else Hydrate(db, Tribe(tribeId)).callbackGroups
  }

  /**
   * One provider whose cache applies: it is not invoked, nothing is written, the
   * tribe id is kept, and its stored result is merged in (the player's cache
   * taking precedence over the tribe's).
   */
  lemma CachedStepReuses(st: CallbackPass, eosId: string, cb: Entry<CallbackInfo>)
    requires !cb.payload.onlyCheckOnline && CacheApplies(st.db, eosId, st.tribeId, cb.payload)
    ensures var r := CallbackStep(st, eosId, cb);
      r.invoked == st.invoked && r.db == st.db && r.tribeId == st.tribeId
      && r.groups == MergeNew(st.groups, StoredFor(st.db, eosId, st.tribeId, cb.payload))
  {
  }

  /** Some provider of `cbs` that is not online-only is served a stored result holding `g`. */
  predicate ServedFromCache(db: Database, eosId: string, tribeId: int, cbs: seq<Entry<CallbackInfo>>, g: string)
  {
    exists j :: 0 <= j < |cbs| && !cbs[j].payload.onlyCheckOnline && g in StoredFor(db, eosId, tribeId, cbs[j].payload)
  }

  /** ServedFromCache over one more provider: the earlier ones, or the last one. */
  lemma ServedSnoc(db: Database, eosId: string, tribeId: int, cbs: seq<Entry<CallbackInfo>>, g: string)
    requires |cbs| > 0
    ensures ServedFromCache(db, eosId, tribeId, cbs, g) <==>
      ServedFromCache(db, eosId, tribeId, cbs[..|cbs| - 1], g)
      || (!cbs[|cbs| - 1].payload.onlyCheckOnline && g in StoredFor(db, eosId, tribeId, cbs[|cbs| - 1].payload))
  {
    var init := cbs[..|cbs| - 1];
    if ServedFromCache(db, eosId, tribeId, init, g) {
      var j :| 0 <= j < |init| && !init[j].payload.onlyCheckOnline && g in StoredFor(db, eosId, tribeId, init[j].payload);
      assert cbs[j] == init[j];
    }
    if ServedFromCache(db, eosId, tribeId, cbs, g) {
      var j :| 0 <= j < |cbs| && !cbs[j].payload.onlyCheckOnline && g in StoredFor(db, eosId, tribeId, cbs[j].payload);
      if j < |init| {
        assert init[j] == cbs[j];
      }
    }
  }

  /**
   * A registry of any mix of providers, each of them online-only or with a
   * checked cache that applies: a pass invokes nothing, writes nothing, and adds
   * exactly the stored results the providers are served.
   */
  lemma {:induction false} CheckedCachesReused(st: CallbackPass, eosId: string, cbs: seq<Entry<CallbackInfo>>)
    requires forall j :: 0 <= j < |cbs| ==>
      cbs[j].payload.onlyCheckOnline || CacheApplies(st.db, eosId, st.tribeId, cbs[j].payload)
    ensures var r := CallbackFold(st, eosId, cbs);
      r.invoked == st.invoked && r.db == st.db && r.tribeId == st.tribeId
      && forall g :: g in r.groups <==> (g in st.groups || ServedFromCache(st.db, eosId, st.tribeId, cbs, g))
    decreases |cbs|
  {
    if |cbs| > 0 {
      var init, last := cbs[..|cbs| - 1], cbs[|cbs| - 1];
      assert forall j :: 0 <= j < |init| ==> init[j] == cbs[j];
      CheckedCachesReused(st, eosId, init);
      var m := CallbackFold(st, eosId, init);
      if !last.payload.onlyCheckOnline {
        CachedStepReuses(m, eosId, last);
      }
      forall g ensures ServedFromCache(st.db, eosId, st.tribeId, cbs, g) <==>
        ServedFromCache(st.db, eosId, st.tribeId, init, g)
        || (!last.payload.onlyCheckOnline && g in StoredFor(st.db, eosId, st.tribeId, last.payload))
      {
        ServedSnoc(st.db, eosId, st.tribeId, cbs, g);
      }
    }
  }

  /**
   * A provider's result is written to a subject's cache only when the provider
   * was invoked on the cache path with a non-empty result, for the player when it
   * caches by player and for the tribe id it left behind when it caches by tribe;
   * and in those cases it is written, marked as checked.
   */
  lemma PersistRule(st: CallbackPass, eosId: string, cb: Entry<CallbackInfo>, o: Subject)
    ensures var r := CallbackStep(st, eosId, cb);
      var c := cb.payload;
      var out := c.provider(eosId, st.tribeId);
      var invokedNow := !c.onlyCheckOnline && !PlayerCacheHit(st.db, eosId, c) && !TribeCacheHit(st.db, st.tribeId, c);
      var writes := invokedNow && Cacheable(st.db, eosId, st.tribeId, c) && |out.0| > 0 && IsExists(st.db, o)
        && ((o == Player(eosId) && c.cacheBySteamId) || (o == Tribe(out.1) && c.cacheByTribe));
      (invokedNow <==> r.invoked == st.invoked + [cb.handle])
      && (writes ==> Hydrate(r.db, o).callbackGroups == out.0 && Hydrate(r.db, o).hasCheckedCallbacks)
      && (!writes ==> Hydrate(r.db, o) == Hydrate(st.db, o))
  {
  }

  /**
   * A provider caching by player, invoked once with a non-empty result, is not
   * invoked again on the next resolution: its stored result is returned instead.
   */
  lemma SecondResolutionUsesCache(db: Database, eosId: string, tribeId: int, cb: Entry<CallbackInfo>, invoked: seq<nat>)
    requires !cb.payload.onlyCheckOnline && cb.payload.cacheBySteamId && IsPlayerExists(db, eosId)
    requires !Hydrate(db, Player(eosId)).hasCheckedCallbacks && !TribeCacheHit(db, tribeId, cb.payload)
    requires |cb.payload.provider(eosId, tribeId).0| > 0
    ensures var first := CallbackGroups(db, [cb], eosId, tribeId, invoked);
      var second := CallbackGroups(first.db, [cb], eosId, tribeId, first.invoked);
      first.invoked == invoked + [cb.handle]
      && first.groups == MergeNew([], cb.payload.provider(eosId, tribeId).0)
      && second.invoked == first.invoked && second.groups == first.groups
  {
    var st := CallbackPass([], tribeId, db, invoked);
    assert [cb][..0] == [] && [cb][0] == cb;
    var first := CallbackGroups(db, [cb], eosId, tribeId, invoked);
    assert CallbackFold(st, eosId, []) == st;
    assert first == CallbackFold(st, eosId, [cb]) == CallbackStep(st, eosId, cb);
    PersistRule(st, eosId, cb, Player(eosId));
    assert PlayerCacheHit(first.db, eosId, cb.payload);
    var st2 := CallbackPass([], tribeId, first.db, first.invoked);
    assert CallbackFold(st2, eosId, []) == st2;
    assert CallbackGroups(first.db, [cb], eosId, tribeId, first.invoked) == CallbackFold(st2, eosId, [cb])
      == CallbackStep(st2, eosId, cb);
  }

  /** A group grants a permission when it holds it or holds "*". */
  predicate GroupGrants(db: Database, group: string, permission: string)
  {
    GroupHasPermission(db, group, permission) || GroupHasPermission(db, group, "*")
  }

  /** The scan succeeds exactly when some listed group grants the permission. */
  lemma GroupsGrantMembers(db: Database, groups: seq<string>, permission: string)
    ensures GroupsGrant(db, groups, permission) <==> exists g :: g in groups && GroupGrants(db, g, permission)
  {
    if exists g :: g in groups && GroupGrants(db, g, permission) {
      var g :| g in groups && GroupGrants(db, g, permission);
      var i :| 0 <= i < |groups| && groups[i] == g;
      assert GroupHasPermission(db, groups[i], permission) || GroupHasPermission(db, groups[i], "*");
    }
    if GroupsGrant(db, groups, permission) {
      var i :| 0 <= i < |groups|
        && (GroupHasPermission(db, groups[i], permission) || GroupHasPermission(db, groups[i], "*"));
      assert GroupGrants(db, groups[i], permission);
    }
  }

  /**
   * IsPlayerHasPermission over the resolution: a player has a permission exactly
   * when one of its static groups, or (online with tribe data) one of its tribe's
   * groups or synthetic tribe groups, or one of the callback groups grants it
   * or grants "*".
   */
  lemma PlayerGrantIff(db: Database, cbs: seq<Entry<CallbackInfo>>, world: World, eosId: string, now: int,
                       invoked: seq<nat>, permission: string)
    ensures GroupsGrant(db, ResolvePlayer(db, cbs, world, eosId, now, invoked).groups, permission) <==>
      (exists g :: g in SubjectGroups(db, Player(eosId), now) && GroupGrants(db, g, permission))
      || (OnlineTribe(world, eosId).Some?
          && exists g :: g in SubjectGroups(db, Tribe(OnlineTribe(world, eosId).value.tribeId), now)
                         && GroupGrants(db, g, permission))
      || (OnlineTribe(world, eosId).Some?
          && exists g :: g in TribeDefaultGroups(OnlineTribe(world, eosId), world) && GroupGrants(db, g, permission))
      || (exists g :: g in CallbackGroups(db, cbs, eosId, ResolvedTribeId(world, eosId), invoked).groups
                      && GroupGrants(db, g, permission))
  {
    GroupsGrantMembers(db, ResolvePlayer(db, cbs, world, eosId, now, invoked).groups, permission);
  }

  /**
   * A player holding a group that grants a permission (or "*") in the backend
   * has that permission, whatever the registered providers return.
   */
  lemma StaticGrantHolds(db: Database, cbs: seq<Entry<CallbackInfo>>, world: World, eosId: string, now: int,
                         invoked: seq<nat>, group: string, permission: string)
    requires group in SubjectGroups(db, Player(eosId), now) && GroupGrants(db, group, permission)
    ensures GroupsGrant(db, ResolvePlayer(db, cbs, world, eosId, now, invoked).groups, permission)
  {
    PlayerGrantIff(db, cbs, world, eosId, now, invoked, permission);
  }

  /** A player with no callbacks registered and offline has exactly the backend's groups. */
  lemma OfflineWithoutCallbacks(db: Database, world: World, eosId: string, now: int, invoked: seq<nat>)
    requires FindPlayerFromEOSID(world, eosId).None?
    ensures ResolvePlayer(db, [], world, eosId, now, invoked).groups == SubjectGroups(db, Player(eosId), now)
    ensures ResolvePlayer(db, [], world, eosId, now, invoked).db == db
  {
  }

  /**
   * An example on one input. A group VIP granting fly, with player abc123 added to it, gives abc123 the
   * permission; once abc123 is removed from VIP the permission is refused.
   */
  lemma VipFlyScenario(now: int)
    ensures var db0 := Database([], map[], map[], map[]);
      var db1 := Backend.AddGroup(db0, "VIP").db;
      var db2 := GroupGrantPermission(db1, "VIP", "fly").db;
      var db3 := AddToGroup(db2, Player("abc123"), "VIP").db;
      var db4 := RemoveFromGroup(db3, Player("abc123"), "VIP").db;
      GroupsGrant(db3, ResolvePlayer(db3, [], [], "abc123", now, []).groups, "fly")
      && !GroupsGrant(db4, ResolvePlayer(db4, [], [], "abc123", now, []).groups, "fly")
  {
    var db0 := Database([], map[], map[], map[]);
    var db1 := Backend.AddGroup(db0, "VIP").db;
    var db2 := GroupGrantPermission(db1, "VIP", "fly").db;
    var db3 := AddToGroup(db2, Player("abc123"), "VIP").db;
    VipGranted(db3, now);
    VipRevoked(db3, now);
  }

  /** The first half of VipFlyScenario: abc123 in VIP, which grants fly, has fly. */
  lemma VipGranted(db3: Database, now: int)
    requires var db0 := Database([], map[], map[], map[]);
      var db1 := Backend.AddGroup(db0, "VIP").db;
      var db2 := GroupGrantPermission(db1, "VIP", "fly").db;
      db3 == AddToGroup(db2, Player("abc123"), "VIP").db
    ensures GroupsGrant(db3, ResolvePlayer(db3, [], [], "abc123", now, []).groups, "fly")
  {
    assert Hydrate(db3, Player("abc123")) == CachedPermission(["VIP"], [], [], false);
    assert GetGroupPermissions(db3, "VIP") == ["fly"];
    OfflineWithoutCallbacks(db3, [], "abc123", now, []);
    assert SubjectGroups(db3, Player("abc123"), now) == ["VIP"];
    assert GroupHasPermission(db3, "VIP", "fly");
  }

  /** The second half of VipFlyScenario: once removed from VIP, abc123 is refused fly. */
  lemma VipRevoked(db3: Database, now: int)
    requires var db0 := Database([], map[], map[], map[]);
      var db1 := Backend.AddGroup(db0, "VIP").db;
      var db2 := GroupGrantPermission(db1, "VIP", "fly").db;
      db3 == AddToGroup(db2, Player("abc123"), "VIP").db
    ensures !GroupsGrant(RemoveFromGroup(db3, Player("abc123"), "VIP").db,
                         ResolvePlayer(RemoveFromGroup(db3, Player("abc123"), "VIP").db, [], [], "abc123", now, []).groups, "fly")
  {
    var db4 := RemoveFromGroup(db3, Player("abc123"), "VIP").db;
    assert Hydrate(db3, Player("abc123")) == CachedPermission(["VIP"], [], [], false);
    assert Hydrate(db4, Player("abc123")).groups == [];
    OfflineWithoutCallbacks(db4, [], "abc123", now, []);
    assert SubjectGroups(db4, Player("abc123"), now) == [];
  }
}
