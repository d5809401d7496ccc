/**
 * The texts the PlayerGroups and TribeGroups commands and the /groups chat
 * command show: static groups joined by ", ", then one line per timed
 * membership still listed, labelled with the time until it activates or ends,
 * and for tribes a "Tribe Permissions: " header.
 */
module GroupText {
  import opened Wrappers
  import opened Text
  import opened Backend
  import opened Host
  import opened TribeDefaults
  import opened TimeFormat

  const TribeHeader := "Tribe Permissions: "
  /** The header of the chat variant; its colour markup is kept as a literal. */
  const TribeHeaderChat := "<RichColor Color=\"0.91, 0.85 , 0.09, 1\">Tribe Permissions: </>"

  /** The label after a timed group's name. */
  function TimedSuffix(t: TimedGroup, now: int): string
  {
    if IsPending(t, now) then " - Activates in " + TimeLeft(t.delayUntilTime - now, 2)
    else if t.expireAtTime > now then " - Ends in " + TimeLeft(t.expireAtTime - now, 2)
    else ""
  }

  function TimedLine(t: TimedGroup, now: int): string
  {
    t.groupName + TimedSuffix(t, now)
  }

  /**
   * Whether a timed membership is listed: the tribe text drops it once
   * `ExpireAtTime <= now`, the player text only once `ExpireAtTime < now`.
   */
  predicate Listed(t: TimedGroup, now: int, dropAtExpiry: bool)
  {
    if dropAtExpiry then t.expireAtTime > now else t.expireAtTime >= now
  }

  /** The lines of the listed timed memberships, in stored order. */
  function TimedLines(ts: seq<TimedGroup>, now: int, dropAtExpiry: bool): (r: seq<string>)
    ensures |r| <= |ts|
    decreases |ts|
  {
    if |ts| == 0 then []
    else
      var r := TimedLines(ts[..|ts| - 1], now, dropAtExpiry);
      if Listed(ts[|ts| - 1], now, dropAtExpiry) then r + [TimedLine(ts[|ts| - 1], now)] else r
  }

  /** Every listed membership has its line. */
  lemma {:induction false} ListedHasLine(ts: seq<TimedGroup>, now: int, dropAtExpiry: bool, i: nat)
    requires i < |ts| && Listed(ts[i], now, dropAtExpiry)
    ensures TimedLine(ts[i], now) in TimedLines(ts, now, dropAtExpiry)
    decreases |ts|, 1
  {
    if i < |ts| - 1 {
      ListedEarlierHasLine(ts, now, dropAtExpiry, i);
    } else {
      KeptAfterSnoc(TimedLines(ts[..|ts| - 1], now, dropAtExpiry), TimedLine(ts[i], now), TimedLine(ts[i], now), true);
    }
  }

  lemma {:induction false} ListedEarlierHasLine(ts: seq<TimedGroup>, now: int, dropAtExpiry: bool, i: nat)
    requires i < |ts| - 1 && Listed(ts[i], now, dropAtExpiry)
    ensures TimedLine(ts[i], now) in TimedLines(ts, now, dropAtExpiry)
    decreases |ts|, 0
  {
    var init := ts[..|ts| - 1];
    assert init[i] == ts[i];
    ListedHasLine(init, now, dropAtExpiry, i);
    KeptAfterSnoc(TimedLines(init, now, dropAtExpiry), TimedLine(ts[|ts| - 1], now), TimedLine(ts[i], now),
      Listed(ts[|ts| - 1], now, dropAtExpiry));
  }

  /** An element already present, or the appended one when it is kept, is in the result. */
  lemma KeptAfterSnoc<T>(r: seq<T>, x: T, y: T, keep: bool)
    requires y in r || (keep && y == x)
    ensures y in (if keep then r + [x] else r)
  {
  }

  /** Every line belongs to a listed membership: the one at the index returned. */
  lemma {:induction false} LineSource(ts: seq<TimedGroup>, now: int, dropAtExpiry: bool, k: nat) returns (i: nat)
    requires k < |TimedLines(ts, now, dropAtExpiry)|
    ensures i < |ts| && Listed(ts[i], now, dropAtExpiry)
    ensures TimedLines(ts, now, dropAtExpiry)[k] == TimedLine(ts[i], now)
    decreases |ts|
  {
    var init := ts[..|ts| - 1];
    var m := TimedLines(init, now, dropAtExpiry);
    SnocIndex(m, TimedLine(ts[|ts| - 1], now), Listed(ts[|ts| - 1], now, dropAtExpiry), k);
    if k < |m| {
      i := LineSource(init, now, dropAtExpiry, k);
      assert init[i] == ts[i];
    } else {
      i := |ts| - 1;
    }
  }

  /** The k-th element after a possible append: an old one, or the appended one when kept. */
  lemma SnocIndex<T>(r: seq<T>, x: T, keep: bool, k: nat)
    requires k < |if keep then r + [x] else r|
    ensures k < |r| ==> (if keep then r + [x] else r)[k] == r[k]
    ensures k >= |r| ==> keep && (if keep then r + [x] else r)[k] == x
  {
  }

  /** The accumulated text before any header: groups after `start`, then the timed lines. */
  function GroupsBody(start: string, p: CachedPermission, now: int, dropAtExpiry: bool): string
  {
    SepFold(SepFold(start, ", ", p.groups), "\n", TimedLines(p.timedGroups, now, dropAtExpiry))
  }

  /** GetTribeGroupsStr(tribeDefaults, tribe_id, forChat); TribeTextIsJoin states its layout. */
  function TribeGroupsStr(db: Database, tribeDefaults: string, tribeId: int, forChat: bool, now: int): (r: string)
    ensures !IsTribeExists(db, tribeId) ==> r == ""
    ensures IsTribeExists(db, tribeId) ==>
      var body := GroupsBody(tribeDefaults, Hydrate(db, Tribe(tribeId)), now, true);
      r == (if body == "" then "" else (if forChat then TribeHeaderChat else TribeHeader) + body)
  {
    if !IsTribeExists(db, tribeId) then ""
    else
      var body := GroupsBody(tribeDefaults, Hydrate(db, Tribe(tribeId)), now, true);
      if body == "" then "" else (if forChat then TribeHeaderChat else TribeHeader) + body
  }

  /** `if (acc.Len() > 0 && x.Len() > 0) acc += sep; acc += x;` */
  function AppendIfAny(acc: string, sep: string, x: string): string
  {
    if |acc| > 0 && |x| > 0 then acc + sep + x else acc + x
  }

  /** The tribe block GetPlayerGroupsStr appends for one online controller, if any. */
  function TribeBlock(db: Database, pc: Controller, world: World, forChat: bool, now: int): string
  {
    match GetTribeData(pc)
    case Some(td) =>
      if td.tribeId > 0 then
        TribeGroupsStr(db, SepFold("", ", ", TribeDefaultGroups(Some(td), world)), td.tribeId, forChat, now)
      else ""
    case None => ""
  }

  /** The tribe blocks of `ctrls`, appended to `acc` one per line. */
  function TribeBlocks(acc: string, db: Database, ctrls: seq<Controller>, world: World, forChat: bool, now: int): string
    decreases |ctrls|
  {
    if |ctrls| == 0 then acc
    else AppendIfAny(TribeBlocks(acc, db, ctrls[..|ctrls| - 1], world, forChat, now), "\n",
                     TribeBlock(db, ctrls[|ctrls| - 1], world, forChat, now))
  }

  /** One more controller appends its tribe block, if any, on a line of its own. */
  lemma TribeBlocksStep(acc: string, db: Database, ctrls: seq<Controller>, world: World, forChat: bool, now: int, i: nat)
    requires i < |ctrls|
    ensures TribeBlocks(acc, db, ctrls[..i + 1], world, forChat, now)
      == AppendIfAny(TribeBlocks(acc, db, ctrls[..i], world, forChat, now), "\n", TribeBlock(db, ctrls[i], world, forChat, now))
  {
    assert ctrls[..i + 1][..i] == ctrls[..i];
  }

  /**
   * GetPlayerGroupsStr(eos_id, forChat): the player's own groups and then a block for
   * the tribe of every online controller with a positive tribe id.
   */
  function PlayerGroupsStr(db: Database, eosId: string, forChat: bool, world: World, now: int): (r: string)
    ensures !IsPlayerExists(db, eosId) ==> r == ""
  {
    if !IsPlayerExists(db, eosId) then ""
    else TribeBlocks(GroupsBody("", Hydrate(db, Player(eosId)), now, false), db, world, world, forChat, now)
  }

  // ---------------------------------------------------------------- the loops

  /** One more membership adds its line exactly when it is listed. */
  lemma TimedLinesStep(ts: seq<TimedGroup>, now: int, dropAtExpiry: bool, i: nat)
    requires i < |ts|
    ensures TimedLines(ts[..i + 1], now, dropAtExpiry) ==
      if Listed(ts[i], now, dropAtExpiry) then TimedLines(ts[..i], now, dropAtExpiry) + [TimedLine(ts[i], now)]
      else TimedLines(ts[..i], now, dropAtExpiry)
  {
    assert ts[..i + 1][..i] == ts[..i];
  }

  /** Appending the name and then its label is appending the whole line. */
  lemma AppendSepThenSuffix(acc: string, sep: string, name: string, suffix: string)
    ensures AppendSep(acc, sep, name) + suffix == AppendSep(acc, sep, name + suffix)
  {
    if |acc| > 0 {
      assert acc + sep + name + suffix == acc + sep + (name + suffix);
    }
  }

  /** The two loops shared by both texts: static groups after `start`, then the timed lines. */
  method AppendGroups(start: string, permissions: CachedPermission, now: int, dropAtExpiry: bool) returns (groupsStr: string)
    ensures groupsStr == GroupsBody(start, permissions, now, dropAtExpiry)
  {
    groupsStr := AppendStatic(start, permissions.groups);
    groupsStr := AppendTimed(groupsStr, permissions.timedGroups, now, dropAtExpiry);
  }

  method AppendStatic(start: string, groups: seq<string>) returns (groupsStr: string)
    ensures groupsStr == SepFold(start, ", ", groups)
  {
    groupsStr := start;
    for i := 0 to |groups|
      invariant groupsStr == SepFold(start, ", ", groups[..i])
    {
      assert groups[..i + 1][..i] == groups[..i];
      groupsStr := AppendSep(groupsStr, ", ", groups[i]);
    }
    assert groups[..|groups|] == groups;
  }

  method AppendTimed(head: string, ts: seq<TimedGroup>, now: int, dropAtExpiry: bool) returns (groupsStr: string)
    ensures groupsStr == SepFold(head, "\n", TimedLines(ts, now, dropAtExpiry))
  {
    groupsStr := head;
    for i := 0 to |ts|
      invariant groupsStr == SepFold(head, "\n", TimedLines(ts[..i], now, dropAtExpiry))
    {
      TimedLinesStep(ts, now, dropAtExpiry, i);
      var currentGroup := ts[i];
      if !Listed(currentGroup, now, dropAtExpiry) {
        continue;
      }
      ghost var before := groupsStr;
      groupsStr := AppendSep(groupsStr, "\n", currentGroup.groupName);
      var suffix := GetTimedSuffix(currentGroup, now);
      groupsStr := groupsStr + suffix;
      AppendSepThenSuffix(before, "\n", currentGroup.groupName, suffix);
      SepFoldSnoc(head, "\n", TimedLines(ts[..i], now, dropAtExpiry), TimedLine(currentGroup, now));
    }
    assert ts[..|ts|] == ts;
  }

  /** The label of one timed membership, appended after its name. */
  method GetTimedSuffix(currentGroup: TimedGroup, now: int) returns (suffix: string)
    ensures suffix == TimedSuffix(currentGroup, now)
  {
    suffix := "";
    if currentGroup.delayUntilTime > 0 && currentGroup.delayUntilTime > now {
      var diff := currentGroup.delayUntilTime - now;
      var left := GetTimeLeft(diff, 2);
      suffix := " - Activates in " + left;
    } else if currentGroup.expireAtTime > now {
      var diff := currentGroup.expireAtTime - now;
      var left := GetTimeLeft(diff, 2);
      suffix := " - Ends in " + left;
    }
  }

  method GetTribeGroupsStr(db: Database, tribeDefaults: string, tribeId: int, forChat: bool, now: int) returns (groupsStr: string)
    ensures groupsStr == TribeGroupsStr(db, tribeDefaults, tribeId, forChat, now)
  {
    if !IsTribeExists(db, tribeId) {
      return "";
    }
    var permissions := Hydrate(db, Tribe(tribeId));
    groupsStr := AppendGroups(tribeDefaults, permissions, now, true);
    if |groupsStr| > 0 {
      if forChat {
        groupsStr := TribeHeaderChat + groupsStr;
      } else {
        groupsStr := TribeHeader + groupsStr;
      }
    }
  }

  /** The defaults string GetPlayerGroupsStr builds for a tribe. */
  method JoinDefaults(groups: seq<string>) returns (defaults: string)
    ensures defaults == SepFold("", ", ", groups)
  {
    defaults := "";
    for i := 0 to |groups|
      invariant defaults == SepFold("", ", ", groups[..i])
    {
      assert groups[..i + 1][..i] == groups[..i];
      defaults := AppendSep(defaults, ", ", groups[i]);
    }
    assert groups[..|groups|] == groups;
  }

  method GetPlayerGroupsStr(db: Database, eosId: string, forChat: bool, world: World, now: int) returns (groupsStr: string)
    ensures groupsStr == PlayerGroupsStr(db, eosId, forChat, world, now)
  {
    if !IsPlayerExists(db, eosId) {
      return "";
    }
    var permissions := Hydrate(db, Player(eosId));
    groupsStr := AppendGroups("", permissions, now, false);
    ghost var own := groupsStr;
    for i := 0 to |world|
      invariant groupsStr == TribeBlocks(own, db, world[..i], world, forChat, now)
    {
      TribeBlocksStep(own, db, world, world, forChat, now, i);
      ghost var before := groupsStr;
      var tribeData := GetTribeData(world[i]);
      if tribeData.Some? {
        var tribeId := tribeData.value.tribeId;
        if tribeId > 0 {
          var defaultTribeGroups := GetTribeDefaultGroups(tribeData, world);
          var defaults := JoinDefaults(defaultTribeGroups);
          var tribeStr := GetTribeGroupsStr(db, defaults, tribeId, forChat, now);
          if |groupsStr| > 0 && |tribeStr| > 0 {
            groupsStr := groupsStr + "\n";
          }
          groupsStr := groupsStr + tribeStr;
        }
      }
      assert groupsStr == AppendIfAny(before, "\n", TribeBlock(db, world[i], world, forChat, now));
    }
    assert world[..|world|] == world;
  }

  // ---------------------------------------------------------------- properties

  /**
   * The body is a two-level join: the defaults and static groups joined by ", "
   * form the first line, the timed lines follow one per line; empty leading
   * pieces produce no separator.
   */
  lemma BodyIsJoin(start: string, p: CachedPermission, now: int, dropAtExpiry: bool)
    ensures GroupsBody(start, p, now, dropAtExpiry)
      == Join("\n", DropLeadingEmpty([Join(", ", DropLeadingEmpty([start] + p.groups))]
                                     + TimedLines(p.timedGroups, now, dropAtExpiry)))
  {
    var head := SepFold(start, ", ", p.groups);
    assert AppendSep("", ", ", start) == start;
    SepFoldHead("", ", ", start, p.groups);
    SepFoldIsJoin(", ", [start] + p.groups);
    var lines := TimedLines(p.timedGroups, now, dropAtExpiry);
    assert AppendSep("", "\n", head) == head;
    SepFoldHead("", "\n", head, lines);
    SepFoldIsJoin("\n", [head] + lines);
  }

  /**
   * A tribe's text: nothing for an unknown tribe or an empty listing; otherwise
   * the header, then one line holding the defaults and the static groups joined
   * by ", ", then one line per timed group still listed (expired ones dropped).
   */
  lemma TribeTextIsJoin(db: Database, tribeDefaults: string, tribeId: int, forChat: bool, now: int)
    ensures !IsTribeExists(db, tribeId) ==> TribeGroupsStr(db, tribeDefaults, tribeId, forChat, now) == ""
    ensures IsTribeExists(db, tribeId) ==>
      var p := Hydrate(db, Tribe(tribeId));
      var body := Join("\n", DropLeadingEmpty([Join(", ", DropLeadingEmpty([tribeDefaults] + p.groups))]
                                              + TimedLines(p.timedGroups, now, true)));
      TribeGroupsStr(db, tribeDefaults, tribeId, forChat, now)
        == (if body == "" then "" else (if forChat then TribeHeaderChat else TribeHeader) + body)
  {
    BodyIsJoin(tribeDefaults, Hydrate(db, Tribe(tribeId)), now, true);
  }

  /** A timed group still listed in a tribe's text always carries a label. */
  lemma TribeLinesLabelled(t: TimedGroup, now: int)
    requires Listed(t, now, true)
    ensures TimedSuffix(t, now) != ""
  {
  }

  /**
   * The player's text lists a timed group expiring exactly now, with no label;
   * the tribe's text drops it.
   */
  lemma ExpiringNowListedBare(t: TimedGroup, now: int)
    requires t.expireAtTime == now && !IsPending(t, now)
    ensures Listed(t, now, false) && !Listed(t, now, true)
    ensures TimedLine(t, now) == t.groupName
  {
  }

  /** A pending membership's label is the time until its delay runs out. */
  lemma PendingLabel(t: TimedGroup, now: int)
    requires IsPending(t, now)
    ensures TimedSuffix(t, now) == " - Activates in " + TimeLeft(t.delayUntilTime - now, 2)
    ensures TimeLeft(t.delayUntilTime - now, 2) != ""
  {
    var secs := t.delayUntilTime - now;
    assert secs > 0;
    var left := TimeLeft(secs, 2);
    assert left != "";
    assert TimedSuffix(t, now) == " - Activates in " + left;
  }

  /** Without online controllers in a tribe with a positive id no tribe block is added. */
  lemma {:induction false} NoTribeBlocks(acc: string, db: Database, ctrls: seq<Controller>, world: World, forChat: bool, now: int)
    requires forall i :: 0 <= i < |ctrls| ==> ctrls[i].tribe.None? || ctrls[i].tribe.value.tribeId <= 0
    ensures TribeBlocks(acc, db, ctrls, world, forChat, now) == acc
    decreases |ctrls|
  {
    if |ctrls| > 0 {
      NoTribeBlocks(acc, db, ctrls[..|ctrls| - 1], world, forChat, now);
      assert acc + "" == acc;
    }
  }

  /** An example on one input: the defaults text of a lone online member of tribe 7. */
  lemma LoneMemberDefaults()
    ensures SepFold("", ", ", TribeDefaultGroups(Some(TribeData(7, [2])), [Controller("b", 2, Some(TribeData(7, [2])))]))
            == "TribeSize:1, TribeOnline:1"
  {
    var world := [Controller("b", 2, Some(TribeData(7, [2])))];
    assert OnlineTribemates(world[..0], [2]) == 0;
    assert OnlineTribemates(world, [2]) == 1;
    assert NatToString(1) == "1";
    var defaults := TribeDefaultGroups(Some(TribeData(7, [2])), world);
    assert defaults == [TribeSizePrefix + "1", TribeOnlinePrefix + "1"];
    assert TribeSizePrefix + "1" == "TribeSize:1" && TribeOnlinePrefix + "1" == "TribeOnline:1";
    assert defaults[..1] == ["TribeSize:1"] && defaults[..1][..0] == [];
    assert SepFold("", ", ", defaults[..1]) == "TribeSize:1";
  }

  /** One static group and no timed ones: the body is that group appended to the start. */
  lemma StaticBody(start: string, g: string, now: int, dropAtExpiry: bool)
    ensures GroupsBody(start, CachedPermission([g], [], [], false), now, dropAtExpiry) == AppendSep(start, ", ", g)
  {
    assert TimedLines([], now, dropAtExpiry) == [];
    assert [g][..0] == [];
    assert SepFold(start, ", ", [g]) == AppendSep(SepFold(start, ", ", []), ", ", g) == AppendSep(start, ", ", g);
    assert SepFold(AppendSep(start, ", ", g), "\n", []) == AppendSep(start, ", ", g);
  }

  /** A tribe holding one static group and no timed ones: the header, the defaults, then that group. */
  lemma OneStaticTribeText(db: Database, defaults: string, tribeId: int, g: string, now: int)
    requires IsTribeExists(db, tribeId) && Hydrate(db, Tribe(tribeId)) == CachedPermission([g], [], [], false)
    requires defaults != ""
    ensures TribeGroupsStr(db, defaults, tribeId, false, now) == TribeHeader + defaults + ", " + g
  {
    StaticBody(defaults, g, now, true);
  }

  /** An example on one input: tribe 7 holding only T, with its size and online count 1. */
  lemma TribeSevenText(db: Database, now: int)
    requires IsTribeExists(db, 7) && Hydrate(db, Tribe(7)) == CachedPermission(["T"], [], [], false)
    ensures TribeGroupsStr(db, "TribeSize:1, TribeOnline:1", 7, false, now)
            == TribeHeader + "TribeSize:1, TribeOnline:1" + ", " + "T"
  {
    OneStaticTribeText(db, "TribeSize:1, TribeOnline:1", 7, "T", now);
  }

  /** An example: a player holding only G, with one online controller in the world: G, then that controller's tribe block. */
  lemma OneControllerText(db: Database, eosId: string, pc: Controller, now: int)
    requires IsPlayerExists(db, eosId) && Hydrate(db, Player(eosId)) == CachedPermission(["G"], [], [], false)
    ensures PlayerGroupsStr(db, eosId, false, [pc], now) == AppendIfAny("G", "\n", TribeBlock(db, pc, [pc], false, now))
  {
    StaticBody("", "G", now, false);
    assert AppendSep("", ", ", "G") == "G";
    var world := [pc];
    assert world[..0] == [];
    assert TribeBlocks("G", db, world[..0], world, false, now) == "G";
  }

  /** An example on one input: the block of a lone online member of tribe 7, which holds only T. */
  lemma TribeSevenBlock(db: Database, now: int)
    requires IsTribeExists(db, 7) && Hydrate(db, Tribe(7)) == CachedPermission(["T"], [], [], false)
    ensures var pc := Controller("b", 2, Some(TribeData(7, [2])));
      TribeBlock(db, pc, [pc], false, now) == TribeHeader + "TribeSize:1, TribeOnline:1" + ", " + "T"
  {
    var pc := Controller("b", 2, Some(TribeData(7, [2])));
    assert GetTribeData(pc) == Some(TribeData(7, [2]));
    LoneMemberDefaults();
    TribeSevenText(db, now);
  }

  /**
   * The player's text shows the tribe of another online player: player "a"
   * with group G, and online player "b" of tribe 7, which holds group T.
   */
  lemma OtherPlayersTribeShown(now: int)
    ensures var db := Database(["G", "T"], map[],
                               map["a" := CachedPermission(["G"], [], [], false)],
                               map[7 := CachedPermission(["T"], [], [], false)]);
      var world := [Controller("b", 2, Some(TribeData(7, [2])))];
      PlayerGroupsStr(db, "a", false, world, now)
        == "G" + "\n" + TribeHeader + "TribeSize:1, TribeOnline:1" + ", " + "T"
  {
    var db := Database(["G", "T"], map[],
                       map["a" := CachedPermission(["G"], [], [], false)],
                       map[7 := CachedPermission(["T"], [], [], false)]);
    var pc := Controller("b", 2, Some(TribeData(7, [2])));
    assert IsPlayerExists(db, "a") && Hydrate(db, Player("a")) == CachedPermission(["G"], [], [], false);
    assert IsTribeExists(db, 7) && Hydrate(db, Tribe(7)) == CachedPermission(["T"], [], [], false);
    OneControllerText(db, "a", pc, now);
    TribeSevenBlock(db, now);
  }
}
