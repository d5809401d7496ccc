/** The synthetic groups every online tribe member holds: TribeSize:N and TribeOnline:M. */
module TribeDefaults {
  import opened Wrappers
  import opened Text
  import opened Host

  const TribeSizePrefix := "TribeSize:"
  const TribeOnlinePrefix := "TribeOnline:"

  /** How many online controllers belong to a player of the roster. */
  function OnlineTribemates(world: World, members: seq<int>): (n: nat)
    ensures n <= |world|
    decreases |world|
  {
    if |world| == 0 then 0
    else OnlineTribemates(world[..|world| - 1], members) + (if world[|world| - 1].playerId in members then 1 else 0)
  }

  /** The default groups of a tribe, as GetPlayerGroups merges them. */
  function TribeDefaultGroups(tribe: Option<TribeData>, world: World): seq<string>
  {
    match tribe
    case None => []
    case Some(t) =>
      [TribeSizePrefix + NatToString(|t.members|), TribeOnlinePrefix + NatToString(OnlineTribemates(world, t.members))]
  }

  /** GetTribeDefaultGroups, counting the online tribemates one controller at a time. */
  method GetTribeDefaultGroups(tribe: Option<TribeData>, world: World) returns (groups: seq<string>)
    ensures tribe.None? ==> groups == []
    ensures tribe.Some? ==> groups == [TribeSizePrefix + NatToString(|tribe.value.members|),
                                       TribeOnlinePrefix + NatToString(OnlineTribemates(world, tribe.value.members))]
    ensures groups == TribeDefaultGroups(tribe, world)
  {
    groups := [];
    if tribe.Some? {
      var tribemates := tribe.value.members;
      var tribematesOnline := 0;
      for i := 0 to |world|
        invariant tribematesOnline == OnlineTribemates(world[..i], tribemates)
      {
        assert world[..i + 1][..i] == world[..i];
        if world[i].playerId in tribemates {
          tribematesOnline := tribematesOnline + 1;
        }
      }
      assert world[..|world|] == world;
      groups := groups + [TribeSizePrefix + NatToString(|tribemates|)];
      groups := groups + [TribeOnlinePrefix + NatToString(tribematesOnline)];
    }
  }

  /** The numbers can be read back from the synthetic group names. */
  lemma DefaultGroupsDecode(t: TribeData, world: World)
    ensures var gs := TribeDefaultGroups(Some(t), world);
      |gs| == 2
      && gs[0][..|TribeSizePrefix|] == TribeSizePrefix
      && ParseNat(gs[0][|TribeSizePrefix|..]) == Some(|t.members|)
      && gs[1][..|TribeOnlinePrefix|] == TribeOnlinePrefix
      && ParseNat(gs[1][|TribeOnlinePrefix|..]) == Some(OnlineTribemates(world, t.members))
  {
    var gs := TribeDefaultGroups(Some(t), world);
    ParseNatRoundTrip(|t.members|);
    ParseNatRoundTrip(OnlineTribemates(world, t.members));
    assert gs[0][|TribeSizePrefix|..] == NatToString(|t.members|);
    assert gs[1][|TribeOnlinePrefix|..] == NatToString(OnlineTribemates(world, t.members));
  }

  /** No controller of the roster online: TribeOnline:0. */
  lemma {:induction false} NobodyOnline(world: World, members: seq<int>)
    requires forall i :: 0 <= i < |world| ==> world[i].playerId !in members
    ensures OnlineTribemates(world, members) == 0
    decreases |world|
  {
    if |world| > 0 { NobodyOnline(world[..|world| - 1], members); }
  }

  /** Every online controller in the roster: TribeOnline counts them all. */
  lemma {:induction false} EverybodyOnline(world: World, members: seq<int>)
    requires forall i :: 0 <= i < |world| ==> world[i].playerId in members
    ensures OnlineTribemates(world, members) == |world|
    decreases |world|
  {
    if |world| > 0 { EverybodyOnline(world[..|world| - 1], members); }
  }

  /** An example on one input: a tribe of ten with three of them online (and one outsider online). */
  lemma TenMembersThreeOnline()
    ensures TribeDefaultGroups(Some(TribeData(555, [1, 2, 3, 4, 5, 6, 7, 8, 9, 10])),
              [Controller("a", 1, None), Controller("x", 99, None), Controller("b", 5, None), Controller("c", 10, None)])
            == ["TribeSize:10", "TribeOnline:3"]
  {
    var w := [Controller("a", 1, None), Controller("x", 99, None), Controller("b", 5, None), Controller("c", 10, None)];
    var m := [1, 2, 3, 4, 5, 6, 7, 8, 9, 10];
    assert w[..1][..0] == [];
    assert OnlineTribemates(w[..1], m) == 1;
    assert w[..2][..1] == w[..1];
    assert OnlineTribemates(w[..2], m) == 1;
    assert w[..3][..2] == w[..2];
    assert OnlineTribemates(w[..3], m) == 2;
    assert w[..3] == w[..|w| - 1];
    assert OnlineTribemates(w, m) == 3;
    assert NatToString(10) == NatToString(1) + [DigitChar(0)] == "10";
    assert NatToString(3) == "3";
    assert |m| == 10;
    assert TribeDefaultGroups(Some(TribeData(555, m)), w) == [TribeSizePrefix + "10", TribeOnlinePrefix + "3"];
    assert TribeSizePrefix + "10" == "TribeSize:10";
    assert TribeOnlinePrefix + "3" == "TribeOnline:3";
  }
}
