/**
 * What the plugins read from the host game server, reduced to plain values:
 * the list of online player controllers, each with its EOS id, its linked
 * player id and the tribe data of its player state.
 */
module Host {
  import opened Wrappers

  /** FTribeData: the tribe id and the player ids of the roster. */
  datatype TribeData = TribeData(tribeId: int, members: seq<int>)

  /**
   * An online player controller. `tribe` is None when the controller has no
   * player state; a player without a tribe still has tribe data (with its own,
   * possibly zero, tribe id), as the host keeps it inside the player state.
   */
  datatype Controller = Controller(eosId: string, playerId: int, tribe: Option<TribeData>)

  /** PlayerControllerListField, in the world's order, null entries left out. */
  type World = seq<Controller>

  /** FindPlayerFromEOSID: the first online controller with that EOS id. */
  function FindPlayerFromEOSID(world: World, eosId: string): (r: Option<Controller>)
    ensures r.Some? ==> r.value in world && r.value.eosId == eosId
    ensures r.None? <==> forall i :: 0 <= i < |world| ==> world[i].eosId != eosId
  {
    if |world| == 0 then None
    else if world[0].eosId == eosId then Some(world[0])
    else
      assert forall i :: 1 <= i < |world| ==> world[i] == world[1..][i - 1];
      FindPlayerFromEOSID(world[1..], eosId)
  }

  /** GetTribeData: the tribe data of the controller's player state, if any. */
  function GetTribeData(pc: Controller): Option<TribeData>
  {
    pc.tribe
  }
}
