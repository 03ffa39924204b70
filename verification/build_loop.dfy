/** The builder as the source writes it: a search of the roster for the
    observer, then one pass over the roster that appends each peer's arrays to
    an ally list or an enemy list, then the concatenation of everything. */
module BuildLoop {
  import opened Vectors
  import opened GameStates
  import opened Wrappers
  import opened RelativeObs

  /** The roster search by equality: the first matching position, or None. */
  method FindPlayer(players: seq<PlayerData>, p: PlayerData) returns (r: Option<nat>)
    ensures r == IndexOf(players, p)
  {
    var i := 0;
    while i < |players|
      invariant 0 <= i <= |players|
      invariant forall j :: 0 <= j < i ==> players[j] != p
    {
      if players[i] == p {
        return Some(i);
      }
      i := i + 1;
    }
    return None;
  }

  /** The pass over the roster: each entry that is not the observer (by car
      id) appends its nine arrays to the allies when it shares the observer's
      team and to the enemies otherwise. */
  method SplitPeers(cfg: Config, players: seq<PlayerData>, player: PlayerData, f: Frame)
    returns (allies: seq<seq<real>>, enemies: seq<seq<real>>)
    ensures allies == GroupParts(cfg, players, player, f, GroupIndices(players, player, Allies, |players|))
    ensures enemies == GroupParts(cfg, players, player, f, GroupIndices(players, player, Enemies, |players|))
  {
    allies := [];
    enemies := [];
    for i := 0 to |players|
      invariant allies == GroupParts(cfg, players, player, f, GroupIndices(players, player, Allies, i))
      invariant enemies == GroupParts(cfg, players, player, f, GroupIndices(players, player, Enemies, i))
    {
      var other := players[i];
      GroupStep(cfg, players, player, f, Allies, i);
      GroupStep(cfg, players, player, f, Enemies, i);
      if other.carId == player.carId {
        continue;
      }
      var block := PeerParts(cfg, player, other, i, f);
      if other.teamNum == player.teamNum {
        allies := allies + block;
      } else {
        enemies := enemies + block;
      }
    }
  }

  /** One step of the pass: position `i` adds its peer arrays to group `g`
      exactly when it belongs to `g`. */
  lemma GroupStep(cfg: Config, players: seq<PlayerData>, player: PlayerData, f: Frame, g: Group, i: nat)
    requires i < |players|
    ensures GroupParts(cfg, players, player, f, GroupIndices(players, player, g, i + 1))
         == GroupParts(cfg, players, player, f, GroupIndices(players, player, g, i))
            + (if InGroup(player, players[i], g) then PeerParts(cfg, player, players[i], i, f) else [])
  {
    var idx := GroupIndices(players, player, g, i);
    if InGroup(player, players[i], g) {
      assert (idx + [i])[..|idx|] == idx;
    }
  }

  /** The observation assembled imperatively, in the source's order; it
      agrees with the declarative `BuildObs`. */
  method BuildObsLoop(cfg: Config, timers: PadTimers, player: PlayerData, state: GameState, previousAction: seq<real>)
    returns (r: Result<seq<real>, ObsError>)
    ensures r == BuildObs(cfg, timers, player, state, previousAction)
  {
    var f := SelectFrame(player, state, timers);
    var obs := Header(cfg, f, previousAction);
    var found := FindPlayer(state.players, player);
    if found.None? {
      return Failure(PlayerNotInRoster);
    }
    var header := obs;
    var own := SelfParts(cfg, player, found.value, f);
    obs := obs + own;
    var allies, enemies := SplitPeers(cfg, state.players, player, f);
    obs := obs + allies + enemies;
    FlattenAppend(header + own + allies, enemies);
    FlattenAppend(header + own, allies);
    FlattenAppend(header, own);
    return Success(Flatten(obs));
  }
}
