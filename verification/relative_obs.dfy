/** The relative observation builder: one game snapshot and one observing
    player become a flat feature sequence made of a header (ball, previous
    action, boost pads, pad timers), the observer's own block, and one block
    per other roster entry, allies first and enemies after. */
module RelativeObs {
  import opened Vectors
  import opened GameStates
  import opened Wrappers

  /** The per-player encoder inherited from the parent builder: it turns a
      player, its roster index and the frame flag into that player's block. */
  type PlayerEncoder = (PlayerData, nat, bool) -> seq<real>

  /** The builder's configuration: the three normalisation coefficients and
      the inherited per-player encoder with the width it is expected to have. */
  datatype Config = Config(
    posCoef: real,
    linVelCoef: real,
    angVelCoef: real,
    addPlayer: PlayerEncoder,
    playerWidth: nat)

  /** The builder's own decaying boost pad timers, in both views. */
  datatype PadTimers = PadTimers(timers: seq<real>, invertedTimers: seq<real>)

  /** The view of the world selected for one observer. */
  datatype Frame = Frame(inverted: bool, ball: PhysicsObject, pads: seq<real>, padTimers: seq<real>)

  /** Why no observation could be built. */
  datatype ObsError = PlayerNotInRoster

  /** Which side of the observer a peer block is filed under. */
  datatype Group = Allies | Enemies

  /** Frame selection: the mirrored view exactly for an orange observer, and
      then the ball, the pads and the pad timers all come from the mirrored
      sources; otherwise all three come from the canonical ones. */
  function SelectFrame(player: PlayerData, state: GameState, timers: PadTimers): (f: Frame)
    ensures f.inverted <==> player.teamNum == ORANGE_TEAM
    ensures f.inverted ==>
      f.ball == state.invertedBall && f.pads == state.invertedBoostPads && f.padTimers == timers.invertedTimers
    ensures !f.inverted ==>
      f.ball == state.ball && f.pads == state.boostPads && f.padTimers == timers.timers
  {
    if player.teamNum == ORANGE_TEAM then
      Frame(true, state.invertedBall, state.invertedBoostPads, timers.invertedTimers)
    else
      Frame(false, state.ball, state.boostPads, timers.timers)
  }

  /** The car data of `player` in the selected view. */
  function CarView(player: PlayerData, inverted: bool): PhysicsObject
  {
    if inverted then player.invertedCarData else player.carData
  }

  /** The six header arrays: scaled ball vectors, then the previous action,
      the pads and the pad timers. */
  function Header(cfg: Config, f: Frame, previousAction: seq<real>): seq<seq<real>>
  {
    [Scale(f.ball.position, cfg.posCoef),
     Scale(f.ball.linearVelocity, cfg.linVelCoef),
     Scale(f.ball.angularVelocity, cfg.angVelCoef),
     previousAction, f.pads, f.padTimers]
  }

  /** The ball-relative block: car minus ball for position, linear velocity and
      angular velocity, each scaled by its coefficient, the car taken from the
      mirrored view exactly when `inverted`. */
  function BallRelative(cfg: Config, player: PlayerData, ball: PhysicsObject, inverted: bool): (r: seq<Vec3>)
    ensures |r| == 3
    ensures
      var car := if inverted then player.invertedCarData else player.carData;
      forall k :: 0 <= k < 3 ==>
      && r[0][k] == (car.position[k] - ball.position[k]) * cfg.posCoef
      && r[1][k] == (car.linearVelocity[k] - ball.linearVelocity[k]) * cfg.linVelCoef
      && r[2][k] == (car.angularVelocity[k] - ball.angularVelocity[k]) * cfg.angVelCoef
  {
    var car := CarView(player, inverted);
    [Scale(Sub(car.position, ball.position), cfg.posCoef),
     Scale(Sub(car.linearVelocity, ball.linearVelocity), cfg.linVelCoef),
     Scale(Sub(car.angularVelocity, ball.angularVelocity), cfg.angVelCoef)]
  }

  /** The player-relative block of `other` against the observer `player`. The
      other car is read from its mirrored data in both views, and the fourth
      part is the other car's up direction minus the observer's forward
      direction. */
  function PlayerRelative(cfg: Config, player: PlayerData, other: PlayerData, inverted: bool): (r: seq<Vec3>)
    ensures |r| == 5
    ensures
      var mine := if inverted then player.invertedCarData else player.carData;
      var theirs := other.invertedCarData;
      forall k :: 0 <= k < 3 ==>
      && r[0][k] == (theirs.position[k] - mine.position[k]) * cfg.posCoef
      && r[1][k] == (theirs.linearVelocity[k] - mine.linearVelocity[k]) * cfg.linVelCoef
      && r[2][k] == theirs.forward[k] - mine.forward[k]
      && r[3][k] == theirs.up[k] - mine.forward[k]
      && r[4][k] == (theirs.angularVelocity[k] - mine.angularVelocity[k]) * cfg.angVelCoef
  {
    var mine := CarView(player, inverted);
    var theirs := if inverted then other.invertedCarData else other.invertedCarData;
    [Scale(Sub(theirs.position, mine.position), cfg.posCoef),
     Scale(Sub(theirs.linearVelocity, mine.linearVelocity), cfg.linVelCoef),
     Sub(theirs.forward, mine.forward),
     Sub(theirs.up, mine.forward),
     Scale(Sub(theirs.angularVelocity, mine.angularVelocity), cfg.angVelCoef)]
  }

  /** The arrays one peer contributes: its player block, its ball-relative
      block and its block relative to the observer. */
  function PeerParts(cfg: Config, player: PlayerData, other: PlayerData, index: nat, f: Frame): (r: seq<seq<real>>)
    ensures |r| == 9
  {
    [cfg.addPlayer(other, index, f.inverted)]
      + BallRelative(cfg, other, f.ball, f.inverted)
      + PlayerRelative(cfg, player, other, f.inverted)
  }

  /** A peer's flat block. */
  function PeerBlock(cfg: Config, player: PlayerData, other: PlayerData, index: nat, f: Frame): seq<real>
  {
    Flatten(PeerParts(cfg, player, other, index, f))
  }

  /** Group membership: an entry with the observer's car id is no peer; any
      other entry is an ally when it shares the observer's team number and an
      enemy otherwise. */
  predicate InGroup(player: PlayerData, other: PlayerData, g: Group)
  {
    other.carId != player.carId && (other.teamNum == player.teamNum <==> g == Allies)
  }

  /** The roster positions below `n` filed under group `g`, in roster order:
      every returned position belongs to `g` (`GroupIndicesIncreasing` shows
      the order and `GroupIndicesComplete` that none is missed). */
  function GroupIndices(players: seq<PlayerData>, player: PlayerData, g: Group, n: nat): (r: seq<nat>)
    requires n <= |players|
    ensures forall k :: 0 <= k < |r| ==> r[k] < n && InGroup(player, players[r[k]], g)
  {
    if n == 0 then []
    else
      var earlier := GroupIndices(players, player, g, n - 1);
      if InGroup(player, players[n - 1], g) then earlier + [n - 1] else earlier
  }

  /** The positions of a group come in strictly increasing roster order. */
  lemma {:induction false} GroupIndicesIncreasing(players: seq<PlayerData>, player: PlayerData, g: Group, n: nat)
    requires n <= |players|
    ensures forall j, k :: 0 <= j < k < |GroupIndices(players, player, g, n)| ==>
      GroupIndices(players, player, g, n)[j] < GroupIndices(players, player, g, n)[k]
  {
    if n > 0 {
      var earlier := GroupIndices(players, player, g, n - 1);
      GroupIndicesIncreasing(players, player, g, n - 1);
      if InGroup(player, players[n - 1], g) {
        var r := earlier + [n - 1];
        forall j, k | 0 <= j < k < |r|
          ensures r[j] < r[k]
        {
          if k == |earlier| {
            assert r[j] == earlier[j];
          }
        }
      }
    }
  }

  /** The arrays of the peers at roster positions `idx`, one peer after the other. */
  function GroupParts(cfg: Config, players: seq<PlayerData>, player: PlayerData, f: Frame, idx: seq<nat>): (r: seq<seq<real>>)
    requires forall k :: 0 <= k < |idx| ==> idx[k] < |players|
    ensures |r| == 9 * |idx|
  {
    if |idx| == 0 then []
    else
      var last := idx[|idx| - 1];
      GroupParts(cfg, players, player, f, idx[..|idx| - 1]) + PeerParts(cfg, player, players[last], last, f)
  }

  /** The arrays of every peer of group `g`, in roster order. */
  function Section(cfg: Config, players: seq<PlayerData>, player: PlayerData, f: Frame, g: Group): seq<seq<real>>
  {
    GroupParts(cfg, players, player, f, GroupIndices(players, player, g, |players|))
  }

  /** The observer's own arrays: its player block at its roster position and
      its ball-relative block. */
  function SelfParts(cfg: Config, player: PlayerData, index: nat, f: Frame): seq<seq<real>>
  {
    [cfg.addPlayer(player, index, f.inverted)] + BallRelative(cfg, player, f.ball, f.inverted)
  }

  /** The flat observation for a given frame and observer position: header,
      the observer's arrays, the allies' arrays, the enemies' arrays, each
      flattened and then joined (flattening distributes over the join, see
      `FlattenAppend`). */
  function Assemble(cfg: Config, f: Frame, previousAction: seq<real>, players: seq<PlayerData>, player: PlayerData, index: nat)
    : seq<real>
  {
    Flatten(Header(cfg, f, previousAction))
      + Flatten(SelfParts(cfg, player, index, f))
      + Flatten(Section(cfg, players, player, f, Allies))
      + Flatten(Section(cfg, players, player, f, Enemies))
  }

  /** The observation of `state` for `player`: it fails exactly when the
      observer is not in the roster, and otherwise is assembled in the frame
      selected for the observer, with the observer at its first roster
      position. */
  function BuildObs(cfg: Config, timers: PadTimers, player: PlayerData, state: GameState, previousAction: seq<real>)
    : (r: Result<seq<real>, ObsError>)
    ensures r.Failure? <==> player !in state.players
    ensures r.Success? ==>
      var index := IndexOf(state.players, player).value;
      && index < |state.players| && state.players[index] == player
      && r.value == Assemble(cfg, SelectFrame(player, state, timers), previousAction, state.players, player, index)
  {
    var f := SelectFrame(player, state, timers);
    match IndexOf(state.players, player)
    case None => Failure(PlayerNotInRoster)
    case Some(index) => Success(Assemble(cfg, f, previousAction, state.players, player, index))
  }
}
