/** The game snapshot the observation builder reads: ball and car physics in a
    canonical and a mirrored view, the boost pads, and the player roster. */
module GameStates {
  import opened Vectors
  import opened Wrappers

  /** Team number of the orange team, which defends the mirrored side. */
  const ORANGE_TEAM: int := 1

  /** Physics of one body. `forward` and `up` are the unit directions the
      physics object derives from its rotation; they are supplied values. */
  datatype PhysicsObject = PhysicsObject(
    position: Vec3,
    linearVelocity: Vec3,
    angularVelocity: Vec3,
    forward: Vec3,
    up: Vec3)

  /** One roster entry: identity, team, status read by the per-player encoder,
      and the car's physics in both views. */
  datatype PlayerData = PlayerData(
    carId: int,
    teamNum: int,
    boostAmount: real,
    onGround: bool,
    hasFlip: bool,
    isDemoed: bool,
    carData: PhysicsObject,
    invertedCarData: PhysicsObject)

  /** One tick of the game as the builder sees it. */
  datatype GameState = GameState(
    ball: PhysicsObject,
    invertedBall: PhysicsObject,
    boostPads: seq<real>,
    invertedBoostPads: seq<real>,
    players: seq<PlayerData>)

  /** Position of the first roster entry equal to `p`, or None when `p` is not
      in the roster (where the list search raises). */
  function IndexOf(players: seq<PlayerData>, p: PlayerData): (r: Option<nat>)
    ensures r.None? <==> p !in players
    ensures r.Some? ==> r.value < |players| && players[r.value] == p
    ensures r.Some? ==> forall j :: 0 <= j < r.value ==> players[j] != p
  {
    if |players| == 0 then None
    else if players[0] == p then Some(0)
    else
      match IndexOf(players[1..], p)
      case None => None
      case Some(i) => Some(i + 1)
  }
}
