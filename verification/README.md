# Relative observation builder with pad timers

A Dafny model of the Rocket League observation builder
`RelativeWithTimeoutsObsBuilder`. It covers `build_obs` and its two helpers
`_add_ball_relative` and `_add_player_relative`. Given one game snapshot, the
observing player and its previous action, the builder produces one flat
sequence of reals, made of:

- a header: the ball's position, linear velocity and angular velocity, each
  scaled by its coefficient, then the previous action, the boost pads and the
  boost pad timers;
- the observer's own player block, then its block relative to the ball;
- one block per ally, then one block per enemy, each group in roster order.
  A peer block is the peer's player block, its three ball-relative vectors
  and its five vectors relative to the observer.

The world is read in the mirrored view exactly when the observer is on the
orange team. The observer is located in the roster by field equality (the builder itself
compares by identity), and the builder fails when no such record is found. A roster entry with the observer's car id
yields no block. There is no padding and no truncation, so the output grows
with the roster.

Modules:

- `Wrappers`: `Option` and `Result`.
- `Vectors`: 3-vectors over `real`, componentwise `Sub` and `Scale`, and
  `Flatten` (the concatenation of a list of arrays) with its length and slice
  lemmas.
- `GameStates`: physics objects, players, the game state, the orange team number
  and `IndexOf` (the roster search).
- `RelativeObs`: the builder as pure functions. `SelectFrame` picks the view,
  `BallRelative` and `PlayerRelative` are the two helpers, `GroupIndices`
  gives the roster positions of each group, and `BuildObs` is the whole
  builder.
- `BuildLoop`: the builder written as the source writes it, with a roster
  search and one pass that appends to an ally list and an enemy list. It is
  proved equal to `BuildObs`.
- `Windows`: `Window(out, i, x)` says that `out` holds `x` at offset `i`,
  with composition lemmas.
- `ObsLayout`: where every piece lands in the output and how long the output
  is. It also shows that allies and enemies are exactly the other-id entries
  of the roster, split by team.

The player-relative block reads the other car's mirrored data in both views,
and its fourth vector is the other car's up direction minus the observer's
forward direction.

This builder has no ally or enemy capacity, no zero padding and no
truncation. Every peer is emitted, so the output length depends on the roster
(`ObsLayout.OutputLength`).

## Model

Every row cites lines of
`distrib_rl/Environments/Custom/RocketLeague/ObsBuilders/RelativeWithTimeoutsObsBuilder.py`.

| member | source | states |
|---|---|---|
| RelativeObs.SelectFrame | distrib_rl/Environments/Custom/RocketLeague/ObsBuilders/RelativeWithTimeoutsObsBuilder.py:20-29 | the mirrored view is chosen if and only if the observer's team is orange; then the ball, the pads and the pad timers all come from the mirrored sources, and otherwise all three come from the canonical ones |
| RelativeObs.BallRelative | distrib_rl/Environments/Custom/RocketLeague/ObsBuilders/RelativeWithTimeoutsObsBuilder.py:60-70 | three vectors: car minus ball for position, linear velocity and angular velocity, each component scaled by its own coefficient, with the car read from the mirrored data exactly when the view is mirrored |
| RelativeObs.PlayerRelative | distrib_rl/Environments/Custom/RocketLeague/ObsBuilders/RelativeWithTimeoutsObsBuilder.py:74-88 | five vectors, componentwise: scaled position difference, scaled linear velocity difference, forward minus forward, other's up minus observer's forward, scaled angular velocity difference; the other car is always its mirrored data, and the observer's car follows the view |
| RelativeObs.GroupIndices | distrib_rl/Environments/Custom/RocketLeague/ObsBuilders/RelativeWithTimeoutsObsBuilder.py:43-50 | every position it lists is a roster position whose entry has another car id and is on the observer's team (allies) or not (enemies) |
| RelativeObs.GroupIndicesIncreasing | distrib_rl/Environments/Custom/RocketLeague/ObsBuilders/RelativeWithTimeoutsObsBuilder.py:43-57 | each group's positions strictly increase, so each group keeps roster order |
| RelativeObs.BuildObs | distrib_rl/Environments/Custom/RocketLeague/ObsBuilders/RelativeWithTimeoutsObsBuilder.py:17-58 | the builder fails exactly when no record field-equal to the observer is in the roster; otherwise the observer's index is a roster position holding the observer, and the output is assembled in the frame chosen for the observer |
| GameStates.IndexOf | distrib_rl/Environments/Custom/RocketLeague/ObsBuilders/RelativeWithTimeoutsObsBuilder.py:36 | the roster search gives nothing exactly when no field-equal record is present; otherwise it gives the first position holding a field-equal record |
| BuildLoop.FindPlayer | distrib_rl/Environments/Custom/RocketLeague/ObsBuilders/RelativeWithTimeoutsObsBuilder.py:36 | the linear scan of the roster agrees with `IndexOf`, including the absent case |
| BuildLoop.SplitPeers | distrib_rl/Environments/Custom/RocketLeague/ObsBuilders/RelativeWithTimeoutsObsBuilder.py:40-54 | the single pass over the roster yields, as its two lists, the arrays of exactly the ally positions and exactly the enemy positions, each in roster order |
| BuildLoop.BuildObsLoop | distrib_rl/Environments/Custom/RocketLeague/ObsBuilders/RelativeWithTimeoutsObsBuilder.py:17-58 | the imperative builder (header, roster search, observer arrays, one pass over the roster, allies then enemies, concatenation) returns the same result as the declarative `BuildObs`, failure included |
| ObsLayout.HeaderLayout | distrib_rl/Environments/Custom/RocketLeague/ObsBuilders/RelativeWithTimeoutsObsBuilder.py:31-34 | the output starts with the scaled ball position at 0, the scaled linear velocity at 3 and the scaled angular velocity at 6, then the previous action, the pads and the pad timers unchanged and back to back |
| ObsLayout.SelfLayout | distrib_rl/Environments/Custom/RocketLeague/ObsBuilders/RelativeWithTimeoutsObsBuilder.py:36-38 | right after the header comes the observer's player block, encoded at the observer's roster index, and right after that its ball-relative block |
| ObsLayout.AllyLayout | distrib_rl/Environments/Custom/RocketLeague/ObsBuilders/RelativeWithTimeoutsObsBuilder.py:47-56 | the `k`-th ally in roster order has its full peer block `k` peer widths after the observer's arrays, with nothing between the blocks |
| ObsLayout.EnemyLayout | distrib_rl/Environments/Custom/RocketLeague/ObsBuilders/RelativeWithTimeoutsObsBuilder.py:47-57 | the `k`-th enemy in roster order has its full peer block `k` peer widths after the last ally block, so all allies come before all enemies |
| ObsLayout.PeerBlockWidth | distrib_rl/Environments/Custom/RocketLeague/ObsBuilders/RelativeWithTimeoutsObsBuilder.py:52-54 | a peer block is the player block width plus 9 plus 15 reals, whatever the peer |
| ObsLayout.PeerBlockLayout | distrib_rl/Environments/Custom/RocketLeague/ObsBuilders/RelativeWithTimeoutsObsBuilder.py:52-54 | inside a peer block, the peer's player block comes first, then its three ball-relative vectors, then its five vectors relative to the observer, each 3 reals long, at fixed offsets after the player block, 24 reals in all |
| ObsLayout.OutputLength | distrib_rl/Environments/Custom/RocketLeague/ObsBuilders/RelativeWithTimeoutsObsBuilder.py:31-58 | the output length is the header width plus the observer's player block plus 9, plus one peer width for every roster entry whose car id differs from the observer's; there is no padding or truncation |
| ObsLayout.GroupsCoverOthers | distrib_rl/Environments/Custom/RocketLeague/ObsBuilders/RelativeWithTimeoutsObsBuilder.py:43-50 | the ally count plus the enemy count is the number of roster entries with another car id |
| ObsLayout.GroupIndicesComplete | distrib_rl/Environments/Custom/RocketLeague/ObsBuilders/RelativeWithTimeoutsObsBuilder.py:43-50 | no roster position that belongs to a group is missing from that group's positions |
| ObsLayout.PeerPartition | distrib_rl/Environments/Custom/RocketLeague/ObsBuilders/RelativeWithTimeoutsObsBuilder.py:43-50 | a roster position is an ally if and only if its car id differs from the observer's and its team matches, and an enemy if and only if its car id differs and its team does not; an entry with the observer's car id is in neither group, so exclusion is by id and not by index |

## Left out

- Lines 18-19, the change check on the state and `_step_state` with its pad
  timer decay: these live in the parent builder, which is not part of this
  model, and they are stateful. The current pad timers of both views are an
  input (`PadTimers`).
- `_add_player_to_obs` and the values of the position, linear velocity and
  angular velocity coefficients: they belong to the parent builder, which is
  not part of this model. `Config` carries the coefficients as arbitrary reals
  and the player encoder as an arbitrary total function.
- ObsLayout.AllyLayout, ObsLayout.EnemyLayout, ObsLayout.OutputLength and
  ObsLayout.PeerBlockWidth: they assume that the player encoder always returns
  `playerWidth` reals. Without that assumption each offset would depend on
  the player blocks before it, and the model states the offsets only for a
  fixed width.
- `forward()` and `up()` of a physics object: they are computed from
  rotation data by the physics library. They are supplied fields of
  `PhysicsObject`.
- NumPy arrays, `np.concatenate` and IEEE floating point: arrays are
  `seq<real>` with exact arithmetic, and concatenation is `Flatten`.
- `LARGE_BOOST_MASK` (lines 10-14): it is never used by this builder.
- GameStates.IndexOf: `list.index` compares player records by identity,
  because they define no equality of their own. The model compares them
  field by field. When a distinct record earlier in the roster equals the
  observer field by field, the model returns that earlier position, whereas
  the source returns the observer's own position.
- RelativeObs.BuildObs: it fails only when no field-equal record is in the
  roster. When the roster holds a field-equal copy of the observer but not
  the observer's own record, the source raises at line 36 while the model
  succeeds. Object identity has no counterpart among immutable datatype
  values, so the model cannot tell the copy from the original.
- The car data that `_add_ball_relative` and `_add_player_relative` return:
  `build_obs` never uses it.
- The mirroring symmetry between an orange observer and a blue observer of
  the mirrored scene: it depends on how the physics library builds the
  mirrored data, which is not part of this model.
