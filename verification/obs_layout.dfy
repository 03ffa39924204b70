/** Where each piece of the observation lands in the flat output, how long
    the output is, and how the roster is split into allies and enemies. */
module ObsLayout {
  import opened Vectors
  import opened GameStates
  import opened RelativeObs
  import opened Windows

  /** Width of the header: three scaled ball vectors, the previous action,
      the pads and the pad timers. */
  function HeaderWidth(f: Frame, previousAction: seq<real>): nat
  {
    9 + |previousAction| + |f.pads| + |f.padTimers|
  }

  /** Width of the observer's arrays: player block and 3 ball-relative
      vectors. */
  function SelfWidth(cfg: Config): nat
  {
    cfg.playerWidth + 9
  }

  /** Width of one peer block: player block, 3 ball-relative vectors and
      5 player-relative vectors. */
  function PeerWidth(cfg: Config): nat
  {
    cfg.playerWidth + 9 + 15
  }

  /** Width of `n` peer blocks back to back. */
  function PeersWidth(cfg: Config, n: nat): nat
  {
    n * PeerWidth(cfg)
  }

  /** Where the `k`-th ally block starts: after the header, the observer's
      arrays and `k` earlier ally blocks. */
  function AllyOffset(cfg: Config, f: Frame, previousAction: seq<real>, k: nat): nat
  {
    HeaderWidth(f, previousAction) + SelfWidth(cfg) + PeersWidth(cfg, k)
  }

  /** Where the `k`-th enemy block starts: after the whole ally section and
      `k` earlier enemy blocks. */
  function EnemyOffset(cfg: Config, f: Frame, previousAction: seq<real>, players: seq<PlayerData>, player: PlayerData, k: nat): nat
  {
    AllyOffset(cfg, f, previousAction, |GroupIndices(players, player, Allies, |players|)|) + PeersWidth(cfg, k)
  }

  /** Width of the whole observation: header, observer's arrays and one peer
      block per roster entry with another car id. */
  function ObsWidth(cfg: Config, f: Frame, previousAction: seq<real>, players: seq<PlayerData>, player: PlayerData): nat
  {
    HeaderWidth(f, previousAction) + SelfWidth(cfg) + PeersWidth(cfg, CountOthers(players, player.carId, |players|))
  }

  /** Number of roster positions below `n` whose car id differs from `id`. */
  function CountOthers(players: seq<PlayerData>, id: int, n: nat): nat
    requires n <= |players|
  {
    if n == 0 then 0
    else CountOthers(players, id, n - 1) + (if players[n - 1].carId != id then 1 else 0)
  }

  /** The peer blocks, one per position in `idx`. */
  function PeerBlocks(cfg: Config, players: seq<PlayerData>, player: PlayerData, f: Frame, idx: seq<nat>): (r: seq<seq<real>>)
    requires forall k :: 0 <= k < |idx| ==> idx[k] < |players|
    ensures |r| == |idx|
    ensures forall k :: 0 <= k < |idx| ==> r[k] == PeerBlock(cfg, player, players[idx[k]], idx[k], f)
  {
    if |idx| == 0 then []
    else
      var last := idx[|idx| - 1];
      PeerBlocks(cfg, players, player, f, idx[..|idx| - 1]) + [PeerBlock(cfg, player, players[last], last, f)]
  }

  /** The header as the output carries it. */
  function HeaderFlat(cfg: Config, f: Frame, previousAction: seq<real>): seq<real>
  {
    Flatten(Header(cfg, f, previousAction))
  }

  /** The observer's ball-relative block as the output carries it. */
  function BallFlat(cfg: Config, player: PlayerData, f: Frame): seq<real>
  {
    Flatten(BallRelative(cfg, player, f.ball, f.inverted))
  }

  /** The observer's own arrays as the output carries them. */
  function SelfFlat(cfg: Config, player: PlayerData, index: nat, f: Frame): seq<real>
  {
    Flatten(SelfParts(cfg, player, index, f))
  }

  /** The blocks of group `g`, one per member, in roster order. */
  function GroupBlocks(cfg: Config, players: seq<PlayerData>, player: PlayerData, f: Frame, g: Group): seq<seq<real>>
  {
    PeerBlocks(cfg, players, player, f, GroupIndices(players, player, g, |players|))
  }

  /** The section of group `g` as the output carries it. */
  function GroupFlat(cfg: Config, players: seq<PlayerData>, player: PlayerData, f: Frame, g: Group): seq<real>
  {
    Flatten(GroupBlocks(cfg, players, player, f, g))
  }

  // ---------------------------------------------------------------------
  // The pieces of the observation, each on its own.
  // ---------------------------------------------------------------------

  /** Flattening a single array gives the array. */
  lemma FlattenSingle(x: seq<real>)
    ensures Flatten([x]) == x
  {
    assert [x][1..] == [];
  }

  /** Every list of 3-vectors flattens to three reals per vector. */
  lemma Vec3sLength(vs: seq<Vec3>)
    ensures |Flatten(vs)| == 3 * |vs|
  {
    FlattenUniformLength(vs, 3);
  }

  /** The header flattens to its six arrays back to back. */
  lemma FlatHeader(cfg: Config, f: Frame, previousAction: seq<real>)
    ensures
      var h := Header(cfg, f, previousAction);
      HeaderFlat(cfg, f, previousAction) == h[0] + h[1] + h[2] + previousAction + f.pads + f.padTimers
  {
    var h := Header(cfg, f, previousAction);
    assert h[1..][1..][1..][1..][1..][1..] == [];
    assert Flatten(h[5..]) == h[5] + Flatten(h[6..]);
    assert Flatten(h[4..]) == h[4] + Flatten(h[5..]);
    assert Flatten(h[3..]) == h[3] + Flatten(h[4..]);
    assert Flatten(h[2..]) == h[2] + Flatten(h[3..]);
    assert Flatten(h[1..]) == h[1] + Flatten(h[2..]);
  }

  /** The flattened header holds the three scaled ball vectors, the previous
      action, the pads and the pad timers, in that order and nothing else. */
  lemma HeaderSlices(cfg: Config, f: Frame, previousAction: seq<real>)
    ensures
      var hd := HeaderFlat(cfg, f, previousAction);
      var a := 9 + |previousAction|;
      var p := a + |f.pads|;
      && |hd| == HeaderWidth(f, previousAction)
      && Window(hd, 0, Scale(f.ball.position, cfg.posCoef))
      && Window(hd, 3, Scale(f.ball.linearVelocity, cfg.linVelCoef))
      && Window(hd, 6, Scale(f.ball.angularVelocity, cfg.angVelCoef))
      && Window(hd, 9, previousAction)
      && Window(hd, a, f.pads)
      && Window(hd, p, f.padTimers)
  {
    var hd := HeaderFlat(cfg, f, previousAction);
    var a := 9 + |previousAction|;
    var p := a + |f.pads|;
    FlatHeader(cfg, f, previousAction);
    assert hd[0 .. 3] == Scale(f.ball.position, cfg.posCoef);
    assert hd[3 .. 6] == Scale(f.ball.linearVelocity, cfg.linVelCoef);
    assert hd[6 .. 9] == Scale(f.ball.angularVelocity, cfg.angVelCoef);
    assert hd[9 .. a] == previousAction;
    assert hd[a .. p] == f.pads;
    assert hd[p .. p + |f.padTimers|] == f.padTimers;
  }

  /** The observer's arrays flatten to its player block then its nine
      ball-relative reals. */
  lemma FlatSelfParts(cfg: Config, player: PlayerData, index: nat, f: Frame)
    ensures |BallFlat(cfg, player, f)| == 9
    ensures SelfFlat(cfg, player, index, f) == cfg.addPlayer(player, index, f.inverted) + BallFlat(cfg, player, f)
  {
    var own := [cfg.addPlayer(player, index, f.inverted)];
    var ball := BallRelative(cfg, player, f.ball, f.inverted);
    FlattenAppend(own, ball);
    FlattenSingle(own[0]);
    Vec3sLength(ball);
  }

  /** A peer block has the fixed width `PeerWidth(cfg)`, whatever the peer. */
  lemma PeerBlockWidth(cfg: Config, player: PlayerData, other: PlayerData, index: nat, f: Frame)
    requires |cfg.addPlayer(other, index, f.inverted)| == cfg.playerWidth
    ensures |PeerBlock(cfg, player, other, index, f)| == PeerWidth(cfg)
  {
    var own := [cfg.addPlayer(other, index, f.inverted)];
    var ball := BallRelative(cfg, other, f.ball, f.inverted);
    var rel := PlayerRelative(cfg, player, other, f.inverted);
    FlattenAppend(own + ball, rel);
    FlattenAppend(own, ball);
    FlattenSingle(own[0]);
    Vec3sLength(ball);
    Vec3sLength(rel);
  }

  /** A list of three arrays flattens to the three arrays back to back. */
  lemma FlatThree<T>(vs: seq<seq<T>>)
    requires |vs| == 3
    ensures Flatten(vs) == vs[0] + vs[1] + vs[2]
  {
    assert vs[1..][1..][1..] == [];
    assert Flatten(vs[2..]) == vs[2] + Flatten(vs[3..]);
    assert Flatten(vs[1..]) == vs[1] + Flatten(vs[2..]);
  }

  /** A list of five arrays flattens to the five arrays back to back. */
  lemma FlatFive<T>(vs: seq<seq<T>>)
    requires |vs| == 5
    ensures Flatten(vs) == vs[0] + vs[1] + vs[2] + vs[3] + vs[4]
  {
    assert vs[1..][1..][1..][1..][1..] == [];
    assert Flatten(vs[4..]) == vs[4] + Flatten(vs[5..]);
    assert Flatten(vs[3..]) == vs[3] + Flatten(vs[4..]);
    assert Flatten(vs[2..]) == vs[2] + Flatten(vs[3..]);
    assert Flatten(vs[1..]) == vs[1] + Flatten(vs[2..]);
  }

  /** A peer block is the peer's player block, then its three ball-relative
      vectors, then its five vectors relative to the observer. */
  lemma PeerBlockSplit(cfg: Config, player: PlayerData, other: PlayerData, index: nat, f: Frame)
    ensures
      var ball: seq<seq<real>> := BallRelative(cfg, other, f.ball, f.inverted);
      var rel: seq<seq<real>> := PlayerRelative(cfg, player, other, f.inverted);
      PeerBlock(cfg, player, other, index, f)
        == cfg.addPlayer(other, index, f.inverted) + (ball[0] + ball[1] + ball[2])
           + (rel[0] + rel[1] + rel[2] + rel[3] + rel[4])
  {
    var own := cfg.addPlayer(other, index, f.inverted);
    var ball := BallRelative(cfg, other, f.ball, f.inverted);
    var rel := PlayerRelative(cfg, player, other, f.inverted);
    FlattenAppend([own] + ball, rel);
    FlattenAppend([own], ball);
    FlattenSingle(own);
    FlatThree(ball);
    FlatFive(rel);
  }

  /** A prefix followed by eight pieces of width 3: each piece is a window
      three places after the previous one. */
  lemma EightTriples<T>(out: seq<T>, p: seq<T>, b0: seq<T>, b1: seq<T>, b2: seq<T>,
                        r0: seq<T>, r1: seq<T>, r2: seq<T>, r3: seq<T>, r4: seq<T>)
    requires |b0| == |b1| == |b2| == |r0| == |r1| == |r2| == |r3| == |r4| == 3
    requires out == p + (b0 + b1 + b2) + (r0 + r1 + r2 + r3 + r4)
    ensures
      var w := |p|;
      && |out| == w + 24
      && Window(out, 0, p)
      && Window(out, w, b0) && Window(out, w + 3, b1) && Window(out, w + 6, b2)
      && Window(out, w + 9, r0) && Window(out, w + 12, r1) && Window(out, w + 15, r2)
      && Window(out, w + 18, r3) && Window(out, w + 21, r4)
  {
    var w := |p|;
    assert out[..w] == p;
    assert out[w .. w + 3] == b0;
    assert out[w + 3 .. w + 6] == b1;
    assert out[w + 6 .. w + 9] == b2;
    assert out[w + 9 .. w + 12] == r0;
    assert out[w + 12 .. w + 15] == r1;
    assert out[w + 15 .. w + 18] == r2;
    assert out[w + 18 .. w + 21] == r3;
    assert out[w + 21 .. w + 24] == r4;
  }

  /** Inside a peer block whose player block has `w` reals: the player block
      at 0, the three ball-relative vectors at `w`, `w + 3` and `w + 6`, and
      the five vectors relative to the observer at `w + 9` up to `w + 21`. */
  lemma PeerBlockLayout(cfg: Config, player: PlayerData, other: PlayerData, index: nat, f: Frame)
    ensures
      var b := PeerBlock(cfg, player, other, index, f);
      var own := cfg.addPlayer(other, index, f.inverted);
      var w := |own|;
      var ball := BallRelative(cfg, other, f.ball, f.inverted);
      var rel := PlayerRelative(cfg, player, other, f.inverted);
      && |b| == w + 24
      && Window(b, 0, own)
      && Window(b, w, ball[0]) && Window(b, w + 3, ball[1]) && Window(b, w + 6, ball[2])
      && Window(b, w + 9, rel[0]) && Window(b, w + 12, rel[1]) && Window(b, w + 15, rel[2])
      && Window(b, w + 18, rel[3]) && Window(b, w + 21, rel[4])
  {
    var ball := BallRelative(cfg, other, f.ball, f.inverted);
    var rel := PlayerRelative(cfg, player, other, f.inverted);
    PeerBlockSplit(cfg, player, other, index, f);
    EightTriples(PeerBlock(cfg, player, other, index, f), cfg.addPlayer(other, index, f.inverted),
      ball[0], ball[1], ball[2], rel[0], rel[1], rel[2], rel[3], rel[4]);
  }

  /** Every block of a group has the fixed peer width, and the group's
      section is one peer width per member. */
  lemma GroupWidth(cfg: Config, players: seq<PlayerData>, player: PlayerData, f: Frame, g: Group)
    requires forall p, i, inv :: |cfg.addPlayer(p, i, inv)| == cfg.playerWidth
    ensures
      var blocks := GroupBlocks(cfg, players, player, f, g);
      && (forall k :: 0 <= k < |blocks| ==> |blocks[k]| == PeerWidth(cfg))
      && |GroupFlat(cfg, players, player, f, g)| == PeersWidth(cfg, |GroupIndices(players, player, g, |players|)|)
  {
    var idx := GroupIndices(players, player, g, |players|);
    var blocks := GroupBlocks(cfg, players, player, f, g);
    forall k | 0 <= k < |blocks|
      ensures |blocks[k]| == PeerWidth(cfg)
    {
      PeerBlockWidth(cfg, player, players[idx[k]], idx[k], f);
    }
    FlattenUniformLength(blocks, PeerWidth(cfg));
  }

  /** The section of group `g` is one peer width per member. */
  lemma GroupLength(cfg: Config, players: seq<PlayerData>, player: PlayerData, f: Frame, g: Group)
    requires forall p, i, inv :: |cfg.addPlayer(p, i, inv)| == cfg.playerWidth
    ensures |GroupFlat(cfg, players, player, f, g)| == PeersWidth(cfg, |GroupIndices(players, player, g, |players|)|)
  {
    GroupWidth(cfg, players, player, f, g);
  }

  /** Member `k` of group `g` has its block `k` peer widths into the group's
      section. */
  lemma GroupBlockWindow(cfg: Config, players: seq<PlayerData>, player: PlayerData, f: Frame, g: Group, k: nat)
    requires forall p, i, inv :: |cfg.addPlayer(p, i, inv)| == cfg.playerWidth
    requires k < |GroupIndices(players, player, g, |players|)|
    ensures
      var idx := GroupIndices(players, player, g, |players|);
      Window(GroupFlat(cfg, players, player, f, g), PeersWidth(cfg, k), PeerBlock(cfg, player, players[idx[k]], idx[k], f))
  {
    GroupWidth(cfg, players, player, f, g);
    BlockWindow(GroupBlocks(cfg, players, player, f, g), PeerWidth(cfg), k);
  }

  /** The nine arrays of each peer flatten to that peer's block, peer after peer. */
  lemma {:induction false} GroupPartsAsBlocks(cfg: Config, players: seq<PlayerData>, player: PlayerData, f: Frame, idx: seq<nat>)
    requires forall k :: 0 <= k < |idx| ==> idx[k] < |players|
    ensures Flatten(GroupParts(cfg, players, player, f, idx)) == Flatten(PeerBlocks(cfg, players, player, f, idx))
  {
    if |idx| > 0 {
      var init := idx[..|idx| - 1];
      var last := idx[|idx| - 1];
      GroupPartsAsBlocks(cfg, players, player, f, init);
      var block := PeerBlock(cfg, player, players[last], last, f);
      assert PeerBlocks(cfg, players, player, f, idx) == PeerBlocks(cfg, players, player, f, init) + [block];
      FlattenAppend(GroupParts(cfg, players, player, f, init), PeerParts(cfg, player, players[last], last, f));
      FlattenAppend(PeerBlocks(cfg, players, player, f, init), [block]);
      FlattenSingle(block);
    }
  }

  // ---------------------------------------------------------------------
  // The assembled observation.
  // ---------------------------------------------------------------------

  /** The output is the header, then the observer's arrays, then the ally
      section, then the enemy section. */
  lemma OutputSplit(cfg: Config, f: Frame, previousAction: seq<real>, players: seq<PlayerData>, player: PlayerData, index: nat)
    ensures
      Assemble(cfg, f, previousAction, players, player, index)
        == HeaderFlat(cfg, f, previousAction)
           + SelfFlat(cfg, player, index, f)
           + GroupFlat(cfg, players, player, f, Allies)
           + GroupFlat(cfg, players, player, f, Enemies)
  {
    GroupPartsAsBlocks(cfg, players, player, f, GroupIndices(players, player, Allies, |players|));
    GroupPartsAsBlocks(cfg, players, player, f, GroupIndices(players, player, Enemies, |players|));
  }

  /** The four sections of the output, each at its offset, and nothing after
      the enemy section. */
  lemma OutputSections(cfg: Config, f: Frame, previousAction: seq<real>, players: seq<PlayerData>, player: PlayerData, index: nat)
    ensures
      var out := Assemble(cfg, f, previousAction, players, player, index);
      var hd := HeaderFlat(cfg, f, previousAction);
      var me := SelfFlat(cfg, player, index, f);
      var al := GroupFlat(cfg, players, player, f, Allies);
      var en := GroupFlat(cfg, players, player, f, Enemies);
      && |out| == |hd| + |me| + |al| + |en|
      && Window(out, 0, hd)
      && Window(out, |hd|, me)
      && Window(out, |hd| + |me|, al)
      && Window(out, |hd| + |me| + |al|, en)
  {
    OutputSplit(cfg, f, previousAction, players, player, index);
    Concat4Windows(HeaderFlat(cfg, f, previousAction), SelfFlat(cfg, player, index, f),
      GroupFlat(cfg, players, player, f, Allies), GroupFlat(cfg, players, player, f, Enemies));
  }

  /** Wherever the header sits, its six arrays sit at their offsets from it. */
  lemma HeaderPieces(out: seq<real>, cfg: Config, f: Frame, previousAction: seq<real>)
    requires Window(out, 0, HeaderFlat(cfg, f, previousAction))
    ensures
      var a := 9 + |previousAction|;
      var p := a + |f.pads|;
      && Window(out, 0, Scale(f.ball.position, cfg.posCoef))
      && Window(out, 3, Scale(f.ball.linearVelocity, cfg.linVelCoef))
      && Window(out, 6, Scale(f.ball.angularVelocity, cfg.angVelCoef))
      && Window(out, 9, previousAction)
      && Window(out, a, f.pads)
      && Window(out, p, f.padTimers)
  {
    var hd := HeaderFlat(cfg, f, previousAction);
    var a := 9 + |previousAction|;
    var p := a + |f.pads|;
    HeaderSlices(cfg, f, previousAction);
    WindowInWindow(out, 0, hd, 0, Scale(f.ball.position, cfg.posCoef));
    WindowInWindow(out, 0, hd, 3, Scale(f.ball.linearVelocity, cfg.linVelCoef));
    WindowInWindow(out, 0, hd, 6, Scale(f.ball.angularVelocity, cfg.angVelCoef));
    WindowInWindow(out, 0, hd, 9, previousAction);
    WindowInWindow(out, 0, hd, a, f.pads);
    WindowInWindow(out, 0, hd, p, f.padTimers);
  }

  /** The header: the ball's position, linear velocity and angular velocity
      scaled by their coefficients, then the previous action, the pads and the
      pad timers, unchanged, all from the frame. */
  lemma HeaderLayout(cfg: Config, f: Frame, previousAction: seq<real>, players: seq<PlayerData>, player: PlayerData, index: nat)
    ensures
      var out := Assemble(cfg, f, previousAction, players, player, index);
      var a := 9 + |previousAction|;
      var p := a + |f.pads|;
      && Window(out, 0, Scale(f.ball.position, cfg.posCoef))
      && Window(out, 3, Scale(f.ball.linearVelocity, cfg.linVelCoef))
      && Window(out, 6, Scale(f.ball.angularVelocity, cfg.angVelCoef))
      && Window(out, 9, previousAction)
      && Window(out, a, f.pads)
      && Window(out, p, f.padTimers)
  {
    OutputSections(cfg, f, previousAction, players, player, index);
    HeaderPieces(Assemble(cfg, f, previousAction, players, player, index), cfg, f, previousAction);
  }

  /** The header has the width the layout assigns it. */
  lemma HeaderFlatLength(cfg: Config, f: Frame, previousAction: seq<real>)
    ensures |HeaderFlat(cfg, f, previousAction)| == HeaderWidth(f, previousAction)
  {
    FlatHeader(cfg, f, previousAction);
  }

  /** The header and the observer's arrays have the widths the layout
      assigns them, given a player block of the configured width. */
  lemma FrontWidths(cfg: Config, f: Frame, previousAction: seq<real>, player: PlayerData, index: nat)
    requires |cfg.addPlayer(player, index, f.inverted)| == cfg.playerWidth
    ensures |HeaderFlat(cfg, f, previousAction)| == HeaderWidth(f, previousAction)
    ensures |SelfFlat(cfg, player, index, f)| == SelfWidth(cfg)
  {
    FlatHeader(cfg, f, previousAction);
    FlatSelfParts(cfg, player, index, f);
  }

  /** Wherever the observer's arrays sit, its player block comes first and
      its ball-relative block right after. */
  lemma SelfPieces(out: seq<real>, h: int, cfg: Config, player: PlayerData, index: nat, f: Frame)
    requires Window(out, h, SelfFlat(cfg, player, index, f))
    ensures
      var own := cfg.addPlayer(player, index, f.inverted);
      && Window(out, h, own)
      && Window(out, h + |own|, BallFlat(cfg, player, f))
  {
    var own := cfg.addPlayer(player, index, f.inverted);
    var ball := BallFlat(cfg, player, f);
    FlatSelfParts(cfg, player, index, f);
    Concat2Windows(own, ball);
    WindowInWindow(out, h, own + ball, 0, own);
    WindowInWindow(out, h, own + ball, |own|, ball);
  }

  /** Right after the header: the observer's own player block, encoded at the
      observer's roster position, then its ball-relative block. */
  lemma SelfLayout(cfg: Config, f: Frame, previousAction: seq<real>, players: seq<PlayerData>, player: PlayerData, index: nat)
    ensures
      var out := Assemble(cfg, f, previousAction, players, player, index);
      var own := cfg.addPlayer(player, index, f.inverted);
      var h := HeaderWidth(f, previousAction);
      && Window(out, h, own)
      && Window(out, h + |own|, BallFlat(cfg, player, f))
  {
    OutputSections(cfg, f, previousAction, players, player, index);
    HeaderFlatLength(cfg, f, previousAction);
    SelfPieces(Assemble(cfg, f, previousAction, players, player, index), HeaderWidth(f, previousAction), cfg, player, index, f);
  }

  /** A section that follows a header and an observer's arrays of their
      layout widths starts at `AllyOffset(cfg, f, previousAction, 0)`. */
  lemma AfterFront(out: seq<real>, hd: seq<real>, me: seq<real>, x: seq<real>, cfg: Config, f: Frame, previousAction: seq<real>)
    requires Window(out, |hd| + |me|, x)
    requires |hd| == HeaderWidth(f, previousAction)
    requires |me| == SelfWidth(cfg)
    ensures Window(out, AllyOffset(cfg, f, previousAction, 0), x)
  {
  }

  /** A section that follows a header, an observer's arrays and `n` peer
      blocks of their layout widths starts at `AllyOffset(cfg, f, previousAction, n)`. */
  lemma AfterPeers(out: seq<real>, hd: seq<real>, me: seq<real>, al: seq<real>, x: seq<real>, cfg: Config, f: Frame, previousAction: seq<real>, n: nat)
    requires Window(out, |hd| + |me| + |al|, x)
    requires |hd| == HeaderWidth(f, previousAction)
    requires |me| == SelfWidth(cfg)
    requires |al| == PeersWidth(cfg, n)
    ensures Window(out, AllyOffset(cfg, f, previousAction, n), x)
  {
  }

  /** Wherever the ally section follows the header and the observer's
      arrays, it starts at `AllyOffset(cfg, f, previousAction, 0)`. */
  lemma AllyStart(out: seq<real>, cfg: Config, f: Frame, previousAction: seq<real>, players: seq<PlayerData>, player: PlayerData, index: nat)
    requires |cfg.addPlayer(player, index, f.inverted)| == cfg.playerWidth
    requires Window(out, |HeaderFlat(cfg, f, previousAction)| + |SelfFlat(cfg, player, index, f)|, GroupFlat(cfg, players, player, f, Allies))
    ensures Window(out, AllyOffset(cfg, f, previousAction, 0), GroupFlat(cfg, players, player, f, Allies))
  {
    FrontWidths(cfg, f, previousAction, player, index);
    AfterFront(out, HeaderFlat(cfg, f, previousAction), SelfFlat(cfg, player, index, f), GroupFlat(cfg, players, player, f, Allies),
      cfg, f, previousAction);
  }

  /** Wherever the enemy section follows the ally section, it starts right
      after the last ally block. */
  lemma EnemyStart(out: seq<real>, cfg: Config, f: Frame, previousAction: seq<real>, players: seq<PlayerData>, player: PlayerData, index: nat)
    requires forall p, i, inv :: |cfg.addPlayer(p, i, inv)| == cfg.playerWidth
    requires Window(out, |HeaderFlat(cfg, f, previousAction)| + |SelfFlat(cfg, player, index, f)| + |GroupFlat(cfg, players, player, f, Allies)|,
      GroupFlat(cfg, players, player, f, Enemies))
    ensures Window(out, AllyOffset(cfg, f, previousAction, |GroupIndices(players, player, Allies, |players|)|), GroupFlat(cfg, players, player, f, Enemies))
  {
    FrontWidths(cfg, f, previousAction, player, index);
    GroupLength(cfg, players, player, f, Allies);
    AfterPeers(out, HeaderFlat(cfg, f, previousAction), SelfFlat(cfg, player, index, f), GroupFlat(cfg, players, player, f, Allies),
      GroupFlat(cfg, players, player, f, Enemies), cfg, f, previousAction, |GroupIndices(players, player, Allies, |players|)|);
  }

  /** Wherever the ally section starts at its offset, the `k`-th ally block
      sits at `AllyOffset`. */
  lemma AllyPiece(out: seq<real>, cfg: Config, f: Frame, previousAction: seq<real>, players: seq<PlayerData>, player: PlayerData, k: nat)
    requires forall p, i, inv :: |cfg.addPlayer(p, i, inv)| == cfg.playerWidth
    requires k < |GroupIndices(players, player, Allies, |players|)|
    requires Window(out, AllyOffset(cfg, f, previousAction, 0), GroupFlat(cfg, players, player, f, Allies))
    ensures
      var allies := GroupIndices(players, player, Allies, |players|);
      Window(out, AllyOffset(cfg, f, previousAction, k), PeerBlock(cfg, player, players[allies[k]], allies[k], f))
  {
    var allies := GroupIndices(players, player, Allies, |players|);
    GroupBlockWindow(cfg, players, player, f, Allies, k);
    WindowShift(out, AllyOffset(cfg, f, previousAction, 0), GroupFlat(cfg, players, player, f, Allies),
      PeersWidth(cfg, k), AllyOffset(cfg, f, previousAction, k), PeerBlock(cfg, player, players[allies[k]], allies[k], f));
  }

  /** Right after the observer's arrays come the ally blocks, with no
      padding: the `k`-th ally in roster order, encoded at its roster
      position, sits `k` peer widths after the observer's arrays. */
  lemma AllyLayout(cfg: Config, f: Frame, previousAction: seq<real>, players: seq<PlayerData>, player: PlayerData, index: nat, k: nat)
    requires forall p, i, inv :: |cfg.addPlayer(p, i, inv)| == cfg.playerWidth
    requires k < |GroupIndices(players, player, Allies, |players|)|
    ensures
      var allies := GroupIndices(players, player, Allies, |players|);
      Window(Assemble(cfg, f, previousAction, players, player, index), AllyOffset(cfg, f, previousAction, k),
        PeerBlock(cfg, player, players[allies[k]], allies[k], f))
  {
    OutputSections(cfg, f, previousAction, players, player, index);
    AllyStart(Assemble(cfg, f, previousAction, players, player, index), cfg, f, previousAction, players, player, index);
    AllyPiece(Assemble(cfg, f, previousAction, players, player, index), cfg, f, previousAction, players, player, k);
  }

  /** Wherever the enemy section starts at its offset, the `k`-th enemy block
      sits at `EnemyOffset`. */
  lemma EnemyPiece(out: seq<real>, cfg: Config, f: Frame, previousAction: seq<real>, players: seq<PlayerData>, player: PlayerData, k: nat)
    requires forall p, i, inv :: |cfg.addPlayer(p, i, inv)| == cfg.playerWidth
    requires k < |GroupIndices(players, player, Enemies, |players|)|
    requires Window(out, AllyOffset(cfg, f, previousAction, |GroupIndices(players, player, Allies, |players|)|), GroupFlat(cfg, players, player, f, Enemies))
    ensures
      var enemies := GroupIndices(players, player, Enemies, |players|);
      Window(out, EnemyOffset(cfg, f, previousAction, players, player, k), PeerBlock(cfg, player, players[enemies[k]], enemies[k], f))
  {
    var enemies := GroupIndices(players, player, Enemies, |players|);
    GroupBlockWindow(cfg, players, player, f, Enemies, k);
    WindowShift(out, AllyOffset(cfg, f, previousAction, |GroupIndices(players, player, Allies, |players|)|), GroupFlat(cfg, players, player, f, Enemies),
      PeersWidth(cfg, k), EnemyOffset(cfg, f, previousAction, players, player, k), PeerBlock(cfg, player, players[enemies[k]], enemies[k], f));
  }

  /** Right after the last ally come the enemy blocks, with no padding: the
      `k`-th enemy in roster order, encoded at its roster position, sits `k`
      peer widths after the ally section. */
  lemma EnemyLayout(cfg: Config, f: Frame, previousAction: seq<real>, players: seq<PlayerData>, player: PlayerData, index: nat, k: nat)
    requires forall p, i, inv :: |cfg.addPlayer(p, i, inv)| == cfg.playerWidth
    requires k < |GroupIndices(players, player, Enemies, |players|)|
    ensures
      var enemies := GroupIndices(players, player, Enemies, |players|);
      Window(Assemble(cfg, f, previousAction, players, player, index), EnemyOffset(cfg, f, previousAction, players, player, k),
        PeerBlock(cfg, player, players[enemies[k]], enemies[k], f))
  {
    OutputSections(cfg, f, previousAction, players, player, index);
    EnemyStart(Assemble(cfg, f, previousAction, players, player, index), cfg, f, previousAction, players, player, index);
    EnemyPiece(Assemble(cfg, f, previousAction, players, player, index), cfg, f, previousAction, players, player, k);
  }

  /** Allies and enemies below `n` together are exactly the entries below `n`
      whose car id is not the observer's. */
  lemma {:induction false} GroupsCoverOthers(players: seq<PlayerData>, player: PlayerData, n: nat)
    requires n <= |players|
    ensures |GroupIndices(players, player, Allies, n)| + |GroupIndices(players, player, Enemies, n)|
         == CountOthers(players, player.carId, n)
  {
    if n > 0 {
      GroupsCoverOthers(players, player, n - 1);
    }
  }

  /** Width `a` of peers and then width `b` of peers is the width of
      `a + b` peers. */
  lemma PeersWidthAdd(cfg: Config, a: nat, b: nat, c: nat)
    requires a + b == c
    ensures PeersWidth(cfg, a) + PeersWidth(cfg, b) == PeersWidth(cfg, c)
  {
  }

  /** A sequence made of the four sections has the width of the whole
      observation. */
  lemma LengthPiece(out: seq<real>, cfg: Config, f: Frame, previousAction: seq<real>, players: seq<PlayerData>, player: PlayerData, index: nat)
    requires forall p, i, inv :: |cfg.addPlayer(p, i, inv)| == cfg.playerWidth
    requires |out| == |HeaderFlat(cfg, f, previousAction)| + |SelfFlat(cfg, player, index, f)|
      + |GroupFlat(cfg, players, player, f, Allies)| + |GroupFlat(cfg, players, player, f, Enemies)|
    ensures |out| == ObsWidth(cfg, f, previousAction, players, player)
  {
    FrontWidths(cfg, f, previousAction, player, index);
    GroupLength(cfg, players, player, f, Allies);
    GroupLength(cfg, players, player, f, Enemies);
    GroupsCoverOthers(players, player, |players|);
    PeersWidthAdd(cfg, |GroupIndices(players, player, Allies, |players|)|, |GroupIndices(players, player, Enemies, |players|)|,
      CountOthers(players, player.carId, |players|));
  }

  /** The output length: header, observer block, its ball-relative block,
      and one fixed-width block for every roster entry with another car id. */
  lemma OutputLength(cfg: Config, f: Frame, previousAction: seq<real>, players: seq<PlayerData>, player: PlayerData, index: nat)
    requires forall p, i, inv :: |cfg.addPlayer(p, i, inv)| == cfg.playerWidth
    ensures |Assemble(cfg, f, previousAction, players, player, index)| == ObsWidth(cfg, f, previousAction, players, player)
  {
    OutputSections(cfg, f, previousAction, players, player, index);
    LengthPiece(Assemble(cfg, f, previousAction, players, player, index), cfg, f, previousAction, players, player, index);
  }

  /** No position of group `g` below `n` is left out of `GroupIndices`. */
  lemma {:induction false} GroupIndicesComplete(players: seq<PlayerData>, player: PlayerData, g: Group, n: nat, i: nat)
    requires n <= |players|
    requires i < n && InGroup(player, players[i], g)
    ensures i in GroupIndices(players, player, g, n)
  {
    if i < n - 1 {
      GroupIndicesComplete(players, player, g, n - 1, i);
    }
  }

  /** The partition of the roster: an entry with the observer's car id (the
      observer itself or any other record with that id) yields no block; every
      other entry yields a block among the allies when it shares the
      observer's team number and among the enemies otherwise, never both. */
  lemma PeerPartition(players: seq<PlayerData>, player: PlayerData)
    ensures
      var allies := GroupIndices(players, player, Allies, |players|);
      var enemies := GroupIndices(players, player, Enemies, |players|);
      forall i :: 0 <= i < |players| ==>
        && (i in allies <==> players[i].carId != player.carId && players[i].teamNum == player.teamNum)
        && (i in enemies <==> players[i].carId != player.carId && players[i].teamNum != player.teamNum)
  {
    forall i | 0 <= i < |players|
      ensures InGroup(player, players[i], Allies) ==> i in GroupIndices(players, player, Allies, |players|)
      ensures InGroup(player, players[i], Enemies) ==> i in GroupIndices(players, player, Enemies, |players|)
    {
      if InGroup(player, players[i], Allies) {
        GroupIndicesComplete(players, player, Allies, |players|, i);
      }
      if InGroup(player, players[i], Enemies) {
        GroupIndicesComplete(players, player, Enemies, |players|, i);
      }
    }
  }
}
