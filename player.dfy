/** The player-controlled character (`Player` in js/app.js). */
module Players {
  import opened GameConfig
  import opened Animation

  /** The player's explosion sheet: five frames of 120 pixels, 0.08 s each. */
  const EXPLOSION_FRAMES: nat := 5
  const EXPLOSION_SIZE: int := 120
  const EXPLOSION_FRAME_TIME: real := 0.08

  /**
   * The player's mutable part: tile position, pending one-tile displacement,
   * counters, the exploding flag and the explosion's frame counter.
   */
  datatype PlayerState = PlayerState(
    x: int, y: int, dirX: int, dirY: int,
    lives: int, score: int,
    exploding: bool, explosion: AnimState)

  /** A newly created player: on the spawn tile with full lives. */
  function Spawned(g: Globals): (r: PlayerState)
    ensures r.lives == g.maxLives && r.score == 0 && r.dirX == 0 && r.dirY == 0
    ensures !r.exploding && r.explosion == AnimState(0, 0.0)
    ensures g.Valid() && g.SpawnOnBoard() ==> InBounds(g, r)
  {
    PlayerState(g.SpawnX(), g.SpawnY(), 0, 0, g.maxLives, 0, false, AnimState(0, 0.0))
  }

  /** `handleInput`: a direction key replaces the pending displacement by one tile that way. */
  function WithInput(g: Globals, p: PlayerState, key: Key): (r: PlayerState)
    ensures r == p.(dirX := r.dirX, dirY := r.dirY)
    ensures p.exploding ==> r == p
    ensures !p.exploding && key == Left ==> r.dirX == -g.brickWidth && r.dirY == 0
    ensures !p.exploding && key == Right ==> r.dirX == g.brickWidth && r.dirY == 0
    ensures !p.exploding && key == Up ==> r.dirX == 0 && r.dirY == -g.brickHeight
    ensures !p.exploding && key == Down ==> r.dirX == 0 && r.dirY == g.brickHeight
    ensures key == Enter || key == Unmapped ==> r == p
  {
    if p.exploding then p
    else match key
      case Left => p.(dirX := -g.brickWidth, dirY := 0)
      case Up => p.(dirX := 0, dirY := -g.brickHeight)
      case Right => p.(dirX := g.brickWidth, dirY := 0)
      case Down => p.(dirX := 0, dirY := g.brickHeight)
      case _ => p
  }

  /**
   * Where the pending displacement takes the player: each axis moves only when the
   * result stays on the board (x in [0, width), y in [0, height - 150)), and stays
   * put otherwise.
   */
  function Landing(g: Globals, p: PlayerState): (r: (int, int))
    ensures r.0 == p.x || r.0 == p.x + p.dirX
    ensures r.1 == p.y || r.1 == p.y + p.dirY
    ensures 0 <= p.x + p.dirX < g.width ==> r.0 == p.x + p.dirX
    ensures 0 <= p.y + p.dirY < g.Floor() ==> r.1 == p.y + p.dirY
    ensures r.0 != p.x ==> 0 <= r.0 < g.width
    ensures r.1 != p.y ==> 0 <= r.1 < g.Floor()
  {
    (if 0 <= p.x + p.dirX < g.width then p.x + p.dirX else p.x,
     if 0 <= p.y + p.dirY < g.Floor() then p.y + p.dirY else p.y)
  }

  /** The landing position is in the goal row. */
  predicate ReachesGoal(g: Globals, p: PlayerState)
  {
    Landing(g, p).1 < g.brickHeight
  }

  /**
   * `update`: move to the landing position; reaching the goal row scores one point
   * and puts the player back on spawn. The pending displacement is always cleared.
   */
  function Updated(g: Globals, p: PlayerState): (r: PlayerState)
    ensures r.dirX == 0 && r.dirY == 0 && r.lives == p.lives
    ensures ReachesGoal(g, p) ==>
      r == Respawned(g, p).(score := p.score + 1, dirX := 0, dirY := 0)
    ensures !ReachesGoal(g, p) ==>
      r == p.(x := Landing(g, p).0, y := Landing(g, p).1, dirX := 0, dirY := 0)
  {
    var (x, y) := Landing(g, p);
    var moved := p.(x := x, y := y, dirX := 0, dirY := 0);
    if y < g.brickHeight then Respawned(g, moved.(score := p.score + 1)) else moved
  }

  /** `die`: start exploding and lose one life; nothing else changes. */
  function Died(p: PlayerState): (r: PlayerState)
    ensures r.exploding && r.lives == p.lives - 1
    ensures r == p.(exploding := r.exploding, lives := r.lives)
  {
    p.(exploding := true, lives := p.lives - 1)
  }

  /** `reset`: back to the spawn tile, not exploding, explosion rewound. */
  function Respawned(g: Globals, p: PlayerState): (r: PlayerState)
    ensures r.x == g.SpawnX() && r.y == g.SpawnY()
    ensures !r.exploding && r.explosion == AnimState(0, 0.0)
    ensures r.lives == p.lives && r.score == p.score && r.dirX == p.dirX && r.dirY == p.dirY
    ensures g.Valid() && g.SpawnOnBoard() ==> InBounds(g, r)
  {
    p.(x := g.SpawnX(), y := g.SpawnY(), exploding := false, explosion := AnimState(0, 0.0))
  }

  /** `restart`: full lives and no score, for a new game. */
  function Restarted(g: Globals, p: PlayerState): (r: PlayerState)
    ensures r.lives == g.maxLives && r.score == 0
    ensures r == p.(lives := r.lives, score := r.score)
  {
    p.(lives := g.maxLives, score := 0)
  }

  /** `explosionEnded`: the explosion has shown its last frame. */
  predicate ExplosionDone(p: PlayerState)
  {
    p.explosion.step == EXPLOSION_FRAMES
  }

  /**
   * A rewound explosion is done only after at least five `update` calls, however
   * long each call is; five calls each longer than a frame do finish it.
   */
  lemma ExplosionNeedsFiveCalls(p: PlayerState, dts: seq<real>)
    requires p.explosion == AnimState(0, 0.0)
    ensures ExplosionDone(p.(explosion := AdvanceAll(p.explosion, EXPLOSION_FRAME_TIME, dts))) ==>
      |dts| >= EXPLOSION_FRAMES
    ensures |dts| == EXPLOSION_FRAMES && (forall i :: 0 <= i < |dts| ==> dts[i] > EXPLOSION_FRAME_TIME) ==>
      ExplosionDone(p.(explosion := AdvanceAll(p.explosion, EXPLOSION_FRAME_TIME, dts)))
  {
    FramesPerCall(p.explosion, EXPLOSION_FRAME_TIME, dts);
    if forall i :: 0 <= i < |dts| ==> dts[i] > EXPLOSION_FRAME_TIME {
      LongCallsAdvanceEveryTime(p.explosion, EXPLOSION_FRAME_TIME, dts);
    }
  }

  /** The operations a caller can apply to the player. */
  datatype PlayerOp = Input(key: Key) | Tick | Die | Reset | Restart

  function Apply(g: Globals, p: PlayerState, op: PlayerOp): PlayerState
  {
    match op
    case Input(key) => WithInput(g, p, key)
    case Tick => Updated(g, p)
    case Die => Died(p)
    case Reset => Respawned(g, p)
    case Restart => Restarted(g, p)
  }

  function Play(g: Globals, p: PlayerState, ops: seq<PlayerOp>): PlayerState
    decreases |ops|
  {
    if ops == [] then p else Play(g, Apply(g, p, ops[0]), ops[1..])
  }

  /** Position and pending displacement are whole tiles. */
  predicate Aligned(g: Globals, p: PlayerState)
    requires g.Valid()
  {
    p.x % g.brickWidth == 0 && p.y % g.brickHeight == 0 &&
    p.dirX % g.brickWidth == 0 && p.dirY % g.brickHeight == 0
  }

  /** The player stands on the walkable board, below the goal row. */
  predicate InBounds(g: Globals, p: PlayerState)
  {
    0 <= p.x < g.width && g.brickHeight <= p.y < g.Floor()
  }

  lemma SpawnIsAligned(g: Globals)
    requires g.Valid()
    ensures g.SpawnX() % g.brickWidth == 0 && g.SpawnY() % g.brickHeight == 0
  {
    MultipleOfProduct(2, g.brickWidth);
    MultipleOfProduct(5, g.brickHeight);
  }

  /** Every operation keeps the player on the tile grid. */
  lemma ApplyKeepsAligned(g: Globals, p: PlayerState, op: PlayerOp)
    requires g.Valid() && Aligned(g, p)
    ensures Aligned(g, Apply(g, p, op))
  {
    SpawnIsAligned(g);
    match op
    case Input(key) =>
      MultipleOfProduct(-1, g.brickWidth);
      MultipleOfProduct(-1, g.brickHeight);
      MultipleOfProduct(0, g.brickWidth);
      MultipleOfProduct(0, g.brickHeight);
      MultipleOfProduct(1, g.brickWidth);
      MultipleOfProduct(1, g.brickHeight);
    case Tick =>
      SumOfMultiples(p.x, p.dirX, g.brickWidth);
      SumOfMultiples(p.y, p.dirY, g.brickHeight);
      MultipleOfProduct(0, g.brickWidth);
      MultipleOfProduct(0, g.brickHeight);
    case _ =>
  }

  /** Any mix of input, update, die, reset and restart keeps the player on the tile grid. */
  lemma {:induction false} PlayKeepsAligned(g: Globals, p: PlayerState, ops: seq<PlayerOp>)
    requires g.Valid() && Aligned(g, p)
    ensures Aligned(g, Play(g, p, ops))
    decreases |ops|
  {
    if ops != [] {
      ApplyKeepsAligned(g, p, ops[0]);
      PlayKeepsAligned(g, Apply(g, p, ops[0]), ops[1..]);
    }
  }

  /** After `update` the player is never left in the goal row. */
  lemma UpdatedLeavesGoalRow(g: Globals, p: PlayerState)
    requires g.Valid()
    ensures Updated(g, p).y >= g.brickHeight
  {
  }

  /** Every operation keeps the player on the board when the spawn tile is on it. */
  lemma ApplyKeepsInBounds(g: Globals, p: PlayerState, op: PlayerOp)
    requires g.Valid() && g.SpawnOnBoard() && InBounds(g, p)
    ensures InBounds(g, Apply(g, p, op))
  {
  }

  lemma {:induction false} PlayKeepsInBounds(g: Globals, p: PlayerState, ops: seq<PlayerOp>)
    requires g.Valid() && g.SpawnOnBoard() && InBounds(g, p)
    ensures InBounds(g, Play(g, p, ops))
    decreases |ops|
  {
    if ops != [] {
      ApplyKeepsInBounds(g, p, ops[0]);
      PlayKeepsInBounds(g, Apply(g, p, ops[0]), ops[1..]);
    }
  }

  /** The number of `die` operations in a sequence. */
  function Deaths(ops: seq<PlayerOp>): nat
    decreases |ops|
  {
    if ops == [] then 0 else (if ops[0] == Die then 1 else 0) + Deaths(ops[1..])
  }

  /** Without `restart`, lives drop by exactly one per `die` and change no other way. */
  lemma {:induction false} PlayCountsDeaths(g: Globals, p: PlayerState, ops: seq<PlayerOp>)
    requires forall i :: 0 <= i < |ops| ==> ops[i] != Restart
    ensures Play(g, p, ops).lives == p.lives - Deaths(ops)
    decreases |ops|
  {
    if ops != [] {
      PlayCountsDeaths(g, Apply(g, p, ops[0]), ops[1..]);
    }
  }

  /** Three lives and four deaths without a restart leave the player at -1 lives. */
  lemma FourDeaths(g: Globals)
    requires g.Valid() && g.maxLives == 3
    ensures Play(g, Spawned(g), [Die, Reset, Die, Reset, Die, Reset, Die]).lives == -1
  {
  }

  class Player {
    const g: Globals
    var sprite: string
    var x: int
    var y: int
    var dirX: int
    var dirY: int
    var lives: int
    var score: int
    var exploding: bool
    const explosion: AnimEntity

    /** The explosion animation is the player's five-frame sheet. */
    predicate Valid()
    {
      explosion.cols == EXPLOSION_FRAMES && explosion.dtPerFrame == EXPLOSION_FRAME_TIME
    }

    function State(): PlayerState
      reads this, explosion
    {
      PlayerState(x, y, dirX, dirY, lives, score, exploding, explosion.State())
    }

    constructor (g: Globals, sprite: string)
      ensures Valid() && fresh(explosion)
      ensures this.g == g && this.sprite == sprite
      ensures State() == Spawned(g)
    {
      this.g := g;
      this.sprite := sprite;
      x, y := g.SpawnX(), g.SpawnY();
      dirX, dirY := 0, 0;
      lives := g.maxLives;
      score := 0;
      explosion := new AnimEntity("images/explosion-sprite-sheet.png", EXPLOSION_FRAMES, EXPLOSION_SIZE, EXPLOSION_FRAME_TIME);
      exploding := false;
    }

    method Update()
      modifies this, explosion
      ensures State() == Updated(g, old(State()))
      ensures sprite == old(sprite) && explosion.pos == old(explosion.pos)
    {
      if x + dirX >= 0 && x + dirX < g.width {
        x := x + dirX;
      }
      if y + dirY >= 0 && y + dirY < g.height - HUD_RESERVE {
        y := y + dirY;
      }
      if y < g.brickHeight {
        score := score + 1;
        Reset();
      }
      dirX, dirY := 0, 0;
    }

    predicate ExplosionEnded()
      requires Valid()
      reads explosion
      ensures ExplosionEnded() <==> ExplosionDone(State())
    {
      explosion.step == explosion.cols
    }

    method Die()
      modifies this, explosion
      ensures State() == Died(old(State()))
      ensures lives == old(lives) - 1 && exploding
      ensures sprite == old(sprite) && explosion.pos == (x, y)
    {
      exploding := true;
      lives := lives - 1;
      explosion.pos := (x, y);
    }

    method Reset()
      modifies this, explosion
      ensures State() == Respawned(g, old(State()))
      ensures sprite == old(sprite) && explosion.pos == old(explosion.pos)
    {
      x, y := g.SpawnX(), g.SpawnY();
      exploding := false;
      explosion.Reset();
    }

    method Restart()
      modifies this
      ensures State() == Restarted(g, old(State()))
      ensures sprite == old(sprite)
    {
      lives := g.maxLives;
      score := 0;
    }

    method HandleInput(key: Key)
      modifies this
      ensures State() == WithInput(g, old(State()), key)
      ensures sprite == old(sprite)
    {
      if exploding {
        return;
      }
      match key
      case Left => dirX, dirY := -g.brickWidth, 0;
      case Up => dirX, dirY := 0, -g.brickHeight;
      case Right => dirX, dirY := g.brickWidth, 0;
      case Down => dirX, dirY := 0, g.brickHeight;
      case _ =>
    }
  }
}
