/**
 * The engine of js/engine.js as a function of values: the game phase, the key and
 * click handlers, the per-frame update, and the invariant they all keep.
 */
module Game {
  import opened GameConfig
  import opened Animation
  import Selection
  import opened Enemies
  import opened Players
  import opened Collision

  /** The engine's top-level mode. */
  datatype Phase = Run | GameOver | SelectPlayer

  /** Everything the engine's handlers read or write. */
  datatype WorldState = WorldState(
    phase: Phase,
    choices: seq<string>,
    selector: Selection.SelectorState,
    player: PlayerState,
    sprite: string,
    enemies: seq<EnemyState>)

  /** The engine's key-code table; codes outside it map to no key name. */
  function KeyOf(code: int): (k: Key)
    ensures k == Enter <==> code == 13
    ensures k == Left <==> code == 37
    ensures k == Up <==> code == 38
    ensures k == Right <==> code == 39
    ensures k == Down <==> code == 40
  {
    if code == 13 then Enter
    else if code == 37 then Left
    else if code == 38 then Up
    else if code == 39 then Right
    else if code == 40 then Down
    else Unmapped
  }

  /** The phase an ended explosion leads to. */
  function PhaseAfterExplosion(lives: int): (r: Phase)
    ensures r == GameOver <==> lives < 0
    ensures r == Run <==> lives >= 0
  {
    if lives < 0 then GameOver else Run
  }

  /** The selector's `onSelect` callback: start the run with the chosen sprite. */
  function Selected(w: WorldState, c: string): (r: WorldState)
    ensures r.phase == Run && r.sprite == c
    ensures r == w.(phase := r.phase, sprite := r.sprite)
  {
    w.(phase := Run, sprite := c)
  }

  /** `onKey`: the key goes to the selector, to the player, or nowhere, by phase. */
  function KeyPressed(g: Globals, w: WorldState, key: Key): (r: WorldState)
    requires w.phase == SelectPlayer && key == Enter ==> 0 <= w.selector.choice < |w.choices|
    ensures w.phase == GameOver ==> r == w
    ensures w.phase == Run ==> r == w.(player := WithInput(g, w.player, key))
    ensures w.phase == SelectPlayer ==>
      r.player == w.player && r.enemies == w.enemies && r.choices == w.choices &&
      r.selector == Selection.Step(w.selector, |w.choices|, key)
    ensures w.phase == SelectPlayer && key == Enter ==>
      r.phase == Run && r.sprite == w.choices[w.selector.choice]
    ensures w.phase == SelectPlayer && key != Enter ==> r.phase == SelectPlayer && r.sprite == w.sprite
  {
    match w.phase
    case SelectPlayer =>
      var s := Selection.Step(w.selector, |w.choices|, key);
      if key == Enter then Selected(w.(selector := s), w.choices[w.selector.choice])
      else w.(selector := s)
    case Run => w.(player := WithInput(g, w.player, key))
    case GameOver => w
  }

  /** `on_click`: only in GAME_OVER, back to the picker with a fresh picker and a restarted player. */
  function Clicked(g: Globals, w: WorldState): (r: WorldState)
    ensures w.phase != GameOver ==> r == w
    ensures w.phase == GameOver ==>
      r.phase == SelectPlayer && r.selector == Selection.SelectorState(0, false) &&
      r.player == w.player.(lives := g.maxLives, score := 0) &&
      r.enemies == w.enemies && r.sprite == w.sprite && r.choices == w.choices
  {
    if w.phase == GameOver then
      w.(phase := SelectPlayer, selector := Selection.SelectorState(0, false), player := Restarted(g, w.player))
    else w
  }

  /** The obstacles' anchors. */
  function Positions(es: seq<EnemyState>): seq<Point>
  {
    seq(|es|, i requires 0 <= i < |es| => Point(es[i].x, es[i].y))
  }

  /** `updateEntities`: every obstacle moves, then the player moves. */
  function EntitiesUpdated(g: Globals, w: WorldState, draws: seq<Draw>): (r: WorldState)
    requires |draws| == |w.enemies|
    ensures r == w.(enemies := r.enemies, player := r.player)
    ensures |r.enemies| == |w.enemies|
    ensures r.player.lives == w.player.lives && (r.player.exploding ==> w.player.exploding)
    ensures (g.Valid() && (forall i :: 0 <= i < |draws| ==> DrawInRange(g, draws[i])) &&
             (forall i :: 0 <= i < |w.enemies| ==> InRange(g, w.enemies[i]))) ==>
      forall i :: 0 <= i < |r.enemies| ==> InRange(g, r.enemies[i])
  {
    w.(enemies := MoveAll(g, w.enemies, draws), player := Updated(g, w.player))
  }

  /** The explosion branch of `update`: advance the explosion; at its end choose the phase and reset the player. */
  function ExplosionStep(g: Globals, w: WorldState, dt: real): (r: WorldState)
    ensures r.player.lives == w.player.lives && r.enemies == w.enemies
    ensures r == w.(phase := r.phase, player := r.player)
    ensures r.player.score == w.player.score && r.player.dirX == w.player.dirX && r.player.dirY == w.player.dirY
    ensures var a := Advance(w.player.explosion, EXPLOSION_FRAME_TIME, dt);
      if a.step == EXPLOSION_FRAMES then
        r.phase == PhaseAfterExplosion(w.player.lives) && !r.player.exploding &&
        r.player.x == g.SpawnX() && r.player.y == g.SpawnY() && r.player.explosion == AnimState(0, 0.0)
      else
        r == w.(player := w.player.(explosion := a))
  {
    var p := w.player.(explosion := Advance(w.player.explosion, EXPLOSION_FRAME_TIME, dt));
    if ExplosionDone(p) then w.(phase := PhaseAfterExplosion(p.lives), player := Respawned(g, p))
    else w.(player := p)
  }

  /** `checkCollisions` on the whole world. */
  function CollisionsChecked(w: WorldState): (r: WorldState)
    ensures r.player.lives == w.player.lives - Hits(Positions(w.enemies), PlayerPoint(w.player))
    ensures r == w.(player := r.player)
  {
    w.(player := Scanned(w.player, Positions(w.enemies)))
  }

  /**
   * `update`: obstacles and player move in RUN (also while exploding); then either
   * the explosion advances or, when not exploding, collisions are checked.
   */
  function UpdateWorld(g: Globals, w: WorldState, dt: real, draws: seq<Draw>): (r: WorldState)
    requires |draws| == |w.enemies|
    ensures |r.enemies| == |w.enemies| && r.choices == w.choices
    ensures r.selector == w.selector && r.sprite == w.sprite
  {
    var w1 := if w.phase == Run then EntitiesUpdated(g, w, draws) else w;
    if w1.player.exploding then ExplosionStep(g, w1, dt) else CollisionsChecked(w1)
  }

  /** One pass of `main`: the world is updated only in RUN (drawing is not modelled). */
  function FrameStep(g: Globals, w: WorldState, dt: real, draws: seq<Draw>): (r: WorldState)
    requires |draws| == |w.enemies|
    ensures w.phase != Run ==> r == w
    ensures w.phase == Run ==> r.phase == Run || (r.phase == GameOver && r.player.lives < 0)
    ensures w.phase == Run && r.phase == GameOver ==>
      w.player.exploding && Advance(w.player.explosion, EXPLOSION_FRAME_TIME, dt).step == EXPLOSION_FRAMES
  {
    if w.phase == Run then UpdateWorld(g, w, dt, draws) else w
  }

  /** The world at start-up: picker shown, player on spawn, obstacles at x = 0. */
  function Initial(g: Globals, choices: seq<string>, draws: seq<Draw>): (r: WorldState)
    ensures r.phase == SelectPlayer && r.choices == choices && r.selector == Selection.SelectorState(0, false)
    ensures r.player == Spawned(g)
    ensures |r.enemies| == |draws|
    ensures forall i :: 0 <= i < |draws| ==>
      r.enemies[i].x == 0.0 && r.enemies[i].y == draws[i].lane && r.enemies[i].speed == draws[i].speed
  {
    WorldState(SelectPlayer, choices, Selection.SelectorState(0, false), Spawned(g),
      "images/char-boy.png",
      seq(|draws|, i requires 0 <= i < |draws| => EnemyState(0.0, draws[i].lane, draws[i].speed)))
  }

  /** What holds of the player in every reachable world with `n` obstacles. */
  predicate PlayerInv(g: Globals, phase: Phase, p: PlayerState, n: nat)
    requires g.Valid()
  {
    Aligned(g, p) && p.y >= g.brickHeight && (g.SpawnOnBoard() ==> InBounds(g, p)) &&
    p.score >= 0 &&
    p.explosion.step < EXPLOSION_FRAMES &&
    (!p.exploding ==> p.explosion == AnimState(0, 0.0)) &&
    (p.exploding ==> phase == Run && p.dirX == 0 && p.dirY == 0) &&
    (!p.exploding ==> (p.lives < 0 <==> phase == GameOver)) &&
    p.lives + n >= 0
  }

  /** The game invariant. */
  predicate Inv(g: Globals, w: WorldState)
  {
    g.Valid() &&
    0 <= w.selector.choice < |w.choices| &&
    (w.selector.selected <==> w.phase != SelectPlayer) &&
    PlayerInv(g, w.phase, w.player, |w.enemies|) &&
    forall i :: 0 <= i < |w.enemies| ==> InRange(g, w.enemies[i])
  }

  lemma InitialInv(g: Globals, choices: seq<string>, draws: seq<Draw>)
    requires g.Valid() && |choices| > 0
    requires forall i :: 0 <= i < |draws| ==> DrawInRange(g, draws[i])
    ensures Inv(g, Initial(g, choices, draws))
  {
    SpawnIsAligned(g);
    MultipleOfProduct(0, g.brickWidth);
    MultipleOfProduct(0, g.brickHeight);
  }

  lemma KeyPressedKeepsInv(g: Globals, w: WorldState, key: Key)
    requires Inv(g, w)
    ensures Inv(g, KeyPressed(g, w, key))
  {
    if w.phase == Run {
      ApplyKeepsAligned(g, w.player, Input(key));
    }
  }

  lemma ClickedKeepsInv(g: Globals, w: WorldState)
    requires Inv(g, w)
    ensures Inv(g, Clicked(g, w))
  {
  }

  lemma UpdateWorldKeepsInv(g: Globals, w: WorldState, dt: real, draws: seq<Draw>)
    requires Inv(g, w) && w.phase == Run
    requires |draws| == |w.enemies| && forall i :: 0 <= i < |draws| ==> DrawInRange(g, draws[i])
    ensures Inv(g, UpdateWorld(g, w, dt, draws))
  {
    var w1 := EntitiesUpdated(g, w, draws);
    ApplyKeepsAligned(g, w.player, Tick);
    if g.SpawnOnBoard() {
      ApplyKeepsInBounds(g, w.player, Tick);
    }
    assert PlayerInv(g, Run, w1.player, |w1.enemies|);
    if w1.player.exploding {
      var p := w1.player.(explosion := Advance(w1.player.explosion, EXPLOSION_FRAME_TIME, dt));
      if ExplosionDone(p) {
        ApplyKeepsAligned(g, p, Reset);
      }
    }
  }

  lemma FrameStepKeepsInv(g: Globals, w: WorldState, dt: real, draws: seq<Draw>)
    requires Inv(g, w)
    requires |draws| == |w.enemies| && forall i :: 0 <= i < |draws| ==> DrawInRange(g, draws[i])
    ensures Inv(g, FrameStep(g, w, dt, draws))
  {
    if w.phase == Run {
      UpdateWorldKeepsInv(g, w, dt, draws);
    }
  }

  /** The three sources of events: a key released, a click, an animation frame with its random draws. */
  datatype Event = KeyUp(code: int) | Click | AnimationFrame(dt: real, draws: seq<Draw>)

  /** The frame's draws suit `n` obstacles and lie in the configured ranges. */
  predicate Fits(g: Globals, n: nat, ev: Event)
  {
    ev.AnimationFrame? ==>
      |ev.draws| == n && forall i :: 0 <= i < |ev.draws| ==> DrawInRange(g, ev.draws[i])
  }

  /**
   * One event, dispatched as the engine's listeners and `main` do. The phase changes
   * only SELECT_PLAYER to RUN on Enter, RUN to GAME_OVER on a frame that ends an
   * explosion with negative lives, and GAME_OVER to SELECT_PLAYER on a click.
   */
  function Handle(g: Globals, w: WorldState, ev: Event): (r: WorldState)
    requires Inv(g, w) && Fits(g, |w.enemies|, ev)
    ensures Inv(g, r) && |r.enemies| == |w.enemies| && r.choices == w.choices
    ensures r.phase != w.phase ==>
      (w.phase == SelectPlayer && r.phase == Run && ev == KeyUp(13)) ||
      (w.phase == Run && r.phase == GameOver && ev.AnimationFrame? && r.player.lives < 0 &&
       w.player.exploding && Advance(w.player.explosion, EXPLOSION_FRAME_TIME, ev.dt).step == EXPLOSION_FRAMES) ||
      (w.phase == GameOver && r.phase == SelectPlayer && ev == Click)
  {
    match ev
    case KeyUp(code) =>
      KeyPressedKeepsInv(g, w, KeyOf(code));
      KeyPressed(g, w, KeyOf(code))
    case Click =>
      ClickedKeepsInv(g, w);
      Clicked(g, w)
    case AnimationFrame(dt, draws) =>
      FrameStepKeepsInv(g, w, dt, draws);
      FrameStep(g, w, dt, draws)
  }

  predicate AllFit(g: Globals, n: nat, evs: seq<Event>)
  {
    forall i :: 0 <= i < |evs| ==> Fits(g, n, evs[i])
  }

  /** A whole session: the invariant holds after any sequence of events. */
  function Session(g: Globals, w: WorldState, evs: seq<Event>): (r: WorldState)
    requires Inv(g, w) && AllFit(g, |w.enemies|, evs)
    ensures Inv(g, r) && |r.enemies| == |w.enemies| && r.choices == w.choices
    decreases |evs|
  {
    if evs == [] then w else Session(g, Handle(g, w, evs[0]), evs[1..])
  }

  /** While the player explodes, collisions are not checked: no life is lost in that frame. */
  lemma ExplodingSuspendsCollisions(g: Globals, w: WorldState, dt: real, draws: seq<Draw>)
    requires Inv(g, w) && w.phase == Run && w.player.exploding && |draws| == |w.enemies|
    ensures UpdateWorld(g, w, dt, draws).player.lives == w.player.lives
  {
    assert !ReachesGoal(g, w.player);
  }

  /**
   * Obstacles keep moving while the player explodes: the phase stays RUN, so the
   * frame moves every obstacle exactly as it would without an explosion.
   */
  lemma ExplodingKeepsObstaclesMoving(g: Globals, w: WorldState, dt: real, draws: seq<Draw>)
    requires Inv(g, w) && w.phase == Run && w.player.exploding && |draws| == |w.enemies|
    ensures FrameStep(g, w, dt, draws).enemies == MoveAll(g, w.enemies, draws)
  {
  }

  /** A frame that starts an explosion starts it on its first frame. */
  lemma DeathStartsExplosionAtFrameZero(g: Globals, w: WorldState, dt: real, draws: seq<Draw>)
    requires Inv(g, w) && w.phase == Run && !w.player.exploding && |draws| == |w.enemies|
    ensures FrameStep(g, w, dt, draws).player.explosion == AnimState(0, 0.0)
  {
  }

  /** A frame that ends the explosion resets the player and picks GAME_OVER exactly when lives are negative. */
  lemma ExplosionEndDecidesPhase(g: Globals, w: WorldState, dt: real, draws: seq<Draw>)
    requires Inv(g, w) && w.phase == Run && w.player.exploding && |draws| == |w.enemies|
    requires Advance(w.player.explosion, EXPLOSION_FRAME_TIME, dt).step == EXPLOSION_FRAMES
    ensures var r := FrameStep(g, w, dt, draws);
      (r.phase == GameOver <==> w.player.lives < 0) && (r.phase == Run <==> w.player.lives >= 0) &&
      !r.player.exploding && r.player.x == g.SpawnX() && r.player.y == g.SpawnY() &&
      r.player.lives == w.player.lives
  {
    assert !ReachesGoal(g, w.player);
  }

  /** In a frame without an explosion, the player loses one life per overlapping obstacle. */
  lemma CollisionsCostOneLifeEach(g: Globals, w: WorldState, dt: real, draws: seq<Draw>)
    requires Inv(g, w) && w.phase == Run && !w.player.exploding && |draws| == |w.enemies|
    ensures var w1 := EntitiesUpdated(g, w, draws);
      !w1.player.exploding ==>
        FrameStep(g, w, dt, draws).player.lives ==
        w.player.lives - Hits(Positions(w1.enemies), PlayerPoint(w1.player))
  {
  }

  /** Key-up events carrying the given key codes. */
  function KeyUps(codes: seq<int>): seq<Event>
  {
    seq(|codes|, i requires 0 <= i < |codes| => KeyUp(codes[i]))
  }

  /** The keys the given key codes map to. */
  function Keys(codes: seq<int>): seq<Key>
  {
    seq(|codes|, i requires 0 <= i < |codes| => KeyOf(codes[i]))
  }

  /**
   * In SELECT_PLAYER, keys other than Enter only move the highlight: a session of
   * them is the picker's own run over the same keys, and nothing else changes.
   */
  lemma {:induction false} PickerFollowsKeys(g: Globals, w: WorldState, codes: seq<int>)
    requires Inv(g, w) && w.phase == SelectPlayer
    requires forall i :: 0 <= i < |codes| ==> codes[i] != 13
    ensures AllFit(g, |w.enemies|, KeyUps(codes))
    ensures Session(g, w, KeyUps(codes)) ==
      w.(selector := Selection.Run(w.selector, |w.choices|, Keys(codes)))
    decreases |codes|
  {
    var evs := KeyUps(codes);
    if codes != [] {
      var key := KeyOf(codes[0]);
      var w1 := Handle(g, w, evs[0]);
      assert w1 == w.(selector := Selection.Step(w.selector, |w.choices|, key));
      assert evs[1..] == KeyUps(codes[1..]);
      assert Keys(codes)[1..] == Keys(codes[1..]);
      PickerFollowsKeys(g, w1, codes[1..]);
    }
  }

  /**
   * Five characters: left at index 0 is clamped, right four times and left once
   * reach index 3, and Enter starts the run with the fourth character.
   */
  lemma PickFourthCharacter(g: Globals, choices: seq<string>, draws: seq<Draw>)
    requires g.Valid() && |choices| == 5
    requires forall i :: 0 <= i < |draws| ==> DrawInRange(g, draws[i])
    ensures Inv(g, Initial(g, choices, draws))
    ensures var w := Session(g, Initial(g, choices, draws),
                             [KeyUp(37), KeyUp(39), KeyUp(39), KeyUp(39), KeyUp(39), KeyUp(37)]);
      w.phase == SelectPlayer && w.selector == Selection.SelectorState(3, false) &&
      KeyPressed(g, w, KeyOf(13)).phase == Run && KeyPressed(g, w, KeyOf(13)).sprite == choices[3]
  {
    InitialInv(g, choices, draws);
    var codes := [37, 39, 39, 39, 39, 37];
    PickerFollowsKeys(g, Initial(g, choices, draws), codes);
    assert KeyUps(codes) == [KeyUp(37), KeyUp(39), KeyUp(39), KeyUp(39), KeyUp(39), KeyUp(37)];
    assert Keys(codes) == [Left, Right, Right, Right, Right, Left];
    Selection.FiveChoicesWalk();
  }

  /**
   * With three lives, the fourth death leaves -1 lives, and the frame that ends its
   * explosion moves the game to GAME_OVER.
   */
  lemma FourthDeathEndsGame(g: Globals, w: WorldState, dt: real, draws: seq<Draw>)
    requires Inv(g, w) && w.phase == Run && |draws| == |w.enemies| && g.maxLives == 3
    requires w.player == Play(g, Spawned(g), [Die, Reset, Die, Reset, Die, Reset, Die]).(explosion := w.player.explosion)
    requires Advance(w.player.explosion, EXPLOSION_FRAME_TIME, dt).step == EXPLOSION_FRAMES
    ensures w.player.lives == -1
    ensures FrameStep(g, w, dt, draws).phase == GameOver
  {
    FourDeaths(g);
    ExplosionEndDecidesPhase(g, w, dt, draws);
  }
}
