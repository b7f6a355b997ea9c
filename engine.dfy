/** The engine's shared state and handlers (js/engine.js) over the objects of js/app.js. */
module Engine {
  import opened GameConfig
  import Selection
  import opened Enemies
  import opened Players
  import opened Collision
  import opened Game

  /** The five characters offered by the picker, in order. */
  const CHARACTERS: seq<string> := [
    "images/char-boy.png",
    "images/char-cat-girl.png",
    "images/char-horn-girl.png",
    "images/char-pink-girl.png",
    "images/char-princess-girl.png"]

  class World {
    const g: Globals
    var phase: Phase
    const selector: Selection.PlayerSelector
    const player: Player
    const enemies: seq<Enemy>

    /** The objects are wired as the start-up code wires them; nothing here ever changes. */
    predicate Sound()
    {
      g.Valid() && player.g == g && player.Valid() &&
      (forall i :: 0 <= i < |enemies| ==> enemies[i].g == g) &&
      (forall i, j :: 0 <= i < j < |enemies| ==> enemies[i] != enemies[j])
    }

    function State(): WorldState
      reads this, selector, player, player.explosion, set e | e in enemies
    {
      WorldState(phase, selector.charSprites, selector.State(), player.State(), player.sprite, States(enemies))
    }

    ghost predicate Valid()
      reads this, selector, player, player.explosion, set e | e in enemies
    {
      Sound() && Inv(g, State())
    }

    /** Start-up: `g.nEnemies` obstacles at x = 0, each with its own draw, and the picker shown. */
    constructor (g: Globals, draws: seq<Draw>)
      requires g.Valid() && |draws| == g.nEnemies
      requires forall i :: 0 <= i < |draws| ==> DrawInRange(g, draws[i])
      ensures Valid()
      ensures fresh(selector) && fresh(player) && fresh(player.explosion)
      ensures forall e :: e in enemies ==> fresh(e)
      ensures State() == Initial(g, CHARACTERS, draws)
    {
      var es := SpawnEnemies(g, draws);
      this.g := g;
      phase := SelectPlayer;
      selector := new Selection.PlayerSelector("images/Selector.png", CHARACTERS);
      player := new Player(g, "images/char-boy.png");
      enemies := es;
      new;
      assert Sound();
      assert States(enemies) == Initial(g, CHARACTERS, draws).enemies;
      assert State() == Initial(g, CHARACTERS, draws);
      InitialInv(g, CHARACTERS, draws);
    }

    /** The selector's `onSelect` callback. */
    method OnSelect(c: string)
      modifies this, player
      ensures State() == Selected(old(State()), c)
    {
      phase := Run;
      player.sprite := c;
    }

    /** `onKey`: route the key by phase; keys are ignored in GAME_OVER. */
    method OnKey(code: int)
      requires Valid()
      modifies this, selector, player
      ensures Valid()
      ensures State() == KeyPressed(g, old(State()), KeyOf(code))
    {
      var key := KeyOf(code);
      if phase == SelectPlayer {
        var chosen := selector.HandleInput(key);
        if chosen.Some? {
          OnSelect(chosen.value);
        }
      } else if phase == Run {
        player.HandleInput(key);
      }
      KeyPressedKeepsInv(g, old(State()), key);
    }

    /** `on_click`: from GAME_OVER back to the picker for a new game. */
    method OnClick()
      requires Valid()
      modifies this, selector, player
      ensures Valid()
      ensures State() == Clicked(g, old(State()))
    {
      if phase == GameOver {
        selector.Reset();
        player.Restart();
        phase := SelectPlayer;
      }
      ClickedKeepsInv(g, old(State()));
    }

    /** One pass of `main` with the frame's elapsed time and random draws. */
    method Tick(dt: real, draws: seq<Draw>)
      requires Valid()
      requires |draws| == |enemies| && forall i :: 0 <= i < |draws| ==> DrawInRange(g, draws[i])
      modifies this, player, player.explosion, set e | e in enemies
      ensures Valid()
      ensures State() == FrameStep(g, old(State()), dt, draws)
    {
      if phase == Run {
        Update(dt, draws);
        UpdateWorldKeepsInv(g, old(State()), dt, draws);
      }
    }

    /** `update`: obstacles and player move in RUN, then the explosion advances or collisions are checked. */
    method Update(dt: real, draws: seq<Draw>)
      requires Sound()
      requires |draws| == |enemies| && forall i :: 0 <= i < |draws| ==> DrawInRange(g, draws[i])
      modifies this, player, player.explosion, set e | e in enemies
      ensures State() == UpdateWorld(g, old(State()), dt, draws)
    {
      ghost var w0 := State();
      ghost var w1 := if phase == Run then EntitiesUpdated(g, w0, draws) else w0;
      if phase == Run {
        UpdateEntities(draws);
      }
      assert State() == w1;
      label Mid:
      if player.exploding {
        player.explosion.Update(dt);
        if player.ExplosionEnded() {
          if player.lives < 0 {
            phase := GameOver;
          } else {
            phase := Run;
          }
          player.Reset();
        }
        StatesUnchanged@Mid(enemies);
        assert State() == ExplosionStep(g, w1, dt);
      } else {
        CheckCollisions();
        StatesUnchanged@Mid(enemies);
        assert State() == CollisionsChecked(w1);
      }
    }

    /** `updateEntities`: every obstacle in order, then the player. */
    method UpdateEntities(draws: seq<Draw>)
      requires Sound()
      requires |draws| == |enemies| && forall i :: 0 <= i < |draws| ==> DrawInRange(g, draws[i])
      modifies player, player.explosion, set e | e in enemies
      ensures States(enemies) == MoveAll(g, old(States(enemies)), draws)
      ensures player.State() == Updated(g, old(player.State())) && player.sprite == old(player.sprite)
    {
      var i := 0;
      while i < |enemies|
        invariant 0 <= i <= |enemies|
        invariant forall k :: 0 <= k < i ==> enemies[k].State() == Move(g, old(enemies[k].State()), draws[k])
        invariant forall k :: i <= k < |enemies| ==> enemies[k].State() == old(enemies[k].State())
        modifies set e | e in enemies
      {
        enemies[i].Update(draws[i]);
        i := i + 1;
      }
      player.Update();
    }

    /** `checkCollisions`: every obstacle overlapping the player costs a life. */
    method CheckCollisions()
      modifies player, player.explosion
      ensures player.State() == Scanned(old(player.State()), old(Positions(States(enemies))))
      ensures player.sprite == old(player.sprite)
    {
      ghost var pts := Positions(States(enemies));
      ghost var p0 := player.State();
      ghost var q := p0;
      var i := 0;
      while i < |enemies|
        invariant 0 <= i <= |enemies|
        invariant q == Scanned(p0, pts[..i])
        invariant player.State() == q
        invariant player.sprite == old(player.sprite)
      {
        if Collides(enemies[i].Pos(), PlayerPoint(player.State()), HITBOX) {
          player.Die();
        }
        ScannedStep(p0, pts, i);
        q := Scanned(p0, pts[..i + 1]);
        i := i + 1;
      }
      assert pts[..|enemies|] == pts;
    }
  }

  lemma ScannedStep(p: PlayerState, pts: seq<Point>, i: nat)
    requires i < |pts|
    ensures var q := Scanned(p, pts[..i]);
      Scanned(p, pts[..i + 1]) == if Collides(pts[i], PlayerPoint(q), HITBOX) then Died(q) else q
  {
    assert pts[..i + 1][..i] == pts[..i];
  }

  /** The start-up loop filling `allEnemies`: obstacle i starts at x = 0 with the i-th draw. */
  method SpawnEnemies(g: Globals, draws: seq<Draw>) returns (es: seq<Enemy>)
    requires forall i :: 0 <= i < |draws| ==> DrawInRange(g, draws[i])
    ensures |es| == |draws|
    ensures forall k :: 0 <= k < |es| ==>
      fresh(es[k]) && es[k].g == g && es[k].State() == EnemyState(0.0, draws[k].lane, draws[k].speed)
    ensures forall k, l :: 0 <= k < l < |es| ==> es[k] != es[l]
  {
    es := [];
    var i := 0;
    while i < |draws|
      invariant 0 <= i <= |draws| && |es| == i
      invariant forall k :: 0 <= k < i ==>
        fresh(es[k]) && es[k].g == g && es[k].State() == EnemyState(0.0, draws[k].lane, draws[k].speed)
      invariant forall k, l :: 0 <= k < l < i ==> es[k] != es[l]
    {
      var e := new Enemy(g, "images/enemy-bug.png", (0.0, ((i + 1) * g.brickHeight) as real), draws[i]);
      es := es + [e];
      i := i + 1;
    }
  }
}
