/** Obstacles sweeping right across the board (`Enemy` in js/app.js). */
module Enemies {
  import opened GameConfig

  /** An obstacle's mutable part: its position and its per-frame speed. */
  datatype EnemyState = EnemyState(x: real, y: real, speed: real)

  /**
   * The two random values drawn when an obstacle (re)spawns: a speed and a lane.
   * The random source itself is not modelled; callers supply the values.
   */
  datatype Draw = Draw(speed: real, lane: real)

  predicate DrawInRange(g: Globals, d: Draw)
  {
    g.minSpeed <= d.speed < g.maxSpeed && g.minPos <= d.lane < g.maxPos
  }

  /** The obstacle is on the board with a speed and a lane from the configured ranges. */
  predicate InRange(g: Globals, e: EnemyState)
  {
    0.0 <= e.x <= g.width as real &&
    g.minSpeed <= e.speed < g.maxSpeed && g.minPos <= e.y < g.maxPos
  }

  /**
   * One `update` call. The speed is a per-frame displacement; the elapsed time is
   * not used. Past the right edge the obstacle wraps to x = 0 with the drawn
   * speed and lane.
   */
  function Move(g: Globals, e: EnemyState, d: Draw): (r: EnemyState)
    ensures e.x + e.speed <= g.width as real ==> r == e.(x := e.x + e.speed)
    ensures e.x + e.speed > g.width as real ==> r == EnemyState(0.0, d.lane, d.speed)
    ensures g.Valid() && InRange(g, e) && DrawInRange(g, d) ==> InRange(g, r)
  {
    var x := e.x + e.speed;
    if x > g.width as real then EnemyState(0.0, d.lane, d.speed) else e.(x := x)
  }

  /** One `update` call on every obstacle, each with its own draw. */
  function MoveAll(g: Globals, es: seq<EnemyState>, ds: seq<Draw>): (r: seq<EnemyState>)
    requires |ds| == |es|
    ensures |r| == |es|
    ensures forall i :: 0 <= i < |es| ==> r[i] == Move(g, es[i], ds[i])
  {
    seq(|es|, i requires 0 <= i < |es| => Move(g, es[i], ds[i]))
  }

  /** One obstacle after one `update` call per draw. */
  function Sweep(g: Globals, e: EnemyState, ds: seq<Draw>): EnemyState
    decreases |ds|
  {
    if ds == [] then e else Sweep(g, Move(g, e, ds[0]), ds[1..])
  }

  /** Obstacles never leave the board or their ranges, however many frames pass. */
  lemma {:induction false} SweepStaysInRange(g: Globals, e: EnemyState, ds: seq<Draw>)
    requires g.Valid() && InRange(g, e)
    requires forall i :: 0 <= i < |ds| ==> DrawInRange(g, ds[i])
    ensures InRange(g, Sweep(g, e, ds))
    decreases |ds|
  {
    if ds != [] {
      SweepStaysInRange(g, Move(g, e, ds[0]), ds[1..]);
    }
  }

  class Enemy {
    const g: Globals
    const sprite: string
    var x: real
    var y: real
    var speed: real

    function State(): EnemyState
      reads this
    {
      EnemyState(x, y, speed)
    }

    function Pos(): Point
      reads this
    {
      Point(x, y)
    }

    /** The given lane replaces the y coordinate of `pos`; the speed is drawn too. */
    constructor (g: Globals, sprite: string, pos: (real, real), d: Draw)
      requires DrawInRange(g, d)
      ensures this.g == g && this.sprite == sprite
      ensures State() == EnemyState(pos.0, d.lane, d.speed)
    {
      this.g := g;
      this.sprite := sprite;
      x := pos.0;
      speed := d.speed;
      y := d.lane;
    }

    method Update(d: Draw)
      requires DrawInRange(g, d)
      modifies this
      ensures State() == Move(g, old(State()), d)
      ensures old(InRange(g, State())) && g.Valid() ==> InRange(g, State())
    {
      x := x + speed;
      if x > g.width as real {
        x := 0.0;
        speed := d.speed;
        y := d.lane;
      }
    }
  }

  /** The states of a sequence of obstacle objects. */
  function States(es: seq<Enemy>): (r: seq<EnemyState>)
    reads set e | e in es
    ensures |r| == |es|
    ensures forall i :: 0 <= i < |es| ==> r[i] == es[i].State()
    decreases |es|
  {
    if es == [] then [] else [es[0].State()] + States(es[1..])
  }

  /** Obstacles nobody touched keep their snapshot. */
  twostate lemma {:induction false} StatesUnchanged(es: seq<Enemy>)
    requires forall e :: e in es ==> unchanged(e)
    ensures States(es) == old(States(es))
    decreases |es|
  {
    if es != [] {
      assert forall e :: e in es[1..] ==> e in es;
      StatesUnchanged(es[1..]);
    }
  }
}
