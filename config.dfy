/** Shared vocabulary of the game: the configuration constants, key names and points. */
module GameConfig {

  datatype Option<T> = None | Some(value: T)

  /** Key names after the engine's key-code table; `Unmapped` stands for a code outside it. */
  datatype Key = Enter | Left | Up | Right | Down | Unmapped

  /** A position in pixel space. Obstacles move continuously, so coordinates are reals. */
  datatype Point = Point(x: real, y: real)

  /** Rows below this many pixels from the bottom of the board are reserved for the HUD. */
  const HUD_RESERVE: int := 150

  /**
   * The game-wide configuration object (`appGlobals`). Its values are not fixed here;
   * every result holds for any configuration meeting `Valid()`.
   */
  datatype Globals = Globals(
    width: int, height: int,
    brickWidth: int, brickHeight: int,
    maxLives: int,
    minSpeed: real, maxSpeed: real,
    minPos: real, maxPos: real,
    nEnemies: nat)
  {
    predicate Valid()
    {
      width > 0 && height > 0 && brickWidth > 0 && brickHeight > 0 && maxLives >= 0 &&
      0.0 < minSpeed < maxSpeed && minPos < maxPos
    }

    /** The spawn tile of the player: third column, sixth row. */
    function SpawnX(): int { 2 * brickWidth }
    function SpawnY(): int { 5 * brickHeight }

    /** First row (in pixels) the player may not enter. */
    function Floor(): int { height - HUD_RESERVE }

    /** The spawn tile lies inside the area the player may walk on. */
    predicate SpawnOnBoard() { SpawnX() < width && SpawnY() < Floor() }
  }

  /** A multiple of a positive modulus stays one when a multiple is added. */
  lemma SumOfMultiples(a: int, b: int, m: int)
    requires m > 0 && a % m == 0 && b % m == 0
    ensures (a + b) % m == 0
  {
    assert a == (a / m) * m;
    assert b == (b / m) * m;
    assert a + b == (a / m + b / m) * m;
    MultipleOfProduct(a / m + b / m, m);
  }

  lemma MultipleOfProduct(k: int, m: int)
    requires m > 0
    ensures (k * m) % m == 0
  {
    var q, r := (k * m) / m, (k * m) % m;
    var d := k - q;
    assert m * d == r;
    if d >= 1 {
      assert m * d == m * (d - 1) + m;
    } else if d <= -1 {
      assert m * d == m * (d + 1) - m;
    }
  }
}
