/** The overlap test and the collision scan of js/engine.js. */
module Collision {
  import opened GameConfig
  import opened Players

  /** Side of the square hitbox the collision scan uses. */
  const HITBOX: real := 60.0

  /**
   * `collides`: the two `size`-by-`size` boxes anchored at `p` and `q` overlap strictly,
   * that is, the anchors are closer than `size` on both axes; boxes of no size never overlap.
   */
  predicate Collides(p: Point, q: Point, size: real)
    ensures Collides(p, q, size) <==> Dist(p.x, q.x) < size && Dist(p.y, q.y) < size
    ensures Collides(p, q, size) ==> size > 0.0
  {
    p.x + size > q.x && p.x < q.x + size && p.y + size > q.y && p.y < q.y + size
  }

  function Dist(a: real, b: real): real
  {
    if a < b then b - a else a - b
  }

  lemma CollidesSymmetric(p: Point, q: Point, size: real)
    ensures Collides(p, q, size) == Collides(q, p, size)
  {
  }

  lemma CollidesWithItself(p: Point, size: real)
    requires size > 0.0
    ensures Collides(p, p, size)
  {
  }

  lemma FarApartDoNotCollide(p: Point, q: Point, size: real)
    requires Dist(p.x, q.x) >= size || Dist(p.y, q.y) >= size
    ensures !Collides(p, q, size)
  {
  }

  lemma CollisionExamples()
    ensures Collides(Point(10.0, 10.0), Point(10.0, 10.0), HITBOX)
    ensures !Collides(Point(0.0, 0.0), Point(100.0, 100.0), HITBOX)
  {
  }

  /** The player's anchor as a point. */
  function PlayerPoint(p: PlayerState): Point
  {
    Point(p.x as real, p.y as real)
  }

  /** How many of the obstacle positions collide with the point `at`. */
  function Hits(pts: seq<Point>, at: Point): (n: nat)
    ensures n <= |pts|
    ensures n == 0 <==> forall i :: 0 <= i < |pts| ==> !Collides(pts[i], at, HITBOX)
    decreases |pts|
  {
    if pts == [] then 0
    else Hits(pts[..|pts| - 1], at) + if Collides(pts[|pts| - 1], at, HITBOX) then 1 else 0
  }

  /**
   * `checkCollisions` on values: in obstacle order, every obstacle whose box
   * overlaps the player's makes the player die, so one frame can cost several lives.
   */
  function Scanned(p: PlayerState, pts: seq<Point>): (r: PlayerState)
    ensures r.lives == p.lives - Hits(pts, PlayerPoint(p))
    ensures r.exploding == (p.exploding || Hits(pts, PlayerPoint(p)) > 0)
    ensures r == p.(lives := r.lives, exploding := r.exploding)
    decreases |pts|
  {
    if pts == [] then p
    else
      var q := Scanned(p, pts[..|pts| - 1]);
      if Collides(pts[|pts| - 1], PlayerPoint(q), HITBOX) then Died(q) else q
  }

  /** Two obstacles on the player's tile in the same frame cost two lives. */
  lemma TwoHitsTwoLives(p: PlayerState)
    ensures Scanned(p, [PlayerPoint(p), PlayerPoint(p)]).lives == p.lives - 2
  {
    assert [PlayerPoint(p), PlayerPoint(p)][..1] == [PlayerPoint(p)];
    assert [PlayerPoint(p)][..0] == [];
  }
}
