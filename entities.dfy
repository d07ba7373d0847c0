/**
 * The records of a game session: the two players, their bullets, the
 * constants of the game, the start-of-game setup and the (unused)
 * rectangle-overlap predicate.
 */
module Entities {

  /** Pixels a bullet travels in one frame. */
  const BULLET_SPEED: int := 15
  /** Health lost by a player for each bullet that hits it. */
  const DAMAGE: int := 10
  const PLAYER_WIDTH: int := 30
  const PLAYER_HEIGHT: int := 50
  /** Pixels a player moves vertically in one frame. */
  const PLAYER_SPEED: int := 5
  const FULL_HEALTH: int := 100
  /** Gap between Player 1's left edge and the canvas's left edge,
      and between Player 2's right edge and the canvas's right edge. */
  const EDGE_MARGIN: int := 50

  /** A bullet: its leading point and its horizontal direction (+1 right, -1 left). */
  datatype Bullet = Bullet(x: int, y: int, direction: int)

  /** A player: an axis-aligned rectangle with a speed, a health counter and
      the ordered list of its bullets in flight. */
  datatype Player = Player(x: int, y: int, width: int, height: int, speed: int, health: int, bullets: seq<Bullet>)

  /** The fixed size and speed every player is created with and keeps. */
  predicate StandardShape(p: Player)
  {
    p.width == PLAYER_WIDTH && p.height == PLAYER_HEIGHT && p.speed == PLAYER_SPEED
  }

  /**
   * The two players at the start of a game: equal size, full health, no
   * bullets, vertically centred, and placed as mirror images of each other
   * about the vertical mid-line of the canvas.
   */
  function InitialPlayers(canvasWidth: int, canvasHeight: int): (ps: (Player, Player))
    requires canvasHeight % 2 == 0
    ensures StandardShape(ps.0) && StandardShape(ps.1)
    ensures ps.0.x == EDGE_MARGIN && canvasWidth - (ps.1.x + ps.1.width) == ps.0.x
    ensures 2 * ps.0.y == canvasHeight && ps.1.y == ps.0.y
    ensures ps.0.health == FULL_HEALTH && ps.1.health == FULL_HEALTH
    ensures ps.0.bullets == [] && ps.1.bullets == []
  {
    (Player(EDGE_MARGIN, canvasHeight / 2, PLAYER_WIDTH, PLAYER_HEIGHT, PLAYER_SPEED, FULL_HEALTH, []),
     Player(canvasWidth - (EDGE_MARGIN + PLAYER_WIDTH), canvasHeight / 2,
            PLAYER_WIDTH, PLAYER_HEIGHT, PLAYER_SPEED, FULL_HEALTH, []))
  }

  /** Any object with a position and a size. */
  datatype Rect = Rect(x: int, y: int, width: int, height: int)

  function Max(a: int, b: int): int { if a < b then b else a }
  function Min(a: int, b: int): int { if a < b then a else b }

  /**
   * Strict overlap of two rectangles: on each axis the later of the two
   * start edges lies strictly before the earlier of the two end edges, so
   * rectangles that only touch along an edge do not collide. (For a
   * rectangle of zero or negative size the test is the raw comparison of
   * edges and has no such reading.)
   */
  function CheckCollision(a: Rect, b: Rect): (c: bool)
    ensures a.width > 0 && a.height > 0 && b.width > 0 && b.height > 0 ==>
              (c <==> (Max(a.x, b.x) < Min(a.x + a.width, b.x + b.width) &&
                       Max(a.y, b.y) < Min(a.y + a.height, b.y + b.height)))
  {
    a.x < b.x + b.width &&
    a.x + a.width > b.x &&
    a.y < b.y + b.height &&
    a.y + a.height > b.y
  }

  /** Collision does not depend on the order of the two rectangles. */
  lemma CheckCollisionSymmetric(a: Rect, b: Rect)
    ensures CheckCollision(a, b) == CheckCollision(b, a)
  {
  }

  /** Touching along an edge is not a collision. */
  lemma EdgeContactIsNoCollision(a: Rect, b: Rect)
    requires b.x == a.x + a.width
    ensures !CheckCollision(a, b)
  {
  }
}
