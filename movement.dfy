/**
 * Vertical movement of one player in one frame.
 */
module Movement {
  import opened Entities

  /**
   * The player after one frame of movement: up by `speed` when `up` is held
   * and the player is below the top edge, then down by `speed` when `down`
   * is held and the player (after the up move) is above the bottom limit.
   * Only `y` changes.
   */
  function MoveVertical(p: Player, up: bool, down: bool, canvasHeight: int): (q: Player)
    ensures q.(y := p.y) == p
    ensures q.y == p.y || q.y == p.y - p.speed || q.y == p.y + p.speed
    ensures p.speed > 0 && q.y < p.y ==> up && p.y > 0
    ensures p.speed > 0 && q.y > p.y ==> down && p.y < canvasHeight - p.height
    ensures up && !down && p.y > 0 ==> q.y == p.y - p.speed
    ensures down && !up && p.y < canvasHeight - p.height ==> q.y == p.y + p.speed
    ensures up && down && p.y > 0 && p.y - p.speed < canvasHeight - p.height ==> q.y == p.y
    ensures up && down && p.y > 0 && p.y - p.speed >= canvasHeight - p.height ==> q.y == p.y - p.speed
    ensures up && down && p.y <= 0 && p.y < canvasHeight - p.height ==> q.y == p.y + p.speed
    ensures !up && !down ==> q == p
  {
    var afterUp := if up && p.y > 0 then p.y - p.speed else p.y;
    var afterDown := if down && afterUp < canvasHeight - p.height then afterUp + p.speed else afterUp;
    p.(y := afterDown)
  }

  /**
   * The guards keep a player within one step of the canvas: a player that
   * starts strictly above -speed and strictly below the bottom limit plus
   * speed stays so.
   */
  lemma MoveStaysNearCanvas(p: Player, up: bool, down: bool, canvasHeight: int)
    requires p.speed > 0
    requires -p.speed < p.y < canvasHeight - p.height + p.speed
    ensures -p.speed < MoveVertical(p, up, down, canvasHeight).y < canvasHeight - p.height + p.speed
  {
  }

  /**
   * When the start position and the bottom limit are both multiples of the
   * speed, a player that starts in [0, canvasHeight - height] stays there.
   */
  lemma MoveStaysOnCanvasWhenAligned(p: Player, up: bool, down: bool, canvasHeight: int)
    requires p.speed == PLAYER_SPEED
    requires p.y % PLAYER_SPEED == 0 && (canvasHeight - p.height) % PLAYER_SPEED == 0
    requires 0 <= p.y <= canvasHeight - p.height
    ensures var q := MoveVertical(p, up, down, canvasHeight);
            0 <= q.y <= canvasHeight - p.height && q.y % PLAYER_SPEED == 0
  {
  }

  /**
   * Without that alignment the guard lets a player pass the top edge: on a
   * canvas 406 pixels high a player starts at y = 203 and, after forty up
   * moves, stands at y = 3, from where the next up move leaves it at y = -2.
   */
  lemma MoveCanPassTopEdge(p: Player)
    requires StandardShape(p) && p.y == 3
    ensures MoveVertical(p, true, false, 406).y == -2
  {
  }
}
