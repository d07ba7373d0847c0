# bulletsinair: the game session, verified

A Dafny model of the simulation in `game.js` of the two-player canvas
shooter: two rectangular players move up and down and fire bullets at each
other until one player's health is used up. The drawing is removed and what
is left is the session state the script keeps in globals and changes in
place. That state is the two player records, the table of held movement
keys, and the pause and game-over flags. It is changed by the game loop and
by the `keydown` and `keyup` handlers.

Layout, one module per file:

- `entities.dfy` (`Entities`): the constants of the game, bullet and player
  records, `initializePlayers` and the unused `checkCollision` predicate.
- `bullets.dfy` (`Bullets`): one player's bullet loop of one frame. The
  reverse index loop that splices bullets out is the method
  `ProcessBullets`. It is proved equal to the functions `Survivors` and
  `HitCount`, and the lemmas about those state what the loop promises.
- `movement.dfy` (`Movement`): a player's guarded vertical move.
- `lifecycle.dfy` (`Lifecycle`): the session as a value (`State`) and its
  transitions as functions. `Frame` is one game-loop call: `Moved`, then
  `Player1Volley`, `Player2Volley` and `GameOverCheck`. The other
  transitions are `KeyDown`, `KeyUp` and `Restarted`, and the invariant is
  `Inv`. The lemmas about the game as a whole are here.
- `game.dfy` (`Game`): the class `Session`. It holds the script's globals as
  fields that its methods update in place: `GameLoop`, `OnKeyDown`,
  `OnKeyUp` and `RestartGame`. Each method is proved to keep `Inv` and to
  produce exactly the corresponding `Lifecycle` transition of its old state.
  The players are record values held in the fields. The script never calls
  methods on them; it assigns their fields and replaces both records on
  restart.

Canvas width and height are fields of the session, fixed when it is built.
Positions, health and bullet coordinates are integers.

Two bounds that one might expect of this game do not hold of the code, and
the model states what does hold:

- A player's `y` is not confined to `[0, canvasHeight - height]`. The guard
  only tests `y > 0` before moving up by 5. When the start height
  `canvasHeight / 2` is not a multiple of 5, a player can stop 1 to 4
  pixels below the top and then move above it. `MoveCanPassTopEdge` shows
  `y = 3` becoming `y = -2` on a canvas 406 pixels high.
  `MoveStaysNearCanvas` proves the bound that does hold, one step beyond
  each edge. `MoveStaysOnCanvasWhenAligned` proves the tighter bound when
  the positions are multiples of the speed, as on a 400-pixel canvas.
- Health is not bounded below by `-10`. Every bullet that hits in a frame
  costs 10 before the game-over test runs, so three bullets that arrive
  together take a player from 10 to -20 (`HealthCanOvershoot`). What holds
  is that health is a multiple of 10, at most 100, and never rises except
  on restart.

## Model

| member | source | states |
|---|---|---|
| `Entities.InitialPlayers` | game.js:9-32 | Both players start with the same size and speed, full health (100) and no bullets. They are vertically centred and mirror each other about the canvas's vertical mid-line: Player 1's left edge is 50 from the left and Player 2's right edge is 50 from the right. |
| `Entities.CheckCollision` | game.js:118-123 | For rectangles of positive size, a collision means the rectangles overlap with positive width and height on both axes. Touching edges do not count. |
| `Entities.CheckCollisionSymmetric` | game.js:118-123 | `checkCollision(a, b) == checkCollision(b, a)`. |
| `Entities.EdgeContactIsNoCollision` | game.js:118-123 | Two rectangles that only share a vertical edge do not collide. |
| `Bullets.InTarget` | game.js:145-148 | A hit is the bullet's point in the target's closed rectangle, edges included. On whole-pixel points this is exactly a `checkCollision` overlap between the point and the target grown by one pixel on each side. |
| `Bullets.OffScreen` | game.js:155 | A bullet is off screen exactly when its `x` is outside `[0, canvasWidth]`. |
| `Bullets.Advanced` | game.js:142 | One frame moves a bullet by exactly 15 in its direction (right for +1, left for -1). Its `y` and direction are unchanged. |
| `Bullets.ProcessBullets` | game.js:140-158 | The reverse loop that splices in place keeps exactly `Survivors(bullets)`. The target's health drops by exactly 10 × `HitCount(bullets)`. The loop invariant relates the processed suffix to the original list. |
| `Bullets.SurvivorsOnScreen` | game.js:144-158 | Every bullet still in flight after the loop satisfies `0 ≤ x ≤ canvasWidth`, and its point lies outside the target's closed rectangle. |
| `Bullets.SurvivorsInOrder` | game.js:140-158 | The survivors are a subsequence of the input bullets, each advanced by one frame: every survivor moved by exactly `bulletSpeed × direction`, and their relative order is kept. |
| `Bullets.SurvivorOrigin` | game.js:141-158 | Every survivor is the one-frame advance of an input bullet that neither hit nor left the canvas. |
| `Bullets.SurvivorsComplete` | game.js:144-158 | Every input bullet whose advanced point neither hits the target nor leaves the canvas is still in flight. |
| `Bullets.BulletAccounting` | game.js:144-158 | Each bullet ends in exactly one way: it survives, it hits (damage), or it misses and leaves the canvas (no damage). The three counts add up to the list's length. |
| `Bullets.SurvivorsKeepDirection` | game.js:142 | Bullets keep their direction while in flight. |
| `Movement.MoveVertical` | game.js:133-136 | Only `y` changes, by 0 or exactly ±speed. With only the up key held and `y > 0`, the player moves up by its speed. With only the down key held and `y < canvasHeight - height`, it moves down by its speed. With both held the up move comes first and the down guard is tested at the new `y`: when both guards pass the moves cancel, when only the up guard passes the player moves up, and when the up guard fails (`y ≤ 0`) but the down guard passes the player moves down. Conversely, with a positive speed an upward change needs the up key held and `y > 0`, and a downward change needs the down key held and `y < canvasHeight - height` beforehand. With neither key held nothing changes. |
| `Movement.MoveStaysNearCanvas` | game.js:133-136 | A player that starts strictly within one step of the canvas (`-speed < y < canvasHeight - height + speed`) stays there. |
| `Movement.MoveStaysOnCanvasWhenAligned` | game.js:133-136 | When `y` and `canvasHeight - height` are multiples of the speed, a player in `[0, canvasHeight - height]` stays in it. |
| `Movement.MoveCanPassTopEdge` | game.js:133 | Without that alignment the top guard lets a player leave the canvas: `y = 3` moves to `y = -2`. |
| `Lifecycle.InitialKeys` | game.js:38-43 | The held-key table has exactly the four movement keys, none held. |
| `Lifecycle.Start` | game.js:5-43 | The session at page load holds exactly the players of `initializePlayers` and the key table with no key held. It satisfies the invariant and is running, with full health and no bullets. |
| `Lifecycle.Moved` | game.js:133-136 | The movement phase changes only the players' `y`. Keys and flags are unchanged. |
| `Lifecycle.Player1Volley` | game.js:140-165 | Player 1's bullet loop changes only Player 1's bullets and Player 2's health, and that health does not rise. |
| `Lifecycle.Player2Volley` | game.js:168-193 | Player 2's bullet loop changes only Player 2's bullets and Player 1's health, and that health does not rise. |
| `Lifecycle.GameOverCheck` | game.js:223-238 | The game is over afterwards exactly when it was over before or some health is ≤ 0. Nothing else changes. |
| `Lifecycle.Frame` | game.js:126-241 | While paused or over, a frame changes nothing. Otherwise it leaves the keys, the pause flag and every `x` unchanged, never raises a health value, and afterwards the game is over exactly when some health is ≤ 0. |
| `Lifecycle.Restarted` | game.js:98-101 | Restart gives players equal to those at page load and a running game, and keeps the held keys. |
| `Lifecycle.LowersTo` | game.js:52 | A key name lower-cases to a given small letter exactly when it is that letter or its capital. |
| `Lifecycle.IsPauseKey` | game.js:52 | A key name lower-cases to `p` exactly when it is `p` or `P`. |
| `Lifecycle.IsRestartKey` | game.js:63 | A key name lower-cases to `r` exactly when it is `r` or `R`. |
| `Lifecycle.Player1Shot` | game.js:75-80 | Player 1's bullet starts at its right edge, halfway down, flying right. |
| `Lifecycle.Player2Shot` | game.js:83-88 | Player 2's bullet starts at its left edge, halfway down, flying left. |
| `Lifecycle.KeyDown` | game.js:50-90 | The pause key toggles `isPaused`, in every state and also after game over. No key other than pause and restart changes either flag. |
| `Lifecycle.KeyUp` | game.js:92-96 | In every state, releasing a key leaves it not held and leaves every other key as it was. The key set and the rest of the session are unchanged. |
| `Lifecycle.Winner` | game.js:223-231 | Player 1 is announced only when Player 2's health is ≤ 0 and Player 1's is > 0. Player 2 is announced only when Player 1's health is ≤ 0, so a double knock-out goes to Player 2. |
| `Lifecycle.SameRectSameOutcome` | game.js:145-148 | Hits and survivors depend only on the target's position and size, not on its health or bullets. |
| `Lifecycle.FrameBullets` | game.js:138-193 | In a running frame, each player's bullets are tested against the opponent at its position after this frame's move. The survivors are those of that test, and each player loses exactly 10 × the opponent's hits. |
| `Lifecycle.FrameMovement` | game.js:132-136 | In a running frame each player's `y` is its guarded move for the keys held. |
| `Lifecycle.FrameBulletsOnScreen` | game.js:154-186 | After a running frame every bullet of both players satisfies `0 ≤ x ≤ canvasWidth`. |
| `Lifecycle.FrameKeepsInv` | game.js:126-241 | A frame keeps the invariant: shapes are fixed, health is a multiple of 10 and ≤ 100, Player 1's bullets fly right and Player 2's left, the game is over iff some health is ≤ 0, and the key set is fixed. |
| `Lifecycle.KnockOutOfPlayer1` | game.js:223-231 | Hits that use up Player 1's health end the game with Player 2 as winner, even if Player 2 is knocked out in the same frame. |
| `Lifecycle.KnockOutOfPlayer2` | game.js:223-231 | Hits that use up Player 2's health while Player 1 keeps some end the game with Player 1 as winner. |
| `Lifecycle.HealthCanOvershoot` | game.js:145-152 | Three hits in one frame take a player from 10 to -20. |
| `Lifecycle.PauseKey` | game.js:52-60 | Pausing changes only the flag. Resuming clears the flag and runs one frame at once. |
| `Lifecycle.FrozenIgnoresKeys` | game.js:68 | While paused or over, every key except pause and restart leaves the session unchanged, and so does a frame. |
| `Lifecycle.MoveKeyMarksHeld` | game.js:70-72 | While running, a movement key is marked held and nothing else changes. |
| `Lifecycle.Player1Fires` | game.js:74-81 | While running, `d` appends exactly one bullet to the end of Player 1's list, at `(x + width, y + height/2)` with direction 1. Nothing else changes, Player 2's list included. |
| `Lifecycle.Player2Fires` | game.js:82-89 | While running, `ArrowLeft` appends exactly one bullet to the end of Player 2's list, at `(x, y + height/2)` with direction -1. Nothing else changes, Player 1's list included. |
| `Lifecycle.RestartKey` | game.js:62-66 | In every state, paused or over included, the restart key gives one frame of a restarted game: it is running, both healths are 100, both bullet lists are empty, the players are at their start columns, and the held keys are kept. |
| `Lifecycle.UnrelatedKeyIgnored` | game.js:68-89 | While running, a key that is neither a movement key, a fire key, pause nor restart leaves the session unchanged. |
| `Lifecycle.RestartForgetsGame` | game.js:98-101 | Restart discards all play: two sessions with the same held keys restart to the same session. |
| `Lifecycle.RestartResets` | game.js:98-101 | After restart both healths are 100, both bullet lists are empty, the players are at their start positions, the game is running, and the held keys are kept. |
| `Lifecycle.OnlyRestartHeals` | game.js:50-96 | No key other than restart, pressed or released, raises either player's health. |
| `Lifecycle.KeyDownKeepsInv` | game.js:50-90 | Every key-down keeps the invariant. |
| `Lifecycle.KeyUpKeepsInv` | game.js:92-96 | Every key-up keeps the invariant. |
| `Game.Session.constructor` | game.js:5-43 | The fields at page load are `Start`, and the invariant holds. |
| `Game.Session.GameLoop` | game.js:126-241 | The in-place updates of one loop call turn the fields into exactly `Frame` of their old value, and the invariant is kept. |
| `Game.Session.MovePlayers` | game.js:132-136 | The four guarded updates give exactly `Moved` of the old state. |
| `Game.Session.Player1BulletLoop` | game.js:139-165 | Gives exactly `Player1Volley` of the old state. |
| `Game.Session.Player2BulletLoop` | game.js:167-193 | Gives exactly `Player2Volley` of the old state. |
| `Game.Session.CheckGameOver` | game.js:222-238 | Gives exactly `GameOverCheck` of the old state. |
| `Game.Session.RestartGame` | game.js:98-103 | Rebuilds the players, clears both flags and runs one loop call. The result is `Frame(Restarted(old))`, and the invariant is kept. |
| `Game.Session.OnKeyDown` | game.js:50-90 | The handler's in-place updates give exactly `KeyDown` of the old state, and the invariant is kept. |
| `Game.Session.OnKeyUp` | game.js:92-96 | The handler's update gives exactly `KeyUp` of the old state, and the invariant is kept. |

## Left out

- Drawing. Everything on `ctx` is left out: the canvas clear, bullet trails and bodies, player rectangles, health bars, the controls guide, the pause screen (`drawPauseScreen`) and the win banner. Only the winner choice in the banner is modelled (`Winner`). These calls have no effect on the state.
- DOM wiring is left out: the canvas lookup and the `addEventListener` registration. The handlers are the methods `OnKeyDown` and `OnKeyUp`, which take the key name as a string.
- Frame scheduling is left out: `requestAnimationFrame`, and the second callback chain that starts when restart or resume calls the loop while a frame is already pending. One `GameLoop` call is one atomic step. The script's first loop call at load is the caller's first `GameLoop` after the constructor.
- The `color` fields of the players, the `size` field of bullets and the `bulletSize` constant are left out. Only the drawing reads them.
- `Lifecycle.LowerCase` lowers only the Latin capitals `A` to `Z`, where `toLowerCase` follows all of Unicode. No other character lower-cases to `p` or `r`, so the pause and restart tests agree with the script. The script's `key in keys` also sees inherited object properties, but no key name equals one of them, so it is modelled as membership in the four movement keys.
- `Entities.InitialPlayers`: requires an even canvas height. With an odd height the script places the players at a fractional `y`, which the integer model does not represent.
- JavaScript numbers are doubles. The model uses unbounded integers, which agree with them on the small whole numbers the game produces.
- Touch controls are not in `game.js` and are not part of this model.
