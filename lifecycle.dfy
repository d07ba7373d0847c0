/**
 * The session as a value and its transitions: one frame of the game loop,
 * the key-down and key-up handlers, and restart. These functions are the
 * specification that the `Session` class's methods are proved to follow;
 * the lemmas here state what the game promises across them.
 */
module Lifecycle {
  import opened Entities
  import opened Bullets
  import opened Movement

  /** The keys whose held state is tracked: movement for both players. */
  const MOVE_KEYS: set<string> := {"w", "s", "ArrowUp", "ArrowDown"}

  /** No movement key is held when the page loads. */
  function InitialKeys(): (keys: map<string, bool>)
    ensures keys.Keys == MOVE_KEYS
    ensures forall k :: k in keys ==> !keys[k]
  {
    map["w" := false, "s" := false, "ArrowUp" := false, "ArrowDown" := false]
  }

  predicate Held(keys: map<string, bool>, name: string)
  {
    name in keys && keys[name]
  }

  /** Everything the game loop and the input handlers read and write. */
  datatype State = State(player1: Player, player2: Player, keys: map<string, bool>,
                         isPaused: bool, isGameOver: bool)

  predicate Running(g: State)
  {
    !g.isPaused && !g.isGameOver
  }

  /** A health value the game can reach: a multiple of DAMAGE, never above full. */
  predicate HealthInRange(h: int)
  {
    h % DAMAGE == 0 && h <= FULL_HEALTH
  }

  /**
   * What holds of every session: both players keep their shape, health is
   * a multiple of DAMAGE not above full, Player 1's bullets fly right and
   * Player 2's left, the game is over exactly when a player's health is
   * used up, and the movement keys are exactly the tracked ones.
   */
  ghost predicate Inv(g: State)
  {
    && StandardShape(g.player1) && StandardShape(g.player2)
    && HealthInRange(g.player1.health) && HealthInRange(g.player2.health)
    && (forall b :: b in g.player1.bullets ==> b.direction == 1)
    && (forall b :: b in g.player2.bullets ==> b.direction == -1)
    && (g.isGameOver <==> g.player1.health <= 0 || g.player2.health <= 0)
    && g.keys.Keys == MOVE_KEYS
  }

  /** The session when the page loads: fresh players, no key held, running. */
  function Start(canvasWidth: int, canvasHeight: int): (g: State)
    requires canvasHeight % 2 == 0
    ensures Inv(g) && Running(g)
    ensures g.keys == InitialKeys()
    ensures (g.player1, g.player2) == InitialPlayers(canvasWidth, canvasHeight)
    ensures g.player1.health == FULL_HEALTH && g.player2.health == FULL_HEALTH
    ensures g.player1.bullets == [] && g.player2.bullets == []
  {
    var ps := InitialPlayers(canvasWidth, canvasHeight);
    State(ps.0, ps.1, InitialKeys(), false, false)
  }

  /** The movement part of a frame: each player moves as its keys and the guards allow. */
  function Moved(g: State, canvasHeight: int): (r: State)
    ensures r.player1.(y := g.player1.y) == g.player1 && r.player2.(y := g.player2.y) == g.player2
    ensures r.keys == g.keys && r.isPaused == g.isPaused && r.isGameOver == g.isGameOver
  {
    g.(player1 := MoveVertical(g.player1, Held(g.keys, "w"), Held(g.keys, "s"), canvasHeight),
       player2 := MoveVertical(g.player2, Held(g.keys, "ArrowUp"), Held(g.keys, "ArrowDown"), canvasHeight))
  }

  /** Player 1's bullet loop: its bullets advance and Player 2 is hit where it stands. */
  function Player1Volley(g: State, canvasWidth: int): (r: State)
    ensures r.player1.(bullets := g.player1.bullets) == g.player1
    ensures r.player2.(health := g.player2.health) == g.player2
    ensures r.player2.health <= g.player2.health
    ensures r.keys == g.keys && r.isPaused == g.isPaused && r.isGameOver == g.isGameOver
  {
    g.(player1 := g.player1.(bullets := Survivors(g.player1.bullets, g.player2, canvasWidth)),
       player2 := g.player2.(health := g.player2.health - DAMAGE * HitCount(g.player1.bullets, g.player2)))
  }

  /** Player 2's bullet loop: its bullets advance and Player 1 is hit where it stands. */
  function Player2Volley(g: State, canvasWidth: int): (r: State)
    ensures r.player2.(bullets := g.player2.bullets) == g.player2
    ensures r.player1.(health := g.player1.health) == g.player1
    ensures r.player1.health <= g.player1.health
    ensures r.keys == g.keys && r.isPaused == g.isPaused && r.isGameOver == g.isGameOver
  {
    g.(player2 := g.player2.(bullets := Survivors(g.player2.bullets, g.player1, canvasWidth)),
       player1 := g.player1.(health := g.player1.health - DAMAGE * HitCount(g.player2.bullets, g.player1)))
  }

  /** The game ends once either player's health is used up. */
  function GameOverCheck(g: State): (r: State)
    ensures r.isGameOver <==> g.isGameOver || g.player1.health <= 0 || g.player2.health <= 0
    ensures r.(isGameOver := g.isGameOver) == g
  {
    if g.player1.health <= 0 || g.player2.health <= 0 then g.(isGameOver := true) else g
  }

  /**
   * One call of the game loop with the drawing removed. Nothing happens
   * while paused or over. Otherwise both players move, Player 1's bullets
   * are processed against Player 2, then Player 2's against Player 1, and
   * the game ends when either health is used up.
   */
  function Frame(g: State, canvasWidth: int, canvasHeight: int): (r: State)
    ensures !Running(g) ==> r == g
    ensures r.keys == g.keys && r.isPaused == g.isPaused
    ensures r.player1.x == g.player1.x && r.player2.x == g.player2.x
    ensures r.player1.health <= g.player1.health && r.player2.health <= g.player2.health
    ensures Running(g) ==> (r.isGameOver <==> r.player1.health <= 0 || r.player2.health <= 0)
  {
    if !Running(g) then g
    else GameOverCheck(Player2Volley(Player1Volley(Moved(g, canvasHeight), canvasWidth), canvasWidth))
  }

  /** Restart: both players rebuilt as at game start, both flags cleared, keys kept. */
  function Restarted(g: State, canvasWidth: int, canvasHeight: int): (r: State)
    requires canvasHeight % 2 == 0
    ensures Running(r) && r.keys == g.keys
    ensures r.player1 == Start(canvasWidth, canvasHeight).player1
    ensures r.player2 == Start(canvasWidth, canvasHeight).player2
  {
    var ps := InitialPlayers(canvasWidth, canvasHeight);
    g.(player1 := ps.0, player2 := ps.1, isGameOver := false, isPaused := false)
  }

  /** The bullet Player 1 fires: from its right edge, at half its height, flying right. */
  function Player1Shot(p: Player): (b: Bullet)
    ensures b.x == p.x + p.width && b.direction == 1
    ensures p.height % 2 == 0 ==> 2 * (b.y - p.y) == p.height
  {
    Bullet(p.x + p.width, p.y + p.height / 2, 1)
  }

  /** The bullet Player 2 fires: from its left edge, at half its height, flying left. */
  function Player2Shot(p: Player): (b: Bullet)
    ensures b.x == p.x && b.direction == -1
    ensures p.height % 2 == 0 ==> 2 * (b.y - p.y) == p.height
  {
    Bullet(p.x, p.y + p.height / 2, -1)
  }

  /** A character lower-cased: the Latin capitals A to Z become a to z, all else is kept. */
  function LowerChar(c: char): char
  {
    if 'A' <= c <= 'Z' then (c as int - 'A' as int + 'a' as int) as char else c
  }

  /** A key name lower-cased character by character. */
  function LowerCase(s: string): (r: string)
    ensures |r| == |s| && forall i :: 0 <= i < |s| ==> r[i] == LowerChar(s[i])
  {
    seq(|s|, i requires 0 <= i < |s| => LowerChar(s[i]))
  }

  /** The key lower-cases to the one small letter `c`: exactly `c` or its capital. */
  function LowersTo(key: string, c: char): (b: bool)
    requires 'a' <= c <= 'z'
    ensures b <==> key == [c] || key == [(c as int - 'a' as int + 'A' as int) as char]
  {
    var lower := LowerCase(key);
    assert |lower| == 1 ==> lower == [lower[0]];
    assert |key| == 1 ==> key == [key[0]];
    lower == [c]
  }

  /** The pause key: exactly p and P. */
  function IsPauseKey(key: string): (b: bool)
    ensures b <==> key == "p" || key == "P"
  {
    LowersTo(key, 'p')
  }

  /** The restart key: exactly r and R. */
  function IsRestartKey(key: string): (b: bool)
    ensures b <==> key == "r" || key == "R"
  {
    LowersTo(key, 'r')
  }

  /**
   * The key-down handler. The pause key toggles pausing in any state and,
   * on resuming, runs one frame at once; the restart key restarts and runs
   * one frame at once. Any other key is ignored while paused or over;
   * otherwise a movement key is marked held, "d" makes Player 1 fire and
   * "ArrowLeft" makes Player 2 fire.
   */
  function KeyDown(g: State, key: string, canvasWidth: int, canvasHeight: int): (r: State)
    requires canvasHeight % 2 == 0
    ensures IsPauseKey(key) ==> r.isPaused == !g.isPaused
    ensures !IsPauseKey(key) && !IsRestartKey(key) ==> r.isPaused == g.isPaused && r.isGameOver == g.isGameOver
  {
    if IsPauseKey(key) then
      var toggled := g.(isPaused := !g.isPaused);
      if toggled.isPaused then toggled else Frame(toggled, canvasWidth, canvasHeight)
    else if IsRestartKey(key) then
      Frame(Restarted(g, canvasWidth, canvasHeight), canvasWidth, canvasHeight)
    else if g.isPaused || g.isGameOver then g
    else
      var marked := if key in g.keys then g.(keys := g.keys[key := true]) else g;
      var fired1 := if key == "d" then
                      marked.(player1 := marked.player1.(bullets := marked.player1.bullets + [Player1Shot(marked.player1)]))
                    else marked;
      if key == "ArrowLeft" then
        fired1.(player2 := fired1.player2.(bullets := fired1.player2.bullets + [Player2Shot(fired1.player2)]))
      else fired1
  }

  /** The key-up handler: a tracked key is marked released, in any state. */
  function KeyUp(g: State, key: string): (r: State)
    ensures !Held(r.keys, key)
    ensures r.keys.Keys == g.keys.Keys
    ensures forall k :: k != key ==> (Held(r.keys, k) <==> Held(g.keys, k))
    ensures r.(keys := g.keys) == g
  {
    if key in g.keys then g.(keys := g.keys[key := false]) else g
  }

  datatype Side = Player1 | Player2

  /** The side announced as winner once the game is over. */
  function Winner(g: State): (w: Side)
    requires g.player1.health <= 0 || g.player2.health <= 0
    ensures w == Player1 ==> g.player2.health <= 0 < g.player1.health
    ensures w == Player2 ==> g.player1.health <= 0
  {
    if g.player1.health <= 0 then Player2 else Player1
  }

  // ---------------------------------------------------------------------
  // Bullet outcomes depend only on where the target stands

  predicate SameRect(a: Player, b: Player)
  {
    a.x == b.x && a.y == b.y && a.width == b.width && a.height == b.height
  }

  lemma {:induction false} SameRectSameOutcome(bullets: seq<Bullet>, t1: Player, t2: Player, canvasWidth: int)
    requires SameRect(t1, t2)
    ensures Survivors(bullets, t1, canvasWidth) == Survivors(bullets, t2, canvasWidth)
    ensures HitCount(bullets, t1) == HitCount(bullets, t2)
  {
    if bullets != [] {
      SameRectSameOutcome(bullets[1..], t1, t2, canvasWidth);
    }
  }

  // ---------------------------------------------------------------------
  // Frame

  /**
   * In a running frame, each player's bullets are tested against the
   * opponent where it stands after this frame's move: the survivors are
   * those of that test, and the opponent loses DAMAGE per hit.
   */
  lemma FrameBullets(g: State, canvasWidth: int, canvasHeight: int)
    requires Running(g)
    ensures var r := Frame(g, canvasWidth, canvasHeight);
            && r.player1.bullets == Survivors(g.player1.bullets, r.player2, canvasWidth)
            && r.player2.bullets == Survivors(g.player2.bullets, r.player1, canvasWidth)
            && r.player2.health == g.player2.health - DAMAGE * HitCount(g.player1.bullets, r.player2)
            && r.player1.health == g.player1.health - DAMAGE * HitCount(g.player2.bullets, r.player1)
  {
    var r := Frame(g, canvasWidth, canvasHeight);
    var m := Moved(g, canvasHeight);
    var v1 := Player1Volley(m, canvasWidth);
    SameRectSameOutcome(g.player1.bullets, m.player2, r.player2, canvasWidth);
    SameRectSameOutcome(g.player2.bullets, v1.player1, r.player1, canvasWidth);
  }

  /** In a running frame, each player moves as its held keys and the guards allow. */
  lemma FrameMovement(g: State, canvasWidth: int, canvasHeight: int)
    requires Running(g)
    ensures var r := Frame(g, canvasWidth, canvasHeight);
            && r.player1.y == MoveVertical(g.player1, Held(g.keys, "w"), Held(g.keys, "s"), canvasHeight).y
            && r.player2.y == MoveVertical(g.player2, Held(g.keys, "ArrowUp"), Held(g.keys, "ArrowDown"), canvasHeight).y
  {
  }

  /** After a frame, every bullet still in flight is on the canvas. */
  lemma FrameBulletsOnScreen(g: State, canvasWidth: int, canvasHeight: int)
    requires Running(g)
    ensures var r := Frame(g, canvasWidth, canvasHeight);
            forall b :: b in r.player1.bullets + r.player2.bullets ==> 0 <= b.x <= canvasWidth
  {
    var r := Frame(g, canvasWidth, canvasHeight);
    FrameBullets(g, canvasWidth, canvasHeight);
    SurvivorsOnScreen(g.player1.bullets, r.player2, canvasWidth);
    SurvivorsOnScreen(g.player2.bullets, r.player1, canvasWidth);
  }

  lemma FrameKeepsInv(g: State, canvasWidth: int, canvasHeight: int)
    requires Inv(g)
    ensures Inv(Frame(g, canvasWidth, canvasHeight))
  {
    if Running(g) {
      var r := Frame(g, canvasWidth, canvasHeight);
      FrameBullets(g, canvasWidth, canvasHeight);
      SurvivorsKeepDirection(g.player1.bullets, r.player2, canvasWidth, 1);
      SurvivorsKeepDirection(g.player2.bullets, r.player1, canvasWidth, -1);
      var h1 := HitCount(g.player2.bullets, r.player1);
      var h2 := HitCount(g.player1.bullets, r.player2);
      assert r.player1.health == g.player1.health - DAMAGE * h1;
      assert r.player2.health == g.player2.health - DAMAGE * h2;
    }
  }

  /**
   * Hits that use up Player 1's health end the game, and Player 2 is
   * announced as winner, even when Player 2 is knocked out in the same frame.
   */
  lemma KnockOutOfPlayer1(g: State, canvasWidth: int, canvasHeight: int)
    requires Running(g)
    requires var r := Frame(g, canvasWidth, canvasHeight);
             DAMAGE * HitCount(g.player2.bullets, r.player1) >= g.player1.health
    ensures var r := Frame(g, canvasWidth, canvasHeight);
            r.isGameOver && Winner(r) == Player2
  {
    FrameBullets(g, canvasWidth, canvasHeight);
  }

  /** Hits that use up Player 2's health while Player 1 keeps some end the game in Player 1's favour. */
  lemma KnockOutOfPlayer2(g: State, canvasWidth: int, canvasHeight: int)
    requires Running(g)
    requires var r := Frame(g, canvasWidth, canvasHeight);
             && DAMAGE * HitCount(g.player1.bullets, r.player2) >= g.player2.health
             && DAMAGE * HitCount(g.player2.bullets, r.player1) < g.player1.health
    ensures var r := Frame(g, canvasWidth, canvasHeight);
            r.isGameOver && Winner(r) == Player1
  {
    FrameBullets(g, canvasWidth, canvasHeight);
  }

  /**
   * Several hits in one frame take health more than one DAMAGE below zero:
   * three bullets arriving together at a player with 10 health leave it at -20.
   */
  lemma HealthCanOvershoot()
    ensures var p1 := Player(50, 200, 30, 50, 5, 100, [Bullet(710, 225, 1), Bullet(710, 225, 1), Bullet(710, 225, 1)]);
            var p2 := Player(720, 200, 30, 50, 5, 10, []);
            var g := State(p1, p2, InitialKeys(), false, false);
            Frame(g, 800, 400).player2.health == -20
  {
  }

  // ---------------------------------------------------------------------
  // Input and restart

  /** The pause key pauses, leaving everything else as it was, or resumes and runs one frame. */
  lemma PauseKey(g: State, key: string, canvasWidth: int, canvasHeight: int)
    requires canvasHeight % 2 == 0 && IsPauseKey(key)
    ensures var r := KeyDown(g, key, canvasWidth, canvasHeight);
            if g.isPaused then r == Frame(g.(isPaused := false), canvasWidth, canvasHeight)
            else r == g.(isPaused := true)
  {
  }

  /** While paused or over, every key but pause and restart leaves the session as it is. */
  lemma FrozenIgnoresKeys(g: State, key: string, canvasWidth: int, canvasHeight: int)
    requires canvasHeight % 2 == 0 && !Running(g)
    requires !IsPauseKey(key) && !IsRestartKey(key)
    ensures KeyDown(g, key, canvasWidth, canvasHeight) == g
    ensures Frame(g, canvasWidth, canvasHeight) == g
  {
  }

  /** While running, a movement key is marked held and nothing else changes. */
  lemma MoveKeyMarksHeld(g: State, key: string, canvasWidth: int, canvasHeight: int)
    requires canvasHeight % 2 == 0 && Running(g) && g.keys.Keys == MOVE_KEYS && key in MOVE_KEYS
    ensures var r := KeyDown(g, key, canvasWidth, canvasHeight);
            && Held(r.keys, key) && r.keys.Keys == MOVE_KEYS
            && (forall k :: k != key ==> (Held(r.keys, k) <==> Held(g.keys, k)))
            && r.(keys := g.keys) == g
  {
  }

  /** While running, "d" appends exactly one rightward bullet to Player 1's list and changes nothing else. */
  lemma Player1Fires(g: State, canvasWidth: int, canvasHeight: int)
    requires canvasHeight % 2 == 0 && Running(g) && g.keys.Keys == MOVE_KEYS
    ensures var r := KeyDown(g, "d", canvasWidth, canvasHeight);
            && r.player1.bullets == g.player1.bullets + [Bullet(g.player1.x + g.player1.width, g.player1.y + g.player1.height / 2, 1)]
            && r.player1.(bullets := g.player1.bullets) == g.player1
            && r.(player1 := g.player1) == g
  {
    assert "d" !in MOVE_KEYS;
  }

  /** While running, "ArrowLeft" appends exactly one leftward bullet to Player 2's list and changes nothing else. */
  lemma Player2Fires(g: State, canvasWidth: int, canvasHeight: int)
    requires canvasHeight % 2 == 0 && Running(g) && g.keys.Keys == MOVE_KEYS
    ensures var r := KeyDown(g, "ArrowLeft", canvasWidth, canvasHeight);
            && r.player2.bullets == g.player2.bullets + [Bullet(g.player2.x, g.player2.y + g.player2.height / 2, -1)]
            && r.player2.(bullets := g.player2.bullets) == g.player2
            && r.(player2 := g.player2) == g
  {
    assert "ArrowLeft" !in MOVE_KEYS;
  }

  /**
   * The restart key, in any state, leaves a running game with both players
   * at full health and without bullets, at their start columns, and keeps
   * the held keys. (The frame run at once may move the players vertically.)
   */
  lemma RestartKey(g: State, key: string, canvasWidth: int, canvasHeight: int)
    requires canvasHeight % 2 == 0 && IsRestartKey(key)
    ensures var r := KeyDown(g, key, canvasWidth, canvasHeight);
            && r == Frame(Restarted(g, canvasWidth, canvasHeight), canvasWidth, canvasHeight)
            && Running(r) && r.keys == g.keys
            && r.player1.health == FULL_HEALTH && r.player2.health == FULL_HEALTH
            && r.player1.bullets == [] && r.player2.bullets == []
            && r.player1.x == EDGE_MARGIN && r.player2.x + r.player2.width == canvasWidth - EDGE_MARGIN
  {
  }

  /** While running, a key that is neither tracked nor a command leaves the session unchanged. */
  lemma UnrelatedKeyIgnored(g: State, key: string, canvasWidth: int, canvasHeight: int)
    requires canvasHeight % 2 == 0 && Running(g)
    requires key !in g.keys && key != "d" && key != "ArrowLeft"
    requires !IsPauseKey(key) && !IsRestartKey(key)
    ensures KeyDown(g, key, canvasWidth, canvasHeight) == g
  {
  }

  /** Restart discards the whole game played so far: two sessions with the same keys restart alike. */
  lemma RestartForgetsGame(g1: State, g2: State, canvasWidth: int, canvasHeight: int)
    requires canvasHeight % 2 == 0 && g1.keys == g2.keys
    ensures Restarted(g1, canvasWidth, canvasHeight) == Restarted(g2, canvasWidth, canvasHeight)
  {
  }

  /** Restart gives full health, no bullets, the start positions, and keeps the held keys. */
  lemma RestartResets(g: State, canvasWidth: int, canvasHeight: int)
    requires canvasHeight % 2 == 0
    ensures var r := Restarted(g, canvasWidth, canvasHeight);
            && r.player1.health == FULL_HEALTH && r.player2.health == FULL_HEALTH
            && r.player1.bullets == [] && r.player2.bullets == []
            && r.player1.x == EDGE_MARGIN && 2 * r.player1.y == canvasHeight
            && r.player2.y == r.player1.y && r.player2.x + r.player2.width == canvasWidth - EDGE_MARGIN
            && r.keys == g.keys && Running(r)
  {
  }

  /** Health never rises during play: only restart restores it. */
  lemma OnlyRestartHeals(g: State, key: string, canvasWidth: int, canvasHeight: int)
    requires canvasHeight % 2 == 0 && !IsRestartKey(key)
    ensures var r := KeyDown(g, key, canvasWidth, canvasHeight);
            r.player1.health <= g.player1.health && r.player2.health <= g.player2.health
    ensures KeyUp(g, key).player1.health == g.player1.health
    ensures KeyUp(g, key).player2.health == g.player2.health
  {
  }

  lemma KeyDownKeepsInv(g: State, key: string, canvasWidth: int, canvasHeight: int)
    requires canvasHeight % 2 == 0 && Inv(g)
    ensures Inv(KeyDown(g, key, canvasWidth, canvasHeight))
  {
    if IsPauseKey(key) {
      FrameKeepsInv(g.(isPaused := !g.isPaused), canvasWidth, canvasHeight);
    } else if IsRestartKey(key) {
      var s := Restarted(g, canvasWidth, canvasHeight);
      assert Inv(s);
      FrameKeepsInv(s, canvasWidth, canvasHeight);
    }
  }

  lemma KeyUpKeepsInv(g: State, key: string)
    requires Inv(g)
    ensures Inv(KeyUp(g, key))
  {
  }
}
