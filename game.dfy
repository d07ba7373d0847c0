/**
 * The game session as the program keeps it: mutable fields for the two
 * players, the held-key table and the pause and game-over flags, updated in
 * place by the game loop and the key handlers. Each method is proved to
 * follow the corresponding transition of module Lifecycle and to keep its
 * invariant.
 */
module Game {
  import opened Entities
  import opened Bullets
  import opened Lifecycle

  class Session {
    const canvasWidth: int
    const canvasHeight: int
    var player1: Player
    var player2: Player
    /** Held state of the movement keys, by key name. */
    var keys: map<string, bool>
    var isPaused: bool
    var isGameOver: bool

    /** The fields as one value. */
    ghost function Snapshot(): State
      reads this
    {
      State(player1, player2, keys, isPaused, isGameOver)
    }

    ghost predicate Valid()
      reads this
    {
      canvasHeight % 2 == 0 && Inv(Snapshot())
    }

    /** Page load: players built, no key held, neither paused nor over. */
    constructor (width: int, height: int)
      requires height % 2 == 0
      ensures canvasWidth == width && canvasHeight == height
      ensures Valid() && Snapshot() == Start(width, height)
    {
      canvasWidth, canvasHeight := width, height;
      var ps := InitialPlayers(width, height);
      player1, player2 := ps.0, ps.1;
      keys := InitialKeys();
      isGameOver, isPaused := false, false;
    }

    /** One call of the game loop, without its drawing. */
    method GameLoop()
      requires Valid()
      modifies this
      ensures Valid() && Snapshot() == Frame(old(Snapshot()), canvasWidth, canvasHeight)
    {
      FrameKeepsInv(Snapshot(), canvasWidth, canvasHeight);
      if isPaused || isGameOver {
        return;
      }
      MovePlayers();
      Player1BulletLoop();
      Player2BulletLoop();
      CheckGameOver();
    }

    /** Each player moves by its speed while its key is held and the guard allows. */
    method MovePlayers()
      modifies this
      ensures Snapshot() == Moved(old(Snapshot()), canvasHeight)
    {
      if Held(keys, "w") && player1.y > 0 {
        player1 := player1.(y := player1.y - player1.speed);
      }
      if Held(keys, "s") && player1.y < canvasHeight - player1.height {
        player1 := player1.(y := player1.y + player1.speed);
      }
      if Held(keys, "ArrowUp") && player2.y > 0 {
        player2 := player2.(y := player2.y - player2.speed);
      }
      if Held(keys, "ArrowDown") && player2.y < canvasHeight - player2.height {
        player2 := player2.(y := player2.y + player2.speed);
      }
    }

    /** Player 1's bullets advance; hits cost Player 2 health. */
    method Player1BulletLoop()
      modifies this
      ensures Snapshot() == Player1Volley(old(Snapshot()), canvasWidth)
    {
      var kept, health := ProcessBullets(player1.bullets, player2, canvasWidth);
      player1 := player1.(bullets := kept);
      player2 := player2.(health := health);
    }

    /** Player 2's bullets advance; hits cost Player 1 health. */
    method Player2BulletLoop()
      modifies this
      ensures Snapshot() == Player2Volley(old(Snapshot()), canvasWidth)
    {
      var kept, health := ProcessBullets(player2.bullets, player1, canvasWidth);
      player2 := player2.(bullets := kept);
      player1 := player1.(health := health);
    }

    /** The game is over once either health is used up. */
    method CheckGameOver()
      modifies this
      ensures Snapshot() == GameOverCheck(old(Snapshot()))
    {
      if player1.health <= 0 || player2.health <= 0 {
        isGameOver := true;
      }
    }

    /** Restart: players rebuilt, both flags cleared, then one frame at once. */
    method RestartGame()
      requires Valid()
      modifies this
      ensures Valid()
      ensures Snapshot() == Frame(Restarted(old(Snapshot()), canvasWidth, canvasHeight), canvasWidth, canvasHeight)
    {
      var ps := InitialPlayers(canvasWidth, canvasHeight);
      player1, player2 := ps.0, ps.1;
      isGameOver := false;
      isPaused := false;
      GameLoop();
    }

    /** The key-down handler. */
    method OnKeyDown(key: string)
      requires Valid()
      modifies this
      ensures Valid() && Snapshot() == KeyDown(old(Snapshot()), key, canvasWidth, canvasHeight)
    {
      if IsPauseKey(key) {
        isPaused := !isPaused;
        if !isPaused {
          GameLoop();
        }
        return;
      }

      if IsRestartKey(key) {
        RestartGame();
        return;
      }

      if isPaused || isGameOver {
        return;
      }

      if key in keys {
        keys := keys[key := true];
      }
      if key == "d" {
        player1 := player1.(bullets := player1.bullets + [Player1Shot(player1)]);
      }
      if key == "ArrowLeft" {
        player2 := player2.(bullets := player2.bullets + [Player2Shot(player2)]);
      }
    }

    /** The key-up handler. */
    method OnKeyUp(key: string)
      requires Valid()
      modifies this
      ensures Valid() && Snapshot() == KeyUp(old(Snapshot()), key)
    {
      if key in keys {
        keys := keys[key := false];
      }
    }
  }
}
