/** The level's game manager (`GameManagerScript`): pausing and resuming on
    Escape (refused during a conversation and after the game is over or the
    level complete), the game-over and level-complete latches that freeze the
    player, and the cursor shown exactly while a menu is up. The delayed
    second halves of game over and level complete (a coroutine that waits,
    stops time and shows the screen) are separate steps here. Music, sounds,
    scene loading and the fade animation are not modelled. */
module GameManager {
  import opened Common
  import PlayerMovement

  /** The manager's flags, the time scale and the `activeSelf` flags of the
      three menus (`None` for a menu that is not assigned). */
  datatype Screen = Screen(
    isPaused: bool, isGameOver: bool, isLevelComplete: bool, timeScale: real,
    gameOverUI: Option<bool>, levelCompleteUI: Option<bool>, pauseMenuUI: Option<bool>)

  /** What a step asks of the player's movement script, when there is one. */
  datatype PlayerRequest = NoRequest | Freeze | Unfreeze

  function IsUp(menu: Option<bool>): bool {
    menu == Some(true)
  }

  /** `UpdateCursorState`: the cursor shows exactly while a menu is up. */
  function ShowCursor(s: Screen): (show: bool)
    ensures show <==> IsUp(s.gameOverUI) || IsUp(s.levelCompleteUI) || IsUp(s.pauseMenuUI)
  {
    s.gameOverUI == Some(true) || s.levelCompleteUI == Some(true) || s.pauseMenuUI == Some(true)
  }

  /** `Start`: time runs. */
  function Started(s: Screen): (r: Screen)
    ensures r.timeScale == 1.0 && r.(timeScale := s.timeScale) == s
  {
    s.(timeScale := 1.0)
  }

  /** `PauseGame` */
  function Pause(s: Screen): (r: (Screen, PlayerRequest))
    ensures s.isPaused ==> r == (s, NoRequest)
    ensures !s.isPaused ==> r.0.isPaused && r.0.timeScale == 0.0 && r.1 == Freeze
    ensures !s.isPaused ==> r.0.pauseMenuUI == SetIfAssigned(s.pauseMenuUI, true)
    ensures r.0.(isPaused := s.isPaused, timeScale := s.timeScale, pauseMenuUI := s.pauseMenuUI) == s
  {
    if s.isPaused then (s, NoRequest)
    else (s.(isPaused := true, pauseMenuUI := SetIfAssigned(s.pauseMenuUI, true), timeScale := 0.0), Freeze)
  }

  /** `ResumeGame` */
  function Resume(s: Screen): (r: (Screen, PlayerRequest))
    ensures !s.isPaused ==> r == (s, NoRequest)
    ensures s.isPaused ==> !r.0.isPaused && r.0.timeScale == 1.0 && r.1 == Unfreeze
    ensures s.isPaused ==> r.0.pauseMenuUI == SetIfAssigned(s.pauseMenuUI, false)
    ensures r.0.(isPaused := s.isPaused, timeScale := s.timeScale, pauseMenuUI := s.pauseMenuUI) == s
  {
    if !s.isPaused then (s, NoRequest)
    else (s.(isPaused := false, pauseMenuUI := SetIfAssigned(s.pauseMenuUI, false), timeScale := 1.0), Unfreeze)
  }

  /** Pausing a running game and resuming it gives the game back as it was. */
  lemma PauseThenResume(s: Screen)
    requires !s.isPaused && s.timeScale == 1.0 && !IsUp(s.pauseMenuUI)
    ensures Resume(Pause(s).0) == (s, Unfreeze)
    ensures Pause(s).1 == Freeze
  {
    if s.pauseMenuUI.Some? {
      assert s.pauseMenuUI != Some(true);
      assert !s.pauseMenuUI.value;
    }
  }

  /** Pausing and resuming are idempotent. */
  lemma PauseResumeIdempotent(s: Screen)
    ensures Pause(Pause(s).0) == (Pause(s).0, NoRequest)
    ensures Resume(Resume(s).0) == (Resume(s).0, NoRequest)
  {
  }

  /** `gameOver`: the first call latches and freezes the player; the screen
      comes later (`GameOverShown`). */
  function EndGame(s: Screen): (r: (Screen, PlayerRequest))
    ensures r.0.isGameOver && r.0.(isGameOver := s.isGameOver) == s
    ensures r.1 == (if s.isGameOver then NoRequest else Freeze)
  {
    if s.isGameOver then (s, NoRequest) else (s.(isGameOver := true), Freeze)
  }

  /** The end of `GameOverSequence`, three seconds later. */
  function GameOverShown(s: Screen): (r: Screen)
    ensures r.timeScale == 0.0 && (s.gameOverUI.Some? ==> IsUp(r.gameOverUI) && ShowCursor(r))
    ensures r.gameOverUI.Some? == s.gameOverUI.Some?
    ensures r.(timeScale := s.timeScale, gameOverUI := s.gameOverUI) == s
  {
    s.(timeScale := 0.0, gameOverUI := SetIfAssigned(s.gameOverUI, true))
  }

  /** `levelComplete`: the first call latches and freezes the player. */
  function CompleteLevel(s: Screen): (r: (Screen, PlayerRequest))
    ensures r.0.isLevelComplete && r.0.(isLevelComplete := s.isLevelComplete) == s
    ensures r.1 == (if s.isLevelComplete then NoRequest else Freeze)
  {
    if s.isLevelComplete then (s, NoRequest) else (s.(isLevelComplete := true), Freeze)
  }

  /** The end of `LevelCompleteSequence`, a second later. */
  function LevelCompleteShown(s: Screen): (r: Screen)
    ensures r.timeScale == 0.0 && (s.levelCompleteUI.Some? ==> IsUp(r.levelCompleteUI) && ShowCursor(r))
    ensures r.levelCompleteUI.Some? == s.levelCompleteUI.Some?
    ensures r.(timeScale := s.timeScale, levelCompleteUI := s.levelCompleteUI) == s
  {
    s.(timeScale := 0.0, levelCompleteUI := SetIfAssigned(s.levelCompleteUI, true))
  }

  /** A second `gameOver` or `levelComplete` does nothing, and starts no second
      sequence. */
  lemma EndingsIdempotent(s: Screen)
    ensures EndGame(EndGame(s).0) == (EndGame(s).0, NoRequest)
    ensures CompleteLevel(CompleteLevel(s).0) == (CompleteLevel(s).0, NoRequest)
  {
  }

  /** What a press of Escape does in `HandlePauseInput`. */
  datatype PauseOutcome = Refused | Toggled | Ignored

  /** `HandlePauseInput` for a frame, given whether Escape went down and
      whether a conversation is running: the new screen, the request to the
      player, and what became of the key. */
  function PauseInput(s: Screen, escape: bool, inConversation: bool): (r: (Screen, PlayerRequest, PauseOutcome))
  {
    if escape && inConversation then (s, NoRequest, Refused)
    else if escape && !s.isGameOver && !s.isLevelComplete then
      var t := if s.isPaused then Resume(s) else Pause(s);
      (t.0, t.1, Toggled)
    else (s, NoRequest, Ignored)
  }

  /** Escape during a conversation never changes anything. */
  lemma ConversationBlocksPause(s: Screen)
    ensures PauseInput(s, true, true) == (s, NoRequest, Refused)
  {
  }

  /** Outside conversations, Escape flips the pause state exactly when the
      game is neither over nor complete, and otherwise changes nothing. */
  lemma EscapeToggles(s: Screen, escape: bool)
    ensures var r := PauseInput(s, escape, false);
      && (escape && !s.isGameOver && !s.isLevelComplete ==>
            r.0.isPaused == !s.isPaused && r.2 == Toggled
            && r.0.timeScale == (if s.isPaused then 1.0 else 0.0)
            && r.1 == (if s.isPaused then Unfreeze else Freeze))
      && (!escape || s.isGameOver || s.isLevelComplete ==> r == (s, NoRequest, Ignored))
  {
  }

  /** A game that is over or complete stays so, and stays paused or unpaused,
      whatever keys are pressed. */
  lemma EndedIgnoresEscape(s: Screen, escape: bool, inConversation: bool)
    requires s.isGameOver || s.isLevelComplete
    ensures PauseInput(s, escape, inConversation).0 == s
  {
  }

  /** `GameManagerScript`. */
  class GameManagerScript {
    var isPaused: bool
    var isGameOver: bool
    var isLevelComplete: bool
    var timeScale: real
    var gameOverUI: Option<bool>
    var levelCompleteUI: Option<bool>
    var pauseMenuUI: Option<bool>
    /** `playerMovement`, which may be unassigned. */
    const player: PlayerMovement.PlayerMovementFreeLook?
    const cursor: PlayerMovement.Cursor

    /** The player's movement script, when it is assigned. */
    ghost function PlayerSet(): set<PlayerMovement.PlayerMovementFreeLook>
      reads this
    {
      if player != null then {player} else {}
    }

    /** The player's `canMove` after request `r` was carried out: frozen or
        free as asked, or as it was when nothing was asked. */
    twostate predicate MovementAfter(r: PlayerRequest)
      reads this, player
    {
      player != null ==> player.canMove == (if r == NoRequest then old(player.canMove) else r == Unfreeze)
    }

    /** The cursor after request `r` was carried out: released for a freeze,
        captured for an unfreeze, untouched when nothing was asked or there
        is no player. */
    twostate predicate CursorAfter(r: PlayerRequest)
      reads this, cursor
    {
      && (player != null && r == Freeze ==> cursor.visible && !cursor.locked)
      && (player != null && r == Unfreeze ==> !cursor.visible && cursor.locked)
      && (player == null || r == NoRequest ==> unchanged(cursor))
    }

    function Current(): Screen
      reads this
    {
      Screen(isPaused, isGameOver, isLevelComplete, timeScale, gameOverUI, levelCompleteUI, pauseMenuUI)
    }

    /** The field initialisers. */
    constructor (gameOverUI: Option<bool>, levelCompleteUI: Option<bool>, pauseMenuUI: Option<bool>,
                 timeScale: real, player: PlayerMovement.PlayerMovementFreeLook?, cursor: PlayerMovement.Cursor)
      ensures Current() == Screen(false, false, false, timeScale, gameOverUI, levelCompleteUI, pauseMenuUI)
      ensures this.player == player && this.cursor == cursor
    {
      isPaused, isGameOver, isLevelComplete := false, false, false;
      this.timeScale := timeScale;
      this.gameOverUI, this.levelCompleteUI, this.pauseMenuUI := gameOverUI, levelCompleteUI, pauseMenuUI;
      this.player, this.cursor := player, cursor;
    }

    /** `Start`: the cursor is hidden and captured and time runs. */
    method Start()
      modifies this`timeScale, cursor
      ensures Current() == Started(old(Current()))
      ensures !cursor.visible && cursor.locked
    {
      cursor.visible := false;
      cursor.locked := true;
      timeScale := 1.0;
    }

    /** Carries out a request on the player, if there is one. */
    method Request(r: PlayerRequest)
      modifies PlayerSet()`canMove, cursor
      ensures MovementAfter(r) && CursorAfter(r)
    {
      if player != null {
        match r {
          case NoRequest =>
          case Freeze => player.FreezeMovement(cursor);
          case Unfreeze => player.UnfreezeMovement(cursor);
        }
      }
    }

    /** `PauseGame` */
    method PauseGame()
      modifies this`isPaused, this`pauseMenuUI, this`timeScale, PlayerSet()`canMove, cursor
      ensures Current() == Pause(old(Current())).0
      ensures MovementAfter(Pause(old(Current())).1) && CursorAfter(Pause(old(Current())).1)
    {
      if isPaused {
        return;
      }
      isPaused := true;
      pauseMenuUI := SetIfAssigned(pauseMenuUI, true);
      timeScale := 0.0;
      Request(Freeze);
    }

    /** `ResumeGame` */
    method ResumeGame()
      modifies this`isPaused, this`pauseMenuUI, this`timeScale, PlayerSet()`canMove, cursor
      ensures Current() == Resume(old(Current())).0
      ensures MovementAfter(Resume(old(Current())).1) && CursorAfter(Resume(old(Current())).1)
    {
      if !isPaused {
        return;
      }
      isPaused := false;
      pauseMenuUI := SetIfAssigned(pauseMenuUI, false);
      timeScale := 1.0;
      Request(Unfreeze);
    }

    /** `gameOver` */
    method GameOver()
      modifies this`isGameOver, PlayerSet()`canMove, cursor
      ensures Current() == EndGame(old(Current())).0
      ensures MovementAfter(EndGame(old(Current())).1) && CursorAfter(EndGame(old(Current())).1)
    {
      if isGameOver {
        return;
      }
      isGameOver := true;
      Request(Freeze);
    }

    /** The end of `GameOverSequence`. */
    method FinishGameOverSequence()
      modifies this`timeScale, this`gameOverUI
      ensures Current() == GameOverShown(old(Current()))
    {
      timeScale := 0.0;
      gameOverUI := SetIfAssigned(gameOverUI, true);
    }

    /** `levelComplete` */
    method LevelComplete()
      modifies this`isLevelComplete, PlayerSet()`canMove, cursor
      ensures Current() == CompleteLevel(old(Current())).0
      ensures MovementAfter(CompleteLevel(old(Current())).1) && CursorAfter(CompleteLevel(old(Current())).1)
    {
      if isLevelComplete {
        return;
      }
      isLevelComplete := true;
      Request(Freeze);
    }

    /** The end of `LevelCompleteSequence`. */
    method FinishLevelCompleteSequence()
      modifies this`timeScale, this`levelCompleteUI
      ensures Current() == LevelCompleteShown(old(Current()))
    {
      timeScale := 0.0;
      levelCompleteUI := SetIfAssigned(levelCompleteUI, true);
    }

    /** `HandlePauseInput`; returns what became of the key. */
    method HandlePauseInput(escape: bool, inConversation: bool) returns (outcome: PauseOutcome)
      modifies this`isPaused, this`pauseMenuUI, this`timeScale, PlayerSet()`canMove, cursor
      ensures (Current(), outcome) == (PauseInput(old(Current()), escape, inConversation).0, PauseInput(old(Current()), escape, inConversation).2)
      ensures MovementAfter(PauseInput(old(Current()), escape, inConversation).1)
      ensures CursorAfter(PauseInput(old(Current()), escape, inConversation).1)
    {
      if escape && inConversation {
        return Refused;
      }
      outcome := Ignored;
      if escape && !isGameOver && !isLevelComplete {
        if isPaused {
          ResumeGame();
        } else {
          PauseGame();
        }
        outcome := Toggled;
      }
    }

    /** `UpdateCursorState` */
    method UpdateCursorState()
      modifies cursor
      ensures cursor.visible == ShowCursor(Current()) && cursor.locked == !ShowCursor(Current())
    {
      var show := gameOverUI == Some(true) || levelCompleteUI == Some(true) || pauseMenuUI == Some(true);
      cursor.visible := show;
      cursor.locked := !show;
    }

    /** `Update`: the pause key, then the cursor. After every frame the cursor
        is visible and free exactly while a menu is up. */
    method Update(escape: bool, inConversation: bool) returns (outcome: PauseOutcome)
      modifies this`isPaused, this`pauseMenuUI, this`timeScale, PlayerSet()`canMove, cursor
      ensures (Current(), outcome) == (PauseInput(old(Current()), escape, inConversation).0, PauseInput(old(Current()), escape, inConversation).2)
      ensures cursor.visible <==> IsUp(gameOverUI) || IsUp(levelCompleteUI) || IsUp(pauseMenuUI)
      ensures cursor.locked <==> !cursor.visible
      ensures MovementAfter(PauseInput(old(Current()), escape, inConversation).1)
    {
      outcome := HandlePauseInput(escape, inConversation);
      UpdateCursorState();
    }
  }
}
