/**
 * The game-state manager: one mutable record of score, lives, level, power
 * level, status, remaining time and coins, changed only through transition
 * methods, with a once-per-second countdown and change notifications.
 *
 * Each transition is first given as a pure function on GameState; the methods
 * of GameStateManager are proved to perform exactly that function, to keep the
 * timer registered only while the game is playing, and to broadcast the
 * snapshots the source broadcasts, in order.
 */
module StateManager {
  import opened GameTypes
  import Listeners

  const LevelTime: int := 300
  const InitialState: GameState := GameState(0, 3, 1, 0, Playing, LevelTime, 0)

  /** The bounds every reachable state keeps. */
  predicate Inv(s: GameState)
  {
    0 <= s.coins < 100 && 0 <= s.powerLevel <= 2 && s.lives >= 0 &&
    0 <= s.time <= LevelTime && s.level >= 1
  }

  lemma InitialStateInv()
    ensures Inv(InitialState)
    ensures InitialState.score == 0 && InitialState.lives == 3 && InitialState.level == 1
    ensures InitialState.powerLevel == 0 && InitialState.gameStatus == Playing
    ensures InitialState.time == 300 && InitialState.coins == 0
  {
  }

  /** addScore: exactly `points` more score, every other field unchanged. */
  function ScoreAdded(s: GameState, points: int): (r: GameState)
    ensures r.score == s.score + points
    ensures r.(score := s.score) == s
    ensures Inv(s) ==> Inv(r)
  {
    s.(score := s.score + points)
  }

  /** addLife: one more life and 1000 points. */
  function LifeAdded(s: GameState): (r: GameState)
    ensures r.lives == s.lives + 1 && r.score == s.score + 1000
    ensures r.(lives := s.lives, score := s.score) == s
    ensures Inv(s) ==> Inv(r)
  {
    ScoreAdded(s.(lives := s.lives + 1), 1000)
  }

  /** The state between addCoin's increment and its rollover check. */
  function CoinCounted(s: GameState): GameState
  {
    ScoreAdded(s.(coins := s.coins + 1), 200)
  }

  /**
   * addCoin: one coin and 200 points; the hundredth coin turns the counter back
   * to 0 and buys a life worth another 1000 points.
   */
  function CoinAdded(s: GameState): (r: GameState)
    ensures 0 <= s.coins < 100 ==> r.coins == (s.coins + 1) % 100
    ensures 0 <= s.coins < 100 ==> r.lives == s.lives + (if s.coins == 99 then 1 else 0)
    ensures 0 <= s.coins < 100 ==> r.score == s.score + 200 + (if s.coins == 99 then 1000 else 0)
    ensures r.(coins := s.coins, lives := s.lives, score := s.score) == s
    ensures Inv(s) ==> Inv(r)
  {
    var c := CoinCounted(s);
    if c.coins >= 100 then LifeAdded(c.(coins := 0)) else c
  }

  /** loseLife: never below zero lives, and the last life forces game over. */
  function LifeLost(s: GameState): (r: GameState)
    ensures r.lives >= 0
    ensures s.lives > 0 ==> r.lives == s.lives - 1
    ensures s.lives <= 0 ==> r.lives == 0
    ensures r.lives == 0 ==> r.gameStatus == GameOver
    ensures r.lives > 0 ==> r.gameStatus == s.gameStatus
    ensures r.(lives := s.lives, gameStatus := s.gameStatus) == s
    ensures Inv(s) ==> Inv(r)
  {
    var lives := if s.lives - 1 >= 0 then s.lives - 1 else 0;
    var t := s.(lives := lives);
    if lives == 0 then t.(gameStatus := GameOver) else t
  }

  /**
   * setPowerLevel: the level is clamped to [0,2]; the 1000-point bonus is tested
   * after the clamp, so only a request above 2 earns it.
   */
  function PowerLevelSet(s: GameState, level: int): (r: GameState)
    ensures 0 <= r.powerLevel <= 2
    ensures 0 <= level <= 2 ==> r.powerLevel == level
    ensures r.score == s.score + (if level > 2 then 1000 else 0)
    ensures r.(powerLevel := s.powerLevel, score := s.score) == s
    ensures Inv(s) ==> Inv(r)
  {
    var clamped := if level < 0 then 0 else if level > 2 then 2 else level;
    var t := s.(powerLevel := clamped);
    if level > t.powerLevel then ScoreAdded(t, 1000) else t
  }

  /** powerUp: one level up to at most 2, and never any score. */
  function PoweredUp(s: GameState): (r: GameState)
    ensures 0 <= s.powerLevel <= 2 ==> r == s.(powerLevel := if s.powerLevel < 2 then s.powerLevel + 1 else 2)
    ensures r.score == s.score
    ensures Inv(s) ==> Inv(r)
  {
    if s.powerLevel < 2 then PowerLevelSet(s, s.powerLevel + 1) else s
  }

  /** powerDown: one level down, or a lost life when already small. */
  function PoweredDown(s: GameState): (r: GameState)
    ensures s.powerLevel > 0 && s.powerLevel <= 2 ==> r == s.(powerLevel := s.powerLevel - 1)
    ensures s.powerLevel <= 0 ==> r == LifeLost(s)
    ensures Inv(s) ==> Inv(r)
  {
    if s.powerLevel > 0 then PowerLevelSet(s, s.powerLevel - 1) else LifeLost(s)
  }

  /** The state between completeLevel's bonus and its status change. */
  function BonusAwarded(s: GameState): GameState
  {
    ScoreAdded(s, s.time * 50).(level := s.level + 1, time := LevelTime)
  }

  /** completeLevel: 50 points per remaining second, next level, full time, status complete. */
  function LevelCompleted(s: GameState): (r: GameState)
    ensures r.score == s.score + 50 * s.time
    ensures r.level == s.level + 1 && r.time == 300 && r.gameStatus == Complete
    ensures r.(score := s.score, level := s.level, time := s.time, gameStatus := s.gameStatus) == s
    ensures Inv(s) ==> Inv(r)
  {
    BonusAwarded(s).(gameStatus := Complete)
  }

  /** The state after the countdown step and before the life check. */
  function Counted(s: GameState): GameState
  {
    s.(time := if s.time - 1 >= 0 then s.time - 1 else 0)
  }

  /**
   * One firing of the one-second countdown: nothing happens unless the game is
   * playing; otherwise one second less (never below 0), and at 0 a life is lost
   * and, if any life remains, the clock starts over.
   */
  function Ticked(s: GameState): (r: GameState)
    ensures s.gameStatus != Playing ==> r == s
    ensures s.gameStatus == Playing && s.time > 1 ==> r == s.(time := s.time - 1)
    ensures s.gameStatus == Playing && s.time <= 1 ==>
              r.lives == LifeLost(s).lives && r.gameStatus == LifeLost(s).gameStatus &&
              r.time == (if r.lives > 0 then LevelTime else 0) &&
              r.(lives := s.lives, gameStatus := s.gameStatus, time := s.time) == s
    ensures Inv(s) ==> Inv(r)
  {
    if s.gameStatus != Playing then s
    else
      var t := Counted(s);
      if t.time == 0 then
        var u := LifeLost(t);
        if u.lives > 0 then u.(time := LevelTime) else u
      else t
  }

  /** togglePause: playing and paused swap; game over and complete are left as they are. */
  function Toggled(s: GameState): (r: GameState)
    ensures s.gameStatus == Playing ==> r == s.(gameStatus := Paused)
    ensures s.gameStatus == Paused ==> r == s.(gameStatus := Playing)
    ensures s.gameStatus in {GameOver, Complete} ==> r == s
  {
    match s.gameStatus
    case Playing => s.(gameStatus := Paused)
    case Paused => s.(gameStatus := Playing)
    case _ => s
  }

  lemma ToggleTwiceFromPlaying(s: GameState)
    requires s.gameStatus == Playing
    ensures Toggled(Toggled(s)) == s
  {
  }

  /** The state after `n` consecutive coins. */
  function CoinsAdded(s: GameState, n: nat): GameState
  {
    if n == 0 then s else CoinAdded(CoinsAdded(s, n - 1))
  }

  lemma {:induction false} CoinsBelowHundred(s: GameState, n: nat)
    requires s.coins == 0 && n < 100
    ensures CoinsAdded(s, n) == s.(coins := n, score := s.score + 200 * n)
  {
    if n > 0 {
      CoinsBelowHundred(s, n - 1);
    }
  }

  /**
   * A hundred coins collected one at a time from an empty counter give exactly
   * one extra life and leave the counter at 0.
   */
  lemma HundredCoins(s: GameState)
    requires s.coins == 0
    ensures CoinsAdded(s, 100).lives == s.lives + 1
    ensures CoinsAdded(s, 100).coins == 0
    ensures CoinsAdded(s, 100).score == s.score + 100 * 200 + 1000
  {
    CoinsBelowHundred(s, 99);
  }

  /**
   * The time-out scenario: with more than one life left, the tick that reaches
   * 0 costs one life, restarts the clock and keeps the game playing.
   */
  lemma TimeOutWithLivesLeft(s: GameState)
    requires s.gameStatus == Playing && s.time == 1 && s.lives > 1
    ensures Ticked(s) == s.(lives := s.lives - 1, time := LevelTime)
  {
  }

  class GameStateManager {
    var state: GameState
    var listeners: seq<nat>
    /** Whether the one-second interval is registered. */
    var timerRunning: bool
    /** Every snapshot handed to the listeners, in order. */
    ghost var broadcasts: seq<GameState>

    ghost predicate Valid()
      reads this
    {
      Inv(state) && (timerRunning ==> state.gameStatus == Playing)
    }

    constructor ()
      ensures Valid()
      ensures state == InitialState && listeners == [] && timerRunning && broadcasts == []
    {
      state := InitialState;
      listeners := [];
      timerRunning := true;
      broadcasts := [];
    }

    method Subscribe(callback: nat)
      modifies this
      ensures listeners == old(listeners) + [callback]
      ensures state == old(state) && timerRunning == old(timerRunning) && broadcasts == old(broadcasts)
    {
      listeners := listeners + [callback];
    }

    /** The function subscribe returns: removes the callback's first occurrence. */
    method Unsubscribe(callback: nat)
      modifies this
      ensures listeners == Listeners.RemoveFirst(old(listeners), callback)
      ensures state == old(state) && timerRunning == old(timerRunning) && broadcasts == old(broadcasts)
    {
      listeners := Listeners.RemoveFirst(listeners, callback);
    }

    method NotifyListeners()
      modifies this`broadcasts
      ensures broadcasts == old(broadcasts) + [state]
    {
      broadcasts := broadcasts + [state];
    }

    function GetState(): (r: GameState)
      reads this
      ensures r == state
    {
      state
    }

    method AddScore(points: int)
      modifies this
      ensures state == ScoreAdded(old(state), points)
      ensures broadcasts == old(broadcasts) + [state]
      ensures listeners == old(listeners) && timerRunning == old(timerRunning)
    {
      state := state.(score := state.score + points);
      NotifyListeners();
    }

    method AddCoin()
      modifies this
      ensures state == CoinAdded(old(state))
      ensures broadcasts == old(broadcasts) + [CoinCounted(old(state))] +
                            (if CoinCounted(old(state)).coins >= 100 then [state, state] else []) + [state]
      ensures listeners == old(listeners) && timerRunning == old(timerRunning)
    {
      state := state.(coins := state.coins + 1);
      AddScore(200);
      if state.coins >= 100 {
        state := state.(coins := 0);
        AddLife();
      }
      NotifyListeners();
    }

    method AddLife()
      modifies this
      ensures state == LifeAdded(old(state))
      ensures broadcasts == old(broadcasts) + [state, state]
      ensures listeners == old(listeners) && timerRunning == old(timerRunning)
    {
      state := state.(lives := state.lives + 1);
      AddScore(1000);
      NotifyListeners();
    }

    method LoseLife()
      modifies this
      ensures state == LifeLost(old(state))
      ensures timerRunning == (old(timerRunning) && state.lives > 0)
      ensures broadcasts == old(broadcasts) + (if state.lives == 0 then [state, state] else [state])
      ensures listeners == old(listeners)
    {
      state := state.(lives := if state.lives - 1 >= 0 then state.lives - 1 else 0);
      if state.lives == 0 {
        SetGameStatus(GameOver);
      }
      NotifyListeners();
    }

    method SetPowerLevel(level: int)
      modifies this
      ensures state == PowerLevelSet(old(state), level)
      ensures broadcasts == old(broadcasts) + (if level > 2 then [state, state] else [state])
      ensures listeners == old(listeners) && timerRunning == old(timerRunning)
    {
      state := state.(powerLevel := if level < 0 then 0 else if level > 2 then 2 else level);
      if level > state.powerLevel {
        AddScore(1000);
      }
      NotifyListeners();
    }

    method PowerUp()
      modifies this
      ensures state == PoweredUp(old(state))
      ensures broadcasts == old(broadcasts) + (if old(state).powerLevel < 2 then [state] else [])
      ensures listeners == old(listeners) && timerRunning == old(timerRunning)
    {
      if state.powerLevel < 2 {
        SetPowerLevel(state.powerLevel + 1);
      }
    }

    method PowerDown()
      modifies this
      ensures state == PoweredDown(old(state))
      ensures timerRunning == (old(timerRunning) && (old(state).powerLevel > 0 || state.lives > 0))
      ensures broadcasts == old(broadcasts) +
                (if old(state).powerLevel > 3 || (old(state).powerLevel <= 0 && state.lives == 0) then [state, state] else [state])
      ensures listeners == old(listeners)
    {
      if state.powerLevel > 0 {
        SetPowerLevel(state.powerLevel - 1);
      } else {
        LoseLife();
      }
    }

    /** Pausing clears the interval, playing registers it if missing, anything else clears it. */
    method SetGameStatus(status: GameStatus)
      modifies this
      ensures state == old(state).(gameStatus := status)
      ensures timerRunning == (status == Playing)
      ensures broadcasts == old(broadcasts) + [state]
      ensures listeners == old(listeners)
    {
      state := state.(gameStatus := status);
      if status == Paused {
        timerRunning := false;
      } else if status == Playing {
        if !timerRunning {
          timerRunning := true;
        }
      } else {
        timerRunning := false;
      }
      NotifyListeners();
    }

    method CompleteLevel()
      modifies this
      ensures state == LevelCompleted(old(state))
      ensures !timerRunning
      ensures broadcasts == old(broadcasts) + [ScoreAdded(old(state), old(state).time * 50), state]
      ensures listeners == old(listeners)
    {
      timerRunning := false;
      var timeBonus := state.time * 50;
      AddScore(timeBonus);
      state := state.(level := state.level + 1, time := LevelTime);
      SetGameStatus(Complete);
    }

    method StartLevel()
      modifies this
      ensures state == old(state).(time := LevelTime, gameStatus := Playing)
      ensures timerRunning
      ensures broadcasts == old(broadcasts) + [state]
      ensures listeners == old(listeners)
    {
      state := state.(time := LevelTime);
      SetGameStatus(Playing);
      timerRunning := true;
    }

    method ResetGame()
      modifies this
      ensures Valid()
      ensures state == InitialState && timerRunning
      ensures broadcasts == old(broadcasts) + [state]
      ensures listeners == old(listeners)
    {
      state := InitialState;
      timerRunning := true;
      NotifyListeners();
    }

    /** The body of the one-second interval. */
    method Tick()
      requires Valid()
      modifies this
      ensures Valid()
      ensures state == Ticked(old(state))
      ensures timerRunning == (old(timerRunning) && state.gameStatus == Playing)
      ensures old(state).gameStatus != Playing ==> broadcasts == old(broadcasts)
      ensures old(state).gameStatus == Playing ==>
                broadcasts == old(broadcasts) +
                  (if old(state).time <= 1 then
                     (var u := LifeLost(old(state).(time := 0)); if u.lives == 0 then [u, u] else [u])
                   else []) +
                  [state]
      ensures listeners == old(listeners)
    {
      if state.gameStatus == Playing {
        state := state.(time := if state.time - 1 >= 0 then state.time - 1 else 0);
        if state.time == 0 {
          LoseLife();
          if state.lives > 0 {
            state := state.(time := LevelTime);
          }
        }
        NotifyListeners();
      }
    }

    predicate IsGameActive()
      reads this
    {
      state.gameStatus == Playing
    }

    predicate IsGamePaused()
      reads this
    {
      state.gameStatus == Paused
    }

    predicate IsGameOver()
      reads this
    {
      state.gameStatus == GameOver
    }

    method TogglePause()
      modifies this
      ensures state == Toggled(old(state))
      ensures timerRunning == if old(state).gameStatus in {Playing, Paused} then state.gameStatus == Playing
                              else old(timerRunning)
      ensures broadcasts == old(broadcasts) + (if old(state).gameStatus in {Playing, Paused} then [state] else [])
      ensures listeners == old(listeners)
    {
      if state.gameStatus == Playing {
        SetGameStatus(Paused);
      } else if state.gameStatus == Paused {
        SetGameStatus(Playing);
      }
    }

    method Destroy()
      modifies this
      ensures !timerRunning && listeners == []
      ensures state == old(state) && broadcasts == old(broadcasts)
    {
      timerRunning := false;
      listeners := [];
    }
  }

  /** Every transition method keeps the manager's invariant. */
  method TransitionsKeepValid(m: GameStateManager, points: int, level: int, status: GameStatus)
    requires m.Valid()
    modifies m
    ensures m.Valid()
  {
    m.AddCoin();
    m.AddLife();
    m.LoseLife();
    m.SetPowerLevel(level);
    m.PowerUp();
    m.PowerDown();
    m.TogglePause();
    m.Tick();
    m.CompleteLevel();
    m.StartLevel();
    m.SetGameStatus(status);
  }
}
