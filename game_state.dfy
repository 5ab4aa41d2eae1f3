/**
 * The state-pattern `GameContext`: a score and a current level state.  The
 * first level is its own state class; every later level is a
 * `DynamicLevelState` carrying its number.  An update moves to the next
 * level when the score has reached the current level's threshold, which is
 * the square of the level times 1000.  The console lines the context
 * writes are kept in order in `console`.
 */
module GameState {
  import opened Text
  datatype LevelState = Level1State | DynamicLevelState(level: int)
  {
    function Level(): int {
      if Level1State? then 1 else level
    }

    function ScoreThreshold(): int {
      Level() * Level() * 1000
    }

    /** `IGameState.Update`: the state the context holds after one update with this score. */
    function Next(score: int): LevelState {
      if score >= ScoreThreshold() then DynamicLevelState(Level() + 1) else this
    }
  }

  /** `n` updates in a row with the score held fixed. */
  function Updates(state: LevelState, score: int, n: nat): LevelState
    decreases n
  {
    if n == 0 then state else Updates(state.Next(score), score, n - 1)
  }

  /** The line `IncreaseScore` writes once the score is `score`. */
  function ScoreLine(score: int): string {
    "Score increased to: " + IntToString(score)
  }

  /** The line `NotifyLevelIncrease` writes at level `level`. */
  function LevelLine(level: int): string {
    "Advanced to level: " + IntToString(level)
  }

  /** What one update writes: the new level's line when it advances, otherwise nothing. */
  function UpdateLines(state: LevelState, score: int): seq<string> {
    if score >= state.ScoreThreshold() then [LevelLine(state.Level() + 1)] else []
  }

  class GameContext {
    var currentState: LevelState
    var score: int
    var console: seq<string>

    function Level(): int
      reads this
    {
      currentState.Level()
    }

    function ScoreThreshold(): int
      reads this
    {
      currentState.ScoreThreshold()
    }

    constructor()
      ensures currentState == Level1State && score == 0 && console == []
    {
      currentState := Level1State;
      score := 0;
      console := [];
    }

    method SetState(state: LevelState)
      modifies this
      ensures currentState == state && score == old(score) && console == old(console)
    {
      currentState := state;
    }

    /** The state's `Update`: on reaching the threshold, the next level's state and its console line. */
    method Update()
      modifies this
      ensures currentState == old(currentState).Next(score) && score == old(score)
      ensures console == old(console) + UpdateLines(old(currentState), score)
    {
      if score >= currentState.ScoreThreshold() {
        SetState(DynamicLevelState(currentState.Level() + 1));
        NotifyLevelIncrease();
      }
    }

    method IncreaseScore(points: int)
      modifies this
      ensures score == old(score) + points && currentState == old(currentState)
      ensures console == old(console) + [ScoreLine(score)]
    {
      score := score + points;
      console := console + [ScoreLine(score)];
    }

    method NotifyLevelIncrease()
      modifies this
      ensures console == old(console) + [LevelLine(Level())]
      ensures currentState == old(currentState) && score == old(score)
    {
      console := console + [LevelLine(Level())];
    }
  }

  /** The first level's own class has the level, threshold and successor level of a dynamic level numbered 1. */
  lemma Level1IsDynamicLevel1(score: int)
    ensures Level1State.Level() == DynamicLevelState(1).Level() == 1
    ensures Level1State.ScoreThreshold() == DynamicLevelState(1).ScoreThreshold() == 1000
    ensures Level1State.Next(score).Level() == DynamicLevelState(1).Next(score).Level()
    ensures score >= 1000 ==> Level1State.Next(score) == DynamicLevelState(1).Next(score) == DynamicLevelState(2)
  {
  }

  /** Each level needs more points than the one before (for levels from 0 up). */
  lemma ThresholdIncreases(a: LevelState, b: LevelState)
    requires 0 <= a.Level() < b.Level()
    ensures a.ScoreThreshold() < b.ScoreThreshold()
  {
    var x, y := a.Level(), b.Level();
    assert x * x <= x * y by {
      assert x * (y - x) >= 0;
    }
    assert x * y < y * y by {
      assert (y - x) * y > 0;
    }
  }

  /** One update moves up exactly one level when the threshold is reached, and otherwise changes nothing. */
  lemma UpdateAdvancesAtMostOneLevel(state: LevelState, score: int)
    ensures state.Next(score).Level() == state.Level() + 1 <==> score >= state.ScoreThreshold()
    ensures score < state.ScoreThreshold() ==> state.Next(score) == state
    ensures state.Next(score).Level() == state.Level() || state.Next(score).Level() == state.Level() + 1
  {
  }

  /** With the score held fixed, `n` updates climb between zero and `n` levels and never go down. */
  lemma {:induction false} UpdatesClimbAtMostN(state: LevelState, score: int, n: nat)
    ensures state.Level() <= Updates(state, score, n).Level() <= state.Level() + n
    decreases n
  {
    if n > 0 {
      UpdatesClimbAtMostN(state.Next(score), score, n - 1);
    }
  }

  /** Once the score is below the threshold, further updates with that score change nothing. */
  lemma {:induction false} UpdatesStopBelowThreshold(state: LevelState, score: int, n: nat)
    requires score < state.ScoreThreshold()
    ensures Updates(state, score, n) == state
    decreases n
  {
    if n > 0 {
      UpdatesStopBelowThreshold(state.Next(score), score, n - 1);
    }
  }

  /** An update writes a line exactly when it moves up a level, and the line names the new level. */
  lemma UpdateAnnouncesAdvance(state: LevelState, score: int)
    ensures |UpdateLines(state, score)| == 1 <==> state.Next(score).Level() == state.Level() + 1
    ensures UpdateLines(state, score) == [] <==> state.Next(score) == state
    ensures UpdateLines(state, score) != [] ==> UpdateLines(state, score) == [LevelLine(state.Next(score).Level())]
  {
  }

  /** The texts of the test's two score lines. */
  lemma ScenarioScoreLines()
    ensures ScoreLine(1000) == "Score increased to: 1000" && ScoreLine(4000) == "Score increased to: 4000"
  {
    assert NatToString(100) == "100";
    assert NatToString(400) == "400";
  }

  /** The texts of the test's two level lines. */
  lemma ScenarioLevelLines()
    ensures LevelLine(2) == "Advanced to level: 2" && LevelLine(3) == "Advanced to level: 3"
  {
  }

  /** The demo's test: 1000 points reach level 2, 3000 more reach level 3. */
  method GameScenario() returns (observed: seq<(int, int)>, console: seq<string>)
    ensures observed == [(1, 0), (2, 1000), (3, 4000)]
    ensures console == [ScoreLine(1000), LevelLine(2), ScoreLine(4000), LevelLine(3)]
  {
    var game := new GameContext();
    var s0 := (game.Level(), game.score);
    game.IncreaseScore(1000);
    game.Update();
    var s1 := (game.Level(), game.score);
    game.IncreaseScore(3000);
    game.Update();
    var s2 := (game.Level(), game.score);
    observed := [s0, s1, s2];
    console := game.console;
  }
}
