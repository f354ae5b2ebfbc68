/**
 * The game manager: the single authority over the game's status, lives,
 * points and time scale. The state is a value, `GameState`; each operation
 * of the manager is a function on it, and the `GameManager` class performs
 * the same operations in place on its fields.
 *
 * Two time scales are kept apart: `timeScale` is the manager's public
 * `TimeScale` field, `engineTimeScale` is Unity's global `Time.timeScale`,
 * the one that pausing saves and restores.
 */
module Game {
  import Events

  /** The states the game can be in. */
  datatype GameStatus = BeforeGameStart | GameInProgress | Paused | GameOver | LifeLost

  datatype GameState = GameState(
    status: GameStatus,
    totalLives: int,
    currentLives: int,
    points: real,
    timeScale: real,
    savedTimeScale: real,
    engineTimeScale: real,
    pointsPerSecond: real)

  // ---------------------------------------------------------------------
  // The operations, on values

  /** `Start`: lives refilled, and both the saved and the engine scale taken from `TimeScale`. */
  function AfterStart(s: GameState): GameState {
    s.(currentLives := s.totalLives, savedTimeScale := s.timeScale, engineTimeScale := s.timeScale)
  }

  function AfterSetPointsPerSecond(s: GameState, rate: real): GameState {
    s.(pointsPerSecond := rate)
  }

  function AfterSetStatus(s: GameState, status: GameStatus): GameState {
    s.(status := status)
  }

  /** `Reset`: points cleared, the `TimeScale` field (not the engine's) set to 1, game in progress. */
  function AfterReset(s: GameState): GameState {
    AfterSetStatus(s.(points := 0.0, timeScale := 1.0), GameInProgress)
  }

  function AfterAddPoints(s: GameState, p: real): GameState {
    s.(points := s.points + p)
  }

  function AfterSetPoints(s: GameState, p: real): GameState {
    s.(points := p)
  }

  function AfterSetLives(s: GameState, n: int): GameState {
    s.(currentLives := n)
  }

  function AfterLoseLives(s: GameState, n: int): GameState {
    s.(currentLives := s.currentLives - n)
  }

  /** `SetTimeScale`: the engine scale in force is saved before the new one is installed. */
  function AfterSetTimeScale(s: GameState, scale: real): GameState {
    s.(savedTimeScale := s.engineTimeScale, engineTimeScale := scale)
  }

  function AfterResetTimeScale(s: GameState): GameState {
    s.(engineTimeScale := s.savedTimeScale)
  }

  function AfterUnPause(s: GameState): GameState {
    AfterSetStatus(AfterResetTimeScale(s), GameInProgress)
  }

  /** `Pause` stops time when it runs, and otherwise behaves as `UnPause`. */
  function AfterPause(s: GameState): GameState {
    if s.engineTimeScale > 0.0 then AfterSetStatus(AfterSetTimeScale(s, 0.0), Paused)
    else AfterUnPause(s)
  }

  /** One pass of the score coroutine's loop body. */
  function AfterScoreTick(s: GameState): GameState {
    if s.status == GameInProgress then AfterAddPoints(s, s.pointsPerSecond / 100.0) else s
  }

  // ---------------------------------------------------------------------
  // What the operations promise

  lemma StartFillsLivesAndScales(s: GameState)
    ensures AfterStart(s).currentLives == s.totalLives
    ensures AfterStart(s).savedTimeScale == s.timeScale == AfterStart(s).engineTimeScale
    ensures AfterStart(s).status == s.status && AfterStart(s).points == s.points
  {
  }

  /** Pausing a running game saves its engine scale, stops time and marks the game paused. */
  lemma PauseStopsTime(s: GameState)
    requires s.engineTimeScale > 0.0
    ensures AfterPause(s).savedTimeScale == s.engineTimeScale
    ensures AfterPause(s).engineTimeScale == 0.0
    ensures AfterPause(s).status == Paused
    ensures AfterPause(s).points == s.points && AfterPause(s).currentLives == s.currentLives
    ensures AfterPause(s).timeScale == s.timeScale
  {
  }

  /** With time already stopped (or a non-positive scale), `Pause` is exactly `UnPause`. */
  lemma PauseWhenStoppedUnpauses(s: GameState)
    requires s.engineTimeScale <= 0.0
    ensures AfterPause(s) == AfterUnPause(s)
    ensures AfterPause(s).engineTimeScale == s.savedTimeScale
  {
  }

  /**
   * From any running scale `v`, both `Pause; Pause` and `Pause; UnPause`
   * restore exactly `v` and put the game back in progress, leaving points
   * and lives alone.
   */
  lemma PauseToggleRestores(s: GameState)
    requires s.engineTimeScale > 0.0
    ensures AfterPause(AfterPause(s)).engineTimeScale == s.engineTimeScale
    ensures AfterUnPause(AfterPause(s)).engineTimeScale == s.engineTimeScale
    ensures AfterPause(AfterPause(s)) == AfterUnPause(AfterPause(s))
    ensures AfterPause(AfterPause(s)).status == GameInProgress
    ensures AfterPause(AfterPause(s)).points == s.points
    ensures AfterPause(AfterPause(s)).currentLives == s.currentLives
  {
  }

  /** Adding accumulates, setting overwrites: add 5, add 3, set 2 ends with exactly 2 points. */
  lemma PointsAddAndSet(s: GameState, a: real, b: real, p: real)
    ensures AfterAddPoints(AfterAddPoints(s, a), b).points == s.points + a + b
    ensures AfterSetPoints(AfterAddPoints(AfterAddPoints(s, a), b), p).points == p
    ensures AfterAddPoints(AfterAddPoints(AfterSetPoints(s, 0.0), 5.0), 3.0).points == 8.0
    ensures AfterSetPoints(AfterAddPoints(AfterAddPoints(s, 5.0), 3.0), 2.0).points == 2.0
  {
  }

  /** Lives change by exactly the given amount, and nothing else about the game changes. */
  lemma LivesOnlyTouchLives(s: GameState, n: int)
    ensures AfterLoseLives(s, n).currentLives == s.currentLives - n
    ensures AfterSetLives(s, n).currentLives == n
    ensures AfterLoseLives(s, n) == s.(currentLives := s.currentLives - n)
    ensures AfterSetLives(s, n).(currentLives := s.currentLives) == s
  {
  }

  /** `Reset` restarts the game but keeps the lives and the engine's time scale. */
  lemma ResetKeepsLivesAndEngineScale(s: GameState)
    ensures AfterReset(s).points == 0.0 && AfterReset(s).timeScale == 1.0
    ensures AfterReset(s).status == GameInProgress
    ensures AfterReset(s).currentLives == s.currentLives
    ensures AfterReset(s).engineTimeScale == s.engineTimeScale
    ensures AfterReset(s).savedTimeScale == s.savedTimeScale
  {
  }

  /** Number of entries of `statuses` that are `GameInProgress`. */
  function InProgressCount(statuses: seq<GameStatus>): (n: nat)
    ensures n <= |statuses|
  {
    if statuses == [] then 0
    else (if statuses[0] == GameInProgress then 1 else 0) + InProgressCount(statuses[1..])
  }

  /** No tick counts exactly when no entry is `GameInProgress`. */
  lemma {:induction false} InProgressCountZero(statuses: seq<GameStatus>)
    ensures InProgressCount(statuses) == 0 <==> GameInProgress !in statuses
    decreases |statuses|
  {
    if statuses != [] {
      InProgressCountZero(statuses[1..]);
      assert statuses == [statuses[0]] + statuses[1..];
    }
  }

  /**
   * The score coroutine run for `|statuses|` ticks, the game being in
   * `statuses[k]` (set by other code) when tick `k` runs.
   */
  function AfterScoreTicks(s: GameState, statuses: seq<GameStatus>): (r: GameState)
    ensures statuses == [] ==> r == s
    ensures statuses != [] ==> r.status == statuses[|statuses| - 1]
    ensures r.pointsPerSecond == s.pointsPerSecond && r.totalLives == s.totalLives && r.currentLives == s.currentLives
    ensures r.timeScale == s.timeScale && r.savedTimeScale == s.savedTimeScale && r.engineTimeScale == s.engineTimeScale
    decreases |statuses|
  {
    if statuses == [] then s
    else AfterScoreTicks(AfterScoreTick(AfterSetStatus(s, statuses[0])), statuses[1..])
  }

  /**
   * Only ticks that find the game in progress score, each exactly
   * `pointsPerSecond / 100`; a tick missed is not made up later.
   */
  lemma {:induction false} ScoreTicksCountOnlyInProgress(s: GameState, statuses: seq<GameStatus>)
    ensures AfterScoreTicks(s, statuses).points
         == s.points + (InProgressCount(statuses) as real) * (s.pointsPerSecond / 100.0)
    ensures AfterScoreTicks(s, statuses).pointsPerSecond == s.pointsPerSecond
    ensures AfterScoreTicks(s, statuses).currentLives == s.currentLives
    decreases |statuses|
  {
    if statuses != [] {
      var t := AfterScoreTick(AfterSetStatus(s, statuses[0]));
      ScoreTicksCountOnlyInProgress(t, statuses[1..]);
      var perTick := s.pointsPerSecond / 100.0;
      var rest := InProgressCount(statuses[1..]) as real;
      assert t.pointsPerSecond == s.pointsPerSecond;
      if statuses[0] == GameInProgress {
        assert t.points == s.points + perTick;
        assert (rest + 1.0) * perTick == rest * perTick + perTick;
      } else {
        assert t.points == s.points;
      }
    }
  }

  /**
   * With a positive rate, a run of score ticks leaves the points where they
   * were exactly when the game was never in progress at a tick.
   */
  lemma NoScoreExactlyWhenNeverInProgress(s: GameState, statuses: seq<GameStatus>)
    requires s.pointsPerSecond > 0.0
    ensures AfterScoreTicks(s, statuses).points == s.points <==> GameInProgress !in statuses
  {
    ScoreTicksCountOnlyInProgress(s, statuses);
    InProgressCountZero(statuses);
    var n := InProgressCount(statuses);
    var perTick := s.pointsPerSecond / 100.0;
    if n > 0 {
      assert (n as real) * perTick >= perTick by {
        assert (n as real) >= 1.0 && perTick > 0.0;
        assert (n as real) * perTick - perTick == ((n as real) - 1.0) * perTick;
      }
    }
  }

  // ---------------------------------------------------------------------
  // The manager, updated in place

  class GameManager {
    var status: GameStatus
    var totalLives: int
    var currentLives: int
    var points: real
    var timeScale: real
    var savedTimeScale: real
    /** Unity's global `Time.timeScale`. */
    var engineTimeScale: real
    var pointsPerSecond: real
    /** The event bus that `Reset` raises `GameStart` on. */
    const events: Events.EventManager

    function State(): GameState
      reads this
    {
      GameState(status, totalLives, currentLives, points, timeScale, savedTimeScale,
                engineTimeScale, pointsPerSecond)
    }

    /** A freshly awoken manager with its inspector values; the engine runs at scale 1. */
    constructor (totalLives: int, timeScale: real, events: Events.EventManager)
      ensures State() == GameState(BeforeGameStart, totalLives, 0, 0.0, timeScale, 0.0, 1.0, 0.0)
      ensures this.events == events
    {
      this.status := BeforeGameStart;
      this.totalLives := totalLives;
      this.currentLives := 0;
      this.points := 0.0;
      this.timeScale := timeScale;
      this.savedTimeScale := 0.0;
      this.engineTimeScale := 1.0;
      this.pointsPerSecond := 0.0;
      this.events := events;
    }

    method Start()
      modifies this
      ensures State() == AfterStart(old(State()))
    {
      currentLives := totalLives;
      savedTimeScale := timeScale;
      engineTimeScale := timeScale;
    }

    method SetPointsPerSecond(rate: real)
      modifies this
      ensures State() == AfterSetPointsPerSecond(old(State()), rate)
    {
      pointsPerSecond := rate;
    }

    method SetStatus(newStatus: GameStatus)
      modifies this
      ensures State() == AfterSetStatus(old(State()), newStatus)
    {
      status := newStatus;
    }

    /** Restarts the game and raises `GameStart` once, invoking its handlers. */
    method Reset() returns (notified: seq<Events.Handler>)
      modifies this
      ensures State() == AfterReset(old(State()))
      ensures notified == events.gameStart
    {
      points := 0.0;
      timeScale := 1.0;
      SetStatus(GameInProgress);
      notified := events.TriggerGameStart();
    }

    /** The body of the score coroutine, run once per 0.01 s by the engine. */
    method IncrementScoreTick()
      modifies this
      ensures State() == AfterScoreTick(old(State()))
    {
      if status == GameInProgress {
        AddPoints(pointsPerSecond / 100.0);
      }
    }

    method AddPoints(p: real)
      modifies this
      ensures State() == AfterAddPoints(old(State()), p)
    {
      points := points + p;
    }

    method SetPoints(p: real)
      modifies this
      ensures State() == AfterSetPoints(old(State()), p)
    {
      points := p;
    }

    method SetLives(n: int)
      modifies this
      ensures State() == AfterSetLives(old(State()), n)
    {
      currentLives := n;
    }

    method LoseLives(n: int)
      modifies this
      ensures State() == AfterLoseLives(old(State()), n)
    {
      currentLives := currentLives - n;
    }

    method SetTimeScale(scale: real)
      modifies this
      ensures State() == AfterSetTimeScale(old(State()), scale)
    {
      savedTimeScale := engineTimeScale;
      engineTimeScale := scale;
    }

    method ResetTimeScale()
      modifies this
      ensures State() == AfterResetTimeScale(old(State()))
    {
      engineTimeScale := savedTimeScale;
    }

    method Pause()
      modifies this
      ensures State() == AfterPause(old(State()))
    {
      if engineTimeScale > 0.0 {
        SetTimeScale(0.0);
        SetStatus(Paused);
      } else {
        UnPause();
      }
    }

    method UnPause()
      modifies this
      ensures State() == AfterUnPause(old(State()))
    {
      ResetTimeScale();
      SetStatus(GameInProgress);
    }
  }
}
