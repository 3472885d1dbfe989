/** The pure state transitions of a game (frontend/game/state.ts): the
    opening position, the two resets, the settings updates, start, pause,
    scoring and the countdown. Each returns a new GameState and leaves the
    argument alone. */
module GameStates {
  import opened Types
  import opened Numeric

  /** The fields of GameConfig that createInitialState reads. puckSpeed,
      paddleSpeed and friction are declared and defaulted but never read. */
  datatype Config = Config(
    tableWidth: real,
    tableHeight: real,
    paddleWidth: real,
    paddleHeight: real,
    puckRadius: real,
    difficulty: Difficulty,
    aiMode: AiMode,
    timeLimit: Option<real>)

  /** Partial<GameConfig>: any subset of the fields. */
  datatype ConfigPatch = ConfigPatch(
    tableWidth: Option<real>,
    tableHeight: Option<real>,
    paddleWidth: Option<real>,
    paddleHeight: Option<real>,
    puckRadius: Option<real>,
    difficulty: Option<Difficulty>,
    aiMode: Option<AiMode>,
    timeLimit: Option<real>)

  const DefaultConfig: Config :=
    Config(1020.0, 680.0, 100.0, 20.0, 15.0, Medium, RuleBased, None)

  const NoOverrides: ConfigPatch :=
    ConfigPatch(None, None, None, None, None, None, None, None)

  function Override<T>(given: Option<T>, fallback: T): (r: T)
    ensures given.Some? ==> r == given.value
    ensures given.None? ==> r == fallback
  {
    if given.Some? then given.value else fallback
  }

  /** `{ ...DEFAULT_CONFIG, ...config }`: a given field wins, a missing one
      takes the default. */
  function MergeConfig(patch: ConfigPatch): (c: Config)
    ensures c.tableWidth == Override(patch.tableWidth, DefaultConfig.tableWidth)
    ensures c.tableHeight == Override(patch.tableHeight, DefaultConfig.tableHeight)
    ensures c.paddleWidth == Override(patch.paddleWidth, DefaultConfig.paddleWidth)
    ensures c.paddleHeight == Override(patch.paddleHeight, DefaultConfig.paddleHeight)
    ensures c.puckRadius == Override(patch.puckRadius, DefaultConfig.puckRadius)
    ensures c.difficulty == Override(patch.difficulty, DefaultConfig.difficulty)
    ensures c.aiMode == Override(patch.aiMode, DefaultConfig.aiMode)
    ensures c.timeLimit == patch.timeLimit
    ensures patch == NoOverrides ==> c == DefaultConfig
  {
    Config(
      Override(patch.tableWidth, DefaultConfig.tableWidth),
      Override(patch.tableHeight, DefaultConfig.tableHeight),
      Override(patch.paddleWidth, DefaultConfig.paddleWidth),
      Override(patch.paddleHeight, DefaultConfig.paddleHeight),
      Override(patch.puckRadius, DefaultConfig.puckRadius),
      Override(patch.difficulty, DefaultConfig.difficulty),
      Override(patch.aiMode, DefaultConfig.aiMode),
      if patch.timeLimit.Some? then patch.timeLimit else DefaultConfig.timeLimit)
  }

  /** The puck at rest on the centre spot. */
  function CentrePuck(tableWidth: real, tableHeight: real, radius: real): Puck
  {
    Puck(tableWidth / 2.0, tableHeight / 2.0, 0.0, 0.0, radius)
  }

  /** Both paddles horizontally centred, the human's halfway down its own
      half, the AI's a paddle height plus 20 px from its end. */
  predicate AtOpeningSpots(state: GameState)
  {
    state.humanPaddle.x == state.tableWidth / 2.0 &&
    state.humanPaddle.y == state.tableHeight - state.tableHeight / 4.0 &&
    state.aiPaddle.x == state.tableWidth / 2.0 &&
    state.aiPaddle.y == state.aiPaddle.height + 20.0
  }

  function CreateInitialState(patch: ConfigPatch): (s: GameState)
    ensures var c := MergeConfig(patch);
      s.puck == CentrePuck(c.tableWidth, c.tableHeight, c.puckRadius) &&
      AtOpeningSpots(s) &&
      s.humanPaddle.width == s.aiPaddle.width == c.paddleWidth &&
      s.humanPaddle.height == s.aiPaddle.height == c.paddleHeight &&
      s.humanPaddle.radius.None? && s.aiPaddle.radius.None? &&
      s.tableWidth == c.tableWidth && s.tableHeight == c.tableHeight &&
      s.humanScore == 0 && s.aiScore == 0 &&
      s.difficulty == c.difficulty && s.aiMode == c.aiMode &&
      !s.isPaused && !s.gameStarted &&
      s.timeLimit == c.timeLimit && s.timeRemaining == c.timeLimit
  {
    var c := MergeConfig(patch);
    GameState(
      CentrePuck(c.tableWidth, c.tableHeight, c.puckRadius),
      Paddle(c.tableWidth / 2.0, c.tableHeight - c.tableHeight / 4.0, c.paddleWidth, c.paddleHeight, None),
      Paddle(c.tableWidth / 2.0, c.paddleHeight + 20.0, c.paddleWidth, c.paddleHeight, None),
      c.tableWidth, c.tableHeight,
      0, 0,
      c.difficulty, c.aiMode,
      false, false,
      c.timeLimit, c.timeLimit)
  }

  /** Back to the opening position, keeping scores, settings and the clock. */
  function ResetGameState(state: GameState): (r: GameState)
    ensures r.puck == CentrePuck(state.tableWidth, state.tableHeight, state.puck.radius)
    ensures AtOpeningSpots(r)
    ensures r.humanPaddle == state.humanPaddle.(x := r.humanPaddle.x, y := r.humanPaddle.y)
    ensures r.aiPaddle == state.aiPaddle.(x := r.aiPaddle.x, y := r.aiPaddle.y)
    ensures !r.isPaused && !r.gameStarted
    ensures r.(puck := state.puck, humanPaddle := state.humanPaddle, aiPaddle := state.aiPaddle,
               isPaused := state.isPaused, gameStarted := state.gameStarted) == state
  {
    state.(
      puck := CentrePuck(state.tableWidth, state.tableHeight, state.puck.radius),
      humanPaddle := state.humanPaddle.(x := state.tableWidth / 2.0,
                                        y := state.tableHeight - state.tableHeight / 4.0),
      aiPaddle := state.aiPaddle.(x := state.tableWidth / 2.0, y := state.aiPaddle.height + 20.0),
      isPaused := false,
      gameStarted := false)
  }

  /** A fresh game is already in its reset position. */
  lemma ResetOfOpeningIsOpening(patch: ConfigPatch)
    ensures ResetGameState(CreateInitialState(patch)) == CreateInitialState(patch)
  {
  }

  lemma ResetIdempotent(state: GameState)
    ensures ResetGameState(ResetGameState(state)) == ResetGameState(state)
  {
  }

  /** After a goal: puck back on the centre spot, paddles recentred
      horizontally but left at their current depth. */
  function ResetAfterGoal(state: GameState): (r: GameState)
    ensures r.puck == CentrePuck(state.tableWidth, state.tableHeight, state.puck.radius)
    ensures r.humanPaddle == state.humanPaddle.(x := state.tableWidth / 2.0)
    ensures r.aiPaddle == state.aiPaddle.(x := state.tableWidth / 2.0)
    ensures !r.isPaused && !r.gameStarted
    ensures r.(puck := state.puck, humanPaddle := state.humanPaddle, aiPaddle := state.aiPaddle,
               isPaused := state.isPaused, gameStarted := state.gameStarted) == state
  {
    state.(
      puck := CentrePuck(state.tableWidth, state.tableHeight, state.puck.radius),
      humanPaddle := state.humanPaddle.(x := state.tableWidth / 2.0),
      aiPaddle := state.aiPaddle.(x := state.tableWidth / 2.0),
      isPaused := false,
      gameStarted := false)
  }

  function UpdateDifficulty(state: GameState, difficulty: Difficulty): (r: GameState)
    ensures r.difficulty == difficulty
    ensures r.(difficulty := state.difficulty) == state
  {
    state.(difficulty := difficulty)
  }

  function UpdateAiMode(state: GameState, aiMode: AiMode): (r: GameState)
    ensures r.aiMode == aiMode
    ensures r.(aiMode := state.aiMode) == state
  {
    state.(aiMode := aiMode)
  }

  /** Serve: each component of the puck velocity is `(Math.random() - 0.5) *
      200` for its own draw, so strictly below 100 and at least -100 px/s. */
  function StartGame(state: GameState, randX: real, randY: real): (r: GameState)
    requires 0.0 <= randX < 1.0 && 0.0 <= randY < 1.0
    ensures r.gameStarted && !r.isPaused
    ensures -100.0 <= r.puck.vx < 100.0 && -100.0 <= r.puck.vy < 100.0
    ensures r.puck.vx == (randX - 0.5) * 200.0 && r.puck.vy == (randY - 0.5) * 200.0
    ensures r.puck.(vx := state.puck.vx, vy := state.puck.vy) == state.puck
    ensures r.(puck := state.puck, isPaused := state.isPaused, gameStarted := state.gameStarted) == state
  {
    state.(gameStarted := true, isPaused := false,
           puck := state.puck.(vx := (randX - 0.5) * 200.0, vy := (randY - 0.5) * 200.0))
  }

  /** Toggle. */
  function PauseGame(state: GameState): (r: GameState)
    ensures r.isPaused == !state.isPaused
    ensures r.(isPaused := state.isPaused) == state
  {
    state.(isPaused := !state.isPaused)
  }

  lemma PauseTwiceIsIdentity(state: GameState)
    ensures PauseGame(PauseGame(state)) == state
  {
  }

  /** One point to the scorer and nothing else. */
  function UpdateScore(state: GameState, scorer: Scorer): (r: GameState)
    ensures r.humanScore + r.aiScore == state.humanScore + state.aiScore + 1
    ensures scorer == Human ==> r.humanScore == state.humanScore + 1 && r.aiScore == state.aiScore
    ensures scorer == Ai ==> r.aiScore == state.aiScore + 1 && r.humanScore == state.humanScore
    ensures r.(humanScore := state.humanScore, aiScore := state.aiScore) == state
  {
    match scorer
    case Human => state.(humanScore := state.humanScore + 1)
    case Ai => state.(aiScore := state.aiScore + 1)
  }

  /** What a goal does to the game, score then reset: the point is kept and
      the puck is back on the centre spot, not in play. */
  lemma GoalKeepsThePoint(state: GameState, scorer: Scorer)
    ensures var r := ResetAfterGoal(UpdateScore(state, scorer));
      r.humanScore + r.aiScore == state.humanScore + state.aiScore + 1 &&
      (scorer == Human ==> r.humanScore == state.humanScore + 1) &&
      (scorer == Ai ==> r.aiScore == state.aiScore + 1) &&
      r.puck == CentrePuck(state.tableWidth, state.tableHeight, state.puck.radius) &&
      !r.gameStarted
  {
  }

  /** JavaScript truthiness of an optional number (NaN is not modelled). */
  predicate Falsy(t: Option<real>)
  {
    t.None? || t.value == 0.0
  }

  /** The countdown: with no limit, or once time is up, nothing changes;
      otherwise the remaining time drops by the step and stops at zero. */
  function UpdateTimeRemaining(state: GameState, deltaTime: real): (r: GameState)
    ensures Falsy(state.timeLimit) || Falsy(state.timeRemaining) ==> r == state
    ensures !Falsy(state.timeLimit) && !Falsy(state.timeRemaining) ==>
      r.timeRemaining == Some(Max(0.0, state.timeRemaining.value - deltaTime))
    ensures r.timeRemaining.Some? ==> state.timeRemaining.Some?
    ensures r.timeRemaining != state.timeRemaining ==> 0.0 <= r.timeRemaining.value
    ensures 0.0 <= deltaTime && state.timeRemaining.Some? && 0.0 <= state.timeRemaining.value ==>
      r.timeRemaining.value <= state.timeRemaining.value
    ensures r.(timeRemaining := state.timeRemaining) == state
  {
    if Falsy(state.timeLimit) || Falsy(state.timeRemaining) then state
    else state.(timeRemaining := Some(Max(0.0, state.timeRemaining.value - deltaTime)))
  }

  /** n frames of the countdown. */
  function CountDown(state: GameState, deltaTime: real, n: nat): GameState
  {
    if n == 0 then state else UpdateTimeRemaining(CountDown(state, deltaTime, n - 1), deltaTime)
  }

  /** The countdown touches nothing but the remaining time. */
  lemma {:induction false} CountDownOnlyTouchesTheClock(state: GameState, deltaTime: real, n: nat)
    ensures CountDown(state, deltaTime, n).(timeRemaining := state.timeRemaining) == state
  {
    if n > 0 {
      CountDownOnlyTouchesTheClock(state, deltaTime, n - 1);
    }
  }

  /** Time elapsed over n steps of dt, summed step by step. */
  function Elapsed(deltaTime: real, n: nat): real
  {
    if n == 0 then 0.0 else Elapsed(deltaTime, n - 1) + deltaTime
  }

  lemma {:induction false} ElapsedIsProduct(deltaTime: real, n: nat)
    ensures Elapsed(deltaTime, n) == (n as real) * deltaTime
  {
    if n > 0 {
      ElapsedIsProduct(deltaTime, n - 1);
      assert (n as real) * deltaTime == ((n - 1) as real) * deltaTime + deltaTime;
    }
  }

  /** The clock after n steps is the start minus the elapsed time, never
      below zero. */
  lemma {:induction false} CountDownSubtractsElapsed(state: GameState, deltaTime: real, n: nat)
    requires !Falsy(state.timeLimit) && state.timeRemaining.Some? && 0.0 <= state.timeRemaining.value
    requires 0.0 <= deltaTime
    ensures CountDown(state, deltaTime, n).timeRemaining ==
      Some(Max(0.0, state.timeRemaining.value - Elapsed(deltaTime, n)))
  {
    if n > 0 {
      CountDownSubtractsElapsed(state, deltaTime, n - 1);
      CountDownOnlyTouchesTheClock(state, deltaTime, n - 1);
      var previous := CountDown(state, deltaTime, n - 1);
      var before := state.timeRemaining.value - Elapsed(deltaTime, n - 1);
      assert previous.timeLimit == state.timeLimit;
      if before <= 0.0 {
        assert Falsy(previous.timeRemaining);
      } else {
        assert previous.timeRemaining == Some(before);
      }
    }
  }

  /** n steps of dt leave max(0, t - n dt) on the clock: the countdown never
      goes negative, and once it reaches zero it stays there. */
  lemma CountDownReachesZero(state: GameState, deltaTime: real, n: nat)
    requires !Falsy(state.timeLimit) && state.timeRemaining.Some? && 0.0 <= state.timeRemaining.value
    requires 0.0 <= deltaTime
    ensures CountDown(state, deltaTime, n).timeRemaining ==
      Some(Max(0.0, state.timeRemaining.value - (n as real) * deltaTime))
  {
    CountDownSubtractsElapsed(state, deltaTime, n);
    ElapsedIsProduct(deltaTime, n);
  }
}
