/** The records the game passes around: puck, paddles, game state and the
    targeting request/response shapes (frontend/game/types.ts,
    backend/schemas.py). All coordinates are canvas pixels, y growing
    downwards: the AI defends y = 0, the human defends y = tableHeight. */
module Types {

  datatype Option<T> = None | Some(value: T)

  datatype Vec = Vec(x: real, y: real)

  /** PuckState: centre, velocity in pixels per second, radius. */
  datatype Puck = Puck(x: real, y: real, vx: real, vy: real, radius: real)

  /** A paddle as the code reads it. The collision test, the clamps, the
      reset functions and the backend heuristic read `width` and `height`
      (an axis-aligned rectangle centred on (x, y)); the client heuristic
      and the frame loop's push-out read `radius`, which the declared
      type has but which createInitialState never writes, hence the
      Option. */
  datatype Paddle = Paddle(x: real, y: real, width: real, height: real, radius: Option<real>)

  datatype Difficulty = Easy | Medium | Hard

  datatype AiMode = RuleBased | ModelBased

  /** The side that scored a goal. */
  datatype Scorer = Human | Ai

  datatype GameState = GameState(
    puck: Puck,
    humanPaddle: Paddle,
    aiPaddle: Paddle,
    tableWidth: real,
    tableHeight: real,
    humanScore: nat,
    aiScore: nat,
    difficulty: Difficulty,
    aiMode: AiMode,
    isPaused: bool,
    gameStarted: bool,
    timeLimit: Option<real>,
    timeRemaining: Option<real>)

  /** The targeting response: where the AI paddle's centre should go. */
  datatype AiTarget = AiTarget(targetX: real, targetY: real)

  /** The three ways a heuristic reads the table: strike an idle puck in its
      own court, intercept a puck that is coming or already there, or fall
      back while the puck travels away. */
  datatype Decision = IdleOffense | AggressiveIntercept | DefensiveReposition
}
