/** The browser-side fallback targeting heuristic, clientSideAi
    (frontend/game/aiClient.ts). Math.random() is the parameter `rand`,
    one draw in [0, 1) per call. Square-root thresholds are compared on
    squares, which is the same test for an exact square root. JavaScript
    arithmetic decides two edge cases that the model spells out: a missing
    paddle radius turns every clamp into NaN, and the defensive branch that
    divides by a zero vertical velocity yields an infinite time, so an
    infinite predicted x that the clamp folds back onto a table bound. */
module ClientAi {
  import opened Types
  import opened Numeric
  import opened GameStates

  const IdleSpeed: real := 20.0
  const NearDistance: real := 150.0
  /** Share of the centre-line distance at which the AI likes to strike. */
  const OptimalHitFraction: real := 0.3
  const DefensiveFraction: real := 0.4

  predicate PuckInAiCourt(state: GameState)
  {
    state.puck.y < state.tableHeight / 2.0
  }

  /** Speed under 20 px/s. */
  predicate PuckIsIdle(puck: Puck)
  {
    puck.vx * puck.vx + puck.vy * puck.vy < IdleSpeed * IdleSpeed
  }

  /** Centre-to-centre distance under 150 px. */
  predicate PaddleNearPuck(puck: Puck, paddle: Paddle)
  {
    (puck.x - paddle.x) * (puck.x - paddle.x) + (puck.y - paddle.y) * (puck.y - paddle.y) <
      NearDistance * NearDistance
  }

  /** The sequence of tests in clientSideAi: an idle puck in the AI's court
      is struck, a puck coming up or already in the AI's half is intercepted,
      anything else is defended against. */
  function ClientDecision(state: GameState): (d: Decision)
    ensures d == IdleOffense <==> PuckIsIdle(state.puck) && PuckInAiCourt(state)
    ensures d == DefensiveReposition <==> !PuckInAiCourt(state) && state.puck.vy >= 0.0
    ensures d == AggressiveIntercept <==>
      (state.puck.vy < 0.0 || PuckInAiCourt(state)) && !(PuckIsIdle(state.puck) && PuckInAiCourt(state))
  {
    if PuckIsIdle(state.puck) && PuckInAiCourt(state) then IdleOffense
    else if state.puck.vy < 0.0 || PuckInAiCourt(state) then AggressiveIntercept
    else DefensiveReposition
  }

  /** `rand * 2s - s`: a uniform error in [-s, s). */
  function HumanError(rand: real, spread: real): (e: real)
    requires 0.0 <= rand < 1.0 && 0.0 < spread
    ensures -spread <= e < spread
  {
    rand * (2.0 * spread) - spread
  }

  /** The result of clientSideAi. Where a coordinate is NaN in the source
      the model names that outcome instead of inventing a number. */
  datatype ClientAim =
    | Aimed(target: AiTarget)
      /** x is NaN(Infinity times zero, or 0 / 0, or an undefined radius); y is numeric. */
    | TargetXNaN(targetY: real)
      /** Both coordinates are NaN, because the clamps read an undefined radius. */
    | RadiusUndefined

  /** Both clamps of the offensive branches: x within the table and y within
      the AI's half, a paddle radius from every edge. */
  function ClampToAiCourt(x: real, y: real, radius: real, state: GameState): AiTarget
  {
    AiTarget(Clamp(x, radius, state.tableWidth - radius), Clamp(y, radius, state.tableHeight / 2.0 - radius))
  }

  predicate InAiCourtBounds(t: AiTarget, radius: real, state: GameState)
  {
    radius <= t.targetX <= state.tableWidth - radius &&
    radius <= t.targetY <= state.tableHeight / 2.0 - radius
  }

  /** The y at which to meet the puck: where it already is if it has passed
      the optimal height, the optimal height otherwise. */
  function ClientInterceptY(state: GameState): (y: real)
    ensures y == Min(state.puck.y, OptimalHitFraction * (state.tableHeight / 2.0))
  {
    var optimalHitY := state.tableHeight / 2.0 * OptimalHitFraction;
    if state.puck.y < optimalHitY then state.puck.y else optimalHitY
  }

  /** Seconds until a puck moving at vy reaches the intercept height. */
  function ClientInterceptTime(state: GameState): (t: real)
    requires state.puck.vy != 0.0
    ensures state.puck.y + state.puck.vy * t == ClientInterceptY(state)
  {
    var t := (ClientInterceptY(state) - state.puck.y) / state.puck.vy;
    assert state.puck.vy * t == ClientInterceptY(state) - state.puck.y;
    t
  }

  /** The client heuristic. With an undefined radius everything except the
      "puck moving down and away" branch is NaN. In the dead-slow defensive
      branch (vy = 0, puck in the human's half) the time to intercept is
      (0.3c - y) / 0, which is infinite with the numerator's sign; the
      predicted x is then infinite with the sign of numerator times vx, or
      NaN when either is zero. Positive zero is assumed for vy. */
  function ClientSideAi(state: GameState, rand: real): (r: ClientAim)
    requires 0.0 <= rand < 1.0
    ensures r.RadiusUndefined? <==>
      state.aiPaddle.radius.None? && ClientDecision(state) != DefensiveReposition
    ensures r.TargetXNaN? <==>
      ClientDecision(state) == DefensiveReposition && state.puck.vy == 0.0 &&
      (state.aiPaddle.radius.None? || state.puck.vx == 0.0 ||
       OptimalHitFraction * (state.tableHeight / 2.0) - state.puck.y == 0.0)
    ensures r.TargetXNaN? ==> r.targetY == OptimalHitFraction * (state.tableHeight / 2.0)
    ensures ClientDecision(state) == DefensiveReposition && state.puck.vy > 0.0 ==>
      r == Aimed(AiTarget(state.tableWidth / 2.0, DefensiveFraction * (state.tableHeight / 2.0)))
    ensures r.Aimed? && ClientDecision(state) != DefensiveReposition ==>
      var radius := state.aiPaddle.radius.value;
      radius <= state.tableWidth - radius && radius <= state.tableHeight / 2.0 - radius ==>
        InAiCourtBounds(r.target, radius, state)
    ensures r.Aimed? && ClientDecision(state) == DefensiveReposition && state.puck.vy == 0.0 ==>
      var radius := state.aiPaddle.radius.value;
      r.target.targetY == OptimalHitFraction * (state.tableHeight / 2.0) &&
      (r.target.targetX == radius || r.target.targetX == Max(radius, state.tableWidth - radius))
  {
    var puck := state.puck;
    var centerLineY := state.tableHeight / 2.0;
    match ClientDecision(state)
    case IdleOffense =>
      if state.aiPaddle.radius.None? then RadiusUndefined
      else
        var targetX := puck.x + HumanError(rand, 15.0);
        Aimed(ClampToAiCourt(targetX, puck.y - 25.0, state.aiPaddle.radius.value, state))
    case AggressiveIntercept =>
      if state.aiPaddle.radius.None? then RadiusUndefined
      else if puck.vy != 0.0 then
        var interceptY := ClientInterceptY(state);
        var predictedX := puck.x + puck.vx * ClientInterceptTime(state);
        var targetX :=
          if PaddleNearPuck(puck, state.aiPaddle) then puck.x + puck.vx * 0.1 + HumanError(rand, 10.0)
          else predictedX;
        Aimed(ClampToAiCourt(targetX, interceptY, state.aiPaddle.radius.value, state))
      else
        var targetX := puck.x + HumanError(rand, 20.0);
        Aimed(ClampToAiCourt(targetX, puck.y - 30.0, state.aiPaddle.radius.value, state))
    case DefensiveReposition =>
      if puck.vy > 0.0 then Aimed(AiTarget(state.tableWidth / 2.0, centerLineY * DefensiveFraction))
      else
        // vy == 0 here: t = (interceptY - y) / 0 is +/-Infinity or NaN.
        var interceptY := centerLineY * OptimalHitFraction;
        var numerator := interceptY - puck.y;
        if state.aiPaddle.radius.None? || puck.vx == 0.0 || numerator == 0.0 then TargetXNaN(interceptY)
        else
          var radius := state.aiPaddle.radius.value;
          var towardsPlusInfinity := (numerator > 0.0) == (puck.vx > 0.0);
          var targetX := if towardsPlusInfinity then Max(radius, state.tableWidth - radius) else radius;
          Aimed(AiTarget(targetX, interceptY))
  }

  /** Striking an idle puck: x lands within 15 px of the (clamped) puck x,
      y is 25 px above the puck, clamped into the AI's half. */
  lemma IdleStrikeStaysNearPuck(state: GameState, rand: real)
    requires 0.0 <= rand < 1.0
    requires ClientDecision(state) == IdleOffense && state.aiPaddle.radius.Some?
    ensures var r := ClientSideAi(state, rand);
      var radius := state.aiPaddle.radius.value;
      r.Aimed? &&
      Abs(r.target.targetX - Clamp(state.puck.x, radius, state.tableWidth - radius)) <= 15.0 &&
      r.target.targetY == Clamp(state.puck.y - 25.0, radius, state.tableHeight / 2.0 - radius)
  {
    var radius := state.aiPaddle.radius.value;
    ClampNonExpansive(state.puck.x + HumanError(rand, 15.0), state.puck.x, radius, state.tableWidth - radius);
  }

  /** A far, moving puck is met where its straight-line path crosses the
      intercept height: the predicted x is the puck's x after the time it
      needs to reach that height. */
  lemma FarInterceptIsOnTrajectory(state: GameState, rand: real)
    requires 0.0 <= rand < 1.0
    requires ClientDecision(state) == AggressiveIntercept && state.aiPaddle.radius.Some?
    requires state.puck.vy != 0.0 && !PaddleNearPuck(state.puck, state.aiPaddle)
    ensures ClientSideAi(state, rand).Aimed?
    ensures ClientSideAi(state, rand).target.targetX ==
      Clamp(state.puck.x + state.puck.vx * ClientInterceptTime(state),
            state.aiPaddle.radius.value, state.tableWidth - state.aiPaddle.radius.value)
    ensures ClientSideAi(state, rand).target.targetY ==
      Clamp(ClientInterceptY(state), state.aiPaddle.radius.value,
            state.tableHeight / 2.0 - state.aiPaddle.radius.value)
  {
  }

  /** A near, moving puck: aim 0.1 s ahead of it, give or take 10 px, at
      the (clamped) intercept height. */
  lemma NearInterceptLeadsPuck(state: GameState, rand: real)
    requires 0.0 <= rand < 1.0
    requires ClientDecision(state) == AggressiveIntercept && state.aiPaddle.radius.Some?
    requires state.puck.vy != 0.0 && PaddleNearPuck(state.puck, state.aiPaddle)
    ensures var r := ClientSideAi(state, rand);
      var radius := state.aiPaddle.radius.value;
      r.Aimed? &&
      Abs(r.target.targetX - Clamp(state.puck.x + state.puck.vx * 0.1, radius, state.tableWidth - radius)) <= 10.0 &&
      r.target.targetY == Clamp(ClientInterceptY(state), radius, state.tableHeight / 2.0 - radius)
  {
    var radius := state.aiPaddle.radius.value;
    var lead := state.puck.x + state.puck.vx * 0.1;
    ClampNonExpansive(lead + HumanError(rand, 10.0), lead, radius, state.tableWidth - radius);
  }

  /** A puck with no vertical motion in the AI's half is struck from 30 px
      above, give or take 20 px sideways. */
  lemma LevelPuckStrike(state: GameState, rand: real)
    requires 0.0 <= rand < 1.0
    requires ClientDecision(state) == AggressiveIntercept && state.aiPaddle.radius.Some?
    requires state.puck.vy == 0.0
    ensures var r := ClientSideAi(state, rand);
      var radius := state.aiPaddle.radius.value;
      r.Aimed? &&
      Abs(r.target.targetX - Clamp(state.puck.x, radius, state.tableWidth - radius)) <= 20.0 &&
      r.target.targetY == Clamp(state.puck.y - 30.0, radius, state.tableHeight / 2.0 - radius)
  {
    var radius := state.aiPaddle.radius.value;
    ClampNonExpansive(state.puck.x + HumanError(rand, 20.0), state.puck.x, radius, state.tableWidth - radius);
  }

  /** A puck at rest on the centre line, as every created state has it,
      takes the defensive division by zero, and 0 * Infinity makes the
      target x NaN, whatever the configuration and the random draw. (The
      game asks for a target only once it has started, and starting gives
      the puck a velocity.) */
  lemma RestingCentrePuckAimsAtNaN(patch: ConfigPatch, rand: real)
    requires 0.0 <= rand < 1.0
    ensures ClientSideAi(CreateInitialState(patch), rand).TargetXNaN?
  {
  }

  /** Once a created game has been started with the puck served upwards
      (the vertical draw below one half), the heuristic is offensive, and
      since no paddle radius was ever set both target coordinates are NaN. */
  lemma StartedGameWithoutRadiusAimsAtNaN(patch: ConfigPatch, randX: real, randY: real, rand: real)
    requires 0.0 <= randX < 1.0 && 0.0 <= randY < 0.5 && 0.0 <= rand < 1.0
    ensures ClientSideAi(StartGame(CreateInitialState(patch), randX, randY), rand).RadiusUndefined?
  {
  }
}
