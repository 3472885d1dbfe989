/** The server-side targeting heuristic (backend/models/ai.py):
    rule_based_ai, the model_based_ai stand-in and the compute_ai_move
    dispatcher. random.uniform(-n, n) is the parameter `noise`, which can
    take either end of the range. */
module BackendAi {
  import opened Types
  import opened Numeric

  /** The request as rule_based_ai reads it. It reads the AI paddle's
      `width` and `height`, so those are carried here. */
  datatype AiRequest = AiRequest(
    puck: Puck,
    humanPaddle: Paddle,
    aiPaddle: Paddle,
    tableWidth: real,
    tableHeight: real,
    difficulty: Difficulty,
    aiMode: AiMode)

  const NearDistance: real := 150.0
  const OptimalHitFraction: real := 0.3
  const DefensiveFraction: real := 0.4

  /** Half-width of the uniform noise added to the target x. */
  function NoiseRange(difficulty: Difficulty): (n: real)
    ensures 0.0 < n
  {
    match difficulty
    case Easy => 30.0
    case Medium => 10.0
    case Hard => 2.0
  }

  predicate PuckInAiCourt(req: AiRequest)
  {
    req.puck.y < req.tableHeight / 2.0
  }

  /** `distance_to_puck < 150`, compared on squares. */
  predicate PaddleNearPuck(req: AiRequest)
  {
    (req.puck.x - req.aiPaddle.x) * (req.puck.x - req.aiPaddle.x) +
    (req.puck.y - req.aiPaddle.y) * (req.puck.y - req.aiPaddle.y) < NearDistance * NearDistance
  }

  /** Unlike the client, the server has no separate idle case: a puck in
      the AI's half or coming up is intercepted, anything else defended. */
  function BackendDecision(req: AiRequest): (d: Decision)
    ensures d != IdleOffense
    ensures d == AggressiveIntercept <==> req.puck.vy < 0.0 || PuckInAiCourt(req)
  {
    if req.puck.vy < 0.0 || PuckInAiCourt(req) then AggressiveIntercept else DefensiveReposition
  }

  function OptimalHitY(req: AiRequest): real
  {
    req.tableHeight / 2.0 * OptimalHitFraction
  }

  /** Intercept height: the puck's own y once it is past the optimal height. */
  function InterceptY(req: AiRequest): (y: real)
    ensures y == Min(req.puck.y, OptimalHitY(req))
  {
    if req.puck.y < OptimalHitY(req) then req.puck.y else OptimalHitY(req)
  }

  /** `t_intercept`: zero when chasing a puck already past the optimal
      height, otherwise the time its vertical motion takes to get there. */
  function InterceptTime(req: AiRequest): (t: real)
    requires req.puck.vy != 0.0
    ensures req.puck.y + req.puck.vy * t == InterceptY(req)
  {
    if req.puck.y < OptimalHitY(req) then 0.0
    else
      var t := (OptimalHitY(req) - req.puck.y) / req.puck.vy;
      assert req.puck.vy * t == OptimalHitY(req) - req.puck.y;
      t
  }

  /** The x aimed at before noise when the puck moves vertically: 0.1 s
      ahead of a near puck, else where its path meets the intercept height. */
  function PredictedX(req: AiRequest): real
    requires req.puck.vy != 0.0
  {
    if PaddleNearPuck(req) then req.puck.x + req.puck.vx * 0.1
    else req.puck.x + req.puck.vx * InterceptTime(req)
  }

  function HalfWidth(req: AiRequest): real { req.aiPaddle.width / 2.0 }

  function HalfHeight(req: AiRequest): real { req.aiPaddle.height / 2.0 }

  predicate InAiCourtBounds(t: AiTarget, req: AiRequest)
  {
    HalfWidth(req) <= t.targetX <= req.tableWidth - HalfWidth(req) &&
    HalfHeight(req) <= t.targetY <= req.tableHeight / 2.0 - HalfHeight(req)
  }

  /** rule_based_ai before its noise step. In the defensive branch a puck
      that is not moving down has vy = 0, so the intercept written for a
      puck moving up is never taken and the result is the centre of the
      AI's half. */
  function RuleBasedAim(req: AiRequest): (r: AiTarget)
    ensures BackendDecision(req) == AggressiveIntercept &&
            HalfWidth(req) <= req.tableWidth - HalfWidth(req) &&
            HalfHeight(req) <= req.tableHeight / 2.0 - HalfHeight(req) ==>
      InAiCourtBounds(r, req)
    ensures BackendDecision(req) == AggressiveIntercept && req.puck.vy != 0.0 ==>
      r.targetX == Clamp(PredictedX(req), HalfWidth(req), req.tableWidth - HalfWidth(req)) &&
      r.targetY == Clamp(InterceptY(req), HalfHeight(req), req.tableHeight / 2.0 - HalfHeight(req))
    ensures BackendDecision(req) == AggressiveIntercept && req.puck.vy == 0.0 ==>
      r.targetX == Clamp(req.puck.x, HalfWidth(req), req.tableWidth - HalfWidth(req)) &&
      r.targetY == Clamp(req.puck.y - 30.0, HalfHeight(req), req.tableHeight / 2.0 - HalfHeight(req))
    ensures BackendDecision(req) == DefensiveReposition && req.puck.vy > 0.0 ==>
      r == AiTarget(req.tableWidth / 2.0, DefensiveFraction * (req.tableHeight / 2.0))
    ensures BackendDecision(req) == DefensiveReposition && req.puck.vy <= 0.0 ==>
      r == AiTarget(req.tableWidth / 2.0, req.tableHeight / 2.0 / 2.0)
  {
    var puck := req.puck;
    var centerLineY := req.tableHeight / 2.0;
    var halfWidth, halfHeight := HalfWidth(req), HalfHeight(req);
    if puck.vy < 0.0 || PuckInAiCourt(req) then
      if puck.vy != 0.0 then
        AiTarget(Clamp(PredictedX(req), halfWidth, req.tableWidth - halfWidth),
                 Clamp(InterceptY(req), halfHeight, centerLineY - halfHeight))
      else
        AiTarget(Clamp(puck.x, halfWidth, req.tableWidth - halfWidth),
                 Clamp(puck.y - 30.0, halfHeight, centerLineY - halfHeight))
    else if puck.vy > 0.0 then
      AiTarget(req.tableWidth / 2.0, centerLineY * DefensiveFraction)
    else
      assert puck.vy == 0.0;
      AiTarget(req.tableWidth / 2.0, centerLineY / 2.0)
  }

  /** rule_based_ai: the aim, then `noise` on x, then a last clamp of x into
      the table. The noise never touches y, the final x is on the table, and
      it is within the difficulty's noise range of the clamped aim. */
  function RuleBasedAi(req: AiRequest, noise: real): (r: AiTarget)
    requires -NoiseRange(req.difficulty) <= noise <= NoiseRange(req.difficulty)
    ensures r.targetY == RuleBasedAim(req).targetY
    ensures HalfWidth(req) <= req.tableWidth - HalfWidth(req) ==>
      HalfWidth(req) <= r.targetX <= req.tableWidth - HalfWidth(req)
    ensures Abs(r.targetX - Clamp(RuleBasedAim(req).targetX, HalfWidth(req), req.tableWidth - HalfWidth(req)))
      <= NoiseRange(req.difficulty)
  {
    var aim := RuleBasedAim(req);
    var lo, hi := HalfWidth(req), req.tableWidth - HalfWidth(req);
    ClampNonExpansive(aim.targetX + noise, aim.targetX, lo, hi);
    AiTarget(Clamp(aim.targetX + noise, lo, hi), aim.targetY)
  }

  /** With the table wide enough for the paddle, an offensive aim is already
      on the table, so the final x strays from it by no more than the noise. */
  lemma OffensiveAimWithinNoise(req: AiRequest, noise: real)
    requires -NoiseRange(req.difficulty) <= noise <= NoiseRange(req.difficulty)
    requires BackendDecision(req) == AggressiveIntercept
    requires HalfWidth(req) <= req.tableWidth - HalfWidth(req)
    requires HalfHeight(req) <= req.tableHeight / 2.0 - HalfHeight(req)
    ensures Abs(RuleBasedAi(req, noise).targetX - RuleBasedAim(req).targetX) <= NoiseRange(req.difficulty)
    ensures InAiCourtBounds(RuleBasedAi(req, noise), req)
  {
  }

  /** The model-based stand-in delegates to the rule-based heuristic. */
  function ModelBasedAi(req: AiRequest, noise: real): (r: AiTarget)
    requires -NoiseRange(req.difficulty) <= noise <= NoiseRange(req.difficulty)
    ensures r == RuleBasedAi(req, noise)
  {
    RuleBasedAi(req, noise)
  }

  /** compute_ai_move: dispatch on the mode; both modes run the same
      heuristic. */
  function ComputeAiMove(req: AiRequest, noise: real): (r: AiTarget)
    requires -NoiseRange(req.difficulty) <= noise <= NoiseRange(req.difficulty)
    ensures r == RuleBasedAi(req, noise)
  {
    if req.aiMode == ModelBased then ModelBasedAi(req, noise) else RuleBasedAi(req, noise)
  }

  /** The selected mode never changes the answer. */
  lemma ModeDoesNotMatter(req: AiRequest, noise: real, mode: AiMode)
    requires -NoiseRange(req.difficulty) <= noise <= NoiseRange(req.difficulty)
    ensures ComputeAiMove(req.(aiMode := mode), noise) == ComputeAiMove(req, noise)
  {
    var other := req.(aiMode := mode);
    assert other.puck == req.puck && other.aiPaddle == req.aiPaddle;
    assert BackendDecision(other) == BackendDecision(req);
    assert InterceptY(other) == InterceptY(req);
    if req.puck.vy != 0.0 {
      assert InterceptTime(other) == InterceptTime(req);
      assert PredictedX(other) == PredictedX(req);
    }
    assert RuleBasedAim(other) == RuleBasedAim(req);
  }

  /** Harder settings add less noise. */
  lemma HarderIsSteadier()
    ensures NoiseRange(Hard) < NoiseRange(Medium) < NoiseRange(Easy)
  {
  }
}
