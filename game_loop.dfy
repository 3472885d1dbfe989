/** One animation frame of the canvas component
    (frontend/components/GameCanvas.tsx): the refs the loop keeps between
    frames, the frame itself, and the two effects that write those refs from
    the outside. Drawing, requestAnimationFrame, the goal callback's timer
    and the AI polling are left to the host; the frame receives the canvas
    size, the pointer, the last AI response and the celebration flag as
    inputs and reports what it would hand to the host. */
module GameLoop {
  import opened Types
  import opened Numeric
  import opened Physics

  const PaddleSpeed: real := 600.0
  /** Frames further apart than this many seconds are skipped. */
  const MaxFrameStep: real := 0.1

  /** AI_SPEED_MULTIPLIERS; the `|| 0.7` fallback cannot fire for a valid
      difficulty. */
  function SpeedMultiplier(difficulty: Difficulty): (k: real)
    ensures 0.0 < k <= 1.0
  {
    match difficulty
    case Easy => 0.4
    case Medium => 0.7
    case Hard => 1.0
  }

  /** The AI paddle's per-frame cap: the paddle speed scaled by the
      difficulty's multiplier, times the frame time. */
  function AiMaxMove(difficulty: Difficulty, dt: real): (r: real)
    ensures 0.0 <= dt ==> 0.0 <= r <= PaddleSpeed * dt
  {
    PaddleSpeed * SpeedMultiplier(difficulty) * dt
  }

  function Position(paddle: Paddle): Vec { Vec(paddle.x, paddle.y) }

  // ---------------------------------------------------------------------
  // Paddle motion

  /** The step towards a target `distance` away, capped at maxMove: the
      source's sign-times-capped-magnitude, written by cases (see
      MoveStepIsSignTimesCap). */
  function MoveStep(distance: real, maxMove: real): (m: real)
    ensures 0.0 <= maxMove ==> Abs(m) <= maxMove && Abs(m) <= Abs(distance)
    ensures 0.0 <= maxMove ==> m == 0.0 || (m > 0.0) == (distance > 0.0)
    ensures Abs(distance) <= maxMove ==> m == distance
    ensures 0.0 <= maxMove < Abs(distance) ==> Abs(m) == maxMove
  {
    if distance > 0.0 then Min(distance, maxMove)
    else if distance < 0.0 then -Min(-distance, maxMove)
    else 0.0
  }

  /** The cases agree with `Math.sign(d) * Math.min(Math.abs(d), maxMove)`. */
  lemma MoveStepIsSignTimesCap(distance: real, maxMove: real)
    ensures MoveStep(distance, maxMove) == Sign(distance) * Min(Abs(distance), maxMove)
  {
  }

  function MoveToward(current: real, target: real, maxMove: real): real
  {
    current + MoveStep(target - current, maxMove)
  }

  /** A capped step lands between the start and the target: it never
      overshoots and never moves away. */
  lemma MoveTowardNeverOvershoots(current: real, target: real, maxMove: real)
    requires 0.0 <= maxMove
    ensures var next := MoveToward(current, target, maxMove);
      (current <= next <= target || target <= next <= current) &&
      Abs(target - next) <= Abs(target - current) &&
      Abs(next - current) <= maxMove
  {
  }

  function MovePaddle(paddle: Paddle, target: Vec, maxMove: real): (r: Paddle)
    ensures r == paddle.(x := r.x, y := r.y)
  {
    paddle.(x := MoveToward(paddle.x, target.x, maxMove), y := MoveToward(paddle.y, target.y, maxMove))
  }

  /** Velocity from two positions dt apart; stepping back by it recovers the
      previous position. */
  function ObservedVelocity(last: Vec, now: Vec, dt: real): (v: Vec)
    requires dt != 0.0
    ensures last.x + v.x * dt == now.x && last.y + v.y * dt == now.y
  {
    var v := Vec((now.x - last.x) / dt, (now.y - last.y) / dt);
    assert v.x * dt == now.x - last.x && v.y * dt == now.y - last.y;
    v
  }

  /** What one paddle's part of a frame produces: the position written
      through the shared object (moved, not clamped), the clamped position
      the frame goes on with, and the two refs. */
  datatype PaddleUpdate = PaddleUpdate(aliased: Paddle, placed: Paddle, velocity: Vec, lastPos: Vec)

  /** The velocity ref after a move: the observed velocity when time went
      forward, the old value otherwise. */
  function FrameVelocity(lastPos: Vec, now: Vec, velocity: Vec, dt: real): (v: Vec)
    ensures 0.0 < dt ==> lastPos.x + v.x * dt == now.x && lastPos.y + v.y * dt == now.y
    ensures !(0.0 < dt) ==> v == velocity
  {
    if 0.0 < dt then ObservedVelocity(lastPos, now, dt) else velocity
  }

  function PaddleFrame(paddle: Paddle, lastPos: Vec, velocity: Vec, target: Option<Vec>, maxMove: real,
                       dt: real, tableWidth: real, tableHeight: real, isHuman: bool): (u: PaddleUpdate)
    ensures target.None? ==> u == PaddleUpdate(paddle, paddle, velocity, lastPos)
    ensures target.Some? ==>
      u.aliased == MovePaddle(paddle, target.value, maxMove) &&
      u.placed == ClampPaddleToBounds(u.aliased, tableWidth, tableHeight, isHuman) &&
      u.lastPos == Position(u.placed) &&
      u.velocity == FrameVelocity(lastPos, u.lastPos, velocity, dt)
  {
    if target.None? then PaddleUpdate(paddle, paddle, velocity, lastPos)
    else
      var moved := MovePaddle(paddle, target.value, maxMove);
      var placed := ClampPaddleToBounds(moved, tableWidth, tableHeight, isHuman);
      PaddleUpdate(moved, placed, FrameVelocity(lastPos, Position(placed), velocity, dt), Position(placed))
  }

  /** A paddle that starts in its court moves at most maxMove per axis in a
      frame, clamp included. */
  lemma PaddleFrameSpeedLimit(paddle: Paddle, lastPos: Vec, velocity: Vec, target: Vec, maxMove: real,
                              dt: real, tableWidth: real, tableHeight: real, isHuman: bool)
    requires 0.0 <= maxMove
    requires PaddleInCourt(paddle, tableWidth, tableHeight, isHuman)
    ensures var u := PaddleFrame(paddle, lastPos, velocity, Some(target), maxMove, dt, tableWidth, tableHeight, isHuman);
      Abs(u.placed.x - paddle.x) <= maxMove && Abs(u.placed.y - paddle.y) <= maxMove
  {
    var moved := MovePaddle(paddle, target, maxMove);
    var hw, hh := paddle.width / 2.0, paddle.height / 2.0;
    var top, bottom := CourtTop(tableHeight, hh, isHuman), CourtBottom(tableHeight, hh, isHuman);
    ClampNonExpansive(moved.x, paddle.x, hw, tableWidth - hw);
    ClampNonExpansive(moved.y, paddle.y, top, bottom);
    MoveTowardNeverOvershoots(paddle.x, target.x, maxMove);
    MoveTowardNeverOvershoots(paddle.y, target.y, maxMove);
  }

  // ---------------------------------------------------------------------
  // Puck motion within a frame

  /** A wall contact replaces the velocity and pulls the puck back onto the
      table; without one the puck is left alone. */
  function AfterWalls(puck: Puck, tableWidth: real, tableHeight: real): (r: Puck)
    ensures r.radius == puck.radius
    ensures puck.radius <= tableWidth - puck.radius && puck.radius <= tableHeight - puck.radius ==>
      PuckInside(r, tableWidth, tableHeight)
    ensures WallResponse(puck, tableWidth, tableHeight).NoWallHit? ==> r == puck
    ensures var w := WallResponse(puck, tableWidth, tableHeight);
      w.WallHit? ==>
        r.vx == w.newVx && r.vy == w.newVy &&
        r.x == Clamp(puck.x, puck.radius, tableWidth - puck.radius) &&
        r.y == Clamp(puck.y, puck.radius, tableHeight - puck.radius)
  {
    match WallResponse(puck, tableWidth, tableHeight)
    case NoWallHit => puck
    case WallHit(vx, vy) => ClampPuckToBounds(puck.(vx := vx, vy := vy), tableWidth, tableHeight)
  }

  /** The push-out after a paddle contact, on the centre distance. With no
      paddle radius the minimum distance is NaN and nothing moves. A puck
      on the paddle centre is put straight below the human's paddle (deeper
      into the human's own half) or straight above the AI's. */
  function Separate(puck: Puck, paddle: Paddle, isAi: bool, sqrt: real -> real): (r: Puck)
    ensures r.vx == puck.vx && r.vy == puck.vy && r.radius == puck.radius
    ensures paddle.radius.None? ==> r == puck
    ensures (paddle.radius.Some? &&
             !(sqrt(SqNorm(CentreOffset(puck, paddle))) < puck.radius + paddle.radius.value)) ==> r == puck
  {
    if paddle.radius.None? then puck
    else
      var d := CentreOffset(puck, paddle);
      var dist := sqrt(SqNorm(d));
      var minDist := puck.radius + paddle.radius.value;
      if !(dist < minDist) then puck
      else if dist < ContactEpsilon then
        puck.(x := paddle.x, y := if isAi then paddle.y - minDist else paddle.y + minDist)
      else
        puck.(x := paddle.x + d.x / dist * minDist, y := paddle.y + d.y / dist * minDist)
  }

  lemma SqNormScale(v: Vec, k: real)
    ensures SqNorm(Scale(v, k)) == (k * k) * SqNorm(v)
  {
  }

  /** With an exact square root the push-out leaves the centres at least
      the two radii apart, and exactly that far when it moved the puck. */
  lemma SeparationClearsOverlap(puck: Puck, paddle: Paddle, isAi: bool, sqrt: real -> real)
    requires paddle.radius.Some? && 0.0 <= puck.radius + paddle.radius.value
    requires SqrtAt(sqrt, SqNorm(CentreOffset(puck, paddle)))
    ensures var minDist := puck.radius + paddle.radius.value;
      var r := Separate(puck, paddle, isAi, sqrt);
      SqNorm(CentreOffset(r, paddle)) >= minDist * minDist &&
      (r != puck ==> SqNorm(CentreOffset(r, paddle)) == minDist * minDist)
  {
    var d := CentreOffset(puck, paddle);
    var dist := sqrt(SqNorm(d));
    var minDist := puck.radius + paddle.radius.value;
    var r := Separate(puck, paddle, isAi, sqrt);
    if !(dist < minDist) {
      SquareMonotone(minDist, dist);
    } else if dist < ContactEpsilon {
      assert CentreOffset(r, paddle) == Vec(0.0, if isAi then -minDist else minDist);
    } else {
      var n := Vec(d.x / dist, d.y / dist);
      DividedByLengthIsUnit(d, dist);
      SqNormScale(n, minDist);
      assert CentreOffset(r, paddle) == Scale(n, minDist);
    }
  }

  /** Where the push-out puts the puck: along the centre line, on the side
      the puck was on, or, for a puck on the paddle centre, straight below
      the human's paddle or straight above the AI's. */
  lemma SeparationPushesAlongCentreLine(puck: Puck, paddle: Paddle, isAi: bool, sqrt: real -> real)
    requires paddle.radius.Some?
    requires SqrtAt(sqrt, SqNorm(CentreOffset(puck, paddle)))
    requires sqrt(SqNorm(CentreOffset(puck, paddle))) < puck.radius + paddle.radius.value
    ensures var d := CentreOffset(puck, paddle);
      var e := CentreOffset(Separate(puck, paddle, isAi, sqrt), paddle);
      sqrt(SqNorm(d)) >= ContactEpsilon ==> e.x * d.y == e.y * d.x && Dot(e, d) > 0.0
    ensures var d := CentreOffset(puck, paddle);
      var minDist := puck.radius + paddle.radius.value;
      var r := Separate(puck, paddle, isAi, sqrt);
      sqrt(SqNorm(d)) < ContactEpsilon ==>
        r.x == paddle.x && r.y == (if isAi then paddle.y - minDist else paddle.y + minDist)
  {
    var d := CentreOffset(puck, paddle);
    var dist := sqrt(SqNorm(d));
    var minDist := puck.radius + paddle.radius.value;
    if dist >= ContactEpsilon {
      var n := Vec(d.x / dist, d.y / dist);
      DividedByLengthIsSameDirection(d, dist);
      var e := CentreOffset(Separate(puck, paddle, isAi, sqrt), paddle);
      assert e == Scale(n, minDist);
      assert e.x * d.y == minDist * (n.x * d.y);
      assert e.y * d.x == minDist * (n.y * d.x);
      assert Dot(e, d) == minDist * Dot(n, d);
      ProductPositive(minDist, Dot(n, d));
    }
  }

  /** How the puck's part of a frame ends: a goal (the frame stops before
      any contact), or the puck to publish. After a contact whose rescale
      divided by zero the velocity is NaN, so no later contact test can fire
      (every comparison with NaN is false) and the frame goes on with the
      position only; the fields then keep the velocity from before that
      contact. */
  datatype PuckStep = Goal(scorer: Scorer) | Settled(puck: Puck) | SettledVelocityNaN(puck: Puck)

  /** The contact with one paddle: push-out first, then the new velocity.
      The puck published after a hit stands where the push-out put it and
      moves with the hit's velocity; a miss leaves the puck untouched. */
  function AfterPaddle(puck: Puck, paddle: Paddle, paddleVelocity: Vec, isAi: bool, sqrt: real -> real): (r: PuckStep)
    ensures !r.Goal?
    ensures var h := PaddleResponse(puck, paddle, paddleVelocity.x, paddleVelocity.y, isAi, sqrt);
      var q := Separate(puck, paddle, isAi, sqrt);
      (h.Miss? ==> r == Settled(puck)) &&
      (h.Hit? ==> r.Settled? && r.puck.x == q.x && r.puck.y == q.y && r.puck.radius == puck.radius &&
                  r.puck.vx == h.newVx && r.puck.vy == h.newVy) &&
      (h.HitSpeedUndefined? <==> r.SettledVelocityNaN?) &&
      (r.SettledVelocityNaN? ==> r.puck == q)
  {
    match PaddleResponse(puck, paddle, paddleVelocity.x, paddleVelocity.y, isAi, sqrt)
    case Miss => Settled(puck)
    case Hit(vx, vy) => Settled(Separate(puck, paddle, isAi, sqrt).(vx := vx, vy := vy))
    case HitSpeedUndefined => SettledVelocityNaN(Separate(puck, paddle, isAi, sqrt))
  }

  /** Advance, goal check, walls, the human's paddle, then the AI's. */
  function PuckPhase(puck: Puck, human: Paddle, ai: Paddle, humanVelocity: Vec, aiVelocity: Vec,
                     tableWidth: real, tableHeight: real, dt: real, sqrt: real -> real): (r: PuckStep)
    ensures r.Goal? <==> CheckGoal(UpdatePuckPosition(puck, dt), tableWidth, tableHeight, DefaultGoalWidth).Some?
    ensures r.Goal? ==> Some(r.scorer) == CheckGoal(UpdatePuckPosition(puck, dt), tableWidth, tableHeight, DefaultGoalWidth)
    ensures !r.Goal? ==> r.puck.radius == puck.radius
  {
    var advanced := UpdatePuckPosition(puck, dt);
    var goal := CheckGoal(advanced, tableWidth, tableHeight, DefaultGoalWidth);
    if goal.Some? then Goal(goal.value)
    else
      var walled := AfterWalls(advanced, tableWidth, tableHeight);
      match AfterPaddle(walled, human, humanVelocity, false, sqrt)
      case SettledVelocityNaN(p) => SettledVelocityNaN(p)
      case Settled(p) => AfterPaddle(p, ai, aiVelocity, true, sqrt)
      case Goal(_) => assert false; Goal(Human)
  }

  /** A frame in which the puck touches neither paddle ends with the puck on
      the table (when the table is at least a puck wide and high): the only
      positional change is the wall clamp, and the goal check ran first. */
  lemma NoContactKeepsPuckOnTable(puck: Puck, human: Paddle, ai: Paddle, humanVelocity: Vec, aiVelocity: Vec,
                                  tableWidth: real, tableHeight: real, dt: real, sqrt: real -> real)
    requires puck.radius <= tableWidth - puck.radius && puck.radius <= tableHeight - puck.radius
    requires CheckGoal(UpdatePuckPosition(puck, dt), tableWidth, tableHeight, DefaultGoalWidth).None?
    requires var walled := AfterWalls(UpdatePuckPosition(puck, dt), tableWidth, tableHeight);
      PaddleResponse(walled, human, humanVelocity.x, humanVelocity.y, false, sqrt).Miss? &&
      PaddleResponse(walled, ai, aiVelocity.x, aiVelocity.y, true, sqrt).Miss?
    ensures var r := PuckPhase(puck, human, ai, humanVelocity, aiVelocity, tableWidth, tableHeight, dt, sqrt);
      r.Settled? && PuckInside(r.puck, tableWidth, tableHeight)
  {
    var walled := AfterWalls(UpdatePuckPosition(puck, dt), tableWidth, tableHeight);
    assert AfterPaddle(walled, human, humanVelocity, false, sqrt) == Settled(walled);
    assert AfterPaddle(walled, ai, aiVelocity, true, sqrt) == Settled(walled);
  }

  /** The AI contact of a frame without a goal, on the puck `p` that the
      human contact left: a miss publishes `p`; a hit publishes `p` pushed
      out of the AI's paddle with the AI hit's velocity. */
  predicate AiContactOn(p: Puck, ai: Paddle, aiVelocity: Vec, sqrt: real -> real, r: PuckStep)
  {
    var a := PaddleResponse(p, ai, aiVelocity.x, aiVelocity.y, true, sqrt);
    (a.Miss? ==> r == Settled(p)) &&
    (a.Hit? ==> r == Settled(Separate(p, ai, true, sqrt).(vx := a.newVx, vy := a.newVy))) &&
    (a.HitSpeedUndefined? ==> r == SettledVelocityNaN(Separate(p, ai, true, sqrt)))
  }

  /** Without a goal and without a human contact, the AI's paddle is tested
      on the walled puck itself. */
  lemma PuckPhaseHumanMiss(puck: Puck, human: Paddle, ai: Paddle, humanVelocity: Vec, aiVelocity: Vec,
                           tableWidth: real, tableHeight: real, dt: real, sqrt: real -> real)
    requires CheckGoal(UpdatePuckPosition(puck, dt), tableWidth, tableHeight, DefaultGoalWidth).None?
    requires var walled := AfterWalls(UpdatePuckPosition(puck, dt), tableWidth, tableHeight);
      PaddleResponse(walled, human, humanVelocity.x, humanVelocity.y, false, sqrt).Miss?
    ensures AiContactOn(AfterWalls(UpdatePuckPosition(puck, dt), tableWidth, tableHeight), ai, aiVelocity, sqrt,
                        PuckPhase(puck, human, ai, humanVelocity, aiVelocity, tableWidth, tableHeight, dt, sqrt))
  {
  }

  /** Without a goal, a human hit pushes the walled puck out of the human's
      paddle and then gives it the hit's velocity; the AI's paddle is tested
      on that puck. */
  lemma PuckPhaseHumanHit(puck: Puck, human: Paddle, ai: Paddle, humanVelocity: Vec, aiVelocity: Vec,
                          tableWidth: real, tableHeight: real, dt: real, sqrt: real -> real)
    requires CheckGoal(UpdatePuckPosition(puck, dt), tableWidth, tableHeight, DefaultGoalWidth).None?
    requires var walled := AfterWalls(UpdatePuckPosition(puck, dt), tableWidth, tableHeight);
      PaddleResponse(walled, human, humanVelocity.x, humanVelocity.y, false, sqrt).Hit?
    ensures var walled := AfterWalls(UpdatePuckPosition(puck, dt), tableWidth, tableHeight);
      var h := PaddleResponse(walled, human, humanVelocity.x, humanVelocity.y, false, sqrt);
      AiContactOn(Separate(walled, human, false, sqrt).(vx := h.newVx, vy := h.newVy), ai, aiVelocity, sqrt,
                  PuckPhase(puck, human, ai, humanVelocity, aiVelocity, tableWidth, tableHeight, dt, sqrt))
  {
    var walled := AfterWalls(UpdatePuckPosition(puck, dt), tableWidth, tableHeight);
    var h := PaddleResponse(walled, human, humanVelocity.x, humanVelocity.y, false, sqrt);
    assert AfterPaddle(walled, human, humanVelocity, false, sqrt) ==
      Settled(Separate(walled, human, false, sqrt).(vx := h.newVx, vy := h.newVy));
  }

  /** Without a goal, a human hit whose speed floor divides by zero ends the
      puck phase with the pushed-out puck; the AI's paddle is not tested. */
  lemma PuckPhaseHumanSpeedUndefined(puck: Puck, human: Paddle, ai: Paddle, humanVelocity: Vec, aiVelocity: Vec,
                                     tableWidth: real, tableHeight: real, dt: real, sqrt: real -> real)
    requires CheckGoal(UpdatePuckPosition(puck, dt), tableWidth, tableHeight, DefaultGoalWidth).None?
    requires var walled := AfterWalls(UpdatePuckPosition(puck, dt), tableWidth, tableHeight);
      PaddleResponse(walled, human, humanVelocity.x, humanVelocity.y, false, sqrt).HitSpeedUndefined?
    ensures PuckPhase(puck, human, ai, humanVelocity, aiVelocity, tableWidth, tableHeight, dt, sqrt) ==
      SettledVelocityNaN(Separate(AfterWalls(UpdatePuckPosition(puck, dt), tableWidth, tableHeight),
                                  human, false, sqrt))
  {
  }

  /** A human hit that the AI's paddle does not answer publishes the puck
      at least at the minimum post-hit speed (exact root at the bounce). */
  lemma HumanReturnIsNeverSoft(puck: Puck, human: Paddle, ai: Paddle, humanVelocity: Vec, aiVelocity: Vec,
                               tableWidth: real, tableHeight: real, dt: real, sqrt: real -> real)
    requires CheckGoal(UpdatePuckPosition(puck, dt), tableWidth, tableHeight, DefaultGoalWidth).None?
    requires var walled := AfterWalls(UpdatePuckPosition(puck, dt), tableWidth, tableHeight);
      SqrtAt(sqrt, SqNorm(Bounced(walled, human, humanVelocity.x, humanVelocity.y, false, sqrt)))
    requires var walled := AfterWalls(UpdatePuckPosition(puck, dt), tableWidth, tableHeight);
      var h := PaddleResponse(walled, human, humanVelocity.x, humanVelocity.y, false, sqrt);
      h.Hit? &&
      PaddleResponse(Separate(walled, human, false, sqrt).(vx := h.newVx, vy := h.newVy),
                     ai, aiVelocity.x, aiVelocity.y, true, sqrt).Miss?
    ensures var r := PuckPhase(puck, human, ai, humanVelocity, aiVelocity, tableWidth, tableHeight, dt, sqrt);
      r.Settled? && SqNorm(Vec(r.puck.vx, r.puck.vy)) >= MinPuckVelocity * MinPuckVelocity
  {
    var walled := AfterWalls(UpdatePuckPosition(puck, dt), tableWidth, tableHeight);
    var h := PaddleResponse(walled, human, humanVelocity.x, humanVelocity.y, false, sqrt);
    var p := Separate(walled, human, false, sqrt).(vx := h.newVx, vy := h.newVy);
    PuckPhaseHumanHit(puck, human, ai, humanVelocity, aiVelocity, tableWidth, tableHeight, dt, sqrt);
    assert PuckPhase(puck, human, ai, humanVelocity, aiVelocity, tableWidth, tableHeight, dt, sqrt) == Settled(p);
    PaddleHitIsNeverSoft(walled, human, humanVelocity.x, humanVelocity.y, false, sqrt);
    assert Vec(p.vx, p.vy) == Vec(h.newVx, h.newVy);
  }

  /** An AI hit on the walled puck, with no human contact before it,
      publishes the puck at least at the AI's minimum post-hit speed
      (exact root at the bounce). */
  lemma AiHitIsNeverSoft(puck: Puck, human: Paddle, ai: Paddle, humanVelocity: Vec, aiVelocity: Vec,
                         tableWidth: real, tableHeight: real, dt: real, sqrt: real -> real)
    requires CheckGoal(UpdatePuckPosition(puck, dt), tableWidth, tableHeight, DefaultGoalWidth).None?
    requires var walled := AfterWalls(UpdatePuckPosition(puck, dt), tableWidth, tableHeight);
      SqrtAt(sqrt, SqNorm(Bounced(walled, ai, aiVelocity.x, aiVelocity.y, true, sqrt)))
    requires var walled := AfterWalls(UpdatePuckPosition(puck, dt), tableWidth, tableHeight);
      PaddleResponse(walled, human, humanVelocity.x, humanVelocity.y, false, sqrt).Miss? &&
      PaddleResponse(walled, ai, aiVelocity.x, aiVelocity.y, true, sqrt).Hit?
    ensures var r := PuckPhase(puck, human, ai, humanVelocity, aiVelocity, tableWidth, tableHeight, dt, sqrt);
      r.Settled? &&
      SqNorm(Vec(r.puck.vx, r.puck.vy)) >= MinPuckVelocity * MinPuckVelocity * (AiBoost * AiBoost)
  {
    var walled := AfterWalls(UpdatePuckPosition(puck, dt), tableWidth, tableHeight);
    var a := PaddleResponse(walled, ai, aiVelocity.x, aiVelocity.y, true, sqrt);
    var p := Separate(walled, ai, true, sqrt).(vx := a.newVx, vy := a.newVy);
    PuckPhaseHumanMiss(puck, human, ai, humanVelocity, aiVelocity, tableWidth, tableHeight, dt, sqrt);
    assert PuckPhase(puck, human, ai, humanVelocity, aiVelocity, tableWidth, tableHeight, dt, sqrt) == Settled(p);
    PaddleHitIsNeverSoft(walled, ai, aiVelocity.x, aiVelocity.y, true, sqrt);
    assert Vec(p.vx, p.vy) == Vec(a.newVx, a.newVy);
  }

  /** A hit on a paddle with a radius leaves the puck at least the two radii
      from the paddle centre (exact root at the centre offset). */
  lemma HitLeavesPuckClear(puck: Puck, paddle: Paddle, paddleVelocity: Vec, isAi: bool, sqrt: real -> real)
    requires paddle.radius.Some? && 0.0 <= puck.radius + paddle.radius.value
    requires SqrtAt(sqrt, SqNorm(CentreOffset(puck, paddle)))
    requires PaddleResponse(puck, paddle, paddleVelocity.x, paddleVelocity.y, isAi, sqrt).Hit?
    ensures var r := AfterPaddle(puck, paddle, paddleVelocity, isAi, sqrt);
      var minDist := puck.radius + paddle.radius.value;
      r.Settled? && SqNorm(CentreOffset(r.puck, paddle)) >= minDist * minDist
  {
    var r := AfterPaddle(puck, paddle, paddleVelocity, isAi, sqrt);
    var q := Separate(puck, paddle, isAi, sqrt);
    SeparationClearsOverlap(puck, paddle, isAi, sqrt);
    assert CentreOffset(r.puck, paddle) == CentreOffset(q, paddle);
  }

  method SeparateFrom(puck: Puck, paddle: Paddle, isAi: bool, sqrt: real -> real) returns (r: Puck)
    ensures r == Separate(puck, paddle, isAi, sqrt)
  {
    r := puck;
    if paddle.radius.Some? {
      var dx := puck.x - paddle.x;
      var dy := puck.y - paddle.y;
      assert Vec(dx, dy) == CentreOffset(puck, paddle);
      assert dx * dx + dy * dy == SqNorm(CentreOffset(puck, paddle));
      var dist := sqrt(dx * dx + dy * dy);
      assert dist == sqrt(SqNorm(CentreOffset(puck, paddle)));
      var minDist := puck.radius + paddle.radius.value;
      if dist < minDist {
        if dist < ContactEpsilon {
          r := r.(x := paddle.x, y := if isAi then paddle.y - minDist else paddle.y + minDist);
        } else {
          var normalX := dx / dist;
          var normalY := dy / dist;
          r := r.(x := paddle.x + normalX * minDist, y := paddle.y + normalY * minDist);
        }
      }
    }
  }

  /** The puck part of the frame, in the order the loop runs it. */
  method StepPuck(puck: Puck, human: Paddle, ai: Paddle, humanVelocity: Vec, aiVelocity: Vec,
                  tableWidth: real, tableHeight: real, dt: real, sqrt: real -> real) returns (step: PuckStep)
    ensures step == PuckPhase(puck, human, ai, humanVelocity, aiVelocity, tableWidth, tableHeight, dt, sqrt)
  {
    var p := UpdatePuckPosition(puck, dt);
    var goal := CheckGoal(p, tableWidth, tableHeight, DefaultGoalWidth);
    if goal.Some? {
      return Goal(goal.value);
    }
    var wall := CheckWallCollision(p, tableWidth, tableHeight);
    if wall.WallHit? {
      p := p.(vx := wall.newVx, vy := wall.newVy);
      p := ClampPuckToBounds(p, tableWidth, tableHeight);
    }
    var humanHit := CheckPaddleCollision(p, human, humanVelocity.x, humanVelocity.y, false, sqrt);
    if !humanHit.Miss? {
      p := SeparateFrom(p, human, false, sqrt);
      if humanHit.HitSpeedUndefined? {
        return SettledVelocityNaN(p);
      }
      p := p.(vx := humanHit.newVx, vy := humanHit.newVy);
    }
    var aiHit := CheckPaddleCollision(p, ai, aiVelocity.x, aiVelocity.y, true, sqrt);
    if !aiHit.Miss? {
      p := SeparateFrom(p, ai, true, sqrt);
      if aiHit.HitSpeedUndefined? {
        return SettledVelocityNaN(p);
      }
      p := p.(vx := aiHit.newVx, vy := aiHit.newVy);
    }
    step := Settled(p);
  }

  // ---------------------------------------------------------------------
  // The frame

  /** What the frame hands to the host: nothing (skipped frame, start
      screen, celebration, or a goal, after which the host's goal callback
      runs instead of the state update), or the state to publish. */
  datatype TickOutcome =
    | SkippedFrame
    | StartScreen
    | Celebrating
    | Scored(scorer: Scorer)
    | Published(state: GameState)
      /** Published with NaN puck velocity; see PuckStep. */
    | PublishedVelocityNaN(state: GameState)

  /** The refs the loop keeps between frames. */
  datatype LoopMemory = LoopMemory(
    state: GameState,
    lastTime: real,
    humanVelocity: Vec,
    aiVelocity: Vec,
    lastHumanPos: Vec,
    lastAiPos: Vec)

  /** A frame's inputs: the timestamp, the canvas size, the last pointer
      position (if any), the last AI response (if any) and the celebration
      state. */
  datatype FrameInput = FrameInput(
    currentTime: real,
    canvasWidth: real,
    canvasHeight: real,
    pointer: Option<Vec>,
    aiResponse: Option<AiTarget>,
    celebration: Option<Scorer>)

  datatype FrameResult = FrameResult(outcome: TickOutcome, memory: LoopMemory)

  /** Seconds since the previous frame (timestamps are in milliseconds). */
  function FrameStep(m: LoopMemory, input: FrameInput): real
  {
    (input.currentTime - m.lastTime) / 1000.0
  }

  /** A frame that moves things: not skipped, no celebration, a started and
      unpaused game. */
  predicate ActiveFrame(m: LoopMemory, input: FrameInput)
  {
    !(FrameStep(m, input) > MaxFrameStep) && input.celebration.None? &&
    m.state.gameStarted && !m.state.isPaused
  }

  function AiTargetPoint(response: Option<AiTarget>): Option<Vec>
  {
    if response.Some? then Some(Vec(response.value.targetX, response.value.targetY)) else None
  }

  /** The frame's working copy of the ref's state, sized to the canvas. */
  function Working(m: LoopMemory, input: FrameInput): GameState
  {
    m.state.(tableWidth := input.canvasWidth, tableHeight := input.canvasHeight)
  }

  function HumanUpdate(m: LoopMemory, input: FrameInput): PaddleUpdate
  {
    PaddleFrame(m.state.humanPaddle, m.lastHumanPos, m.humanVelocity, input.pointer,
                PaddleSpeed * FrameStep(m, input), FrameStep(m, input), input.canvasWidth, input.canvasHeight, true)
  }

  function AiUpdate(m: LoopMemory, input: FrameInput): PaddleUpdate
  {
    var dt := FrameStep(m, input);
    PaddleFrame(m.state.aiPaddle, m.lastAiPos, m.aiVelocity, AiTargetPoint(input.aiResponse),
                AiMaxMove(m.state.difficulty, dt), dt, input.canvasWidth, input.canvasHeight, false)
  }

  /** The refs after an active frame. The copy made at the top of the
      frame is shallow, so the paddle moves write through to the ref's own
      paddles, while the clamped paddles go only into the copy. */
  function RunningMemory(m: LoopMemory, input: FrameInput): LoopMemory
  {
    var h, a := HumanUpdate(m, input), AiUpdate(m, input);
    LoopMemory(m.state.(humanPaddle := h.aliased, aiPaddle := a.aliased),
               input.currentTime, h.velocity, a.velocity, h.lastPos, a.lastPos)
  }

  /** The outcome of an active frame. */
  function RunningOutcome(m: LoopMemory, input: FrameInput, sqrt: real -> real): TickOutcome
  {
    var h, a := HumanUpdate(m, input), AiUpdate(m, input);
    var placed := Working(m, input).(humanPaddle := h.placed, aiPaddle := a.placed);
    match PuckPhase(m.state.puck, h.placed, a.placed, h.velocity, a.velocity,
                    input.canvasWidth, input.canvasHeight, FrameStep(m, input), sqrt)
    case Goal(s) => Scored(s)
    case Settled(p) => Published(placed.(puck := p))
    case SettledVelocityNaN(p) => PublishedVelocityNaN(placed.(puck := p))
  }

  /** The frame as a function of the refs and the inputs. */
  function Frame(m: LoopMemory, input: FrameInput, sqrt: real -> real): (r: FrameResult)
    ensures r.memory.lastTime == input.currentTime
    ensures r.outcome.SkippedFrame? <==> FrameStep(m, input) > MaxFrameStep
    ensures r.outcome.SkippedFrame? || r.outcome.StartScreen? || r.outcome.Celebrating? ==>
      r.memory == m.(lastTime := input.currentTime)
    ensures r.memory.state.(humanPaddle := m.state.humanPaddle, aiPaddle := m.state.aiPaddle) == m.state
    ensures ActiveFrame(m, input) ==> r == FrameResult(RunningOutcome(m, input, sqrt), RunningMemory(m, input))
  {
    var m1 := m.(lastTime := input.currentTime);
    if FrameStep(m, input) > MaxFrameStep then FrameResult(SkippedFrame, m1)
    else if !m.state.gameStarted && input.celebration.None? then FrameResult(StartScreen, m1)
    else if input.celebration.Some? then FrameResult(Celebrating, m1)
    else if m.state.isPaused then FrameResult(Published(Working(m, input)), m1)
    else FrameResult(RunningOutcome(m, input, sqrt), RunningMemory(m, input))
  }

  /** A paused game still publishes every frame: the ref's state with the
      canvas size, and no ref but the clock changes. */
  lemma PausedFramePublishesRef(m: LoopMemory, input: FrameInput, sqrt: real -> real)
    requires !(FrameStep(m, input) > MaxFrameStep) && input.celebration.None?
    requires m.state.gameStarted && m.state.isPaused
    ensures Frame(m, input, sqrt) ==
      FrameResult(Published(m.state.(tableWidth := input.canvasWidth, tableHeight := input.canvasHeight)),
                  m.(lastTime := input.currentTime))
  {
  }

  /** A frame scores exactly when the advanced puck is in a goal; the
      goal check sees the puck before any wall clamp. */
  lemma FrameScoresIffAdvancedPuckInGoal(m: LoopMemory, input: FrameInput, sqrt: real -> real, scorer: Scorer)
    requires ActiveFrame(m, input)
    ensures Frame(m, input, sqrt).outcome == Scored(scorer) <==>
      CheckGoal(UpdatePuckPosition(m.state.puck, FrameStep(m, input)), input.canvasWidth, input.canvasHeight,
                DefaultGoalWidth) == Some(scorer)
  {
  }

  /** In an active frame, a human hit on the walled puck that the AI's
      paddle does not answer publishes a puck of at least the minimum
      post-hit speed. The contact tests see the paddles as this frame placed
      them, with the velocities this frame observed. */
  lemma FrameHumanReturnIsNeverSoft(m: LoopMemory, input: FrameInput, sqrt: real -> real)
    requires ActiveFrame(m, input)
    requires var walled := AfterWalls(UpdatePuckPosition(m.state.puck, FrameStep(m, input)),
                                      input.canvasWidth, input.canvasHeight);
      CheckGoal(UpdatePuckPosition(m.state.puck, FrameStep(m, input)), input.canvasWidth, input.canvasHeight,
                DefaultGoalWidth).None? &&
      SqrtAt(sqrt, SqNorm(Bounced(walled, HumanUpdate(m, input).placed, HumanUpdate(m, input).velocity.x,
                                  HumanUpdate(m, input).velocity.y, false, sqrt)))
    requires var walled := AfterWalls(UpdatePuckPosition(m.state.puck, FrameStep(m, input)),
                                      input.canvasWidth, input.canvasHeight);
      var hu, au := HumanUpdate(m, input), AiUpdate(m, input);
      var h := PaddleResponse(walled, hu.placed, hu.velocity.x, hu.velocity.y, false, sqrt);
      h.Hit? &&
      PaddleResponse(Separate(walled, hu.placed, false, sqrt).(vx := h.newVx, vy := h.newVy),
                     au.placed, au.velocity.x, au.velocity.y, true, sqrt).Miss?
    ensures var r := Frame(m, input, sqrt);
      r.outcome.Published? &&
      SqNorm(Vec(r.outcome.state.puck.vx, r.outcome.state.puck.vy)) >= MinPuckVelocity * MinPuckVelocity
  {
    var hu, au := HumanUpdate(m, input), AiUpdate(m, input);
    HumanReturnIsNeverSoft(m.state.puck, hu.placed, au.placed, hu.velocity, au.velocity,
                           input.canvasWidth, input.canvasHeight, FrameStep(m, input), sqrt);
  }

  /** In an active frame the published human paddle is in the human's court,
      and the ref remembers that placed position. */
  lemma ActiveFrameKeepsHumanPaddleInCourt(m: LoopMemory, input: FrameInput, sqrt: real -> real)
    requires ActiveFrame(m, input) && input.pointer.Some?
    requires var hw := m.state.humanPaddle.width / 2.0;
      var hh := m.state.humanPaddle.height / 2.0;
      hw <= input.canvasWidth - hw && input.canvasHeight / 2.0 + hh <= input.canvasHeight - hh
    ensures var r := Frame(m, input, sqrt);
      (r.outcome.Published? || r.outcome.PublishedVelocityNaN?) ==>
        PaddleInCourt(r.outcome.state.humanPaddle, input.canvasWidth, input.canvasHeight, true) &&
        r.memory.lastHumanPos == Position(r.outcome.state.humanPaddle)
  {
  }

  /** The same for the AI paddle when a response is there to follow. */
  lemma ActiveFrameKeepsAiPaddleInCourt(m: LoopMemory, input: FrameInput, sqrt: real -> real)
    requires ActiveFrame(m, input) && input.aiResponse.Some?
    requires var hw := m.state.aiPaddle.width / 2.0;
      var hh := m.state.aiPaddle.height / 2.0;
      hw <= input.canvasWidth - hw && hh <= input.canvasHeight / 2.0 - hh
    ensures var r := Frame(m, input, sqrt);
      (r.outcome.Published? || r.outcome.PublishedVelocityNaN?) ==>
        PaddleInCourt(r.outcome.state.aiPaddle, input.canvasWidth, input.canvasHeight, false) &&
        r.memory.lastAiPos == Position(r.outcome.state.aiPaddle)
  {
  }

  /** The ref's own human paddle ends an active frame moved but not
      clamped, because the frame's copy is shallow: on a frame that scores,
      nothing is published afterwards to overwrite it. */
  lemma RefKeepsUnclampedHumanMove(m: LoopMemory, input: FrameInput, sqrt: real -> real)
    requires ActiveFrame(m, input) && input.pointer.Some?
    ensures Frame(m, input, sqrt).memory.state.humanPaddle ==
      MovePaddle(m.state.humanPaddle, input.pointer.value, PaddleSpeed * FrameStep(m, input))
  {
  }

  /** Such a move can leave the court: a paddle on the edge of the human's
      court on the default table, pulled 30 px towards a pointer beyond the
      centre line. */
  lemma UnclampedMoveCanLeaveCourt()
    ensures var p := Paddle(510.0, 350.0, 100.0, 20.0, None);
      PaddleInCourt(p, 1020.0, 680.0, true) &&
      !PaddleInCourt(MovePaddle(p, Vec(510.0, 100.0), 30.0), 1020.0, 680.0, true)
  {
  }

  /** The human velocity handed to the collision test is the displacement
      since the last remembered position over the frame time. */
  lemma HumanVelocityMatchesDisplacement(m: LoopMemory, input: FrameInput)
    requires input.pointer.Some? && 0.0 < FrameStep(m, input)
    ensures var after := RunningMemory(m, input);
      m.lastHumanPos.x + after.humanVelocity.x * FrameStep(m, input) == after.lastHumanPos.x &&
      m.lastHumanPos.y + after.humanVelocity.y * FrameStep(m, input) == after.lastHumanPos.y
  {
  }

  /** A human paddle that starts an active frame in its court moves at most
      600 px/s times the frame time along each axis (stated on the refs the
      frame leaves, which Frame returns on an active frame). */
  lemma HumanPaddleSpeedLimit(m: LoopMemory, input: FrameInput)
    requires input.pointer.Some? && 0.0 <= FrameStep(m, input)
    requires PaddleInCourt(m.state.humanPaddle, input.canvasWidth, input.canvasHeight, true)
    ensures var after := RunningMemory(m, input);
      var limit := PaddleSpeed * FrameStep(m, input);
      Abs(after.lastHumanPos.x - m.state.humanPaddle.x) <= limit &&
      Abs(after.lastHumanPos.y - m.state.humanPaddle.y) <= limit
  {
    PaddleFrameSpeedLimit(m.state.humanPaddle, m.lastHumanPos, m.humanVelocity, input.pointer.value,
                          PaddleSpeed * FrameStep(m, input), FrameStep(m, input),
                          input.canvasWidth, input.canvasHeight, true);
  }

  /** The AI paddle's cap is scaled by the difficulty's speed multiplier. */
  lemma AiPaddleSpeedLimit(m: LoopMemory, input: FrameInput)
    requires input.aiResponse.Some? && 0.0 <= FrameStep(m, input)
    requires PaddleInCourt(m.state.aiPaddle, input.canvasWidth, input.canvasHeight, false)
    ensures var after := RunningMemory(m, input);
      var limit := AiMaxMove(m.state.difficulty, FrameStep(m, input));
      Abs(after.lastAiPos.x - m.state.aiPaddle.x) <= limit &&
      Abs(after.lastAiPos.y - m.state.aiPaddle.y) <= limit
  {
    PaddleFrameSpeedLimit(m.state.aiPaddle, m.lastAiPos, m.aiVelocity, AiTargetPoint(input.aiResponse).value,
                          AiMaxMove(m.state.difficulty, FrameStep(m, input)), FrameStep(m, input),
                          input.canvasWidth, input.canvasHeight, false);
  }

  /** The component's refs and the frame that updates them. */
  class FrameLoop {
    /** gameStateRef */
    var state: GameState
    var lastTime: real
    var humanVelocity: Vec
    var aiVelocity: Vec
    var lastHumanPos: Vec
    var lastAiPos: Vec

    function Memory(): LoopMemory
      reads this
    {
      LoopMemory(state, lastTime, humanVelocity, aiVelocity, lastHumanPos, lastAiPos)
    }

    /** The refs' initial values: the first state, time 0, zero vectors. */
    constructor(initial: GameState)
      ensures Memory() == LoopMemory(initial, 0.0, Vec(0.0, 0.0), Vec(0.0, 0.0), Vec(0.0, 0.0), Vec(0.0, 0.0))
    {
      state := initial;
      lastTime := 0.0;
      humanVelocity := Vec(0.0, 0.0);
      aiVelocity := Vec(0.0, 0.0);
      lastHumanPos := Vec(0.0, 0.0);
      lastAiPos := Vec(0.0, 0.0);
    }

    /** The effect that copies each new game-state prop into the ref. */
    method ReceiveState(s: GameState)
      modifies this
      ensures Memory() == old(Memory()).(state := s)
    {
      state := s;
    }

    /** The effect that re-seeds the remembered paddle positions whenever
        a paddle position in the prop changes. */
    method SyncPaddleRefs(s: GameState)
      modifies this
      ensures Memory() == old(Memory()).(lastHumanPos := Position(s.humanPaddle), lastAiPos := Position(s.aiPaddle))
    {
      lastHumanPos := Vec(s.humanPaddle.x, s.humanPaddle.y);
      lastAiPos := Vec(s.aiPaddle.x, s.aiPaddle.y);
    }

    /** The human paddle's part of an active frame: follow the pointer,
        write the move through to the ref's paddle, clamp the frame's copy,
        then update the velocity and last-position refs. */
    method MoveHuman(target: Option<Vec>, deltaTime: real, tableWidth: real, tableHeight: real)
      returns (placed: Paddle)
      modifies this
      ensures var u := PaddleFrame(old(state.humanPaddle), old(lastHumanPos), old(humanVelocity), target,
                                   PaddleSpeed * deltaTime, deltaTime, tableWidth, tableHeight, true);
        placed == u.placed &&
        Memory() == old(Memory()).(state := old(state).(humanPaddle := u.aliased),
                                   humanVelocity := u.velocity, lastHumanPos := u.lastPos)
    {
      placed := state.humanPaddle;
      if target.Some? {
        var maxMove := PaddleSpeed * deltaTime;
        var distanceX := target.value.x - placed.x;
        var distanceY := target.value.y - placed.y;
        var moveX := Sign(distanceX) * Min(Abs(distanceX), maxMove);
        var moveY := Sign(distanceY) * Min(Abs(distanceY), maxMove);
        MoveStepIsSignTimesCap(distanceX, maxMove);
        MoveStepIsSignTimesCap(distanceY, maxMove);
        var moved := placed.(x := placed.x + moveX, y := placed.y + moveY);
        // The frame's copy shares this paddle with the ref, so the move lands in both.
        state := state.(humanPaddle := moved);
        placed := ClampPaddleToBounds(moved, tableWidth, tableHeight, true);
        if deltaTime > 0.0 {
          humanVelocity := ObservedVelocity(lastHumanPos, Position(placed), deltaTime);
        }
        lastHumanPos := Vec(placed.x, placed.y);
      }
    }

    /** The AI paddle's part: the same towards the last AI response, at the
        difficulty's share of the paddle speed. */
    method MoveAi(target: Option<AiTarget>, deltaTime: real, tableWidth: real, tableHeight: real)
      returns (placed: Paddle)
      modifies this
      ensures var u := PaddleFrame(old(state.aiPaddle), old(lastAiPos), old(aiVelocity), AiTargetPoint(target),
                                   AiMaxMove(old(state.difficulty), deltaTime), deltaTime,
                                   tableWidth, tableHeight, false);
        placed == u.placed &&
        Memory() == old(Memory()).(state := old(state).(aiPaddle := u.aliased),
                                   aiVelocity := u.velocity, lastAiPos := u.lastPos)
    {
      placed := state.aiPaddle;
      if target.Some? {
        var maxMove := AiMaxMove(state.difficulty, deltaTime);
        var distanceX := target.value.targetX - placed.x;
        var distanceY := target.value.targetY - placed.y;
        var moveX := Sign(distanceX) * Min(Abs(distanceX), maxMove);
        var moveY := Sign(distanceY) * Min(Abs(distanceY), maxMove);
        MoveStepIsSignTimesCap(distanceX, maxMove);
        MoveStepIsSignTimesCap(distanceY, maxMove);
        var moved := placed.(x := placed.x + moveX, y := placed.y + moveY);
        state := state.(aiPaddle := moved);
        placed := ClampPaddleToBounds(moved, tableWidth, tableHeight, false);
        if deltaTime > 0.0 {
          aiVelocity := ObservedVelocity(lastAiPos, Position(placed), deltaTime);
        }
        lastAiPos := Vec(placed.x, placed.y);
      }
    }

    /** The moving part of a frame, once the clock ref is updated. */
    method Advance(input: FrameInput, deltaTime: real, sqrt: real -> real, ghost m: LoopMemory)
      returns (outcome: TickOutcome)
      requires ActiveFrame(m, input) && deltaTime == FrameStep(m, input)
      requires Memory() == m.(lastTime := input.currentTime)
      modifies this
      ensures Memory() == RunningMemory(m, input)
      ensures outcome == RunningOutcome(m, input, sqrt)
    {
      var newState := state.(tableWidth := input.canvasWidth, tableHeight := input.canvasHeight);
      var human := MoveHuman(input.pointer, deltaTime, newState.tableWidth, newState.tableHeight);
      var ai := MoveAi(input.aiResponse, deltaTime, newState.tableWidth, newState.tableHeight);
      assert human == HumanUpdate(m, input).placed && ai == AiUpdate(m, input).placed;
      newState := newState.(humanPaddle := human, aiPaddle := ai);
      var step := StepPuck(newState.puck, human, ai, humanVelocity, aiVelocity,
                           newState.tableWidth, newState.tableHeight, deltaTime, sqrt);
      match step {
        case Goal(scorer) =>
          outcome := Scored(scorer);
        case Settled(p) =>
          outcome := Published(newState.(puck := p));
        case SettledVelocityNaN(p) =>
          outcome := PublishedVelocityNaN(newState.(puck := p));
      }
    }

    /** One call of the game loop. */
    method Tick(input: FrameInput, sqrt: real -> real) returns (outcome: TickOutcome)
      modifies this
      ensures Memory() == Frame(old(Memory()), input, sqrt).memory
      ensures outcome == Frame(old(Memory()), input, sqrt).outcome
    {
      ghost var m := Memory();
      var deltaTime := (input.currentTime - lastTime) / 1000.0;
      lastTime := input.currentTime;
      if deltaTime > MaxFrameStep {
        return SkippedFrame;
      }
      var newState := state.(tableWidth := input.canvasWidth, tableHeight := input.canvasHeight);
      if !newState.gameStarted && input.celebration.None? {
        return StartScreen;
      }
      if input.celebration.Some? {
        return Celebrating;
      }
      if newState.isPaused || !newState.gameStarted {
        return Published(newState);
      }
      outcome := Advance(input, deltaTime, sqrt, m);
    }
  }
}
