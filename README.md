# Air hockey against an AI: a Dafny model of the game core

The game is browser air hockey against a computer opponent. The table is a
canvas, with y growing downwards. The AI paddle defends the top edge
(y = 0) and the human paddle the bottom edge (y = tableHeight). Each side
is confined to its own half. This project models five parts of the game:

- **Physics** (`physics.dfy`): the puck's friction step, wall contact,
  paddle contact with momentum transfer, goal detection and the two
  position clamps.
- **State transitions** (`state.dfy`): the pure functions that create,
  reset, start, pause, score and count down a game.
- **Client targeting heuristic** (`ai_client.dfy`): the fallback the
  browser uses when no server answers.
- **Server targeting heuristic** (`ai_backend.dfy`): the rule-based
  heuristic, the model-based stand-in and the dispatcher between them.
- **Frame loop** (`game_loop.dfy`): one call of the canvas component's
  animation-frame callback. It is a class `FrameLoop` whose fields are the
  component's refs. Its `Tick` method is proved equal to a function
  `Frame` of the refs and the frame's inputs, and the properties of a frame
  are lemmas about `Frame`.

`types.dfy` holds the records (puck, paddle, game state, targeting
response). `numeric.dfy` holds `Math.abs/min/max/sign` and the clamp.

Numbers are Dafny `real`s. The game's environment is passed in as
parameters:

- the square root is a parameter `sqrt`. Lemmas that need it exact say at
  which points, through `SqrtAt`;
- each `Math.random()` draw is a parameter in [0, 1). The server's
  `random.uniform(-n, n)` is a parameter in [-n, n];
- the frame's timestamp, canvas size, latest pointer position, latest AI
  response and celebration flag are fields of `FrameInput`.

Where JavaScript arithmetic produces NaN or Infinity on a path the code
really takes, the model names that outcome with a constructor instead of
inventing a number:

- `ClientAim.RadiusUndefined` and `ClientAim.TargetXNaN`;
- `PaddleResult.HitSpeedUndefined`;
- `PuckStep.SettledVelocityNaN` and `TickOutcome.PublishedVelocityNaN`.

## Behaviour of the code

- A paddle is an axis-aligned rectangle (`width`, `height`) for the
  collision test, the clamps and the resets. The contact normal starts at
  the rectangle's nearest point. Two other readers use a `radius` field:
  the client heuristic and the frame loop's push-out. `createInitialState`
  never sets that field, so the model's `Paddle.radius` is an `Option`.
  With no radius, the minimum distance in the push-out is NaN and the puck
  is never pushed (`GameLoop.Separate`). The client heuristic then returns
  NaN targets (`ClientAi.ClientSideAi`).
- No maximum puck speed exists anywhere. The only speed bound after a hit
  is the minimum of 50, or 65 for the AI paddle (`Physics.PaddleHitIsNeverSoft`).
  The rescale to that minimum and the AI's boost keep the bounce's direction:
  the hit stays parallel to the bounce (`Physics.PaddleHitFollowsBounce`)
  and, with an exact root, points the same way (`Physics.PaddleHitKeepsDirection`).
- Restarting (`resetGameState`) keeps the scores.
- The client heuristic's bounds hold only in its offensive branches. The
  defensive targets are never clamped in y.
- The server reads `ai_paddle.width` and `ai_paddle.height`. The request
  schema (`backend/schemas.py:10-13`) does not declare them; it requires a
  `radius` instead. The browser's payload (`frontend/game/aiClient.ts:16-38`)
  names `x`, `y` and `radius` for each paddle, but the radius is undefined,
  so the serialised request carries only `x` and `y`. As shipped, the server
  therefore never answers: the browser's request fails validation for the
  missing `radius`, and a request the schema does accept has no `width` or
  `height`, so `rule_based_ai` raises an AttributeError at
  `backend/models/ai.py:21`. `BackendAi.RuleBasedAi` models the heuristic as
  if the schema carried width and height (`BackendAi.AiRequest`).
- In both heuristics the "puck moving up but not in the AI's court" branch
  is reached only with vy = 0.
  - On the server (`backend/models/ai.py:82-90`) its intercept code is dead.
    The target is the centre of the AI's half.
  - In the client (`frontend/game/aiClient.ts:252-261`) it divides by zero.
    A puck at rest on the centre line, as every created state has it, gets
    a NaN target x (`ClientAi.RestingCentrePuckAimsAtNaN`). The game never
    asks for a target in that state: targets are requested only once the
    game has started (`frontend/components/GameCanvas.tsx:112-113, 136-143`),
    and starting serves the puck.
- Because no paddle radius is ever set, the client heuristic answers both
  coordinates NaN in every offensive branch, for instance right after a
  serve upwards (`ClientAi.StartedGameWithoutRadiusAimsAtNaN`). The
  component stores that answer as the AI's target
  (`frontend/components/GameCanvas.tsx:155-159`); the next frames then move
  the AI paddle by `Math.sign(NaN)` steps, and the clamp keeps NaN.
- The frame copies the ref's game state shallowly. Its paddle moves
  therefore write the moved but *unclamped* positions through to the ref's
  own paddle objects. The clamped paddles go only into the copy that is
  published. Normally the next published state overwrites the ref. On a
  frame that scores, nothing is published, so the ref keeps the unclamped
  paddles (`GameLoop.RefKeepsUnclampedHumanMove`). Such a position can lie
  outside the court (`GameLoop.UnclampedMoveCanLeaveCourt`).

## Model

| member | source | states |
|---|---|---|
| Numeric.Clamp | frontend/game/physics.ts:227 | the `max(lo, min(hi, v))` clamp lies in [lo, hi] when that range is non-empty, is the identity inside it, and yields lo when the range is empty |
| Numeric.ClampNonExpansive | frontend/game/physics.ts:212-213 | clamping never moves two values further apart (used for every "within the noise of the clamped aim" bound) |
| Physics.Damp | frontend/game/physics.ts:19-27 | friction never increases a velocity component's magnitude; the component drops to exactly zero iff the damped value is under 0.5, and is otherwise 0.98 times the old one |
| Physics.UpdatePuckPosition | frontend/game/physics.ts:15-36 | the puck keeps its radius, both components are damped, and the position moves by the new velocity times dt |
| Physics.AdvanceNeverSpeedsUp | frontend/game/physics.ts:19-35 | the advance never increases the puck's speed |
| Physics.WallResponse | frontend/game/physics.ts:38-74 | no hit iff the puck is strictly inside all four walls; a touched right or bottom wall sends that component negative at 0.95 of its magnitude, a touched left or top wall (alone on its axis) positive, an untouched axis keeps its component, and no component grows |
| Physics.CheckWallCollision | frontend/game/physics.ts:38-74 | the four sequential, overwriting wall tests compute exactly WallResponse |
| Physics.ClosestOffset | frontend/game/physics.ts:84-96 | the offset from the paddle rectangle's nearest point is zero on an axis where the puck centre lies within the rectangle, is the offset from the crossed edge on an axis where it lies beyond one, and is never longer on an axis than the offset from the paddle centre |
| Physics.ContactNormal | frontend/game/physics.ts:100-123 | when both the nearest-point and centre distances are at most 0.001 the normal is the fixed fallback (0, -1) for the AI paddle, (0, 1) for the human's |
| Physics.DividedByLengthIsSameDirection | frontend/game/physics.ts:106-117 | dividing a vector by its exact length keeps it parallel and pointing the same way |
| Physics.ContactNormalAlongNearestPoint | frontend/game/physics.ts:106-109 | with an exact root, when the nearest paddle point is more than 0.001 away the normal is parallel to the offset from it and points the same way |
| Physics.ContactNormalAlongCentreLine | frontend/game/physics.ts:110-117 | with an exact root, when the nearest point is within 0.001 but the paddle centre is not, the normal is parallel to the centre offset and points the same way |
| Physics.ContactNormalIsUnit | frontend/game/physics.ts:102-123 | with exact square roots every branch of the normal has unit length |
| Physics.DividedByLengthIsUnit | frontend/game/physics.ts:108-117 | dividing a vector by its exact length gives a unit vector |
| Physics.ReflectAcrossUnit | frontend/game/physics.ts:129-136 | reflecting across a unit normal negates the normal component and keeps the speed |
| Physics.BounceResult | frontend/game/physics.ts:146-159 | the end of a hit is always a hit, and it is undefined (division by zero) exactly when the bounced velocity has zero magnitude; a hit is parallel to the bounced velocity, and a bounce of at least 50 is kept as it is, times 1.3 for the AI |
| Physics.PaddleResponse | frontend/game/physics.ts:76-175 | a miss iff the nearest paddle point is not strictly within the puck radius or the relative velocity does not approach along the normal; an undefined hit only when the bounced velocity has zero magnitude |
| Physics.PaddleHitFollowsBounce | frontend/game/physics.ts:134-159 | a hit's velocity is parallel to the reflected, multiplied and transferred bounce, and equals it (times 1.3 for the AI) when the bounce is at least 50 fast |
| Physics.BounceKeepsDirection | frontend/game/physics.ts:146-159 | with an exact root, a hit points along the bounce and never against it: its dot product with the bounce is positive |
| Physics.PaddleHitKeepsDirection | frontend/game/physics.ts:134-159 | with an exact root at the bounce, a paddle hit's velocity has a positive dot product with the reflected, multiplied and transferred bounce |
| Physics.BounceIsNeverSoft | frontend/game/physics.ts:146-159 | with an exact root, the floor and boost leave at least 50 px/s, or 65 px/s for the AI |
| Physics.PaddleHitIsNeverSoft | frontend/game/physics.ts:146-159 | a hit leaves the puck at least 50 px/s fast, and at least 65 px/s off the AI paddle |
| Physics.PaddleHitReflectsAway | frontend/game/physics.ts:125-137 | on a contact the reflected relative velocity leaves along the normal as fast as it arrived: its normal component changes sign, is positive, and the speed is unchanged |
| Physics.ComputeNormal | frontend/game/physics.ts:100-123 | the normal the collision test computes step by step equals ContactNormal |
| Physics.FinishBounce | frontend/game/physics.ts:146-159 | the in-place speed floor and AI boost compute exactly BounceResult |
| Physics.CheckPaddleCollision | frontend/game/physics.ts:76-175 | the collision test, updating the new velocity in place, computes exactly PaddleResponse |
| Physics.CheckGoal | frontend/game/physics.ts:177-202 | the AI scores iff the puck's edge is on or past the bottom line with its centre in the goal mouth; the human scores iff that fails and the edge is on or past the top line within the mouth; no goal iff the centre is outside the mouth or the puck is strictly between the lines |
| Physics.ClampPuckToBounds | frontend/game/physics.ts:204-215 | only the position changes; each coordinate lands a radius inside the table when the table is wide or high enough; a puck already inside is left alone |
| Physics.ClampPuckIdempotent | frontend/game/physics.ts:204-215 | clamping the puck twice is clamping it once |
| Physics.ClampPaddleToBounds | frontend/game/physics.ts:217-250 | only the position changes; x lands half a paddle inside the table, y inside the paddle's own half (human: below the centre line, AI: above), whenever those ranges are non-empty |
| Physics.ClampPaddleIdempotent | frontend/game/physics.ts:217-250 | clamping a paddle twice is clamping it once |
| Physics.ClampPaddleFixesExactlyLegal | frontend/game/physics.ts:217-250 | on a non-empty court the clamp leaves a paddle unchanged iff the paddle is already in its court |
| GameStates.MergeConfig | frontend/game/state.ts:3-17 | each given field overrides its default and a missing one takes the default; no overrides give the default configuration |
| GameStates.CreateInitialState | frontend/game/state.ts:16-50 | the puck rests on the centre spot, both paddles are on their opening spots with the configured size and no radius, scores are zero, the game is neither started nor paused, and the clock starts at the time limit |
| GameStates.ResetGameState | frontend/game/state.ts:52-75 | the puck is on the centre spot at rest, the paddles are on their opening spots with their other fields kept, the game is stopped and unpaused, and nothing else (scores, settings, clock) changes |
| GameStates.ResetOfOpeningIsOpening | frontend/game/state.ts:16-75 | resetting a freshly created game gives the same game |
| GameStates.ResetIdempotent | frontend/game/state.ts:52-75 | resetting twice is resetting once |
| GameStates.ResetAfterGoal | frontend/game/state.ts:77-98 | the puck is on the centre spot at rest, both paddles are recentred horizontally at their current depth, the game is stopped, and nothing else changes |
| GameStates.UpdateDifficulty | frontend/game/state.ts:100-108 | the difficulty becomes the given one and nothing else changes |
| GameStates.UpdateAiMode | frontend/game/state.ts:110-115 | the AI mode becomes the given one and nothing else changes |
| GameStates.StartGame | frontend/game/state.ts:117-128 | the game is started and unpaused; each puck velocity component is its draw mapped to [-100, 100); the puck's position and radius and the rest of the state are kept |
| GameStates.PauseGame | frontend/game/state.ts:130-135 | the pause flag flips and nothing else changes |
| GameStates.PauseTwiceIsIdentity | frontend/game/state.ts:130-135 | pausing twice restores the state |
| GameStates.UpdateScore | frontend/game/state.ts:137-146 | exactly one point goes to the scorer, the other score is kept, and nothing else changes |
| GameStates.GoalKeepsThePoint | frontend/components/GamePage.tsx:39-50 | scoring and then resetting after the goal keeps the scorer's point and puts the puck back on the centre spot, with the game stopped |
| GameStates.UpdateTimeRemaining | frontend/game/state.ts:148-161 | with no limit or an expired clock nothing changes; otherwise the remaining time drops by dt and stops at zero; it never gets longer for dt >= 0, and nothing but the clock changes |
| GameStates.CountDownOnlyTouchesTheClock | frontend/game/state.ts:148-161 | any number of countdown steps change nothing but the remaining time |
| GameStates.CountDownSubtractsElapsed | frontend/game/state.ts:148-161 | after n steps the clock shows the start minus the time elapsed in those steps, floored at zero |
| GameStates.CountDownReachesZero | frontend/game/state.ts:148-161 | n steps of dt leave max(0, t - n dt) on the clock: it never goes negative and stays at zero once there |
| ClientAi.ClientDecision | frontend/game/aiClient.ts:167-200 | the client strikes iff the puck is idle in the AI's half, defends iff the puck is in the human's half and not moving up, and intercepts otherwise |
| ClientAi.HumanError | frontend/game/aiClient.ts:184 | the random error lies in [-s, s) |
| ClientAi.ClientInterceptY | frontend/game/aiClient.ts:202-211 | the intercept height is the lower of the puck's y and 0.3 of the centre-line distance |
| ClientAi.ClientInterceptTime | frontend/game/aiClient.ts:213 | the puck, moving at its vertical velocity for this time, reaches the intercept height |
| ClientAi.ClientSideAi | frontend/game/aiClient.ts:158-268 | both coordinates are NaN iff the AI paddle has no radius and the branch is offensive; x alone is NaN iff the dead-slow defensive branch divides 0 by 0 or multiplies Infinity by 0 (y is then 0.3 of the centre line); a retreating puck gives the defensive point; an offensive target lies a radius inside the AI's half; the dead-slow defensive target sits on a table bound |
| ClientAi.IdleStrikeStaysNearPuck | frontend/game/aiClient.ts:181-198 | an idle puck is struck within 15 px of its clamped x, from 25 px above (clamped) |
| ClientAi.FarInterceptIsOnTrajectory | frontend/game/aiClient.ts:204-231 | a far moving puck is met where its straight-line path crosses the intercept height |
| ClientAi.NearInterceptLeadsPuck | frontend/game/aiClient.ts:216-231 | a near moving puck is aimed 0.1 s ahead of, within 10 px, at the clamped intercept height |
| ClientAi.LevelPuckStrike | frontend/game/aiClient.ts:232-246 | a puck with no vertical motion in the AI's half is struck within 20 px of its clamped x, from 30 px above (clamped) |
| ClientAi.RestingCentrePuckAimsAtNaN | frontend/game/aiClient.ts:247-261 | for every configuration and random draw, a created state (puck at rest on the centre line) gives a NaN target x |
| ClientAi.StartedGameWithoutRadiusAimsAtNaN | frontend/game/aiClient.ts:158-200 | for every configuration, a created game started with the puck served upwards gets both target coordinates NaN, because no paddle radius was set |
| BackendAi.NoiseRange | backend/models/ai.py:96-118 | the noise half-width of each difficulty is positive |
| BackendAi.BackendDecision | backend/models/ai.py:24-28 | the server never takes the idle case; it intercepts iff the puck moves up or is in the AI's half |
| BackendAi.InterceptY | backend/models/ai.py:34-44 | the intercept height is the lower of the puck's y and 0.3 of the centre-line distance |
| BackendAi.InterceptTime | backend/models/ai.py:36-43 | the puck, moving at its vertical velocity for this time, reaches the intercept height |
| BackendAi.RuleBasedAim | backend/models/ai.py:5-94 | an offensive aim lies in the AI's half; with vertical motion it is the clamped predicted x and clamped intercept height, without it the clamped puck x 30 px above the puck; a receding puck gives the defensive point, and a puck at vy = 0 in the human's half gives the centre of the AI's half |
| BackendAi.RuleBasedAi | backend/models/ai.py:5-128 | the noise never touches y; the final x lies on the table and within the difficulty's noise range of the clamped aim |
| BackendAi.OffensiveAimWithinNoise | backend/models/ai.py:116-126 | on a table wide enough for the paddle, an offensive target is within the noise of the aim and inside the AI's half |
| BackendAi.ModelBasedAi | backend/models/ai.py:131-150 | the model-based mode answers what the rule-based heuristic answers |
| BackendAi.ComputeAiMove | backend/models/ai.py:153-163 | the dispatcher answers the rule-based target in both modes |
| BackendAi.ModeDoesNotMatter | backend/models/ai.py:153-163 | switching the AI mode never changes the answer |
| BackendAi.HarderIsSteadier | backend/models/ai.py:96-112 | harder difficulties add strictly less noise |
| GameLoop.SpeedMultiplier | frontend/components/GameCanvas.tsx:43-48 | every difficulty's AI speed share is in (0, 1] |
| GameLoop.AiMaxMove | frontend/components/GameCanvas.tsx:313-315 | the AI paddle's per-frame cap is non-negative and never above the human paddle's 600 px/s times dt |
| GameLoop.MoveStep | frontend/components/GameCanvas.tsx:270-277 | a capped step is no longer than the cap or the distance, goes in the distance's direction, covers the whole distance when it is within the cap, and is exactly the cap otherwise |
| GameLoop.MoveStepIsSignTimesCap | frontend/components/GameCanvas.tsx:276-277 | the step by cases equals sign(d) * min(abs(d), maxMove) |
| GameLoop.MoveTowardNeverOvershoots | frontend/components/GameCanvas.tsx:270-280 | a capped move lands between the start and the target, never further from the target, and at most the cap away from the start |
| GameLoop.MovePaddle | frontend/components/GameCanvas.tsx:279-280 | moving a paddle changes only its position |
| GameLoop.ObservedVelocity | frontend/components/GameCanvas.tsx:288-294 | stepping back from the new position by the observed velocity times dt recovers the old position |
| GameLoop.FrameVelocity | frontend/components/GameCanvas.tsx:288-294 | the velocity ref is the displacement over dt when time went forward, and unchanged otherwise |
| GameLoop.PaddleFrame | frontend/components/GameCanvas.tsx:263-300 | with no target nothing changes; with one, the ref's paddle gets the capped move, the frame's paddle the clamp of it, the last position ref the clamped position and the velocity ref the displacement from the previous one |
| GameLoop.PaddleFrameSpeedLimit | frontend/components/GameCanvas.tsx:263-300 | a paddle that starts in its court moves at most the cap along each axis, clamp included |
| GameLoop.AfterWalls | frontend/components/GameCanvas.tsx:363-377 | a wall contact replaces the velocity by the wall response's and clamps each coordinate a radius inside the table, so the puck is on the table when the table is at least a puck wide and high; without one the puck is untouched |
| GameLoop.Separate | frontend/components/GameCanvas.tsx:387-407 | the push-out changes only the position; it changes nothing for a paddle without a radius or for a puck whose centre is already at least the two radii from the paddle centre |
| GameLoop.SeparationPushesAlongCentreLine | frontend/components/GameCanvas.tsx:394-406 | with an exact root, an overlapping puck further than 0.001 from the paddle centre is moved along the centre line on its own side; a puck on the centre is put straight below the human's paddle or straight above the AI's, the two radii away |
| GameLoop.SeparationClearsOverlap | frontend/components/GameCanvas.tsx:394-407 | with an exact square root the push-out leaves the centres at least the two radii apart, and exactly that far when it moved the puck |
| GameLoop.PuckPhase | frontend/components/GameCanvas.tsx:344-446 | the puck's part of a frame is a goal iff the advanced puck, before any wall clamp, is in a goal, and then the scorer is the one the goal check names; the radius never changes (the contacts are stated by the three `PuckPhaseHuman…` lemmas) |
| GameLoop.AfterPaddle | frontend/components/GameCanvas.tsx:387-411 | a miss leaves the puck untouched; a hit publishes the puck at the push-out's position with the hit's velocity and the same radius; an undefined hit, and only that, ends with the pushed-out puck |
| GameLoop.PuckPhaseHumanMiss | frontend/components/GameCanvas.tsx:380-446 | with no goal and no human contact, the AI's paddle is tested on the walled puck: a miss publishes it, a hit publishes it pushed out of the AI's paddle with the AI hit's velocity |
| GameLoop.PuckPhaseHumanHit | frontend/components/GameCanvas.tsx:380-446 | with no goal and a human hit, the AI's paddle is tested on the puck the human contact left, pushed out first and then given the hit's velocity; the AI's miss publishes that puck, its hit pushes it out of the AI's paddle and gives it the AI's velocity |
| GameLoop.PuckPhaseHumanSpeedUndefined | frontend/components/GameCanvas.tsx:386-411 | with no goal, a human hit whose speed floor divides by zero ends the puck phase with the pushed-out puck |
| GameLoop.HumanReturnIsNeverSoft | frontend/components/GameCanvas.tsx:380-446 | a human hit the AI does not answer publishes a puck of at least 50 px/s |
| GameLoop.AiHitIsNeverSoft | frontend/components/GameCanvas.tsx:380-446 | an AI hit on the walled puck, with no human contact before it, publishes a puck of at least 65 px/s |
| GameLoop.HitLeavesPuckClear | frontend/components/GameCanvas.tsx:387-411 | a hit on a paddle with a radius leaves the puck at least the two radii from the paddle's centre |
| GameLoop.NoContactKeepsPuckOnTable | frontend/components/GameCanvas.tsx:344-446 | a frame with no goal and no paddle contact ends with the puck on the table |
| GameLoop.SeparateFrom | frontend/components/GameCanvas.tsx:387-407 | the in-place push-out equals Separate |
| GameLoop.StepPuck | frontend/components/GameCanvas.tsx:344-446 | the puck steps in the loop's order equal PuckPhase |
| GameLoop.Frame | frontend/components/GameCanvas.tsx:221-478 | every frame updates the clock ref; a frame is skipped iff more than 0.1 s passed; skipped, start-screen and celebration frames change no other ref; no frame changes anything in the ref's state but the two paddles; an active frame moves the paddles and the puck |
| GameLoop.PausedFramePublishesRef | frontend/components/GameCanvas.tsx:256-477 | a paused game publishes the ref's state resized to the canvas each frame and changes no ref but the clock |
| GameLoop.FrameScoresIffAdvancedPuckInGoal | frontend/components/GameCanvas.tsx:344-361 | an active frame scores for a side iff the advanced, unclamped puck is in that side's goal |
| GameLoop.FrameHumanReturnIsNeverSoft | frontend/components/GameCanvas.tsx:256-477 | an active frame in which the human's placed paddle hits the walled puck and the AI's misses publishes a puck of at least 50 px/s |
| GameLoop.ActiveFrameKeepsHumanPaddleInCourt | frontend/components/GameCanvas.tsx:279-299 | a published human paddle that followed the pointer is in the human's court, and the last position ref is that paddle's position |
| GameLoop.ActiveFrameKeepsAiPaddleInCourt | frontend/components/GameCanvas.tsx:321-341 | a published AI paddle that followed a response is in the AI's court, and the last position ref is that paddle's position |
| GameLoop.RefKeepsUnclampedHumanMove | frontend/components/GameCanvas.tsx:232-286 | after an active frame the ref's own human paddle holds the moved, unclamped position |
| GameLoop.UnclampedMoveCanLeaveCourt | frontend/components/GameCanvas.tsx:279-286 | such a move can take a paddle in its court out of it |
| GameLoop.HumanVelocityMatchesDisplacement | frontend/components/GameCanvas.tsx:288-299 | the human velocity given to the collision test times dt is the displacement from the last remembered position |
| GameLoop.HumanPaddleSpeedLimit | frontend/components/GameCanvas.tsx:263-300 | the human paddle moves at most 600 px/s times dt along each axis, clamp included |
| GameLoop.AiPaddleSpeedLimit | frontend/components/GameCanvas.tsx:302-342 | the AI paddle moves at most its difficulty's share of 600 px/s times dt along each axis |
| GameLoop.FrameLoop.constructor | frontend/components/GameCanvas.tsx:59-69 | the refs start as the first state, time 0 and zero vectors |
| GameLoop.FrameLoop.ReceiveState | frontend/components/GameCanvas.tsx:71-74 | the state ref becomes the new prop and no other ref changes |
| GameLoop.FrameLoop.SyncPaddleRefs | frontend/components/GameCanvas.tsx:496-506 | the last position refs become the prop's paddle positions and no other ref changes |
| GameLoop.FrameLoop.MoveHuman | frontend/components/GameCanvas.tsx:263-300 | the in-place human paddle update leaves the refs and the placed paddle that PaddleFrame describes |
| GameLoop.FrameLoop.MoveAi | frontend/components/GameCanvas.tsx:302-342 | the in-place AI paddle update leaves the refs and the placed paddle that PaddleFrame describes, at the difficulty's cap |
| GameLoop.FrameLoop.Advance | frontend/components/GameCanvas.tsx:256-449 | the moving part of a frame leaves the refs and the outcome of an active Frame |
| GameLoop.FrameLoop.Tick | frontend/components/GameCanvas.tsx:221-478 | one call of the game loop leaves exactly the refs and the outcome that Frame gives |

## Left out

- Drawing is not modelled: the table, the puck, the paddles, the start
  screen, the celebration and the debug overlay (`frontend/game/render.ts`
  and `GameCanvas.tsx:240-242, 249-251, 452-474`). It produces no state.
- Animation-frame scheduling and cancellation (`GameCanvas.tsx:227, 243,
  252, 477, 480-486`) are not modelled. The model is a single call of the
  loop, and the host calls `Tick` again.
- The goal callback and the two-second celebration timer
  (`GameCanvas.tsx:354-358`), and the effect that clears the celebration
  (`GameCanvas.tsx:489-494`), are timers and host callbacks. The
  celebration is a frame input, and `Scored` reports the goal.
- The pointer and touch handlers (`GameCanvas.tsx:77-110`) are browser
  events. The latest pointer position is a frame input.
- The AI polling interval and the requests behind it (`GameCanvas.tsx:112-171`)
  are left out, as are the HTTP and WebSocket transport and the
  backend-availability probe (`aiClient.ts:1-155`). The server's router and
  application (`backend/routers/ai.py`, `backend/main.py`) are left out too.
  All of this is I/O. The latest AI response is a frame input.
- Canvas resizing (`GameCanvas.tsx:174-211`) is a DOM effect. The canvas
  size is a frame input.
- The page's glue (`frontend/components/GamePage.tsx`) is left out. It
  advances the countdown by a fixed 1/60 s per published frame and
  composes the score and reset on a goal. The state functions it calls are
  modelled; `GameStates.GoalKeepsThePoint` states their composition.
- Floating point is not modelled: rounding, overflow and signed zero. NaN
  and Infinity appear only as the named outcomes listed above; the frame
  loop's inputs and refs are always numbers (see the line on
  `GameLoop.ActiveFrameKeepsAiPaddleInCourt`).
- Fields and values that the code declares but never reads are not
  modelled: `speed_multiplier` and `reaction_delay` in
  `backend/models/ai.py:96-112`; `puckSpeed`, `paddleSpeed` and `friction`
  in `state.ts:9-11`; the separation vector at `physics.ts:161-164`.
- The `|| 0.7` fallback at `GameCanvas.tsx:314` is not modelled because no
  difficulty reaches it.
- GameStates.MergeConfig: a patch field is either absent or a number. A
  field explicitly set to `undefined`, which the spread would copy over
  its default, is not modelled.
- GameStates.UpdateTimeRemaining: truthiness is modelled as "absent or
  zero"; a NaN clock is not modelled.
- ClientAi.ClientSideAi: vy is taken as +0 in the division by zero, and
  NaN inputs are not modelled.
- GameLoop.PuckPhase: after a hit whose speed floor divides by zero, the
  source stores NaN velocities. The model returns `SettledVelocityNaN`,
  keeping the previous, numeric velocity in the record it carries.
  `GameLoop.Frame` publishes that record as `PublishedVelocityNaN`.
- GameLoop.HumanVelocityMatchesDisplacement: stated on `RunningMemory`,
  the refs an active frame leaves, not on `Frame` directly.
  `GameLoop.Frame`'s last postcondition equates the two.
- GameLoop.HumanPaddleSpeedLimit: stated on `RunningMemory` in the same
  way.
- GameLoop.AiPaddleSpeedLimit: stated on `RunningMemory` in the same way.
  The AI paddle's velocity ref has no lemma of its own; its displacement
  property is part of `GameLoop.PaddleFrame` and `GameLoop.FrameVelocity`.
- GameLoop.ActiveFrameKeepsAiPaddleInCourt: the frame takes the last AI
  response as numbers only. A NaN answer from the client heuristic
  (`ClientAi.ClientSideAi` returning `RadiusUndefined` or `TargetXNaN`),
  which the component stores and follows, is outside the model. In the
  source that answer makes the AI paddle's position, its last-position
  ref and its velocity ref NaN from that frame on, so the published AI
  paddle is then not in its court and the lemma does not describe it.
- Physics.PaddleHitIsNeverSoft: the bound needs an exact square root at
  the bounced velocity. With the model's free `sqrt` it is stated only
  under `SqrtAt`.
