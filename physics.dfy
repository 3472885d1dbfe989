/** Puck advance, wall and paddle contact, goal detection and the position
    clamps (frontend/game/physics.ts). Square roots are taken with a
    supplied `sqrt`; the lemmas that rely on it being exact say at which
    points through `SqrtAt`. */
module Physics {
  import opened Types
  import opened Numeric

  const PuckFriction: real := 0.98
  const WallBounceDamping: real := 0.95
  const PaddleBounceMultiplier: real := 1.5
  const MinPuckVelocity: real := 50.0
  const PaddleVelocityTransfer: real := 0.8
  /** Below this magnitude a damped velocity component is set to zero. */
  const StopVelocity: real := 0.5
  const AiBoost: real := 1.3
  /** Distances at or below this are treated as "no direction". */
  const ContactEpsilon: real := 0.001
  const DefaultGoalWidth: real := 100.0

  // ---------------------------------------------------------------------
  // Vectors

  function SqNorm(v: Vec): real { v.x * v.x + v.y * v.y }

  function Dot(a: Vec, b: Vec): real { a.x * b.x + a.y * b.y }

  function Scale(v: Vec, k: real): Vec { Vec(v.x * k, v.y * k) }

  function Add(a: Vec, b: Vec): Vec { Vec(a.x + b.x, a.y + b.y) }

  /** u - 2 (u . n) n: the mirror image of u across the line normal to n. */
  function Reflect(u: Vec, n: Vec): Vec
  {
    Vec(u.x - 2.0 * Dot(u, n) * n.x, u.y - 2.0 * Dot(u, n) * n.y)
  }

  lemma ProductNonNegative(x: real, y: real)
    requires 0.0 <= x && 0.0 <= y
    ensures 0.0 <= x * y
  {
  }

  lemma ProductPositive(x: real, y: real)
    requires 0.0 < x && 0.0 < y
    ensures 0.0 < x * y
  {
  }

  lemma SquareMonotone(a: real, b: real)
    requires Abs(a) <= Abs(b)
    ensures a * a <= b * b
  {
    var p, q := Abs(a), Abs(b);
    assert a * a == p * p;
    assert b * b == q * q;
    assert q * q - p * p == (q - p) * (q + p);
    ProductNonNegative(q - p, q + p);
  }

  /** Dividing a vector by its exact length gives a unit vector. */
  lemma DividedByLengthIsUnit(v: Vec, d: real)
    requires 0.0 < d && d * d == SqNorm(v)
    ensures SqNorm(Vec(v.x / d, v.y / d)) == 1.0
  {
    var inv := 1.0 / d;
    assert inv * d == 1.0;
    assert v.x / d == v.x * inv && v.y / d == v.y * inv;
    assert SqNorm(Vec(v.x * inv, v.y * inv)) == SqNorm(v) * (inv * inv);
    assert SqNorm(v) * (inv * inv) == (d * inv) * (d * inv);
  }

  /** Reflecting across a unit normal flips the normal component and keeps
      the speed. */
  lemma ReflectAcrossUnit(u: Vec, n: Vec)
    requires SqNorm(n) == 1.0
    ensures Dot(Reflect(u, n), n) == -Dot(u, n)
    ensures SqNorm(Reflect(u, n)) == SqNorm(u)
  {
    var k := Dot(u, n);
    assert Dot(Reflect(u, n), n) == k - 2.0 * k * SqNorm(n);
    assert SqNorm(Reflect(u, n)) == SqNorm(u) - 4.0 * k * k + 4.0 * k * k * SqNorm(n);
  }

  // ---------------------------------------------------------------------
  // updatePuckPosition

  /** Friction on one velocity component: damp by 0.98, then drop to rest
      once the damped value is under 0.5. */
  function Damp(v: real): (r: real)
    ensures Abs(r) <= Abs(v)
    ensures r == 0.0 <==> Abs(v * PuckFriction) < StopVelocity
    ensures r != 0.0 ==> r == v * PuckFriction
  {
    var damped := v * PuckFriction;
    if Abs(damped) < StopVelocity then 0.0 else damped
  }

  /** One Euler step: friction first, then the move by the NEW velocity. */
  function UpdatePuckPosition(puck: Puck, dt: real): (r: Puck)
    ensures r.radius == puck.radius
    ensures r.vx == Damp(puck.vx) && r.vy == Damp(puck.vy)
    ensures r.x == puck.x + r.vx * dt && r.y == puck.y + r.vy * dt
  {
    var vx := Damp(puck.vx);
    var vy := Damp(puck.vy);
    puck.(x := puck.x + vx * dt, y := puck.y + vy * dt, vx := vx, vy := vy)
  }

  /** Integration alone never adds kinetic energy. */
  lemma AdvanceNeverSpeedsUp(puck: Puck, dt: real)
    ensures var r := UpdatePuckPosition(puck, dt);
      SqNorm(Vec(r.vx, r.vy)) <= SqNorm(Vec(puck.vx, puck.vy))
  {
    SquareMonotone(Damp(puck.vx), puck.vx);
    SquareMonotone(Damp(puck.vy), puck.vy);
  }

  // ---------------------------------------------------------------------
  // checkWallCollision

  /** The `{collided, newVx?, newVy?}` result: velocities exist only on a hit. */
  datatype WallResult = NoWallHit | WallHit(newVx: real, newVy: real)

  predicate TouchesLeft(puck: Puck) { puck.x - puck.radius <= 0.0 }
  predicate TouchesRight(puck: Puck, width: real) { puck.x + puck.radius >= width }
  predicate TouchesTop(puck: Puck) { puck.y - puck.radius <= 0.0 }
  predicate TouchesBottom(puck: Puck, height: real) { puck.y + puck.radius >= height }

  /** The wall response. Each axis is decided by its two walls, and when a
      puck touches both (wider than the table) the right or bottom test,
      made later, wins. */
  function WallResponse(puck: Puck, width: real, height: real): (r: WallResult)
    ensures r.NoWallHit? <==>
      (puck.x - puck.radius > 0.0 && puck.x + puck.radius < width &&
       puck.y - puck.radius > 0.0 && puck.y + puck.radius < height)
    ensures r.WallHit? && TouchesRight(puck, width) ==>
      r.newVx == -WallBounceDamping * Abs(puck.vx) && r.newVx <= 0.0
    ensures r.WallHit? && TouchesLeft(puck) && !TouchesRight(puck, width) ==>
      r.newVx == WallBounceDamping * Abs(puck.vx) && r.newVx >= 0.0
    ensures r.WallHit? && !TouchesLeft(puck) && !TouchesRight(puck, width) ==> r.newVx == puck.vx
    ensures r.WallHit? && TouchesBottom(puck, height) ==>
      r.newVy == -WallBounceDamping * Abs(puck.vy) && r.newVy <= 0.0
    ensures r.WallHit? && TouchesTop(puck) && !TouchesBottom(puck, height) ==>
      r.newVy == WallBounceDamping * Abs(puck.vy) && r.newVy >= 0.0
    ensures r.WallHit? && !TouchesTop(puck) && !TouchesBottom(puck, height) ==> r.newVy == puck.vy
    ensures r.WallHit? ==> Abs(r.newVx) <= Abs(puck.vx) && Abs(r.newVy) <= Abs(puck.vy)
  {
    var left, right := TouchesLeft(puck), TouchesRight(puck, width);
    var top, bottom := TouchesTop(puck), TouchesBottom(puck, height);
    if left || right || top || bottom then
      WallHit(
        if right then -Abs(puck.vx) * WallBounceDamping
        else if left then Abs(puck.vx) * WallBounceDamping
        else puck.vx,
        if bottom then -Abs(puck.vy) * WallBounceDamping
        else if top then Abs(puck.vy) * WallBounceDamping
        else puck.vy)
    else
      NoWallHit
  }

  /** checkWallCollision as written: four sequential tests, each of which
      may overwrite the velocity set by an earlier one. */
  method CheckWallCollision(puck: Puck, tableWidth: real, tableHeight: real) returns (r: WallResult)
    ensures r == WallResponse(puck, tableWidth, tableHeight)
  {
    var radius := puck.radius;
    var newVx, newVy, collided := puck.vx, puck.vy, false;
    if puck.x - radius <= 0.0 {
      newVx := Abs(puck.vx) * WallBounceDamping;
      collided := true;
    }
    if puck.x + radius >= tableWidth {
      newVx := -Abs(puck.vx) * WallBounceDamping;
      collided := true;
    }
    if puck.y - radius <= 0.0 {
      newVy := Abs(puck.vy) * WallBounceDamping;
      collided := true;
    }
    if puck.y + radius >= tableHeight {
      newVy := -Abs(puck.vy) * WallBounceDamping;
      collided := true;
    }
    r := if collided then WallHit(newVx, newVy) else NoWallHit;
  }

  // ---------------------------------------------------------------------
  // checkPaddleCollision

  /** Miss, a hit with the new puck velocity, or a hit whose minimum-speed
      rescale divides by a zero magnitude (the source then stores NaN). */
  datatype PaddleResult = Miss | Hit(newVx: real, newVy: real) | HitSpeedUndefined

  /** From the point of the paddle rectangle nearest the puck centre to the
      puck centre. */
  function ClosestOffset(puck: Puck, paddle: Paddle): (d: Vec)
    ensures paddle.x - paddle.width / 2.0 <= puck.x <= paddle.x + paddle.width / 2.0 ==> d.x == 0.0
    ensures paddle.y - paddle.height / 2.0 <= puck.y <= paddle.y + paddle.height / 2.0 ==> d.y == 0.0
    ensures 0.0 <= paddle.width && puck.x > paddle.x + paddle.width / 2.0 ==>
      d.x == puck.x - (paddle.x + paddle.width / 2.0)
    ensures 0.0 <= paddle.width && puck.x < paddle.x - paddle.width / 2.0 ==>
      d.x == puck.x - (paddle.x - paddle.width / 2.0)
    ensures 0.0 <= paddle.height && puck.y > paddle.y + paddle.height / 2.0 ==>
      d.y == puck.y - (paddle.y + paddle.height / 2.0)
    ensures 0.0 <= paddle.height && puck.y < paddle.y - paddle.height / 2.0 ==>
      d.y == puck.y - (paddle.y - paddle.height / 2.0)
    ensures 0.0 <= paddle.width ==> Abs(d.x) <= Abs(puck.x - paddle.x)
    ensures 0.0 <= paddle.height ==> Abs(d.y) <= Abs(puck.y - paddle.y)
  {
    var left, right := paddle.x - paddle.width / 2.0, paddle.x + paddle.width / 2.0;
    var top, bottom := paddle.y - paddle.height / 2.0, paddle.y + paddle.height / 2.0;
    Vec(puck.x - Max(left, Min(puck.x, right)), puck.y - Max(top, Min(puck.y, bottom)))
  }

  function CentreOffset(puck: Puck, paddle: Paddle): Vec
  {
    Vec(puck.x - paddle.x, puck.y - paddle.y)
  }

  /** The contact normal: towards the puck from the nearest paddle point,
      else from the paddle centre, else the fixed fallback: -y for the AI's
      paddle, +y for the human's. */
  function ContactNormal(puck: Puck, paddle: Paddle, isAi: bool, sqrt: real -> real): (n: Vec)
    ensures sqrt(SqNorm(ClosestOffset(puck, paddle))) <= ContactEpsilon &&
            sqrt(SqNorm(CentreOffset(puck, paddle))) <= ContactEpsilon ==>
      n == Vec(0.0, if isAi then -1.0 else 1.0)
  {
    var d := ClosestOffset(puck, paddle);
    var distance := sqrt(SqNorm(d));
    if distance > ContactEpsilon then Vec(d.x / distance, d.y / distance)
    else
      var c := CentreOffset(puck, paddle);
      var centerDist := sqrt(SqNorm(c));
      if centerDist > ContactEpsilon then Vec(c.x / centerDist, c.y / centerDist)
      else Vec(0.0, if isAi then -1.0 else 1.0)
  }

  /** With exact square roots every branch of the normal has unit length. */
  lemma ContactNormalIsUnit(puck: Puck, paddle: Paddle, isAi: bool, sqrt: real -> real)
    requires SqrtAt(sqrt, SqNorm(ClosestOffset(puck, paddle)))
    requires SqrtAt(sqrt, SqNorm(CentreOffset(puck, paddle)))
    ensures SqNorm(ContactNormal(puck, paddle, isAi, sqrt)) == 1.0
  {
    var d := ClosestOffset(puck, paddle);
    var c := CentreOffset(puck, paddle);
    if sqrt(SqNorm(d)) > ContactEpsilon {
      DividedByLengthIsUnit(d, sqrt(SqNorm(d)));
    } else if sqrt(SqNorm(c)) > ContactEpsilon {
      DividedByLengthIsUnit(c, sqrt(SqNorm(c)));
    }
  }

  /** Dividing a non-zero vector by its exact length keeps its direction:
      the result is parallel to it and points the same way. */
  lemma DividedByLengthIsSameDirection(v: Vec, d: real)
    requires 0.0 < d && d * d == SqNorm(v)
    ensures var n := Vec(v.x / d, v.y / d);
      n.x * v.y == n.y * v.x && Dot(n, v) == d && Dot(n, v) > 0.0
  {
    var inv := 1.0 / d;
    assert inv * d == 1.0;
    assert v.x / d == v.x * inv && v.y / d == v.y * inv;
    assert Dot(Vec(v.x * inv, v.y * inv), v) == SqNorm(v) * inv;
    assert SqNorm(v) * inv == d * (d * inv);
  }

  /** With an exact square root the normal points along the offset from
      the nearest paddle point whenever that is further than 0.001. */
  lemma ContactNormalAlongNearestPoint(puck: Puck, paddle: Paddle, isAi: bool, sqrt: real -> real)
    requires SqrtAt(sqrt, SqNorm(ClosestOffset(puck, paddle)))
    requires sqrt(SqNorm(ClosestOffset(puck, paddle))) > ContactEpsilon
    ensures var n, d := ContactNormal(puck, paddle, isAi, sqrt), ClosestOffset(puck, paddle);
      n.x * d.y == n.y * d.x && Dot(n, d) > 0.0
  {
    var d := ClosestOffset(puck, paddle);
    DividedByLengthIsSameDirection(d, sqrt(SqNorm(d)));
  }

  /** Otherwise, with an exact square root, it points along the offset from
      the paddle centre whenever that is further than 0.001. */
  lemma ContactNormalAlongCentreLine(puck: Puck, paddle: Paddle, isAi: bool, sqrt: real -> real)
    requires sqrt(SqNorm(ClosestOffset(puck, paddle))) <= ContactEpsilon
    requires SqrtAt(sqrt, SqNorm(CentreOffset(puck, paddle)))
    requires sqrt(SqNorm(CentreOffset(puck, paddle))) > ContactEpsilon
    ensures var n, c := ContactNormal(puck, paddle, isAi, sqrt), CentreOffset(puck, paddle);
      n.x * c.y == n.y * c.x && Dot(n, c) > 0.0
  {
    var c := CentreOffset(puck, paddle);
    DividedByLengthIsSameDirection(c, sqrt(SqNorm(c)));
  }

  function RelativeVelocity(puck: Puck, paddleVx: real, paddleVy: real): Vec
  {
    Vec(puck.vx - paddleVx, puck.vy - paddleVy)
  }

  /** Reflected relative velocity times the bounce multiplier, plus the
      transferred share of the paddle's velocity. */
  function Bounced(puck: Puck, paddle: Paddle, paddleVx: real, paddleVy: real, isAi: bool, sqrt: real -> real): Vec
  {
    var n := ContactNormal(puck, paddle, isAi, sqrt);
    Add(Scale(Reflect(RelativeVelocity(puck, paddleVx, paddleVy), n), PaddleBounceMultiplier),
        Scale(Vec(paddleVx, paddleVy), PaddleVelocityTransfer))
  }

  /** The end of a hit: a bounce slower than the minimum speed is scaled up
      to it (undefined when the bounce has no speed at all, a division by
      zero), and the AI's paddle adds its boost. */
  function BounceResult(b: Vec, isAi: bool, sqrt: real -> real): (r: PaddleResult)
    ensures !r.Miss?
    ensures r.HitSpeedUndefined? <==> sqrt(SqNorm(b)) == 0.0
    ensures r.Hit? ==> r.newVx * b.y == r.newVy * b.x
    ensures r.Hit? && sqrt(SqNorm(b)) >= MinPuckVelocity ==>
      Vec(r.newVx, r.newVy) == (if isAi then Scale(b, AiBoost) else b)
  {
    var magnitude := sqrt(SqNorm(b));
    if magnitude == 0.0 then HitSpeedUndefined
    else
      var fast := if magnitude < MinPuckVelocity then Scale(b, MinPuckVelocity / magnitude) else b;
      var v := if isAi then Scale(fast, AiBoost) else fast;
      ScaledIsParallel(b, (if magnitude < MinPuckVelocity then MinPuckVelocity / magnitude else 1.0)
                            * (if isAi then AiBoost else 1.0));
      assert v == Scale(b, (if magnitude < MinPuckVelocity then MinPuckVelocity / magnitude else 1.0)
                            * (if isAi then AiBoost else 1.0));
      Hit(v.x, v.y)
  }

  /** A multiple of a vector is parallel to it. */
  lemma ScaledIsParallel(b: Vec, k: real)
    ensures Scale(b, k).x * b.y == Scale(b, k).y * b.x
  {
  }

  /** The paddle response. A contact needs the nearest paddle point strictly
      within the puck radius AND the puck approaching along the normal. */
  function PaddleResponse(puck: Puck, paddle: Paddle, paddleVx: real, paddleVy: real, isAi: bool,
                          sqrt: real -> real): (r: PaddleResult)
    ensures r.Miss? <==>
      !(SqNorm(ClosestOffset(puck, paddle)) < puck.radius * puck.radius) ||
      Dot(RelativeVelocity(puck, paddleVx, paddleVy), ContactNormal(puck, paddle, isAi, sqrt)) >= 0.0
    ensures r.HitSpeedUndefined? ==> sqrt(SqNorm(Bounced(puck, paddle, paddleVx, paddleVy, isAi, sqrt))) == 0.0
  {
    if !(SqNorm(ClosestOffset(puck, paddle)) < puck.radius * puck.radius) then Miss
    else
      var n := ContactNormal(puck, paddle, isAi, sqrt);
      if !(Dot(RelativeVelocity(puck, paddleVx, paddleVy), n) < 0.0) then Miss
      else BounceResult(Bounced(puck, paddle, paddleVx, paddleVy, isAi, sqrt), isAi, sqrt)
  }

  /** A hit leaves along the bounced velocity: parallel to it always, and
      equal to it (times the AI boost for the AI's paddle) when the bounce
      is already at least the minimum speed. */
  lemma PaddleHitFollowsBounce(puck: Puck, paddle: Paddle, paddleVx: real, paddleVy: real, isAi: bool,
                               sqrt: real -> real)
    ensures var r, b := PaddleResponse(puck, paddle, paddleVx, paddleVy, isAi, sqrt),
                        Bounced(puck, paddle, paddleVx, paddleVy, isAi, sqrt);
      r.Hit? ==>
        (r.newVx * b.y == r.newVy * b.x &&
         (sqrt(SqNorm(b)) >= MinPuckVelocity ==> Vec(r.newVx, r.newVy) == (if isAi then Scale(b, AiBoost) else b)))
  {
    var r := PaddleResponse(puck, paddle, paddleVx, paddleVy, isAi, sqrt);
    if r.Hit? {
      assert r == BounceResult(Bounced(puck, paddle, paddleVx, paddleVy, isAi, sqrt), isAi, sqrt);
    }
  }

  /** A hit always leaves the puck at least at the minimum post-hit speed
      (50, times the AI boost for the AI's paddle). */
  lemma PaddleHitIsNeverSoft(puck: Puck, paddle: Paddle, paddleVx: real, paddleVy: real, isAi: bool,
                             sqrt: real -> real)
    requires SqrtAt(sqrt, SqNorm(Bounced(puck, paddle, paddleVx, paddleVy, isAi, sqrt)))
    requires PaddleResponse(puck, paddle, paddleVx, paddleVy, isAi, sqrt).Hit?
    ensures var r := PaddleResponse(puck, paddle, paddleVx, paddleVy, isAi, sqrt);
      SqNorm(Vec(r.newVx, r.newVy)) >=
        MinPuckVelocity * MinPuckVelocity * (if isAi then AiBoost * AiBoost else 1.0)
  {
    BounceIsNeverSoft(Bounced(puck, paddle, paddleVx, paddleVy, isAi, sqrt), isAi, sqrt);
  }

  /** The speed floor of BounceResult, for an exact root at the bounce. */
  lemma BounceIsNeverSoft(b: Vec, isAi: bool, sqrt: real -> real)
    requires SqrtAt(sqrt, SqNorm(b))
    requires BounceResult(b, isAi, sqrt).Hit?
    ensures var r := BounceResult(b, isAi, sqrt);
      SqNorm(Vec(r.newVx, r.newVy)) >=
        MinPuckVelocity * MinPuckVelocity * (if isAi then AiBoost * AiBoost else 1.0)
  {
    var m := sqrt(SqNorm(b));
    var fast := if m < MinPuckVelocity then Scale(b, MinPuckVelocity / m) else b;
    if m < MinPuckVelocity {
      var s := MinPuckVelocity / m;
      assert s * m == MinPuckVelocity;
      assert SqNorm(fast) == (s * s) * SqNorm(b);
      assert SqNorm(fast) == (s * m) * (s * m);
    } else {
      assert SqNorm(b) == m * m;
      assert m * m >= MinPuckVelocity * m >= MinPuckVelocity * MinPuckVelocity;
    }
    assert SqNorm(fast) >= MinPuckVelocity * MinPuckVelocity;
    if isAi {
      assert SqNorm(Scale(fast, AiBoost)) == AiBoost * AiBoost * SqNorm(fast);
    }
  }

  /** Under an exact root at the bounce, the floor and the boost scale the
      bounce by a positive factor, so the hit leaves along the bounce and
      never against it. */
  lemma BounceKeepsDirection(b: Vec, isAi: bool, sqrt: real -> real)
    requires SqrtAt(sqrt, SqNorm(b))
    requires BounceResult(b, isAi, sqrt).Hit?
    ensures var r := BounceResult(b, isAi, sqrt);
      Dot(Vec(r.newVx, r.newVy), b) > 0.0
  {
    var r := BounceResult(b, isAi, sqrt);
    var m := sqrt(SqNorm(b));
    ProductPositive(m, m);
    var s := if m < MinPuckVelocity then MinPuckVelocity / m else 1.0;
    QuotientPositive(MinPuckVelocity, m);
    var k := s * (if isAi then AiBoost else 1.0);
    assert Vec(r.newVx, r.newVy) == Scale(b, k);
    DotScale(b, k);
    ProductPositive(k, SqNorm(b));
  }

  lemma QuotientPositive(x: real, y: real)
    requires 0.0 < x && 0.0 < y
    ensures 0.0 < x / y
  {
  }

  lemma DotScale(b: Vec, k: real)
    ensures Dot(Scale(b, k), b) == k * SqNorm(b)
  {
  }

  /** The same for a paddle hit: it leaves along the reflected, multiplied
      and transferred bounce. */
  lemma PaddleHitKeepsDirection(puck: Puck, paddle: Paddle, paddleVx: real, paddleVy: real, isAi: bool,
                                sqrt: real -> real)
    requires SqrtAt(sqrt, SqNorm(Bounced(puck, paddle, paddleVx, paddleVy, isAi, sqrt)))
    requires PaddleResponse(puck, paddle, paddleVx, paddleVy, isAi, sqrt).Hit?
    ensures var r := PaddleResponse(puck, paddle, paddleVx, paddleVy, isAi, sqrt);
      Dot(Vec(r.newVx, r.newVy), Bounced(puck, paddle, paddleVx, paddleVy, isAi, sqrt)) > 0.0
  {
    BounceKeepsDirection(Bounced(puck, paddle, paddleVx, paddleVy, isAi, sqrt), isAi, sqrt);
  }

  /** On a hit, the reflected relative velocity leaves along the normal as
      fast as it arrived: its normal component changes sign. */
  lemma PaddleHitReflectsAway(puck: Puck, paddle: Paddle, paddleVx: real, paddleVy: real, isAi: bool,
                              sqrt: real -> real)
    requires SqrtAt(sqrt, SqNorm(ClosestOffset(puck, paddle)))
    requires SqrtAt(sqrt, SqNorm(CentreOffset(puck, paddle)))
    requires !PaddleResponse(puck, paddle, paddleVx, paddleVy, isAi, sqrt).Miss?
    ensures var n := ContactNormal(puck, paddle, isAi, sqrt);
      var u := RelativeVelocity(puck, paddleVx, paddleVy);
      Dot(Reflect(u, n), n) == -Dot(u, n) > 0.0 && SqNorm(Reflect(u, n)) == SqNorm(u)
  {
    ContactNormalIsUnit(puck, paddle, isAi, sqrt);
    ReflectAcrossUnit(RelativeVelocity(puck, paddleVx, paddleVy), ContactNormal(puck, paddle, isAi, sqrt));
  }

  /** The normal as checkPaddleCollision computes it. */
  method ComputeNormal(puck: Puck, paddle: Paddle, isAi: bool, sqrt: real -> real) returns (normal: Vec)
    ensures normal == ContactNormal(puck, paddle, isAi, sqrt)
  {
    var offset := ClosestOffset(puck, paddle);
    var distance := sqrt(SqNorm(offset));
    if distance > ContactEpsilon {
      normal := Vec(offset.x / distance, offset.y / distance);
    } else {
      var centre := CentreOffset(puck, paddle);
      var centerDist := sqrt(SqNorm(centre));
      if centerDist > ContactEpsilon {
        normal := Vec(centre.x / centerDist, centre.y / centerDist);
      } else {
        normal := Vec(0.0, if isAi then -1.0 else 1.0);
      }
    }
  }

  /** The speed floor and the AI boost, updating the velocity in place. */
  method FinishBounce(bounced: Vec, isAi: bool, sqrt: real -> real) returns (r: PaddleResult)
    ensures r == BounceResult(bounced, isAi, sqrt)
  {
    var newV := bounced;
    var velocityMagnitude := sqrt(SqNorm(newV));
    if velocityMagnitude < MinPuckVelocity {
      if velocityMagnitude == 0.0 {
        return HitSpeedUndefined;
      }
      newV := Scale(newV, MinPuckVelocity / velocityMagnitude);
    }
    if isAi {
      newV := Scale(newV, AiBoost);
    }
    r := Hit(newV.x, newV.y);
  }

  /** checkPaddleCollision as written, updating the new velocity in place
      step by step. */
  method CheckPaddleCollision(puck: Puck, paddle: Paddle, paddleVx: real, paddleVy: real, isAi: bool,
                              sqrt: real -> real) returns (r: PaddleResult)
    ensures r == PaddleResponse(puck, paddle, paddleVx, paddleVy, isAi, sqrt)
  {
    var distanceSquared := SqNorm(ClosestOffset(puck, paddle));
    r := Miss;
    if distanceSquared < puck.radius * puck.radius {
      var normal := ComputeNormal(puck, paddle, isAi, sqrt);
      var relative := RelativeVelocity(puck, paddleVx, paddleVy);
      var dotProduct := Dot(relative, normal);
      if dotProduct < 0.0 {
        var newV := Reflect(relative, normal);
        newV := Scale(newV, PaddleBounceMultiplier);
        newV := Add(newV, Scale(Vec(paddleVx, paddleVy), PaddleVelocityTransfer));
        assert newV == Bounced(puck, paddle, paddleVx, paddleVy, isAi, sqrt);
        r := FinishBounce(newV, isAi, sqrt);
      }
    }
  }

  // ---------------------------------------------------------------------
  // checkGoal

  predicate InGoalMouth(x: real, tableWidth: real, goalWidth: real)
  {
    tableWidth / 2.0 - goalWidth / 2.0 <= x <= tableWidth / 2.0 + goalWidth / 2.0
  }

  /** A goal needs the puck's edge on or past an end line AND its centre
      within the mouth, both bounds inclusive; the human's line (bottom) is
      tested first. */
  function CheckGoal(puck: Puck, tableWidth: real, tableHeight: real, goalWidth: real): (r: Option<Scorer>)
    ensures r == Some(Ai) <==>
      puck.y + puck.radius >= tableHeight && InGoalMouth(puck.x, tableWidth, goalWidth)
    ensures r == Some(Human) <==>
      puck.y + puck.radius < tableHeight && puck.y - puck.radius <= 0.0 &&
      InGoalMouth(puck.x, tableWidth, goalWidth)
    ensures r == None <==>
      !InGoalMouth(puck.x, tableWidth, goalWidth) ||
      (puck.y - puck.radius > 0.0 && puck.y + puck.radius < tableHeight)
  {
    var goalCenterX := tableWidth / 2.0;
    var goalLeft := goalCenterX - goalWidth / 2.0;
    var goalRight := goalCenterX + goalWidth / 2.0;
    if puck.y + puck.radius >= tableHeight && puck.x >= goalLeft && puck.x <= goalRight then Some(Ai)
    else if puck.y - puck.radius <= 0.0 && puck.x >= goalLeft && puck.x <= goalRight then Some(Human)
    else None
  }

  // ---------------------------------------------------------------------
  // clampPuckToBounds, clampPaddleToBounds

  predicate PuckInside(puck: Puck, width: real, height: real)
  {
    puck.radius <= puck.x <= width - puck.radius && puck.radius <= puck.y <= height - puck.radius
  }

  function ClampPuckToBounds(puck: Puck, tableWidth: real, tableHeight: real): (r: Puck)
    ensures r == puck.(x := r.x, y := r.y)
    ensures puck.radius <= tableWidth - puck.radius ==> puck.radius <= r.x <= tableWidth - puck.radius
    ensures puck.radius <= tableHeight - puck.radius ==> puck.radius <= r.y <= tableHeight - puck.radius
    ensures PuckInside(puck, tableWidth, tableHeight) ==> r == puck
  {
    puck.(x := Clamp(puck.x, puck.radius, tableWidth - puck.radius),
          y := Clamp(puck.y, puck.radius, tableHeight - puck.radius))
  }

  lemma ClampPuckIdempotent(puck: Puck, tableWidth: real, tableHeight: real)
    ensures var once := ClampPuckToBounds(puck, tableWidth, tableHeight);
      ClampPuckToBounds(once, tableWidth, tableHeight) == once
  {
    ClampIdempotent(puck.x, puck.radius, tableWidth - puck.radius);
    ClampIdempotent(puck.y, puck.radius, tableHeight - puck.radius);
  }

  /** Lowest y the paddle's centre may take: the human's court starts
      half a paddle below the centre line, the AI's at the top edge. */
  function CourtTop(tableHeight: real, halfHeight: real, isHuman: bool): real
  {
    if isHuman then tableHeight / 2.0 + halfHeight else halfHeight
  }

  function CourtBottom(tableHeight: real, halfHeight: real, isHuman: bool): real
  {
    if isHuman then tableHeight - halfHeight else tableHeight / 2.0 - halfHeight
  }

  predicate PaddleInCourt(paddle: Paddle, tableWidth: real, tableHeight: real, isHuman: bool)
  {
    paddle.width / 2.0 <= paddle.x <= tableWidth - paddle.width / 2.0 &&
    CourtTop(tableHeight, paddle.height / 2.0, isHuman) <= paddle.y <=
      CourtBottom(tableHeight, paddle.height / 2.0, isHuman)
  }

  function ClampPaddleToBounds(paddle: Paddle, tableWidth: real, tableHeight: real, isHuman: bool): (r: Paddle)
    ensures r == paddle.(x := r.x, y := r.y)
    ensures paddle.width / 2.0 <= tableWidth - paddle.width / 2.0 ==>
      paddle.width / 2.0 <= r.x <= tableWidth - paddle.width / 2.0
    ensures isHuman && tableHeight / 2.0 + paddle.height / 2.0 <= tableHeight - paddle.height / 2.0 ==>
      tableHeight / 2.0 + paddle.height / 2.0 <= r.y <= tableHeight - paddle.height / 2.0
    ensures !isHuman && paddle.height / 2.0 <= tableHeight / 2.0 - paddle.height / 2.0 ==>
      paddle.height / 2.0 <= r.y <= tableHeight / 2.0 - paddle.height / 2.0
  {
    var halfWidth := paddle.width / 2.0;
    var halfHeight := paddle.height / 2.0;
    var clampedX := Clamp(paddle.x, halfWidth, tableWidth - halfWidth);
    var clampedY := Clamp(paddle.y, CourtTop(tableHeight, halfHeight, isHuman),
                          CourtBottom(tableHeight, halfHeight, isHuman));
    paddle.(x := clampedX, y := clampedY)
  }

  lemma ClampPaddleIdempotent(paddle: Paddle, tableWidth: real, tableHeight: real, isHuman: bool)
    ensures var once := ClampPaddleToBounds(paddle, tableWidth, tableHeight, isHuman);
      ClampPaddleToBounds(once, tableWidth, tableHeight, isHuman) == once
  {
    var hw, hh := paddle.width / 2.0, paddle.height / 2.0;
    ClampIdempotent(paddle.x, hw, tableWidth - hw);
    ClampIdempotent(paddle.y, CourtTop(tableHeight, hh, isHuman), CourtBottom(tableHeight, hh, isHuman));
  }

  /** Where the court is non-empty, the clamp leaves a paddle alone exactly
      when it is already in its court. */
  lemma ClampPaddleFixesExactlyLegal(paddle: Paddle, tableWidth: real, tableHeight: real, isHuman: bool)
    requires paddle.width / 2.0 <= tableWidth - paddle.width / 2.0
    requires CourtTop(tableHeight, paddle.height / 2.0, isHuman) <= CourtBottom(tableHeight, paddle.height / 2.0, isHuman)
    ensures ClampPaddleToBounds(paddle, tableWidth, tableHeight, isHuman) == paddle <==>
      PaddleInCourt(paddle, tableWidth, tableHeight, isHuman)
  {
  }
}
