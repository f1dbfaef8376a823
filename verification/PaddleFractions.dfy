/**
 When is `AABB_collide` exact for the game's balls? Exactly for paddles whose edges are whole numbers. An edge with a
 fraction is compared as a truncated plane, and then some ball of the game is missed, or hit before it gets there. The
 paddles move in half pixels and are not clamped, so edges may have fractions, and may be negative.
 */
module PaddleFractions {
  import opened Reals
  import opened FixedPoint
  import opened Vectors
  import opened Engine
  import opened Collision
  import opened BallLoop
  import opened BallInPlay
  import opened Game
  import opened GameServer
  import opened PaddleContact

  lemma TruncIsMonotone(lo: real, hi: real)
    requires lo <= hi
    ensures Trunc(lo) <= Trunc(hi)
  {
    TruncBounds(lo);
    TruncBounds(hi);
  }

  // ---------------------------------------------------------------- balls of the game, aimed at an edge

  /** Fresh balls of the game: 0.64 pixels on one axis and 0.48 on the other in a tick of the server's shortest
      length. */
  const FAR := 0.64
  const ASIDE := 0.48

  lemma StepHasSpeed(v: Vector)
    requires || ((v.x == 0.04 || v.x == -0.04) && v.y == 0.03)
             || (v.x == 0.03 && (v.y == 0.04 || v.y == -0.04))
    ensures IsSpeed(v, 0.05)
  {
    assert Square(0.03) == 0.0009 && Square(0.04) == 0.0016 && Square(-0.04) == 0.0016 && Square(0.05) == 0.0025;
  }

  /** A ball whose leading vertical edge is at `lead`, and whose upper edge is on the whole number `m`, rising. */
  function XShot(right: bool, lead: real, m: int): GameObj {
    GameObj(0.05, Vector(if right then lead - 5.0 else lead + 5.0, m as real - 5.0),
            Vector(if right then 0.04 else -0.04, 0.03), BALL_SIZE)
  }

  /** A ball whose leading horizontal edge is at `lead`, and whose right edge is on the whole number `m`, going
      right. */
  function YShot(up: bool, lead: real, m: int): GameObj {
    GameObj(0.05, Vector(m as real - 5.0, if up then lead - 5.0 else lead + 5.0),
            Vector(0.03, if up then 0.04 else -0.04), BALL_SIZE)
  }

  lemma XShotTravels(right: bool, lead: real, m: int)
    ensures var ball := XShot(right, lead, m);
            && Lively(ball, 0.05)
            && TravelX(ball, MIN_TICK) == (if right then FAR else -FAR) && TravelY(ball, MIN_TICK) == ASIDE
            && ball.pos.x + Lead(ball.velocity.x, ball.size.x) == lead
            && ball.pos.y + Lead(ball.velocity.y, ball.size.y) == m as real
  {
    var ball := XShot(right, lead, m);
    StepHasSpeed(ball.velocity);
    assert Times(0.04, 16.0) == 0.64 && Times(-0.04, 16.0) == -0.64 && Times(0.03, 16.0) == 0.48;
  }

  lemma YShotTravels(up: bool, lead: real, m: int)
    ensures var ball := YShot(up, lead, m);
            && Lively(ball, 0.05)
            && TravelY(ball, MIN_TICK) == (if up then FAR else -FAR) && TravelX(ball, MIN_TICK) == ASIDE
            && ball.pos.y + Lead(ball.velocity.y, ball.size.y) == lead
            && ball.pos.x + Lead(ball.velocity.x, ball.size.x) == m as real
  {
    var ball := YShot(up, lead, m);
    StepHasSpeed(ball.velocity);
    assert Times(0.04, 16.0) == 0.64 && Times(-0.04, 16.0) == -0.64 && Times(0.03, 16.0) == 0.48;
  }

  /** From one whole number to less than the next no plane is hit. */
  lemma XShotYMisses(right: bool, lead: real, m: int, y: int)
    ensures !IsValidToi(YImpact(XShot(right, lead, m), y, MIN_TICK, ZERO_COLL).toi)
  {
    XShotTravels(right, lead, m);
    assert y <= m || y >= m + 1;
    YMiss(XShot(right, lead, m), y, MIN_TICK, ZERO_COLL, y as real - m as real, ASIDE);
  }

  lemma YShotXMisses(up: bool, lead: real, m: int, x: int)
    ensures !IsValidToi(XImpact(YShot(up, lead, m), x, MIN_TICK, ZERO_COLL).toi)
  {
    YShotTravels(up, lead, m);
    assert x <= m || x >= m + 1;
    XMiss(YShot(up, lead, m), x, MIN_TICK, ZERO_COLL, x as real - m as real, ASIDE);
  }

  /** A plane further away than the ball gets. */
  predicate IsAhead(forward: bool, lead: real, plane: int) {
    if forward then plane as real - lead > FAR else lead - plane as real > FAR
  }

  lemma XShotMisses(right: bool, lead: real, m: int, x: int)
    requires IsAhead(right, lead, x)
    ensures !IsValidToi(XImpact(XShot(right, lead, m), x, MIN_TICK, ZERO_COLL).toi)
  {
    XShotTravels(right, lead, m);
    XMiss(XShot(right, lead, m), x, MIN_TICK, ZERO_COLL, x as real - lead, if right then FAR else -FAR);
  }

  lemma YShotMisses(up: bool, lead: real, m: int, y: int)
    requires IsAhead(up, lead, y)
    ensures !IsValidToi(YImpact(YShot(up, lead, m), y, MIN_TICK, ZERO_COLL).toi)
  {
    YShotTravels(up, lead, m);
    YMiss(YShot(up, lead, m), y, MIN_TICK, ZERO_COLL, y as real - lead, if up then FAR else -FAR);
  }

  /** A plane exactly as far away as the ball gets. */
  predicate IsReached(forward: bool, lead: real, plane: int) {
    if forward then plane as real - lead == FAR else lead - plane as real == FAR
  }

  lemma XShotHits(right: bool, lead: real, m: int, x: int)
    requires IsReached(right, lead, x)
    ensures XImpact(XShot(right, lead, m), x, MIN_TICK, ZERO_COLL).toi == 1.0
  {
    XShotTravels(right, lead, m);
    var d := if right then FAR else -FAR;
    TimesOne(d);
    QuotientIsUnique(1.0, x as real - lead, d);
  }

  lemma YShotHits(up: bool, lead: real, m: int, y: int)
    requires IsReached(up, lead, y)
    ensures YImpact(YShot(up, lead, m), y, MIN_TICK, ZERO_COLL).toi == 1.0
  {
    YShotTravels(up, lead, m);
    var d := if up then FAR else -FAR;
    TimesOne(d);
    QuotientIsUnique(1.0, y as real - lead, d);
  }

  lemma OnlyXHit(ball: GameObj, paddle: GameObj, deltaTime: int, q: real)
    requires XHit(ball, paddle, deltaTime, ZERO_COLL) && XCandidate(ball, paddle, deltaTime).toi == q
    requires !IsValidToi(YCandidate(ball, paddle, deltaTime).toi)
    ensures PaddleImpact(ball, paddle, deltaTime, ZERO_COLL).toi == q && IsValidToi(q)
  {
  }

  lemma OnlyYHit(ball: GameObj, paddle: GameObj, deltaTime: int, q: real)
    requires YHit(ball, paddle, deltaTime, ZERO_COLL) && YCandidate(ball, paddle, deltaTime).toi == q
    requires !IsValidToi(XCandidate(ball, paddle, deltaTime).toi)
    ensures PaddleImpact(ball, paddle, deltaTime, ZERO_COLL).toi == q && IsValidToi(q)
  {
  }

  // ---------------------------------------------------------------- wrong answers

  ghost predicate HasArea(paddle: GameObj) {
    paddle.size.x >= 0.0 && paddle.size.y >= 0.0
  }

  /** A ball of the game that starts apart from the paddle and gets a wrong answer in the server's shortest tick. */
  ghost predicate IsWronged(ball: GameObj, hyp: real, paddle: GameObj) {
    Lively(ball, hyp) && !Meet(ball, MIN_TICK, 0.0, paddle) && !IsFirstMeeting(ball, paddle, MIN_TICK)
  }

  /** Where the ball is, and that it is level with the paddle at `f`. */
  lemma XShotIsLevel(right: bool, lead: real, paddle: GameObj, f: real) returns (m: int)
    requires HasArea(paddle) && 0.0 <= f <= 1.0
    ensures m == GetBoundaries(paddle).down.Floor + 1
    ensures var ball := XShot(right, lead, m);
            && !SeparatedInY(BallAt(ball, MIN_TICK, f), GetBoundaries(paddle))
            && BallAt(ball, MIN_TICK, 0.0).left == (if right then lead - 10.0 else lead)
            && BallAt(ball, MIN_TICK, 0.0).right == (if right then lead else lead + 10.0)
            && BallAt(ball, MIN_TICK, 1.0).left == (if right then lead + FAR - 10.0 else lead - FAR)
            && BallAt(ball, MIN_TICK, 1.0).right == (if right then lead + FAR else lead - FAR + 10.0)
  {
    m := GetBoundaries(paddle).down.Floor + 1;
    XShotTravels(right, lead, m);
    TimesOne(TravelX(XShot(right, lead, m), MIN_TICK));
    TimesMonotone(0.0, f, ASIDE);
    TimesMonotone(f, 1.0, ASIDE);
    TimesOne(ASIDE);
  }

  lemma YShotIsLevel(up: bool, lead: real, paddle: GameObj, f: real) returns (m: int)
    requires HasArea(paddle) && 0.0 <= f <= 1.0
    ensures m == GetBoundaries(paddle).left.Floor + 1
    ensures var ball := YShot(up, lead, m);
            && !SeparatedInX(BallAt(ball, MIN_TICK, f), GetBoundaries(paddle))
            && BallAt(ball, MIN_TICK, 0.0).down == (if up then lead - 10.0 else lead)
            && BallAt(ball, MIN_TICK, 0.0).up == (if up then lead else lead + 10.0)
            && BallAt(ball, MIN_TICK, 1.0).down == (if up then lead + FAR - 10.0 else lead - FAR)
            && BallAt(ball, MIN_TICK, 1.0).up == (if up then lead + FAR else lead - FAR + 10.0)
  {
    m := GetBoundaries(paddle).left.Floor + 1;
    YShotTravels(up, lead, m);
    TimesOne(TravelY(YShot(up, lead, m), MIN_TICK));
    TimesMonotone(0.0, f, ASIDE);
    TimesMonotone(f, 1.0, ASIDE);
    TimesOne(ASIDE);
  }

  /** Half way from a face to its plane beyond it. */
  lemma HalfTheFraction(near: real) returns (half: real)
    requires near != Trunc(near) as real
    ensures 0.0 < half < 0.5 && 2.0 * half == Abs(Trunc(near) as real - near)
  {
    TruncBounds(near);
    half := Abs(Trunc(near) as real - near) / 2.0;
  }

  /** The plane is beyond the face: the ball comes to rest inside the paddle, unnoticed. */
  lemma MissedInX(paddle: GameObj, right: bool) returns (ball: GameObj)
    requires HasArea(paddle)
    requires var b := GetBoundaries(paddle);
             if right then Trunc(b.left) as real > b.left else (Trunc(b.right) as real) < b.right
    ensures IsWronged(ball, 0.05, paddle)
  {
    var b := GetBoundaries(paddle);
    var near := if right then b.left else b.right;
    var half := HalfTheFraction(near);
    var lead := if right then near + half - FAR else near - half + FAR;
    var m := XShotIsLevel(right, lead, paddle, 1.0);
    ball := XShot(right, lead, m);
    XShotTravels(right, lead, m);
    TruncIsMonotone(b.left, b.right);
    XShotMisses(right, lead, m, Trunc(b.left));
    XShotMisses(right, lead, m, Trunc(b.right));
    XShotYMisses(right, lead, m, Trunc(b.up));
    XShotYMisses(right, lead, m, Trunc(b.down));
    NoCandidateNoHit(ball, paddle, MIN_TICK);
    assert IsValidToi(1.0) && Meet(ball, MIN_TICK, 1.0, paddle);
  }

  lemma MissedInY(paddle: GameObj, up: bool) returns (ball: GameObj)
    requires HasArea(paddle)
    requires var b := GetBoundaries(paddle);
             if up then Trunc(b.down) as real > b.down else (Trunc(b.up) as real) < b.up
    ensures IsWronged(ball, 0.05, paddle)
  {
    var b := GetBoundaries(paddle);
    var near := if up then b.down else b.up;
    var half := HalfTheFraction(near);
    var lead := if up then near + half - FAR else near - half + FAR;
    var m := YShotIsLevel(up, lead, paddle, 1.0);
    ball := YShot(up, lead, m);
    YShotTravels(up, lead, m);
    TruncIsMonotone(b.down, b.up);
    YShotMisses(up, lead, m, Trunc(b.down));
    YShotMisses(up, lead, m, Trunc(b.up));
    YShotXMisses(up, lead, m, Trunc(b.left));
    YShotXMisses(up, lead, m, Trunc(b.right));
    NoCandidateNoHit(ball, paddle, MIN_TICK);
    assert IsValidToi(1.0) && Meet(ball, MIN_TICK, 1.0, paddle);
  }

  /** The plane is before the face: the ball is hit without having arrived. */
  lemma HitTooEarlyInX(paddle: GameObj, right: bool) returns (ball: GameObj)
    requires HasArea(paddle)
    requires var b := GetBoundaries(paddle);
             if right then (Trunc(b.left) as real) < b.left else Trunc(b.right) as real > b.right
    ensures IsWronged(ball, 0.05, paddle)
  {
    var b := GetBoundaries(paddle);
    var near, far := Trunc(if right then b.left else b.right), Trunc(if right then b.right else b.left);
    var lead := if right then near as real - FAR else near as real + FAR;
    var m := XShotIsLevel(right, lead, paddle, 1.0);
    ball := XShot(right, lead, m);
    XShotTravels(right, lead, m);
    TruncIsMonotone(b.left, b.right);
    XShotHits(right, lead, m, near);
    if far != near {
      XShotMisses(right, lead, m, far);
    }
    XShotYMisses(right, lead, m, Trunc(b.up));
    XShotYMisses(right, lead, m, Trunc(b.down));
    XHitAt(ball, paddle, MIN_TICK, 1.0);
    OnlyXHit(ball, paddle, MIN_TICK, 1.0);
    assert !Meet(ball, MIN_TICK, 1.0, paddle);
  }

  lemma HitTooEarlyInY(paddle: GameObj, up: bool) returns (ball: GameObj)
    requires HasArea(paddle)
    requires var b := GetBoundaries(paddle);
             if up then (Trunc(b.down) as real) < b.down else Trunc(b.up) as real > b.up
    ensures IsWronged(ball, 0.05, paddle)
  {
    var b := GetBoundaries(paddle);
    var near, far := Trunc(if up then b.down else b.up), Trunc(if up then b.up else b.down);
    var lead := if up then near as real - FAR else near as real + FAR;
    var m := YShotIsLevel(up, lead, paddle, 1.0);
    ball := YShot(up, lead, m);
    YShotTravels(up, lead, m);
    TruncIsMonotone(b.down, b.up);
    YShotHits(up, lead, m, near);
    if far != near {
      YShotMisses(up, lead, m, far);
    }
    YShotXMisses(up, lead, m, Trunc(b.left));
    YShotXMisses(up, lead, m, Trunc(b.right));
    YHitAt(ball, paddle, MIN_TICK, 1.0);
    OnlyYHit(ball, paddle, MIN_TICK, 1.0);
    assert !Meet(ball, MIN_TICK, 1.0, paddle);
  }

  /** Whichever edge has a fraction: from its side some ball of the game is missed, or hit too early. */
  lemma WrongedBall(paddle: GameObj) returns (ball: GameObj)
    requires HasArea(paddle) && !HasWholeEdges(paddle)
    ensures IsWronged(ball, 0.05, paddle)
  {
    var b := GetBoundaries(paddle);
    if Trunc(b.left) as real > b.left {
      ball := MissedInX(paddle, true);
    } else if (Trunc(b.left) as real) < b.left {
      ball := HitTooEarlyInX(paddle, true);
    } else if (Trunc(b.right) as real) < b.right {
      ball := MissedInX(paddle, false);
    } else if Trunc(b.right) as real > b.right {
      ball := HitTooEarlyInX(paddle, false);
    } else if Trunc(b.down) as real > b.down {
      ball := MissedInY(paddle, true);
    } else if (Trunc(b.down) as real) < b.down {
      ball := HitTooEarlyInY(paddle, true);
    } else if (Trunc(b.up) as real) < b.up {
      ball := MissedInY(paddle, false);
    } else {
      ball := HitTooEarlyInY(paddle, false);
    }
  }

  /** Right for every ball of the game's size and speeds, in every tick the server can make, that starts apart from the
      paddle. */
  ghost predicate RightForTheGame(paddle: GameObj) {
    forall ball: GameObj, hyp: real, deltaTime: int ::
      deltaTime >= MIN_TICK && Lively(ball, hyp) && !Meet(ball, deltaTime, 0.0, paddle) ==>
        IsFirstMeeting(ball, paddle, deltaTime)
  }

  /** `AABB_collide` is right for every ball and tick of the game if and only if the paddle's edges are whole
      numbers. */
  lemma RightIffWholeEdges(paddle: GameObj)
    requires HasArea(paddle)
    ensures RightForTheGame(paddle) <==> HasWholeEdges(paddle)
  {
    if HasWholeEdges(paddle) {
      forall ball: GameObj, hyp: real, deltaTime: int |
        deltaTime >= MIN_TICK && Lively(ball, hyp) && !Meet(ball, deltaTime, 0.0, paddle)
        ensures IsFirstMeeting(ball, paddle, deltaTime)
      {
        PaddleImpactIsFirstMeeting(ball, paddle, deltaTime);
      }
    } else {
      var ball := WrongedBall(paddle);
    }
  }
}
