/**
 One concrete tick that ends in a goal: the ball leaves the center of the court, bounces off the upper wall and
 crosses the right goal line between the reset paddles. The tick is a long one, six seconds.
 */
module GoalShot {
  import opened Reals
  import opened FixedPoint
  import opened Vectors
  import opened Engine
  import opened Collision
  import opened BallLoop
  import opened Game
  import opened GameServer
  import opened GameClient
  import opened Match
  import opened Opening

  // ---------------------------------------------------------------- sweeps by their numbers

  /** The center, the leading edges and the way to go, as plain numbers. */
  ghost predicate Flies(ball: GameObj, deltaTime: int, pos: Vector, edge: Vector, travel: Vector) {
    && ball.pos == pos && travel.x != 0.0 && travel.y != 0.0
    && pos.x + Lead(ball.velocity.x, ball.size.x) == edge.x
    && pos.y + Lead(ball.velocity.y, ball.size.y) == edge.y
    && LinearMove(ball, deltaTime).pos.x - pos.x == travel.x
    && LinearMove(ball, deltaTime).pos.y - pos.y == travel.y
  }

  /** The distance to a plane is outside the way to go. */
  predicate OutOfReach(gap: real, travel: real) {
    if travel > 0.0 then gap <= 0.0 || gap > travel else gap >= 0.0 || gap < travel
  }

  lemma XOutOfReach(ball: GameObj, deltaTime: int, pos: Vector, edge: Vector, travel: Vector, x: int, prior: CollInfo)
    requires Flies(ball, deltaTime, pos, edge, travel) && OutOfReach(x as real - edge.x, travel.x)
    ensures !IsValidToi(XImpact(ball, x, deltaTime, prior).toi)
  {
    XMiss(ball, x, deltaTime, prior, x as real - edge.x, travel.x);
  }

  lemma YOutOfReach(ball: GameObj, deltaTime: int, pos: Vector, edge: Vector, travel: Vector, y: int, prior: CollInfo)
    requires Flies(ball, deltaTime, pos, edge, travel) && OutOfReach(y as real - edge.y, travel.y)
    ensures !IsValidToi(YImpact(ball, y, deltaTime, prior).toi)
  {
    YMiss(ball, y, deltaTime, prior, y as real - edge.y, travel.y);
  }

  /** Where the ball is after the fraction `q` of its way. */
  ghost predicate IsAfter(pos: Vector, travel: Vector, q: real, at: Vector) {
    at.x == pos.x + Times(q, travel.x) && at.y == pos.y + Times(q, travel.y)
  }

  lemma XReached(ball: GameObj, deltaTime: int, pos: Vector, edge: Vector, travel: Vector, x: int, prior: CollInfo,
                 q: real, at: Vector)
    requires Flies(ball, deltaTime, pos, edge, travel) && IsValidToi(q) && Times(q, travel.x) == x as real - edge.x
    requires IsAfter(pos, travel, q, at)
    ensures XImpact(ball, x, deltaTime, prior) == CollInfo(q, Vector(-Direction(ball.velocity.x) as real, 0.0), at)
  {
    QuotientIsUnique(q, x as real - edge.x, travel.x);
  }

  lemma YReached(ball: GameObj, deltaTime: int, pos: Vector, edge: Vector, travel: Vector, y: int, prior: CollInfo,
                 q: real, at: Vector)
    requires Flies(ball, deltaTime, pos, edge, travel) && IsValidToi(q) && Times(q, travel.y) == y as real - edge.y
    requires IsAfter(pos, travel, q, at)
    ensures YImpact(ball, y, deltaTime, prior) == CollInfo(q, Vector(0.0, -Direction(ball.velocity.y) as real), at)
  {
    QuotientIsUnique(q, y as real - edge.y, travel.y);
  }

  lemma PaddleIsMissed(ball: GameObj, paddle: GameObj, deltaTime: int)
    requires var c := XCandidate(ball, paddle, deltaTime);
             IsValidToi(c.toi) ==> SeparatedInY(GetBoundaries(ball.(pos := c.pos)), GetBoundaries(paddle))
    requires var c := YCandidate(ball, paddle, deltaTime);
             IsValidToi(c.toi) ==> SeparatedInX(GetBoundaries(ball.(pos := c.pos)), GetBoundaries(paddle))
    ensures !IsValidToi(PaddleImpact(ball, paddle, deltaTime, ZERO_COLL).toi)
  {
    SweepStartsAtRest(paddle, deltaTime);
  }

  /** A paddle of the court, at its reset height. */
  ghost predicate IsResetPaddle(paddle: GameObj, x: int) {
    paddle.pos == Vector(x as real, 160.0) && paddle.size == Vector(10.0, 50.0)
  }

  lemma ResetBounds(paddle: GameObj, x: int)
    requires IsResetPaddle(paddle, x)
    ensures GetBoundaries(paddle) == Bounds(185.0, 135.0, (x - 5) as real, (x + 5) as real)
    ensures var b := GetBoundaries(paddle);
            Trunc(b.left) == x - 5 && Trunc(b.right) == x + 5 && Trunc(b.up) == 185 && Trunc(b.down) == 135
  {
    TruncOfInt(x - 5);
    TruncOfInt(x + 5);
  }

  lemma FirstOnly(a: CollInfo, b: CollInfo, prior: CollInfo)
    requires IsValidToi(a.toi) && (IsValidToi(b.toi) ==> a.toi <= b.toi)
    ensures First2(a, b, prior) == a
  {
  }

  // ---------------------------------------------------------------- the shot

  ghost predicate IsShot(a: Arena, ball: GameObj) {
    && a.wall == Wall(320, 0, 0, 480) && a.deltaTime == 6000
    && IsResetPaddle(a.paddle1, 475) && IsResetPaddle(a.paddle2, 5)
    && ball.pos == Vector(240.0, 160.0) && ball.velocity == Vector(0.04, 0.03) && ball.size == Vector(10.0, 10.0)
  }

  lemma UpFlight(a: Arena, ball: GameObj)
    requires IsShot(a, ball)
    ensures Flies(ball, a.deltaTime, Vector(240.0, 160.0), Vector(245.0, 165.0), Vector(240.0, 180.0))
  {
    assert Times(ball.velocity.x, a.deltaTime as real) == 240.0;
    assert Times(ball.velocity.y, a.deltaTime as real) == 180.0;
  }

  lemma UpXOut(a: Arena, ball: GameObj, x: int, prior: CollInfo)
    requires IsShot(a, ball) && !(245 < x <= 485)
    ensures !IsValidToi(XImpact(ball, x, a.deltaTime, prior).toi)
  {
    UpFlight(a, ball);
    XOutOfReach(ball, a.deltaTime, Vector(240.0, 160.0), Vector(245.0, 165.0), Vector(240.0, 180.0), x, prior);
  }

  lemma UpYOut(a: Arena, ball: GameObj, y: int, prior: CollInfo)
    requires IsShot(a, ball) && !(165 < y <= 345)
    ensures !IsValidToi(YImpact(ball, y, a.deltaTime, prior).toi)
  {
    UpFlight(a, ball);
    YOutOfReach(ball, a.deltaTime, Vector(240.0, 160.0), Vector(245.0, 165.0), Vector(240.0, 180.0), y, prior);
  }

  lemma UpX(a: Arena, ball: GameObj, x: int, prior: CollInfo, q: real, at: Vector)
    requires IsShot(a, ball) && IsValidToi(q) && q * 240.0 == (x - 245) as real
    requires at == Vector(240.0 + q * 240.0, 160.0 + q * 180.0)
    ensures XImpact(ball, x, a.deltaTime, prior).toi == q && XImpact(ball, x, a.deltaTime, prior).pos == at
  {
    UpFlight(a, ball);
    assert Times(q, 240.0) == q * 240.0 && Times(q, 180.0) == q * 180.0;
    XReached(ball, a.deltaTime, Vector(240.0, 160.0), Vector(245.0, 165.0), Vector(240.0, 180.0), x, prior, q, at);
  }

  lemma UpY(a: Arena, ball: GameObj, y: int, prior: CollInfo, q: real, at: Vector)
    requires IsShot(a, ball) && IsValidToi(q) && q * 180.0 == (y - 165) as real
    requires at == Vector(240.0 + q * 240.0, 160.0 + q * 180.0)
    ensures YImpact(ball, y, a.deltaTime, prior) == CollInfo(q, Vector(0.0, -1.0), at)
  {
    UpFlight(a, ball);
    assert Times(q, 240.0) == q * 240.0 && Times(q, 180.0) == q * 180.0;
    YReached(ball, a.deltaTime, Vector(240.0, 160.0), Vector(245.0, 165.0), Vector(240.0, 180.0), y, prior, q, at);
  }

  /** Going up the ball meets the paddles' planes beside the paddles. */
  lemma UpMissesPaddles(a: Arena, ball: GameObj)
    requires IsShot(a, ball)
    ensures !IsValidToi(PaddleImpact(ball, a.paddle1, a.deltaTime, ZERO_COLL).toi)
    ensures !IsValidToi(PaddleImpact(ball, a.paddle2, a.deltaTime, ZERO_COLL).toi)
  {
    UpMissesRight(a, ball);
    UpMissesLeft(a, ball);
  }

  lemma UpYCandidate(a: Arena, ball: GameObj, paddle: GameObj, x: int)
    requires IsShot(a, ball) && IsResetPaddle(paddle, x)
    ensures YCandidate(ball, paddle, a.deltaTime).pos == Vector(240.0 + 80.0 / 3.0, 180.0)
  {
    ResetBounds(paddle, x);
    UpY(a, ball, 185, ZERO_COLL, 1.0 / 9.0, Vector(240.0 + 80.0 / 3.0, 180.0));
    UpYOut(a, ball, 135, ZERO_COLL);
  }

  lemma UpMissesRight(a: Arena, ball: GameObj)
    requires IsShot(a, ball)
    ensures !IsValidToi(PaddleImpact(ball, a.paddle1, a.deltaTime, ZERO_COLL).toi)
  {
    ResetBounds(a.paddle1, 475);
    UpX(a, ball, 470, ZERO_COLL, 15.0 / 16.0, Vector(465.0, 328.75));
    UpX(a, ball, 480, ZERO_COLL, 47.0 / 48.0, Vector(475.0, 336.25));
    FirstOnly(XImpact(ball, 470, a.deltaTime, ZERO_COLL), XImpact(ball, 480, a.deltaTime, ZERO_COLL), ZERO_COLL);
    UpYCandidate(a, ball, a.paddle1, 475);
    PaddleIsMissed(ball, a.paddle1, a.deltaTime);
  }

  lemma UpMissesLeft(a: Arena, ball: GameObj)
    requires IsShot(a, ball)
    ensures !IsValidToi(PaddleImpact(ball, a.paddle2, a.deltaTime, ZERO_COLL).toi)
  {
    ResetBounds(a.paddle2, 5);
    UpXOut(a, ball, 0, ZERO_COLL);
    UpXOut(a, ball, 10, ZERO_COLL);
    UpYCandidate(a, ball, a.paddle2, 5);
    PaddleIsMissed(ball, a.paddle2, a.deltaTime);
  }

  /** The upper wall comes first, at 31/36 of the sweep. */
  lemma UpSelected(a: Arena, ball: GameObj)
    requires IsShot(a, ball)
    ensures Selected(a, Launch(ball, 0.05)) == CollInfo(31.0 / 36.0, Vector(0.0, -1.0), Vector(1340.0 / 3.0, 315.0))
    ensures GoalHit(a, Launch(ball, 0.05)).toi == 47.0 / 48.0
  {
    TruncOfInt(a.deltaTime);
    UpMissesPaddles(a, ball);
    UpY(a, ball, 320, ZERO_COLL, 31.0 / 36.0, Vector(1340.0 / 3.0, 315.0));
    UpYOut(a, ball, 0, ZERO_COLL);
    FirstOnly(YImpact(ball, 320, a.deltaTime, ZERO_COLL), YImpact(ball, 0, a.deltaTime, ZERO_COLL), ZERO_COLL);
    UpXOut(a, ball, 0, ZERO_COLL);
    UpX(a, ball, 480, XImpact(ball, 0, a.deltaTime, ZERO_COLL), 47.0 / 48.0, Vector(475.0, 336.25));
  }

  /** The ball after the bounce. */
  ghost predicate IsRebound(ball: GameObj) {
    ball.pos == Vector(1340.0 / 3.0, 315.0) && ball.velocity == Vector(0.048, -0.036) && ball.size == Vector(10.0, 10.0)
  }

  lemma ShotSpeed(ball: GameObj)
    requires ball.velocity == Vector(0.04, 0.03)
    ensures IsSpeed(ball.velocity, 0.05)
  {
    assert Square(0.04) == 0.0016 && Square(0.03) == 0.0009 && Square(0.05) == 0.0025;
  }

  lemma ReboundSpeed(ball: GameObj)
    requires IsRebound(ball)
    ensures IsSpeed(ball.velocity, 0.06)
  {
    assert Square(0.048) == 0.002304 && Square(-0.036) == 0.001296 && Square(0.06) == 0.0036;
  }

  lemma UpBounces(a: Arena, ball: GameObj) returns (s': Flying)
    requires IsShot(a, ball)
    ensures Continues(a, Launch(ball, 0.05), s')
    ensures IsRebound(s'.ball) && s'.hyp == 0.06 && s'.passed == 31.0 / 36.0
  {
    ShotSpeed(ball);
    UpSelected(a, ball);
    s' := BounceContinues(a, Launch(ball, 0.05));
    assert 0.04 / 0.05 == 0.8 && -0.03 / 0.05 == -0.6;
  }

  // ---------------------------------------------------------------- after the bounce

  /** Sweeps of the rebound: of the whole tick, or of what remains of it. */
  lemma DownFlight(ball: GameObj, deltaTime: int)
    requires IsRebound(ball) && (deltaTime == 6000 || deltaTime == 5999)
    ensures Flies(ball, deltaTime, Vector(1340.0 / 3.0, 315.0), Vector(1355.0 / 3.0, 310.0),
                  Vector(0.048 * deltaTime as real, -0.036 * deltaTime as real))
  {
    assert Times(ball.velocity.x, deltaTime as real) == 0.048 * deltaTime as real;
    assert Times(ball.velocity.y, deltaTime as real) == -0.036 * deltaTime as real;
  }

  lemma DownXOut(ball: GameObj, deltaTime: int, x: int, prior: CollInfo)
    requires IsRebound(ball) && (deltaTime == 6000 || deltaTime == 5999) && x <= 451
    ensures !IsValidToi(XImpact(ball, x, deltaTime, prior).toi)
  {
    DownFlight(ball, deltaTime);
    XOutOfReach(ball, deltaTime, Vector(1340.0 / 3.0, 315.0), Vector(1355.0 / 3.0, 310.0),
                Vector(0.048 * deltaTime as real, -0.036 * deltaTime as real), x, prior);
  }

  lemma DownYOut(ball: GameObj, y: int, prior: CollInfo)
    requires IsRebound(ball) && !(94 <= y < 310)
    ensures !IsValidToi(YImpact(ball, y, 6000, prior).toi)
  {
    DownFlight(ball, 6000);
    YOutOfReach(ball, 6000, Vector(1340.0 / 3.0, 315.0), Vector(1355.0 / 3.0, 310.0), Vector(288.0, -216.0), y, prior);
  }

  lemma DownX(ball: GameObj, deltaTime: int, x: int, prior: CollInfo, q: real)
    requires IsRebound(ball) && (deltaTime == 6000 || deltaTime == 5999)
    requires IsValidToi(q) && q * (0.048 * deltaTime as real) == x as real - 1355.0 / 3.0
    ensures XImpact(ball, x, deltaTime, prior).toi == q
    ensures XImpact(ball, x, deltaTime, prior).pos
            == Vector(1340.0 / 3.0 + q * (0.048 * deltaTime as real), 315.0 + q * (-0.036 * deltaTime as real))
  {
    DownFlight(ball, deltaTime);
    var travel := Vector(0.048 * deltaTime as real, -0.036 * deltaTime as real);
    var at := Vector(1340.0 / 3.0 + q * travel.x, 315.0 + q * travel.y);
    assert Times(q, travel.x) == q * travel.x && Times(q, travel.y) == q * travel.y;
    XReached(ball, deltaTime, Vector(1340.0 / 3.0, 315.0), Vector(1355.0 / 3.0, 310.0), travel, x, prior, q, at);
  }

  lemma DownY(ball: GameObj, y: int, prior: CollInfo, q: real)
    requires IsRebound(ball) && IsValidToi(q) && q * -216.0 == y as real - 310.0
    ensures YImpact(ball, y, 6000, prior).toi == q
    ensures YImpact(ball, y, 6000, prior).pos == Vector(1340.0 / 3.0 + q * 288.0, 315.0 + q * -216.0)
  {
    DownFlight(ball, 6000);
    var at := Vector(1340.0 / 3.0 + q * 288.0, 315.0 + q * -216.0);
    assert Times(q, 288.0) == q * 288.0 && Times(q, -216.0) == q * -216.0;
    YReached(ball, 6000, Vector(1340.0 / 3.0, 315.0), Vector(1355.0 / 3.0, 310.0), Vector(288.0, -216.0), y, prior, q,
             at);
  }

  lemma DownYCandidate(ball: GameObj, paddle: GameObj, x: int)
    requires IsRebound(ball) && IsResetPaddle(paddle, x)
    ensures YCandidate(ball, paddle, 6000).pos == Vector(1840.0 / 3.0, 190.0)
  {
    ResetBounds(paddle, x);
    DownY(ball, 185, ZERO_COLL, 125.0 / 216.0);
    DownY(ball, 135, ZERO_COLL, 175.0 / 216.0);
    FirstOnly(YImpact(ball, 185, 6000, ZERO_COLL), YImpact(ball, 135, 6000, ZERO_COLL), ZERO_COLL);
  }

  lemma DownMissesRight(ball: GameObj, paddle: GameObj)
    requires IsRebound(ball) && IsResetPaddle(paddle, 475)
    ensures !IsValidToi(PaddleImpact(ball, paddle, 6000, ZERO_COLL).toi)
  {
    ResetBounds(paddle, 475);
    DownX(ball, 6000, 470, ZERO_COLL, 55.0 / 864.0);
    DownX(ball, 6000, 480, ZERO_COLL, 85.0 / 864.0);
    FirstOnly(XImpact(ball, 470, 6000, ZERO_COLL), XImpact(ball, 480, 6000, ZERO_COLL), ZERO_COLL);
    DownYCandidate(ball, paddle, 475);
    PaddleIsMissed(ball, paddle, 6000);
  }

  lemma DownMissesLeft(ball: GameObj, paddle: GameObj)
    requires IsRebound(ball) && IsResetPaddle(paddle, 5)
    ensures !IsValidToi(PaddleImpact(ball, paddle, 6000, ZERO_COLL).toi)
  {
    ResetBounds(paddle, 5);
    DownXOut(ball, 6000, 0, ZERO_COLL);
    DownXOut(ball, 6000, 10, ZERO_COLL);
    DownYCandidate(ball, paddle, 5);
    PaddleIsMissed(ball, paddle, 6000);
  }

  lemma DownMissesWalls(ball: GameObj)
    requires IsRebound(ball)
    ensures !IsValidToi(WallImpact(Wall(320, 0, 0, 480), ball, 6000, ZERO_COLL).toi)
  {
    DownYOut(ball, 320, ZERO_COLL);
    DownYOut(ball, 0, ZERO_COLL);
  }

  lemma DownReachesGoal(ball: GameObj)
    requires IsRebound(ball)
    ensures IsValidToi(GoalImpact(Wall(320, 0, 0, 480), ball, 5999, ZERO_COLL).toi)
    ensures GoalIndex(Wall(320, 0, 0, 480), ball, 5999, ZERO_COLL) == 1
  {
    DownXOut(ball, 5999, 0, ZERO_COLL);
    var q := (85.0 / 3.0) / (0.048 * 5999.0);
    DownX(ball, 5999, 480, XImpact(ball, 0, 5999, ZERO_COLL), q);
  }

  /** The goal line is the only plane the rebound meets. */
  lemma ReboundScores(a: Arena, s: Flying)
    requires a.wall == Wall(320, 0, 0, 480) && a.deltaTime == 6000
    requires IsResetPaddle(a.paddle1, 475) && IsResetPaddle(a.paddle2, 5)
    requires IsRebound(s.ball) && s.hyp == 0.06 && s.passed == 31.0 / 36.0
    ensures EndsAs(a, s, Scored(1))
  {
    assert Remaining(a, s) == 5999;
    ReboundSpeed(s.ball);
    DownMissesRight(s.ball, a.paddle1);
    DownMissesLeft(s.ball, a.paddle2);
    DownMissesWalls(s.ball);
    DownReachesGoal(s.ball);
    OnlyFourth(PaddleImpact(s.ball, a.paddle1, 6000, ZERO_COLL), PaddleImpact(s.ball, a.paddle2, 6000, ZERO_COLL),
               WallHit(a, s), GoalHit(a, s));
  }

  lemma OnlyFourth(a: CollInfo, b: CollInfo, c: CollInfo, d: CollInfo)
    requires !IsValidToi(a.toi) && !IsValidToi(b.toi) && !IsValidToi(c.toi) && IsValidToi(d.toi)
    ensures First4(a, b, c, d, ZERO_COLL) == d
  {
  }

  /** The whole tick. */
  lemma ShotScores(a: Arena, ball: GameObj) returns (flight: seq<Flying>)
    requires IsShot(a, ball)
    ensures IsTickFlight(a, ball, 0.05, flight, Scored(1))
  {
    var s' := UpBounces(a, ball);
    ReboundScores(a, s');
    flight := [Launch(ball, 0.05), s'];
  }

  lemma ShotIsFate(a: Arena, ball: GameObj)
    requires IsShot(a, ball)
    ensures BallFate(a, ball, Scored(1))
  {
    var flight := ShotScores(a, ball);
  }

  // ---------------------------------------------------------------- in a match

  lemma FreshFrameIsShot(local: PongState)
    requires SeesFreshGame(local, SERVE)
    ensures IsShot(FrameArena(local, 6000), local.ball)
  {
    CourtOfGame(local.boxSize);
  }

  /** The first client joins and holds a key down for six seconds; its ball reaches the goal. */
  lemma TypeSixSeconds(id1: int, id2: int) returns (s: State)
    requires id1 != id2
    ensures Reachable(s) && ServerAtStart(s, SERVE) && HasTyped(s, 6000, [Contribution(0, 6000)])
    ensures s.peers.first.client.local.ball == ZERO_OBJ
  {
    ServeIsServe();
    ServeTravels();
    s := JoinFirst(id1, id2, SERVE);
    var local := s.peers.first.client.local;
    FreshFrameIsShot(local);
    ShotIsFate(FrameArena(local, 6000), local.ball);
    s := TypeFirst(s, SERVE, 6000, Scored(1));
  }
}
