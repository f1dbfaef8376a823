/**
 One tick of a match in which the ball flies longer than the tick lasts: the serve has flown for 322 ticks of 16
 milliseconds, and in the next it bounces off the upper wall. It flies for 29 and two thirds.
 */
module LateTick {
  import opened Reals
  import opened FixedPoint
  import opened Vectors
  import opened Engine
  import opened Collision
  import opened BallLoop
  import opened Game
  import opened GameServer
  import opened Match
  import opened Opening
  import opened GoalShot
  import opened FreeFlight
  import opened FlightTime

  ghost predicate IsLateBall(ball: GameObj) {
    ball.pos == Vector(446.08, 314.56) && ball.velocity == SERVE && ball.size == BALL_SIZE
  }

  /** Both paddles at their reset height. */
  ghost predicate IsResetArena(a: Arena) {
    && a.wall == COURT && a.deltaTime == MIN_TICK
    && IsResetPaddle(a.paddle1, 475) && IsResetPaddle(a.paddle2, 5)
  }

  lemma LateFlies(ball: GameObj)
    requires IsLateBall(ball)
    ensures Flies(ball, MIN_TICK, Vector(446.08, 314.56), Vector(451.08, 319.56), Vector(0.64, 0.48))
  {
    assert Times(0.04, 16.0) == 0.64 && Times(0.03, 16.0) == 0.48;
  }

  lemma LateXOut(ball: GameObj, x: int, prior: CollInfo)
    requires IsLateBall(ball) && (x <= 451 || x >= 452)
    ensures !IsValidToi(XImpact(ball, x, MIN_TICK, prior).toi)
  {
    LateFlies(ball);
    XOutOfReach(ball, MIN_TICK, Vector(446.08, 314.56), Vector(451.08, 319.56), Vector(0.64, 0.48), x, prior);
  }

  lemma LateYOut(ball: GameObj, y: int, prior: CollInfo)
    requires IsLateBall(ball) && y <= 319
    ensures !IsValidToi(YImpact(ball, y, MIN_TICK, prior).toi)
  {
    LateFlies(ball);
    YOutOfReach(ball, MIN_TICK, Vector(446.08, 314.56), Vector(451.08, 319.56), Vector(0.64, 0.48), y, prior);
  }

  lemma LateReachesWall(ball: GameObj)
    requires IsLateBall(ball)
    ensures YImpact(ball, 320, MIN_TICK, ZERO_COLL)
            == CollInfo(11.0 / 12.0, Vector(0.0, -1.0), Vector(1340.0 / 3.0, 315.0))
  {
    LateFlies(ball);
    var q := 11.0 / 12.0;
    assert Times(q, 0.64) == 44.0 / 75.0 && Times(q, 0.48) == 0.44;
    YReached(ball, MIN_TICK, Vector(446.08, 314.56), Vector(451.08, 319.56), Vector(0.64, 0.48), 320, ZERO_COLL, q,
             Vector(1340.0 / 3.0, 315.0));
  }

  lemma LateMissesPaddle(ball: GameObj, paddle: GameObj, x: int)
    requires IsLateBall(ball) && IsResetPaddle(paddle, x) && (x == 5 || x == 475)
    ensures !IsValidToi(PaddleImpact(ball, paddle, MIN_TICK, ZERO_COLL).toi)
  {
    ResetBounds(paddle, x);
    LateXOut(ball, x - 5, ZERO_COLL);
    LateXOut(ball, x + 5, ZERO_COLL);
    LateYOut(ball, 185, ZERO_COLL);
    LateYOut(ball, 135, ZERO_COLL);
    NoCandidateNoHit(ball, paddle, MIN_TICK);
  }

  lemma LateSelected(a: Arena, ball: GameObj)
    requires IsResetArena(a) && IsLateBall(ball)
    ensures Selected(a, Launch(ball, 0.05)) == CollInfo(11.0 / 12.0, Vector(0.0, -1.0), Vector(1340.0 / 3.0, 315.0))
    ensures Bounces(a, Launch(ball, 0.05))
  {
    TruncOfInt(MIN_TICK);
    LateMissesPaddle(ball, a.paddle1, 475);
    LateMissesPaddle(ball, a.paddle2, 5);
    LateReachesWall(ball);
    LateYOut(ball, 0, ZERO_COLL);
    LateXOut(ball, 0, ZERO_COLL);
    LateXOut(ball, 480, XImpact(ball, 0, MIN_TICK, ZERO_COLL));
  }

  lemma LateBounces(a: Arena, ball: GameObj) returns (s: Flying)
    requires IsResetArena(a) && IsLateBall(ball)
    ensures Continues(a, Launch(ball, 0.05), s)
    ensures IsRebound(s.ball) && s.hyp == 0.06 && s.passed == 11.0 / 12.0
  {
    ShotSpeed(ball);
    LateSelected(a, ball);
    s := BounceContinues(a, Launch(ball, 0.05));
    assert 0.04 / 0.05 == 0.8 && -0.03 / 0.05 == -0.6;
  }

  // ---------------------------------------------------------------- after the bounce

  lemma ReboundFlies(ball: GameObj, deltaTime: int)
    requires IsRebound(ball) && (deltaTime == 16 || deltaTime == 15)
    ensures Flies(ball, deltaTime, Vector(1340.0 / 3.0, 315.0), Vector(1355.0 / 3.0, 310.0),
                  Vector(0.048 * deltaTime as real, -0.036 * deltaTime as real))
  {
    assert Times(ball.velocity.x, deltaTime as real) == 0.048 * deltaTime as real;
    assert Times(ball.velocity.y, deltaTime as real) == -0.036 * deltaTime as real;
  }

  lemma ReboundXOut(ball: GameObj, deltaTime: int, x: int, prior: CollInfo)
    requires IsRebound(ball) && (deltaTime == 16 || deltaTime == 15) && (x <= 451 || x >= 453)
    ensures !IsValidToi(XImpact(ball, x, deltaTime, prior).toi)
  {
    ReboundFlies(ball, deltaTime);
    XOutOfReach(ball, deltaTime, Vector(1340.0 / 3.0, 315.0), Vector(1355.0 / 3.0, 310.0),
                Vector(0.048 * deltaTime as real, -0.036 * deltaTime as real), x, prior);
  }

  lemma ReboundYOut(ball: GameObj, y: int, prior: CollInfo)
    requires IsRebound(ball) && (y <= 309 || y >= 310)
    ensures !IsValidToi(YImpact(ball, y, 16, prior).toi)
  {
    ReboundFlies(ball, 16);
    YOutOfReach(ball, 16, Vector(1340.0 / 3.0, 315.0), Vector(1355.0 / 3.0, 310.0), Vector(0.768, -0.576), y, prior);
  }

  lemma ReboundMissesPaddle(ball: GameObj, paddle: GameObj, x: int)
    requires IsRebound(ball) && IsResetPaddle(paddle, x) && (x == 5 || x == 475)
    ensures !IsValidToi(PaddleImpact(ball, paddle, 16, ZERO_COLL).toi)
  {
    ResetBounds(paddle, x);
    ReboundXOut(ball, 16, x - 5, ZERO_COLL);
    ReboundXOut(ball, 16, x + 5, ZERO_COLL);
    ReboundYOut(ball, 185, ZERO_COLL);
    ReboundYOut(ball, 135, ZERO_COLL);
    NoCandidateNoHit(ball, paddle, 16);
  }

  lemma ReboundRemaining(a: Arena, s: Flying)
    requires a.deltaTime == MIN_TICK && s.passed == 11.0 / 12.0
    ensures Remaining(a, s) == 15
  {
  }

  lemma ReboundMeetsNothing(a: Arena, s: Flying)
    requires IsResetArena(a) && IsRebound(s.ball) && s.passed == 11.0 / 12.0
    ensures !IsValidToi(Selected(a, s).toi)
  {
    ReboundRemaining(a, s);
    ReboundMissesPaddle(s.ball, a.paddle1, 475);
    ReboundMissesPaddle(s.ball, a.paddle2, 5);
    ReboundYOut(s.ball, 320, ZERO_COLL);
    ReboundYOut(s.ball, 0, ZERO_COLL);
    ReboundXOut(s.ball, 15, 0, ZERO_COLL);
    ReboundXOut(s.ball, 15, 480, XImpact(s.ball, 0, 15, ZERO_COLL));
    NoneOfFour(PaddleImpact(s.ball, a.paddle1, 16, ZERO_COLL), PaddleImpact(s.ball, a.paddle2, 16, ZERO_COLL),
               WallHit(a, s), GoalHit(a, s));
  }

  lemma ReboundSettles(a: Arena, s: Flying)
    requires IsResetArena(a) && IsRebound(s.ball) && s.hyp == 0.06 && s.passed == 11.0 / 12.0
    ensures EndsAs(a, s, Moved(LinearMove(s.ball, 15), 0.06))
  {
    ReboundSpeed(s.ball);
    ReboundMeetsNothing(a, s);
    ReboundRemaining(a, s);
  }

  lemma LateFlight(a: Arena, ball: GameObj) returns (flight: seq<Flying>, ball': GameObj)
    requires IsResetArena(a) && IsLateBall(ball)
    ensures IsTickFlight(a, ball, 0.05, flight, Moved(ball', 0.06))
    ensures TimeFlown(a, flight) == 89.0 / 3.0
  {
    var s := LateBounces(a, ball);
    ReboundSettles(a, s);
    ball' := LinearMove(s.ball, 15);
    OneBounceFlight(a, ball, 0.05, s, Moved(ball', 0.06));
    flight := [Launch(ball, 0.05), s];
    TickFliesFor(a, ball, 0.05, flight, ball', 0.06);
    assert Times(11.0 / 12.0, 16.0) == 44.0 / 3.0 && Ceiling(11.0 / 12.0) == 1;
  }

  // ---------------------------------------------------------------- in a match

  /** A fresh round, 322 ticks on. */
  ghost predicate IsReady(s: ServerState) {
    && OnWay(s, SERVE, 322) && s.input1 == 0 && s.input2 == 0
    && s.game.player1.pos.y == RESET_Y && s.game.player2.pos.y == RESET_Y
  }

  lemma ServeIsFree()
    ensures StaysFree(SERVE, 322) && StaysFree(SERVE, 1)
    ensures WayPoint(SERVE, 322) == Vector(446.08, 314.56)
  {
    ServeIsServe();
    assert Times(0.04, 5152.0) == 206.08 && Times(0.03, 5152.0) == 154.56;
    assert Times(0.04, 16.0) == 0.64 && Times(0.03, 16.0) == 0.48;
  }

  lemma StartIsOnWay(id1: int, id2: int)
    ensures var s := Start(id1, id2, SERVE).server;
            && OnWay(s, SERVE, 0) && s.input1 == 0 && s.input2 == 0
            && s.game.player1.pos.y == RESET_Y && s.game.player2.pos.y == RESET_Y
  {
    StartIsFresh(id1, id2, SERVE);
    FreshIsOnWay(Start(id1, id2, SERVE).server, SERVE);
  }

  lemma FlyToWall(id1: int, id2: int) returns (s: State)
    requires id1 != id2
    ensures Reachable(s) && IsReady(s.server)
  {
    ServeIsServe();
    ReachStart(id1, id2, SERVE);
    StartIsOnWay(id1, id2);
    ServeIsFree();
    s := FlyWithInput(Start(id1, id2, SERVE), SERVE, 322);
  }

  lemma ReadyIsLate(s: ServerState)
    requires IsReady(s)
    ensures IsResetArena(TickArena(s, MIN_TICK)) && IsLateBall(s.game.ball)
  {
    ServeIsFree();
    CourtOfGame(s.game.boxSize);
  }

  /** The tick of 16 milliseconds is possible in `s`, and its ball flies for almost twice as long. */
  lemma MatchHasLateTick(id1: int, id2: int) returns (s: State, flight: seq<Flying>, ball': GameObj)
    requires id1 != id2
    ensures Reachable(s) && Enabled(s, Tick(MIN_TICK, Moved(ball', 0.06), SERVE))
    ensures IsTickFlight(TickArena(s.server, MIN_TICK), s.server.game.ball, 0.05, flight, Moved(ball', 0.06))
    ensures TimeFlown(TickArena(s.server, MIN_TICK), flight) == 89.0 / 3.0
  {
    s := FlyToWall(id1, id2);
    ReadyIsLate(s.server);
    ServeIsServe();
    flight, ball' := LateFlight(TickArena(s.server, MIN_TICK), s.server.game.ball);
  }
}
