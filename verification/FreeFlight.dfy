/**
 Ticks of the server's shortest length in which the ball meets nothing: it flies from the center toward the upper
 right, and has reached neither the right paddle's face nor the upper wall.
 */
module FreeFlight {
  import opened Reals
  import opened FixedPoint
  import opened Vectors
  import opened Engine
  import opened Collision
  import opened BallLoop
  import opened BallInPlay
  import opened Game
  import opened GameServer
  import opened Match
  import opened Opening
  import opened GoalShot

  // ---------------------------------------------------------------- one pass

  /** The game's walls and paddles, the paddles at any height. */
  ghost predicate IsGameArena(a: Arena) {
    var r, l := GetBoundaries(a.paddle1), GetBoundaries(a.paddle2);
    && a.wall == COURT && a.deltaTime > 0
    && r.left == 470.0 && r.right == 480.0 && l.left == 0.0 && l.right == 10.0
  }

  /** The leading edges stay below 470 and 320. */
  ghost predicate IsFree(ball: GameObj, deltaTime: int) {
    var to := LinearMove(ball, deltaTime).pos;
    && ball.size == BALL_SIZE && ball.velocity.x > 0.0 && ball.velocity.y > 0.0
    && 240.0 <= ball.pos.x < to.x < 465.0 && 160.0 <= ball.pos.y < to.y < 315.0
  }

  lemma FreeX(ball: GameObj, deltaTime: int, x: int, prior: CollInfo)
    requires IsFree(ball, deltaTime) && (x <= 245 || x >= 470)
    ensures !IsValidToi(XImpact(ball, x, deltaTime, prior).toi)
  {
    XMiss(ball, x, deltaTime, prior, x as real - 5.0 - ball.pos.x, LinearMove(ball, deltaTime).pos.x - ball.pos.x);
  }

  lemma FreeY(ball: GameObj, deltaTime: int, y: int, prior: CollInfo)
    requires IsFree(ball, deltaTime) && (y <= 165 || y >= 320)
    ensures !IsValidToi(YImpact(ball, y, deltaTime, prior).toi)
  {
    YMiss(ball, y, deltaTime, prior, y as real - 5.0 - ball.pos.y, LinearMove(ball, deltaTime).pos.y - ball.pos.y);
  }

  /** All along the way the ball is between the paddles. */
  lemma FreeIsBetween(ball: GameObj, deltaTime: int, f: real)
    requires IsFree(ball, deltaTime) && IsValidToi(f)
    ensures 240.0 <= Sweep(ball, deltaTime, f).x < 465.0
  {
    var d := LinearMove(ball, deltaTime).pos.x - ball.pos.x;
    TimesMonotone(0.0, f, d);
    TimesMonotone(f, 1.0, d);
    TimesOne(d);
  }

  lemma FreeMissesPaddle(ball: GameObj, paddle: GameObj, deltaTime: int, left: int, right: int)
    requires IsFree(ball, deltaTime) && GetBoundaries(paddle).left == left as real
    requires GetBoundaries(paddle).right == right as real
    requires (left == 0 && right == 10) || (left == 470 && right == 480)
    ensures !IsValidToi(PaddleImpact(ball, paddle, deltaTime, ZERO_COLL).toi)
  {
    TruncOfInt(left);
    TruncOfInt(right);
    FreeX(ball, deltaTime, left, ZERO_COLL);
    FreeX(ball, deltaTime, right, ZERO_COLL);
    CandidateMeanings(ball, paddle, deltaTime);
    var c := YCandidate(ball, paddle, deltaTime);
    if IsValidToi(c.toi) {
      FreeIsBetween(ball, deltaTime, c.toi);
    }
    PaddleIsMissed(ball, paddle, deltaTime);
  }

  lemma FreeMeetsNothing(a: Arena, ball: GameObj, hyp: real)
    requires IsGameArena(a) && IsFree(ball, a.deltaTime)
    ensures !IsValidToi(Selected(a, Launch(ball, hyp)).toi)
  {
    var s := Launch(ball, hyp);
    AllRemains(a, ball, hyp);
    FreeMissesPaddle(ball, a.paddle1, a.deltaTime, 470, 480);
    FreeMissesPaddle(ball, a.paddle2, a.deltaTime, 0, 10);
    FreeY(ball, a.deltaTime, 320, ZERO_COLL);
    FreeY(ball, a.deltaTime, 0, ZERO_COLL);
    FreeX(ball, a.deltaTime, 0, ZERO_COLL);
    FreeX(ball, a.deltaTime, 480, XImpact(ball, 0, a.deltaTime, ZERO_COLL));
    NoneOfFour(PaddleImpact(ball, a.paddle1, a.deltaTime, ZERO_COLL),
               PaddleImpact(ball, a.paddle2, a.deltaTime, ZERO_COLL),
               WallHit(a, s), GoalHit(a, s));
  }

  /** The tick moves the ball along. */
  lemma FreeFate(a: Arena, ball: GameObj, hyp: real)
    requires IsGameArena(a) && IsFree(ball, a.deltaTime) && IsSpeed(ball.velocity, hyp)
    ensures BallFate(a, ball, Moved(LinearMove(ball, a.deltaTime), hyp))
  {
    FreeMeetsNothing(a, ball, hyp);
    AllRemains(a, ball, hyp);
    assert IsTickFlight(a, ball, hyp, [Launch(ball, hyp)], Moved(LinearMove(ball, a.deltaTime), hyp));
  }

  // ---------------------------------------------------------------- ticks of a match

  /** A paddle of the game, at any height. */
  ghost predicate StandsAt(paddle: GameObj, x: real) {
    && paddle.pos.x == x && paddle.size == Vector(10.0, 50.0)
    && paddle.velocity.x == 0.0 && paddle.speed == PADDLE_SPEED
  }

  /** Where the ball is after `n` ticks. */
  function WayPoint(serve: Vector, n: nat): Vector {
    Vector(240.0 + Times(serve.x, (MIN_TICK * n) as real), 160.0 + Times(serve.y, (MIN_TICK * n) as real))
  }

  ghost predicate OnWay(s: ServerState, serve: Vector, n: nat) {
    && StandsAt(s.game.player1, 475.0) && StandsAt(s.game.player2, 5.0)
    && s.game.ball == GameObj(BALL_SPEED, WayPoint(serve, n), serve, BALL_SIZE)
    && s.game.boxSize == Vector(480.0, 320.0)
  }

  /** In tick number `n` and before, nothing is reached. */
  ghost predicate StaysFree(serve: Vector, n: nat) {
    && IsServe(serve) && serve.x > 0.0 && serve.y > 0.0
    && WayPoint(serve, n).x < 465.0 && WayPoint(serve, n).y < 315.0
  }

  lemma DrainedStandsThere(paddle: GameObj, x: real, inputAcc: int)
    requires StandsAt(paddle, x)
    ensures StandsAt(Steered(paddle, inputAcc), x) && StandsAt(Drained(paddle, inputAcc), x)
    ensures Drained(paddle, inputAcc).pos.y == paddle.pos.y + 0.5 * inputAcc as real
  {
    DrainedMovesHalfPerMs(paddle, inputAcc);
    TimesOne(AbsInt(inputAcc) as real);
  }

  lemma OnWayArena(s: ServerState, serve: Vector, n: nat, deltaTime: int)
    requires OnWay(s, serve, n) && deltaTime > 0
    ensures IsGameArena(TickArena(s, deltaTime))
  {
    CourtOfGame(s.game.boxSize);
    DrainedStandsThere(s.game.player1, 475.0, s.input1);
    DrainedStandsThere(s.game.player2, 5.0, s.input2);
  }

  lemma NextWayPoint(serve: Vector, n: nat)
    ensures Add(WayPoint(serve, n), Multiply(serve, MIN_TICK as real)) == WayPoint(serve, n + 1)
  {
    var d, e := (MIN_TICK * n) as real, MIN_TICK as real;
    assert (MIN_TICK * (n + 1)) as real == d + e;
    TimesCommutes(serve.x, d + e);
    TimesCommutes(serve.y, d + e);
    TimesAdds(d, e, serve.x);
    TimesAdds(d, e, serve.y);
    TimesCommutes(serve.x, d);
    TimesCommutes(serve.y, d);
    TimesCommutes(serve.x, e);
    TimesCommutes(serve.y, e);
  }

  lemma WayPointsAdvance(serve: Vector, m: nat, n: nat)
    requires serve.x > 0.0 && serve.y > 0.0 && m <= n
    ensures 240.0 <= WayPoint(serve, m).x <= WayPoint(serve, n).x
    ensures 160.0 <= WayPoint(serve, m).y <= WayPoint(serve, n).y
    ensures m < n ==> WayPoint(serve, m).x < WayPoint(serve, n).x && WayPoint(serve, m).y < WayPoint(serve, n).y
  {
    var d, e := (MIN_TICK * m) as real, (MIN_TICK * n) as real;
    TimesCommutes(serve.x, d);
    TimesCommutes(serve.y, d);
    TimesCommutes(serve.x, e);
    TimesCommutes(serve.y, e);
    TimesMonotone(0.0, d, serve.x);
    TimesMonotone(0.0, d, serve.y);
    TimesMonotone(d, e, serve.x);
    TimesMonotone(d, e, serve.y);
    TimesOne(serve.x);
    TimesOne(serve.y);
    if m < n {
      TimesStrictlyMonotone(d, e, serve.x);
      TimesStrictlyMonotone(d, e, serve.y);
    }
  }

  lemma WayIsFree(s: ServerState, serve: Vector, n: nat)
    requires OnWay(s, serve, n) && StaysFree(serve, n + 1)
    ensures IsFree(s.game.ball, MIN_TICK) && LinearMove(s.game.ball, MIN_TICK).pos == WayPoint(serve, n + 1)
  {
    NextWayPoint(serve, n);
    WayPointsAdvance(serve, n, n + 1);
  }

  /** The action of one such tick. */
  function Onward(s: ServerState): Action {
    Tick(MIN_TICK, Moved(LinearMove(s.game.ball, MIN_TICK), BALL_SPEED), SERVE)
  }

  lemma OnwardStep(s: State, serve: Vector, n: nat)
    requires OnWay(s.server, serve, n) && StaysFree(serve, n + 1)
    ensures Enabled(s, Onward(s.server))
    ensures var s' := Next(s, Onward(s.server)).server;
            && OnWay(s', serve, n + 1) && s'.input1 == 0 && s'.input2 == 0
            && s'.game.player1.pos.y == s.server.game.player1.pos.y + 0.5 * s.server.input1 as real
            && s'.game.player2.pos.y == s.server.game.player2.pos.y + 0.5 * s.server.input2 as real
  {
    ServeIsServe();
    WayIsFree(s.server, serve, n);
    OnWayArena(s.server, serve, n, MIN_TICK);
    FreeFate(TickArena(s.server, MIN_TICK), s.server.game.ball, BALL_SPEED);
    DrainedStandsThere(s.server.game.player1, 475.0, s.server.input1);
    DrainedStandsThere(s.server.game.player2, 5.0, s.server.input2);
  }

  lemma FlyOneTick(s: State, serve: Vector, n: nat) returns (s': State)
    requires Reachable(s) && OnWay(s.server, serve, n) && StaysFree(serve, n + 1)
    ensures Reachable(s') && OnWay(s'.server, serve, n + 1) && s'.server.input1 == 0 && s'.server.input2 == 0
    ensures s'.server.game.player1.pos.y == s.server.game.player1.pos.y + 0.5 * s.server.input1 as real
    ensures s'.server.game.player2.pos.y == s.server.game.player2.pos.y + 0.5 * s.server.input2 as real
  {
    OnwardStep(s, serve, n);
    s' := Next(s, Onward(s.server));
    ReachOn(s, Onward(s.server));
  }

  /** Up to tick number `n`, with the paddles at rest. */
  lemma {:induction false} FlyTicks(s: State, serve: Vector, m: nat, n: nat) returns (s': State)
    requires Reachable(s) && OnWay(s.server, serve, m) && s.server.input1 == 0 && s.server.input2 == 0
    requires m <= n && StaysFree(serve, n)
    ensures Reachable(s') && OnWay(s'.server, serve, n) && s'.server.input1 == 0 && s'.server.input2 == 0
    ensures s'.server.game.player1.pos.y == s.server.game.player1.pos.y
    ensures s'.server.game.player2.pos.y == s.server.game.player2.pos.y
    decreases n - m
  {
    if m == n {
      s' := s;
    } else {
      WayPointsAdvance(serve, m + 1, n);
      s' := FlyOneTick(s, serve, m);
      s' := FlyTicks(s', serve, m + 1, n);
    }
  }

  /** The first tick applies the inputs, the others find the paddles at rest. */
  lemma FlyWithInput(s: State, serve: Vector, n: nat) returns (s': State)
    requires Reachable(s) && OnWay(s.server, serve, 0) && n > 0 && StaysFree(serve, 1) && StaysFree(serve, n)
    ensures Reachable(s') && OnWay(s'.server, serve, n) && s'.server.input1 == 0 && s'.server.input2 == 0
    ensures s'.server.game.player1.pos.y == s.server.game.player1.pos.y + 0.5 * s.server.input1 as real
    ensures s'.server.game.player2.pos.y == s.server.game.player2.pos.y + 0.5 * s.server.input2 as real
  {
    s' := FlyOneTick(s, serve, 0);
    s' := FlyTicks(s', serve, 1, n);
  }

  /** A fresh round is the beginning of the way. */
  lemma FreshIsOnWay(s: ServerState, serve: Vector)
    requires IsFresh(s, serve)
    ensures OnWay(s, serve, 0)
  {
    TimesOne(serve.x);
    TimesOne(serve.y);
  }
}
