/**
 A corner tie in a match. The serve flies up 31 for every 45 across, so its edges reach the right paddle's face and
 the upper wall together; the first player has raised the paddle to the wall. All ticks last 16 milliseconds; in the
 342nd the ball leaves the field.

 No such serve has rational components (45 and 31 are odd, and the sum of two odd squares is no square), so the serve
 and the speed at which the first client sees it are parameters, bound by the equations of a square root.
 */
module MatchTie {
  import opened Reals
  import opened FixedPoint
  import opened Vectors
  import opened Engine
  import opened Collision
  import opened BallLoop
  import opened WallContainment
  import opened Game
  import opened Packets
  import opened GameServer
  import opened GameClient
  import opened Match
  import opened Opening
  import opened GoalShot
  import opened FreeFlight

  // ---------------------------------------------------------------- the tick of the tie

  /** Between 341 and 342 ticks of flight the edges arrive. */
  predicate IsTieStep(t: real) {
    0.0 < t && 5456.0 * t < 5.0 <= 5472.0 * t
  }

  ghost predicate IsTieBall(ball: GameObj, t: real) {
    && ball.pos == Vector(240.0 + 245520.0 * t, 160.0 + 169136.0 * t)
    && ball.velocity == Vector(45.0 * t, 31.0 * t) && ball.size == BALL_SIZE
  }

  /** The right paddle is at the upper wall, the left one at its reset height. */
  ghost predicate IsTieArena(a: Arena) {
    && a.wall == COURT && a.deltaTime == MIN_TICK
    && GetBoundaries(a.paddle1) == Bounds(325.0, 275.0, 470.0, 480.0)
    && GetBoundaries(a.paddle2) == Bounds(185.0, 135.0, 0.0, 10.0)
  }

  function Pos(t: real): Vector {
    Vector(240.0 + 245520.0 * t, 160.0 + 169136.0 * t)
  }

  function Edge(t: real): Vector {
    Vector(245.0 + 245520.0 * t, 165.0 + 169136.0 * t)
  }

  function Travel(t: real): Vector {
    Vector(720.0 * t, 496.0 * t)
  }

  lemma TieFlies(ball: GameObj, t: real)
    requires IsTieBall(ball, t) && IsTieStep(t)
    ensures Flies(ball, MIN_TICK, Pos(t), Edge(t), Travel(t))
  {
    assert Times(45.0 * t, 16.0) == 720.0 * t && Times(31.0 * t, 16.0) == 496.0 * t;
  }

  lemma TieFraction(t: real) returns (q: real)
    requires IsTieStep(t)
    ensures IsValidToi(q)
    ensures Times(q, 720.0 * t) == 225.0 - 245520.0 * t && Times(q, 496.0 * t) == 155.0 - 169136.0 * t
  {
    var way, step := 5.0 - 5456.0 * t, 16.0 * t;
    q := way / step;
    QuotientTimes(way, step);
    PositiveQuotient(way, step);
    TimesOne(step);
    if q > 1.0 {
      TimesStrictlyMonotone(1.0, q, step);
    }
    assert Times(q, 720.0 * t) == 45.0 * Times(q, step) && Times(q, 496.0 * t) == 31.0 * Times(q, step);
  }

  lemma TieXOut(ball: GameObj, t: real, x: int, prior: CollInfo)
    requires IsTieBall(ball, t) && IsTieStep(t) && (x <= 245 || x >= 480)
    ensures !IsValidToi(XImpact(ball, x, MIN_TICK, prior).toi)
  {
    TieFlies(ball, t);
    XOutOfReach(ball, MIN_TICK, Pos(t), Edge(t), Travel(t), x, prior);
  }

  lemma TieYOut(ball: GameObj, t: real, y: int, prior: CollInfo)
    requires IsTieBall(ball, t) && IsTieStep(t) && (y <= 275 || y >= 325)
    ensures !IsValidToi(YImpact(ball, y, MIN_TICK, prior).toi)
  {
    TieFlies(ball, t);
    YOutOfReach(ball, MIN_TICK, Pos(t), Edge(t), Travel(t), y, prior);
  }

  /** Face and wall are reached at the same fraction. */
  lemma TieReaches(ball: GameObj, t: real) returns (q: real)
    requires IsTieBall(ball, t) && IsTieStep(t)
    ensures IsValidToi(q)
    ensures XImpact(ball, 470, MIN_TICK, ZERO_COLL) == CollInfo(q, Vector(-1.0, 0.0), Vector(465.0, 315.0))
    ensures YImpact(ball, 320, MIN_TICK, ZERO_COLL).toi == q
  {
    TieFlies(ball, t);
    q := TieFraction(t);
    XReached(ball, MIN_TICK, Pos(t), Edge(t), Travel(t), 470, ZERO_COLL, q, Vector(465.0, 315.0));
    YReached(ball, MIN_TICK, Pos(t), Edge(t), Travel(t), 320, ZERO_COLL, q, Vector(465.0, 315.0));
  }

  lemma OnlyXCandidate(ball: GameObj, paddle: GameObj, deltaTime: int, c: CollInfo)
    requires XCandidate(ball, paddle, deltaTime) == c && IsValidToi(c.toi)
    requires !IsValidToi(YCandidate(ball, paddle, deltaTime).toi)
    requires !SeparatedInY(GetBoundaries(ball.(pos := c.pos)), GetBoundaries(paddle))
    ensures PaddleImpact(ball, paddle, deltaTime, ZERO_COLL) == c
  {
    SweepStartsAtRest(paddle, deltaTime);
  }

  lemma TieRightPaddle(ball: GameObj, t: real, paddle: GameObj) returns (q: real)
    requires IsTieBall(ball, t) && IsTieStep(t) && GetBoundaries(paddle) == Bounds(325.0, 275.0, 470.0, 480.0)
    ensures IsValidToi(q) && YImpact(ball, 320, MIN_TICK, ZERO_COLL).toi == q
    ensures PaddleImpact(ball, paddle, MIN_TICK, ZERO_COLL) == CollInfo(q, Vector(-1.0, 0.0), Vector(465.0, 315.0))
  {
    TruncOfInt(325);
    TruncOfInt(275);
    TruncOfInt(470);
    TruncOfInt(480);
    q := TieReaches(ball, t);
    TieXOut(ball, t, 480, ZERO_COLL);
    TieYOut(ball, t, 275, ZERO_COLL);
    TieYOut(ball, t, 325, ZERO_COLL);
    OnlyXCandidate(ball, paddle, MIN_TICK, CollInfo(q, Vector(-1.0, 0.0), Vector(465.0, 315.0)));
  }

  lemma TieLeftPaddle(ball: GameObj, t: real, paddle: GameObj)
    requires IsTieBall(ball, t) && IsTieStep(t) && GetBoundaries(paddle) == Bounds(185.0, 135.0, 0.0, 10.0)
    ensures !IsValidToi(PaddleImpact(ball, paddle, MIN_TICK, ZERO_COLL).toi)
  {
    TruncOfInt(185);
    TruncOfInt(135);
    TruncOfInt(0);
    TruncOfInt(10);
    TieXOut(ball, t, 0, ZERO_COLL);
    TieXOut(ball, t, 10, ZERO_COLL);
    TieYOut(ball, t, 185, ZERO_COLL);
    TieYOut(ball, t, 135, ZERO_COLL);
    NoCandidateNoHit(ball, paddle, MIN_TICK);
  }

  /** The paddle wins. */
  lemma TieSelected(a: Arena, ball: GameObj, t: real) returns (q: real)
    requires IsTieArena(a) && IsTieBall(ball, t) && IsTieStep(t)
    ensures IsValidToi(q)
    ensures Selected(a, Launch(ball, 0.05)) == CollInfo(q, Vector(-1.0, 0.0), Vector(465.0, 315.0))
    ensures CornerTie(a, Launch(ball, 0.05)) && Bounces(a, Launch(ball, 0.05))
  {
    TruncOfInt(MIN_TICK);
    q := TieRightPaddle(ball, t, a.paddle1);
    TieLeftPaddle(ball, t, a.paddle2);
    TieYOut(ball, t, 0, ZERO_COLL);
    TieXOut(ball, t, 0, ZERO_COLL);
    TieXOut(ball, t, 480, XImpact(ball, 0, MIN_TICK, ZERO_COLL));
  }

  // ---------------------------------------------------------------- what remains of it

  ghost predicate IsTied(s: Flying, t: real) {
    && s.ball.pos == Vector(465.0, 315.0) && s.ball.velocity == Vector(-54.0 * t, 37.2 * t) && s.ball.size == BALL_SIZE
    && s.hyp == 0.06 && 0.0 < s.passed <= 1.0
  }

  lemma TieVelocity(t: real)
    ensures Bounce(Vector(45.0 * t, 31.0 * t), Vector(-1.0, 0.0), 0.05) == Vector(-54.0 * t, 37.2 * t)
    ensures SpeedAfterBounce(0.05) == 0.06
  {
    assert -45.0 * t / 0.05 == -900.0 * t && 31.0 * t / 0.05 == 620.0 * t;
  }

  lemma TieBounces(a: Arena, ball: GameObj, t: real, q: real) returns (s: Flying)
    requires a.deltaTime == MIN_TICK && IsSpeed(ball.velocity, 0.05) && IsValidToi(q)
    requires ball.velocity == Vector(45.0 * t, 31.0 * t) && ball.size == BALL_SIZE
    requires Selected(a, Launch(ball, 0.05)) == CollInfo(q, Vector(-1.0, 0.0), Vector(465.0, 315.0))
    requires Bounces(a, Launch(ball, 0.05))
    ensures Continues(a, Launch(ball, 0.05), s) && IsTied(s, t)
  {
    TieVelocity(t);
    s := BounceContinues(a, Launch(ball, 0.05));
  }

  lemma TiedFlies(s: Flying, t: real, deltaTime: int)
    requires IsTied(s, t) && IsTieStep(t) && deltaTime > 0
    ensures Flies(s.ball, deltaTime, Vector(465.0, 315.0), Vector(460.0, 320.0),
                  Vector(Times(-54.0 * t, deltaTime as real), Times(37.2 * t, deltaTime as real)))
  {
    TimesSign(-54.0 * t, deltaTime as real);
    TimesSign(37.2 * t, deltaTime as real);
  }

  lemma TiedXOut(s: Flying, t: real, deltaTime: int, x: int, prior: CollInfo)
    requires IsTied(s, t) && IsTieStep(t) && (deltaTime == 16 || deltaTime == 15) && (x <= 10 || x >= 470)
    ensures !IsValidToi(XImpact(s.ball, x, deltaTime, prior).toi)
  {
    TiedFlies(s, t, deltaTime);
    XOutOfReach(s.ball, deltaTime, Vector(465.0, 315.0), Vector(460.0, 320.0),
                Vector(Times(-54.0 * t, deltaTime as real), Times(37.2 * t, deltaTime as real)), x, prior);
  }

  lemma TiedYOut(s: Flying, t: real, y: int, prior: CollInfo)
    requires IsTied(s, t) && IsTieStep(t) && (y <= 320 || y >= 325)
    ensures !IsValidToi(YImpact(s.ball, y, 16, prior).toi)
  {
    TiedFlies(s, t, 16);
    YOutOfReach(s.ball, 16, Vector(465.0, 315.0), Vector(460.0, 320.0),
                Vector(Times(-54.0 * t, 16.0), Times(37.2 * t, 16.0)), y, prior);
  }

  lemma TiedMissesPaddle(s: Flying, t: real, paddle: GameObj, up: int, down: int, left: int, right: int)
    requires IsTied(s, t) && IsTieStep(t)
    requires GetBoundaries(paddle) == Bounds(up as real, down as real, left as real, right as real)
    requires (left <= 10 || left >= 470) && (right <= 10 || right >= 470)
    requires (up <= 320 || up >= 325) && (down <= 320 || down >= 325)
    ensures !IsValidToi(PaddleImpact(s.ball, paddle, 16, ZERO_COLL).toi)
  {
    TruncOfInt(up);
    TruncOfInt(down);
    TruncOfInt(left);
    TruncOfInt(right);
    TiedXOut(s, t, 16, left, ZERO_COLL);
    TiedXOut(s, t, 16, right, ZERO_COLL);
    TiedYOut(s, t, up, ZERO_COLL);
    TiedYOut(s, t, down, ZERO_COLL);
    NoCandidateNoHit(s.ball, paddle, 16);
  }

  lemma TiedRemaining(a: Arena, s: Flying, t: real)
    requires IsTied(s, t) && a.deltaTime == 16
    ensures Remaining(a, s) == 15
  {
  }

  lemma TiedMeetsNothing(a: Arena, s: Flying, t: real)
    requires IsTieArena(a) && IsTied(s, t) && IsTieStep(t)
    ensures !IsValidToi(Selected(a, s).toi)
  {
    TiedRemaining(a, s, t);
    TiedMissesPaddle(s, t, a.paddle1, 325, 275, 470, 480);
    TiedMissesPaddle(s, t, a.paddle2, 185, 135, 0, 10);
    TiedYOut(s, t, 320, ZERO_COLL);
    TiedYOut(s, t, 0, ZERO_COLL);
    TiedXOut(s, t, 15, 0, ZERO_COLL);
    TiedXOut(s, t, 15, 480, XImpact(s.ball, 0, 15, ZERO_COLL));
    NoneOfFour(PaddleImpact(s.ball, a.paddle1, 16, ZERO_COLL), PaddleImpact(s.ball, a.paddle2, 16, ZERO_COLL),
               WallHit(a, s), GoalHit(a, s));
  }

  lemma TiedSettles(a: Arena, s: Flying, t: real)
    requires IsTieArena(a) && IsTied(s, t) && IsTieStep(t) && IsSpeed(s.ball.velocity, s.hyp)
    ensures EndsAs(a, s, Moved(LinearMove(s.ball, 15), s.hyp))
  {
    TiedMeetsNothing(a, s, t);
    TiedRemaining(a, s, t);
  }

  /** The whole tick: it starts between the walls, has a corner tie, and ends outside. */
  lemma TieTick(a: Arena, ball: GameObj, t: real) returns (flight: seq<Flying>, ball': GameObj, hyp': real)
    requires IsTieArena(a) && IsTieBall(ball, t) && IsTieStep(t) && IsSpeed(ball.velocity, 0.05)
    ensures IsTickFlight(a, ball, 0.05, flight, Moved(ball', hyp'))
    ensures WallSafe(a.wall, ball) && CornerTie(a, Launch(ball, 0.05)) && !Within(a.wall, ball')
  {
    var q := TieSelected(a, ball, t);
    var s := TieBounces(a, ball, t, q);
    BounceResult(a, Launch(ball, 0.05));
    TiedSettles(a, s, t);
    OneBounceFlight(a, ball, 0.05, s, Moved(LinearMove(s.ball, 15), s.hyp));
    flight, ball', hyp' := [Launch(ball, 0.05), s], LinearMove(s.ball, 15), s.hyp;
    TiedRemaining(a, s, t);
    TieEndsOutside(a, Launch(ball, 0.05), s, Moved(ball', hyp'));
  }

  // ---------------------------------------------------------------- in a match

  /** A serve to the upper right, 31 up for every 45 across. */
  ghost predicate IsTieServe(serve: Vector) {
    IsServe(serve) && serve.x > 0.0 && serve.y > 0.0 && 31.0 * serve.x == 45.0 * serve.y
  }

  lemma TieServeStep(serve: Vector) returns (t: real)
    requires IsTieServe(serve)
    ensures serve == Vector(45.0 * t, 31.0 * t) && IsTieStep(t)
  {
    t := serve.y / 31.0;
    var tt := t * t;
    assert Square(45.0 * t) == 2025.0 * tt && Square(31.0 * t) == 961.0 * tt && Square(t) == tt;
    assert Square(0.05) == 0.0025;
    assert tt == 0.0025 / 2986.0;
    var low, high := 5.0 / 5472.0, 5.0 / 5456.0;
    assert Square(low) < tt < Square(high);
    if t < low {
      SquareIsMonotone(t, low);
    }
    if high < t {
      SquareIsMonotone(high, t);
    }
  }

  lemma TieWayIsFree(serve: Vector, t: real)
    requires IsTieServe(serve) && serve == Vector(45.0 * t, 31.0 * t) && IsTieStep(t)
    ensures StaysFree(serve, 341) && WayPoint(serve, 341) == Pos(t)
  {
    assert Times(45.0 * t, 5456.0) == 245520.0 * t && Times(31.0 * t, 5456.0) == 169136.0 * t;
  }

  /** The serve as the first client sees it. */
  lemma SeenServe(serve: Vector)
    requires IsTieServe(serve)
    ensures var seen := QuantisedVector(serve); 0.0 < seen.x < 0.05 && 0.0 < seen.y < 0.05
  {
    var t := TieServeStep(serve);
    QuantiseIsClose(serve.x);
    QuantiseIsClose(serve.y);
  }

  /** The client's ball flies freely for 280 milliseconds. */
  lemma SeenIsFree(local: PongState, seen: Vector, hyp: real)
    requires SeesFreshGame(local, seen) && 0.0 < seen.x < 0.05 && 0.0 < seen.y < 0.05 && IsSpeed(seen, hyp)
    ensures BallFate(FrameArena(local, 280), local.ball, Moved(LinearMove(local.ball, 280), hyp))
  {
    CourtOfGame(local.boxSize);
    var x, y := Times(seen.x, 280.0), Times(seen.y, 280.0);
    assert 0.0 < x < 14.0 && 0.0 < y < 14.0;
    FreeFate(FrameArena(local, 280), local.ball, hyp);
  }

  /** The first client joins, holds a key down for 280 milliseconds, and sends. */
  lemma TypeAndSend(id1: int, id2: int, serve: Vector, hyp: real) returns (s: State)
    requires id1 != id2 && IsTieServe(serve) && IsSpeed(QuantisedVector(serve), hyp)
    ensures Reachable(s) && ServerAtStart(s, serve) && HasSent(s, 280)
  {
    s := JoinFirst(id1, id2, serve);
    var local := s.peers.first.client.local;
    SeenServe(serve);
    SeenIsFree(local, QuantisedVector(serve), hyp);
    s := TypeFirst(s, serve, 280, Moved(LinearMove(local.ball, 280), hyp));
    s := SendFirst(s, serve, 280);
  }

  lemma ReceiveStep(s: State, serve: Vector)
    requires ServerAtStart(s, serve) && HasSent(s, 280)
    ensures Enabled(s, Receive(0))
    ensures var s' := Next(s, Receive(0)).server;
            && OnWay(s', serve, 0) && s'.input1 == 280 && s'.input2 == 0
            && s'.game.player1.pos.y == RESET_Y && s'.game.player2.pos.y == RESET_Y
  {
    FreshIsOnWay(s.server, serve);
  }

  /** The paddle is up, and nothing else is typed. */
  ghost predicate IsReady(s: ServerState, serve: Vector, n: nat) {
    && OnWay(s, serve, n) && s.input1 == 0 && s.input2 == 0
    && s.game.player1.pos.y == 300.0 && s.game.player2.pos.y == RESET_Y
  }

  lemma TieServeIsFree(serve: Vector)
    requires IsTieServe(serve)
    ensures StaysFree(serve, 1) && StaysFree(serve, 341)
  {
    var t := TieServeStep(serve);
    TieWayIsFree(serve, t);
    WayPointsAdvance(serve, 1, 341);
  }

  lemma FlyFromCenter(s: State, serve: Vector, n: nat) returns (s': State)
    requires Reachable(s) && OnWay(s.server, serve, 0) && s.server.input1 == 280 && s.server.input2 == 0
    requires s.server.game.player1.pos.y == RESET_Y && s.server.game.player2.pos.y == RESET_Y
    requires n > 0 && StaysFree(serve, 1) && StaysFree(serve, n)
    ensures Reachable(s') && IsReady(s'.server, serve, n)
  {
    s' := FlyWithInput(s, serve, n);
  }

  lemma FlyToTie(id1: int, id2: int, serve: Vector, hyp: real) returns (s: State)
    requires id1 != id2 && IsTieServe(serve) && IsSpeed(QuantisedVector(serve), hyp)
    ensures Reachable(s) && IsReady(s.server, serve, 341)
  {
    s := TypeAndSend(id1, id2, serve, hyp);
    ReceiveStep(s, serve);
    ReachOn(s, Receive(0));
    TieServeIsFree(serve);
    s := FlyFromCenter(Next(s, Receive(0)), serve, 341);
  }

  lemma ReadyIsTie(s: ServerState, serve: Vector, t: real)
    requires IsReady(s, serve, 341) && IsTieServe(serve) && serve == Vector(45.0 * t, 31.0 * t) && IsTieStep(t)
    ensures IsTieArena(TickArena(s, MIN_TICK)) && IsTieBall(s.game.ball, t)
  {
    TieWayIsFree(serve, t);
    CourtOfGame(s.game.boxSize);
  }

  /** The tick of length 16 that is possible in `s`, is a corner tie in its first pass, and ends outside the walls. */
  ghost predicate IsTieTick(s: State, outcome: Outcome) {
    && Enabled(s, Tick(MIN_TICK, outcome, SERVE)) && outcome.Moved?
    && CornerTie(TickArena(s.server, MIN_TICK), Launch(s.server.game.ball, BALL_SPEED))
    && WallSafe(COURT, s.server.game.ball) && !Within(COURT, outcome.ball)
  }

  lemma TieHappens(s: State, serve: Vector) returns (outcome: Outcome)
    requires IsReady(s.server, serve, 341) && IsTieServe(serve)
    ensures IsTieTick(s, outcome)
  {
    var t := TieServeStep(serve);
    ReadyIsTie(s.server, serve, t);
    var a := TickArena(s.server, MIN_TICK);
    var flight, ball', hyp' := TieTick(a, s.server.game.ball, t);
    outcome := Moved(ball', hyp');
    assert BallFate(a, s.server.game.ball, outcome);
    ServeIsServe();
  }

  /** A corner tie happens in a match: some reachable state has a tick with one, after which the server's ball is
      outside. */
  lemma MatchHasTie(id1: int, id2: int, serve: Vector, hyp: real) returns (s: State, outcome: Outcome)
    requires id1 != id2 && IsTieServe(serve) && IsSpeed(QuantisedVector(serve), hyp)
    ensures Reachable(s) && IsTieTick(s, outcome)
    ensures var s' := Next(s, Tick(MIN_TICK, outcome, SERVE)); Reachable(s') && !Within(COURT, s'.server.game.ball)
  {
    s := FlyToTie(id1, id2, serve, hyp);
    outcome := TieHappens(s, serve);
    ReachOn(s, Tick(MIN_TICK, outcome, SERVE));
  }
}
