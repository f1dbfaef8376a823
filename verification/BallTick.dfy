/** `ball_advance` and `ball_bounce_on_collision` as the program runs them. */
module BallTick {
  import opened FixedPoint
  import opened Vectors
  import opened Engine
  import opened Collision
  import opened CollisionTests
  import opened BallLoop
  import opened BounceBudget

  /** `hyp` is the value `sqrtf` returns for the reflected velocity. */
  method BallBounceOnCollision(ball: GameObj, normal: Vector, hyp: real) returns (bounced: GameObj)
    requires hyp > 0.0 && IsSpeed(ball.velocity, hyp)
    ensures bounced == ball.(velocity := Bounce(ball.velocity, normal, hyp))
    ensures hyp <= 0.63 ==> IsSpedUp(ball.velocity, normal, hyp, bounced.velocity)
    ensures hyp > 0.63 ==> IsMirrorImage(ball.velocity, normal, bounced.velocity)
  {
    BounceAddsOneHundredth(ball.velocity, normal, hyp);
    bounced := ball.(velocity := ReflectOrthogonal(ball.velocity, normal));
    var x, y := bounced.velocity.y, bounced.velocity.x;
    if hyp > 0.63 {
      return;
    }
    var speedUp := 0.01;
    var cos, sin := y / hyp, x / hyp;
    bounced := bounced.(velocity := Vector(bounced.velocity.x + speedUp * cos, bounced.velocity.y + speedUp * sin));
  }

  /** The four tests at the top of the loop body and the choice among them. */
  method FirstContact(a: Arena, ball: GameObj, hyp: real, passedTime: real)
    returns (found: bool, coll: CollInfo, scoredIndex: int, scored: bool)
    requires IsSpeed(ball.velocity, hyp)
    ensures var s := Flying(ball, hyp, passedTime);
            && coll == Selected(a, s)
            && found == IsValidToi(coll.toi)
            && scored == (coll.toi == GoalHit(a, s).toi)
            && scoredIndex == GoalIndex(a.wall, ball, Remaining(a, s), ZERO_COLL)
            && (found && scored ==> scoredIndex == 0 || scoredIndex == 1)
  {
    var _, paddleHit1 := AABBCollide(ball, a.paddle1, a.deltaTime, ZERO_COLL);
    var _, paddleHit2 := AABBCollide(ball, a.paddle2, a.deltaTime, ZERO_COLL);
    var _, wallHit := BallWallCollide(a.wall, ball, a.deltaTime, ZERO_COLL);
    var index, goalHit := BallScoreCollide(a.wall, ball, Trunc(a.deltaTime as real - passedTime), ZERO_COLL);
    found, coll := FirstOfQuad(paddleHit1, paddleHit2, wallHit, goalHit, ZERO_COLL);
    scoredIndex := index;
    scored := coll.toi == goalHit.toi;
  }

  /** One iteration of the loop. */
  method Iterate(a: Arena, ball: GameObj, hyp: real, passedTime: real) returns (pass: Pass)
    requires IsSpeed(ball.velocity, hyp)
    ensures pass == OnePass(a, Flying(ball, hyp, passedTime))
    ensures pass.Goal? ==> pass.index == 0 || pass.index == 1
    ensures pass.Bounced? ==> IsSpeed(pass.next.ball.velocity, pass.next.hyp)
  {
    var ballNext := LinearMove(ball, Trunc(a.deltaTime as real - passedTime));
    var found, coll, scoredIndex, scored := FirstContact(a, ball, hyp, passedTime);
    if !found {
      return Settled(ballNext);
    }
    if scored {
      return Goal(scoredIndex);
    }
    BouncingBallHasSpeed(a, Flying(ball, hyp, passedTime));
    BounceKeepsIsSpeed(ball.velocity, coll.normal, hyp);
    var bounced := BallBounceOnCollision(ball.(pos := coll.pos), coll.normal, hyp);
    return Bounced(Flying(bounced, SpeedAfterBounce(hyp), passedTime + coll.toi));
  }

  lemma ExtendFlight(a: Arena, flight: seq<Flying>, s': Flying)
    requires IsFlight(a, flight) && Continues(a, flight[|flight| - 1], s')
    ensures IsFlight(a, flight + [s'])
  {
  }

  /**
   `ball_advance`. `ballUpd0` is what the out-parameter held before the call; it is left alone when someone
   scores. The loop runs exactly one flight, and ends for the reason the source gives.
   */
  method BallAdvance(wall: Wall, paddle1: GameObj, paddle2: GameObj, ball0: GameObj, ballUpd0: GameObj,
                     deltaTime: int, hyp0: real)
    returns (ballUpd: GameObj, scoredIndex: int, ghost flight: seq<Flying>, ghost outcome: Outcome)
    requires deltaTime > 0 && IsSpeed(ball0.velocity, hyp0)
    ensures IsTickFlight(Arena(wall, paddle1, paddle2, deltaTime), ball0, hyp0, flight, outcome)
    ensures if scoredIndex == -1 then outcome.Moved? && ballUpd == outcome.ball else outcome == Scored(scoredIndex)
    ensures scoredIndex != -1 ==> (scoredIndex == 0 || scoredIndex == 1) && ballUpd == ballUpd0
    ensures |flight| - 1 <= Budget(TopSpeed(hyp0), deltaTime, ball0.size)
  {
    var arena := Arena(wall, paddle1, paddle2, deltaTime);
    var ball, passedTime := ball0, 0.0;
    var hyp := hyp0;
    ballUpd, scoredIndex := ballUpd0, -1;
    flight := [Launch(ball0, hyp0)];
    FlightIsBounded(arena, ball0, hyp0, flight);
    while passedTime < deltaTime as real
      invariant IsFlight(arena, flight) && flight[0] == Launch(ball0, hyp0)
      invariant flight[|flight| - 1] == Flying(ball, hyp, passedTime)
      invariant IsSpeed(ball.velocity, hyp)
      invariant |flight| - 1 <= Budget(TopSpeed(hyp0), deltaTime, ball0.size)
      invariant ballUpd == ballUpd0 && scoredIndex == -1
      decreases Budget(TopSpeed(hyp0), deltaTime, ball0.size) - |flight|
    {
      var pass := Iterate(arena, ball, hyp, passedTime);
      if pass.Settled? {
        ball := pass.ball;
        break;
      }
      if pass.Goal? {
        scoredIndex, outcome := pass.index, Scored(pass.index);
        return;
      }
      ball, hyp, passedTime := pass.next.ball, pass.next.hyp, pass.next.passed;
      ExtendFlight(arena, flight, pass.next);
      flight := flight + [pass.next];
      FlightIsBounded(arena, ball0, hyp0, flight);
    }
    ballUpd, outcome := ball, Moved(ball, hyp);
  }
}
