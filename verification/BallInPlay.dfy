/**
 The ball over whole matches: the server's ball always moves on both axes at a bounded speed, so a tick can always be
 completed, within a fixed number of bounces; and unless a corner tie interferes it is always between the walls.
 */
module BallInPlay {
  import opened Reals
  import opened FixedPoint
  import opened Vectors
  import opened Engine
  import opened Collision
  import opened BallLoop
  import opened BounceBudget
  import opened BallTick
  import opened WallContainment
  import opened Game
  import opened GameServer
  import opened Match

  // ---------------------------------------------------------------- every tick can be completed

  /** A flight that has begun can be flown to its end. */
  lemma FlyOn(a: Arena, ball: GameObj, hyp: real, begun: seq<Flying>) returns (flight: seq<Flying>, outcome: Outcome)
    requires a.deltaTime > 0 && IsSpeed(ball.velocity, hyp)
    requires IsFlight(a, begun) && begun[0] == Launch(ball, hyp)
    requires IsSpeed(begun[|begun| - 1].ball.velocity, begun[|begun| - 1].hyp)
    ensures IsTickFlight(a, ball, hyp, flight, outcome)
    decreases Budget(TopSpeed(hyp), a.deltaTime, ball.size) + 1 - |begun|
  {
    var last := begun[|begun| - 1];
    FlightIsBounded(a, ball, hyp, begun);
    flight := begun;
    if last.passed >= a.deltaTime as real {
      outcome := Moved(last.ball, last.hyp);
    } else {
      match OnePass(a, last)
      case Settled(settled) => outcome := Moved(settled, last.hyp);
      case Goal(index) => outcome := Scored(index);
      case Bounced(next) =>
        BounceResult(a, last);
        ExtendFlight(a, begun, next);
        FlightIsBounded(a, ball, hyp, begun + [next]);
        flight, outcome := FlyOn(a, ball, hyp, begun + [next]);
    }
  }

  lemma FateExists(a: Arena, ball: GameObj, hyp: real) returns (outcome: Outcome)
    requires a.deltaTime > 0 && IsSpeed(ball.velocity, hyp)
    ensures BallFate(a, ball, outcome)
  {
    var flight;
    flight, outcome := FlyOn(a, ball, hyp, [Launch(ball, hyp)]);
  }

  // ---------------------------------------------------------------- the ball between ticks

  /** Moving on both axes, no slower than a fresh ball and no faster than 0.64. */
  ghost predicate Lively(ball: GameObj, hyp: real) {
    && IsSpeed(ball.velocity, hyp) && 0.05 <= hyp <= 0.64 && ball.velocity.x != 0.0 && ball.velocity.y != 0.0
    && ball.size == BALL_SIZE
  }

  ghost predicate InPlay(g: PongState) {
    g.boxSize == Vector(480.0, 320.0) && exists hyp :: Lively(g.ball, hyp)
  }

  lemma SpeedIsUnique(v: Vector, h: real, i: real)
    requires IsSpeed(v, h) && IsSpeed(v, i)
    ensures h == i
  {
    RootIsMonotone(h, i);
    RootIsMonotone(i, h);
  }

  /** A whole flight leaves a lively ball lively. */
  lemma FlightKeepsLively(a: Arena, ball: GameObj, hyp: real, flight: seq<Flying>, ball': GameObj, hyp': real)
    requires Lively(ball, hyp) && IsTickFlight(a, ball, hyp, flight, Moved(ball', hyp'))
    ensures Lively(ball', hyp')
  {
    var k := FlightStretches(a, flight);
    var last := flight[|flight| - 1];
    StretchingKeepsSlope(ball.velocity, hyp, last.ball.velocity, last.hyp, k);
    assert ball'.velocity == last.ball.velocity && ball'.size == last.ball.size && hyp' == last.hyp;
  }

  lemma FateKeepsLively(a: Arena, ball: GameObj, h: real, ball': GameObj, hyp': real)
    requires Lively(ball, h) && BallFate(a, ball, Moved(ball', hyp'))
    ensures Lively(ball', hyp')
  {
    var hyp, flight :| IsTickFlight(a, ball, hyp, flight, Moved(ball', hyp'));
    FlightStartsAtSpeed(a, ball, hyp, flight, Moved(ball', hyp'));
    SpeedIsUnique(ball.velocity, h, hyp);
    FlightKeepsLively(a, ball, hyp, flight, ball', hyp');
  }

  lemma FlightStartsAtSpeed(a: Arena, ball: GameObj, hyp: real, flight: seq<Flying>, outcome: Outcome)
    requires IsTickFlight(a, ball, hyp, flight, outcome)
    ensures IsSpeed(ball.velocity, hyp)
  {
    if |flight| > 1 {
      assert Continues(a, flight[0], flight[1]);
    }
  }

  lemma ServeIsLively(s: PongState, serve: Vector)
    requires IsServe(serve)
    ensures InPlay(InitGame(s, serve))
  {
    assert Lively(InitGame(s, serve).ball, BALL_SPEED);
  }

  // ---------------------------------------------------------------- the ball over a match

  /** Clients do not touch the server's game. */
  lemma OnlyTicksTouchGame(s: State, a: Action)
    requires Enabled(s, a) && !a.Tick?
    ensures Next(s, a).server.game == s.server.game
  {
  }

  lemma TickKeepsInPlay(s: ServerState, deltaTime: int, outcome: Outcome, serve: Vector)
    requires InPlay(s.game) && IsServe(serve) && BallFate(TickArena(s, deltaTime), s.game.ball, outcome)
    ensures InPlay(AfterTick(s, outcome, serve).game)
  {
    match outcome
    case Moved(ball, hyp) =>
      var h :| Lively(s.game.ball, h);
      FateKeepsLively(TickArena(s, deltaTime), s.game.ball, h, ball, hyp);
    case Scored(_) =>
      ServeIsLively(Advanced(s, outcome), serve);
  }

  lemma StepKeepsInPlay(s: State, a: Action)
    requires InPlay(s.server.game) && Enabled(s, a)
    ensures InPlay(Next(s, a).server.game)
  {
    if a.Tick? {
      TickKeepsInPlay(s.server, a.deltaTime, a.outcome, a.serve);
    } else {
      OnlyTicksTouchGame(s, a);
    }
  }

  lemma {:induction false} RunKeepsInPlay(s: State, actions: seq<Action>, end: State)
    requires InPlay(s.server.game) && IsRun(s, actions, end)
    ensures InPlay(end.server.game)
    decreases |actions|
  {
    if actions != [] {
      StepKeepsInPlay(s, actions[0]);
      RunKeepsInPlay(Next(s, actions[0]), actions[1..], end);
    }
  }

  lemma ReachableIsInPlay(s: State)
    requires Reachable(s)
    ensures InPlay(s.server.game)
  {
    var id1: int, id2: int, serve, actions :|
      id1 != id2 && IsServe(serve) && IsRun(Start(id1, id2, serve), actions, s);
    StartIsInPlay(id1, id2, serve);
    RunKeepsInPlay(Start(id1, id2, serve), actions, s);
  }

  lemma StartIsInPlay(id1: int, id2: int, serve: Vector)
    requires IsServe(serve)
    ensures InPlay(Start(id1, id2, serve).server.game) && BetweenWalls(Start(id1, id2, serve).server.game)
  {
    ServeIsLively(ZERO_STATE.(playerIds := Pair(id1, id2), score := Pair(0, 0)), serve);
  }

  lemma InPlayTicks(s: ServerState, deltaTime: int) returns (outcome: Outcome)
    requires InPlay(s.game) && deltaTime > 0
    ensures BallFate(TickArena(s, deltaTime), s.game.ball, outcome)
  {
    var hyp :| Lively(s.game.ball, hyp);
    outcome := FateExists(TickArena(s, deltaTime), s.game.ball, hyp);
  }

  /** The server is never stuck: in every reachable state a tick of any length has an outcome. */
  lemma TickIsAlwaysPossible(s: State, deltaTime: int, serve: Vector) returns (outcome: Outcome)
    requires Reachable(s) && deltaTime > 0 && IsServe(serve)
    ensures Enabled(s, Tick(deltaTime, outcome, serve))
  {
    ReachableIsInPlay(s);
    outcome := InPlayTicks(s.server, deltaTime);
  }

  lemma InPlayBounces(g: PongState, a: Arena, hyp: real, flight: seq<Flying>, outcome: Outcome)
    requires InPlay(g) && a.deltaTime > 0 && IsTickFlight(a, g.ball, hyp, flight, outcome)
    ensures |flight| - 1 <= Budget(0.64, a.deltaTime, Vector(10.0, 10.0))
  {
    var h :| Lively(g.ball, h);
    FlightStartsAtSpeed(a, g.ball, hyp, flight, outcome);
    SpeedIsUnique(g.ball.velocity, h, hyp);
    FlightIsBounded(a, g.ball, hyp, flight);
    assert TopSpeed(hyp) == 0.64;
  }

  /** In every run a tick bounces within the budget of the game's ball: for `d` milliseconds 2 * (floor(0.64 * d *
      d) + 1) + 1. */
  lemma TickBouncesAreBounded(s: State, deltaTime: int, hyp: real, flight: seq<Flying>, outcome: Outcome)
    requires Reachable(s) && deltaTime > 0
    requires IsTickFlight(TickArena(s.server, deltaTime), s.server.game.ball, hyp, flight, outcome)
    ensures |flight| - 1 <= Budget(0.64, deltaTime, Vector(10.0, 10.0))
  {
    ReachableIsInPlay(s);
    InPlayBounces(s.server.game, TickArena(s.server, deltaTime), hyp, flight, outcome);
  }

  // ---------------------------------------------------------------- goals

  /** At some moment of this sweep the leading edge is on the goal line of index `i`: 0 is the left one, 1 the
      right one. */
  ghost predicate CrossesLine(wall: Wall, ball: GameObj, deltaTime: int, i: int) {
    exists f :: IsValidToi(f) && EdgeX(ball, deltaTime, f) == (if i == 0 then wall.left else wall.right) as real
  }

  lemma GoalIndexMeaning(wall: Wall, ball: GameObj, deltaTime: int, prior: CollInfo)
    ensures var i := GoalIndex(wall, ball, deltaTime, prior);
            && (IsValidToi(GoalImpact(wall, ball, deltaTime, prior).toi) <==> i == 0 || i == 1)
            && (i == 0 || i == 1 ==> CrossesLine(wall, ball, deltaTime, i))
  {
    var left := XImpact(ball, wall.left, deltaTime, prior);
    XImpactMeaning(ball, wall.left, deltaTime, prior);
    XImpactMeaning(ball, wall.right, deltaTime, left);
  }

  /** A goal is scored in the last sweep of the flight, over the line of its index. */
  lemma GoalCrossesItsLine(a: Arena, ball: GameObj, hyp: real, flight: seq<Flying>, i: int)
    requires IsTickFlight(a, ball, hyp, flight, Scored(i))
    ensures var last := flight[|flight| - 1];
            (i == 0 || i == 1) && CrossesLine(a.wall, last.ball, Remaining(a, last), i)
  {
    var last := flight[|flight| - 1];
    GoalIndexMeaning(a.wall, last.ball, Remaining(a, last), ZERO_COLL);
  }

  /** A moment at which a goal counts: the leading edge is on the left line, or on the right one in a sweep that never
      reaches the left one. */
  ghost predicate IsGoalMoment(wall: Wall, ball: GameObj, deltaTime: int, f: real) {
    && IsValidToi(f)
    && (|| EdgeX(ball, deltaTime, f) == wall.left as real
        || (EdgeX(ball, deltaTime, f) == wall.right as real
            && forall g :: IsValidToi(g) ==> EdgeX(ball, deltaTime, g) != wall.left as real))
  }

  lemma GoalImpactIff(wall: Wall, ball: GameObj, deltaTime: int, prior: CollInfo, f: real)
    requires MovesX(ball, deltaTime)
    ensures var c := GoalImpact(wall, ball, deltaTime, prior);
            IsGoalMoment(wall, ball, deltaTime, f) <==> IsValidToi(c.toi) && c.toi == f
  {
    var left := XImpact(ball, wall.left, deltaTime, prior);
    XImpactMeaning(ball, wall.left, deltaTime, prior);
    XImpactMeaning(ball, wall.right, deltaTime, left);
  }

  lemma NoMoveNoGoal(wall: Wall, ball: GameObj, deltaTime: int, prior: CollInfo)
    requires !MovesX(ball, deltaTime)
    ensures !IsValidToi(GoalImpact(wall, ball, deltaTime, prior).toi)
  {
  }

  /** Nothing is hit before the fraction `f` of the tick. */
  ghost predicate NoContactBefore(a: Arena, s: Flying, f: real) {
    && (IsValidToi(PaddleImpact(s.ball, a.paddle1, a.deltaTime, ZERO_COLL).toi)
        ==> f <= PaddleImpact(s.ball, a.paddle1, a.deltaTime, ZERO_COLL).toi)
    && (IsValidToi(PaddleImpact(s.ball, a.paddle2, a.deltaTime, ZERO_COLL).toi)
        ==> f <= PaddleImpact(s.ball, a.paddle2, a.deltaTime, ZERO_COLL).toi)
    && (IsValidToi(WallHit(a, s).toi) ==> f <= WallHit(a, s).toi)
  }

  /** Of four collisions the last is as early as any exactly if the choice has its time. */
  lemma FourthIsFirst(a: CollInfo, b: CollInfo, c: CollInfo, d: CollInfo)
    ensures var r := First4(a, b, c, d, ZERO_COLL);
            IsValidToi(r.toi) && r.toi == d.toi <==>
              && IsValidToi(d.toi)
              && (IsValidToi(a.toi) ==> d.toi <= a.toi) && (IsValidToi(b.toi) ==> d.toi <= b.toi)
              && (IsValidToi(c.toi) ==> d.toi <= c.toi)
  {
  }

  lemma PassScoresIffGoalFirst(a: Arena, s: Flying)
    requires IsSpeed(s.ball.velocity, s.hyp)
    ensures OnePass(a, s).Goal? <==> IsValidToi(GoalHit(a, s).toi) && NoContactBefore(a, s, GoalHit(a, s).toi)
  {
    FourthIsFirst(PaddleImpact(s.ball, a.paddle1, a.deltaTime, ZERO_COLL),
                  PaddleImpact(s.ball, a.paddle2, a.deltaTime, ZERO_COLL),
                  WallHit(a, s), GoalHit(a, s));
  }

  /** A pass of the loop scores if and only if a goal line is reached in what remains of the tick, at a fraction no
      later than that of any paddle or wall contact in the whole tick. */
  lemma PassScoresIff(a: Arena, s: Flying)
    requires IsSpeed(s.ball.velocity, s.hyp)
    ensures OnePass(a, s).Goal? <==>
              && MovesX(s.ball, Remaining(a, s))
              && exists f :: IsGoalMoment(a.wall, s.ball, Remaining(a, s), f) && NoContactBefore(a, s, f)
  {
    PassScoresIffGoalFirst(a, s);
    var g := GoalHit(a, s).toi;
    if MovesX(s.ball, Remaining(a, s)) {
      forall f
        ensures IsGoalMoment(a.wall, s.ball, Remaining(a, s), f) <==> IsValidToi(g) && g == f
      {
        GoalImpactIff(a.wall, s.ball, Remaining(a, s), ZERO_COLL, f);
      }
    } else {
      NoMoveNoGoal(a.wall, s.ball, Remaining(a, s), ZERO_COLL);
    }
  }

  lemma AllRemains(a: Arena, ball: GameObj, hyp: real)
    ensures Remaining(a, Launch(ball, hyp)) == a.deltaTime
  {
    TruncOfInt(a.deltaTime);
  }

  lemma MovingBallMoves(ball: GameObj, deltaTime: int)
    requires deltaTime > 0 && ball.velocity.x != 0.0
    ensures MovesX(ball, deltaTime)
  {
    SweepDirection(ball, deltaTime);
  }

  /** In the first pass all sweeps are of the whole tick. */
  lemma FirstPassScoresIff(a: Arena, ball: GameObj, hyp: real)
    requires a.deltaTime > 0 && IsSpeed(ball.velocity, hyp) && ball.velocity.x != 0.0
    ensures OnePass(a, Launch(ball, hyp)).Goal? <==>
              exists f :: IsGoalMoment(a.wall, ball, a.deltaTime, f) && NoContactBefore(a, Launch(ball, hyp), f)
  {
    MovingBallMoves(ball, a.deltaTime);
    AllRemains(a, ball, hyp);
    PassScoresIff(a, Launch(ball, hyp));
  }

  /** A goal adds one point, to the player of its index, and sends nobody's input into the next round; any other
      step leaves the score alone. */
  lemma OnlyGoalsCount(s: State, a: Action)
    requires Enabled(s, a)
    ensures var score, score' := s.server.game.score, Next(s, a).server.game.score;
            if a.Tick? && a.outcome.Scored? then
              var i := a.outcome.index;
              && (i == 0 || i == 1)
              && score'.At(i) == score.At(i) + 1 && score'.At(1 - i) == score.At(1 - i)
              && Next(s, a).server.input1 == Next(s, a).server.input2 == 0
            else score' == score
  {
    if a.Tick? && a.outcome.Scored? {
      FateHasIndex(TickArena(s.server, a.deltaTime), s.server.game.ball, a.outcome.index);
    } else if !a.Tick? {
      OnlyTicksTouchGame(s, a);
    }
  }

  lemma FateHasIndex(a: Arena, ball: GameObj, i: int)
    requires BallFate(a, ball, Scored(i))
    ensures i == 0 || i == 1
  {
    var hyp, flight :| IsTickFlight(a, ball, hyp, flight, Scored(i));
    GoalCrossesItsLine(a, ball, hyp, flight, i);
  }

  // ---------------------------------------------------------------- between the walls

  /** The ball is between the walls of the court, flying inward where it touches one. */
  ghost predicate BetweenWalls(g: PongState) {
    WallSafe(COURT, g.ball)
  }

  /** The flight of the tick has no bounce at which a paddle's vertical edge and a wall are reached at once. */
  ghost predicate TickWithoutTie(s: State, a: Action) {
    a.Tick? ==>
      exists hyp, flight ::
        && IsTickFlight(TickArena(s.server, a.deltaTime), s.server.game.ball, hyp, flight, a.outcome)
        && NoCornerTie(TickArena(s.server, a.deltaTime), flight)
  }

  lemma TickStaysBetweenWalls(s: State, a: Action)
    requires InPlay(s.server.game) && BetweenWalls(s.server.game) && a.Tick? && a.deltaTime > 0 && TickWithoutTie(s, a)
    ensures BetweenWalls(AfterTick(s.server, a.outcome, a.serve).game)
  {
    CourtOfGame(s.server.game.boxSize);
    match a.outcome
    case Moved(ball, hyp') =>
      var hyp, flight :|
        && IsTickFlight(TickArena(s.server, a.deltaTime), s.server.game.ball, hyp, flight, a.outcome)
        && NoCornerTie(TickArena(s.server, a.deltaTime), flight);
      TickStaysInside(TickArena(s.server, a.deltaTime), s.server.game.ball, hyp, flight, ball, hyp');
    case Scored(_) =>
  }

  ghost predicate RunWithoutTie(s: State, actions: seq<Action>)
    decreases |actions|
  {
    actions != [] ==>
      && Enabled(s, actions[0]) && TickWithoutTie(s, actions[0])
      && RunWithoutTie(Next(s, actions[0]), actions[1..])
  }

  lemma StepStaysBetweenWalls(s: State, a: Action)
    requires InPlay(s.server.game) && BetweenWalls(s.server.game) && Enabled(s, a) && TickWithoutTie(s, a)
    ensures BetweenWalls(Next(s, a).server.game)
  {
    if a.Tick? {
      TickStaysBetweenWalls(s, a);
    } else {
      OnlyTicksTouchGame(s, a);
    }
  }

  /** Over a whole match, goals included, the ball is between the walls after every step. */
  lemma {:induction false} MatchStaysBetweenWalls(s: State, actions: seq<Action>, end: State)
    requires InPlay(s.server.game) && BetweenWalls(s.server.game) && IsRun(s, actions, end) && RunWithoutTie(s, actions)
    ensures BetweenWalls(end.server.game)
    decreases |actions|
  {
    if actions != [] {
      StepKeepsInPlay(s, actions[0]);
      StepStaysBetweenWalls(s, actions[0]);
      MatchStaysBetweenWalls(Next(s, actions[0]), actions[1..], end);
    }
  }
}
