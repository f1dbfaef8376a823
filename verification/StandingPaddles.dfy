/**
 Which paddles a ball meets: those of the moment the tick or frame began. What a tick drains moves the paddles only
 after the ball has flown, and what a frame's keys ask for likewise.
 */
module StandingPaddles {
  import opened FixedPoint
  import opened Vectors
  import opened Engine
  import opened Collision
  import opened BallLoop
  import opened Game
  import opened Packets
  import opened GameServer
  import opened GameClient
  import opened Match

  /** Boxes in the same place, whatever their velocities. */
  predicate SameBox(p: GameObj, q: GameObj) {
    p.pos == q.pos && p.size == q.size
  }

  /** The same court and the same boxes for the same time. */
  predicate SameBoxes(a: Arena, b: Arena) {
    a.wall == b.wall && a.deltaTime == b.deltaTime && SameBox(a.paddle1, b.paddle1) && SameBox(a.paddle2, b.paddle2)
  }

  // ---------------------------------------------------------------- a paddle's velocity is not looked at

  lemma ImpactOfBox(ball: GameObj, p: GameObj, q: GameObj, deltaTime: int)
    requires SameBox(p, q)
    ensures PaddleImpact(ball, p, deltaTime, ZERO_COLL) == PaddleImpact(ball, q, deltaTime, ZERO_COLL)
  {
    SweepStartsAtRest(p, deltaTime);
    SweepStartsAtRest(q, deltaTime);
    assert GetBoundaries(p) == GetBoundaries(q);
    assert XCandidate(ball, p, deltaTime) == XCandidate(ball, q, deltaTime);
    assert YCandidate(ball, p, deltaTime) == YCandidate(ball, q, deltaTime);
  }

  lemma PassOfBoxes(a: Arena, b: Arena, s: Flying)
    requires SameBoxes(a, b) && IsSpeed(s.ball.velocity, s.hyp)
    ensures OnePass(a, s) == OnePass(b, s)
  {
    ImpactOfBox(s.ball, a.paddle1, b.paddle1, a.deltaTime);
    ImpactOfBox(s.ball, a.paddle2, b.paddle2, a.deltaTime);
    assert Selected(a, s) == Selected(b, s);
  }

  lemma FlightOfBoxes(a: Arena, b: Arena, ball: GameObj, hyp: real, flight: seq<Flying>, outcome: Outcome)
    requires SameBoxes(a, b) && IsTickFlight(a, ball, hyp, flight, outcome)
    ensures IsTickFlight(b, ball, hyp, flight, outcome)
  {
    forall i | 0 <= i < |flight| - 1
      ensures Continues(b, flight[i], flight[i + 1])
    {
      assert Continues(a, flight[i], flight[i + 1]);
      PassOfBoxes(a, b, flight[i]);
    }
    PassOfBoxes(a, b, flight[|flight| - 1]);
  }

  lemma FateCarriesOver(a: Arena, b: Arena, ball: GameObj, outcome: Outcome)
    requires SameBoxes(a, b) && BallFate(a, ball, outcome)
    ensures BallFate(b, ball, outcome)
  {
    var hyp, flight :| IsTickFlight(a, ball, hyp, flight, outcome);
    FlightOfBoxes(a, b, ball, hyp, flight, outcome);
  }

  /** Among the same boxes a ball fares the same. */
  lemma FateOfBoxes(a: Arena, b: Arena, ball: GameObj, outcome: Outcome)
    requires SameBoxes(a, b)
    ensures BallFate(a, ball, outcome) <==> BallFate(b, ball, outcome)
  {
    if BallFate(a, ball, outcome) {
      FateCarriesOver(a, b, ball, outcome);
    }
    if BallFate(b, ball, outcome) {
      FateCarriesOver(b, a, ball, outcome);
    }
  }

  // ---------------------------------------------------------------- ticks and frames

  /** The paddles as they stand in this game, at the two ends of its box. */
  function ArenaOf(g: PongState, deltaTime: int): Arena {
    Arena(Wall(Trunc(g.boxSize.y), 0, 0, Trunc(g.boxSize.x)), g.player1, g.player2, deltaTime)
  }

  /** A tick's ball flies among the paddles as they stood before the tick. */
  lemma TickMeetsStandingPaddles(s: ServerState, deltaTime: int, ball: GameObj, outcome: Outcome)
    ensures BallFate(TickArena(s, deltaTime), ball, outcome) <==> BallFate(ArenaOf(s.game, deltaTime), ball, outcome)
  {
    FateOfBoxes(TickArena(s, deltaTime), ArenaOf(s.game, deltaTime), ball, outcome);
  }

  /** So the input a tick drains has no say in what its ball does. */
  lemma TickIgnoresInput(s: ServerState, t: ServerState, deltaTime: int, ball: GameObj, outcome: Outcome)
    requires s.game == t.game
    ensures BallFate(TickArena(s, deltaTime), ball, outcome) <==> BallFate(TickArena(t, deltaTime), ball, outcome)
  {
    FateOfBoxes(TickArena(s, deltaTime), TickArena(t, deltaTime), ball, outcome);
  }

  /** A contact with a paddle during a tick touches it where it stood before the tick. */
  lemma TickContactTouches(s: ServerState, deltaTime: int, ball: GameObj, i: int)
    requires 0 <= i < 2
    ensures var a := TickArena(s, deltaTime);
            var c := PaddleImpact(ball, if i == 0 then a.paddle1 else a.paddle2, deltaTime, ZERO_COLL);
            IsValidToi(c.toi) ==> TouchesBox(ball, deltaTime, c.toi, s.game.Player(i), c.normal.x != 0.0)
  {
    ImpactOfBox(ball, TickArena(s, deltaTime).paddle1, s.game.player1, deltaTime);
    ImpactOfBox(ball, TickArena(s, deltaTime).paddle2, s.game.player2, deltaTime);
    PaddleImpactTouches(ball, s.game.Player(i), deltaTime);
  }

  /** A frame's ball too flies among the paddles as they stood, whatever key is held. */
  lemma FrameMeetsStandingPaddles(local: PongState, deltaTime: int, ball: GameObj, outcome: Outcome)
    ensures BallFate(FrameArena(local, deltaTime), ball, outcome)
            <==> BallFate(ArenaOf(local, deltaTime), ball, outcome)
  {
    FateOfBoxes(FrameArena(local, deltaTime), ArenaOf(local, deltaTime), ball, outcome);
  }

  /** A client that sees the server's paddles where they are predicts of a ball what the server would compute in a tick
      of the same length, whatever the two players are typing. */
  lemma FrameFliesLikeTick(s: ServerState, local: PongState, deltaTime: int, ball: GameObj, outcome: Outcome,
                           direction: int, serve: Vector)
    requires local.boxSize == s.game.boxSize
    requires SameBox(local.player1, s.game.player1) && SameBox(local.player2, s.game.player2)
    ensures BallFate(FrameArena(local, deltaTime), ball, outcome) <==> BallFate(TickArena(s, deltaTime), ball, outcome)
    ensures outcome.Moved? ==>
              AfterUpdate(local, deltaTime, direction, outcome).ball == AfterTick(s, outcome, serve).game.ball
  {
    FateOfBoxes(FrameArena(local, deltaTime), TickArena(s, deltaTime), ball, outcome);
  }

  // ---------------------------------------------------------------- in a match

  /** The ball and the score do not depend on the inputs. */
  lemma InputsMoveNoBall(s: ServerState, t: ServerState, outcome: Outcome, serve: Vector)
    requires s.game == t.game
    ensures AfterTick(s, outcome, serve).game.ball == AfterTick(t, outcome, serve).game.ball
    ensures AfterTick(s, outcome, serve).game.score == AfterTick(t, outcome, serve).game.score
  {
  }

  lemma InputLeavesGame(s: ServerState, id: int, p: Packet)
    ensures AfterInput(s, id, p).game == s.game
  {
  }

  lemma EnabledTick(s: State, deltaTime: int, outcome: Outcome, serve: Vector)
    ensures Enabled(s, Tick(deltaTime, outcome, serve)) <==>
              && deltaTime > 0 && IsServe(serve)
              && BallFate(TickArena(s.server, deltaTime), s.server.game.ball, outcome)
  {
  }

  /** An input that arrives just before a tick changes neither which outcomes the tick can have nor the ball and the
      score after it. */
  lemma ReceiptMovesNoBall(s: State, i: int, deltaTime: int, outcome: Outcome, serve: Vector)
    requires Enabled(s, Receive(i))
    ensures var a, s' := Tick(deltaTime, outcome, serve), Next(s, Receive(i));
            Enabled(s, a) <==> Enabled(s', a)
    ensures var t, t' := s.server, Next(s, Receive(i)).server;
            && AfterTick(t', outcome, serve).game.ball == AfterTick(t, outcome, serve).game.ball
            && AfterTick(t', outcome, serve).game.score == AfterTick(t, outcome, serve).game.score
  {
    var s' := Next(s, Receive(i));
    InputLeavesGame(s.server, s.peers.At(i).id, s.peers.At(i).toServer[0].packet);
    EnabledTick(s, deltaTime, outcome, serve);
    EnabledTick(s', deltaTime, outcome, serve);
    TickIgnoresInput(s.server, s'.server, deltaTime, s.server.game.ball, outcome);
    InputsMoveNoBall(s.server, s'.server, outcome, serve);
  }
}
