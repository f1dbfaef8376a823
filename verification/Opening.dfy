/** How a match begins, step by step: the first client joins, types and sends, and the server receives. */
module Opening {
  import opened Reals
  import opened FixedPoint
  import opened Vectors
  import opened Engine
  import opened BallLoop
  import opened Game
  import opened Packets
  import opened GameServer
  import opened GameClient
  import opened Match

  // ---------------------------------------------------------------- from one reachable state to the next

  lemma {:induction false} RunAppend(s: State, actions: seq<Action>, end: State, a: Action)
    requires IsRun(s, actions, end) && Enabled(end, a)
    ensures IsRun(s, actions + [a], Next(end, a))
    decreases |actions|
  {
    if actions == [] {
      assert [a][1..] == [];
    } else {
      assert (actions + [a])[1..] == actions[1..] + [a];
      RunAppend(Next(s, actions[0]), actions[1..], end, a);
    }
  }

  lemma ReachOn(s: State, a: Action)
    requires Reachable(s) && Enabled(s, a)
    ensures Reachable(Next(s, a))
  {
    var id1: int, id2: int, serve, actions :|
      id1 != id2 && IsServe(serve) && IsRun(Start(id1, id2, serve), actions, s);
    RunAppend(Start(id1, id2, serve), actions, s, a);
  }

  lemma ReachStart(id1: int, id2: int, serve: Vector)
    requires id1 != id2 && IsServe(serve)
    ensures Reachable(Start(id1, id2, serve))
  {
    assert IsRun(Start(id1, id2, serve), [], Start(id1, id2, serve));
  }

  // ---------------------------------------------------------------- a fresh round

  /** A serve whose numbers are plain. */
  const SERVE := Vector(0.04, 0.03)

  lemma ServeIsServe()
    ensures IsServe(SERVE)
  {
    assert Square(0.04) == 0.0016 && Square(0.03) == 0.0009 && Square(0.05) == 0.0025;
  }

  const CENTER := Vector(240.0, 160.0)

  /** A round has just begun, and nothing was typed. */
  ghost predicate IsFresh(s: ServerState, serve: Vector) {
    && s.game.player1 == InitPaddle(475.0) && s.game.player2 == InitPaddle(5.0)
    && s.game.ball == GameObj(BALL_SPEED, CENTER, serve, BALL_SIZE)
    && s.game.boxSize == Vector(480.0, 320.0)
    && s.input1 == 0 && s.input2 == 0
  }

  lemma SteeredByNothing(paddle: GameObj)
    requires paddle.velocity == ZERO_VECTOR
    ensures Steered(paddle, 0) == paddle
  {
    TimesOne(paddle.speed);
  }

  /** Multiples of a ten-thousandth travel unharmed. */
  lemma ExactOnTheWire(n: int)
    ensures Quantise(n as real / 10000.0) == n as real / 10000.0
  {
    FixedRoundTrip(n);
  }

  lemma ServeTravels()
    ensures QuantisedVector(SERVE) == SERVE
  {
    ExactOnTheWire(400);
    ExactOnTheWire(300);
  }

  lemma BallTravels()
    ensures QuantisedVector(Vector(240.0, 160.0)) == Vector(240.0, 160.0)
    ensures QuantisedVector(BALL_SIZE) == BALL_SIZE
  {
    ExactOnTheWire(2400000);
    ExactOnTheWire(1600000);
    ExactOnTheWire(100000);
  }

  lemma CourtTravels()
    ensures QuantisedVector(Vector(475.0, RESET_Y)) == Vector(475.0, RESET_Y)
    ensures QuantisedVector(Vector(5.0, RESET_Y)) == Vector(5.0, RESET_Y)
    ensures QuantisedVector(Vector(10.0, 50.0)) == Vector(10.0, 50.0)
    ensures QuantisedVector(Vector(480.0, 320.0)) == Vector(480.0, 320.0)
  {
    ExactOnTheWire(4750000);
    ExactOnTheWire(50000);
    ExactOnTheWire(1600000);
    ExactOnTheWire(100000);
    ExactOnTheWire(500000);
    ExactOnTheWire(4800000);
    ExactOnTheWire(3200000);
  }

  /** The game as a client that has just joined sees it. */
  ghost predicate SeesFreshGame(local: PongState, velocity: Vector) {
    && local.player1.pos == Vector(475.0, RESET_Y) && local.player1.size == Vector(10.0, 50.0)
    && local.player2.pos == Vector(5.0, RESET_Y) && local.player2.size == Vector(10.0, 50.0)
    && local.ball.pos == CENTER && local.ball.velocity == velocity && local.ball.size == BALL_SIZE
    && local.boxSize == Vector(480.0, 320.0)
  }

  lemma JoinedSeesFreshGame(s: ServerState, serve: Vector, c: ClientState, prior: PongState)
    requires IsFresh(s, serve)
    ensures SeesFreshGame(AfterJoin(c, 0, ArrivedInit(s.game.(ownIdIndex := 0), prior)).local, QuantisedVector(serve))
  {
    BallTravels();
    CourtTravels();
  }

  // ---------------------------------------------------------------- the first client joins, types and sends

  /** The server's side, and what it would take from the first client, are as after the start. */
  ghost predicate ServerAtStart(s: State, serve: Vector) {
    && IsFresh(s.server, serve) && s.round == 0 && s.server.sync == 0 && s.server.game.score == Pair(0, 0)
    && s.peers.first.round <= 0 && s.peers.first.accepted == []
    && s.server.game.playerIds.first == s.peers.first.id
  }

  /** The first client is in the first round, with this much typed and nothing sent. */
  ghost predicate HasTyped(s: State, ms: int, pending: seq<Contribution>) {
    && s.peers.first.round == 0 && s.peers.first.toServer == [] && s.peers.first.client.sync == 0
    && s.peers.first.client.inputAccMs == ms && s.peers.first.pending == pending
  }

  lemma StartIsFresh(id1: int, id2: int, serve: Vector)
    ensures ServerAtStart(Start(id1, id2, serve), serve)
  {
  }

  lemma JoinStep(id1: int, id2: int, serve: Vector)
    ensures Enabled(Start(id1, id2, serve), Deliver(0))
    ensures var s' := Next(Start(id1, id2, serve), Deliver(0));
            && ServerAtStart(s', serve) && HasTyped(s', 0, [])
            && SeesFreshGame(s'.peers.first.client.local, QuantisedVector(serve))
  {
    var s := Start(id1, id2, serve);
    StartIsFresh(id1, id2, serve);
    JoinedSeesFreshGame(s.server, serve, s.peers.first.client, ZERO_STATE);
  }

  lemma JoinFirst(id1: int, id2: int, serve: Vector) returns (s: State)
    requires id1 != id2 && IsServe(serve)
    ensures Reachable(s) && ServerAtStart(s, serve) && HasTyped(s, 0, [])
    ensures SeesFreshGame(s.peers.first.client.local, QuantisedVector(serve))
  {
    ReachStart(id1, id2, serve);
    JoinStep(id1, id2, serve);
    s := Next(Start(id1, id2, serve), Deliver(0));
    ReachOn(Start(id1, id2, serve), Deliver(0));
  }

  /** One frame with a key held down. */
  lemma TypeStep(s: State, serve: Vector, ms: int, outcome: Outcome)
    requires ServerAtStart(s, serve) && HasTyped(s, 0, []) && ms > 0
    requires BallFate(FrameArena(s.peers.first.client.local, ms), s.peers.first.client.local.ball, outcome)
    ensures Enabled(s, Frame(0, ms, 1, outcome))
    ensures var s' := Next(s, Frame(0, ms, 1, outcome));
            && ServerAtStart(s', serve) && HasTyped(s', ms, [Contribution(0, ms)])
            && s'.peers.first.client.local.ball == if outcome.Moved? then outcome.ball else ZERO_OBJ
  {
  }

  lemma TypeFirst(s: State, serve: Vector, ms: int, outcome: Outcome) returns (s': State)
    requires Reachable(s) && ServerAtStart(s, serve) && HasTyped(s, 0, []) && ms > 0
    requires BallFate(FrameArena(s.peers.first.client.local, ms), s.peers.first.client.local.ball, outcome)
    ensures Reachable(s') && ServerAtStart(s', serve) && HasTyped(s', ms, [Contribution(0, ms)])
    ensures s'.peers.first.client.local.ball == if outcome.Moved? then outcome.ball else ZERO_OBJ
  {
    TypeStep(s, serve, ms, outcome);
    s' := Next(s, Frame(0, ms, 1, outcome));
    ReachOn(s, Frame(0, ms, 1, outcome));
  }

  /** What was typed is on its way, alone. */
  ghost predicate HasSent(s: State, ms: int) {
    && s.peers.first.round == 0
    && s.peers.first.toServer == [InputMsg(PacketInput(0, ms), 0, [Contribution(0, ms)])]
  }

  lemma SendStep(s: State, serve: Vector, ms: int)
    requires ServerAtStart(s, serve) && HasTyped(s, ms, [Contribution(0, ms)])
    ensures Enabled(s, Send(0)) && ServerAtStart(Next(s, Send(0)), serve) && HasSent(Next(s, Send(0)), ms)
  {
  }

  lemma SendFirst(s: State, serve: Vector, ms: int) returns (s': State)
    requires Reachable(s) && ServerAtStart(s, serve) && HasTyped(s, ms, [Contribution(0, ms)])
    ensures Reachable(s') && ServerAtStart(s', serve) && HasSent(s', ms)
  {
    SendStep(s, serve, ms);
    s' := Next(s, Send(0));
    ReachOn(s, Send(0));
  }
}
