/**
 Where everything stands. The server and both clients play on one court, with the paddles in their places and nobody
 moving sideways, although a STATE says nothing about any of that; and every client knows which player it is.
 */
module Courts {
  import opened Reals
  import opened Vectors
  import opened Engine
  import opened BallLoop
  import opened BallInPlay
  import opened Game
  import opened Packets
  import opened GameServer
  import opened GameClient
  import opened Match
  import opened Agreement
  import opened Opening

  /** A paddle of its size in its place, which moves up and down only. */
  predicate StandsAt(paddle: GameObj, x: real) {
    paddle.pos.x == x && paddle.velocity.x == 0.0 && paddle.size == Vector(10.0, 50.0)
  }

  /** The court of a game between these two: the first at the right end, the second at the left. */
  predicate IsCourtOf(g: PongState, ids: Pair<int>) {
    && g.playerIds == ids && g.boxSize == Vector(480.0, 320.0)
    && StandsAt(g.player1, 475.0) && StandsAt(g.player2, 5.0)
  }

  /** Nothing has moved yet, and the ball is in the middle. */
  predicate IsKickoff(g: PongState, ids: Pair<int>) {
    && IsCourtOf(g, ids)
    && g.player1.pos.y == 160.0 && g.player1.velocity.y == 0.0
    && g.player2.pos.y == 160.0 && g.player2.velocity.y == 0.0
    && g.ball.pos == Vector(240.0, 160.0) && g.ball.size == Vector(10.0, 10.0)
  }

  // ---------------------------------------------------------------- paddles stay in their columns

  lemma MoveKeepsColumn(paddle: GameObj, deltaTime: int, x: real)
    requires StandsAt(paddle, x)
    ensures StandsAt(LinearMove(paddle, deltaTime), x)
  {
    TimesOne(deltaTime as real);
  }

  lemma DrainKeepsColumn(paddle: GameObj, inputAcc: int, x: real)
    requires StandsAt(paddle, x)
    ensures StandsAt(Drained(paddle, inputAcc), x)
  {
    MoveKeepsColumn(Steered(paddle, inputAcc), AbsInt(inputAcc), x);
  }

  lemma DriveKeepsColumn(paddle: GameObj, direction: int, deltaTime: int, x: real)
    requires StandsAt(paddle, x)
    ensures StandsAt(Driven(paddle, direction, deltaTime), x)
  {
    MoveKeepsColumn(paddle.(velocity := paddle.velocity.(y := direction as real * 0.5)), deltaTime, x);
  }

  lemma TickKeepsCourt(s: ServerState, outcome: Outcome, serve: Vector, ids: Pair<int>)
    requires IsCourtOf(s.game, ids)
    ensures IsCourtOf(AfterTick(s, outcome, serve).game, ids)
    ensures outcome.Scored? ==> IsKickoff(AfterTick(s, outcome, serve).game, ids)
  {
    DrainKeepsColumn(s.game.player1, s.input1, 475.0);
    DrainKeepsColumn(s.game.player2, s.input2, 5.0);
  }

  lemma FrameKeepsCourt(local: PongState, deltaTime: int, direction: int, outcome: Outcome, ids: Pair<int>)
    requires IsCourtOf(local, ids)
    ensures IsCourtOf(AfterUpdate(local, deltaTime, direction, outcome), ids)
  {
    MoveKeepsColumn(local.player1, deltaTime, 475.0);
    MoveKeepsColumn(local.player2, deltaTime, 5.0);
    DriveKeepsColumn(local.player1, direction, deltaTime, 475.0);
    DriveKeepsColumn(local.player2, direction, deltaTime, 5.0);
  }

  /** A STATE carries heights, so a snap moves nothing sideways. */
  lemma SnapKeepsCourt(local: PongState, server: PongState, ids: Pair<int>)
    requires IsCourtOf(local, ids)
    ensures IsCourtOf(Snapped(local, server), ids)
  {
  }

  lemma KickoffTravels(g: PongState, ids: Pair<int>, prior: PongState)
    requires IsKickoff(g, ids)
    ensures IsKickoff(ArrivedInit(g, prior), ids)
  {
    CourtTravels();
    BallTravels();
    ExactOnTheWire(0);
  }

  // ---------------------------------------------------------------- every run

  /** A message to a client that opens a round shows the kickoff. */
  ghost predicate OpensAtKickoff(m: StateMsg, ids: Pair<int>) {
    m.packet.PacketInit? ==> IsKickoff(m.packet.state, ids)
  }

  ghost predicate ClientOnCourt(p: Peer, ids: Pair<int>) {
    && (p.round >= 0 ==> IsCourtOf(p.client.local, ids))
    && forall k :: 0 <= k < |p.toClient| ==> OpensAtKickoff(p.toClient[k], ids)
  }

  ghost predicate AllOnCourt(s: State, ids: Pair<int>) {
    IsCourtOf(s.server.game, ids) && ClientOnCourt(s.peers.first, ids) && ClientOnCourt(s.peers.second, ids)
  }

  lemma TickMessageOpens(server: ServerState, outcome: Outcome, round: int, ids: Pair<int>)
    requires outcome.Scored? ==> IsKickoff(server.game, ids)
    ensures OpensAtKickoff(StateMsg(Arrived(TickPacket(server, outcome), ZERO_STATE), round, server.game), ids)
  {
    if outcome.Scored? {
      KickoffTravels(server.game, ids, ZERO_STATE);
    }
  }

  lemma TickKeepsClient(p: Peer, m: StateMsg, drainedMs: int, ids: Pair<int>)
    requires ClientOnCourt(p, ids) && OpensAtKickoff(m, ids)
    ensures ClientOnCourt(PeerAfterTick(p, m, drainedMs), ids)
  {
  }

  lemma DeliverKeepsClient(p: Peer, ids: Pair<int>)
    requires ClientOnCourt(p, ids) && p.toClient != []
    ensures ClientOnCourt(PeerAfterDeliver(p), ids)
  {
    var m, p' := p.toClient[0], PeerAfterDeliver(p);
    assert OpensAtKickoff(m, ids);
    assert forall k :: 0 <= k < |p'.toClient| ==> p'.toClient[k] == p.toClient[k + 1];
    if p.round >= 0 && m.packet.PacketState? {
      SnapKeepsCourt(p.client.local, m.packet.state, ids);
    }
  }

  lemma FrameKeepsClient(p: Peer, deltaTime: int, direction: int, outcome: Outcome, ids: Pair<int>)
    requires ClientOnCourt(p, ids)
    ensures ClientOnCourt(PeerAfterFrame(p, deltaTime, direction, outcome), ids)
  {
    if p.round >= 0 {
      FrameKeepsCourt(p.client.local, deltaTime, direction, outcome, ids);
    }
  }

  lemma MatchTickKeepsCourt(s: State, outcome: Outcome, serve: Vector, ids: Pair<int>)
    requires AllOnCourt(s, ids)
    ensures AllOnCourt(AfterMatchTick(s, outcome, serve), ids)
  {
    var s' := AfterMatchTick(s, outcome, serve);
    TickKeepsCourt(s.server, outcome, serve, ids);
    TickMessageOpens(s'.server, outcome, s'.round, ids);
    var m := StateMsg(Arrived(TickPacket(s'.server, outcome), ZERO_STATE), s'.round, s'.server.game);
    TickKeepsClient(s.peers.first, m, s.server.input1, ids);
    TickKeepsClient(s.peers.second, m, s.server.input2, ids);
  }

  lemma PeerStepKeepsCourt(s: State, i: int, p: Peer, ids: Pair<int>)
    requires AllOnCourt(s, ids) && ClientOnCourt(p, ids)
    ensures AllOnCourt(s.(peers := s.peers.With(i, p)), ids)
  {
  }

  lemma StepKeepsCourt(s: State, a: Action, ids: Pair<int>)
    requires AllOnCourt(s, ids) && Enabled(s, a)
    ensures AllOnCourt(Next(s, a), ids)
  {
    match a
    case Tick(_, outcome, serve) =>
      MatchTickKeepsCourt(s, outcome, serve, ids);
    case Deliver(i) =>
      DeliverKeepsClient(s.peers.At(i), ids);
      PeerStepKeepsCourt(s, i, PeerAfterDeliver(s.peers.At(i)), ids);
    case Frame(i, deltaTime, direction, outcome) =>
      FrameKeepsClient(s.peers.At(i), deltaTime, direction, outcome, ids);
      PeerStepKeepsCourt(s, i, PeerAfterFrame(s.peers.At(i), deltaTime, direction, outcome), ids);
    case Send(_) =>
    case Receive(_) =>
  }

  lemma {:induction false} RunKeepsCourt(s: State, actions: seq<Action>, end: State, ids: Pair<int>)
    requires AllOnCourt(s, ids) && IsRun(s, actions, end)
    ensures AllOnCourt(end, ids)
    decreases |actions|
  {
    if actions != [] {
      StepKeepsCourt(s, actions[0], ids);
      RunKeepsCourt(Next(s, actions[0]), actions[1..], end, ids);
    }
  }

  lemma NewPeerOnCourt(server: ServerState, i: int, id: int, ids: Pair<int>)
    requires IsKickoff(server.game, ids)
    ensures ClientOnCourt(NewPeer(server, i, id), ids)
  {
    KickoffTravels(server.game.(ownIdIndex := i), ids, ZERO_STATE);
  }

  lemma StartOnCourt(id1: int, id2: int, serve: Vector)
    ensures AllOnCourt(Start(id1, id2, serve), Pair(id1, id2))
  {
    var server := Start(id1, id2, serve).server;
    NewPeerOnCourt(server, 0, id1, Pair(id1, id2));
    NewPeerOnCourt(server, 1, id2, Pair(id1, id2));
  }

  lemma ReachableOnCourt(s: State)
    requires Reachable(s)
    ensures AllOnCourt(s, s.server.game.playerIds)
  {
    var id1: int, id2: int, serve, actions :|
      id1 != id2 && IsServe(serve) && IsRun(Start(id1, id2, serve), actions, s);
    StartOnCourt(id1, id2, serve);
    RunKeepsCourt(Start(id1, id2, serve), actions, s, Pair(id1, id2));
  }

  // ---------------------------------------------------------------- what that means

  /** The ids of the two connections. */
  function ConnectedIds(s: State): Pair<int> {
    Pair(s.peers.first.id, s.peers.second.id)
  }

  /** In every reachable state a joined client's copy is of the server's court, paddles in their places and of their
      size, whatever packets and frames came in between, and names as its own the id it connected with. */
  lemma ClientsShareTheCourt(s: State, i: int)
    requires Reachable(s) && 0 <= i < 2
    ensures IsCourtOf(s.server.game, ConnectedIds(s))
    ensures var p := s.peers.At(i);
            p.round >= 0 ==>
              && IsCourtOf(p.client.local, ConnectedIds(s))
              && p.client.local.playerIds.At(p.client.local.ownIdIndex) == p.id
  {
    ReachableOnCourt(s);
    ReachablePeerIsOk(s, i);
  }

  /** An INIT puts a client at the kickoff, goals before it notwithstanding. */
  lemma InitIsKickoff(s: State, i: int)
    requires Reachable(s) && Enabled(s, Deliver(i)) && s.peers.At(i).toClient[0].packet.PacketInit?
    ensures var local, sent := PeerAfterDeliver(s.peers.At(i)).client.local, s.peers.At(i).toClient[0].sent;
            IsKickoff(local, ConnectedIds(s)) && local.ball.velocity == QuantisedVector(sent.ball.velocity)
  {
    ReachableOnCourt(s);
    ReachablePeerIsOk(s, i);
    assert OpensAtKickoff(s.peers.At(i).toClient[0], ConnectedIds(s));
    InitShowsServe(ViewOf(s, i), s.peers.At(i), i);
  }

  lemma InitShowsServe(v: View, p: Peer, i: int)
    requires DownOk(v, p, i) && p.toClient != [] && p.toClient[0].packet.PacketInit?
    ensures PeerAfterDeliver(p).client.local.ball.velocity == QuantisedVector(p.toClient[0].sent.ball.velocity)
  {
    assert MessageOk(p.toClient[0], v.scores, i);
  }

  // ---------------------------------------------------------------- whose goal

  /** The paddle of player `i` is at the other end of the court from the line of index `i`, which lies behind the paddle
      of player `1 - i`. */
  ghost predicate LineIsBehindOpponent(g: PongState, i: int) {
    if i == 0 then COURT.left as real <= g.player2.pos.x < g.player1.pos.x
    else g.player2.pos.x < g.player1.pos.x <= COURT.right as real
  }

  /** A goal is scored over the line behind a paddle, and counts for the client that plays the other one. */
  lemma GoalCountsForTheOther(s: State, a: Action, hyp: real, flight: seq<Flying>)
    requires Reachable(s) && Enabled(s, a) && a.Tick? && a.outcome.Scored?
    requires IsTickFlight(TickArena(s.server, a.deltaTime), s.server.game.ball, hyp, flight, a.outcome)
    ensures var i, score, score' := a.outcome.index, s.server.game.score, Next(s, a).server.game.score;
            && 0 <= i < 2
            && CrossesLine(COURT, flight[|flight| - 1].ball,
                           Remaining(TickArena(s.server, a.deltaTime), flight[|flight| - 1]), i)
            && LineIsBehindOpponent(s.server.game, i) && s.server.game.playerIds.At(i) == s.peers.At(i).id
            && score'.At(i) == score.At(i) + 1 && score'.At(1 - i) == score.At(1 - i)
  {
    ClientsShareTheCourt(s, 0);
    CourtOfGame(s.server.game.boxSize);
    OnlyGoalsCount(s, a);
    GoalCrossesItsLine(TickArena(s.server, a.deltaTime), s.server.game.ball, hyp, flight, a.outcome.index);
  }
}
