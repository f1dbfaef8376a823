/**
 What a predicted goal does to a client. `ball_advance` leaves the blank output ball in place, size included, and a
 STATE brings back position and velocity but no size. So a client's ball has its size exactly as long as the client
 has predicted no goal in its round; after that it has no extent until the next INIT, whether the server saw a goal or
 not.
 */
module BlankBall {
  import opened Vectors
  import opened Engine
  import opened BallLoop
  import opened BallInPlay
  import opened Game
  import opened GameClient
  import opened Match
  import opened Agreement
  import opened Opening
  import opened GoalShot

  predicate Blank(p: Peer) {
    p.client.local.ball.size == ZERO_VECTOR
  }

  /** A joined client's ball is as large as the server's, or has no size at all. */
  ghost predicate SizeOk(p: Peer) {
    p.round >= 0 ==> p.client.local.ball.size == if p.predictedGoals == 0 then BALL_SIZE else ZERO_VECTOR
  }

  lemma FateKeepsSize(a: Arena, ball: GameObj, ball': GameObj, hyp': real)
    requires BallFate(a, ball, Moved(ball', hyp'))
    ensures ball'.size == ball.size
  {
    var hyp, flight :| IsTickFlight(a, ball, hyp, flight, Moved(ball', hyp'));
    FlightStartsAtSpeed(a, ball, hyp, flight, Moved(ball', hyp'));
    var k := FlightStretches(a, flight);
  }

  lemma FrameKeepsSizeOk(p: Peer, deltaTime: int, direction: int, outcome: Outcome)
    requires SizeOk(p) && p.round >= 0
    requires BallFate(FrameArena(p.client.local, deltaTime), p.client.local.ball, outcome)
    ensures SizeOk(PeerAfterFrame(p, deltaTime, direction, outcome))
  {
    if outcome.Moved? {
      FateKeepsSize(FrameArena(p.client.local, deltaTime), p.client.local.ball, outcome.ball, outcome.hyp);
    }
  }

  lemma DeliverKeepsSizeOk(v: View, p: Peer, i: int)
    requires 0 <= i < 2 && DownOk(v, p, i) && p.toClient != [] && SizeOk(p)
    ensures SizeOk(PeerAfterDeliver(p))
  {
    BallTravels();
  }

  lemma DeliveryKeepsSizeOk(s: State, i: int)
    requires Always(s) && Enabled(s, Deliver(i)) && SizeOk(s.peers.At(i))
    ensures SizeOk(PeerAfterDeliver(s.peers.At(i)))
  {
    AlwaysOfOne(s, i);
    DeliverKeepsSizeOk(ViewOf(s, i), s.peers.At(i), i);
  }

  lemma PeerStepKeepsSizeOk(s: State, i: int, p: Peer, j: int)
    requires 0 <= i < 2 && 0 <= j < 2 && SizeOk(s.peers.At(j)) && SizeOk(p)
    ensures SizeOk(s.(peers := s.peers.With(i, p)).peers.At(j))
  {
  }

  /** The server's own steps do not touch the clients. */
  lemma ServerLeavesClients(s: State, a: Action, j: int)
    requires Enabled(s, a) && (a.Tick? || a.Receive?) && 0 <= j < 2
    ensures var p, p' := s.peers.At(j), Next(s, a).peers.At(j);
            p'.client == p.client && p'.round == p.round && p'.predictedGoals == p.predictedGoals
  {
  }

  lemma StepKeepsSizeOk(s: State, a: Action, j: int)
    requires Always(s) && Enabled(s, a) && 0 <= j < 2 && SizeOk(s.peers.At(0)) && SizeOk(s.peers.At(1))
    ensures SizeOk(Next(s, a).peers.At(j))
  {
    match a
    case Tick(_, _, _) => ServerLeavesClients(s, a, j);
    case Deliver(i) =>
      DeliveryKeepsSizeOk(s, i);
      PeerStepKeepsSizeOk(s, i, PeerAfterDeliver(s.peers.At(i)), j);
    case Frame(i, deltaTime, direction, outcome) =>
      FrameKeepsSizeOk(s.peers.At(i), deltaTime, direction, outcome);
      PeerStepKeepsSizeOk(s, i, PeerAfterFrame(s.peers.At(i), deltaTime, direction, outcome), j);
    case Send(i) =>
      PeerStepKeepsSizeOk(s, i, PeerAfterSend(s.peers.At(i)), j);
    case Receive(_) => ServerLeavesClients(s, a, j);
  }

  lemma {:induction false} RunKeepsSizeOk(s: State, actions: seq<Action>, end: State)
    requires Always(s) && IsRun(s, actions, end) && SizeOk(s.peers.At(0)) && SizeOk(s.peers.At(1))
    ensures SizeOk(end.peers.At(0)) && SizeOk(end.peers.At(1))
    decreases |actions|
  {
    if actions != [] {
      StepKeepsSizeOk(s, actions[0], 0);
      StepKeepsSizeOk(s, actions[0], 1);
      StepKeepsAlways(s, actions[0]);
      RunKeepsSizeOk(Next(s, actions[0]), actions[1..], end);
    }
  }

  /** In every run: a joined client's ball has its size if and only if the client has predicted no goal since it
      entered its round, and otherwise it has none. */
  lemma SizeTellsPredictedGoals(s: State, i: int)
    requires Reachable(s) && 0 <= i < 2
    ensures SizeOk(s.peers.At(i))
  {
    var id1: int, id2: int, serve, actions :|
      id1 != id2 && IsServe(serve) && IsRun(Start(id1, id2, serve), actions, s);
    StartIsOk(id1, id2, serve);
    NobodyHasJoined(id1, id2, serve);
    RunKeepsSizeOk(Start(id1, id2, serve), actions, s);
    assert i == 0 || i == 1;
  }

  lemma NobodyHasJoined(id1: int, id2: int, serve: Vector)
    ensures var s := Start(id1, id2, serve); SizeOk(s.peers.At(0)) && SizeOk(s.peers.At(1))
  {
  }

  /** The server is still in the client's round and has seen no goal at all. */
  ghost predicate NoGoalYet(s: State, i: int) {
    s.peers.At(i).round == s.round == 0 && s.server.game.score == Pair(0, 0)
  }

  /** The client can see a goal that the server does not: a state is reachable in which a client's ball is blank, and
      the server is in the same round without a goal. */
  lemma BlankWithoutGoal(id1: int, id2: int) returns (s: State)
    requires id1 != id2
    ensures Reachable(s) && Blank(s.peers.At(0)) && NoGoalYet(s, 0)
  {
    s := TypeSixSeconds(id1, id2);
  }

  // ---------------------------------------------------------------- for the rest of the round

  /** The client does not go back to an earlier round, and a blank ball stays blank within a round. */
  ghost predicate StaysBlank(p: Peer, p': Peer) {
    p.round <= p'.round && (p'.round == p.round && Blank(p) ==> Blank(p'))
  }

  lemma FrameStaysBlank(p: Peer, deltaTime: int, direction: int, outcome: Outcome)
    requires BallFate(FrameArena(p.client.local, deltaTime), p.client.local.ball, outcome)
    ensures StaysBlank(p, PeerAfterFrame(p, deltaTime, direction, outcome))
  {
    if outcome.Moved? {
      FateKeepsSize(FrameArena(p.client.local, deltaTime), p.client.local.ball, outcome.ball, outcome.hyp);
    }
  }

  lemma DeliverStaysBlank(v: View, p: Peer, i: int)
    requires 0 <= i < 2 && DownOk(v, p, i) && p.toClient != []
    ensures StaysBlank(p, PeerAfterDeliver(p))
  {
    if p.toClient[0].packet.PacketInit? {
      InitIsEntered(v, p, i);
    }
  }

  lemma DeliveryStaysBlank(s: State, i: int)
    requires Always(s) && Enabled(s, Deliver(i))
    ensures StaysBlank(s.peers.At(i), PeerAfterDeliver(s.peers.At(i)))
  {
    AlwaysOfOne(s, i);
    DeliverStaysBlank(ViewOf(s, i), s.peers.At(i), i);
  }

  lemma PeerStepStaysBlank(s: State, i: int, p: Peer, j: int)
    requires 0 <= i < 2 && 0 <= j < 2 && StaysBlank(s.peers.At(i), p)
    ensures StaysBlank(s.peers.At(j), s.(peers := s.peers.With(i, p)).peers.At(j))
  {
  }

  lemma StepStaysBlank(s: State, a: Action, j: int)
    requires Always(s) && Enabled(s, a) && 0 <= j < 2
    ensures StaysBlank(s.peers.At(j), Next(s, a).peers.At(j))
  {
    match a
    case Tick(_, _, _) => ServerLeavesClients(s, a, j);
    case Deliver(i) =>
      DeliveryStaysBlank(s, i);
      PeerStepStaysBlank(s, i, PeerAfterDeliver(s.peers.At(i)), j);
    case Frame(i, deltaTime, direction, outcome) =>
      FrameStaysBlank(s.peers.At(i), deltaTime, direction, outcome);
      PeerStepStaysBlank(s, i, PeerAfterFrame(s.peers.At(i), deltaTime, direction, outcome), j);
    case Send(i) =>
      PeerStepStaysBlank(s, i, PeerAfterSend(s.peers.At(i)), j);
    case Receive(_) => ServerLeavesClients(s, a, j);
  }

  /** However many frames, packets and ticks later: in the same round, a blank ball is still blank. */
  lemma {:induction false} BlankForTheRound(s: State, actions: seq<Action>, end: State, i: int)
    requires Always(s) && IsRun(s, actions, end) && 0 <= i < 2
    ensures StaysBlank(s.peers.At(i), end.peers.At(i))
    decreases |actions|
  {
    if actions != [] {
      StepStaysBlank(s, actions[0], i);
      StepKeepsAlways(s, actions[0]);
      BlankForTheRound(Next(s, actions[0]), actions[1..], end, i);
    }
  }
}
