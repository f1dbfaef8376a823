/**
 What the round/sync/input protocol keeps, over every run: the clients' sync, scores and indices, and the ledger of
 inputs.
 */
module Agreement {
  import opened FixedPoint
  import opened Vectors
  import opened Engine
  import opened BallLoop
  import opened Game
  import opened Bytes
  import opened Packets
  import opened GameServer
  import opened GameClient
  import opened Match

  /** What one client's invariants need to know about the server. */
  datatype View = View(paddle: GameObj, input: int, round: nat, sync: int, scores: seq<Pair<int>>)

  function ViewOf(s: State, i: int): View {
    View(s.server.game.Player(i), s.server.Input(i), s.round, s.server.sync, s.scores)
  }

  // ---------------------------------------------------------------- the way down

  /** A message to client `i` is what it claims to be. */
  ghost predicate MessageOk(m: StateMsg, scores: seq<Pair<int>>, i: int) {
    && 0 <= m.round < |scores|
    && (m.packet == Arrived(PacketInit(WrapInt8(m.round), m.sent), ZERO_STATE)
        || m.packet == Arrived(PacketState(WrapInt8(m.round), m.sent), ZERO_STATE))
    && (m.packet.PacketInit? ==>
          && m.sent.score == scores[m.round]
          && m.sent.Player(i).pos.y == RESET_Y
          && m.sent.ball.size == BALL_SIZE
          && (m.round == 0 ==> m.sent.ownIdIndex == i))
  }

  /** A client in round `from` that receives all of `ch` ends in round `to`: every INIT starts the next round, and
      every STATE belongs to the round the client is in when it arrives. */
  ghost predicate Channel(ch: seq<StateMsg>, from: int, to: int, scores: seq<Pair<int>>, i: int)
    decreases |ch|
  {
    if ch == [] then from == to
    else
      && MessageOk(ch[0], scores, i)
      && if ch[0].packet.PacketInit? then ch[0].round == from + 1 && Channel(ch[1..], from + 1, to, scores, i)
         else from >= 0 && ch[0].round == from && Channel(ch[1..], from, to, scores, i)
  }

  lemma {:induction false} ChannelGoesUp(ch: seq<StateMsg>, from: int, to: int, scores: seq<Pair<int>>, i: int)
    requires Channel(ch, from, to, scores, i)
    ensures from <= to
    decreases |ch|
  {
    if ch != [] {
      ChannelGoesUp(ch[1..], if ch[0].packet.PacketInit? then from + 1 else from, to, scores, i);
    }
  }

  lemma {:induction false} ChannelAppend(ch: seq<StateMsg>, from: int, to: int, scores: seq<Pair<int>>, i: int,
                                         m: StateMsg)
    requires Channel(ch, from, to, scores, i) && MessageOk(m, scores, i)
    requires if m.packet.PacketInit? then m.round == to + 1 else m.round == to && to >= 0
    ensures Channel(ch + [m], from, m.round, scores, i)
    decreases |ch|
  {
    if ch == [] {
      assert [m][1..] == [];
    } else {
      assert (ch + [m])[1..] == ch[1..] + [m];
      ChannelAppend(ch[1..], if ch[0].packet.PacketInit? then from + 1 else from, to, scores, i, m);
    }
  }

  lemma {:induction false} ChannelKeepsScores(ch: seq<StateMsg>, from: int, to: int, scores: seq<Pair<int>>,
                                              more: seq<Pair<int>>, i: int)
    requires Channel(ch, from, to, scores, i) && scores <= more
    ensures Channel(ch, from, to, more, i)
    decreases |ch|
  {
    if ch != [] {
      ChannelKeepsScores(ch[1..], if ch[0].packet.PacketInit? then from + 1 else from, to, scores, more, i);
    }
  }

  ghost predicate DownOk(v: View, p: Peer, i: int) {
    && v.sync == WrapInt8(v.round)
    && |v.scores| == v.round + 1
    && p.round >= -1
    && Channel(p.toClient, p.round, v.round, v.scores, i)
    && (p.round >= 0 ==>
          && p.round < |v.scores|
          && p.client.sync == WrapInt8(p.round)
          && p.client.local.ownIdIndex == i
          && p.client.local.score == v.scores[p.round])
  }

  lemma WrapOfSuccessor(x: int)
    ensures WrapInt8(WrapInt8(x) + 1) == WrapInt8(x + 1)
  {
  }

  /** What the server's tick does to what one client's invariants see. */
  ghost predicate TickedView(v: View, v': View, outcome: Outcome, i: int) {
    if outcome.Moved? then v' == v.(paddle := Drained(v.paddle, v.input), input := 0)
    else
      && v'.paddle == InitPaddle(if i == 0 then 475.0 else 5.0) && v'.input == 0
      && v'.round == v.round + 1 && v'.sync == WrapInt8(v.sync + 1)
      && |v'.scores| == |v.scores| + 1 && v.scores <= v'.scores
  }

  /** The message a tick broadcasts. */
  ghost predicate TickMessage(m: StateMsg, v': View, outcome: Outcome, i: int) {
    && m.round == v'.round
    && (var p := if outcome.Scored? then PacketInit(v'.sync, m.sent) else PacketState(v'.sync, m.sent);
        m.packet == Arrived(p, ZERO_STATE))
    && (outcome.Scored? ==>
          && |v'.scores| > 0 && m.sent.score == v'.scores[|v'.scores| - 1]
          && m.sent.Player(i).pos.y == RESET_Y && m.sent.ball.size == BALL_SIZE)
  }

  lemma TickIsSeen(s: State, outcome: Outcome, serve: Vector, i: int)
    requires 0 <= i < 2 && |s.scores| == s.round + 1
    ensures var s' := AfterMatchTick(s, outcome, serve);
            && TickedView(ViewOf(s, i), ViewOf(s', i), outcome, i)
            && |s'.peers.At(i).toClient| > 0
            && TickMessage(s'.peers.At(i).toClient[|s'.peers.At(i).toClient| - 1], ViewOf(s', i), outcome, i)
            && var m := s'.peers.At(i).toClient[|s'.peers.At(i).toClient| - 1];
               s'.peers.At(i) == PeerAfterTick(s.peers.At(i), m, s.server.Input(i))
  {
  }

  /** The message of a tick fits behind those on their way. */
  lemma TickKeepsChannel(v: View, v': View, p: Peer, m: StateMsg, outcome: Outcome, i: int)
    requires DownOk(v, p, i) && TickedView(v, v', outcome, i) && MessageOk(m, v'.scores, i)
    requires m.round == v'.round && m.packet.PacketInit? == outcome.Scored?
    ensures Channel(p.toClient + [m], p.round, v'.round, v'.scores, i) && p.round <= v.round
  {
    ChannelGoesUp(p.toClient, p.round, v.round, v.scores, i);
    ChannelKeepsScores(p.toClient, p.round, v.round, v.scores, v'.scores, i);
    ChannelAppend(p.toClient, p.round, v.round, v'.scores, i, m);
  }

  lemma TickMessageIsOk(v: View, v': View, p: Peer, m: StateMsg, outcome: Outcome, i: int)
    requires DownOk(v, p, i) && TickedView(v, v', outcome, i) && TickMessage(m, v', outcome, i)
    ensures MessageOk(m, v'.scores, i) && m.packet.PacketInit? == outcome.Scored?
    ensures v'.sync == WrapInt8(v'.round) && |v'.scores| == v'.round + 1
  {
    WrapOfSuccessor(v.round);
  }

  lemma TickKeepsDown(v: View, v': View, p: Peer, m: StateMsg, outcome: Outcome, i: int)
    requires DownOk(v, p, i) && TickedView(v, v', outcome, i) && TickMessage(m, v', outcome, i)
    ensures DownOk(v', PeerAfterTick(p, m, v.input), i)
  {
    TickMessageIsOk(v, v', p, m, outcome, i);
    TickKeepsChannel(v, v', p, m, outcome, i);
  }

  /** What an INIT at the head says. */
  lemma InitAtHead(ch: seq<StateMsg>, from: int, to: int, scores: seq<Pair<int>>, i: int)
    requires Channel(ch, from, to, scores, i) && ch != [] && ch[0].packet.PacketInit?
    ensures MessageOk(ch[0], scores, i) && ch[0].round == from + 1 <= to && Channel(ch[1..], from + 1, to, scores, i)
  {
    ChannelGoesUp(ch[1..], from + 1, to, scores, i);
  }

  lemma InitKeepsDown(v: View, p: Peer, i: int)
    requires DownOk(v, p, i) && p.toClient != [] && p.toClient[0].packet.PacketInit? && v.scores[0] == Pair(0, 0)
    ensures DownOk(v, PeerAfterDeliver(p), i)
  {
    InitAtHead(p.toClient, p.round, v.round, v.scores, i);
  }

  lemma StateKeepsDown(v: View, p: Peer, i: int)
    requires DownOk(v, p, i) && p.toClient != [] && !p.toClient[0].packet.PacketInit?
    ensures DownOk(v, PeerAfterDeliver(p), i)
  {
  }

  lemma DeliverKeepsDown(v: View, p: Peer, i: int)
    requires DownOk(v, p, i) && p.toClient != [] && v.scores[0] == Pair(0, 0)
    ensures DownOk(v, PeerAfterDeliver(p), i)
  {
    if p.toClient[0].packet.PacketInit? {
      InitKeepsDown(v, p, i);
    } else {
      StateKeepsDown(v, p, i);
    }
  }

  // ---------------------------------------------------------------- the ledger

  ghost function TotalInFlight(ch: seq<InputMsg>): int {
    if ch == [] then 0 else Amount(ch[0]) + TotalInFlight(ch[1..])
  }

  lemma {:induction false} TotalInFlightAppend(ch: seq<InputMsg>, m: InputMsg)
    ensures TotalInFlight(ch + [m]) == TotalInFlight(ch) + Amount(m)
  {
    if ch == [] {
      assert [m][1..] == [];
    } else {
      assert (ch + [m])[1..] == ch[1..] + [m];
      TotalInFlightAppend(ch[1..], m);
    }
  }

  /** Every millisecond a player ever typed is in exactly one place. */
  ghost predicate Ledger(v: View, p: Peer) {
    p.generated == p.client.inputAccMs + p.discarded + TotalInFlight(p.toServer) + p.rejected + v.input + p.drained
  }

  lemma SendKeepsLedger(v: View, p: Peer)
    requires Ledger(v, p)
    ensures Ledger(v, PeerAfterSend(p))
  {
    TotalInFlightAppend(p.toServer, InputMsg(InputPacket(p.client), p.round, p.pending));
  }

  /** The players of the server's game are the two clients, in the order of their connection. */
  ghost predicate PlayersAreConnected(s: State) {
    && s.server.game.playerIds == Pair(s.peers.first.id, s.peers.second.id)
    && s.peers.first.id != s.peers.second.id
  }

  /** Receiving moves the amount into the server's input or among the rejected. */
  lemma ReceiveIsSeen(s: State, i: int)
    requires Enabled(s, Receive(i)) && PlayersAreConnected(s)
    ensures var m, s' := s.peers.At(i).toServer[0], Next(s, Receive(i));
            var taken := if Accepts(s.server, m) then Amount(m) else 0;
            && ViewOf(s', i) == ViewOf(s, i).(input := s.server.Input(i) + taken)
            && ViewOf(s', 1 - i) == ViewOf(s, 1 - i)
            && s'.server.game == s.server.game
  {
  }

  // ---------------------------------------------------------------- all runs

  /** The server's own bookkeeping: the players are the two clients, and the score adds up to the round. */
  ghost predicate ServerOk(s: State) {
    && PlayersAreConnected(s)
    && |s.scores| == s.round + 1
    && s.scores[0] == Pair(0, 0)
    && s.server.game.score == s.scores[s.round]
    && (forall k :: 0 <= k < |s.scores| ==> s.scores[k].first + s.scores[k].second == k)
  }

  ghost predicate PeerIsOk(v: View, p: Peer, i: int) {
    DownOk(v, p, i) && Ledger(v, p)
  }

  ghost predicate PeerOk(s: State, i: int) {
    PeerIsOk(ViewOf(s, i), s.peers.At(i), i)
  }

  ghost predicate Always(s: State) {
    ServerOk(s) && PeerOk(s, 0) && PeerOk(s, 1)
  }

  lemma TickKeepsServer(s: State, outcome: Outcome, serve: Vector)
    requires ServerOk(s)
    ensures ServerOk(AfterMatchTick(s, outcome, serve))
  {
    var s' := AfterMatchTick(s, outcome, serve);
    if outcome.Scored? {
      assert forall k :: 0 <= k < |s.scores| ==> s'.scores[k] == s.scores[k];
    }
  }

  lemma TickKeepsAlways(s: State, outcome: Outcome, serve: Vector)
    requires Always(s)
    ensures Always(AfterMatchTick(s, outcome, serve))
  {
    TickKeepsPeer(s, outcome, serve, 0);
    TickKeepsPeer(s, outcome, serve, 1);
    TickKeepsServer(s, outcome, serve);
  }

  lemma TickKeepsPeer(s: State, outcome: Outcome, serve: Vector, i: int)
    requires 0 <= i < 2 && ServerOk(s) && PeerOk(s, i)
    ensures PeerOk(AfterMatchTick(s, outcome, serve), i)
  {
    var s' := AfterMatchTick(s, outcome, serve);
    TickIsSeen(s, outcome, serve, i);
    var ch := s'.peers.At(i).toClient;
    TickKeepsDown(ViewOf(s, i), ViewOf(s', i), s.peers.At(i), ch[|ch| - 1], outcome, i);
  }

  lemma DeliverKeepsPeer(v: View, p: Peer, i: int)
    requires PeerIsOk(v, p, i) && p.toClient != [] && |v.scores| > 0 && v.scores[0] == Pair(0, 0)
    ensures PeerIsOk(v, PeerAfterDeliver(p), i)
  {
    DeliverKeepsDown(v, p, i);
  }

  lemma FrameKeepsPeer(v: View, p: Peer, i: int, deltaTime: int, direction: int, outcome: Outcome)
    requires PeerIsOk(v, p, i)
    ensures PeerIsOk(v, PeerAfterFrame(p, deltaTime, direction, outcome), i)
  {
  }

  lemma SendKeepsPeer(v: View, p: Peer, i: int)
    requires PeerIsOk(v, p, i)
    ensures PeerIsOk(v, PeerAfterSend(p), i)
  {
    SendKeepsLedger(v, p);
  }

  lemma ReceiveKeepsPeer(v: View, p: Peer, i: int, accepts: bool)
    requires PeerIsOk(v, p, i) && p.toServer != []
    ensures var taken := if accepts then Amount(p.toServer[0]) else 0;
            PeerIsOk(v.(input := v.input + taken), PeerAfterReceive(p, accepts), i)
  {
  }

  /** A step of one client alone. */
  lemma PeerStepKeepsAlways(s: State, i: int, p: Peer)
    requires Always(s) && 0 <= i < 2 && PeerIsOk(ViewOf(s, i), p, i) && p.id == s.peers.At(i).id
    ensures Always(s.(peers := s.peers.With(i, p)))
  {
    var s' := s.(peers := s.peers.With(i, p));
    assert ViewOf(s', 0) == ViewOf(s, 0) && ViewOf(s', 1) == ViewOf(s, 1);
  }

  lemma ReceiveKeepsOwn(s: State, i: int)
    requires ServerOk(s) && Enabled(s, Receive(i)) && PeerOk(s, i)
    ensures PeerOk(Next(s, Receive(i)), i)
  {
    var m, s' := s.peers.At(i).toServer[0], Next(s, Receive(i));
    ReceiveIsSeen(s, i);
    ReceiveKeepsPeer(ViewOf(s, i), s.peers.At(i), i, Accepts(s.server, m));
    assert s'.peers.At(i) == PeerAfterReceive(s.peers.At(i), Accepts(s.server, m));
  }

  lemma ReceiveKeepsOther(s: State, i: int)
    requires ServerOk(s) && Enabled(s, Receive(i)) && PeerOk(s, 1 - i)
    ensures PeerOk(Next(s, Receive(i)), 1 - i)
  {
    ReceiveIsSeen(s, i);
    assert Next(s, Receive(i)).peers.At(1 - i) == s.peers.At(1 - i);
  }

  lemma ReceiveKeepsServer(s: State, i: int)
    requires ServerOk(s) && Enabled(s, Receive(i))
    ensures ServerOk(Next(s, Receive(i)))
  {
    ReceiveIsSeen(s, i);
  }

  lemma Assemble(s: State, i: int)
    requires 0 <= i < 2 && ServerOk(s) && PeerOk(s, i) && PeerOk(s, 1 - i)
    ensures Always(s)
  {
  }

  lemma ReceiveKeepsAlways(s: State, i: int)
    requires Always(s) && Enabled(s, Receive(i))
    ensures Always(Next(s, Receive(i)))
  {
    AlwaysOfOne(s, i);
    AlwaysOfOne(s, 1 - i);
    ReceiveKeepsServer(s, i);
    ReceiveKeepsOwn(s, i);
    ReceiveKeepsOther(s, i);
    Assemble(Next(s, Receive(i)), i);
  }

  lemma DeliverKeepsAlways(s: State, i: int)
    requires Always(s) && Enabled(s, Deliver(i))
    ensures Always(Next(s, Deliver(i)))
  {
    AlwaysOfOne(s, i);
    DeliverKeepsPeer(ViewOf(s, i), s.peers.At(i), i);
    PeerStepKeepsAlways(s, i, PeerAfterDeliver(s.peers.At(i)));
  }

  lemma FrameKeepsAlways(s: State, a: Action)
    requires Always(s) && a.Frame? && Enabled(s, a)
    ensures Always(Next(s, a))
  {
    AlwaysOfOne(s, a.i);
    FrameKeepsPeer(ViewOf(s, a.i), s.peers.At(a.i), a.i, a.deltaTime, a.direction, a.outcome);
    PeerStepKeepsAlways(s, a.i, PeerAfterFrame(s.peers.At(a.i), a.deltaTime, a.direction, a.outcome));
  }

  lemma SendKeepsAlways(s: State, i: int)
    requires Always(s) && Enabled(s, Send(i))
    ensures Always(Next(s, Send(i)))
  {
    AlwaysOfOne(s, i);
    SendKeepsPeer(ViewOf(s, i), s.peers.At(i), i);
    PeerStepKeepsAlways(s, i, PeerAfterSend(s.peers.At(i)));
  }

  lemma StepKeepsAlways(s: State, a: Action)
    requires Always(s) && Enabled(s, a)
    ensures Always(Next(s, a))
  {
    match a
    case Tick(_, outcome, serve) => TickKeepsAlways(s, outcome, serve);
    case Deliver(i) => DeliverKeepsAlways(s, i);
    case Frame(_, _, _, _) => FrameKeepsAlways(s, a);
    case Send(i) => SendKeepsAlways(s, i);
    case Receive(i) => ReceiveKeepsAlways(s, i);
  }

  lemma StartIsOk(id1: int, id2: int, serve: Vector)
    requires id1 != id2
    ensures Always(Start(id1, id2, serve))
  {
    var s := Start(id1, id2, serve);
    assert s.peers.first.toClient[1..] == [] && s.peers.second.toClient[1..] == [];
  }

  lemma {:induction false} RunKeepsAlways(s: State, actions: seq<Action>, end: State)
    requires Always(s) && IsRun(s, actions, end)
    ensures Always(end)
    decreases |actions|
  {
    if actions != [] {
      StepKeepsAlways(s, actions[0]);
      RunKeepsAlways(Next(s, actions[0]), actions[1..], end);
    }
  }

  lemma ReachableIsOk(s: State)
    requires Reachable(s)
    ensures Always(s)
  {
    var id1: int, id2: int, serve, actions :|
      id1 != id2 && IsServe(serve) && IsRun(Start(id1, id2, serve), actions, s);
    StartIsOk(id1, id2, serve);
    RunKeepsAlways(Start(id1, id2, serve), actions, s);
  }

  lemma ReachablePeerIsOk(s: State, i: int)
    requires Reachable(s) && 0 <= i < 2
    ensures ServerOk(s) && PeerIsOk(ViewOf(s, i), s.peers.At(i), i)
  {
    ReachableIsOk(s);
    AlwaysOfOne(s, i);
  }

  lemma AlwaysOfOne(s: State, i: int)
    requires Always(s) && 0 <= i < 2
    ensures ServerOk(s) && PeerIsOk(ViewOf(s, i), s.peers.At(i), i)
  {
    if i == 0 {
      assert PeerOk(s, 0);
    } else {
      assert PeerOk(s, 1);
    }
  }

  // ---------------------------------------------------------------- what that means

  /** What the server makes of the message at the head of client `i`'s queue. An accepted amount is added to the input
      that steers this client's paddle, and to nothing else; a rejected one changes nothing. */
  ghost predicate ReachesItsPlayer(s: State, i: int, s': ServerState)
    requires Enabled(s, Receive(i))
  {
    var m := s.peers.At(i).toServer[0];
    && s'.Input(i) == s.server.Input(i) + (if Accepts(s.server, m) then Amount(m) else 0)
    && s'.Input(1 - i) == s.server.Input(1 - i)
    && s'.game == s.server.game && s'.sync == s.server.sync
  }

  lemma OwnInputIsTaken(s: State, i: int)
    requires Enabled(s, Receive(i)) && PlayersAreConnected(s)
    ensures ReachesItsPlayer(s, i, AfterInput(s.server, s.peers.At(i).id, s.peers.At(i).toServer[0].packet))
  {
  }

  /** In every run the server credits what a client typed to the paddle of the client that typed it: the ids that came
      with the two connections are the ones it looks the sender up by. */
  lemma InputReachesItsPlayer(s: State, i: int)
    requires Reachable(s) && Enabled(s, Receive(i))
    ensures s.server.game.playerIds.At(i) == s.peers.At(i).id != s.peers.At(1 - i).id
    ensures ReachesItsPlayer(s, i, Next(s, Receive(i)).server)
  {
    ReachablePeerIsOk(s, i);
    OwnInputIsTaken(s, i);
  }

  /** Nobody else's packet counts, and no packet but an input. */
  lemma StrangersAreIgnored(s: State, id: int, p: Packet)
    requires Reachable(s)
    requires (id != s.peers.first.id && id != s.peers.second.id) || !p.PacketInput?
    ensures AfterInput(s.server, id, p) == s.server
  {
    ReachablePeerIsOk(s, 0);
  }

  /** The motion a snap takes over: the ball's, and the opponent's height and velocity. */
  ghost predicate ShowsMotionOf(local: PongState, i: int, sent: PongState) {
    && local.ball.pos == QuantisedVector(sent.ball.pos)
    && local.ball.velocity == QuantisedVector(sent.ball.velocity)
    && local.Player(1 - i).pos.y == Quantise(sent.Player(1 - i).pos.y)
    && local.Player(1 - i).velocity.y == Quantise(sent.Player(1 - i).velocity.y)
  }

  lemma SnapShows(c: ClientState, sync: int, sent: PongState, i: int)
    requires 0 <= i < 2 && c.local.ownIdIndex == i
    ensures var local := AfterPacket(c, Arrived(PacketState(sync, sent), ZERO_STATE)).local;
            ShowsMotionOf(local, i, sent) && local.Player(i) == c.local.Player(i) && local.score == c.local.score
  {
  }

  /** The client is in the round of the STATE; the snap shows what the server sent and leaves the rest alone. */
  ghost predicate TakesOver(p: Peer, m: StateMsg, after: ClientState, i: int) {
    && p.round == m.round >= 0
    && m.packet.sync == p.client.sync
    && m.packet.PacketState? && after.server == m.packet.state
    && ShowsMotionOf(after.local, i, m.sent)
    && after.local.Player(i) == p.client.local.Player(i)
    && after.local.score == p.client.local.score
    && after.sync == p.client.sync && after.inputAccMs == p.client.inputAccMs
  }

  lemma StateIsTakenOver(v: View, p: Peer, i: int)
    requires 0 <= i < 2 && DownOk(v, p, i) && p.toClient != [] && p.toClient[0].packet.PacketState?
    ensures TakesOver(p, p.toClient[0], PeerAfterDeliver(p).client, i)
  {
    var m := p.toClient[0];
    SnapShows(p.client, WrapInt8(m.round), m.sent, i);
    assert m.packet == Arrived(PacketState(WrapInt8(m.round), m.sent), ZERO_STATE);
  }

  /** The client never compares the sync of a STATE with its own, and need not: in every run they are equal. */
  lemma StateArrivesInItsRound(s: State, i: int)
    requires Reachable(s) && Enabled(s, Deliver(i)) && s.peers.At(i).toClient[0].packet.PacketState?
    ensures TakesOver(s.peers.At(i), s.peers.At(i).toClient[0], PeerAfterDeliver(s.peers.At(i)).client, i)
  {
    ReachablePeerIsOk(s, i);
    StateIsTakenOver(ViewOf(s, i), s.peers.At(i), i);
  }

  /** The client enters the next round, with a reset paddle and no input. */
  ghost predicate EntersNextRound(p: Peer, p': Peer, i: int) {
    && p'.round == p.round + 1
    && p'.client.sync == WrapInt8(p'.round)
    && p'.client.local.Player(i).pos.y == RESET_Y
    && p'.client.local.ownIdIndex == i
    && (p.round >= 0 ==> p'.client.inputAccMs == 0)
    && p'.client.server == p.client.server
  }

  lemma QuantisedReset()
    ensures Quantise(RESET_Y) == RESET_Y
  {
    FixedRoundTrip(1600000);
    assert FromFixed(1600000) == RESET_Y;
  }

  lemma InitIsEntered(v: View, p: Peer, i: int)
    requires 0 <= i < 2 && DownOk(v, p, i) && p.toClient != [] && p.toClient[0].packet.PacketInit?
    ensures EntersNextRound(p, PeerAfterDeliver(p), i)
  {
    QuantisedReset();
  }

  /** A client enters the rounds one by one. */
  lemma InitStartsTheNextRound(s: State, i: int)
    requires Reachable(s) && Enabled(s, Deliver(i)) && s.peers.At(i).toClient[0].packet.PacketInit?
    ensures EntersNextRound(s.peers.At(i), PeerAfterDeliver(s.peers.At(i)), i)
  {
    ReachablePeerIsOk(s, i);
    InitIsEntered(ViewOf(s, i), s.peers.At(i), i);
  }

  /** The score is the round counter, of which sync is the low byte; a client shows the score of the round it is in, and
      knows its own index although every later INIT carries the server's copy. */
  ghost predicate RoundIsShown(s: State, i: int) {
    && s.server.game.score.first + s.server.game.score.second == s.round
    && s.server.sync == WrapInt8(s.round)
    && |s.scores| == s.round + 1
    && var p := s.peers.At(i);
       && p.round <= s.round
       && (p.round >= 0 ==>
             && p.client.sync == WrapInt8(p.round)
             && p.client.local.score == s.scores[p.round]
             && p.client.local.score.first + p.client.local.score.second == p.round
             && p.client.local.ownIdIndex == i)
  }

  lemma OkPeerShowsRound(s: State, i: int)
    requires 0 <= i < 2 && ServerOk(s) && PeerIsOk(ViewOf(s, i), s.peers.At(i), i)
    ensures RoundIsShown(s, i)
  {
    var p := s.peers.At(i);
    ChannelGoesUp(p.toClient, p.round, s.round, s.scores, i);
  }

  lemma ScoreIsTheRound(s: State, i: int)
    requires Reachable(s) && 0 <= i < 2
    ensures RoundIsShown(s, i)
  {
    ReachablePeerIsOk(s, i);
    OkPeerShowsRound(s, i);
  }

  /** No millisecond of input is lost or counted twice. */
  lemma InputIsConserved(s: State, i: int)
    requires Reachable(s) && 0 <= i < 2
    ensures Ledger(ViewOf(s, i), s.peers.At(i))
  {
    ReachablePeerIsOk(s, i);
  }
}
