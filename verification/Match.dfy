/**
 One room: the server, two clients, and four FIFO channels, as a step relation. Each handler of the sources is one
 step: a server tick, the receipt of an input, the receipt of a packet by a client, a frame, a network update.

 Beside the programs' own state a match carries history: the round (the number of goals so far, of which the programs
 only keep the low byte as sync), where each accumulated millisecond was typed, and running totals.
 */
module Match {
  import opened Vectors
  import opened Engine
  import opened BallLoop
  import opened Game
  import opened Packets
  import opened GameServer
  import opened GameClient

  /** Milliseconds accumulated by one frame, and the round the client was in then. */
  datatype Contribution = Contribution(round: int, ms: int)

  /** A packet on its way to the server; `round` is the sender's round, `log` what its amount is made of. */
  datatype InputMsg = InputMsg(packet: Packet, round: int, log: seq<Contribution>)

  /** A packet on its way to a client, as it will arrive; `sent` is the server's game when it was sent. */
  datatype StateMsg = StateMsg(packet: Packet, round: int, sent: PongState)

  /** One client and everything kept per client. Before joining, its round is -1. */
  datatype Peer = Peer(
    id: int,                       // the socket it connected with
    client: ClientState,
    toServer: seq<InputMsg>,
    toClient: seq<StateMsg>,
    // history
    round: int,
    pending: seq<Contribution>,    // what the client's accumulated input is made of
    accepted: seq<Contribution>,   // what the server's undrained input for this player is made of
    generated: int,
    discarded: int,
    rejected: int,
    drained: int,
    predictedGoals: nat            // frames since the client entered its round that ended in a goal
  )

  datatype Peers = Peers(first: Peer, second: Peer) {
    function At(i: int): Peer {
      if i == 0 then first else second
    }

    function With(i: int, p: Peer): Peers {
      if i == 0 then Peers(p, second) else Peers(first, p)
    }
  }

  datatype State = State(
    server: ServerState,
    peers: Peers,
    // history
    round: nat,
    scores: seq<Pair<int>>         // the score in each round so far
  )

  /** The amount of an input message. */
  function Amount(m: InputMsg): int {
    if m.packet.PacketInput? then m.packet.inputAccMs else 0
  }

  /** The server takes an input message into account. */
  predicate Accepts(s: ServerState, m: InputMsg) {
    m.packet.sync == s.sync && m.packet.PacketInput?
  }

  datatype Action =
    | Tick(deltaTime: int, outcome: Outcome, serve: Vector)
    | Deliver(i: int)
    | Frame(i: int, deltaTime: int, direction: int, outcome: Outcome)
    | Send(i: int)
    | Receive(i: int)

  /** `ball_advance` can end like this. */
  ghost predicate BallFate(a: Arena, ball: GameObj, outcome: Outcome) {
    exists hyp, flight :: IsTickFlight(a, ball, hyp, flight, outcome)
  }

  /** `init_ball`: any direction with both components moving, at the nominal speed. */
  ghost predicate IsServe(v: Vector) {
    IsSpeed(v, BALL_SPEED) && v.x != 0.0 && v.y != 0.0
  }

  ghost predicate Enabled(s: State, a: Action) {
    match a
    case Tick(deltaTime, outcome, serve) =>
      deltaTime > 0 && IsServe(serve) && BallFate(TickArena(s.server, deltaTime), s.server.game.ball, outcome)
    case Deliver(i) => 0 <= i < 2 && s.peers.At(i).toClient != []
    case Frame(i, deltaTime, direction, outcome) =>
      && 0 <= i < 2 && s.peers.At(i).round >= 0 && deltaTime > 0 && -1 <= direction <= 1
      && BallFate(FrameArena(s.peers.At(i).client.local, deltaTime), s.peers.At(i).client.local.ball, outcome)
    case Send(i) => 0 <= i < 2 && s.peers.At(i).round >= 0
    case Receive(i) => 0 <= i < 2 && s.peers.At(i).toServer != []
  }

  // ---------------------------------------------------------------- steps of one peer

  function PeerAfterTick(p: Peer, message: StateMsg, drainedMs: int): Peer {
    p.(toClient := p.toClient + [message], accepted := [], drained := p.drained + drainedMs)
  }

  function PeerAfterDeliver(p: Peer): Peer
    requires p.toClient != []
  {
    var m, rest := p.toClient[0], p.toClient[1..];
    if p.round < 0 then
      if m.packet.PacketInit? then
        p.(toClient := rest, client := AfterJoin(p.client, m.packet.sync, m.packet.state), round := m.round,
           predictedGoals := 0)
      else p.(toClient := rest)
    else if m.packet.PacketInit? then
      p.(toClient := rest, client := AfterPacket(p.client, m.packet), round := m.round,
         pending := [], discarded := p.discarded + p.client.inputAccMs, predictedGoals := 0)
    else p.(toClient := rest, client := AfterPacket(p.client, m.packet))
  }

  function PeerAfterFrame(p: Peer, deltaTime: int, direction: int, outcome: Outcome): Peer {
    p.(client := AfterFrame(p.client, deltaTime, direction, outcome),
       pending := p.pending + [Contribution(p.round, direction * deltaTime)],
       generated := p.generated + direction * deltaTime,
       predictedGoals := p.predictedGoals + if outcome.Scored? then 1 else 0)
  }

  function PeerAfterSend(p: Peer): Peer {
    p.(toServer := p.toServer + [InputMsg(InputPacket(p.client), p.round, p.pending)],
       client := AfterSend(p.client), pending := [])
  }

  function PeerAfterReceive(p: Peer, accepts: bool): Peer
    requires p.toServer != []
  {
    var m, rest := p.toServer[0], p.toServer[1..];
    if accepts then p.(toServer := rest, accepted := p.accepted + m.log)
    else p.(toServer := rest, rejected := p.rejected + Amount(m))
  }

  // ---------------------------------------------------------------- steps of the match

  function AfterMatchTick(s: State, outcome: Outcome, serve: Vector): State {
    var server := AfterTick(s.server, outcome, serve);
    var round := if outcome.Scored? then s.round + 1 else s.round;
    var scores := if outcome.Scored? then s.scores + [server.game.score] else s.scores;
    // one serialisation, to both
    var message := StateMsg(Arrived(TickPacket(server, outcome), ZERO_STATE), round, server.game);
    State(server,
          Peers(PeerAfterTick(s.peers.first, message, s.server.input1),
                PeerAfterTick(s.peers.second, message, s.server.input2)),
          round, scores)
  }

  function Next(s: State, a: Action): State
    requires Enabled(s, a)
  {
    match a
    case Tick(_, outcome, serve) => AfterMatchTick(s, outcome, serve)
    case Deliver(i) => s.(peers := s.peers.With(i, PeerAfterDeliver(s.peers.At(i))))
    case Frame(i, deltaTime, direction, outcome) =>
      s.(peers := s.peers.With(i, PeerAfterFrame(s.peers.At(i), deltaTime, direction, outcome)))
    case Send(i) => s.(peers := s.peers.With(i, PeerAfterSend(s.peers.At(i))))
    case Receive(i) =>
      var m := s.peers.At(i).toServer[0];
      s.(server := AfterInput(s.server, s.peers.At(i).id, m.packet),
         peers := s.peers.With(i, PeerAfterReceive(s.peers.At(i), Accepts(s.server, m))))
  }

  /** A client that has just connected, its first INIT on the way. */
  function NewPeer(server: ServerState, i: int, id: int): Peer {
    Peer(id, UNJOINED, [], [StateMsg(Arrived(StartPacket(server, i), ZERO_STATE), 0, server.game.(ownIdIndex := i))],
         -1, [], [], 0, 0, 0, 0, 0)
  }

  /** The server right after `start_pong_game` has started its first match, in a room of clients `id1` and `id2`. */
  function Start(id1: int, id2: int, serve: Vector): State {
    var server := AfterStart(ServerState(ZERO_STATE, 0, 0, 0), id1, id2, serve);
    State(server, Peers(NewPeer(server, 0, id1), NewPeer(server, 1, id2)), 0, [Pair(0, 0)])
  }

  /** Every action is possible when its turn comes, and `end` is where they lead. */
  ghost predicate IsRun(s: State, actions: seq<Action>, end: State)
    decreases |actions|
  {
    if actions == [] then end == s
    else Enabled(s, actions[0]) && IsRun(Next(s, actions[0]), actions[1..], end)
  }

  /** Some run of a match between two different clients leads here. */
  ghost predicate Reachable(s: State) {
    exists id1: int, id2: int, serve, actions ::
      id1 != id2 && IsServe(serve) && IsRun(Start(id1, id2, serve), actions, s)
  }
}
