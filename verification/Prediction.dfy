/**
 Prediction agrees with authority: although `server_snap` never corrects a client's own paddle, its height and the
 server's differ by exactly the input the server has yet to apply. Holds in every run in which no input is so old that
 the wrapping sync mistakes it for a current one, and in no other.
 */
module Prediction {
  import opened Vectors
  import opened BallLoop
  import opened Game
  import opened Bytes
  import opened Packets
  import opened GameServer
  import opened GameClient
  import opened Match
  import opened Agreement

  // ---------------------------------------------------------------- input and the round it was typed in

  ghost function Total(log: seq<Contribution>): int {
    if log == [] then 0 else log[0].ms + Total(log[1..])
  }

  ghost predicate AllOf(log: seq<Contribution>, round: int) {
    forall k :: 0 <= k < |log| ==> log[k].round == round
  }

  /** The part of the input on its way that was typed in this round. */
  ghost function InFlight(ch: seq<InputMsg>, round: int): int {
    if ch == [] then 0 else (if ch[0].round == round then Amount(ch[0]) else 0) + InFlight(ch[1..], round)
  }

  lemma {:induction false} TotalAppend(log: seq<Contribution>, more: seq<Contribution>)
    ensures Total(log + more) == Total(log) + Total(more)
    decreases |log|
  {
    if log == [] {
      assert log + more == more;
    } else {
      assert (log + more)[1..] == log[1..] + more;
      TotalAppend(log[1..], more);
    }
  }

  lemma TotalOfOne(c: Contribution)
    ensures Total([c]) == c.ms
  {
    assert [c][1..] == [];
  }

  lemma {:induction false} InFlightAppend(ch: seq<InputMsg>, m: InputMsg, round: int)
    ensures InFlight(ch + [m], round) == InFlight(ch, round) + if m.round == round then Amount(m) else 0
  {
    if ch == [] {
      assert [m][1..] == [];
    } else {
      assert (ch + [m])[1..] == ch[1..] + [m];
      InFlightAppend(ch[1..], m, round);
    }
  }

  /** An input message of round `r` is genuine: it carries that round's sync, and exactly what was typed in it. */
  ghost predicate InputOk(m: InputMsg) {
    && m.packet == PacketInput(WrapInt8(m.round), Total(m.log))
    && AllOf(m.log, m.round)
  }

  ghost predicate ChannelUpOk(ch: seq<InputMsg>, round: int) {
    forall k :: 0 <= k < |ch| ==> InputOk(ch[k]) && 0 <= ch[k].round <= round
  }

  lemma {:induction false} NothingFromTheFuture(ch: seq<InputMsg>, bound: int, round: int)
    requires ChannelUpOk(ch, bound) && bound < round
    ensures InFlight(ch, round) == 0
  {
    if ch != [] {
      assert ch[0].round <= bound;
      assert forall k :: 0 <= k < |ch[1..]| ==> ch[1..][k] == ch[k + 1];
      NothingFromTheFuture(ch[1..], bound, round);
    }
  }

  // ---------------------------------------------------------------- agreement of one client with the server

  /** What the client will send is typed in the round it is in; what it has sent is genuine. */
  ghost predicate SenderOk(p: Peer) {
    && AllOf(p.pending, p.round) && Total(p.pending) == p.client.inputAccMs
    && ChannelUpOk(p.toServer, p.round)
    && (p.round < 0 ==> p.pending == [])
  }

  /** What the server holds for this player was typed in the server's round. */
  ghost predicate Pure(v: View, p: Peer) {
    AllOf(p.accepted, v.round) && Total(p.accepted) == v.input
  }

  /** The two heights of one paddle. A client that lags behind faces a reset paddle without input. */
  ghost predicate HeightsAgree(v: View, p: Peer, i: int) {
    if p.round == v.round then
      p.client.local.Player(i).pos.y - v.paddle.pos.y
      == 0.5 * (p.client.inputAccMs + InFlight(p.toServer, v.round) + v.input) as real
    else
      v.paddle.pos.y == RESET_Y && v.input == 0
  }

  /** Holds in every run: the client is an honest sender, and the server's paddle keeps its nominal speed. */
  ghost predicate Honest(v: View, p: Peer, i: int) {
    PeerIsOk(v, p, i) && SenderOk(p) && v.paddle.speed == 0.5
  }

  /** From one state to the next, seen by one client: it stays honest; agreeing heights go on agreeing exactly if
      `level`, pure input stays pure exactly if `pure`. */
  ghost predicate Keeps(v: View, p: Peer, v': View, p': Peer, i: int, level: bool, pure: bool) {
    && Honest(v', p', i)
    && (HeightsAgree(v, p, i) ==> (HeightsAgree(v', p', i) <==> level))
    && (Pure(v, p) ==> (Pure(v', p') <==> pure))
  }

  lemma TickKeeps(v: View, v': View, p: Peer, m: StateMsg, outcome: Outcome, i: int)
    requires Honest(v, p, i) && TickedView(v, v', outcome, i) && PeerIsOk(v', PeerAfterTick(p, m, v.input), i)
    ensures Keeps(v, p, v', PeerAfterTick(p, m, v.input), i, true, true)
  {
    ChannelGoesUp(p.toClient, p.round, v.round, v.scores, i);
    DrainedMovesHalfPerMs(v.paddle, v.input);
  }

  lemma FrameKeeps(v: View, p: Peer, i: int, deltaTime: int, direction: int, outcome: Outcome)
    requires Honest(v, p, i) && 0 <= i < 2 && p.round >= 0 && -1 <= direction <= 1
    ensures Keeps(v, p, v, PeerAfterFrame(p, deltaTime, direction, outcome), i, true, true)
  {
    var ms := direction * deltaTime;
    FrameKeepsPeer(v, p, i, deltaTime, direction, outcome);
    DrivenMovesHalfPerMs(p.client.local.Player(i), direction, deltaTime);
    TotalAppend(p.pending, [Contribution(p.round, ms)]);
    TotalOfOne(Contribution(p.round, ms));
    var rest := InFlight(p.toServer, v.round) + v.input;
    assert p.client.inputAccMs + ms + rest == (p.client.inputAccMs + rest) + ms;
  }

  lemma SendKeeps(v: View, p: Peer, i: int)
    requires Honest(v, p, i) && p.round >= 0
    ensures Keeps(v, p, v, PeerAfterSend(p), i, true, true)
  {
    SendKeepsPeer(v, p, i);
    InFlightAppend(p.toServer, InputMsg(InputPacket(p.client), p.round, p.pending), v.round);
  }

  lemma InitKeeps(v: View, p: Peer, i: int)
    requires Honest(v, p, i) && p.toClient != [] && p.toClient[0].packet.PacketInit?
    requires PeerIsOk(v, PeerAfterDeliver(p), i) && EntersNextRound(p, PeerAfterDeliver(p), i)
    ensures Keeps(v, p, v, PeerAfterDeliver(p), i, true, true)
  {
    ChannelGoesUp(p.toClient[1..], p.round + 1, v.round, v.scores, i);
    NothingFromTheFuture(p.toServer, p.round, v.round);
  }

  lemma StateKeeps(v: View, p: Peer, i: int)
    requires Honest(v, p, i) && p.toClient != [] && p.toClient[0].packet.PacketState?
    requires PeerIsOk(v, PeerAfterDeliver(p), i) && TakesOver(p, p.toClient[0], PeerAfterDeliver(p).client, i)
    ensures Keeps(v, p, v, PeerAfterDeliver(p), i, true, true)
  {
  }

  lemma DeliverKeeps(v: View, p: Peer, i: int)
    requires Honest(v, p, i) && 0 <= i < 2 && p.toClient != [] && |v.scores| > 0 && v.scores[0] == Pair(0, 0)
    ensures Keeps(v, p, v, PeerAfterDeliver(p), i, true, true)
  {
    DeliverKeepsPeer(v, p, i);
    if p.toClient[0].packet.PacketInit? {
      InitIsEntered(v, p, i);
      InitKeeps(v, p, i);
    } else {
      StateIsTakenOver(v, p, i);
      StateKeeps(v, p, i);
    }
  }

  // ---------------------------------------------------------------- receiving input

  /** The eight-bit comparison takes an input of another round for a current one. */
  ghost predicate Stale(v: View, m: InputMsg) {
    m.packet.sync == v.sync && m.round != v.round
  }

  /** Equality of syncs is equality of rounds up to a multiple of 256 ... */
  lemma SyncsAgreeModulo(x: int, y: int)
    ensures WrapInt8(x) == WrapInt8(y) <==> (x - y) % 256 == 0
  {
  }

  /** ... so it decides rounds exactly as long as packets lag by fewer than 256 rounds. */
  lemma SyncDecidesRounds(v: View, m: InputMsg)
    requires v.sync == WrapInt8(v.round) && InputOk(m)
    ensures v.round - 256 < m.round < v.round + 256 ==> !Stale(v, m)
    ensures Stale(v, m) <==> m.round != v.round && (v.round - m.round) % 256 == 0
  {
    SyncsAgreeModulo(v.round, m.round);
  }

  function AfterReceive(v: View, m: InputMsg): View {
    v.(input := v.input + if m.packet.PacketInput? && m.packet.sync == v.sync then Amount(m) else 0)
  }

  lemma {:induction false} AllOfPart(log: seq<Contribution>, more: seq<Contribution>, round: int)
    requires AllOf(log, round)
    ensures AllOf(log + more, round) <==> AllOf(more, round)
  {
    if AllOf(log + more, round) {
      forall k | 0 <= k < |more|
        ensures more[k].round == round
      {
        assert (log + more)[|log| + k] == more[k];
      }
    }
  }

  lemma AllOfTwo(log: seq<Contribution>, r: int, s: int)
    requires AllOf(log, r) && r != s
    ensures AllOf(log, s) <==> log == []
  {
    if log != [] {
      assert log[0].round == r;
    }
  }

  /** Receiving an input keeps the server's input pure exactly when the input is current, empty, or recognised as
      old. */
  lemma ReceiveKeepsPureIff(v: View, p: Peer)
    requires Pure(v, p) && SenderOk(p) && p.toServer != []
    ensures var m := p.toServer[0];
            Pure(AfterReceive(v, m), PeerAfterReceive(p, m.packet.sync == v.sync)) <==> !(Stale(v, m) && m.log != [])
  {
    var m := p.toServer[0];
    assert InputOk(m);
    AllOfPart(p.accepted, m.log, v.round);
    TotalAppend(p.accepted, m.log);
    if m.round != v.round {
      AllOfTwo(m.log, m.round, v.round);
    }
  }

  /** It keeps the heights in agreement exactly when a stale amount is zero. */
  lemma ReceiveKeepsHeightsIff(v: View, p: Peer, i: int)
    requires Honest(v, p, i) && HeightsAgree(v, p, i) && p.toServer != []
    ensures var m := p.toServer[0];
            HeightsAgree(AfterReceive(v, m), PeerAfterReceive(p, m.packet.sync == v.sync), i) <==>
              !(Stale(v, m) && Amount(m) != 0)
  {
    var m := p.toServer[0];
    ChannelGoesUp(p.toClient, p.round, v.round, v.scores, i);
    assert InputOk(m) && m.round <= p.round;
    assert InFlight(p.toServer, v.round) == (if m.round == v.round then Amount(m) else 0) +
             InFlight(p.toServer[1..], v.round);
  }

  lemma ReceiveKeeps(v: View, p: Peer, i: int)
    requires Honest(v, p, i) && p.toServer != []
    ensures var m := p.toServer[0];
            Keeps(v, p, AfterReceive(v, m), PeerAfterReceive(p, m.packet.sync == v.sync), i,
                  !(Stale(v, m) && Amount(m) != 0), !(Stale(v, m) && m.log != []))
  {
    var m := p.toServer[0];
    assert InputOk(m);
    ReceiveKeepsPeer(v, p, i, m.packet.sync == v.sync);
    assert forall k :: 0 <= k < |p.toServer[1..]| ==> p.toServer[1..][k] == p.toServer[k + 1];
    if HeightsAgree(v, p, i) {
      ReceiveKeepsHeightsIff(v, p, i);
    }
    if Pure(v, p) {
      ReceiveKeepsPureIff(v, p);
    }
  }

  // ---------------------------------------------------------------- steps of the match

  ghost predicate PeerHonest(s: State, i: int) {
    Honest(ViewOf(s, i), s.peers.At(i), i)
  }

  /** Holds in every run. */
  ghost predicate AllHonest(s: State) {
    ServerOk(s) && PeerHonest(s, 0) && PeerHonest(s, 1)
  }

  /** Both clients predict their own paddle in agreement with the server. */
  ghost predicate Agreed(s: State) {
    HeightsAgree(ViewOf(s, 0), s.peers.At(0), 0) && HeightsAgree(ViewOf(s, 1), s.peers.At(1), 1)
  }

  /** What the server holds was typed in the round it will be applied in. */
  ghost predicate PureState(s: State) {
    Pure(ViewOf(s, 0), s.peers.At(0)) && Pure(ViewOf(s, 1), s.peers.At(1))
  }

  /** The step receives player `i`'s input although it is of another round, taking it for a current one. */
  ghost predicate TakesStale(s: State, a: Action, i: int)
    requires Enabled(s, a)
  {
    a == Receive(i) && Stale(ViewOf(s, i), s.peers.At(i).toServer[0])
  }

  ghost predicate LevelFor(s: State, a: Action, i: int)
    requires Enabled(s, a)
  {
    !(TakesStale(s, a, i) && Amount(s.peers.At(i).toServer[0]) != 0)
  }

  ghost predicate TimelyFor(s: State, a: Action, i: int)
    requires Enabled(s, a)
  {
    !(TakesStale(s, a, i) && s.peers.At(i).toServer[0].log != [])
  }

  ghost predicate StepKeepsFor(s: State, s': State, i: int, level: bool, pure: bool) {
    Keeps(ViewOf(s, i), s.peers.At(i), ViewOf(s', i), s'.peers.At(i), i, level, pure)
  }

  lemma TickKeepsFor(s: State, outcome: Outcome, serve: Vector, j: int)
    requires 0 <= j < 2 && ServerOk(s) && PeerHonest(s, j)
    ensures StepKeepsFor(s, AfterMatchTick(s, outcome, serve), j, true, true)
  {
    var s' := AfterMatchTick(s, outcome, serve);
    TickIsSeen(s, outcome, serve, j);
    var ch := s'.peers.At(j).toClient;
    TickKeepsPeer(s, outcome, serve, j);
    TickKeeps(ViewOf(s, j), ViewOf(s', j), s.peers.At(j), ch[|ch| - 1], outcome, j);
  }

  /** Clients do not see each other's own steps. */
  lemma PeerStepKeepsFor(s: State, i: int, p: Peer, j: int)
    requires 0 <= i < 2 && 0 <= j < 2 && PeerHonest(s, j)
    requires i == j ==> Keeps(ViewOf(s, i), s.peers.At(i), ViewOf(s, i), p, i, true, true)
    ensures StepKeepsFor(s, s.(peers := s.peers.With(i, p)), j, true, true)
  {
    var s' := s.(peers := s.peers.With(i, p));
    assert ViewOf(s', j) == ViewOf(s, j);
    assert s'.peers.At(j) == if i == j then p else s.peers.At(j);
  }

  lemma ReceiveIsOneStep(s: State, i: int)
    requires ServerOk(s) && Enabled(s, Receive(i)) && SenderOk(s.peers.At(i))
    ensures var m, s' := s.peers.At(i).toServer[0], Next(s, Receive(i));
            && ViewOf(s', i) == AfterReceive(ViewOf(s, i), m)
            && s'.peers.At(i) == PeerAfterReceive(s.peers.At(i), m.packet.sync == s.server.sync)
            && ViewOf(s', 1 - i) == ViewOf(s, 1 - i)
            && s'.peers.At(1 - i) == s.peers.At(1 - i)
  {
    ReceiveIsSeen(s, i);
    assert InputOk(s.peers.At(i).toServer[0]);
  }

  lemma ReceiveKeepsFor(s: State, i: int, j: int)
    requires ServerOk(s) && Enabled(s, Receive(i)) && SenderOk(s.peers.At(i))
    requires 0 <= j < 2 && PeerHonest(s, j)
    ensures StepKeepsFor(s, Next(s, Receive(i)), j, LevelFor(s, Receive(i), j), TimelyFor(s, Receive(i), j))
  {
    ReceiveIsOneStep(s, i);
    if i == j {
      ReceiveKeeps(ViewOf(s, i), s.peers.At(i), i);
    } else {
      assert j == 1 - i;
    }
  }

  lemma DeliverKeepsFor(s: State, i: int, j: int)
    requires AllHonest(s) && Enabled(s, Deliver(i)) && 0 <= j < 2
    ensures StepKeepsFor(s, Next(s, Deliver(i)), j, true, true)
  {
    BothHonest(s, i, j);
    DeliverKeeps(ViewOf(s, i), s.peers.At(i), i);
    PeerStepKeepsFor(s, i, PeerAfterDeliver(s.peers.At(i)), j);
  }

  lemma FrameKeepsFor(s: State, a: Action, j: int)
    requires AllHonest(s) && a.Frame? && Enabled(s, a) && 0 <= j < 2
    ensures StepKeepsFor(s, Next(s, a), j, true, true)
  {
    BothHonest(s, a.i, j);
    FrameKeeps(ViewOf(s, a.i), s.peers.At(a.i), a.i, a.deltaTime, a.direction, a.outcome);
    PeerStepKeepsFor(s, a.i, PeerAfterFrame(s.peers.At(a.i), a.deltaTime, a.direction, a.outcome), j);
  }

  lemma SendKeepsFor(s: State, i: int, j: int)
    requires AllHonest(s) && Enabled(s, Send(i)) && 0 <= j < 2
    ensures StepKeepsFor(s, Next(s, Send(i)), j, true, true)
  {
    BothHonest(s, i, j);
    SendKeeps(ViewOf(s, i), s.peers.At(i), i);
    PeerStepKeepsFor(s, i, PeerAfterSend(s.peers.At(i)), j);
  }

  lemma BothHonest(s: State, i: int, j: int)
    requires AllHonest(s) && 0 <= i < 2 && 0 <= j < 2
    ensures PeerHonest(s, i) && PeerHonest(s, j) && |s.scores| > 0 && s.scores[0] == Pair(0, 0)
  {
  }

  /** Every step, for either client. */
  lemma StepKeeps(s: State, a: Action, j: int)
    requires AllHonest(s) && Enabled(s, a) && 0 <= j < 2
    ensures StepKeepsFor(s, Next(s, a), j, LevelFor(s, a, j), TimelyFor(s, a, j))
  {
    match a
    case Tick(_, outcome, serve) =>
      BothHonest(s, j, j);
      TickKeepsFor(s, outcome, serve, j);
    case Deliver(i) => DeliverKeepsFor(s, i, j);
    case Frame(_, _, _, _) => FrameKeepsFor(s, a, j);
    case Send(i) => SendKeepsFor(s, i, j);
    case Receive(i) =>
      BothHonest(s, i, j);
      ReceiveKeepsFor(s, i, j);
  }

  lemma HonestIsAlways(s: State)
    requires AllHonest(s)
    ensures Always(s)
  {
    assert PeerHonest(s, 0) && PeerHonest(s, 1);
  }

  /** What one step does to the whole. */
  lemma StepDecides(s: State, a: Action)
    requires AllHonest(s) && Enabled(s, a)
    ensures AllHonest(Next(s, a))
    ensures Agreed(s) ==> (Agreed(Next(s, a)) <==> LevelFor(s, a, 0) && LevelFor(s, a, 1))
    ensures PureState(s) ==> (PureState(Next(s, a)) <==> TimelyFor(s, a, 0) && TimelyFor(s, a, 1))
  {
    HonestIsAlways(s);
    StepKeepsAlways(s, a);
    StepKeeps(s, a, 0);
    StepKeeps(s, a, 1);
  }

  lemma StartAgrees(id1: int, id2: int, serve: Vector)
    requires id1 != id2
    ensures AllHonest(Start(id1, id2, serve)) && Agreed(Start(id1, id2, serve)) && PureState(Start(id1, id2, serve))
  {
    var s := Start(id1, id2, serve);
    StartIsOk(id1, id2, serve);
    assert PeerOk(s, 0) && PeerOk(s, 1);
  }

  // ---------------------------------------------------------------- all runs

  /** At no step of the run a stale input of a nonzero amount is taken for a current one. */
  ghost predicate LevelRun(s: State, actions: seq<Action>)
    decreases |actions|
  {
    actions != [] ==>
      && Enabled(s, actions[0]) && LevelFor(s, actions[0], 0) && LevelFor(s, actions[0], 1)
      && LevelRun(Next(s, actions[0]), actions[1..])
  }

  /** Heights agree all along the run. */
  ghost predicate AgreeingRun(s: State, actions: seq<Action>)
    decreases |actions|
  {
    Agreed(s) && (actions != [] ==> Enabled(s, actions[0]) && AgreeingRun(Next(s, actions[0]), actions[1..]))
  }

  /** At no step of the run a stale input, unless it is empty, is taken for a current one. */
  ghost predicate TimelyRun(s: State, actions: seq<Action>)
    decreases |actions|
  {
    actions != [] ==>
      && Enabled(s, actions[0]) && TimelyFor(s, actions[0], 0) && TimelyFor(s, actions[0], 1)
      && TimelyRun(Next(s, actions[0]), actions[1..])
  }

  /** All along the run, what the server holds was typed in the round it will be applied in. */
  ghost predicate PureRun(s: State, actions: seq<Action>)
    decreases |actions|
  {
    PureState(s) && (actions != [] ==> Enabled(s, actions[0]) && PureRun(Next(s, actions[0]), actions[1..]))
  }

  /** Prediction agrees with authority all along a run if and only if no stale amount is taken for a current one. */
  lemma {:induction false} PredictionAgreesIffLevel(s: State, actions: seq<Action>, end: State)
    requires AllHonest(s) && Agreed(s) && IsRun(s, actions, end)
    ensures AgreeingRun(s, actions) <==> LevelRun(s, actions)
    decreases |actions|
  {
    if actions != [] {
      StepDecides(s, actions[0]);
      if Agreed(Next(s, actions[0])) {
        PredictionAgreesIffLevel(Next(s, actions[0]), actions[1..], end);
      }
    }
  }

  /** No input crosses a score all along a run if and only if no stale input is taken for a current one. */
  lemma {:induction false} NoInputCrossesIffTimely(s: State, actions: seq<Action>, end: State)
    requires AllHonest(s) && PureState(s) && IsRun(s, actions, end)
    ensures PureRun(s, actions) <==> TimelyRun(s, actions)
    decreases |actions|
  {
    if actions != [] {
      StepDecides(s, actions[0]);
      if PureState(Next(s, actions[0])) {
        NoInputCrossesIffTimely(Next(s, actions[0]), actions[1..], end);
      }
    }
  }

  /** A lag below 256 rounds at every receipt makes a run level and timely. */
  ghost predicate LagsLittle(s: State, actions: seq<Action>)
    decreases |actions|
  {
    actions != [] ==>
      && Enabled(s, actions[0])
      && (actions[0].Receive? ==> s.round < s.peers.At(actions[0].i).toServer[0].round + 256)
      && LagsLittle(Next(s, actions[0]), actions[1..])
  }

  lemma LittleLagDecides(s: State, a: Action, i: int)
    requires AllHonest(s) && Enabled(s, a) && 0 <= i < 2
    requires a == Receive(i) ==> s.round < s.peers.At(i).toServer[0].round + 256
    ensures LevelFor(s, a, i) && TimelyFor(s, a, i)
  {
    if a == Receive(i) {
      BothHonest(s, i, i);
      var m := s.peers.At(i).toServer[0];
      assert InputOk(m) && m.round <= s.peers.At(i).round;
      ChannelGoesUp(s.peers.At(i).toClient, s.peers.At(i).round, s.round, s.scores, i);
      SyncDecidesRounds(ViewOf(s, i), m);
    }
  }

  lemma {:induction false} LittleLagSuffices(s: State, actions: seq<Action>, end: State)
    requires AllHonest(s) && IsRun(s, actions, end) && LagsLittle(s, actions)
    ensures LevelRun(s, actions) && TimelyRun(s, actions)
    decreases |actions|
  {
    if actions != [] {
      LittleLagDecides(s, actions[0], 0);
      LittleLagDecides(s, actions[0], 1);
      StepDecides(s, actions[0]);
      LittleLagSuffices(Next(s, actions[0]), actions[1..], end);
    }
  }

  lemma {:induction false} AgreementReachesTheEnd(s: State, actions: seq<Action>, end: State)
    requires IsRun(s, actions, end) && AgreeingRun(s, actions)
    ensures Agreed(end)
    decreases |actions|
  {
    if actions != [] {
      AgreementReachesTheEnd(Next(s, actions[0]), actions[1..], end);
    }
  }

  /** Everything typed in the current round has been applied. */
  predicate AllApplied(s: State, i: int) {
    var p := s.peers.At(i);
    p.round == s.round && p.client.inputAccMs == 0 && p.toServer == [] && s.server.Input(i) == 0
  }

  /** In a match whose packets lag by fewer than 256 rounds a client's own paddle and the server's copy differ by what
      the server has yet to apply; once all is applied they are at the same height. */
  lemma PredictionAgrees(id1: int, id2: int, serve: Vector, actions: seq<Action>, end: State, i: int)
    requires id1 != id2 && IsRun(Start(id1, id2, serve), actions, end) && LagsLittle(Start(id1, id2, serve), actions)
    requires 0 <= i < 2
    ensures HeightsAgree(ViewOf(end, i), end.peers.At(i), i)
    ensures AllApplied(end, i) ==> end.peers.At(i).client.local.Player(i).pos.y == end.server.game.Player(i).pos.y
  {
    var s := Start(id1, id2, serve);
    StartAgrees(id1, id2, serve);
    LittleLagSuffices(s, actions, end);
    PredictionAgreesIffLevel(s, actions, end);
    AgreementReachesTheEnd(s, actions, end);
    OneAgrees(end, i);
  }

  lemma OneAgrees(s: State, i: int)
    requires Agreed(s) && 0 <= i < 2
    ensures HeightsAgree(ViewOf(s, i), s.peers.At(i), i)
    ensures AllApplied(s, i) ==> s.peers.At(i).client.local.Player(i).pos.y == s.server.game.Player(i).pos.y
  {
  }

  lemma {:induction false} PurityReachesTheEnd(s: State, actions: seq<Action>, end: State)
    requires IsRun(s, actions, end) && PureRun(s, actions)
    ensures PureState(end)
    decreases |actions|
  {
    if actions != [] {
      PurityReachesTheEnd(Next(s, actions[0]), actions[1..], end);
    }
  }

  /** In such a match whatever the server holds was typed in the round it will be applied in. */
  lemma NoInputCrosses(id1: int, id2: int, serve: Vector, actions: seq<Action>, end: State)
    requires id1 != id2 && IsRun(Start(id1, id2, serve), actions, end) && LagsLittle(Start(id1, id2, serve), actions)
    ensures PureState(end)
  {
    var s := Start(id1, id2, serve);
    StartAgrees(id1, id2, serve);
    LittleLagSuffices(s, actions, end);
    NoInputCrossesIffTimely(s, actions, end);
    PurityReachesTheEnd(s, actions, end);
  }
}
