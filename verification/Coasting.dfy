/**
 How a client shows its opponent: between packets the other paddle coasts at the last velocity the server told.
 */
module Coasting {
  import opened Reals
  import opened FixedPoint
  import opened Engine
  import opened BallLoop
  import opened Game
  import opened GameClient
  import opened Match
  import opened Agreement
  import opened Courts

  /** The paddle has coasted for this long: its vertical velocity moved it and is what it was. */
  predicate HasCoasted(before: GameObj, after: GameObj, time: int) {
    && after.pos.y == before.pos.y + Times(before.velocity.y, time as real)
    && after.velocity == before.velocity && after.size == before.size && after.speed == before.speed
  }

  /** The paddle was driven for this long: half a pixel per millisecond, in the direction of the keys. */
  predicate WasDriven(before: GameObj, after: GameObj, direction: int, time: int) {
    && after.pos.y == before.pos.y + 0.5 * (direction * time) as real
    && after.velocity.y == 0.5 * direction as real
    && after.velocity.x == before.velocity.x && after.size == before.size && after.speed == before.speed
  }

  lemma CoastsFor(paddle: GameObj, deltaTime: int)
    ensures HasCoasted(paddle, LinearMove(paddle, deltaTime), deltaTime)
  {
  }

  /** A frame drives the own paddle by the keys and lets the opponent's coast. */
  lemma FrameMovesPaddles(local: PongState, deltaTime: int, direction: int, outcome: Outcome, i: int)
    requires 0 <= i < 2 && local.ownIdIndex == i && -1 <= direction <= 1
    ensures var after := AfterUpdate(local, deltaTime, direction, outcome);
            && WasDriven(local.Player(i), after.Player(i), direction, deltaTime)
            && HasCoasted(local.Player(1 - i), after.Player(1 - i), deltaTime)
  {
    DrivenMovesHalfPerMs(local.Player(i), direction, deltaTime);
    CoastsFor(local.Player(1 - i), deltaTime);
  }

  /** The up key alone lowers a height, the down key alone raises it; both or none leave it. */
  lemma KeysPointTheirWay(up: bool, down: bool)
    ensures -1 <= KeyDirection(up, down) <= 1
    ensures KeyDirection(up, down) < 0 <==> up && !down
    ensures KeyDirection(up, down) > 0 <==> down && !up
  {
  }

  // ---------------------------------------------------------------- over a run

  /** The milliseconds of client `i`'s frames among these steps. */
  function FrameTime(actions: seq<Action>, i: int): int {
    if actions == [] then 0
    else (if actions[0].Frame? && actions[0].i == i then actions[0].deltaTime else 0) + FrameTime(actions[1..], i)
  }

  /** No packet reaches client `i` in these steps. */
  ghost predicate NothingArrives(actions: seq<Action>, i: int) {
    forall k :: 0 <= k < |actions| ==> actions[k] != Deliver(i)
  }

  function Opponent(s: State, i: int): GameObj {
    s.peers.At(i).client.local.Player(1 - i)
  }

  lemma CoastingAdds(a: GameObj, b: GameObj, c: GameObj, t: int, u: int)
    requires HasCoasted(a, b, t) && HasCoasted(b, c, u)
    ensures HasCoasted(a, c, t + u)
  {
    var v := a.velocity.y;
    TimesAdds(t as real, u as real, v);
    TimesCommutes(t as real, v);
    TimesCommutes(u as real, v);
    TimesCommutes((t + u) as real, v);
    assert (t + u) as real == t as real + u as real;
  }

  lemma NoTimeNoWay(paddle: GameObj)
    ensures HasCoasted(paddle, paddle, 0)
  {
    TimesOne(paddle.velocity.y);
  }

  /** What one step does to the opponent client `i` shows. */
  lemma StepCoasts(s: State, a: Action, i: int)
    requires 0 <= i < 2 && Enabled(s, a) && a != Deliver(i) && s.peers.At(i).client.local.ownIdIndex == i
    ensures Next(s, a).peers.At(i).client.local.ownIdIndex == i
    ensures HasCoasted(Opponent(s, i), Opponent(Next(s, a), i), FrameTime([a], i))
  {
    assert FrameTime([a][1..], i) == 0;
    if a.Frame? && a.i == i {
      FrameMovesPaddles(s.peers.At(i).client.local, a.deltaTime, a.direction, a.outcome, i);
    } else {
      NoTimeNoWay(Opponent(s, i));
      OthersLeaveCopy(s, a, i);
    }
  }

  lemma OthersLeaveCopy(s: State, a: Action, i: int)
    requires 0 <= i < 2 && Enabled(s, a) && a != Deliver(i) && !(a.Frame? && a.i == i)
    ensures Next(s, a).peers.At(i).client.local == s.peers.At(i).client.local
  {
  }

  /** Until the next packet the opponent coasts, whatever the server and the other client do meanwhile. */
  lemma {:induction false} OpponentCoasts(s: State, actions: seq<Action>, end: State, i: int)
    requires 0 <= i < 2 && IsRun(s, actions, end) && NothingArrives(actions, i)
    requires s.peers.At(i).client.local.ownIdIndex == i
    ensures HasCoasted(Opponent(s, i), Opponent(end, i), FrameTime(actions, i))
    decreases |actions|
  {
    if actions == [] {
      NoTimeNoWay(Opponent(s, i));
    } else {
      var a, rest := actions[0], actions[1..];
      StepCoasts(s, a, i);
      assert forall k :: 0 <= k < |rest| ==> rest[k] == actions[k + 1];
      OpponentCoasts(Next(s, a), rest, end, i);
      assert FrameTime([a][1..], i) == 0;
      CoastingAdds(Opponent(s, i), Opponent(Next(s, a), i), Opponent(end, i), FrameTime([a], i), FrameTime(rest, i));
    }
  }

  /** After a STATE and frames of `d` milliseconds in all, with no packet between, the opponent is shown `d` times the
      velocity the server sent away from the height the server sent, both as they arrive. */
  lemma OpponentCoastsFromState(s: State, actions: seq<Action>, end: State, i: int)
    requires Reachable(s) && Enabled(s, Deliver(i)) && s.peers.At(i).toClient[0].packet.PacketState?
    requires IsRun(Next(s, Deliver(i)), actions, end) && NothingArrives(actions, i)
    ensures var sent := s.peers.At(i).toClient[0].sent.Player(1 - i);
            && Opponent(end, i).pos.y
               == Quantise(sent.pos.y) + Times(Quantise(sent.velocity.y), FrameTime(actions, i) as real)
            && Opponent(end, i).velocity.y == Quantise(sent.velocity.y)
  {
    StateArrivesInItsRound(s, i);
    OwnIndexAfterDeliver(s, i);
    OpponentCoasts(Next(s, Deliver(i)), actions, end, i);
  }

  lemma OwnIndexAfterDeliver(s: State, i: int)
    requires Reachable(s) && Enabled(s, Deliver(i))
    ensures Next(s, Deliver(i)).peers.At(i).client == PeerAfterDeliver(s.peers.At(i)).client
    ensures Next(s, Deliver(i)).peers.At(i).client.local.ownIdIndex == i
  {
    ReachablePeerIsOk(s, i);
    DeliverKeepsDown(ViewOf(s, i), s.peers.At(i), i);
  }

  /** From an INIT on until the next packet the opponent waits in the middle. */
  lemma OpponentWaitsAfterInit(s: State, actions: seq<Action>, end: State, i: int)
    requires Reachable(s) && Enabled(s, Deliver(i)) && s.peers.At(i).toClient[0].packet.PacketInit?
    requires IsRun(Next(s, Deliver(i)), actions, end) && NothingArrives(actions, i)
    ensures Opponent(end, i).pos.y == 160.0 && Opponent(end, i).velocity.y == 0.0
  {
    InitIsKickoff(s, i);
    ReachablePeerIsOk(s, i);
    OwnIndexAfterDeliver(s, i);
    OpponentCoasts(Next(s, Deliver(i)), actions, end, i);
    TimesOne(FrameTime(actions, i) as real);
  }
}
