/**
 Why the lag matters: sync is eight bits wide, so after 256 goals an input of the first round looks current. A run in
 which exactly that happens.
 */
module StaleInput {
  import opened BallLoop
  import opened Bytes
  import opened GameServer
  import opened Match
  import opened Agreement
  import opened Prediction
  import opened GoalShot
  import opened Opening

  const GOAL := Tick(6000, Scored(1), SERVE)

  // ---------------------------------------------------------------- goal after goal

  lemma FreshTickIsShot(s: ServerState)
    requires IsFresh(s, SERVE)
    ensures IsShot(TickArena(s, 6000), s.game.ball)
  {
    CourtOfGame(s.game.boxSize);
    SteeredByNothing(s.game.player1);
    SteeredByNothing(s.game.player2);
  }

  lemma GoalRefreshes(s: ServerState)
    ensures IsFresh(AfterTick(s, Scored(1), SERVE), SERVE)
    ensures AfterTick(s, Scored(1), SERVE).sync == WrapInt8(s.sync + 1)
  {
  }

  /** What a goal leaves alone. */
  ghost predicate FirstClientUntouched(s: State, s': State) {
    && s'.peers.first.client == s.peers.first.client
    && s'.server.game.playerIds == s.server.game.playerIds && s'.peers.first.id == s.peers.first.id
    && s'.peers.first.round == s.peers.first.round
    && s'.peers.first.toServer == s.peers.first.toServer
    && (s.peers.first.accepted == [] ==> s'.peers.first.accepted == [])
  }

  /** One round later. */
  ghost predicate IsNextRound(s: State, s': State) {
    && IsFresh(s'.server, SERVE) && s'.server.sync == WrapInt8(s.server.sync + 1) && s'.round == s.round + 1
    && FirstClientUntouched(s, s')
  }

  lemma OneGoal(s: State) returns (s': State)
    requires IsFresh(s.server, SERVE)
    ensures Enabled(s, GOAL) && s' == Next(s, GOAL) && IsNextRound(s, s')
  {
    ServeIsServe();
    FreshTickIsShot(s.server);
    ShotIsFate(TickArena(s.server, 6000), s.server.game.ball);
    s' := Next(s, GOAL);
    GoalRefreshes(s.server);
  }

  /** The first client's input of the first round is still on its way, and round 256 is `n` goals ahead. */
  ghost predicate Waiting(s: State, n: nat) {
    && IsFresh(s.server, SERVE) && s.round == 256 - n && s.server.sync == WrapInt8(s.round)
    && s.peers.first.accepted == [] && HasSent(s, 6000)
    && s.server.game.playerIds.first == s.peers.first.id
  }

  lemma NextWaits(s: State, n: nat, s': State)
    requires n > 0 && Waiting(s, n) && IsNextRound(s, s')
    ensures Waiting(s', n - 1)
  {
    WrapOfSuccessor(s.round);
  }

  /** Six seconds of the first round have become input of round 256. */
  ghost predicate StaleAccepted(s: State) {
    && s.round == 256 && s.peers.first.round == 0
    && s.peers.first.accepted == [Contribution(0, 6000)] && s.server.input1 == 6000
  }

  lemma ReceiveLate(s: State) returns (end: State)
    requires Waiting(s, 0)
    ensures Enabled(s, Receive(0)) && end == Next(s, Receive(0)) && StaleAccepted(end)
  {
    assert WrapInt8(256) == 0;
    end := Next(s, Receive(0));
  }

  lemma OneGoalCloser(s: State, n: nat) returns (s': State)
    requires n > 0 && Reachable(s) && Waiting(s, n)
    ensures Reachable(s') && Waiting(s', n - 1)
  {
    s' := OneGoal(s);
    NextWaits(s, n, s');
    ReachOn(s, GOAL);
  }

  lemma {:induction false} GoalsGoBy(s: State, n: nat) returns (end: State)
    requires Reachable(s) && Waiting(s, n)
    ensures Reachable(end) && Waiting(end, 0)
    decreases n
  {
    if n == 0 {
      end := s;
    } else {
      var s' := OneGoalCloser(s, n);
      end := GoalsGoBy(s', n - 1);
    }
  }

  // ---------------------------------------------------------------- the run

  lemma NowWaits(s: State)
    requires ServerAtStart(s, SERVE) && HasSent(s, 6000)
    ensures Waiting(s, 256)
  {
    assert WrapInt8(0) == 0;
  }

  lemma StaleIsWrong(s: State)
    requires StaleAccepted(s)
    ensures !PureState(s) && !Agreed(s)
  {
    assert s.peers.first.accepted[0].round == 0;
  }

  /** Join, type, send, let 256 goals be scored, and let the input arrive: it is taken for a current one, and a
      reachable state is neither pure nor in agreement. */
  lemma OldInputIsTaken(id1: int, id2: int) returns (end: State)
    requires id1 != id2
    ensures Reachable(end) && StaleAccepted(end) && !PureState(end) && !Agreed(end)
  {
    var s := TypeSixSeconds(id1, id2);
    s := SendFirst(s, SERVE, 6000);
    NowWaits(s);
    s := GoalsGoBy(s, 256);
    end := ReceiveLate(s);
    ReachOn(s, Receive(0));
    StaleIsWrong(end);
  }
}
