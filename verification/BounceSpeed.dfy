/**
 How fast the ball gets. A bounce below 0.64 adds a hundredth of a pixel per millisecond, so the speed of a ball tells
 how often it has bounced since its serve, up to 59 times.
 */
module BounceSpeed {
  import opened Vectors
  import opened Engine
  import opened Collision
  import opened BallLoop
  import opened WallContainment
  import opened BallInPlay
  import opened Game
  import opened GameServer
  import opened Match

  // ---------------------------------------------------------------- many bounces

  /** The speed of a ball `n` bounces after its serve. */
  function ServedSpeed(n: nat): real {
    0.05 + 0.01 * (if n < 59 then n else 59) as real
  }

  lemma NextServedSpeed(n: nat)
    ensures SpeedAfterBounce(ServedSpeed(n)) == ServedSpeed(n + 1)
  {
  }

  lemma PassCountsBounce(a: Arena, s: Flying, s': Flying, n: nat)
    requires Continues(a, s, s') && s.hyp == ServedSpeed(n)
    ensures s'.hyp == ServedSpeed(n + 1) && IsSpeed(s'.ball.velocity, s'.hyp)
  {
    BounceResult(a, s);
    NextServedSpeed(n);
  }

  /** A flight's states after its launch are its bounces. */
  lemma {:induction false} FlightCountsBounces(a: Arena, flight: seq<Flying>, n: nat)
    requires IsFlight(a, flight) && flight[0].hyp == ServedSpeed(n)
    requires IsSpeed(flight[0].ball.velocity, flight[0].hyp)
    ensures var last := flight[|flight| - 1];
            last.hyp == ServedSpeed(n + |flight| - 1) && IsSpeed(last.ball.velocity, last.hyp)
  {
    if |flight| > 1 {
      var before := flight[..|flight| - 1];
      FlightCountsBounces(a, before, n);
      assert Continues(a, flight[|flight| - 2], flight[|flight| - 1]);
      PassCountsBounce(a, flight[|flight| - 2], flight[|flight| - 1], n + |flight| - 2);
    }
  }

  lemma TickCountsBounces(a: Arena, ball: GameObj, flight: seq<Flying>, ball': GameObj, hyp': real, n: nat)
    requires IsTickFlight(a, ball, ServedSpeed(n), flight, Moved(ball', hyp'))
    ensures IsSpeed(ball'.velocity, ServedSpeed(n + |flight| - 1)) && hyp' == ServedSpeed(n + |flight| - 1)
  {
    FlightStartsAtSpeed(a, ball, ServedSpeed(n), flight, Moved(ball', hyp'));
    FlightCountsBounces(a, flight, n);
  }

  function BouncesOf(ticks: seq<RallyTick>): nat {
    if ticks == [] then 0
    else (if |ticks[0].flight| > 0 then |ticks[0].flight| - 1 else 0) + BouncesOf(ticks[1..])
  }

  /** This is how a ball flies `n` bounces after its serve. */
  ghost predicate FliesAfter(ball: GameObj, hyp: real, n: nat) {
    hyp == ServedSpeed(n) && IsSpeed(ball.velocity, hyp)
  }

  /** What a rally says of its first tick. */
  lemma FirstTickCounts(wall: Wall, ball: GameObj, hyp: real, ticks: seq<RallyTick>, n: nat)
    requires IsRally(wall, ball, hyp, ticks) && |ticks| > 0 && FliesAfter(ball, hyp, n)
    ensures |ticks[0].flight| > 0 && FliesAfter(ticks[0].ball, ticks[0].hyp, n + |ticks[0].flight| - 1)
    ensures IsRally(wall, ticks[0].ball, ticks[0].hyp, ticks[1..])
    ensures BouncesOf(ticks) == |ticks[0].flight| - 1 + BouncesOf(ticks[1..])
  {
    var t := ticks[0];
    TickCountsBounces(t.arena, ball, t.flight, t.ball, t.hyp, n);
  }

  /** Over any number of ticks without a goal a served ball that has bounced `n` times flies at 0.05 + 0.01 * n, or at
      0.64 once n is 59. */
  lemma {:induction false} RallyCountsBounces(wall: Wall, ball: GameObj, hyp: real, ticks: seq<RallyTick>, n: nat)
    requires IsRally(wall, ball, hyp, ticks) && |ticks| > 0 && FliesAfter(ball, hyp, n)
    ensures FliesAfter(ticks[|ticks| - 1].ball, ticks[|ticks| - 1].hyp, n + BouncesOf(ticks))
    decreases |ticks|
  {
    var t, rest := ticks[0], ticks[1..];
    FirstTickCounts(wall, ball, hyp, ticks, n);
    if rest == [] {
      assert BouncesOf(rest) == 0;
    } else {
      RallyCountsBounces(wall, t.ball, t.hyp, rest, n + |t.flight| - 1);
    }
  }

  // ---------------------------------------------------------------- in a match

  /** The server's ball is this many bounces away from its serve. */
  ghost predicate HasBounced(g: PongState, n: nat) {
    IsSpeed(g.ball.velocity, ServedSpeed(n))
  }

  lemma FateCountsBounces(a: Arena, g: PongState, n: nat, ball: GameObj, hyp: real) returns (flight: seq<Flying>)
    requires HasBounced(g, n) && BallFate(a, g.ball, Moved(ball, hyp))
    ensures IsTickFlight(a, g.ball, ServedSpeed(n), flight, Moved(ball, hyp))
    ensures IsSpeed(ball.velocity, ServedSpeed(n + |flight| - 1))
  {
    var h, f :| IsTickFlight(a, g.ball, h, f, Moved(ball, hyp));
    FlightStartsAtSpeed(a, g.ball, h, f, Moved(ball, hyp));
    SpeedIsUnique(g.ball.velocity, h, ServedSpeed(n));
    flight := f;
    TickCountsBounces(a, g.ball, flight, ball, hyp, n);
  }

  /** A tick adds the bounces of its flight; a goal starts over. */
  lemma TickAddsBounces(s: ServerState, deltaTime: int, outcome: Outcome, serve: Vector, n: nat) returns (m: nat)
    requires HasBounced(s.game, n) && IsServe(serve) && BallFate(TickArena(s, deltaTime), s.game.ball, outcome)
    ensures HasBounced(AfterTick(s, outcome, serve).game, m)
    ensures outcome.Scored? ==> m == 0
    ensures outcome.Moved? ==>
              exists flight :: |flight| == m - n + 1
                               && IsTickFlight(TickArena(s, deltaTime), s.game.ball, ServedSpeed(n), flight, outcome)
  {
    match outcome
    case Moved(ball, hyp) =>
      var flight := FateCountsBounces(TickArena(s, deltaTime), s.game, n, ball, hyp);
      m := n + |flight| - 1;
    case Scored(_) =>
      m := 0;
  }

  lemma StepCountsBounces(s: State, a: Action, n: nat) returns (m: nat)
    requires HasBounced(s.server.game, n) && Enabled(s, a)
    ensures HasBounced(Next(s, a).server.game, m)
  {
    if a.Tick? {
      m := TickAddsBounces(s.server, a.deltaTime, a.outcome, a.serve, n);
    } else {
      OnlyTicksTouchGame(s, a);
      m := n;
    }
  }

  lemma {:induction false} RunCountsBounces(s: State, actions: seq<Action>, end: State, n: nat) returns (m: nat)
    requires HasBounced(s.server.game, n) && IsRun(s, actions, end)
    ensures HasBounced(end.server.game, m)
    decreases |actions|
  {
    if actions == [] {
      m := n;
    } else {
      m := StepCountsBounces(s, actions[0], n);
      m := RunCountsBounces(Next(s, actions[0]), actions[1..], end, m);
    }
  }

  lemma StartHasBounced(id1: int, id2: int, serve: Vector)
    requires IsServe(serve)
    ensures HasBounced(Start(id1, id2, serve).server.game, 0)
  {
  }

  lemma ReachableHasBounced(s: State) returns (n: nat)
    requires Reachable(s)
    ensures HasBounced(s.server.game, n)
  {
    var id1: int, id2: int, serve, actions :|
      id1 != id2 && IsServe(serve) && IsRun(Start(id1, id2, serve), actions, s);
    StartHasBounced(id1, id2, serve);
    n := RunCountsBounces(Start(id1, id2, serve), actions, s, 0);
  }

  lemma BouncesCountTo59(g: PongState, m: nat) returns (n: nat)
    requires HasBounced(g, m)
    ensures n <= 59 && IsSpeed(g.ball.velocity, 0.05 + 0.01 * n as real)
  {
    n := if m < 59 then m else 59;
    assert ServedSpeed(m) == 0.05 + 0.01 * n as real;
  }

  /** In every reachable state the server's ball has one of the sixty speeds 0.05, 0.06, ..., 0.64. */
  lemma ReachableSpeed(s: State) returns (n: nat)
    requires Reachable(s)
    ensures n <= 59 && IsSpeed(s.server.game.ball.velocity, 0.05 + 0.01 * n as real)
  {
    var m := ReachableHasBounced(s);
    n := BouncesCountTo59(s.server.game, m);
  }
}
