/**
 Does the ball stay between the walls? It does, over any rally, as long as no bounce is a corner tie: a paddle's
 vertical edge and a wall reached at exactly the same time of impact. Then the paddle, which comes first, wins,
 only the horizontal velocity is mirrored, and the ball is left at the wall, flying into it: the rest of the tick
 takes it outside.
 */
module WallContainment {
  import opened Reals
  import opened FixedPoint
  import opened Vectors
  import opened Engine
  import opened Collision
  import opened BallLoop

  predicate CornerTie(a: Arena, s: Flying) {
    && IsValidToi(WallHit(a, s).toi)
    && Selected(a, s).toi == WallHit(a, s).toi
    && Selected(a, s).normal.x != 0.0
  }

  function Low(wall: Wall, ball: GameObj): real {
    wall.down as real + ball.size.y / 2.0
  }

  function High(wall: Wall, ball: GameObj): real {
    wall.up as real - ball.size.y / 2.0
  }

  /** At fraction `f` the ball is strictly between the walls, or exactly at the one it flies to. */
  ghost predicate InsideUntil(wall: Wall, ball: GameObj, deltaTime: int, f: real, atWall: bool) {
    var y := Sweep(ball, deltaTime, f).y;
    if atWall then
      && y == (if ball.velocity.y > 0.0 then High(wall, ball) else Low(wall, ball))
      && Low(wall, ball) < High(wall, ball)
    else Low(wall, ball) < y < High(wall, ball)
  }

  /** Up to the wall's own time of impact, or to the end of the sweep without one, a moving ball is inside. */
  lemma SweepStaysInside(wall: Wall, ball: GameObj, deltaTime: int, f: real)
    requires deltaTime > 0 && WallSafe(wall, ball) && ball.velocity.y != 0.0
    requires IsValidToi(f)
    requires var w := WallImpact(wall, ball, deltaTime, ZERO_COLL); IsValidToi(w.toi) ==> f <= w.toi
    ensures var w := WallImpact(wall, ball, deltaTime, ZERO_COLL);
            InsideUntil(wall, ball, deltaTime, f, IsValidToi(w.toi) && f == w.toi)
  {
    var w := WallImpact(wall, ball, deltaTime, ZERO_COLL);
    SweepDirection(ball, deltaTime);
    WallHitIsContact(wall, ball, deltaTime, ZERO_COLL);
    var travel := LinearMove(ball, deltaTime).pos.y - ball.pos.y;
    if ball.velocity.y > 0.0 {
      TimesSign(f, travel);
      if Sweep(ball, deltaTime, f).y >= High(wall, ball) {
        ReachesBy(wall, ball, deltaTime, f, wall.up);
      }
    } else {
      TimesSign(f, -travel);
      TimesNegated(f, travel);
      if Sweep(ball, deltaTime, f).y <= Low(wall, ball) {
        ReachesBy(wall, ball, deltaTime, f, wall.down);
      }
    }
    if IsValidToi(w.toi) && f == w.toi {
      if ball.velocity.y > 0.0 {
        TimesSign(w.toi, travel);
      } else {
        TimesSign(w.toi, -travel);
        TimesNegated(w.toi, travel);
      }
    }
  }

  /** A ball that has reached or passed a plane by fraction `f` makes the wall test hit by then. */
  lemma ReachesBy(wall: Wall, ball: GameObj, deltaTime: int, f: real, plane: int)
    requires deltaTime > 0 && ball.velocity.y != 0.0 && IsValidToi(f) && WallSafe(wall, ball)
    requires plane == if ball.velocity.y > 0.0 then wall.up else wall.down
    requires if ball.velocity.y > 0.0 then Sweep(ball, deltaTime, f).y >= High(wall, ball)
             else Sweep(ball, deltaTime, f).y <= Low(wall, ball)
    ensures HitsBy(WallImpact(wall, ball, deltaTime, ZERO_COLL), f)
    ensures EdgeY(ball, deltaTime, f) != plane as real ==> WallImpact(wall, ball, deltaTime, ZERO_COLL).toi < f
  {
    SweepDirection(ball, deltaTime);
    var travel := LinearMove(ball, deltaTime).pos.y - ball.pos.y;
    var gap := plane as real - Lead(ball.velocity.y, ball.size.y) - ball.pos.y;
    var earlier := gap / travel;
    QuotientTimes(gap, travel);
    if ball.velocity.y > 0.0 {
      OrderOfFactors(earlier, f, travel);
    } else {
      TimesNegated(f, travel);
      TimesNegated(earlier, travel);
      OrderOfFactors(earlier, f, -travel);
    }
    assert EdgeY(ball, deltaTime, earlier) == plane as real;
    ContactIsWallHit(wall, ball, deltaTime, ZERO_COLL, earlier);
  }

  /** A ball that does not move along y stays where it is. */
  lemma LevelFlight(wall: Wall, ball: GameObj, deltaTime: int, f: real)
    requires ball.velocity.y == 0.0
    ensures Sweep(ball, deltaTime, f).y == ball.pos.y && LinearMove(ball, deltaTime).pos.y == ball.pos.y
    ensures !IsValidToi(WallImpact(wall, ball, deltaTime, ZERO_COLL).toi)
  {
    TimesOne(deltaTime as real);
    TimesOne(f);
  }

  lemma SelectedIsFirst(a: Arena, s: Flying)
    requires IsValidToi(Selected(a, s).toi)
    ensures IsValidToi(WallHit(a, s).toi) ==> Selected(a, s).toi <= WallHit(a, s).toi
  {
    First4Chooses(PaddleImpact(s.ball, a.paddle1, a.deltaTime, ZERO_COLL),
                  PaddleImpact(s.ball, a.paddle2, a.deltaTime, ZERO_COLL),
                  WallHit(a, s), GoalHit(a, s), ZERO_COLL);
  }

  /** Geometry of one bounce, `tie` telling whether wall and impact coincide. */
  lemma ImpactKeepsWallSafe(wall: Wall, ball: GameObj, deltaTime: int, c: CollInfo, k: real, ball': GameObj, tie: bool)
    requires deltaTime > 0 && WallSafe(wall, ball) && k >= 1.0
    requires IsImpactOf(ball, deltaTime, c)
    requires ball' == ball.(pos := c.pos, velocity := Multiply(ReflectOrthogonal(ball.velocity, c.normal), k))
    requires if ball.velocity.y == 0.0 then !tie else InsideUntil(wall, ball, deltaTime, c.toi, tie)
    ensures WallSafe(wall, ball') <==> !(tie && c.normal.x != 0.0)
  {
    TimesSign(ball.velocity.y, k);
    TimesSign(-ball.velocity.y, k);
    if ball.velocity.y == 0.0 {
      LevelFlight(wall, ball, deltaTime, c.toi);
      RestingBallStays(ball, deltaTime);
    }
  }

  /** One bounce of a ball between the walls leaves it there exactly when it is not a corner tie. */
  lemma BounceKeepsWallSafeIff(a: Arena, s: Flying, s': Flying)
    requires a.deltaTime > 0 && WallSafe(a.wall, s.ball) && Continues(a, s, s')
    ensures WallSafe(a.wall, s'.ball) <==> !CornerTie(a, s)
  {
    var c := Selected(a, s);
    var tie := IsValidToi(WallHit(a, s).toi) && c.toi == WallHit(a, s).toi;
    BounceResult(a, s);
    SelectedIsFirst(a, s);
    var k := Gain(s.hyp);
    assert k >= 1.0 by { BounceIsScaledReflection(s.ball.velocity, c.normal, s.hyp); }
    if s.ball.velocity.y == 0.0 {
      LevelFlight(a.wall, s.ball, a.deltaTime, c.toi);
    } else {
      SweepStaysInside(a.wall, s.ball, a.deltaTime, c.toi);
    }
    ImpactKeepsWallSafe(a.wall, s.ball, a.deltaTime, c, k, s'.ball, tie);
  }

  /** The ball is between the walls, wherever it is flying. */
  predicate Within(wall: Wall, ball: GameObj) {
    Low(wall, ball) <= ball.pos.y <= High(wall, ball)
  }

  /** The ball is exactly at a wall and flying into it. */
  predicate LeavesAtWall(wall: Wall, ball: GameObj) {
    || (ball.pos.y == High(wall, ball) && ball.velocity.y > 0.0)
    || (ball.pos.y == Low(wall, ball) && ball.velocity.y < 0.0)
  }

  /** One bounce alone never takes the ball outside; a corner tie leaves it at the wall, flying into it. */
  lemma BounceStaysWithin(a: Arena, s: Flying, s': Flying)
    requires a.deltaTime > 0 && WallSafe(a.wall, s.ball) && Continues(a, s, s')
    ensures Within(a.wall, s'.ball)
    ensures CornerTie(a, s) <==> LeavesAtWall(a.wall, s'.ball)
    ensures s'.ball.size == s.ball.size
  {
    var c := Selected(a, s);
    BounceResult(a, s);
    SelectedIsFirst(a, s);
    if s.ball.velocity.y == 0.0 {
      LevelFlight(a.wall, s.ball, a.deltaTime, c.toi);
    } else {
      SweepStaysInside(a.wall, s.ball, a.deltaTime, c.toi);
    }
    BounceKeepsWallSafeIff(a, s, s');
  }

  /** From there every way on leads outside: a move of any length ... */
  lemma MovesOutside(wall: Wall, ball: GameObj, part: int)
    requires LeavesAtWall(wall, ball) && part > 0 && Low(wall, ball) <= High(wall, ball)
    ensures !Within(wall, LinearMove(ball, part))
  {
    TimesSign(ball.velocity.y, part as real);
  }

  /** ... and the way to the next impact. */
  lemma SweepsOutside(wall: Wall, ball: GameObj, deltaTime: int, f: real)
    requires deltaTime > 0 && f > 0.0 && LeavesAtWall(wall, ball) && Low(wall, ball) <= High(wall, ball)
    ensures !Within(wall, ball.(pos := Sweep(ball, deltaTime, f)))
  {
    var travel := LinearMove(ball, deltaTime).pos.y - ball.pos.y;
    SweepDirection(ball, deltaTime);
    TimesCommutes(f, travel);
    TimesSign(travel, f);
  }

  lemma BouncesOutside(a: Arena, s: Flying, s': Flying)
    requires a.deltaTime > 0 && LeavesAtWall(a.wall, s.ball) && Low(a.wall, s.ball) <= High(a.wall, s.ball)
    requires Continues(a, s, s')
    ensures !Within(a.wall, s'.ball)
  {
    BounceResult(a, s);
    SweepsOutside(a.wall, s.ball, a.deltaTime, Selected(a, s).toi);
  }

  /** A tick whose last bounce is a corner tie ends outside the walls, unless no millisecond remains. */
  lemma TieEndsOutside(a: Arena, s: Flying, s': Flying, outcome: Outcome)
    requires a.deltaTime > 0 && WallSafe(a.wall, s.ball) && Continues(a, s, s') && CornerTie(a, s)
    requires s'.passed < a.deltaTime as real && Remaining(a, s') > 0
    requires EndsAs(a, s', outcome) && outcome.Moved?
    ensures !Within(a.wall, outcome.ball)
  {
    BounceStaysWithin(a, s, s');
    MovesOutside(a.wall, s'.ball, Remaining(a, s'));
  }

  ghost predicate AllInside(wall: Wall, flight: seq<Flying>) {
    forall i :: 0 <= i < |flight| ==> WallSafe(wall, flight[i].ball)
  }

  /** No bounce of the flight is a corner tie; the last state has not bounced yet. */
  ghost predicate NoCornerTie(a: Arena, flight: seq<Flying>)
    decreases |flight|
  {
    var n := |flight| - 1;
    n > 0 ==> NoCornerTie(a, flight[..n]) && !CornerTie(a, flight[n - 1])
  }

  lemma AllInsideSplits(wall: Wall, flight: seq<Flying>, n: nat)
    requires n + 1 == |flight|
    ensures AllInside(wall, flight) <==> AllInside(wall, flight[..n]) && WallSafe(wall, flight[n].ball)
  {
    if AllInside(wall, flight[..n]) {
      assert forall i :: 0 <= i < n ==> flight[i] == flight[..n][i];
    }
  }

  lemma LastBounceDecides(a: Arena, flight: seq<Flying>, n: nat)
    requires a.deltaTime > 0 && n + 1 == |flight| && n > 0 && IsFlight(a, flight)
    requires WallSafe(a.wall, flight[n - 1].ball)
    ensures WallSafe(a.wall, flight[n].ball) <==> !CornerTie(a, flight[n - 1])
  {
    assert Continues(a, flight[n - 1], flight[n]);
    BounceKeepsWallSafeIff(a, flight[n - 1], flight[n]);
  }

  lemma FlightPrefix(a: Arena, flight: seq<Flying>, n: nat)
    requires IsFlight(a, flight) && 0 < n <= |flight|
    ensures IsFlight(a, flight[..n]) && flight[..n][0] == flight[0] && flight[..n][n - 1] == flight[n - 1]
  {
  }

  /** Every state of a flight is between the walls, and flying inward where it touches one, exactly when no bounce
      in it is a corner tie. */
  lemma {:induction false} FlightStaysInsideIff(a: Arena, flight: seq<Flying>)
    requires a.deltaTime > 0 && IsFlight(a, flight) && WallSafe(a.wall, flight[0].ball)
    ensures AllInside(a.wall, flight) <==> NoCornerTie(a, flight)
  {
    var n := |flight| - 1;
    if n > 0 {
      FlightPrefix(a, flight, n);
      FlightStaysInsideIff(a, flight[..n]);
      AllInsideSplits(a.wall, flight, n);
      if AllInside(a.wall, flight[..n]) {
        assert WallSafe(a.wall, flight[..n][n - 1].ball);
        LastBounceDecides(a, flight, n);
      }
    }
  }

  ghost predicate AllWithin(wall: Wall, flight: seq<Flying>) {
    forall i :: 0 <= i < |flight| ==> Within(wall, flight[i].ball)
  }

  lemma AllWithinSplits(wall: Wall, flight: seq<Flying>, n: nat)
    requires n + 1 == |flight|
    ensures AllWithin(wall, flight) <==> AllWithin(wall, flight[..n]) && Within(wall, flight[n].ball)
  {
    if AllWithin(wall, flight[..n]) {
      assert forall i :: 0 <= i < n ==> flight[i] == flight[..n][i];
    }
  }

  /** Two bounces in a row from a safe ball: the second takes it outside exactly if the first is a corner tie. */
  lemma TwoBounces(a: Arena, s: Flying, t: Flying, u: Flying)
    requires a.deltaTime > 0 && WallSafe(a.wall, s.ball) && Continues(a, s, t) && Continues(a, t, u)
    ensures Within(a.wall, u.ball) <==> !CornerTie(a, s)
  {
    BounceStaysWithin(a, s, t);
    BounceKeepsWallSafeIff(a, s, t);
    if CornerTie(a, s) {
      BouncesOutside(a, t, u);
    } else {
      BounceStaysWithin(a, t, u);
    }
  }

  lemma NoTieSplits(a: Arena, flight: seq<Flying>, n: nat)
    requires 1 < n <= |flight|
    ensures flight[..n][..n - 1] == flight[..n - 1]
    ensures NoCornerTie(a, flight[..n]) <==> NoCornerTie(a, flight[..n - 1]) && !CornerTie(a, flight[n - 2])
  {
    assert flight[..n][..n - 1] == flight[..n - 1] && flight[..n][n - 2] == flight[n - 2];
  }

  /** With no tie before, the last state is between the walls exactly if the bounce before the last was no tie. */
  lemma LastIsWithinIff(a: Arena, flight: seq<Flying>, n: nat)
    requires a.deltaTime > 0 && IsFlight(a, flight) && n + 1 == |flight| && n > 1 && WallSafe(a.wall, flight[0].ball)
    requires NoCornerTie(a, flight[..n - 1])
    ensures Within(a.wall, flight[n].ball) <==> !CornerTie(a, flight[n - 2])
  {
    SafeUpTo(a, flight, n - 2);
    var i, j := n - 2, n - 1;
    assert Continues(a, flight[i], flight[i + 1]) && Continues(a, flight[j], flight[j + 1]);
    TwoBounces(a, flight[n - 2], flight[n - 1], flight[n]);
  }

  lemma FirstBounceIsWithin(a: Arena, flight: seq<Flying>)
    requires a.deltaTime > 0 && IsFlight(a, flight) && |flight| == 2 && WallSafe(a.wall, flight[0].ball)
    ensures AllWithin(a.wall, flight) && NoCornerTie(a, flight[..1])
  {
    assert Continues(a, flight[0], flight[1]);
    BounceStaysWithin(a, flight[0], flight[1]);
  }

  /** By position alone: a flight is between the walls in all its states exactly when no bounce but possibly the
      last is a corner tie; the tie is felt one bounce later. */
  lemma {:induction false} FlightStaysWithinIff(a: Arena, flight: seq<Flying>)
    requires a.deltaTime > 0 && IsFlight(a, flight) && |flight| > 1 && WallSafe(a.wall, flight[0].ball)
    ensures AllWithin(a.wall, flight) <==> NoCornerTie(a, flight[..|flight| - 1])
  {
    var n := |flight| - 1;
    if n == 1 {
      FirstBounceIsWithin(a, flight);
    } else {
      FlightPrefix(a, flight, n);
      AllWithinSplits(a.wall, flight, n);
      NoTieSplits(a, flight, n);
      FlightStaysWithinIff(a, flight[..n]);
      if NoCornerTie(a, flight[..n - 1]) {
        LastIsWithinIff(a, flight, n);
      }
    }
  }

  lemma SafeUpTo(a: Arena, flight: seq<Flying>, k: nat)
    requires a.deltaTime > 0 && IsFlight(a, flight) && k < |flight| && WallSafe(a.wall, flight[0].ball)
    requires NoCornerTie(a, flight[..k + 1])
    ensures WallSafe(a.wall, flight[k].ball)
  {
    FlightPrefix(a, flight, k + 1);
    FlightStaysInsideIff(a, flight[..k + 1]);
    assert flight[..k + 1][k] == flight[k];
  }

  /** The last, partial move covers no more than the sweep that found nothing in the way. */
  lemma PartialMoveStaysInside(wall: Wall, ball: GameObj, deltaTime: int, part: int)
    requires deltaTime > 0 && 0 <= part <= deltaTime && WallSafe(wall, ball)
    requires !IsValidToi(WallImpact(wall, ball, deltaTime, ZERO_COLL).toi)
    ensures WallSafe(wall, LinearMove(ball, part))
  {
    var v := ball.velocity.y;
    if v == 0.0 {
      LevelFlight(wall, ball, part, 1.0);
    } else {
      SweepStaysInside(wall, ball, deltaTime, 1.0);
      TimesOne(LinearMove(ball, deltaTime).pos.y - ball.pos.y);
      if v > 0.0 {
        TimesMonotone(part as real, deltaTime as real, v);
        TimesMonotone(0.0, part as real, v);
      } else {
        TimesMonotone(part as real, deltaTime as real, -v);
        TimesMonotone(0.0, part as real, -v);
        TimesNegated(part as real, v);
        TimesNegated(deltaTime as real, v);
      }
      TimesOne(v);
      TimesCommutes(v, part as real);
      TimesCommutes(v, deltaTime as real);
      if part == 0 {
        assert LinearMove(ball, part).pos.y == ball.pos.y;
      } else if v > 0.0 {
        TimesSign(part as real, v);
      } else {
        TimesSign(part as real, -v);
      }
    }
  }

  /** One whole call: a ball between the walls comes out between the walls unless a corner tie interferes. */
  lemma TickStaysInside(a: Arena, ball: GameObj, hyp: real, flight: seq<Flying>, ball': GameObj, hyp': real)
    requires a.deltaTime > 0 && WallSafe(a.wall, ball)
    requires IsTickFlight(a, ball, hyp, flight, Moved(ball', hyp'))
    requires NoCornerTie(a, flight)
    ensures WallSafe(a.wall, ball')
  {
    var last := flight[|flight| - 1];
    FlightStaysInsideIff(a, flight);
    if |flight| > 1 {
      assert Continues(a, flight[0], flight[1]);
    }
    var _ := FlightStretches(a, flight);
    if last.passed < a.deltaTime as real {
      TruncBounds(a.deltaTime as real - last.passed);
      NoContactMeansNoWall(a, last);
      PartialMoveStaysInside(a.wall, last.ball, a.deltaTime, Remaining(a, last));
    }
  }

  lemma NoContactMeansNoWall(a: Arena, s: Flying)
    requires !IsValidToi(Selected(a, s).toi)
    ensures !IsValidToi(WallHit(a, s).toi)
  {
    First4Chooses(PaddleImpact(s.ball, a.paddle1, a.deltaTime, ZERO_COLL),
                  PaddleImpact(s.ball, a.paddle2, a.deltaTime, ZERO_COLL),
                  WallHit(a, s), GoalHit(a, s), ZERO_COLL);
  }

  // ---------------------------------------------------------------- rallies

  /** One non-scoring tick of a rally: the arena it ran in, its flight, and the ball it left. */
  datatype RallyTick = RallyTick(arena: Arena, flight: seq<Flying>, ball: GameObj, hyp: real)

  /** Consecutive non-scoring ticks, with any tick lengths and any paddles. */
  ghost predicate IsRally(wall: Wall, ball: GameObj, hyp: real, ticks: seq<RallyTick>)
    decreases |ticks|
  {
    ticks != [] ==>
      && var t := ticks[0];
      && t.arena.deltaTime > 0 && t.arena.wall == wall
      && IsTickFlight(t.arena, ball, hyp, t.flight, Moved(t.ball, t.hyp))
      && IsRally(wall, t.ball, t.hyp, ticks[1..])
  }

  ghost predicate RallyWithoutTie(ticks: seq<RallyTick>) {
    forall i :: 0 <= i < |ticks| ==> NoCornerTie(ticks[i].arena, ticks[i].flight)
  }

  ghost predicate RallyInside(wall: Wall, ticks: seq<RallyTick>) {
    forall i :: 0 <= i < |ticks| ==> WallSafe(wall, ticks[i].ball)
  }

  lemma RallySplits(wall: Wall, ticks: seq<RallyTick>)
    requires ticks != []
    ensures RallyWithoutTie(ticks) ==> NoCornerTie(ticks[0].arena, ticks[0].flight) && RallyWithoutTie(ticks[1..])
    ensures WallSafe(wall, ticks[0].ball) && RallyInside(wall, ticks[1..]) ==> RallyInside(wall, ticks)
  {
    assert forall i :: 0 < i < |ticks| ==> ticks[i] == ticks[1..][i - 1];
  }

  /** Over a rally of any length the ball is between the walls after every tick. */
  lemma {:induction false} RallyStaysInside(wall: Wall, ball: GameObj, hyp: real, ticks: seq<RallyTick>)
    requires WallSafe(wall, ball) && IsRally(wall, ball, hyp, ticks) && RallyWithoutTie(ticks)
    ensures RallyInside(wall, ticks)
    decreases |ticks|
  {
    if ticks != [] {
      var t := ticks[0];
      RallySplits(wall, ticks);
      TickStaysInside(t.arena, ball, hyp, t.flight, t.ball, t.hyp);
      RallyStaysInside(wall, t.ball, t.hyp, ticks[1..]);
    }
  }

  /** Over a rally of any length the speed stays the length of the velocity, never falls, and never exceeds
      the larger of 0.64 and the initial speed; both components grow by the same factor. */
  lemma {:induction false} RallyStretches(wall: Wall, ball: GameObj, hyp: real, ticks: seq<RallyTick>) returns (k: real)
    requires IsSpeed(ball.velocity, hyp) && IsRally(wall, ball, hyp, ticks) && |ticks| > 0
    ensures var last := ticks[|ticks| - 1];
            && IsSpeed(last.ball.velocity, last.hyp)
            && Stretched(ball.velocity, hyp, last.ball.velocity, last.hyp, k)
            && last.hyp <= TopSpeed(hyp)
    decreases |ticks|
  {
    var t := ticks[0];
    k := FlightStretches(t.arena, t.flight);
    assert t.ball.velocity == t.flight[|t.flight| - 1].ball.velocity;
    if |ticks| > 1 {
      var rest := ticks[1..];
      var l := RallyStretches(wall, t.ball, t.hyp, rest);
      var last := rest[|rest| - 1];
      StretchingComposes(ball.velocity, hyp, t.ball.velocity, t.hyp, last.ball.velocity, last.hyp, k, l);
      k := Times(k, l);
    }
  }
}
