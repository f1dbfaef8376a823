/**
 The bounce loop ends: an explicit bound on the number of bounces in one tick, for every ball, paddles, walls and tick
 length.

 Walls and paddle edges reach the plane tests as `int`s. So between two bounces on the same axis the ball covers a
 whole number minus its own size, and that is at least `Gap`, a positive constant. At bounded speed this takes at
 least a fixed part of `passed_time`.
 */
module BounceBudget {
  import opened Reals
  import opened Vectors
  import opened Engine
  import opened Collision
  import opened BallLoop

  /** The least distance between two bounces on one axis: the least positive "whole number minus size". */
  function Gap(size: real): real {
    size.Floor as real + 1.0 - size
  }

  /** Per axis: how many bounces so far, the time counted and the distance covered since the last one. */
  datatype Axis = Axis(hits: nat, since: real, dist: real)

  /** The plane of the last bounce: where the ball was `dist` ago, corrected to the edge that touched. */
  function LastPlane(pos: real, velocity: real, size: real, dist: real): real {
    if velocity > 0.0 then pos - size / 2.0 - dist else pos + size / 2.0 + dist
  }

  /** The books of one axis; `reach` is how far the ball gets in one unit of `passed_time`, at most. */
  ghost predicate AxisOk(pos: real, velocity: real, size: real, passed: real, reach: real, t: Axis) {
    t.hits > 0 ==>
      && velocity != 0.0
      && t.since >= 0.0 && t.dist >= 0.0
      && IsWhole(LastPlane(pos, velocity, size, t.dist))
      && t.dist <= Times(t.since, reach)
      && Times((t.hits - 1) as real, Gap(size)) <= Times(passed - t.since, reach)
  }

  /** `pos` is reached from `from` with velocity `v`, within the reach of `toi`. */
  ghost predicate FliesTo(from: real, v: real, pos: real, reach: real, toi: real) {
    && Abs(pos - from) <= Times(toi, reach)
    && (v > 0.0 ==> from < pos)
    && (v < 0.0 ==> pos < from)
    && (v == 0.0 ==> pos == from)
  }

  /** Flying on, with no bounce on this axis, keeps the books. */
  lemma AxisFlies(from: real, v: real, size: real, passed: real, reach: real, t: Axis, toi: real, pos: real, v': real)
    requires AxisOk(from, v, size, passed, reach, t)
    requires FliesTo(from, v, pos, reach, toi) && toi > 0.0
    requires (v > 0.0 <==> v' > 0.0) && (v < 0.0 <==> v' < 0.0)
    ensures AxisOk(pos, v', size, passed + toi, reach, Axis(t.hits, t.since + toi, t.dist + Abs(pos - from)))
  {
    if t.hits > 0 {
      TimesAdds(t.since, toi, reach);
      assert (passed + toi) - (t.since + toi) == passed - t.since;
      SameWhole(LastPlane(from, v, size, t.dist), LastPlane(pos, v', size, t.dist + Abs(pos - from)));
    }
  }

  lemma WholeDistance(a: real, b: real, size: real)
    requires IsWhole(a) && IsWhole(b) && b - a > size
    ensures b - a - size >= Gap(size)
  {
    var n := b.Floor - a.Floor;
    assert b - a == n as real;
    assert n >= size.Floor + 1;
  }

  lemma EnoughDistance(from: real, v: real, size: real, t: Axis, pos: real)
    requires t.dist >= 0.0 && v != 0.0
    requires IsWhole(LastPlane(from, v, size, t.dist)) && IsWhole(pos + Lead(v, size))
    requires if v > 0.0 then from < pos else pos < from
    ensures t.dist + Abs(pos - from) >= Gap(size)
  {
    if v > 0.0 {
      WholeDistance(LastPlane(from, v, size, t.dist), pos + Lead(v, size), size);
    } else {
      WholeDistance(pos + Lead(v, size), LastPlane(from, v, size, t.dist), size);
    }
  }

  /** Bouncing on this axis: the distance since the last bounce was at least the gap, so enough time passed. */
  lemma AxisBounces(from: real, v: real, size: real, passed: real, reach: real, t: Axis, toi: real, pos: real, v': real)
    requires AxisOk(from, v, size, passed, reach, t)
    requires FliesTo(from, v, pos, reach, toi) && toi > 0.0 && passed >= 0.0 && reach >= 0.0
    requires v != 0.0 && IsWhole(pos + Lead(v, size))
    requires (v > 0.0 <==> v' < 0.0) && (v < 0.0 <==> v' > 0.0)
    ensures AxisOk(pos, v', size, passed + toi, reach, Axis(t.hits + 1, 0.0, 0.0))
  {
    SameWhole(pos + Lead(v, size), LastPlane(pos, v', size, 0.0));
    TimesOne(reach);
    TimesOne(Gap(size));
    if t.hits == 0 {
      TimesMonotone(0.0, passed + toi, reach);
    } else {
      EnoughDistance(from, v, size, t, pos);
      TimesAdds(t.since, toi, reach);
      TimesAdds(passed - t.since, t.since + toi, reach);
      assert (passed - t.since) + (t.since + toi) == passed + toi;
      TimesAdds((t.hits - 1) as real, 1.0, Gap(size));
      assert (t.hits - 1) as real + 1.0 == t.hits as real;
    }
  }

  lemma SweepWithinReach(from: real, v: real, top: real, deltaTime: int, toi: real, pos: real)
    requires Abs(v) <= top && toi > 0.0 && deltaTime > 0
    requires pos == Times(toi, from + Times(v, deltaTime as real) - from) + from
    ensures FliesTo(from, v, pos, Times(top, deltaTime as real), toi)
  {
    var d := deltaTime as real;
    var travel := Times(v, d);
    assert from + travel - from == travel;
    TimesSign(v, d);
    TimesAbs(v, d);
    TimesMonotone(Abs(v), top, d);
    TimesCommutes(toi, travel);
    TimesSign(travel, toi);
    TimesAbs(travel, toi);
    TimesMonotone(Abs(travel), Times(top, d), toi);
    TimesCommutes(toi, Times(top, d));
  }

  /** The books of both axes, with the speed below `top`. */
  ghost predicate TrackOk(a: Arena, s: Flying, top: real, tx: Axis, ty: Axis) {
    var reach := Times(top, a.deltaTime as real);
    && s.passed >= 0.0
    && IsSpeed(s.ball.velocity, s.hyp) && s.hyp <= top && 0.64 <= top
    && AxisOk(s.ball.pos.x, s.ball.velocity.x, s.ball.size.x, s.passed, reach, tx)
    && AxisOk(s.ball.pos.y, s.ball.velocity.y, s.ball.size.y, s.passed, reach, ty)
  }

  /** An impact adds a hit on exactly one axis and keeps the books. */
  lemma ImpactKeepsBooks(a: Arena, s: Flying, c: CollInfo, k: real, top: real, tx: Axis, ty: Axis)
    returns (tx': Axis, ty': Axis)
    requires a.deltaTime > 0 && TrackOk(a, s, top, tx, ty) && k > 0.0
    requires IsImpactOf(s.ball, a.deltaTime, c)
    ensures var v := Multiply(ReflectOrthogonal(s.ball.velocity, c.normal), k);
            var reach := Times(top, a.deltaTime as real);
            && AxisOk(c.pos.x, v.x, s.ball.size.x, s.passed + c.toi, reach, tx')
            && AxisOk(c.pos.y, v.y, s.ball.size.y, s.passed + c.toi, reach, ty')
    ensures tx'.hits + ty'.hits == tx.hits + ty.hits + 1
  {
    var from, v, size, reach := s.ball.pos, s.ball.velocity, s.ball.size, Times(top, a.deltaTime as real);
    var v' := Multiply(ReflectOrthogonal(v, c.normal), k);
    ComponentsWithinSpeed(v, s.hyp);
    RestingBallStays(s.ball, a.deltaTime);
    SweepWithinReach(from.x, v.x, top, a.deltaTime, c.toi, c.pos.x);
    SweepWithinReach(from.y, v.y, top, a.deltaTime, c.toi, c.pos.y);
    TimesSign(top, a.deltaTime as real);
    TimesSign(ReflectOrthogonal(v, c.normal).x, k);
    TimesSign(ReflectOrthogonal(v, c.normal).y, k);
    if c.normal.x != 0.0 {
      AxisBounces(from.x, v.x, size.x, s.passed, reach, tx, c.toi, c.pos.x, v'.x);
      AxisFlies(from.y, v.y, size.y, s.passed, reach, ty, c.toi, c.pos.y, v'.y);
      tx', ty' := Axis(tx.hits + 1, 0.0, 0.0), Axis(ty.hits, ty.since + c.toi, ty.dist + Abs(c.pos.y - from.y));
    } else {
      AxisFlies(from.x, v.x, size.x, s.passed, reach, tx, c.toi, c.pos.x, v'.x);
      AxisBounces(from.y, v.y, size.y, s.passed, reach, ty, c.toi, c.pos.y, v'.y);
      tx', ty' := Axis(tx.hits, tx.since + c.toi, tx.dist + Abs(c.pos.x - from.x)), Axis(ty.hits + 1, 0.0, 0.0);
    }
  }

  lemma StateAfterImpactKeepsBooks(a: Arena, s: Flying, c: CollInfo, k: real, s': Flying, top: real, tx: Axis, ty: Axis)
    returns (tx': Axis, ty': Axis)
    requires a.deltaTime > 0 && TrackOk(a, s, top, tx, ty) && k > 0.0
    requires IsImpactOf(s.ball, a.deltaTime, c)
    requires s'.ball == s.ball.(pos := c.pos, velocity := Multiply(ReflectOrthogonal(s.ball.velocity, c.normal), k))
    requires s'.passed == s.passed + c.toi && s'.hyp == SpeedAfterBounce(s.hyp) && IsSpeed(s'.ball.velocity, s'.hyp)
    ensures TrackOk(a, s', top, tx', ty')
    ensures tx'.hits + ty'.hits == tx.hits + ty.hits + 1
  {
    tx', ty' := ImpactKeepsBooks(a, s, c, k, top, tx, ty);
  }

  lemma BounceKeepsBooks(a: Arena, s: Flying, s': Flying, top: real, tx: Axis, ty: Axis) returns (tx': Axis, ty': Axis)
    requires a.deltaTime > 0 && TrackOk(a, s, top, tx, ty) && Continues(a, s, s')
    ensures TrackOk(a, s', top, tx', ty')
    ensures tx'.hits + ty'.hits == tx.hits + ty.hits + 1
  {
    BounceResult(a, s);
    assert Gain(s.hyp) > 0.0 by {
      BounceIsScaledReflection(s.ball.velocity, Selected(a, s).normal, s.hyp);
    }
    tx', ty' := StateAfterImpactKeepsBooks(a, s, Selected(a, s), Gain(s.hyp), s', top, tx, ty);
  }

  const NO_HITS := Axis(0, 0.0, 0.0)

  /** The books of a whole flight: one hit per bounce. */
  lemma {:induction false} FlightKeepsBooks(a: Arena, flight: seq<Flying>, top: real) returns (tx: Axis, ty: Axis)
    requires a.deltaTime > 0 && IsFlight(a, flight)
    requires TrackOk(a, flight[0], top, NO_HITS, NO_HITS)
    ensures TrackOk(a, flight[|flight| - 1], top, tx, ty)
    ensures tx.hits + ty.hits == |flight| - 1
    ensures flight[|flight| - 1].ball.size == flight[0].ball.size
  {
    if |flight| == 1 {
      tx, ty := NO_HITS, NO_HITS;
    } else {
      var before := flight[..|flight| - 1];
      tx, ty := FlightKeepsBooks(a, before, top);
      assert Continues(a, flight[|flight| - 2], flight[|flight| - 1]);
      BounceResult(a, flight[|flight| - 2]);
      tx, ty := BounceKeepsBooks(a, flight[|flight| - 2], flight[|flight| - 1], top, tx, ty);
    }
  }

  /** How many bounces on one axis a tick has room for: one, and one more per gap the ball can cover. */
  function AxisBudget(top: real, deltaTime: int, size: real): int {
    (Times(deltaTime as real, Times(top, deltaTime as real)) / Gap(size)).Floor + 1
  }

  function Budget(top: real, deltaTime: int, size: Vector): int {
    AxisBudget(top, deltaTime, size.x) + AxisBudget(top, deltaTime, size.y) + 1
  }

  lemma AxisWithinBudget(pos: real, v: real, size: real, passed: real, top: real, deltaTime: int, t: Axis)
    requires deltaTime > 0 && top > 0.0 && passed <= deltaTime as real
    requires AxisOk(pos, v, size, passed, Times(top, deltaTime as real), t)
    ensures t.hits <= AxisBudget(top, deltaTime, size)
  {
    var d := deltaTime as real;
    var reach, gap := Times(top, d), Gap(size);
    TimesSign(top, d);
    TimesSign(d, reach);
    PositiveQuotient(Times(d, reach), gap);
    if t.hits > 0 {
      TimesMonotone(passed - t.since, d, reach);
      QuotientBound((t.hits - 1) as real, gap, Times(d, reach));
    }
  }

  lemma QuotientBound(n: real, gap: real, total: real)
    requires gap > 0.0 && Times(n, gap) <= total
    ensures n <= total / gap
  {
    QuotientTimes(total, gap);
    if total / gap < n {
      TimesStrictlyMonotone(total / gap, n, gap);
    }
  }

  lemma BooksWithinBudget(a: Arena, s: Flying, top: real, tx: Axis, ty: Axis)
    requires a.deltaTime > 0 && TrackOk(a, s, top, tx, ty) && s.passed < a.deltaTime as real
    ensures tx.hits + ty.hits < Budget(top, a.deltaTime, s.ball.size)
  {
    AxisWithinBudget(s.ball.pos.x, s.ball.velocity.x, s.ball.size.x, s.passed, top, a.deltaTime, tx);
    AxisWithinBudget(s.ball.pos.y, s.ball.velocity.y, s.ball.size.y, s.passed, top, a.deltaTime, ty);
  }

  /**
   No flight bounces more often than the budget. For the game's ball (size 10, speed at most 0.64) and a
   tick of d milliseconds that is 2 * (floor(0.64 * d * d) + 1) + 1 bounces.
   */
  lemma FlightIsBounded(a: Arena, ball: GameObj, hyp: real, flight: seq<Flying>)
    requires a.deltaTime > 0 && IsSpeed(ball.velocity, hyp)
    requires IsFlight(a, flight) && flight[0] == Launch(ball, hyp)
    ensures |flight| - 1 <= Budget(TopSpeed(hyp), a.deltaTime, ball.size)
  {
    if |flight| == 1 {
      BooksWithinBudget(a, flight[0], TopSpeed(hyp), NO_HITS, NO_HITS);
    } else {
      var before := flight[..|flight| - 1];
      var tx, ty := FlightKeepsBooks(a, before, TopSpeed(hyp));
      assert Continues(a, flight[|flight| - 2], flight[|flight| - 1]);
      BooksWithinBudget(a, flight[|flight| - 2], TopSpeed(hyp), tx, ty);
    }
  }

  lemma BudgetOfGameBall(deltaTime: int)
    requires deltaTime > 0
    ensures Budget(0.64, deltaTime, Vector(10.0, 10.0)) == 2 * ((0.64 * (deltaTime * deltaTime) as real).Floor + 1) + 1
  {
    var d := deltaTime as real;
    assert Gap(10.0) == 1.0;
    assert (deltaTime * deltaTime) as real == d * d;
    assert Times(d, Times(0.64, d)) == 0.64 * (d * d);
  }

  /** The loop is deterministic: two complete flights of the same ball are the same flight. */
  lemma {:induction false} FlightsAgree(a: Arena, f: seq<Flying>, g: seq<Flying>)
    requires IsFlight(a, f) && IsFlight(a, g) && f[0] == g[0] && |f| <= |g|
    ensures f == g[..|f|]
  {
    if |f| > 1 {
      var f', g' := f[..|f| - 1], g[..|g| - 1];
      FlightsAgree(a, f', g');
      assert f[|f| - 2] == g[|f| - 2];
      assert Continues(a, f[|f| - 2], f[|f| - 1]) && Continues(a, g[|f| - 2], g[|f| - 1]);
      assert f == f' + [f[|f| - 1]];
    }
  }

  lemma OnlyTheLastEnds(a: Arena, flight: seq<Flying>, outcome: Outcome)
    requires IsFlight(a, flight)
    ensures forall j :: 0 <= j < |flight| - 1 ==> !EndsAs(a, flight[j], outcome)
  {
    forall j | 0 <= j < |flight| - 1
      ensures !EndsAs(a, flight[j], outcome)
    {
      assert Continues(a, flight[j], flight[j + 1]);
    }
  }

  lemma EndedIsNotShorter(a: Arena, f: seq<Flying>, o: Outcome, g: seq<Flying>)
    requires IsFlight(a, f) && IsFlight(a, g) && f[0] == g[0] && EndsAs(a, f[|f| - 1], o)
    ensures |g| <= |f|
  {
    OnlyTheLastEnds(a, g, o);
    if |f| <= |g| {
      FlightsAgree(a, f, g);
      assert f[|f| - 1] == g[|f| - 1];
    }
  }

  lemma OutcomeIsUnique(a: Arena, ball: GameObj, hyp: real, f: seq<Flying>, o: Outcome, g: seq<Flying>, p: Outcome)
    requires IsTickFlight(a, ball, hyp, f, o) && IsTickFlight(a, ball, hyp, g, p)
    ensures f == g && o == p
  {
    EndedIsNotShorter(a, f, o, g);
    EndedIsNotShorter(a, g, p, f);
    FlightsAgree(a, f, g);
  }
}
