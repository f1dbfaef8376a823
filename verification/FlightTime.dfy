/**
 How long does the ball fly in one tick? The program adds fractions of the tick to a counter of milliseconds, so not
 as long as the tick in general. How long instead, exactly.
 */
module FlightTime {
  import opened Reals
  import opened FixedPoint
  import opened Vectors
  import opened Engine
  import opened Collision
  import opened BallLoop

  /** How long the ball flies from one bounce to the next: that fraction of the tick. */
  function LegTime(a: Arena, s: Flying, s': Flying): real {
    Times(s'.passed - s.passed, a.deltaTime as real)
  }

  lemma SweepIsStraight(p: real, v: real, d: real, f: real)
    ensures Times(f, p + Times(v, d) - p) + p == p + Times(v, Times(f, d))
  {
    assert p + Times(v, d) - p == Times(v, d);
    assert f * (v * d) == v * (f * d);
  }

  lemma ImpactIsStraight(ball: GameObj, deltaTime: int, c: CollInfo)
    requires c.pos == Sweep(ball, deltaTime, c.toi)
    ensures c.pos == Add(ball.pos, Multiply(ball.velocity, Times(c.toi, deltaTime as real)))
  {
    var d := deltaTime as real;
    SweepIsStraight(ball.pos.x, ball.velocity.x, d, c.toi);
    SweepIsStraight(ball.pos.y, ball.velocity.y, d, c.toi);
  }

  lemma BounceTakes(a: Arena, s: Flying, s': Flying) returns (c: CollInfo)
    requires Continues(a, s, s')
    ensures c.pos == Sweep(s.ball, a.deltaTime, c.toi) && s'.ball.pos == c.pos && s'.passed == s.passed + c.toi
    ensures IsValidToi(c.toi)
  {
    c := Selected(a, s);
    BounceResult(a, s);
  }

  /** Between two bounces the ball flies straight on for exactly that time. */
  lemma LegIsStraight(a: Arena, s: Flying, s': Flying)
    requires Continues(a, s, s')
    ensures s'.ball.pos == Add(s.ball.pos, Multiply(s.ball.velocity, LegTime(a, s, s')))
  {
    var c := BounceTakes(a, s, s');
    ImpactIsStraight(s.ball, a.deltaTime, c);
  }

  /** All legs of a flight together. */
  ghost function LegTimes(a: Arena, flight: seq<Flying>): real
    requires |flight| > 0
  {
    var n := |flight| - 1;
    if n == 0 then 0.0 else LegTimes(a, flight[..n]) + LegTime(a, flight[n - 1], flight[n])
  }

  lemma {:induction false} LegTimesAddUp(a: Arena, flight: seq<Flying>)
    requires |flight| > 0
    ensures LegTimes(a, flight) == Times(flight[|flight| - 1].passed - flight[0].passed, a.deltaTime as real)
  {
    var n := |flight| - 1;
    var d := a.deltaTime as real;
    if n == 0 {
      TimesOne(d);
    } else {
      LegTimesAddUp(a, flight[..n]);
      TimesAdds(flight[n - 1].passed - flight[0].passed, flight[n].passed - flight[n - 1].passed, d);
    }
  }

  /** The time flown in a tick: the legs, and the whole milliseconds that remain. */
  ghost function TimeFlown(a: Arena, flight: seq<Flying>): real
    requires |flight| > 0
  {
    var last := flight[|flight| - 1];
    LegTimes(a, flight) + if last.passed < a.deltaTime as real then Remaining(a, last) as real else 0.0
  }

  /** Once the counter has reached the length of the tick nothing more happens: no bounce, no goal, no move. */
  lemma NothingAfterTime(a: Arena, ball: GameObj, hyp: real, flight: seq<Flying>, outcome: Outcome)
    requires IsTickFlight(a, ball, hyp, flight, outcome)
    ensures forall i :: 0 <= i < |flight| - 1 ==> flight[i].passed < a.deltaTime as real
    ensures var last := flight[|flight| - 1];
            last.passed >= a.deltaTime as real ==> outcome == Moved(last.ball, last.hyp)
  {
    forall i | 0 <= i < |flight| - 1
      ensures flight[i].passed < a.deltaTime as real
    {
      assert Continues(a, flight[i], flight[i + 1]);
    }
  }

  function Ceiling(r: real): int {
    -((-r).Floor)
  }

  lemma RemainingIsRounded(deltaTime: int, passed: real)
    requires passed < deltaTime as real
    ensures Trunc(deltaTime as real - passed) == deltaTime - Ceiling(passed)
  {
    assert (deltaTime as real - passed).Floor == deltaTime + (-passed).Floor;
  }

  lemma LastMoveIsStraight(a: Arena, s: Flying, ball': GameObj, hyp': real)
    requires EndsAs(a, s, Moved(ball', hyp'))
    ensures ball'.pos == if s.passed < a.deltaTime as real
                         then Add(s.ball.pos, Multiply(s.ball.velocity, Remaining(a, s) as real)) else s.ball.pos
  {
  }

  /** For the times of impact adding up to `sum`. */
  function TimeForSum(sum: real, deltaTime: int): real {
    var d := deltaTime as real;
    if sum < d then d + Times(sum, d) - Ceiling(sum) as real else Times(sum, d)
  }

  /**
   A tick that ends without goal flies for its length, plus its length times the sum of the times of impact, minus
   that sum rounded up; or, if the sum has used up the tick, for its length times the sum. The last move is straight
   on for the whole milliseconds that remain, if any.
   */
  lemma TickFliesFor(a: Arena, ball: GameObj, hyp: real, flight: seq<Flying>, ball': GameObj, hyp': real)
    requires IsTickFlight(a, ball, hyp, flight, Moved(ball', hyp'))
    ensures TimeFlown(a, flight) == TimeForSum(flight[|flight| - 1].passed, a.deltaTime)
    ensures var last := flight[|flight| - 1];
            ball'.pos == if last.passed < a.deltaTime as real
                         then Add(last.ball.pos, Multiply(last.ball.velocity, Remaining(a, last) as real))
                         else last.ball.pos
  {
    var last := flight[|flight| - 1];
    LastMoveIsStraight(a, last, ball', hyp');
    TimeOfFlight(a, flight);
  }

  lemma TimeOfFlight(a: Arena, flight: seq<Flying>)
    requires |flight| > 0 && flight[0].passed == 0.0
    ensures TimeFlown(a, flight) == TimeForSum(flight[|flight| - 1].passed, a.deltaTime)
  {
    LegTimesAddUp(a, flight);
    var sum := flight[|flight| - 1].passed;
    if sum < a.deltaTime as real {
      RemainingIsRounded(a.deltaTime, sum);
    }
  }

  /** So it flies as long as it should if and only if the sum times the length is the sum rounded up, or, with the
      tick used up, if the sum is one. */
  lemma TickIsOnTimeIff(a: Arena, ball: GameObj, hyp: real, flight: seq<Flying>, ball': GameObj, hyp': real)
    requires a.deltaTime > 0 && IsTickFlight(a, ball, hyp, flight, Moved(ball', hyp'))
    ensures var sum, d := flight[|flight| - 1].passed, a.deltaTime as real;
            TimeFlown(a, flight) == d <==> if sum < d then Times(sum, d) == Ceiling(sum) as real else sum == 1.0
  {
    var sum, d := flight[|flight| - 1].passed, a.deltaTime as real;
    TickFliesFor(a, ball, hyp, flight, ball', hyp');
    TimesOne(d);
    if sum < 1.0 {
      TimesStrictlyMonotone(sum, 1.0, d);
    } else if sum > 1.0 {
      TimesStrictlyMonotone(1.0, sum, d);
    }
  }

  /** A tick of at least two milliseconds flies as long as it should if and only if it has no bounce, or the times
      of impact add up to exactly one millisecond. */
  lemma LongTickIsOnTimeIff(a: Arena, ball: GameObj, hyp: real, flight: seq<Flying>, ball': GameObj, hyp': real)
    requires a.deltaTime > 1 && IsTickFlight(a, ball, hyp, flight, Moved(ball', hyp'))
    ensures var sum, d := flight[|flight| - 1].passed, a.deltaTime as real;
            TimeFlown(a, flight) == d <==> |flight| == 1 || Times(sum, d) == 1.0
  {
    TickIsOnTimeIff(a, ball, hyp, flight, ball', hyp');
    if |flight| > 1 {
      BouncesTakeTime(a, flight);
      SumIsOnTimeIff(flight[|flight| - 1].passed, a.deltaTime);
    }
  }

  lemma SumIsOnTimeIff(sum: real, deltaTime: int)
    requires deltaTime > 1 && sum > 0.0
    ensures var d := deltaTime as real;
            (if sum < d then Times(sum, d) == Ceiling(sum) as real else sum == 1.0) <==> Times(sum, d) == 1.0
  {
    var d := deltaTime as real;
    TimesMonotone(2.0, d, sum);
    TimesCommutes(2.0, sum);
    TimesCommutes(d, sum);
    assert Times(2.0, sum) == 2.0 * sum;
    if sum <= 1.0 {
      assert Ceiling(sum) == 1;
    }
  }

  /** Every bounce takes some of the tick. */
  lemma {:induction false} BouncesTakeTime(a: Arena, flight: seq<Flying>)
    requires IsFlight(a, flight) && |flight| > 1
    ensures flight[0].passed < flight[1].passed <= flight[|flight| - 1].passed
  {
    var n := |flight| - 1;
    var i := n - 1;
    assert Continues(a, flight[i], flight[i + 1]);
    var c := BounceTakes(a, flight[i], flight[i + 1]);
    if n > 1 {
      BouncesTakeTime(a, flight[..n]);
    }
  }

  lemma FirstStepHasImpact(a: Arena, flight: seq<Flying>)
    requires IsFlight(a, flight) && |flight| > 1
    ensures IsValidToi(Selected(a, flight[0]).toi)
  {
    assert Continues(a, flight[0], flight[1]);
  }

  /** Nothing met in the first pass: on time. */
  lemma FreeTickIsOnTime(a: Arena, ball: GameObj, hyp: real, flight: seq<Flying>, ball': GameObj, hyp': real)
    requires a.deltaTime > 1 && IsTickFlight(a, ball, hyp, flight, Moved(ball', hyp'))
    requires !IsValidToi(Selected(a, Launch(ball, hyp)).toi)
    ensures TimeFlown(a, flight) == a.deltaTime as real
  {
    if |flight| > 1 {
      FirstStepHasImpact(a, flight);
    }
    LongTickIsOnTimeIff(a, ball, hyp, flight, ball', hyp');
  }

  /** A first impact more than a millisecond into the tick: not on time. */
  lemma LateImpactIsNotOnTime(a: Arena, ball: GameObj, hyp: real, flight: seq<Flying>, ball': GameObj, hyp': real)
    requires a.deltaTime > 1 && IsTickFlight(a, ball, hyp, flight, Moved(ball', hyp'))
    requires var c := Selected(a, Launch(ball, hyp)); IsValidToi(c.toi) && Times(c.toi, a.deltaTime as real) > 1.0
    ensures TimeFlown(a, flight) != a.deltaTime as real
  {
    LongTickIsOnTimeIff(a, ball, hyp, flight, ball', hyp');
    FirstImpactIsABounce(a, ball, hyp, flight, ball', hyp');
    BouncesTakeTime(a, flight);
    TimesMonotone(flight[1].passed, flight[|flight| - 1].passed, a.deltaTime as real);
  }

  lemma FirstImpactIsABounce(a: Arena, ball: GameObj, hyp: real, flight: seq<Flying>, ball': GameObj, hyp': real)
    requires a.deltaTime > 0 && IsTickFlight(a, ball, hyp, flight, Moved(ball', hyp'))
    requires IsValidToi(Selected(a, Launch(ball, hyp)).toi)
    ensures |flight| > 1 && flight[1].passed == Selected(a, Launch(ball, hyp)).toi
  {
    if |flight| > 1 {
      assert Continues(a, flight[0], flight[1]);
    }
  }
}
