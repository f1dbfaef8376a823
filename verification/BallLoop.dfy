/**
 `ball_advance` of `src/common/cpong_logic.c`: one tick of ball flight as a loop over bounces.

 `hyp` is what `sqrtf` returns inside `ball_bounce_on_collision`; exact reals have no square root function,
 so the speed is carried along with the ball and tied to the velocity by `IsSpeed`.
 */
module BallLoop {
  import opened Reals
  import opened FixedPoint
  import opened Vectors
  import opened Engine
  import opened Collision

  ghost predicate IsSpeed(velocity: Vector, hyp: real) {
    hyp >= 0.0 && Square(hyp) == Square(velocity.x) + Square(velocity.y)
  }

  /** `ball_bounce_on_collision`: mirror, then speed up by 0.01 along the new direction unless fast already. */
  function Bounce(velocity: Vector, normal: Vector, hyp: real): Vector
    requires hyp > 0.0
  {
    var v := ReflectOrthogonal(velocity, normal);
    if hyp > 0.63 then v else Vector(v.x + 0.01 * (v.x / hyp), v.y + 0.01 * (v.y / hyp))
  }

  function SpeedAfterBounce(hyp: real): real {
    if hyp > 0.63 then hyp else hyp + 0.01
  }

  /** What stays fixed during one call. */
  datatype Arena = Arena(wall: Wall, paddle1: GameObj, paddle2: GameObj, deltaTime: int)

  /** What the loop updates. */
  datatype Flying = Flying(ball: GameObj, hyp: real, passed: real)

  /** The three ways one iteration can end. */
  datatype Pass = Settled(ball: GameObj) | Goal(index: int) | Bounced(next: Flying)

  /** The remaining time becomes an `int` argument: its fraction is dropped. */
  function Remaining(a: Arena, s: Flying): int {
    Trunc(a.deltaTime as real - s.passed)
  }

  function WallHit(a: Arena, s: Flying): CollInfo {
    WallImpact(a.wall, s.ball, a.deltaTime, ZERO_COLL)
  }

  /** The goal lines are swept with the remaining time, everything else with the whole tick. */
  function GoalHit(a: Arena, s: Flying): CollInfo {
    GoalImpact(a.wall, s.ball, Remaining(a, s), ZERO_COLL)
  }

  function Selected(a: Arena, s: Flying): CollInfo {
    First4(PaddleImpact(s.ball, a.paddle1, a.deltaTime, ZERO_COLL),
           PaddleImpact(s.ball, a.paddle2, a.deltaTime, ZERO_COLL),
           WallHit(a, s), GoalHit(a, s), ZERO_COLL)
  }

  /** The iteration ends in a bounce. */
  predicate Bounces(a: Arena, s: Flying) {
    IsValidToi(Selected(a, s).toi) && Selected(a, s).toi != GoalHit(a, s).toi
  }

  /** The four impacts in the order of the program: the first player's paddle, the second's, the walls, the goals. */
  function Impacts(a: Arena, s: Flying): seq<CollInfo> {
    [PaddleImpact(s.ball, a.paddle1, a.deltaTime, ZERO_COLL), PaddleImpact(s.ball, a.paddle2, a.deltaTime, ZERO_COLL),
     WallImpact(a.wall, s.ball, a.deltaTime, ZERO_COLL), GoalImpact(a.wall, s.ball, Remaining(a, s), ZERO_COLL)]
  }

  /** The one that counts is the earliest, and of several at once the first in that order. */
  lemma SelectedIsEarliest(a: Arena, s: Flying) returns (i: int)
    ensures i == -1 <==> NoneValid(Impacts(a, s), 4)
    ensures i == -1 ==> !IsValidToi(Selected(a, s).toi)
    ensures i != -1 ==> IsFirstValid(Impacts(a, s), 4, i) && Selected(a, s) == Impacts(a, s)[i]
  {
    i := FirstOfIsLeast(Impacts(a, s), 4, ZERO_COLL);
    FirstOfFour(Impacts(a, s), ZERO_COLL);
  }

  /** A bounce is chosen among the paddles and the walls, so it is an impact of the full sweep. */
  lemma BounceIsImpact(a: Arena, s: Flying)
    requires Bounces(a, s)
    ensures IsImpactOf(s.ball, a.deltaTime, Selected(a, s))
  {
    PaddleImpactTouches(s.ball, a.paddle1, a.deltaTime);
    PaddleImpactTouches(s.ball, a.paddle2, a.deltaTime);
    WallHitIsContact(a.wall, s.ball, a.deltaTime, ZERO_COLL);
  }

  lemma RestingBallStays(obj: GameObj, deltaTime: int)
    ensures MovesX(obj, deltaTime) ==> obj.velocity.x != 0.0
    ensures MovesY(obj, deltaTime) ==> obj.velocity.y != 0.0
  {
    TimesOne(deltaTime as real);
  }

  lemma BouncingBallHasSpeed(a: Arena, s: Flying)
    requires Bounces(a, s) && IsSpeed(s.ball.velocity, s.hyp)
    ensures s.hyp > 0.0
  {
    BounceIsImpact(a, s);
    RestingBallStays(s.ball, a.deltaTime);
    SquareSign(s.ball.velocity.x);
    SquareSign(s.ball.velocity.y);
    RootOfPositive(s.hyp);
  }

  /** The loop body. */
  function OnePass(a: Arena, s: Flying): Pass
    requires IsSpeed(s.ball.velocity, s.hyp)
  {
    var c := Selected(a, s);
    if !IsValidToi(c.toi) then
      Settled(LinearMove(s.ball, Remaining(a, s)))
    else if c.toi == GoalHit(a, s).toi then
      Goal(GoalIndex(a.wall, s.ball, Remaining(a, s), ZERO_COLL))
    else
      BouncingBallHasSpeed(a, s);
      Bounced(Flying(s.ball.(pos := c.pos, velocity := Bounce(s.ball.velocity, c.normal, s.hyp)),
                     SpeedAfterBounce(s.hyp), s.passed + c.toi))
  }

  /** How a call ends: the ball somewhere with some speed, or a goal. */
  datatype Outcome = Moved(ball: GameObj, hyp: real) | Scored(index: int)

  /** Loop state `s` is followed by `s'`. */
  ghost predicate Continues(a: Arena, s: Flying, s': Flying) {
    && IsSpeed(s.ball.velocity, s.hyp)
    && s.passed < a.deltaTime as real
    && OnePass(a, s) == Bounced(s')
  }

  /** The states the loop goes through, in order. */
  ghost predicate IsFlight(a: Arena, flight: seq<Flying>) {
    |flight| > 0 && forall i :: 0 <= i < |flight| - 1 ==> Continues(a, flight[i], flight[i + 1])
  }

  /** The loop leaves state `s` with this outcome. */
  ghost predicate EndsAs(a: Arena, s: Flying, outcome: Outcome) {
    && IsSpeed(s.ball.velocity, s.hyp)
    && if s.passed >= a.deltaTime as real then outcome == Moved(s.ball, s.hyp)
       else match OnePass(a, s)
            case Settled(ball) => outcome == Moved(ball, s.hyp)
            case Goal(index) => outcome == Scored(index)
            case Bounced(_) => false
  }

  function Launch(ball: GameObj, hyp: real): Flying {
    Flying(ball, hyp, 0.0)
  }

  /** A complete call of the loop on this ball. */
  ghost predicate IsTickFlight(a: Arena, ball: GameObj, hyp: real, flight: seq<Flying>, outcome: Outcome) {
    IsFlight(a, flight) && flight[0] == Launch(ball, hyp) && EndsAs(a, flight[|flight| - 1], outcome)
  }

  /** A flight of one bounce. */
  lemma OneBounceFlight(a: Arena, ball: GameObj, hyp: real, s': Flying, outcome: Outcome)
    requires Continues(a, Launch(ball, hyp), s') && EndsAs(a, s', outcome)
    ensures IsTickFlight(a, ball, hyp, [Launch(ball, hyp), s'], outcome)
  {
  }

  // ---------------------------------------------------------------- speed

  /** The factor by which a bounce stretches the velocity. */
  function Gain(hyp: real): real
    requires hyp > 0.0
  {
    if hyp > 0.63 then 1.0 else 1.0 + 0.01 / hyp
  }

  lemma StretchComponent(c: real, hyp: real)
    requires hyp > 0.0
    ensures c + 0.01 * (c / hyp) == Times(c, 1.0 + 0.01 / hyp)
  {
    assert c / hyp == c * (1.0 / hyp);
    assert 0.01 / hyp == 0.01 * (1.0 / hyp);
  }

  lemma BounceIsScaledReflection(velocity: Vector, normal: Vector, hyp: real)
    requires hyp > 0.0
    ensures Bounce(velocity, normal, hyp) == Multiply(ReflectOrthogonal(velocity, normal), Gain(hyp))
    ensures Gain(hyp) >= 1.0
    ensures SpeedAfterBounce(hyp) == Times(hyp, Gain(hyp))
  {
    var v := ReflectOrthogonal(velocity, normal);
    StretchComponent(v.x, hyp);
    StretchComponent(v.y, hyp);
    StretchComponent(hyp, hyp);
    TimesOne(v.x);
    TimesOne(v.y);
    TimesOne(hyp);
    PositiveQuotient(0.01, hyp);
    QuotientIsUnique(1.0, hyp, hyp);
  }

  /** The carried speed stays the length of the velocity. */
  lemma BounceKeepsIsSpeed(velocity: Vector, normal: Vector, hyp: real)
    requires hyp > 0.0 && IsSpeed(velocity, hyp)
    ensures IsSpeed(Bounce(velocity, normal, hyp), SpeedAfterBounce(hyp))
  {
    var v := ReflectOrthogonal(velocity, normal);
    BounceIsScaledReflection(velocity, normal, hyp);
    assert Square(v.x) == Square(velocity.x) && Square(v.y) == Square(velocity.y);
    ScaledSquares(v.x, v.y, hyp, Gain(hyp));
  }

  /** The next loop state after a bounce, in terms of the sweep, reflection and stretching. */
  lemma BounceResult(a: Arena, s: Flying)
    requires IsSpeed(s.ball.velocity, s.hyp) && OnePass(a, s).Bounced?
    ensures s.hyp > 0.0 && IsImpactOf(s.ball, a.deltaTime, Selected(a, s))
    ensures var c, next := Selected(a, s), OnePass(a, s).next;
            && IsSpeed(next.ball.velocity, next.hyp)
            && next == Flying(s.ball.(pos := c.pos,
                                      velocity := Multiply(ReflectOrthogonal(s.ball.velocity, c.normal), Gain(s.hyp))),
                              SpeedAfterBounce(s.hyp), s.passed + c.toi)
  {
    BounceIsImpact(a, s);
    BouncingBallHasSpeed(a, s);
    BounceIsScaledReflection(s.ball.velocity, Selected(a, s).normal, s.hyp);
    BounceKeepsIsSpeed(s.ball.velocity, Selected(a, s).normal, s.hyp);
  }

  /** A bounce with time left is a step of the loop. */
  lemma BounceContinues(a: Arena, s: Flying) returns (s': Flying)
    requires IsSpeed(s.ball.velocity, s.hyp) && s.passed < a.deltaTime as real && Bounces(a, s)
    ensures Continues(a, s, s')
  {
    s' := OnePass(a, s).next;
  }

  function TopSpeed(hyp: real): real {
    if hyp > 0.64 then hyp else 0.64
  }

  lemma ComponentsWithinSpeed(velocity: Vector, hyp: real)
    requires IsSpeed(velocity, hyp)
    ensures Abs(velocity.x) <= hyp && Abs(velocity.y) <= hyp
  {
    SquareSign(velocity.x);
    SquareSign(velocity.y);
    RootIsMonotone(velocity.x, hyp);
    RootIsMonotone(velocity.y, hyp);
  }

  /** `later` is `earlier` mirrored any number of times, with both components and the speed stretched by `k`. */
  ghost predicate Stretched(earlier: Vector, hyp: real, later: Vector, hyp': real, k: real) {
    && k >= 1.0
    && Abs(later.x) == Times(Abs(earlier.x), k)
    && Abs(later.y) == Times(Abs(earlier.y), k)
    && hyp' == Times(hyp, k)
  }

  /** Stretching keeps the slope, never slows down, and neither creates nor removes a zero component. */
  lemma StretchingKeepsSlope(earlier: Vector, hyp: real, later: Vector, hyp': real, k: real)
    requires Stretched(earlier, hyp, later, hyp', k) && hyp >= 0.0
    ensures hyp <= hyp'
    ensures Times(Abs(later.y), Abs(earlier.x)) == Times(Abs(earlier.y), Abs(later.x))
    ensures (earlier.x != 0.0 <==> later.x != 0.0) && (earlier.y != 0.0 <==> later.y != 0.0)
  {
    TimesOne(hyp);
    TimesCommutes(hyp, k);
    TimesMonotone(1.0, k, hyp);
    TimesSign(Abs(earlier.x), k);
    TimesSign(Abs(earlier.y), k);
    TimesReorders(Abs(earlier.y), k, Abs(earlier.x));
  }

  lemma TimesReorders(a: real, k: real, b: real)
    ensures Times(Times(a, k), b) == Times(a, Times(b, k))
  {
    assert (a * k) * b == a * (b * k);
  }

  lemma StretchedThenStretched(a: real, k: real, l: real)
    ensures Times(Times(a, k), l) == Times(a, Times(k, l))
  {
    assert (a * k) * l == a * (k * l);
  }

  lemma StretchingComposes(u: Vector, h: real, v: Vector, i: real, w: Vector, j: real, k: real, l: real)
    requires Stretched(u, h, v, i, k) && Stretched(v, i, w, j, l)
    ensures Stretched(u, h, w, j, Times(k, l))
  {
    StretchedThenStretched(Abs(u.x), k, l);
    StretchedThenStretched(Abs(u.y), k, l);
    StretchedThenStretched(h, k, l);
    TimesMonotone(1.0, k, l);
    TimesOne(l);
  }

  lemma BounceStretches(velocity: Vector, normal: Vector, hyp: real)
    requires hyp > 0.0
    ensures Stretched(velocity, hyp, Bounce(velocity, normal, hyp), SpeedAfterBounce(hyp), Gain(hyp))
  {
    var r := ReflectOrthogonal(velocity, normal);
    BounceIsScaledReflection(velocity, normal, hyp);
    TimesAbs(r.x, Gain(hyp));
    TimesAbs(r.y, Gain(hyp));
  }

  /**
   Over any number of bounces both velocity components and the speed grow by one common factor, at least 1, and
   the speed never exceeds the larger of 0.64 and the initial speed.
   */
  lemma {:induction false} FlightStretches(a: Arena, flight: seq<Flying>) returns (k: real)
    requires IsFlight(a, flight) && IsSpeed(flight[0].ball.velocity, flight[0].hyp)
    ensures var first, last := flight[0], flight[|flight| - 1];
            && IsSpeed(last.ball.velocity, last.hyp)
            && Stretched(first.ball.velocity, first.hyp, last.ball.velocity, last.hyp, k)
            && last.hyp <= TopSpeed(first.hyp)
            && last.passed >= first.passed
            && last.ball.size == first.ball.size && last.ball.speed == first.ball.speed
  {
    if |flight| > 1 {
      var before := flight[..|flight| - 1];
      k := FlightStretches(a, before);
      var s, s' := flight[|flight| - 2], flight[|flight| - 1];
      assert Continues(a, s, s');
      BounceResult(a, s);
      BounceStretches(s.ball.velocity, Selected(a, s).normal, s.hyp);
      StretchingComposes(flight[0].ball.velocity, flight[0].hyp, s.ball.velocity, s.hyp, s'.ball.velocity, s'.hyp, k,
                         Gain(s.hyp));
      k := Times(k, Gain(s.hyp));
    } else {
      k := 1.0;
      TimesOne(Abs(flight[0].ball.velocity.x));
      TimesOne(Abs(flight[0].ball.velocity.y));
      TimesOne(flight[0].hyp);
    }
  }

  // ---------------------------------------------------------------- what a bounce does

  /** Mirrored: the component along the normal's axis changes sign, the other does not. */
  predicate Mirrored(velocity: Vector, normal: Vector, after: Vector) {
    && (after.x > 0.0 <==> if normal.x == 0.0 then velocity.x > 0.0 else velocity.x < 0.0)
    && (after.x < 0.0 <==> if normal.x == 0.0 then velocity.x < 0.0 else velocity.x > 0.0)
    && (after.y > 0.0 <==> if normal.x == 0.0 then velocity.y < 0.0 else velocity.y > 0.0)
    && (after.y < 0.0 <==> if normal.x == 0.0 then velocity.y > 0.0 else velocity.y < 0.0)
  }

  /** The slope is kept. */
  predicate SameSlope(velocity: Vector, after: Vector) {
    Times(Abs(after.y), Abs(velocity.x)) == Times(Abs(velocity.y), Abs(after.x))
  }

  /** A ball at no more than 0.63 leaves a bounce faster by exactly 0.01, ... */
  ghost predicate IsSpedUp(velocity: Vector, normal: Vector, hyp: real, after: Vector) {
    IsSpeed(after, hyp + 0.01) && Mirrored(velocity, normal, after) && SameSlope(velocity, after)
  }

  /** ... a faster one as fast as it came. */
  predicate IsMirrorImage(velocity: Vector, normal: Vector, after: Vector) {
    after == if normal.x == 0.0 then Vector(velocity.x, -velocity.y) else Vector(-velocity.x, velocity.y)
  }

  lemma MirroredAndStretched(velocity: Vector, normal: Vector, hyp: real)
    requires hyp > 0.0
    ensures Mirrored(velocity, normal, Bounce(velocity, normal, hyp))
  {
    var v := ReflectOrthogonal(velocity, normal);
    BounceIsScaledReflection(velocity, normal, hyp);
    TimesSign(v.x, Gain(hyp));
    TimesSign(v.y, Gain(hyp));
  }

  /** The two ways to bounce. Speeding up stops for good above 0.63. */
  lemma BounceAddsOneHundredth(velocity: Vector, normal: Vector, hyp: real)
    requires IsSpeed(velocity, hyp) && hyp > 0.0
    ensures hyp <= 0.63 ==> IsSpedUp(velocity, normal, hyp, Bounce(velocity, normal, hyp))
    ensures hyp > 0.63 ==> IsMirrorImage(velocity, normal, Bounce(velocity, normal, hyp))
  {
    BounceKeepsIsSpeed(velocity, normal, hyp);
    MirroredAndStretched(velocity, normal, hyp);
    BounceStretches(velocity, normal, hyp);
    StretchingKeepsSlope(velocity, hyp, Bounce(velocity, normal, hyp), SpeedAfterBounce(hyp), Gain(hyp));
  }
}
