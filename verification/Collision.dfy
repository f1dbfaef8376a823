/**
 The swept collision tests of `src/common/cpong_logic.c`.

 Each test has a value-level specification (`XImpact`, `YImpact`, `PaddleImpact`, `WallImpact`,
 `GoalImpact`), lemmas saying what that value means geometrically, and (in `CollisionTests`) the method
 that fills the out-parameter. A test reports a hit exactly when the time of impact it leaves is valid.

 Times of impact are fractions of the sweep: 0 is its start, 1 its end.
 */
module Collision {
  import opened Reals
  import opened FixedPoint
  import opened Vectors
  import opened Engine

  datatype Wall = Wall(up: int, down: int, left: int, right: int)

  /** Which way the leading edge faces; zero velocity counts as negative. */
  function Direction(velocity: real): int {
    if velocity > 0.0 then 1 else -1
  }

  /** From the center to the leading edge (`dir * size / 2`). */
  function Lead(velocity: real, size: real): real {
    if velocity > 0.0 then size / 2.0 else -(size / 2.0)
  }

  lemma LeadIsSignedHalf(velocity: real, size: real)
    ensures Lead(velocity, size) == Direction(velocity) as real * size / 2.0
  {
  }

  /** C divides by zero when nothing moves; the quotient is then infinite or not a number,
      never valid, and -1 stands for it. */
  function Toi(gap: real, travel: real): real {
    if travel == 0.0 then -1.0 else gap / travel
  }

  /** Where the object is at a fraction of the sweep. */
  function Sweep(obj: GameObj, deltaTime: int, fraction: real): Vector {
    LinearInterpolate(obj.pos, LinearMove(obj, deltaTime).pos, fraction)
  }

  function XImpact(ball: GameObj, x: int, deltaTime: int, prior: CollInfo): CollInfo {
    var next := LinearMove(ball, deltaTime);
    var toi := Toi(x as real - Lead(ball.velocity.x, ball.size.x) - ball.pos.x, next.pos.x - ball.pos.x);
    if !IsValidToi(toi) then prior.(toi := toi)
    else CollInfo(toi, Vector(-Direction(ball.velocity.x) as real, 0.0), Sweep(ball, deltaTime, toi))
  }

  function YImpact(ball: GameObj, y: int, deltaTime: int, prior: CollInfo): CollInfo {
    var next := LinearMove(ball, deltaTime);
    var toi := Toi(y as real - Lead(ball.velocity.y, ball.size.y) - ball.pos.y, next.pos.y - ball.pos.y);
    if !IsValidToi(toi) then prior.(toi := toi)
    else CollInfo(toi, Vector(0.0, -Direction(ball.velocity.y) as real), Sweep(ball, deltaTime, toi))
  }

  predicate SeparatedInY(a: Bounds, b: Bounds) {
    a.up < b.down || a.down > b.up
  }

  predicate SeparatedInX(a: Bounds, b: Bounds) {
    a.right < b.left || a.left > b.right
  }

  /** Where the other box is taken to be at the time of impact: the code interpolates with the
      time of impact already in the out-parameter, not the one just found. */
  function BoundsAtToi(obj: GameObj, deltaTime: int, toi: real): Bounds {
    GetBoundaries(obj.(pos := Sweep(obj, deltaTime, toi)))
  }

  /** The earlier of the two vertical-plane hits, before the overlap test. The planes are `int`
      parameters, so the paddle's edges are truncated. */
  function XCandidate(obj1: GameObj, obj2: GameObj, deltaTime: int): CollInfo {
    var b := GetBoundaries(obj2);
    First2(XImpact(obj1, Trunc(b.left), deltaTime, ZERO_COLL), XImpact(obj1, Trunc(b.right), deltaTime, ZERO_COLL),
           ZERO_COLL)
  }

  function YCandidate(obj1: GameObj, obj2: GameObj, deltaTime: int): CollInfo {
    var b := GetBoundaries(obj2);
    First2(YImpact(obj1, Trunc(b.up), deltaTime, ZERO_COLL), YImpact(obj1, Trunc(b.down), deltaTime, ZERO_COLL),
           ZERO_COLL)
  }

  predicate XHit(obj1: GameObj, obj2: GameObj, deltaTime: int, prior: CollInfo) {
    var c := XCandidate(obj1, obj2, deltaTime);
    IsValidToi(c.toi) &&
    !SeparatedInY(GetBoundaries(obj1.(pos := c.pos)), BoundsAtToi(obj2, deltaTime, prior.toi))
  }

  predicate YHit(obj1: GameObj, obj2: GameObj, deltaTime: int, prior: CollInfo) {
    var c := YCandidate(obj1, obj2, deltaTime);
    IsValidToi(c.toi) &&
    !SeparatedInX(GetBoundaries(obj1.(pos := c.pos)), BoundsAtToi(obj2, deltaTime, prior.toi))
  }

  function PaddleImpact(obj1: GameObj, obj2: GameObj, deltaTime: int, prior: CollInfo): CollInfo {
    var x, y := XCandidate(obj1, obj2, deltaTime), YCandidate(obj1, obj2, deltaTime);
    if XHit(obj1, obj2, deltaTime, prior) && YHit(obj1, obj2, deltaTime, prior) then First2(x, y, prior)
    else if XHit(obj1, obj2, deltaTime, prior) then x
    else if YHit(obj1, obj2, deltaTime, prior) then y
    else prior.(toi := -1.0)
  }

  function WallImpact(wall: Wall, ball: GameObj, deltaTime: int, prior: CollInfo): CollInfo {
    First2(YImpact(ball, wall.up, deltaTime, ZERO_COLL), YImpact(ball, wall.down, deltaTime, ZERO_COLL), prior)
  }

  function GoalImpact(wall: Wall, ball: GameObj, deltaTime: int, prior: CollInfo): CollInfo {
    var left := XImpact(ball, wall.left, deltaTime, prior);
    if IsValidToi(left.toi) then left else XImpact(ball, wall.right, deltaTime, left)
  }

  function GoalIndex(wall: Wall, ball: GameObj, deltaTime: int, prior: CollInfo): int {
    var left := XImpact(ball, wall.left, deltaTime, prior);
    if IsValidToi(left.toi) then 0
    else if IsValidToi(XImpact(ball, wall.right, deltaTime, left).toi) then 1
    else -1
  }

  // ---------------------------------------------------------------- what an impact means

  /** Heights and abscissas of the leading edges at a fraction of the sweep. */
  function EdgeX(ball: GameObj, deltaTime: int, fraction: real): real {
    Sweep(ball, deltaTime, fraction).x + Lead(ball.velocity.x, ball.size.x)
  }

  function EdgeY(ball: GameObj, deltaTime: int, fraction: real): real {
    Sweep(ball, deltaTime, fraction).y + Lead(ball.velocity.y, ball.size.y)
  }

  /** The ball moves along x (y) during the sweep. */
  predicate MovesX(ball: GameObj, deltaTime: int) {
    LinearMove(ball, deltaTime).pos.x != ball.pos.x
  }

  predicate MovesY(ball: GameObj, deltaTime: int) {
    LinearMove(ball, deltaTime).pos.y != ball.pos.y
  }

  /**
   What every valid impact on a plane looks like: the ball has flown straight to the reported position,
   the normal names one axis and opposes the flight on it, and the leading edge on that axis sits on a whole number.
   */
  predicate IsImpactOf(ball: GameObj, deltaTime: int, c: CollInfo) {
    && IsValidToi(c.toi)
    && c.pos == Sweep(ball, deltaTime, c.toi)
    && (if c.normal.x != 0.0 then
          && c.normal == Vector(-Direction(ball.velocity.x) as real, 0.0)
          && MovesX(ball, deltaTime)
          && IsWhole(c.pos.x + Lead(ball.velocity.x, ball.size.x))
        else
          && c.normal == Vector(0.0, -Direction(ball.velocity.y) as real)
          && MovesY(ball, deltaTime)
          && IsWhole(c.pos.y + Lead(ball.velocity.y, ball.size.y)))
  }

  /** A plane test hits exactly when the leading edge is on the plane at some fraction of the sweep,
      and then reports that fraction. */
  lemma XImpactMeaning(ball: GameObj, x: int, deltaTime: int, prior: CollInfo)
    ensures var c := XImpact(ball, x, deltaTime, prior);
            && (IsValidToi(c.toi) ==>
                IsImpactOf(ball, deltaTime, c) && c.normal.x != 0.0 && EdgeX(ball, deltaTime, c.toi) == x as real)
            && (MovesX(ball, deltaTime) ==>
                  forall f :: IsValidToi(f) && EdgeX(ball, deltaTime, f) == x as real ==> c.toi == f)
  {
    var travel := LinearMove(ball, deltaTime).pos.x - ball.pos.x;
    var gap := x as real - Lead(ball.velocity.x, ball.size.x) - ball.pos.x;
    var c := XImpact(ball, x, deltaTime, prior);
    if travel != 0.0 {
      QuotientTimes(gap, travel);
      if IsValidToi(c.toi) {
        SameWhole(x as real, c.pos.x + Lead(ball.velocity.x, ball.size.x));
      }
      forall f | IsValidToi(f) && EdgeX(ball, deltaTime, f) == x as real
        ensures c.toi == f
      {
        QuotientIsUnique(f, gap, travel);
      }
    }
  }

  lemma YImpactMeaning(ball: GameObj, y: int, deltaTime: int, prior: CollInfo)
    ensures var c := YImpact(ball, y, deltaTime, prior);
            && (IsValidToi(c.toi) ==>
                IsImpactOf(ball, deltaTime, c) && c.normal.x == 0.0 && EdgeY(ball, deltaTime, c.toi) == y as real)
            && (MovesY(ball, deltaTime) ==>
                  forall f :: IsValidToi(f) && EdgeY(ball, deltaTime, f) == y as real ==> c.toi == f)
  {
    var travel := LinearMove(ball, deltaTime).pos.y - ball.pos.y;
    var gap := y as real - Lead(ball.velocity.y, ball.size.y) - ball.pos.y;
    var c := YImpact(ball, y, deltaTime, prior);
    if travel != 0.0 {
      QuotientTimes(gap, travel);
      if IsValidToi(c.toi) {
        SameWhole(y as real, c.pos.y + Lead(ball.velocity.y, ball.size.y));
      }
      forall f | IsValidToi(f) && EdgeY(ball, deltaTime, f) == y as real
        ensures c.toi == f
      {
        QuotientIsUnique(f, gap, travel);
      }
    }
  }

  /** Choosing between two collisions keeps whatever holds of every valid one. */
  lemma First2Chooses(a: CollInfo, b: CollInfo, prior: CollInfo)
    ensures var c := First2(a, b, prior);
            && (IsValidToi(c.toi) <==> IsValidToi(a.toi) || IsValidToi(b.toi))
            && (IsValidToi(c.toi) ==> c == a || c == b)
            && (IsValidToi(a.toi) ==> c.toi <= a.toi)
            && (IsValidToi(b.toi) ==> c.toi <= b.toi)
            && (!IsValidToi(c.toi) ==> c == prior.(toi := 99.0))
  {
  }

  lemma First4Chooses(a: CollInfo, b: CollInfo, c: CollInfo, d: CollInfo, prior: CollInfo)
    ensures var r := First4(a, b, c, d, prior);
            && (IsValidToi(r.toi) <==> IsValidToi(a.toi) || IsValidToi(b.toi) || IsValidToi(c.toi) || IsValidToi(d.toi))
            && (IsValidToi(r.toi) ==> r == a || r == b || r == c || r == d)
            && (IsValidToi(c.toi) ==> r.toi <= c.toi)
            && (!IsValidToi(r.toi) ==> r == prior.(toi := 99.0))
  {
  }

  // ---------------------------------------------------------------- paddles

  lemma CandidateMeanings(obj1: GameObj, obj2: GameObj, deltaTime: int)
    ensures var c, b := XCandidate(obj1, obj2, deltaTime), GetBoundaries(obj2);
            IsValidToi(c.toi) ==>
              && IsImpactOf(obj1, deltaTime, c) && c.normal.x != 0.0
              && (EdgeX(obj1, deltaTime, c.toi) == Trunc(b.left) as real ||
                  EdgeX(obj1, deltaTime, c.toi) == Trunc(b.right) as real)
    ensures var c, b := YCandidate(obj1, obj2, deltaTime), GetBoundaries(obj2);
            IsValidToi(c.toi) ==>
              && IsImpactOf(obj1, deltaTime, c) && c.normal.x == 0.0
              && (EdgeY(obj1, deltaTime, c.toi) == Trunc(b.up) as real ||
                  EdgeY(obj1, deltaTime, c.toi) == Trunc(b.down) as real)
  {
    var b := GetBoundaries(obj2);
    XImpactMeaning(obj1, Trunc(b.left), deltaTime, ZERO_COLL);
    XImpactMeaning(obj1, Trunc(b.right), deltaTime, ZERO_COLL);
    YImpactMeaning(obj1, Trunc(b.up), deltaTime, ZERO_COLL);
    YImpactMeaning(obj1, Trunc(b.down), deltaTime, ZERO_COLL);
    First2Chooses(XImpact(obj1, Trunc(b.left), deltaTime, ZERO_COLL),
                  XImpact(obj1, Trunc(b.right), deltaTime, ZERO_COLL), ZERO_COLL);
    First2Chooses(YImpact(obj1, Trunc(b.up), deltaTime, ZERO_COLL),
                  YImpact(obj1, Trunc(b.down), deltaTime, ZERO_COLL), ZERO_COLL);
  }

  /** At this fraction a leading edge of `obj1` is on a (truncated) edge of the box `obj2`, and the two boxes
      meet on the other axis. */
  predicate TouchesBox(obj1: GameObj, deltaTime: int, fraction: real, obj2: GameObj, vertical: bool) {
    var at, b := GetBoundaries(obj1.(pos := Sweep(obj1, deltaTime, fraction))), GetBoundaries(obj2);
    if vertical then
      && (EdgeX(obj1, deltaTime, fraction) == Trunc(b.left) as real ||
          EdgeX(obj1, deltaTime, fraction) == Trunc(b.right) as real)
      && !SeparatedInY(at, b)
    else
      && (EdgeY(obj1, deltaTime, fraction) == Trunc(b.up) as real ||
          EdgeY(obj1, deltaTime, fraction) == Trunc(b.down) as real)
      && !SeparatedInX(at, b)
  }

  /** A paddle hit is a real contact with the paddle where it stands now: with the zeroed
      out-parameter every caller passes, the paddle does not move during the sweep. */
  lemma PaddleImpactTouches(ball: GameObj, paddle: GameObj, deltaTime: int)
    ensures var c := PaddleImpact(ball, paddle, deltaTime, ZERO_COLL);
            && (IsValidToi(c.toi) <==>
                XHit(ball, paddle, deltaTime, ZERO_COLL) || YHit(ball, paddle, deltaTime, ZERO_COLL))
            && (IsValidToi(c.toi) ==>
                IsImpactOf(ball, deltaTime, c) && TouchesBox(ball, deltaTime, c.toi, paddle, c.normal.x != 0.0))
  {
    CandidateMeanings(ball, paddle, deltaTime);
    First2Chooses(XCandidate(ball, paddle, deltaTime), YCandidate(ball, paddle, deltaTime), ZERO_COLL);
    SweepStartsAtRest(paddle, deltaTime);
  }

  /** The earlier of the hits on the two pairs of edges counts, and at a corner the one on the vertical edge. */
  lemma PaddleImpactIsEarlier(ball: GameObj, paddle: GameObj, deltaTime: int)
    ensures var c := PaddleImpact(ball, paddle, deltaTime, ZERO_COLL);
            var x, y := XCandidate(ball, paddle, deltaTime), YCandidate(ball, paddle, deltaTime);
            var xHit, yHit := XHit(ball, paddle, deltaTime, ZERO_COLL), YHit(ball, paddle, deltaTime, ZERO_COLL);
            && (xHit && (yHit ==> x.toi <= y.toi) ==> c == x && c.normal.x != 0.0)
            && (yHit && (xHit ==> y.toi < x.toi) ==> c == y && c.normal.x == 0.0)
  {
    CandidateMeanings(ball, paddle, deltaTime);
  }

  lemma SweepStartsAtRest(obj: GameObj, deltaTime: int)
    ensures Sweep(obj, deltaTime, 0.0) == obj.pos
    ensures BoundsAtToi(obj, deltaTime, 0.0) == GetBoundaries(obj)
  {
    TimesOne(LinearMove(obj, deltaTime).pos.x - obj.pos.x);
    TimesOne(LinearMove(obj, deltaTime).pos.y - obj.pos.y);
  }

  // ---------------------------------------------------------------- walls

  /** The leading edge is on a wall at this fraction of the sweep. */
  predicate EdgeOnWall(wall: Wall, ball: GameObj, deltaTime: int, fraction: real) {
    EdgeY(ball, deltaTime, fraction) == wall.up as real || EdgeY(ball, deltaTime, fraction) == wall.down as real
  }

  lemma WallHitIsContact(wall: Wall, ball: GameObj, deltaTime: int, prior: CollInfo)
    ensures var c := WallImpact(wall, ball, deltaTime, prior);
            IsValidToi(c.toi) ==>
              IsImpactOf(ball, deltaTime, c) && c.normal.x == 0.0 && EdgeOnWall(wall, ball, deltaTime, c.toi)
  {
    YImpactMeaning(ball, wall.up, deltaTime, ZERO_COLL);
    YImpactMeaning(ball, wall.down, deltaTime, ZERO_COLL);
    First2Chooses(YImpact(ball, wall.up, deltaTime, ZERO_COLL), YImpact(ball, wall.down, deltaTime, ZERO_COLL), prior);
  }

  lemma ContactIsWallHit(wall: Wall, ball: GameObj, deltaTime: int, prior: CollInfo, f: real)
    requires MovesY(ball, deltaTime)
    requires IsValidToi(f) && EdgeOnWall(wall, ball, deltaTime, f)
    ensures HitsBy(WallImpact(wall, ball, deltaTime, prior), f)
  {
    YImpactMeaning(ball, wall.up, deltaTime, ZERO_COLL);
    YImpactMeaning(ball, wall.down, deltaTime, ZERO_COLL);
    First2Chooses(YImpact(ball, wall.up, deltaTime, ZERO_COLL), YImpact(ball, wall.down, deltaTime, ZERO_COLL), prior);
  }

  predicate HitsBy(c: CollInfo, f: real) {
    IsValidToi(c.toi) && c.toi <= f
  }

  /** `c` tells whether the leading edge is on a wall during the sweep, and reports the first such moment. */
  ghost predicate IsEarliestContact(wall: Wall, ball: GameObj, deltaTime: int, c: CollInfo) {
    && (IsValidToi(c.toi) <==> exists f :: IsValidToi(f) && EdgeOnWall(wall, ball, deltaTime, f))
    && (IsValidToi(c.toi) ==> EdgeOnWall(wall, ball, deltaTime, c.toi) && c.pos == Sweep(ball, deltaTime, c.toi))
    && (forall f :: IsValidToi(f) && EdgeOnWall(wall, ball, deltaTime, f) ==> HitsBy(c, f))
  }

  /** `ball_wall_collide` hits exactly when the leading edge is on a wall at some moment of the sweep; the
      reported position is the ball's at the first such moment. */
  lemma WallImpactIsEarliest(wall: Wall, ball: GameObj, deltaTime: int, prior: CollInfo)
    requires MovesY(ball, deltaTime)
    ensures IsEarliestContact(wall, ball, deltaTime, WallImpact(wall, ball, deltaTime, prior))
  {
    var c := WallImpact(wall, ball, deltaTime, prior);
    WallHitIsContact(wall, ball, deltaTime, prior);
    forall f | IsValidToi(f) && EdgeOnWall(wall, ball, deltaTime, f)
      ensures HitsBy(c, f)
    {
      ContactIsWallHit(wall, ball, deltaTime, prior, f);
    }
  }

  /** The ball is between the walls and, if it rests against one, does not fly into it. */
  predicate WallSafe(wall: Wall, ball: GameObj) {
    var low, high := wall.down as real + ball.size.y / 2.0, wall.up as real - ball.size.y / 2.0;
    && ball.size.y >= 0.0
    && low <= ball.pos.y <= high
    && (ball.pos.y == high ==> ball.velocity.y <= 0.0)
    && (ball.pos.y == low ==> ball.velocity.y >= 0.0)
  }

  /** Some horizontal edge of the ball, leading or trailing, is on some wall. */
  predicate AnyEdgeOnWall(wall: Wall, ball: GameObj, deltaTime: int, fraction: real) {
    var b := GetBoundaries(ball.(pos := Sweep(ball, deltaTime, fraction)));
    b.up == wall.up as real || b.up == wall.down as real || b.down == wall.up as real || b.down == wall.down as real
  }

  /** `c` tells whether any part of the ball touches a wall during the sweep, and reports the first such moment. */
  ghost predicate IsFirstTouch(wall: Wall, ball: GameObj, deltaTime: int, c: CollInfo) {
    && (IsValidToi(c.toi) <==> exists f :: IsValidToi(f) && AnyEdgeOnWall(wall, ball, deltaTime, f))
    && (IsValidToi(c.toi) ==> AnyEdgeOnWall(wall, ball, deltaTime, c.toi))
    && (forall f :: IsValidToi(f) && AnyEdgeOnWall(wall, ball, deltaTime, f) ==> HitsBy(c, f))
  }

  /** For a ball between the walls the trailing edge never matters. */
  lemma WallImpactIsFirstTouch(wall: Wall, ball: GameObj, deltaTime: int, prior: CollInfo)
    requires deltaTime > 0 && ball.velocity.y != 0.0
    requires WallSafe(wall, ball) && ball.size.y > 0.0
    ensures IsFirstTouch(wall, ball, deltaTime, WallImpact(wall, ball, deltaTime, prior))
  {
    var c := WallImpact(wall, ball, deltaTime, prior);
    WallHitIsContact(wall, ball, deltaTime, prior);
    if IsValidToi(c.toi) {
      LeadingIsAnEdge(wall, ball, deltaTime, c.toi);
    }
    forall f | IsValidToi(f) && AnyEdgeOnWall(wall, ball, deltaTime, f)
      ensures HitsBy(c, f)
    {
      var earlier := LeadingEdgeTouchesFirst(wall, ball, deltaTime, f);
      ContactIsWallHit(wall, ball, deltaTime, prior, earlier);
    }
  }

  lemma LeadingIsAnEdge(wall: Wall, ball: GameObj, deltaTime: int, f: real)
    requires EdgeOnWall(wall, ball, deltaTime, f)
    ensures AnyEdgeOnWall(wall, ball, deltaTime, f)
  {
  }

  /** How far the ball has moved along y, and in which direction. */
  lemma SweepDirection(ball: GameObj, deltaTime: int)
    requires deltaTime > 0
    ensures ball.velocity.y > 0.0 <==> LinearMove(ball, deltaTime).pos.y > ball.pos.y
    ensures ball.velocity.y < 0.0 <==> LinearMove(ball, deltaTime).pos.y < ball.pos.y
    ensures ball.velocity.x > 0.0 <==> LinearMove(ball, deltaTime).pos.x > ball.pos.x
    ensures ball.velocity.x < 0.0 <==> LinearMove(ball, deltaTime).pos.x < ball.pos.x
  {
    TimesSign(ball.velocity.x, deltaTime as real);
    TimesSign(ball.velocity.y, deltaTime as real);
  }

  /** Whenever any edge is on a wall, the leading edge is or was, no later, on a wall. */
  lemma LeadingEdgeTouchesFirst(wall: Wall, ball: GameObj, deltaTime: int, f: real) returns (earlier: real)
    requires deltaTime > 0 && ball.velocity.y != 0.0
    requires WallSafe(wall, ball) && ball.size.y > 0.0
    requires IsValidToi(f) && AnyEdgeOnWall(wall, ball, deltaTime, f)
    ensures MovesY(ball, deltaTime)
    ensures 0.0 < earlier <= f && EdgeOnWall(wall, ball, deltaTime, earlier)
  {
    SweepDirection(ball, deltaTime);
    var travel := LinearMove(ball, deltaTime).pos.y - ball.pos.y;
    var target := if ball.velocity.y > 0.0 then wall.up as real else wall.down as real;
    var gap := target - Lead(ball.velocity.y, ball.size.y) - ball.pos.y;
    earlier := gap / travel;
    QuotientTimes(gap, travel);
    assert EdgeY(ball, deltaTime, earlier) == target;
    if ball.velocity.y > 0.0 {
      TimesSign(f, travel);
      assert 0.0 < gap <= Times(f, travel);
      OrderOfFactors(earlier, f, travel);
    } else {
      TimesSign(f, -travel);
      TimesNegated(f, travel);
      TimesNegated(earlier, travel);
      assert 0.0 < -gap <= Times(f, -travel);
      OrderOfFactors(earlier, f, -travel);
    }
  }

  lemma TimesNegated(a: real, b: real)
    ensures Times(a, -b) == -Times(a, b)
  {
  }

  lemma OrderOfFactors(a: real, b: real, s: real)
    requires s > 0.0 && 0.0 < Times(a, s) <= Times(b, s)
    ensures 0.0 < a <= b
  {
    TimesSign(a, s);
    if b < a {
      TimesStrictlyMonotone(b, a, s);
    }
  }

  // ---------------------------------------------------------------- misses

  /** A plane outside the swept stretch is not hit. */
  lemma XMiss(ball: GameObj, x: int, deltaTime: int, prior: CollInfo, gap: real, travel: real)
    requires travel == LinearMove(ball, deltaTime).pos.x - ball.pos.x
    requires gap == x as real - Lead(ball.velocity.x, ball.size.x) - ball.pos.x
    requires if travel > 0.0 then gap <= 0.0 || gap > travel else gap >= 0.0 || gap < travel
    ensures !IsValidToi(XImpact(ball, x, deltaTime, prior).toi)
  {
    QuotientOutside(gap, travel);
  }

  lemma YMiss(ball: GameObj, y: int, deltaTime: int, prior: CollInfo, gap: real, travel: real)
    requires travel == LinearMove(ball, deltaTime).pos.y - ball.pos.y
    requires gap == y as real - Lead(ball.velocity.y, ball.size.y) - ball.pos.y
    requires if travel > 0.0 then gap <= 0.0 || gap > travel else gap >= 0.0 || gap < travel
    ensures !IsValidToi(YImpact(ball, y, deltaTime, prior).toi)
  {
    QuotientOutside(gap, travel);
  }

  lemma QuotientOutside(gap: real, travel: real)
    requires if travel > 0.0 then gap <= 0.0 || gap > travel else gap >= 0.0 || gap < travel
    ensures !IsValidToi(Toi(gap, travel))
  {
    if travel != 0.0 {
      var q := gap / travel;
      QuotientTimes(gap, travel);
      if 0.0 < q <= 1.0 {
        TimesOne(travel);
        if travel > 0.0 {
          TimesSign(q, travel);
          TimesMonotone(q, 1.0, travel);
        } else {
          TimesNegated(q, travel);
          TimesSign(q, -travel);
          TimesMonotone(q, 1.0, -travel);
          TimesNegated(1.0, travel);
        }
      }
    }
  }

  lemma NoCandidateNoHit(ball: GameObj, paddle: GameObj, deltaTime: int)
    requires !IsValidToi(XCandidate(ball, paddle, deltaTime).toi)
    requires !IsValidToi(YCandidate(ball, paddle, deltaTime).toi)
    ensures !IsValidToi(PaddleImpact(ball, paddle, deltaTime, ZERO_COLL).toi)
  {
  }

  lemma NoneOfFour(a: CollInfo, b: CollInfo, c: CollInfo, d: CollInfo)
    requires !IsValidToi(a.toi) && !IsValidToi(b.toi) && !IsValidToi(c.toi) && !IsValidToi(d.toi)
    ensures !IsValidToi(First4(a, b, c, d, ZERO_COLL).toi)
  {
  }
}
