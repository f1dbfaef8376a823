/**
 `AABB_collide` is exact: for a ball that starts apart from a paddle whose edges are whole numbers, it reports a hit
 if and only if the two boxes meet during the sweep, and then the first moment they do. The ball cannot tunnel
 through.
 */
module PaddleContact {
  import opened Reals
  import opened FixedPoint
  import opened Engine
  import opened Collision

  // ---------------------------------------------------------------- one axis

  /** An interval `[lo, hi]` that has moved by `shift` is apart from the interval `[left, right]`. */
  predicate Apart(lo: real, hi: real, shift: real, left: real, right: real) {
    hi + shift < left || lo + shift > right
  }

  /** Where the gap between the intervals closes. */
  predicate Closes(lo: real, hi: real, d: real, left: real, right: real, q: real) {
    if hi < left then d > 0.0 && Times(q, d) == left - hi else d < 0.0 && Times(q, d) == right - lo
  }

  /** The way to a positive gap, for a positive travel that covers it by `f`. */
  lemma GapCloses(gap: real, d: real, f: real) returns (q: real)
    requires gap > 0.0 && d > 0.0 && 0.0 < f && gap <= Times(f, d)
    ensures 0.0 < q <= f && Times(q, d) == gap
  {
    q := gap / d;
    QuotientTimes(gap, d);
    PositiveQuotient(gap, d);
    if f < q {
      TimesStrictlyMonotone(f, q, d);
    }
  }

  lemma PositiveTravel(f: real, d: real)
    requires f > 0.0 && Times(f, d) > 0.0
    ensures d > 0.0
  {
    TimesCommutes(f, d);
    TimesSign(d, f);
  }

  /** Intervals apart at the start that meet at `f` first meet at some `q` before, when the leading edge is on the
      near end. */
  lemma AxisEntry(lo: real, hi: real, d: real, left: real, right: real, f: real) returns (q: real)
    requires lo <= hi && left <= right && f > 0.0
    requires Apart(lo, hi, 0.0, left, right) && !Apart(lo, hi, Times(f, d), left, right)
    ensures 0.0 < q <= f && Closes(lo, hi, d, left, right, q)
    ensures !Apart(lo, hi, Times(q, d), left, right)
  {
    if hi < left {
      PositiveTravel(f, d);
      q := GapCloses(left - hi, d, f);
    } else {
      TimesNegated(f, d);
      PositiveTravel(f, -d);
      q := GapCloses(lo - right, -d, f);
      TimesNegated(q, d);
    }
  }

  /** Intervals that meet at two moments meet at every moment between. */
  lemma AxisBetween(lo: real, hi: real, d: real, left: real, right: real, a: real, b: real, c: real)
    requires a <= c <= b
    requires !Apart(lo, hi, Times(a, d), left, right) && !Apart(lo, hi, Times(b, d), left, right)
    ensures !Apart(lo, hi, Times(c, d), left, right)
  {
    if d >= 0.0 {
      TimesMonotone(a, c, d);
      TimesMonotone(c, b, d);
    } else {
      TimesMonotone(a, c, -d);
      TimesMonotone(c, b, -d);
      TimesNegated(a, d);
      TimesNegated(b, d);
      TimesNegated(c, d);
    }
  }

  /** A plane that is not nearer is not reached earlier. */
  lemma FartherIsLater(gap: real, farther: real, d: real, q: real, toi: real)
    requires Times(q, d) == gap && Times(toi, d) == farther
    requires if d > 0.0 then gap <= farther else d < 0.0 && farther <= gap
    ensures q <= toi
  {
    if toi < q {
      if d > 0.0 {
        TimesStrictlyMonotone(toi, q, d);
      } else {
        TimesStrictlyMonotone(toi, q, -d);
        TimesNegated(toi, d);
        TimesNegated(q, d);
      }
    }
  }

  // ---------------------------------------------------------------- the boxes

  function BallAt(ball: GameObj, deltaTime: int, f: real): Bounds {
    GetBoundaries(ball.(pos := Sweep(ball, deltaTime, f)))
  }

  /** The boxes of ball and paddle meet, edges included. */
  predicate Meet(ball: GameObj, deltaTime: int, f: real, paddle: GameObj) {
    var at, b := BallAt(ball, deltaTime, f), GetBoundaries(paddle);
    !SeparatedInX(at, b) && !SeparatedInY(at, b)
  }

  predicate HasWholeEdges(paddle: GameObj) {
    var b := GetBoundaries(paddle);
    && b.left == Trunc(b.left) as real && b.right == Trunc(b.right) as real
    && b.up == Trunc(b.up) as real && b.down == Trunc(b.down) as real
  }

  function TravelX(ball: GameObj, deltaTime: int): real {
    LinearMove(ball, deltaTime).pos.x - ball.pos.x
  }

  function TravelY(ball: GameObj, deltaTime: int): real {
    LinearMove(ball, deltaTime).pos.y - ball.pos.y
  }

  lemma SeparationInXIsApart(ball: GameObj, deltaTime: int, f: real, b: Bounds)
    ensures var a := GetBoundaries(ball);
            SeparatedInX(BallAt(ball, deltaTime, f), b) <==>
              Apart(a.left, a.right, Times(f, TravelX(ball, deltaTime)), b.left, b.right)
  {
  }

  lemma SeparationInYIsApart(ball: GameObj, deltaTime: int, f: real, b: Bounds)
    ensures var a := GetBoundaries(ball);
            SeparatedInY(BallAt(ball, deltaTime, f), b) <==>
              Apart(a.down, a.up, Times(f, TravelY(ball, deltaTime)), b.down, b.up)
  {
  }

  // ---------------------------------------------------------------- the candidates

  /** The plane ahead is reached at `q`, and the one behind it not before. */
  lemma XCandidateAt(ball: GameObj, paddle: GameObj, deltaTime: int, q: real)
    requires deltaTime > 0 && HasWholeEdges(paddle) && IsValidToi(q) && ball.size.x >= 0.0 && paddle.size.x >= 0.0
    requires var a, b := GetBoundaries(ball), GetBoundaries(paddle);
             && Apart(a.left, a.right, 0.0, b.left, b.right)
             && Closes(a.left, a.right, TravelX(ball, deltaTime), b.left, b.right, q)
    ensures XCandidate(ball, paddle, deltaTime).toi == q
  {
    var a, b, d := GetBoundaries(ball), GetBoundaries(paddle), TravelX(ball, deltaTime);
    SweepDirection(ball, deltaTime);
    var near, far := if a.right < b.left then b.left else b.right, if a.right < b.left then b.right else b.left;
    var lead := if a.right < b.left then a.right else a.left;
    assert lead == ball.pos.x + Lead(ball.velocity.x, ball.size.x);
    QuotientIsUnique(q, near - lead, d);
    assert XImpact(ball, Trunc(near), deltaTime, ZERO_COLL).toi == q;
    QuotientTimes(far - lead, d);
    assert XImpact(ball, Trunc(far), deltaTime, ZERO_COLL).toi == (far - lead) / d;
    FartherIsLater(near - lead, far - lead, d, q, (far - lead) / d);
  }

  lemma YCandidateAt(ball: GameObj, paddle: GameObj, deltaTime: int, q: real)
    requires deltaTime > 0 && HasWholeEdges(paddle) && IsValidToi(q) && ball.size.y >= 0.0 && paddle.size.y >= 0.0
    requires var a, b := GetBoundaries(ball), GetBoundaries(paddle);
             Apart(a.down, a.up, 0.0, b.down, b.up) && Closes(a.down, a.up, TravelY(ball, deltaTime), b.down, b.up, q)
    ensures YCandidate(ball, paddle, deltaTime).toi == q
  {
    var a, b, d := GetBoundaries(ball), GetBoundaries(paddle), TravelY(ball, deltaTime);
    SweepDirection(ball, deltaTime);
    var near, far := if a.up < b.down then b.down else b.up, if a.up < b.down then b.up else b.down;
    var lead := if a.up < b.down then a.up else a.down;
    assert lead == ball.pos.y + Lead(ball.velocity.y, ball.size.y);
    QuotientIsUnique(q, near - lead, d);
    assert YImpact(ball, Trunc(near), deltaTime, ZERO_COLL).toi == q;
    QuotientTimes(far - lead, d);
    assert YImpact(ball, Trunc(far), deltaTime, ZERO_COLL).toi == (far - lead) / d;
    FartherIsLater(near - lead, far - lead, d, q, (far - lead) / d);
  }

  /** Ball and paddle as the theorem takes them. */
  ghost predicate Fair(ball: GameObj, paddle: GameObj, deltaTime: int) {
    && deltaTime > 0 && HasWholeEdges(paddle)
    && ball.size.x >= 0.0 && ball.size.y >= 0.0 && paddle.size.x >= 0.0 && paddle.size.y >= 0.0
  }

  /** Boxes apart in x at the start that meet at `f`: the x candidate is the moment their x ranges first touch. */
  lemma XEntry(ball: GameObj, paddle: GameObj, deltaTime: int, f: real) returns (q: real)
    requires Fair(ball, paddle, deltaTime) && IsValidToi(f) && Meet(ball, deltaTime, f, paddle)
    requires SeparatedInX(GetBoundaries(ball), GetBoundaries(paddle))
    ensures 0.0 < q <= f && XCandidate(ball, paddle, deltaTime).toi == q
    ensures !SeparatedInX(BallAt(ball, deltaTime, q), GetBoundaries(paddle))
  {
    var a, b, d := GetBoundaries(ball), GetBoundaries(paddle), TravelX(ball, deltaTime);
    SeparationInXIsApart(ball, deltaTime, f, b);
    q := AxisEntry(a.left, a.right, d, b.left, b.right, f);
    SeparationInXIsApart(ball, deltaTime, q, b);
    XCandidateAt(ball, paddle, deltaTime, q);
  }

  lemma YEntry(ball: GameObj, paddle: GameObj, deltaTime: int, f: real) returns (q: real)
    requires Fair(ball, paddle, deltaTime) && IsValidToi(f) && Meet(ball, deltaTime, f, paddle)
    requires SeparatedInY(GetBoundaries(ball), GetBoundaries(paddle))
    ensures 0.0 < q <= f && YCandidate(ball, paddle, deltaTime).toi == q
    ensures !SeparatedInY(BallAt(ball, deltaTime, q), GetBoundaries(paddle))
  {
    var a, b, d := GetBoundaries(ball), GetBoundaries(paddle), TravelY(ball, deltaTime);
    SeparationInYIsApart(ball, deltaTime, f, b);
    q := AxisEntry(a.down, a.up, d, b.down, b.up, f);
    SeparationInYIsApart(ball, deltaTime, q, b);
    YCandidateAt(ball, paddle, deltaTime, q);
  }

  /** Together in y from some `e` (0 counts) to `f`, hence at `q` between. */
  lemma TogetherInY(ball: GameObj, paddle: GameObj, deltaTime: int, e: real, q: real, f: real)
    requires e <= q <= f
    requires !SeparatedInY(BallAt(ball, deltaTime, e), GetBoundaries(paddle))
    requires !SeparatedInY(BallAt(ball, deltaTime, f), GetBoundaries(paddle))
    ensures !SeparatedInY(BallAt(ball, deltaTime, q), GetBoundaries(paddle))
  {
    var a, b := GetBoundaries(ball), GetBoundaries(paddle);
    SeparationInYIsApart(ball, deltaTime, e, b);
    SeparationInYIsApart(ball, deltaTime, f, b);
    SeparationInYIsApart(ball, deltaTime, q, b);
    AxisBetween(a.down, a.up, TravelY(ball, deltaTime), b.down, b.up, e, f, q);
  }

  lemma TogetherInX(ball: GameObj, paddle: GameObj, deltaTime: int, e: real, q: real, f: real)
    requires e <= q <= f
    requires !SeparatedInX(BallAt(ball, deltaTime, e), GetBoundaries(paddle))
    requires !SeparatedInX(BallAt(ball, deltaTime, f), GetBoundaries(paddle))
    ensures !SeparatedInX(BallAt(ball, deltaTime, q), GetBoundaries(paddle))
  {
    var a, b := GetBoundaries(ball), GetBoundaries(paddle);
    SeparationInXIsApart(ball, deltaTime, e, b);
    SeparationInXIsApart(ball, deltaTime, f, b);
    SeparationInXIsApart(ball, deltaTime, q, b);
    AxisBetween(a.left, a.right, TravelX(ball, deltaTime), b.left, b.right, e, f, q);
  }

  lemma StartOfSweep(ball: GameObj, deltaTime: int)
    ensures BallAt(ball, deltaTime, 0.0) == GetBoundaries(ball)
  {
    SweepStartsAtRest(ball, deltaTime);
  }

  lemma XHitAt(ball: GameObj, paddle: GameObj, deltaTime: int, q: real)
    requires IsValidToi(q) && XCandidate(ball, paddle, deltaTime).toi == q
    requires !SeparatedInY(BallAt(ball, deltaTime, q), GetBoundaries(paddle))
    ensures XHit(ball, paddle, deltaTime, ZERO_COLL)
  {
    CandidateMeanings(ball, paddle, deltaTime);
    SweepStartsAtRest(paddle, deltaTime);
  }

  lemma YHitAt(ball: GameObj, paddle: GameObj, deltaTime: int, q: real)
    requires IsValidToi(q) && YCandidate(ball, paddle, deltaTime).toi == q
    requires !SeparatedInX(BallAt(ball, deltaTime, q), GetBoundaries(paddle))
    ensures YHit(ball, paddle, deltaTime, ZERO_COLL)
  {
    CandidateMeanings(ball, paddle, deltaTime);
    SweepStartsAtRest(paddle, deltaTime);
  }

  /** A hit on either axis bounds the reported moment. */
  lemma ReportedByHit(ball: GameObj, paddle: GameObj, deltaTime: int)
    ensures var c := PaddleImpact(ball, paddle, deltaTime, ZERO_COLL);
            && (XHit(ball, paddle, deltaTime, ZERO_COLL) ==> HitsBy(c, XCandidate(ball, paddle, deltaTime).toi))
            && (YHit(ball, paddle, deltaTime, ZERO_COLL) ==> HitsBy(c, YCandidate(ball, paddle, deltaTime).toi))
  {
    First2Chooses(XCandidate(ball, paddle, deltaTime), YCandidate(ball, paddle, deltaTime), ZERO_COLL);
  }

  // ---------------------------------------------------------------- completeness and exactness

  /** No tunnelling: a ball that starts apart from the paddle and meets it at `f` is found to hit it by then. */
  lemma MeetingIsFound(ball: GameObj, paddle: GameObj, deltaTime: int, f: real)
    requires Fair(ball, paddle, deltaTime) && IsValidToi(f) && Meet(ball, deltaTime, f, paddle)
    requires !Meet(ball, deltaTime, 0.0, paddle)
    ensures HitsBy(PaddleImpact(ball, paddle, deltaTime, ZERO_COLL), f)
  {
    StartOfSweep(ball, deltaTime);
    ReportedByHit(ball, paddle, deltaTime);
    var x, y := 0.0, 0.0;
    if SeparatedInX(GetBoundaries(ball), GetBoundaries(paddle)) {
      x := XEntry(ball, paddle, deltaTime, f);
    }
    if SeparatedInY(GetBoundaries(ball), GetBoundaries(paddle)) {
      y := YEntry(ball, paddle, deltaTime, f);
    }
    // the axis that closes last decides
    if x >= y {
      TogetherInY(ball, paddle, deltaTime, y, x, f);
      XHitAt(ball, paddle, deltaTime, x);
    } else {
      TogetherInX(ball, paddle, deltaTime, x, y, f);
      YHitAt(ball, paddle, deltaTime, y);
    }
  }

  /** A reported hit is a meeting of the boxes. */
  lemma HitIsMeeting(ball: GameObj, paddle: GameObj, deltaTime: int)
    requires Fair(ball, paddle, deltaTime)
    ensures var c := PaddleImpact(ball, paddle, deltaTime, ZERO_COLL);
            IsValidToi(c.toi) ==> Meet(ball, deltaTime, c.toi, paddle)
  {
    PaddleImpactTouches(ball, paddle, deltaTime);
    var c := PaddleImpact(ball, paddle, deltaTime, ZERO_COLL);
    if IsValidToi(c.toi) {
      TouchMeets(ball, paddle, deltaTime, c.toi, c.normal.x != 0.0);
    }
  }

  lemma TouchMeets(ball: GameObj, paddle: GameObj, deltaTime: int, f: real, vertical: bool)
    requires Fair(ball, paddle, deltaTime) && TouchesBox(ball, deltaTime, f, paddle, vertical)
    ensures Meet(ball, deltaTime, f, paddle)
  {
    var at := BallAt(ball, deltaTime, f);
    assert at.left <= EdgeX(ball, deltaTime, f) <= at.right;
    assert at.down <= EdgeY(ball, deltaTime, f) <= at.up;
  }

  /** The report is right: a hit exactly if the boxes meet during the sweep, and then their first meeting. */
  ghost predicate IsFirstMeeting(ball: GameObj, paddle: GameObj, deltaTime: int) {
    var c := PaddleImpact(ball, paddle, deltaTime, ZERO_COLL);
    && (IsValidToi(c.toi) <==> exists f :: IsValidToi(f) && Meet(ball, deltaTime, f, paddle))
    && (IsValidToi(c.toi) ==> Meet(ball, deltaTime, c.toi, paddle))
    && (forall f :: IsValidToi(f) && Meet(ball, deltaTime, f, paddle) ==> HitsBy(c, f))
  }

  lemma PaddleImpactIsFirstMeeting(ball: GameObj, paddle: GameObj, deltaTime: int)
    requires Fair(ball, paddle, deltaTime) && !Meet(ball, deltaTime, 0.0, paddle)
    ensures IsFirstMeeting(ball, paddle, deltaTime)
  {
    HitIsMeeting(ball, paddle, deltaTime);
    forall f | IsValidToi(f) && Meet(ball, deltaTime, f, paddle)
      ensures HitsBy(PaddleImpact(ball, paddle, deltaTime, ZERO_COLL), f)
    {
      MeetingIsFound(ball, paddle, deltaTime, f);
    }
  }
}
