/** The collision tests of `src/common/cpong_logic.c` as the program runs them, filling out-parameters. */
module CollisionTests {
  import opened FixedPoint
  import opened Vectors
  import opened Engine
  import opened Collision

  /** `ball_x_collide`; `prior` is what the out-parameter held before the call. */
  method BallXCollide(ball: GameObj, x: int, deltaTime: int, prior: CollInfo) returns (hit: bool, coll: CollInfo)
    ensures coll == XImpact(ball, x, deltaTime, prior) && hit == IsValidToi(coll.toi)
  {
    var ballNext := LinearMove(ball, deltaTime);
    var dir := if ball.velocity.x > 0.0 then 1 else -1;
    LeadIsSignedHalf(ball.velocity.x, ball.size.x);
    coll := prior.(toi := Toi(x as real - dir as real * ball.size.x / 2.0 - ball.pos.x, ballNext.pos.x - ball.pos.x));
    if !IsValidToi(coll.toi) {
      return false, coll;
    }
    coll := coll.(pos := LinearInterpolate(ball.pos, ballNext.pos, coll.toi));
    coll := coll.(normal := Vector(-dir as real, 0.0));
    return true, coll;
  }

  /** `ball_y_collide` */
  method BallYCollide(ball: GameObj, y: int, deltaTime: int, prior: CollInfo) returns (hit: bool, coll: CollInfo)
    ensures coll == YImpact(ball, y, deltaTime, prior) && hit == IsValidToi(coll.toi)
  {
    var ballNext := LinearMove(ball, deltaTime);
    var dir := if ball.velocity.y > 0.0 then 1 else -1;
    LeadIsSignedHalf(ball.velocity.y, ball.size.y);
    coll := prior.(toi := Toi(y as real - dir as real * ball.size.y / 2.0 - ball.pos.y, ballNext.pos.y - ball.pos.y));
    if !IsValidToi(coll.toi) {
      return false, coll;
    }
    coll := coll.(pos := LinearInterpolate(ball.pos, ballNext.pos, coll.toi));
    coll := coll.(normal := Vector(0.0, -dir as real));
    return true, coll;
  }

  /** Two collisions in an array, and the first of them. */
  method FirstOfPair(first: CollInfo, second: CollInfo, prior: CollInfo) returns (found: bool, result: CollInfo)
    ensures result == First2(first, second, prior) && found == IsValidToi(result.toi)
  {
    var collisions := new CollInfo[2](_ => ZERO_COLL);
    collisions[0] := first;
    collisions[1] := second;
    found, result := GetFirstCollision(collisions, 2, prior);
    FirstOfTwo(collisions[..], prior);
    First2Chooses(first, second, prior);
  }

  /** Four collisions in an array, and the first of them. */
  method FirstOfQuad(first: CollInfo, second: CollInfo, third: CollInfo, fourth: CollInfo, prior: CollInfo)
    returns (found: bool, result: CollInfo)
    ensures result == First4(first, second, third, fourth, prior) && found == IsValidToi(result.toi)
  {
    var collisions := new CollInfo[4](_ => ZERO_COLL);
    collisions[0] := first;
    collisions[1] := second;
    collisions[2] := third;
    collisions[3] := fourth;
    found, result := GetFirstCollision(collisions, 4, prior);
    FirstOfFour(collisions[..], prior);
    First4Chooses(first, second, third, fourth, prior);
  }

  /** `AABB_collide` */
  method AABBCollide(obj1: GameObj, obj2: GameObj, deltaTime: int, prior: CollInfo) returns (hit: bool, coll: CollInfo)
    ensures coll == PaddleImpact(obj1, obj2, deltaTime, prior)
    ensures hit == (XHit(obj1, obj2, deltaTime, prior) || YHit(obj1, obj2, deltaTime, prior))
  {
    var bounds := GetBoundaries(obj2);
    var boundsAtToi := GetBoundaries(obj2.(pos := LinearInterpolate(obj2.pos, LinearMove(obj2, deltaTime).pos,
                                                                    prior.toi)));

    var _, left := BallXCollide(obj1, Trunc(bounds.left), deltaTime, ZERO_COLL);
    var _, right := BallXCollide(obj1, Trunc(bounds.right), deltaTime, ZERO_COLL);
    var xHit, xColl := FirstOfPair(left, right, ZERO_COLL);
    if xHit {
      var at := GetBoundaries(obj1.(pos := xColl.pos));
      if at.up < boundsAtToi.down || at.down > boundsAtToi.up {
        xHit := false;
      }
    }

    var _, up := BallYCollide(obj1, Trunc(bounds.up), deltaTime, ZERO_COLL);
    var _, down := BallYCollide(obj1, Trunc(bounds.down), deltaTime, ZERO_COLL);
    var yHit, yColl := FirstOfPair(up, down, ZERO_COLL);
    if yHit {
      var at := GetBoundaries(obj1.(pos := yColl.pos));
      if at.right < boundsAtToi.left || at.left > boundsAtToi.right {
        yHit := false;
      }
    }

    coll := prior;
    if xHit && yHit {
      var _, first := FirstOfPair(xColl, yColl, coll);
      coll := first;
    } else if xHit {
      coll := xColl;
    } else if yHit {
      coll := yColl;
    } else {
      coll := coll.(toi := -1.0);
    }
    hit := xHit || yHit;
  }

  /** `ball_wall_collide` */
  method BallWallCollide(wall: Wall, ball: GameObj, deltaTime: int, prior: CollInfo) returns (hit: bool, coll: CollInfo)
    ensures coll == WallImpact(wall, ball, deltaTime, prior) && hit == IsValidToi(coll.toi)
  {
    var _, up := BallYCollide(ball, wall.up, deltaTime, ZERO_COLL);
    var _, down := BallYCollide(ball, wall.down, deltaTime, ZERO_COLL);
    hit, coll := FirstOfPair(up, down, prior);
  }

  /** `ball_score_collide` */
  method BallScoreCollide(wall: Wall, ball: GameObj, deltaTime: int, prior: CollInfo)
    returns (scoredIndex: int, coll: CollInfo)
    ensures coll == GoalImpact(wall, ball, deltaTime, prior)
    ensures scoredIndex == GoalIndex(wall, ball, deltaTime, prior)
    ensures scoredIndex == -1 <==> !IsValidToi(coll.toi)
  {
    scoredIndex := -1;
    var hit;
    hit, coll := BallXCollide(ball, wall.left, deltaTime, prior);
    if hit {
      scoredIndex := 0;
    } else {
      hit, coll := BallXCollide(ball, wall.right, deltaTime, coll);
      if hit {
        scoredIndex := 1;
      }
    }
  }
}
