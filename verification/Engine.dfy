/** `src/lib/engine.c`: linear motion, bounding boxes and the choice of the earliest collision. */
module Engine {
  import opened Reals
  import opened Vectors

  datatype GameObj = GameObj(speed: real, pos: Vector, velocity: Vector, size: Vector)

  const ZERO_OBJ := GameObj(0.0, ZERO_VECTOR, ZERO_VECTOR, ZERO_VECTOR)

  /** The duration is an `int` parameter: a caller's fraction has been dropped before the call. */
  function LinearMove(obj: GameObj, deltaTime: int): GameObj {
    obj.(pos := Add(obj.pos, Multiply(obj.velocity, deltaTime as real)))
  }

  function LinearInterpolate(pos: Vector, posNext: Vector, fraction: real): Vector {
    Vector(Times(fraction, posNext.x - pos.x) + pos.x, Times(fraction, posNext.y - pos.y) + pos.y)
  }

  datatype Bounds = Bounds(up: real, down: real, left: real, right: real)

  function GetBoundaries(obj: GameObj): Bounds {
    Bounds(obj.pos.y + obj.size.y / 2.0, obj.pos.y - obj.size.y / 2.0,
           obj.pos.x - obj.size.x / 2.0, obj.pos.x + obj.size.x / 2.0)
  }

  datatype CollInfo = CollInfo(toi: real, normal: Vector, pos: Vector)

  const ZERO_COLL := CollInfo(0.0, ZERO_VECTOR, ZERO_VECTOR)

  predicate IsValidToi(toi: real) {
    0.0 < toi <= 1.0
  }

  /** One round of the selection loop: a valid and strictly earlier collision replaces the best so far. */
  function Earlier(best: CollInfo, c: CollInfo): CollInfo {
    if IsValidToi(c.toi) && c.toi < best.toi then c else best
  }

  /** The selection loop as a fold over the first `n` entries. `prior` is what the result slot held before
      the call; only its time of impact is overwritten (by the sentinel 99) when nothing valid is found. */
  function FirstOf(cs: seq<CollInfo>, n: nat, prior: CollInfo): CollInfo
    requires n <= |cs|
  {
    if n == 0 then prior.(toi := 99.0) else Earlier(FirstOf(cs, n - 1, prior), cs[n - 1])
  }

  /** Entry `i` is the least valid one among the first `n`, and of equal ones the first. */
  ghost predicate IsFirstValid(cs: seq<CollInfo>, n: nat, i: int)
    requires n <= |cs|
  {
    && 0 <= i < n
    && IsValidToi(cs[i].toi)
    && (forall j :: 0 <= j < n && IsValidToi(cs[j].toi) ==> cs[i].toi <= cs[j].toi)
    && (forall j :: 0 <= j < i && IsValidToi(cs[j].toi) ==> cs[i].toi < cs[j].toi)
  }

  ghost predicate NoneValid(cs: seq<CollInfo>, n: nat)
    requires n <= |cs|
  {
    forall j :: 0 <= j < n ==> !IsValidToi(cs[j].toi)
  }

  /** The fold finds the least valid time of impact, and leaves the sentinel exactly when there is none.
      The index it chose is returned; -1 stands for none. */
  lemma {:induction false} FirstOfIsLeast(cs: seq<CollInfo>, n: nat, prior: CollInfo) returns (i: int)
    requires n <= |cs|
    ensures i == -1 <==> NoneValid(cs, n)
    ensures i == -1 ==> FirstOf(cs, n, prior) == prior.(toi := 99.0)
    ensures i != -1 ==> IsFirstValid(cs, n, i) && FirstOf(cs, n, prior) == cs[i]
  {
    if n == 0 {
      i := -1;
    } else {
      i := FirstOfIsLeast(cs, n - 1, prior);
      var last := cs[n - 1].toi;
      if IsValidToi(last) && (i == -1 || last < cs[i].toi) {
        LaterIsFirst(cs, n, i);
        i := n - 1;
      }
    }
  }

  /** A strictly earlier last entry takes over from the best of the entries before it. */
  lemma LaterIsFirst(cs: seq<CollInfo>, n: nat, i: int)
    requires 0 < n <= |cs| && IsValidToi(cs[n - 1].toi)
    requires if i == -1 then NoneValid(cs, n - 1) else IsFirstValid(cs, n - 1, i) && cs[n - 1].toi < cs[i].toi
    ensures IsFirstValid(cs, n, n - 1) && !NoneValid(cs, n)
  {
    forall j | 0 <= j < n - 1 && IsValidToi(cs[j].toi)
      ensures cs[n - 1].toi < cs[j].toi
    {
    }
  }

  function First2(a: CollInfo, b: CollInfo, prior: CollInfo): CollInfo {
    Earlier(Earlier(prior.(toi := 99.0), a), b)
  }

  function First4(a: CollInfo, b: CollInfo, c: CollInfo, d: CollInfo, prior: CollInfo): CollInfo {
    Earlier(Earlier(First2(a, b, prior), c), d)
  }

  lemma FirstOfTwo(cs: seq<CollInfo>, prior: CollInfo)
    requires |cs| >= 2
    ensures FirstOf(cs, 2, prior) == First2(cs[0], cs[1], prior)
  {
    assert FirstOf(cs, 1, prior) == Earlier(FirstOf(cs, 0, prior), cs[0]);
  }

  lemma FirstOfFour(cs: seq<CollInfo>, prior: CollInfo)
    requires |cs| >= 4
    ensures FirstOf(cs, 4, prior) == First4(cs[0], cs[1], cs[2], cs[3], prior)
  {
    FirstOfTwo(cs, prior);
    assert FirstOf(cs, 3, prior) == Earlier(FirstOf(cs, 2, prior), cs[2]);
  }

  /** `get_first_collision` */
  method GetFirstCollision(collisions: array<CollInfo>, amount: nat, prior: CollInfo)
    returns (found: bool, result: CollInfo)
    requires amount <= collisions.Length
    ensures result == FirstOf(collisions[..], amount, prior)
    ensures found == !NoneValid(collisions[..], amount)
    ensures found ==> exists i :: IsFirstValid(collisions[..], amount, i) && result == collisions[i]
    ensures !found ==> result == prior.(toi := 99.0)
  {
    result := prior.(toi := 99.0);
    for i := 0 to amount
      invariant result == FirstOf(collisions[..], i, prior)
    {
      if IsValidToi(collisions[i].toi) && collisions[i].toi < result.toi {
        result := collisions[i];
      }
    }
    found := result.toi != 99.0;
    ghost var i := FirstOfIsLeast(collisions[..], amount, prior);
  }
}
