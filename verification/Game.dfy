/** The shared game state (`include/cpong_logic.h`) and its reset (`init_game` in `src/common/cpong_logic.c`). */
module Game {
  import opened Vectors
  import opened Engine

  /** A C array of two. */
  datatype Pair<T> = Pair(first: T, second: T) {
    function At(i: int): T {
      if i == 0 then first else second
    }

    function With(i: int, x: T): Pair<T> {
      if i == 0 then Pair(x, second) else Pair(first, x)
    }
  }

  datatype PongState = PongState(
    playerIds: Pair<int>,
    ownIdIndex: int,
    score: Pair<int>,
    player1: GameObj,
    player2: GameObj,
    ball: GameObj,
    boxSize: Vector
  ) {
    /** `player1` belongs to index 0, `player2` to index 1. */
    function Player(i: int): GameObj {
      if i == 0 then player1 else player2
    }
  }

  const ZERO_STATE := PongState(Pair(0, 0), 0, Pair(0, 0), ZERO_OBJ, ZERO_OBJ, ZERO_OBJ, ZERO_VECTOR)

  /** The height both paddles are reset to. */
  const RESET_Y := 160.0
  const PADDLE_SPEED := 0.5
  const BALL_SPEED := 0.05
  const BALL_SIZE := Vector(10.0, 10.0)

  /** `init_paddle`, and the position `init_game` gives it. */
  function InitPaddle(x: real): GameObj {
    GameObj(PADDLE_SPEED, Vector(x, RESET_Y), ZERO_VECTOR, Vector(10.0, 50.0))
  }

  /** `init_game`: ids, indices and score survive. The random direction of the ball is a parameter. */
  function InitGame(s: PongState, velocity: Vector): PongState {
    s.(boxSize := Vector(480.0, 320.0),
       player1 := InitPaddle(475.0),
       player2 := InitPaddle(5.0),
       ball := GameObj(BALL_SPEED, Vector(240.0, 160.0), velocity, BALL_SIZE))
  }
}
