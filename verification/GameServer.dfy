/** The authoritative side of a match: `src/server/server_main.c`, with `get_input_acc_direction` of
    `src/server/utility.c`. */
module GameServer {
  import opened Reals
  import opened FixedPoint
  import opened Vectors
  import opened Engine
  import opened Collision
  import opened BallLoop
  import opened BallTick
  import opened Game
  import opened Bytes
  import opened Packets

  /** The file's static variables. */
  datatype ServerState = ServerState(game: PongState, sync: int, input1: int, input2: int) {
    /** Accumulated, undrained input of one player. */
    function Input(i: int): int {
      if i == 0 then input1 else input2
    }
  }

  function InputAccDirection(inputAcc: int): int {
    if inputAcc > 0 then 1 else if inputAcc == 0 then 0 else -1
  }

  function AbsInt(x: int): nat {
    if x < 0 then -x else x
  }

  /** The paddle with the velocity its accumulated input asks for. */
  function Steered(paddle: GameObj, inputAcc: int): GameObj {
    paddle.(velocity := paddle.velocity.(y := Times(paddle.speed, InputAccDirection(inputAcc) as real)))
  }

  /** The paddle after draining its accumulated input. */
  function Drained(paddle: GameObj, inputAcc: int): GameObj {
    LinearMove(Steered(paddle, inputAcc), AbsInt(inputAcc))
  }

  /** A paddle of nominal speed one half moves half a pixel per accumulated millisecond, in its direction, and keeps
      that velocity, which is what the clients are told; without input it stands still. */
  lemma DrainedMovesHalfPerMs(paddle: GameObj, inputAcc: int)
    requires paddle.speed == 0.5
    ensures Drained(paddle, inputAcc).pos.y == paddle.pos.y + 0.5 * inputAcc as real
    ensures Drained(paddle, inputAcc).velocity.y == if inputAcc > 0 then 0.5 else if inputAcc < 0 then -0.5 else 0.0
    ensures Drained(paddle, inputAcc).speed == paddle.speed && Drained(paddle, inputAcc).size == paddle.size
  {
    var half := 0.5;
    assert Times(0.5, InputAccDirection(inputAcc) as real) == half * InputAccDirection(inputAcc) as real;
    if inputAcc > 0 {
      assert Times(0.5, AbsInt(inputAcc) as real) == 0.5 * inputAcc as real;
    } else if inputAcc == 0 {
      TimesOne(0.0);
    } else {
      assert Times(-0.5, AbsInt(inputAcc) as real) == 0.5 * inputAcc as real;
    }
  }

  function Court(boxSize: Vector): Wall {
    Wall(Trunc(boxSize.y), 0, 0, Trunc(boxSize.x))
  }

  /** `MIN_TICK_DURATION_MS`: a thousand divided by a cap of 60, in whole milliseconds. No tick is shorter. */
  const MIN_TICK := 16

  /** The court of the game. */
  const COURT := Wall(320, 0, 0, 480)

  lemma CourtOfGame(boxSize: Vector)
    requires boxSize == Vector(480.0, 320.0)
    ensures Court(boxSize) == COURT
  {
    TruncOfInt(480);
    TruncOfInt(320);
  }

  /** What `ball_advance` is given in a tick: paddles with their new velocities but at their old positions. */
  function TickArena(s: ServerState, deltaTime: int): Arena {
    Arena(Court(s.game.boxSize), Steered(s.game.player1, s.input1), Steered(s.game.player2, s.input2), deltaTime)
  }

  /** The game with both inputs drained and the ball of the outcome; after a goal the ball is blank. */
  function Advanced(s: ServerState, outcome: Outcome): PongState {
    s.game.(player1 := Drained(s.game.player1, s.input1),
            player2 := Drained(s.game.player2, s.input2),
            ball := if outcome.Moved? then outcome.ball else ZERO_OBJ)
  }

  /** One tick, given how the ball fared and the velocity a fresh ball would get. */
  function AfterTick(s: ServerState, outcome: Outcome, serve: Vector): ServerState {
    match outcome
    case Moved(_, _) => ServerState(Advanced(s, outcome), s.sync, 0, 0)
    case Scored(i) =>
      var reset := InitGame(Advanced(s, outcome), serve);
      ServerState(reset.(score := reset.score.With(i, reset.score.At(i) + 1)), WrapInt8(s.sync + 1), 0, 0)
  }

  /** What the tick broadcasts, from the state after it. */
  function TickPacket(after: ServerState, outcome: Outcome): Packet {
    if outcome.Scored? then PacketInit(after.sync, after.game) else PacketState(after.sync, after.game)
  }

  /** A received packet counts only with the current sync, and only if it is an input from one of the two players. */
  function AfterInput(s: ServerState, clientId: int, p: Packet): ServerState {
    if p.sync != s.sync then s
    else match p
         case PacketInput(_, ms) =>
           if s.game.playerIds.first == clientId then s.(input1 := s.input1 + ms)
           else if s.game.playerIds.second == clientId then s.(input2 := s.input2 + ms)
           else s
         case _ => s
  }

  /** The match begins: ids and score set, the game reset; sync and inputs are whatever they were. */
  function AfterStart(s: ServerState, id1: int, id2: int, serve: Vector): ServerState {
    s.(game := InitGame(s.game.(playerIds := Pair(id1, id2), score := Pair(0, 0)), serve))
  }

  /** The first INIT differs per player in the index only. */
  function StartPacket(s: ServerState, i: int): Packet {
    PacketInit(s.sync, s.game.(ownIdIndex := i))
  }

  class Server {
    var state: PongState
    var ssync: int
    var input1: int
    var input2: int

    ghost function Abs(): ServerState
      reads this
    {
      ServerState(state, ssync, input1, input2)
    }

    /** Static initialisation. */
    constructor ()
      ensures Abs() == ServerState(ZERO_STATE, 0, 0, 0)
    {
      state, ssync, input1, input2 := ZERO_STATE, 0, 0, 0;
    }

    /** `start_pong_game` up to the start of the ticking; returns the two packets sent. */
    method StartPongGame(id1: int, id2: int, serve: Vector) returns (first: Packet, second: Packet)
      modifies this
      ensures Abs() == AfterStart(old(Abs()), id1, id2, serve)
      ensures first == StartPacket(Abs(), 0) && second == StartPacket(Abs(), 1)
      ensures state.playerIds == Pair(id1, id2) && state.score == Pair(0, 0)
      ensures ssync == old(ssync) && input1 == old(input1) && input2 == old(input2)
    {
      state := state.(playerIds := Pair(id1, id2));
      state := state.(score := Pair(0, 0));
      state := InitGame(state, serve);
      first := PacketInit(ssync, state.(ownIdIndex := 0));
      second := PacketInit(ssync, state.(ownIdIndex := 1));
    }

    /** The first critical section of `send_state`: the accumulated inputs steer the paddles and are cleared. */
    method DrainInputs() returns (player1Upd: GameObj, player2Upd: GameObj)
      modifies this
      ensures state == old(state).(player1 := Steered(old(state.player1), old(input1)),
                                   player2 := Steered(old(state.player2), old(input2)))
      ensures player1Upd == Drained(old(state.player1), old(input1))
      ensures player2Upd == Drained(old(state.player2), old(input2))
      ensures input1 == 0 && input2 == 0 && ssync == old(ssync)
    {
      state := state.(player1 := state.player1.(velocity := state.player1.velocity.(y := state.player1.speed)));
      state := state.(player1 := state.player1.(velocity := state.player1.velocity.(
                        y := Times(state.player1.velocity.y, InputAccDirection(input1) as real))));
      player1Upd := LinearMove(state.player1, AbsInt(input1));
      state := state.(player2 := state.player2.(velocity := state.player2.velocity.(y := state.player2.speed)));
      state := state.(player2 := state.player2.(velocity := state.player2.velocity.(
                        y := Times(state.player2.velocity.y, InputAccDirection(input2) as real))));
      player2Upd := LinearMove(state.player2, AbsInt(input2));
      input1 := 0;
      input2 := 0;
    }

    /** The rest of `send_state`, once the ball's fate is known: after a goal the game is reset, the score counted,
        the sync advanced. `before` is the state the tick started from. */
    method Conclude(player1Upd: GameObj, player2Upd: GameObj, ballUpd: GameObj, scoredIndex: int, serve: Vector,
                    ghost before: ServerState, ghost outcome: Outcome)
      returns (packet: Packet)
      requires player1Upd == Drained(before.game.player1, before.input1)
      requires player2Upd == Drained(before.game.player2, before.input2)
      requires state == before.game.(player1 := state.player1, player2 := state.player2)
      requires ssync == before.sync && input1 == input2 == 0
      requires if scoredIndex == -1 then outcome.Moved? && ballUpd == outcome.ball
               else outcome == Scored(scoredIndex) && ballUpd == ZERO_OBJ
      modifies this
      ensures Abs() == AfterTick(before, outcome, serve) && packet == TickPacket(Abs(), outcome)
    {
      state := state.(ball := ballUpd);
      state := state.(player1 := player1Upd);
      state := state.(player2 := player2Upd);
      if scoredIndex != -1 {
        state := InitGame(state, serve);
        state := state.(score := state.score.With(scoredIndex, state.score.At(scoredIndex) + 1));
        ssync := WrapInt8(ssync + 1);
        packet := PacketInit(ssync, state);
      } else {
        packet := PacketState(ssync, state);
      }
    }

    /**
     `send_state`, one tick. `hyp` is the ball's speed as `sqrtf` would compute it, `serve` the velocity a fresh ball
     would get. The ball's fate is that of one complete flight; the result is the packet broadcast.
     */
    method SendState(deltaTime: int, hyp: real, serve: Vector)
      returns (packet: Packet, ghost outcome: Outcome, ghost flight: seq<Flying>)
      requires deltaTime > 0 && IsSpeed(state.ball.velocity, hyp)
      modifies this
      ensures IsTickFlight(TickArena(old(Abs()), deltaTime), old(state.ball), hyp, flight, outcome)
      ensures Abs() == AfterTick(old(Abs()), outcome, serve)
      ensures packet == TickPacket(Abs(), outcome)
    {
      var player1Upd, player2Upd := DrainInputs();
      var wall := Wall(Trunc(state.boxSize.y), 0, 0, Trunc(state.boxSize.x));
      var ballUpd, scoredIndex;
      ballUpd, scoredIndex, flight, outcome := BallAdvance(wall, state.player1, state.player2, state.ball, ZERO_OBJ,
                                                           deltaTime, hyp);
      packet := Conclude(player1Upd, player2Upd, ballUpd, scoredIndex, serve, old(Abs()), outcome);
    }

    /** `on_input_ready`, after the packet has been received. */
    method OnInputReady(clientId: int, packet: Packet)
      modifies this
      ensures Abs() == AfterInput(old(Abs()), clientId, packet)
    {
      if packet.sync != ssync {
        return;
      }
      if !packet.PacketInput? {
        return;
      }
      if state.playerIds.first == clientId {
        input1 := input1 + packet.inputAccMs;
      } else if state.playerIds.second == clientId {
        input2 := input2 + packet.inputAccMs;
      }
    }
  }
}
