/** The predicting side of a match: `src/client/client_logic.c`, with the joining part of `src/client/client_main.c`. */
module GameClient {
  import opened Reals
  import opened FixedPoint
  import opened Engine
  import opened Collision
  import opened BallLoop
  import opened BallTick
  import opened Game
  import opened Packets
  import opened GameServer

  datatype ClientState = ClientState(local: PongState, server: PongState, sync: int, inputAccMs: int)

  /** `down - up` */
  function KeyDirection(up: bool, down: bool): int {
    (if down then 1 else 0) - (if up then 1 else 0)
  }

  /** A paddle driven by the local keys. */
  function Driven(paddle: GameObj, direction: int, deltaTime: int): GameObj {
    LinearMove(paddle.(velocity := paddle.velocity.(y := direction as real * 0.5)), deltaTime)
  }

  lemma DrivenMovesHalfPerMs(paddle: GameObj, direction: int, deltaTime: int)
    requires -1 <= direction <= 1
    ensures Driven(paddle, direction, deltaTime).pos.y == paddle.pos.y + 0.5 * (direction * deltaTime) as real
  {
    if direction == 0 {
      TimesOne(deltaTime as real);
    }
  }

  function FrameArena(local: PongState, deltaTime: int): Arena {
    Arena(Court(local.boxSize), local.player1, local.player2, deltaTime)
  }

  /** `update_local_state`: own paddle by the keys, the other by its last velocity, the ball by its outcome. A goal
      is not predicted: the ball is blank then, size included. */
  function AfterUpdate(local: PongState, deltaTime: int, direction: int, outcome: Outcome): PongState {
    var mine := local.ownIdIndex == 0;
    var player1, player2 := local.player1, local.player2;
    local.(player1 := if mine then Driven(player1, direction, deltaTime) else LinearMove(player1, deltaTime),
           player2 := if mine then LinearMove(player2, deltaTime) else Driven(player2, direction, deltaTime),
           ball := if outcome.Moved? then outcome.ball else ZERO_OBJ)
  }

  /** One frame of `update`: the input is accumulated and predicted. */
  function AfterFrame(c: ClientState, deltaTime: int, direction: int, outcome: Outcome): ClientState {
    c.(inputAccMs := c.inputAccMs + direction * deltaTime,
       local := AfterUpdate(c.local, deltaTime, direction, outcome))
  }

  /** A paddle with the height and vertical velocity of another. */
  function MovedLike(paddle: GameObj, other: GameObj): GameObj {
    paddle.(pos := paddle.pos.(y := other.pos.y), velocity := paddle.velocity.(y := other.velocity.y))
  }

  /** `server_snap`: the ball's and the opponent's motion are taken over, the own paddle is not. */
  function Snapped(local: PongState, server: PongState): PongState {
    var ball := local.ball.(pos := server.ball.pos, velocity := server.ball.velocity);
    if local.ownIdIndex != 0 then local.(ball := ball, player1 := MovedLike(local.player1, server.player1))
    else local.(ball := ball, player2 := MovedLike(local.player2, server.player2))
  }

  /** `server_state_receive`: the sync of a STATE is ignored; an INIT replaces everything but the own index. */
  function AfterPacket(c: ClientState, p: Packet): ClientState {
    match p
    case PacketState(_, s) => c.(server := s, local := Snapped(c.local, s))
    case PacketInit(sync, s) => c.(local := s.(ownIdIndex := c.local.ownIdIndex), sync := sync, inputAccMs := 0)
    case _ => c
  }

  /** `network_update` sends and clears the accumulated input. */
  function InputPacket(c: ClientState): Packet {
    PacketInput(c.sync, c.inputAccMs)
  }

  function AfterSend(c: ClientState): ClientState {
    c.(inputAccMs := 0)
  }

  /** `client_main` on the first packet, which must be an INIT. */
  function AfterJoin(c: ClientState, sync: int, s: PongState): ClientState {
    c.(sync := sync, local := s.(score := Pair(0, 0)))
  }

  const UNJOINED := ClientState(ZERO_STATE, ZERO_STATE, 0, 0)

  class Client {
    var localState: PongState
    var serverState: PongState
    var sync: int
    var inputAccMs: int

    ghost function Abs(): ClientState
      reads this
    {
      ClientState(localState, serverState, sync, inputAccMs)
    }

    /** Static initialisation. */
    constructor ()
      ensures Abs() == UNJOINED
    {
      localState, serverState, sync, inputAccMs := ZERO_STATE, ZERO_STATE, 0, 0;
    }

    /** The start of `client_main`; anything but an INIT ends the client. */
    method Join(packet: Packet) returns (ok: bool)
      modifies this
      ensures ok == packet.PacketInit?
      ensures Abs() == if ok then AfterJoin(old(Abs()), packet.sync, packet.state) else old(Abs())
      ensures ok ==> sync == packet.sync && localState.score == Pair(0, 0) && inputAccMs == old(inputAccMs)
    {
      if !packet.PacketInit? {
        return false;
      }
      sync := packet.sync;
      localState := packet.state;
      localState := localState.(score := Pair(0, localState.score.second));
      localState := localState.(score := Pair(localState.score.first, 0));
      return true;
    }

    /** `receive_paddle_inputs` */
    method ReceivePaddleInputs(up: bool, down: bool, deltaTime: int) returns (direction: int)
      modifies this`inputAccMs
      ensures direction == KeyDirection(up, down) && inputAccMs == old(inputAccMs) + direction * deltaTime
    {
      direction := (if down then 1 else 0) - (if up then 1 else 0);
      inputAccMs := inputAccMs + direction * deltaTime;
    }

    /** `update_local_state` */
    method UpdateLocalState(deltaTime: int, direction: int, hyp: real)
      returns (ghost outcome: Outcome, ghost flight: seq<Flying>)
      requires deltaTime > 0 && IsSpeed(localState.ball.velocity, hyp)
      modifies this`localState
      ensures IsTickFlight(FrameArena(old(localState), deltaTime), old(localState.ball), hyp, flight, outcome)
      ensures localState == AfterUpdate(old(localState), deltaTime, direction, outcome)
    {
      var player1Upd, player2Upd := localState.player1, localState.player2;
      if 0 == localState.ownIdIndex {
        player1Upd := player1Upd.(velocity := player1Upd.velocity.(y := direction as real * 0.5));
        player1Upd := LinearMove(player1Upd, deltaTime);
        player2Upd := LinearMove(player2Upd, deltaTime);
      } else {
        player2Upd := player2Upd.(velocity := player2Upd.velocity.(y := direction as real * 0.5));
        player2Upd := LinearMove(player2Upd, deltaTime);
        player1Upd := LinearMove(player1Upd, deltaTime);
      }
      var wall := Wall(Trunc(localState.boxSize.y), 0, 0, Trunc(localState.boxSize.x));
      var ballUpd, scoredIndex;
      ballUpd, scoredIndex, flight, outcome :=
        BallAdvance(wall, localState.player1, localState.player2, localState.ball, ZERO_OBJ, deltaTime, hyp);
      localState := localState.(ball := ballUpd, player1 := player1Upd, player2 := player2Upd);
    }

    /** `update`: one frame. */
    method Update(deltaTime: int, up: bool, down: bool, hyp: real)
      returns (ghost outcome: Outcome, ghost flight: seq<Flying>)
      requires deltaTime > 0 && IsSpeed(localState.ball.velocity, hyp)
      modifies this
      ensures IsTickFlight(FrameArena(old(localState), deltaTime), old(localState.ball), hyp, flight, outcome)
      ensures Abs() == AfterFrame(old(Abs()), deltaTime, KeyDirection(up, down), outcome)
    {
      var direction := ReceivePaddleInputs(up, down, deltaTime);
      outcome, flight := UpdateLocalState(deltaTime, direction, hyp);
    }

    /** `server_snap` */
    method ServerSnap(server: PongState)
      modifies this`localState
      ensures localState == Snapped(old(localState), server)
    {
      localState := localState.(ball := localState.ball.(pos := server.ball.pos));
      localState := localState.(ball := localState.ball.(velocity := server.ball.velocity));
      if 0 != localState.ownIdIndex {
        var paddle := localState.player1;
        paddle := paddle.(pos := paddle.pos.(y := server.player1.pos.y));
        paddle := paddle.(velocity := paddle.velocity.(y := server.player1.velocity.y));
        localState := localState.(player1 := paddle);
      } else {
        var paddle := localState.player2;
        paddle := paddle.(pos := paddle.pos.(y := server.player2.pos.y));
        paddle := paddle.(velocity := paddle.velocity.(y := server.player2.velocity.y));
        localState := localState.(player2 := paddle);
      }
    }

    /** `server_state_receive`, after the packet has been received. */
    method ServerStateReceive(packet: Packet) returns (res: int)
      modifies this
      ensures Abs() == AfterPacket(old(Abs()), packet)
      ensures res == if packet.PacketState? || packet.PacketInit? then 0 else -1
    {
      match packet {
        case PacketState(_, s) =>
          serverState := s;
          ServerSnap(serverState);
        case PacketInit(newSync, s) =>
          var ownIndexSave := localState.ownIdIndex;
          localState := s;
          localState := localState.(ownIdIndex := ownIndexSave);
          sync := newSync;
          inputAccMs := 0;
        case _ => return -1;
      }
      return 0;
    }

    /** `network_update`; returns the packet sent. */
    method NetworkUpdate() returns (packet: Packet)
      modifies this
      ensures packet == InputPacket(old(Abs())) && Abs() == AfterSend(old(Abs()))
    {
      packet := PacketInput(sync, inputAccMs);
      inputAccMs := 0;
    }
  }
}
