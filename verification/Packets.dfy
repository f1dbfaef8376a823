/**
 `src/common/cpong_packets.c`: packets as bytes. A packet is a type byte, a sync byte, the length of the body as a
 32-bit word written after the body is known, and the body.
 */
module Packets {
  import opened FixedPoint
  import opened Vectors
  import opened Engine
  import opened Game
  import opened Bytes
  import opened BinArray

  const PACKET_HEADER_SIZE := 6
  const MAX_PACKET_SIZE := 200

  /** A type byte other than the four known ones leaves the data alone. */
  datatype Packet =
    | PacketPing(sync: int, dummy: int)
    | PacketInput(sync: int, inputAccMs: int)
    | PacketInit(sync: int, state: PongState)
    | PacketState(sync: int, state: PongState)
    | PacketUnknown(sync: int, tag: int)

  /** The type byte, as stored. */
  function Tag(p: Packet): int {
    match p
    case PacketPing(_, _) => 0
    case PacketInput(_, _) => 1
    case PacketInit(_, _) => 2
    case PacketState(_, _) => 3
    case PacketUnknown(_, tag) => tag
  }

  predicate VectorFits(v: Vector) {
    IsEncodable(v.x) && IsEncodable(v.y)
  }

  predicate ObjFits(o: GameObj) {
    VectorFits(o.pos) && VectorFits(o.velocity) && VectorFits(o.size)
  }

  /** What an INIT carries. */
  predicate InitFits(s: PongState) {
    && IsInt32(s.playerIds.first) && IsInt32(s.playerIds.second) && IsInt32(s.ownIdIndex)
    && IsInt32(s.score.first) && IsInt32(s.score.second)
    && ObjFits(s.player1) && ObjFits(s.player2) && ObjFits(s.ball) && VectorFits(s.boxSize)
  }

  /** What a STATE carries of a paddle. */
  predicate PaddleFits(o: GameObj) {
    IsEncodable(o.pos.y) && VectorFits(o.velocity)
  }

  /** What a STATE carries; the other fields may hold anything. */
  predicate StateFits(s: PongState) {
    && PaddleFits(s.player1) && PaddleFits(s.player2)
    && VectorFits(s.ball.pos) && VectorFits(s.ball.velocity)
  }

  /** Every carried field is within its C type and every carried float within the fixed-point range. */
  predicate Fits(p: Packet) {
    && IsInt8(p.sync)
    && match p
       case PacketPing(_, dummy) => IsInt8(dummy)
       case PacketInput(_, ms) => IsInt32(ms)
       case PacketInit(_, s) => InitFits(s)
       case PacketState(_, s) => StateFits(s)
       case PacketUnknown(_, tag) => IsInt8(tag) && !(0 <= tag <= 3)
  }

  function VectorWords(v: Vector): seq<Int32>
    requires VectorFits(v)
  {
    [ToFixed(v.x), ToFixed(v.y)]
  }

  function ObjWords(o: GameObj): seq<Int32>
    requires ObjFits(o)
  {
    VectorWords(o.pos) + VectorWords(o.velocity) + VectorWords(o.size)
  }

  /** The body of every packet but a ping, word by word. */
  function Words(p: Packet): (ws: seq<Int32>)
    requires Fits(p)
    ensures p.PacketInput? ==> |ws| == 1
    ensures p.PacketInit? ==> |ws| == 25
    ensures p.PacketState? ==> |ws| == 10
  {
    match p
    case PacketInput(_, ms) => [ms]
    case PacketInit(_, s) =>
      [s.playerIds.first, s.playerIds.second, s.ownIdIndex, s.score.first, s.score.second]
      + ObjWords(s.player1) + ObjWords(s.player2) + ObjWords(s.ball) + VectorWords(s.boxSize)
    case PacketState(_, s) =>
      [ToFixed(s.player1.pos.y)] + VectorWords(s.player1.velocity)
      + [ToFixed(s.player2.pos.y)] + VectorWords(s.player2.velocity)
      + VectorWords(s.ball.pos) + VectorWords(s.ball.velocity)
    case _ => []
  }

  function Body(p: Packet): seq<Int8>
    requires Fits(p)
  {
    if p.PacketPing? then [p.dummy] else EncodeWords(Words(p))
  }

  /** The bytes on the wire. */
  function Encode(p: Packet): seq<Int8>
    requires Fits(p)
  {
    [Tag(p), p.sync] + EncodeI32(|Body(p)|) + Body(p)
  }

  // ---------------------------------------------------------------- decoding, from the bytes alone

  /** Word `k` of the body. */
  function WordAt(bytes: seq<Int8>, k: nat): Int32
    requires |bytes| >= PACKET_HEADER_SIZE + 4 * (k + 1)
  {
    DecodeI32(bytes[PACKET_HEADER_SIZE + 4 * k..PACKET_HEADER_SIZE + 4 * k + 4])
  }

  function FloatAt(bytes: seq<Int8>, k: nat): real
    requires |bytes| >= PACKET_HEADER_SIZE + 4 * (k + 1)
  {
    FromFixed(WordAt(bytes, k))
  }

  function VectorAt(bytes: seq<Int8>, k: nat): Vector
    requires |bytes| >= PACKET_HEADER_SIZE + 4 * (k + 2)
  {
    Vector(FloatAt(bytes, k), FloatAt(bytes, k + 1))
  }

  function ObjAt(bytes: seq<Int8>, k: nat, prior: GameObj): GameObj
    requires |bytes| >= PACKET_HEADER_SIZE + 4 * (k + 6)
  {
    prior.(pos := VectorAt(bytes, k), velocity := VectorAt(bytes, k + 2), size := VectorAt(bytes, k + 4))
  }

  /** How many body bytes the decoder reads for a type byte. */
  function BodyLength(tag: int): nat {
    if tag == 0 then 1 else if tag == 1 then 4 else if tag == 2 then 100 else if tag == 3 then 40 else 0
  }

  /** What the decoder makes of the bytes. `prior` is the state part of the result before the call: fields
      the packet does not carry keep their values. */
  function Decode(bytes: seq<Int8>, prior: PongState): Packet
    requires |bytes| >= PACKET_HEADER_SIZE + 100
  {
    var tag, sync := bytes[0], bytes[1];
    if tag == 0 then PacketPing(sync, bytes[PACKET_HEADER_SIZE])
    else if tag == 1 then PacketInput(sync, WordAt(bytes, 0))
    else if tag == 2 then
      PacketInit(sync, prior.(playerIds := Pair(WordAt(bytes, 0), WordAt(bytes, 1)),
                              ownIdIndex := WordAt(bytes, 2),
                              score := Pair(WordAt(bytes, 3), WordAt(bytes, 4)),
                              player1 := ObjAt(bytes, 5, prior.player1),
                              player2 := ObjAt(bytes, 11, prior.player2),
                              ball := ObjAt(bytes, 17, prior.ball),
                              boxSize := VectorAt(bytes, 23)))
    else if tag == 3 then
      PacketState(sync, prior.(player1 := prior.player1.(pos := prior.player1.pos.(y := FloatAt(bytes, 0)),
                                                         velocity := VectorAt(bytes, 1)),
                               player2 := prior.player2.(pos := prior.player2.pos.(y := FloatAt(bytes, 3)),
                                                         velocity := VectorAt(bytes, 4)),
                               ball := prior.ball.(pos := VectorAt(bytes, 6), velocity := VectorAt(bytes, 8))))
    else PacketUnknown(sync, tag)
  }

  // ---------------------------------------------------------------- what arrives

  function QuantisedVector(v: Vector): Vector {
    Vector(Quantise(v.x), Quantise(v.y))
  }

  function QuantisedObj(o: GameObj, prior: GameObj): GameObj {
    prior.(pos := QuantisedVector(o.pos), velocity := QuantisedVector(o.velocity), size := QuantisedVector(o.size))
  }

  /** The state carried by an INIT: everything but the nominal speeds, floats quantised. */
  function ArrivedInit(s: PongState, prior: PongState): PongState {
    PongState(s.playerIds, s.ownIdIndex, s.score, QuantisedObj(s.player1, prior.player1),
              QuantisedObj(s.player2, prior.player2), QuantisedObj(s.ball, prior.ball), QuantisedVector(s.boxSize))
  }

  /** The state carried by a STATE: paddle heights and velocities, ball position and velocity. */
  function ArrivedState(s: PongState, prior: PongState): PongState {
    prior.(player1 := prior.player1.(pos := prior.player1.pos.(y := Quantise(s.player1.pos.y)),
                                     velocity := QuantisedVector(s.player1.velocity)),
           player2 := prior.player2.(pos := prior.player2.pos.(y := Quantise(s.player2.pos.y)),
                                     velocity := QuantisedVector(s.player2.velocity)),
           ball := prior.ball.(pos := QuantisedVector(s.ball.pos), velocity := QuantisedVector(s.ball.velocity)))
  }

  function Arrived(p: Packet, prior: PongState): Packet {
    match p
    case PacketInit(sync, s) => PacketInit(sync, ArrivedInit(s, prior))
    case PacketState(sync, s) => PacketState(sync, ArrivedState(s, prior))
    case _ => p
  }

  /** After the header the bytes begin with these words. */
  ghost predicate Carries(bytes: seq<Int8>, ws: seq<Int32>) {
    |bytes| >= PACKET_HEADER_SIZE + 4 * |ws| && forall k :: 0 <= k < |ws| ==> WordAt(bytes, k) == ws[k]
  }

  /** Words survive the trip through the bytes, whatever follows the packet. */
  lemma EncodeCarries(p: Packet, rest: seq<Int8>)
    requires Fits(p) && !p.PacketPing?
    ensures Carries(Encode(p) + rest, Words(p))
  {
    var bytes, body := Encode(p) + rest, Body(p);
    assert bytes[PACKET_HEADER_SIZE..PACKET_HEADER_SIZE + |body|] == body;
    forall k | 0 <= k < |Words(p)|
      ensures WordAt(bytes, k) == Words(p)[k]
    {
      assert bytes[PACKET_HEADER_SIZE + 4 * k..PACKET_HEADER_SIZE + 4 * k + 4] == body[4 * k..4 * k + 4];
      WordOfEncodeWords(Words(p), k);
      DecodeOfEncode(Words(p)[k]);
    }
  }

  lemma BodyHasLength(p: Packet)
    requires Fits(p)
    ensures |Body(p)| == BodyLength(Tag(p)) && |Encode(p)| == PACKET_HEADER_SIZE + |Body(p)| <= MAX_PACKET_SIZE
  {
  }

  ghost predicate AreInitWords(ws: seq<Int32>, s: PongState) {
    && InitFits(s) && |ws| == 25
    && ws[0] == s.playerIds.first && ws[1] == s.playerIds.second && ws[2] == s.ownIdIndex
    && ws[3] == s.score.first && ws[4] == s.score.second
    && ws[5..11] == ObjWords(s.player1) && ws[11..17] == ObjWords(s.player2) && ws[17..23] == ObjWords(s.ball)
    && ws[23] == ToFixed(s.boxSize.x) && ws[24] == ToFixed(s.boxSize.y)
  }

  lemma InitWords(p: Packet)
    requires Fits(p) && p.PacketInit?
    ensures AreInitWords(Words(p), p.state)
  {
  }

  lemma VectorFromWords(bytes: seq<Int8>, ws: seq<Int32>, k: nat, v: Vector)
    requires Carries(bytes, ws) && k + 2 <= |ws| && VectorFits(v) && ws[k] == ToFixed(v.x) && ws[k + 1] == ToFixed(v.y)
    ensures VectorAt(bytes, k) == QuantisedVector(v)
  {
    assert WordAt(bytes, k) == ws[k] && WordAt(bytes, k + 1) == ws[k + 1];
  }

  /** An object found at word `k` of the body. */
  lemma ObjFromWords(bytes: seq<Int8>, ws: seq<Int32>, k: nat, o: GameObj, prior: GameObj)
    requires Carries(bytes, ws) && k + 6 <= |ws| && ObjFits(o) && ws[k..k + 6] == ObjWords(o)
    ensures ObjAt(bytes, k, prior) == QuantisedObj(o, prior)
  {
    var part := ws[k..k + 6];
    assert part[0] == ws[k] && part[1] == ws[k + 1] && part[2] == ws[k + 2];
    assert part[3] == ws[k + 3] && part[4] == ws[k + 4] && part[5] == ws[k + 5];
    VectorFromWords(bytes, ws, k, o.pos);
    VectorFromWords(bytes, ws, k + 2, o.velocity);
    VectorFromWords(bytes, ws, k + 4, o.size);
  }

  lemma InitScalars(bytes: seq<Int8>, ws: seq<Int32>, s: PongState)
    requires AreInitWords(ws, s) && Carries(bytes, ws)
    ensures WordAt(bytes, 0) == s.playerIds.first && WordAt(bytes, 1) == s.playerIds.second
    ensures WordAt(bytes, 2) == s.ownIdIndex
    ensures WordAt(bytes, 3) == s.score.first && WordAt(bytes, 4) == s.score.second
  {
  }

  lemma InitObjects(bytes: seq<Int8>, ws: seq<Int32>, s: PongState, prior: PongState)
    requires AreInitWords(ws, s) && Carries(bytes, ws)
    ensures ObjAt(bytes, 5, prior.player1) == QuantisedObj(s.player1, prior.player1)
    ensures ObjAt(bytes, 11, prior.player2) == QuantisedObj(s.player2, prior.player2)
    ensures ObjAt(bytes, 17, prior.ball) == QuantisedObj(s.ball, prior.ball)
    ensures VectorAt(bytes, 23) == QuantisedVector(s.boxSize)
  {
    ObjFromWords(bytes, ws, 5, s.player1, prior.player1);
    ObjFromWords(bytes, ws, 11, s.player2, prior.player2);
    ObjFromWords(bytes, ws, 17, s.ball, prior.ball);
    VectorFromWords(bytes, ws, 23, s.boxSize);
  }

  lemma DecodeInit(bytes: seq<Int8>, ws: seq<Int32>, p: Packet, prior: PongState)
    requires p.PacketInit? && AreInitWords(ws, p.state) && Carries(bytes, ws) && bytes[0] == 2 && bytes[1] == p.sync
    ensures Decode(bytes, prior) == Arrived(p, prior)
  {
    InitObjects(bytes, ws, p.state, prior);
    InitScalars(bytes, ws, p.state);
  }

  lemma DecodeState(bytes: seq<Int8>, p: Packet, prior: PongState)
    requires Fits(p) && p.PacketState? && Carries(bytes, Words(p)) && bytes[0] == 3 && bytes[1] == p.sync
    requires |bytes| >= PACKET_HEADER_SIZE + 100
    ensures Decode(bytes, prior) == Arrived(p, prior)
  {
    var ws, s := Words(p), p.state;
    VectorFromWords(bytes, ws, 1, s.player1.velocity);
    VectorFromWords(bytes, ws, 4, s.player2.velocity);
    VectorFromWords(bytes, ws, 6, s.ball.pos);
    VectorFromWords(bytes, ws, 8, s.ball.velocity);
    assert WordAt(bytes, 0) == ws[0] && WordAt(bytes, 3) == ws[3];
  }

  /** The length field tells the length of the body. */
  lemma LengthField(p: Packet, rest: seq<Int8>)
    requires Fits(p)
    ensures DecodeI32((Encode(p) + rest)[2..PACKET_HEADER_SIZE]) == |Body(p)|
  {
    BodyHasLength(p);
    assert (Encode(p) + rest)[2..PACKET_HEADER_SIZE] == EncodeI32(|Body(p)|);
    DecodeOfEncode(|Body(p)|);
  }

  /** The first two bytes. */
  lemma HeaderBytes(p: Packet, rest: seq<Int8>)
    requires Fits(p)
    ensures var bytes := Encode(p) + rest; |bytes| >= PACKET_HEADER_SIZE && bytes[0] == Tag(p) && bytes[1] == p.sync
  {
  }

  lemma PingRoundTrip(p: Packet, rest: seq<Int8>, prior: PongState)
    requires Fits(p) && p.PacketPing? && |Encode(p) + rest| >= PACKET_HEADER_SIZE + 100
    ensures Decode(Encode(p) + rest, prior) == p
  {
    HeaderBytes(p, rest);
    assert (Encode(p) + rest)[PACKET_HEADER_SIZE] == p.dummy;
  }

  lemma InputRoundTrip(p: Packet, rest: seq<Int8>, prior: PongState)
    requires Fits(p) && p.PacketInput? && |Encode(p) + rest| >= PACKET_HEADER_SIZE + 100
    ensures Decode(Encode(p) + rest, prior) == p
  {
    HeaderBytes(p, rest);
    EncodeCarries(p, rest);
    assert WordAt(Encode(p) + rest, 0) == Words(p)[0];
  }

  lemma InitRoundTrip(p: Packet, rest: seq<Int8>, prior: PongState)
    requires Fits(p) && p.PacketInit? && |Encode(p) + rest| >= PACKET_HEADER_SIZE + 100
    ensures Decode(Encode(p) + rest, prior) == Arrived(p, prior)
  {
    HeaderBytes(p, rest);
    EncodeCarries(p, rest);
    InitWords(p);
    DecodeInit(Encode(p) + rest, Words(p), p, prior);
  }

  lemma StateRoundTrip(p: Packet, rest: seq<Int8>, prior: PongState)
    requires Fits(p) && p.PacketState? && |Encode(p) + rest| >= PACKET_HEADER_SIZE + 100
    ensures Decode(Encode(p) + rest, prior) == Arrived(p, prior)
  {
    HeaderBytes(p, rest);
    EncodeCarries(p, rest);
    DecodeState(Encode(p) + rest, p, prior);
  }

  lemma UnknownRoundTrip(p: Packet, rest: seq<Int8>, prior: PongState)
    requires Fits(p) && p.PacketUnknown? && |Encode(p) + rest| >= PACKET_HEADER_SIZE + 100
    ensures Decode(Encode(p) + rest, prior) == p
  {
    HeaderBytes(p, rest);
  }

  /**
   Decoding an encoded packet, whatever bytes follow it in the buffer and whatever was in the result before, gives
   back type, sync and every carried field, floats quantised, and leaves the rest alone; the length field is the body's.
   */
  lemma RoundTrip(p: Packet, rest: seq<Int8>, prior: PongState)
    requires Fits(p) && |Encode(p) + rest| >= PACKET_HEADER_SIZE + 100
    ensures Decode(Encode(p) + rest, prior) == Arrived(p, prior)
    ensures DecodeI32((Encode(p) + rest)[2..PACKET_HEADER_SIZE]) == |Body(p)| == BodyLength(Tag(p))
  {
    LengthField(p, rest);
    BodyHasLength(p);
    match p
    case PacketPing(_, _) => PingRoundTrip(p, rest, prior);
    case PacketInput(_, _) => InputRoundTrip(p, rest, prior);
    case PacketInit(_, _) => InitRoundTrip(p, rest, prior);
    case PacketState(_, _) => StateRoundTrip(p, rest, prior);
    case PacketUnknown(_, _) => UnknownRoundTrip(p, rest, prior);
  }
}
