/** `packet_serialize` and `packet_deserialize` of `src/common/cpong_packets.c` as the program runs them, on a
    cursor buffer. */
module Codec {
  import opened FixedPoint
  import opened Vectors
  import opened Engine
  import opened Game
  import opened Bytes
  import opened BinArray
  import opened Packets

  /** Two floats, x first. */
  method AppendVector(barr: BinArr, v: Vector)
    requires VectorFits(v) && barr.index + 8 <= barr.buf.Length
    modifies barr, barr.buf
    ensures barr.size == barr.index == old(barr.index) + 8
    ensures barr.Written() == old(barr.Written()) + EncodeWords(VectorWords(v))
  {
    barr.AppendFloatN(v.x);
    barr.AppendFloatN(v.y);
    EncodeTwoWords(ToFixed(v.x), ToFixed(v.y));
  }

  lemma EncodeOneWord(a: Int32)
    ensures EncodeWords([a]) == EncodeI32(a)
  {
    assert [a][..0] == [];
  }

  lemma EncodeTwoWords(a: Int32, b: Int32)
    ensures EncodeWords([a, b]) == EncodeI32(a) + EncodeI32(b)
  {
    EncodeOneWord(a);
    assert [a, b][..1] == [a];
  }

  /** Position, velocity and size. */
  method AppendObj(barr: BinArr, o: GameObj)
    requires ObjFits(o) && barr.index + 24 <= barr.buf.Length
    modifies barr, barr.buf
    ensures barr.size == barr.index == old(barr.index) + 24
    ensures barr.Written() == old(barr.Written()) + EncodeWords(ObjWords(o))
  {
    AppendVector(barr, o.pos);
    AppendVector(barr, o.velocity);
    AppendVector(barr, o.size);
    EncodeWordsOfConcat(VectorWords(o.pos), VectorWords(o.velocity));
    EncodeWordsOfConcat(VectorWords(o.pos) + VectorWords(o.velocity), VectorWords(o.size));
  }

  /** The five integers at the head of an INIT. */
  method AppendInts(barr: BinArr, a: Int32, b: Int32, c: Int32, d: Int32, e: Int32)
    requires barr.index + 20 <= barr.buf.Length
    modifies barr, barr.buf
    ensures barr.size == barr.index == old(barr.index) + 20
    ensures barr.Written() == old(barr.Written()) + EncodeWords([a, b, c, d, e])
  {
    barr.AppendI32N(a);
    barr.AppendI32N(b);
    barr.AppendI32N(c);
    barr.AppendI32N(d);
    barr.AppendI32N(e);
    EncodeFiveWords(old(barr.Written()), a, b, c, d, e);
  }

  lemma EncodeFiveWords(w: seq<Int8>, a: Int32, b: Int32, c: Int32, d: Int32, e: Int32)
    ensures w + EncodeI32(a) + EncodeI32(b) + EncodeI32(c) + EncodeI32(d) + EncodeI32(e)
         == w + EncodeWords([a, b, c, d, e])
  {
    EncodeTwoWords(a, b);
    assert [a, b, c][..2] == [a, b] && [a, b, c, d][..3] == [a, b, c] && [a, b, c, d, e][..4] == [a, b, c, d];
    assert EncodeWords([a, b, c]) == EncodeWords([a, b]) + EncodeI32(c);
    assert EncodeWords([a, b, c, d]) == EncodeWords([a, b, c]) + EncodeI32(d);
    assert EncodeWords([a, b, c, d, e]) == EncodeWords([a, b, c, d]) + EncodeI32(e);
  }

  /** The body of an INIT. */
  method AppendInit(barr: BinArr, s: PongState)
    requires InitFits(s) && barr.index + 100 <= barr.buf.Length
    modifies barr, barr.buf
    ensures barr.size == barr.index == old(barr.index) + 100
    ensures barr.Written() == old(barr.Written()) + EncodeWords(Words(PacketInit(0, s)))
  {
    ghost var w := barr.Written();
    ghost var ints, one, two, ball, box := InitParts(s);
    AppendInts(barr, s.playerIds.first, s.playerIds.second, s.ownIdIndex, s.score.first, s.score.second);
    assert barr.Written() == w + ints;
    AppendObj(barr, s.player1);
    assert barr.Written() == w + ints + one;
    AppendObj(barr, s.player2);
    assert barr.Written() == w + ints + one + two;
    AppendObj(barr, s.ball);
    assert barr.Written() == w + ints + one + two + ball;
    AppendVector(barr, s.boxSize);
    Regroup(w, ints, one, two, ball, box);
  }

  lemma Regroup(w: seq<Int8>, a: seq<Int8>, b: seq<Int8>, c: seq<Int8>, d: seq<Int8>, e: seq<Int8>)
    ensures w + a + b + c + d + e == w + (a + b + c + d + e)
  {
  }

  lemma RegroupFour(w: seq<Int8>, a: seq<Int8>, b: seq<Int8>, c: seq<Int8>, d: seq<Int8>)
    ensures w + a + b + c + d == w + (a + b + c + d)
  {
  }

  /** The encoded parts of an INIT's body, named. */
  lemma InitParts(s: PongState)
    returns (ints: seq<Int8>, one: seq<Int8>, two: seq<Int8>, ball: seq<Int8>, box: seq<Int8>)
    requires InitFits(s)
    ensures ints == EncodeWords([s.playerIds.first, s.playerIds.second, s.ownIdIndex, s.score.first, s.score.second])
    ensures one == EncodeWords(ObjWords(s.player1)) && two == EncodeWords(ObjWords(s.player2))
    ensures ball == EncodeWords(ObjWords(s.ball)) && box == EncodeWords(VectorWords(s.boxSize))
    ensures EncodeWords(Words(PacketInit(0, s))) == ints + one + two + ball + box
  {
    ints := EncodeWords([s.playerIds.first, s.playerIds.second, s.ownIdIndex, s.score.first, s.score.second]);
    one, two := EncodeWords(ObjWords(s.player1)), EncodeWords(ObjWords(s.player2));
    ball, box := EncodeWords(ObjWords(s.ball)), EncodeWords(VectorWords(s.boxSize));
    InitBodyInParts(s);
  }

  lemma InitBodyInParts(s: PongState)
    requires InitFits(s)
    ensures EncodeWords(Words(PacketInit(0, s)))
         == EncodeWords([s.playerIds.first, s.playerIds.second, s.ownIdIndex, s.score.first, s.score.second])
            + EncodeWords(ObjWords(s.player1)) + EncodeWords(ObjWords(s.player2)) + EncodeWords(ObjWords(s.ball))
            + EncodeWords(VectorWords(s.boxSize))
  {
    var ints: seq<Int32> := [s.playerIds.first, s.playerIds.second, s.ownIdIndex, s.score.first, s.score.second];
    var a, b, c, d := ObjWords(s.player1), ObjWords(s.player2), ObjWords(s.ball), VectorWords(s.boxSize);
    EncodeWordsOfConcat(ints, a);
    EncodeWordsOfConcat(ints + a, b);
    EncodeWordsOfConcat(ints + a + b, c);
    EncodeWordsOfConcat(ints + a + b + c, d);
  }

  /** A paddle's height and velocity, as a STATE carries them. */
  method AppendPaddle(barr: BinArr, paddle: GameObj)
    requires PaddleFits(paddle) && barr.index + 12 <= barr.buf.Length
    modifies barr, barr.buf
    ensures barr.size == barr.index == old(barr.index) + 12
    ensures barr.Written() == old(barr.Written()) + EncodeWords([ToFixed(paddle.pos.y)] + VectorWords(paddle.velocity))
  {
    barr.AppendFloatN(paddle.pos.y);
    AppendVector(barr, paddle.velocity);
    EncodeOneWord(ToFixed(paddle.pos.y));
    EncodeWordsOfConcat([ToFixed(paddle.pos.y)], VectorWords(paddle.velocity));
  }

  /** The body of a STATE. */
  method AppendState(barr: BinArr, s: PongState)
    requires StateFits(s) && barr.index + 40 <= barr.buf.Length
    modifies barr, barr.buf
    ensures barr.size == barr.index == old(barr.index) + 40
    ensures barr.Written() == old(barr.Written()) + EncodeWords(Words(PacketState(0, s)))
  {
    ghost var w := barr.Written();
    ghost var one, two, pos, velocity := StateParts(s);
    AppendPaddle(barr, s.player1);
    assert barr.Written() == w + one;
    AppendPaddle(barr, s.player2);
    assert barr.Written() == w + one + two;
    AppendVector(barr, s.ball.pos);
    assert barr.Written() == w + one + two + pos;
    AppendVector(barr, s.ball.velocity);
    RegroupFour(w, one, two, pos, velocity);
  }

  lemma StateParts(s: PongState) returns (one: seq<Int8>, two: seq<Int8>, pos: seq<Int8>, velocity: seq<Int8>)
    requires StateFits(s)
    ensures one == EncodeWords([ToFixed(s.player1.pos.y)] + VectorWords(s.player1.velocity))
    ensures two == EncodeWords([ToFixed(s.player2.pos.y)] + VectorWords(s.player2.velocity))
    ensures pos == EncodeWords(VectorWords(s.ball.pos)) && velocity == EncodeWords(VectorWords(s.ball.velocity))
    ensures EncodeWords(Words(PacketState(0, s))) == one + two + pos + velocity
  {
    one := EncodeWords([ToFixed(s.player1.pos.y)] + VectorWords(s.player1.velocity));
    two := EncodeWords([ToFixed(s.player2.pos.y)] + VectorWords(s.player2.velocity));
    pos, velocity := EncodeWords(VectorWords(s.ball.pos)), EncodeWords(VectorWords(s.ball.velocity));
    StateBodyInParts(s);
  }

  lemma StateBodyInParts(s: PongState)
    requires StateFits(s)
    ensures EncodeWords(Words(PacketState(0, s)))
         == EncodeWords([ToFixed(s.player1.pos.y)] + VectorWords(s.player1.velocity))
            + EncodeWords([ToFixed(s.player2.pos.y)] + VectorWords(s.player2.velocity))
            + EncodeWords(VectorWords(s.ball.pos)) + EncodeWords(VectorWords(s.ball.velocity))
  {
    var a: seq<Int32> := [ToFixed(s.player1.pos.y)] + VectorWords(s.player1.velocity);
    var b: seq<Int32> := [ToFixed(s.player2.pos.y)] + VectorWords(s.player2.velocity);
    var c, d := VectorWords(s.ball.pos), VectorWords(s.ball.velocity);
    EncodeWordsOfConcat(a, b);
    EncodeWordsOfConcat(a + b, c);
    EncodeWordsOfConcat(a + b + c, d);
    assert Words(PacketState(0, s)) == a + b + c + d;
  }

  /** The switch on the packet type: only the four known types have a body. */
  method AppendBody(barr: BinArr, p: Packet) returns (known: bool)
    requires Fits(p) && barr.index + 100 <= barr.buf.Length && barr.size == barr.index
    modifies barr, barr.buf
    ensures known == !p.PacketUnknown?
    ensures barr.size == barr.index == old(barr.index) + |Body(p)|
    ensures barr.Written() == old(barr.Written()) + Body(p)
  {
    known := true;
    match p {
      case PacketPing(_, dummy) => barr.AppendI8(dummy);
      case PacketInput(_, ms) => barr.AppendI32N(ms); EncodeOneWord(ms);
      case PacketInit(_, s) => AppendInit(barr, s);
      case PacketState(_, s) => AppendState(barr, s);
      case PacketUnknown(_, _) => known := false;
    }
  }

  /**
   `packet_serialize`: four bytes are skipped for the length, the body follows, and then the length is patched in. The
   buffer is the encoding, the cursor its end. A type byte that is not known makes it give up (the C function returns
   NULL).
   */
  method PacketSerialize(barr: BinArr, p: Packet) returns (ok: bool)
    requires Fits(p) && barr.index == 0 && barr.buf.Length >= PACKET_HEADER_SIZE + 100
    modifies barr, barr.buf
    ensures ok == !p.PacketUnknown?
    ensures ok ==> barr.index == barr.size == |Encode(p)| <= MAX_PACKET_SIZE
    ensures ok ==> barr.size <= barr.buf.Length && barr.buf[..barr.size] == Encode(p)
  {
    WriteHeader(barr, Tag(p), p.sync);
    ghost var header := barr.Written();
    ok := AppendBody(barr, p);
    if ok {
      BodyHasLength(p);
      HeaderThenBody(header, Body(p), barr.Written());
      PatchLength(barr, p);
    }
  }

  /** Type and sync, and the place of the length left as it was. */
  method WriteHeader(barr: BinArr, tag: Int8, sync: Int8)
    requires barr.index == 0 && barr.buf.Length >= PACKET_HEADER_SIZE
    modifies barr, barr.buf
    ensures barr.index == barr.size == PACKET_HEADER_SIZE
    ensures barr.Written()[..2] == [tag, sync]
  {
    barr.AppendI8(tag);
    barr.AppendI8(sync);
    assert barr.Written() == [tag, sync];
    barr.index := barr.index + 4;
    barr.size := barr.index;
  }

  lemma HeaderThenBody(header: seq<Int8>, body: seq<Int8>, written: seq<Int8>)
    requires |header| == PACKET_HEADER_SIZE && written == header + body
    ensures written[..2] == header[..2] && written[PACKET_HEADER_SIZE..] == body
  {
  }

  /** The length goes where it was skipped, and the cursor back to the end. */
  method PatchLength(barr: BinArr, ghost p: Packet)
    requires Fits(p) && barr.index == barr.size == |Encode(p)| <= barr.buf.Length
    requires barr.buf[..2] == [Tag(p), p.sync] && barr.buf[PACKET_HEADER_SIZE..barr.size] == Body(p)
    modifies barr, barr.buf
    ensures barr.index == barr.size == |Encode(p)| && barr.buf[..barr.size] == Encode(p)
  {
    var size := barr.index - PACKET_HEADER_SIZE;
    ghost var before := barr.buf[..];
    barr.index := 2;
    barr.WriteI32N(size);
    barr.index := barr.size;
    Patched(before, barr.buf[..], barr.size, p);
  }

  lemma Patched(before: seq<Int8>, after: seq<Int8>, size: nat, p: Packet)
    requires Fits(p) && size == |Encode(p)| <= |before|
    requires before[..2] == [Tag(p), p.sync] && before[PACKET_HEADER_SIZE..size] == Body(p)
    requires after == before[..2] + EncodeI32(|Body(p)|) + before[PACKET_HEADER_SIZE..]
    ensures after[..size] == Encode(p)
  {
    assert before[PACKET_HEADER_SIZE..][..size - PACKET_HEADER_SIZE] == before[PACKET_HEADER_SIZE..size];
  }

  method ReadVector(barr: BinArr, ghost k: nat) returns (v: Vector)
    requires barr.index == PACKET_HEADER_SIZE + 4 * k && barr.index + 8 <= barr.buf.Length
    modifies barr`index
    ensures barr.index == old(barr.index) + 8 && v == VectorAt(barr.buf[..], k)
  {
    var x := barr.ReadFloatN();
    var y := barr.ReadFloatN();
    v := Vector(x, y);
    assert barr.buf[..][PACKET_HEADER_SIZE + 4 * k..PACKET_HEADER_SIZE + 4 * k + 4]
        == barr.buf[PACKET_HEADER_SIZE + 4 * k..PACKET_HEADER_SIZE + 4 * k + 4];
    assert barr.buf[..][PACKET_HEADER_SIZE + 4 * k + 4..PACKET_HEADER_SIZE + 4 * k + 8]
        == barr.buf[PACKET_HEADER_SIZE + 4 * k + 4..PACKET_HEADER_SIZE + 4 * k + 8];
  }

  method ReadObj(barr: BinArr, ghost k: nat, prior: GameObj) returns (o: GameObj)
    requires barr.index == PACKET_HEADER_SIZE + 4 * k && barr.index + 24 <= barr.buf.Length
    modifies barr`index
    ensures barr.index == old(barr.index) + 24 && o == ObjAt(barr.buf[..], k, prior)
  {
    var pos, velocity := ReadVectors(barr, k);
    var size := ReadVector(barr, k + 4);
    o := prior.(pos := pos, velocity := velocity, size := size);
  }

  method ReadVectors(barr: BinArr, ghost k: nat) returns (v: Vector, w: Vector)
    requires barr.index == PACKET_HEADER_SIZE + 4 * k && barr.index + 16 <= barr.buf.Length
    modifies barr`index
    ensures barr.index == old(barr.index) + 16
    ensures v == VectorAt(barr.buf[..], k) && w == VectorAt(barr.buf[..], k + 2)
  {
    v := ReadVector(barr, k);
    w := ReadVector(barr, k + 2);
  }

  method ReadWord(barr: BinArr, ghost k: nat) returns (w: Int32)
    requires barr.index == PACKET_HEADER_SIZE + 4 * k && barr.index + 4 <= barr.buf.Length
    modifies barr`index
    ensures barr.index == old(barr.index) + 4 && w == WordAt(barr.buf[..], k)
  {
    w := barr.ReadI32N();
    assert barr.buf[..][PACKET_HEADER_SIZE + 4 * k..PACKET_HEADER_SIZE + 4 * k + 4]
        == barr.buf[PACKET_HEADER_SIZE + 4 * k..PACKET_HEADER_SIZE + 4 * k + 4];
  }

  method ReadInit(barr: BinArr, prior: PongState) returns (s: PongState)
    requires barr.index == PACKET_HEADER_SIZE && barr.buf.Length >= PACKET_HEADER_SIZE + 100
    modifies barr`index
    ensures barr.index == PACKET_HEADER_SIZE + 100
    ensures s == prior.(playerIds := Pair(WordAt(barr.buf[..], 0), WordAt(barr.buf[..], 1)),
                        ownIdIndex := WordAt(barr.buf[..], 2),
                        score := Pair(WordAt(barr.buf[..], 3), WordAt(barr.buf[..], 4)),
                        player1 := ObjAt(barr.buf[..], 5, prior.player1),
                        player2 := ObjAt(barr.buf[..], 11, prior.player2),
                        ball := ObjAt(barr.buf[..], 17, prior.ball),
                        boxSize := VectorAt(barr.buf[..], 23))
  {
    var id0 := ReadWord(barr, 0);
    var id1 := ReadWord(barr, 1);
    var own := ReadWord(barr, 2);
    var score0 := ReadWord(barr, 3);
    var score1 := ReadWord(barr, 4);
    var player1 := ReadObj(barr, 5, prior.player1);
    var player2 := ReadObj(barr, 11, prior.player2);
    var ball := ReadObj(barr, 17, prior.ball);
    var box := ReadVector(barr, 23);
    s := prior.(playerIds := Pair(id0, id1), ownIdIndex := own, score := Pair(score0, score1),
                player1 := player1, player2 := player2, ball := ball, boxSize := box);
  }

  method ReadPaddle(barr: BinArr, ghost k: nat, prior: GameObj) returns (o: GameObj)
    requires barr.index == PACKET_HEADER_SIZE + 4 * k && barr.index + 12 <= barr.buf.Length
    modifies barr`index
    ensures barr.index == old(barr.index) + 12
    ensures o == prior.(pos := prior.pos.(y := FloatAt(barr.buf[..], k)), velocity := VectorAt(barr.buf[..], k + 1))
  {
    var y := ReadWord(barr, k);
    var velocity := ReadVector(barr, k + 1);
    o := prior.(pos := prior.pos.(y := y as real / 10000.0), velocity := velocity);
  }

  method ReadState(barr: BinArr, prior: PongState) returns (s: PongState)
    requires barr.index == PACKET_HEADER_SIZE && barr.buf.Length >= PACKET_HEADER_SIZE + 100
    modifies barr`index
    ensures barr.index == PACKET_HEADER_SIZE + 40
    ensures s == prior.(player1 := prior.player1.(pos := prior.player1.pos.(y := FloatAt(barr.buf[..], 0)),
                                                  velocity := VectorAt(barr.buf[..], 1)),
                        player2 := prior.player2.(pos := prior.player2.pos.(y := FloatAt(barr.buf[..], 3)),
                                                  velocity := VectorAt(barr.buf[..], 4)),
                        ball := prior.ball.(pos := VectorAt(barr.buf[..], 6), velocity := VectorAt(barr.buf[..], 8)))
  {
    var player1 := ReadPaddle(barr, 0, prior.player1);
    var player2 := ReadPaddle(barr, 3, prior.player2);
    var pos := ReadVector(barr, 6);
    var velocity := ReadVector(barr, 8);
    s := prior.(player1 := player1, player2 := player2, ball := prior.ball.(pos := pos, velocity := velocity));
  }

  /** `packet_deserialize`: `prior` is the state part of the result before the call. */
  method PacketDeserialize(barr: BinArr, prior: PongState) returns (p: Packet, size: int, known: bool)
    requires barr.buf.Length >= PACKET_HEADER_SIZE + 100
    modifies barr`index
    ensures p == Decode(barr.buf[..], prior) && known == !p.PacketUnknown?
    ensures size == DecodeI32(barr.buf[2..PACKET_HEADER_SIZE])
    ensures barr.index == PACKET_HEADER_SIZE + BodyLength(barr.buf[0])
  {
    barr.index := 0;
    var tag := barr.ReadI8();
    var sync := barr.ReadI8();
    size := barr.ReadI32N();
    known := true;
    if tag == 0 {
      var dummy := barr.ReadI8();
      p := PacketPing(sync, dummy);
    } else if tag == 1 {
      var ms := ReadWord(barr, 0);
      p := PacketInput(sync, ms);
    } else if tag == 2 {
      var s := ReadInit(barr, prior);
      p := PacketInit(sync, s);
    } else if tag == 3 {
      var s := ReadState(barr, prior);
      p := PacketState(sync, s);
    } else {
      p, known := PacketUnknown(sync, tag), false;
    }
  }
}
