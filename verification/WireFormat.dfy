/**
 What is where in the bytes of a packet: the layout a program in another language would have to follow. Numbers are
 spelled most significant byte first, floats as ten-thousandths.
 */
module WireFormat {
  import opened FixedPoint
  import opened Vectors
  import opened Engine
  import opened Game
  import opened Bytes
  import opened Packets

  // ---------------------------------------------------------------- the layout

  predicate SpellsFloat(bytes: seq<Int8>, at: nat, x: real) {
    Spells(bytes, at, ToFixed(x))
  }

  predicate SpellsVector(bytes: seq<Int8>, at: nat, v: Vector) {
    SpellsFloat(bytes, at, v.x) && SpellsFloat(bytes, at + 4, v.y)
  }

  predicate SpellsObj(bytes: seq<Int8>, at: nat, o: GameObj) {
    SpellsVector(bytes, at, o.pos) && SpellsVector(bytes, at + 8, o.velocity) && SpellsVector(bytes, at + 16, o.size)
  }

  /** Type, sync and the length of what follows the header. */
  predicate HasHeader(bytes: seq<Int8>, tag: int, sync: int, length: nat) {
    |bytes| == 6 + length && bytes[0] == tag && bytes[1] == sync && Spells(bytes, 2, length)
  }

  predicate IsInitLayout(bytes: seq<Int8>, sync: int, s: PongState) {
    && HasHeader(bytes, 2, sync, 100)
    && Spells(bytes, 6, s.playerIds.first) && Spells(bytes, 10, s.playerIds.second)
    && Spells(bytes, 14, s.ownIdIndex)
    && Spells(bytes, 18, s.score.first) && Spells(bytes, 22, s.score.second)
    && SpellsObj(bytes, 26, s.player1) && SpellsObj(bytes, 50, s.player2) && SpellsObj(bytes, 74, s.ball)
    && SpellsVector(bytes, 98, s.boxSize)
  }

  predicate IsStateLayout(bytes: seq<Int8>, sync: int, s: PongState) {
    && HasHeader(bytes, 3, sync, 40)
    && SpellsFloat(bytes, 6, s.player1.pos.y) && SpellsVector(bytes, 10, s.player1.velocity)
    && SpellsFloat(bytes, 18, s.player2.pos.y) && SpellsVector(bytes, 22, s.player2.velocity)
    && SpellsVector(bytes, 30, s.ball.pos) && SpellsVector(bytes, 38, s.ball.velocity)
  }

  /** The layout of each kind of packet. */
  predicate IsLayoutOf(bytes: seq<Int8>, p: Packet) {
    match p
    case PacketPing(sync, dummy) => HasHeader(bytes, 0, sync, 1) && bytes[6] == dummy
    case PacketInput(sync, ms) => HasHeader(bytes, 1, sync, 4) && Spells(bytes, 6, ms)
    case PacketInit(sync, s) => IsInitLayout(bytes, sync, s)
    case PacketState(sync, s) => IsStateLayout(bytes, sync, s)
    case PacketUnknown(sync, tag) => HasHeader(bytes, tag, sync, 0)
  }

  // ---------------------------------------------------------------- every packet has it

  lemma HeaderIsLaidOut(p: Packet)
    requires Fits(p)
    ensures HasHeader(Encode(p), Tag(p), p.sync, BodyLength(Tag(p)))
  {
    BodyHasLength(p);
    EncodedIsSpelled(|Body(p)|);
  }

  lemma WordIsLaidOut(p: Packet, k: nat)
    requires Fits(p) && !p.PacketPing? && k < |Words(p)|
    ensures Spells(Encode(p), 6 + 4 * k, Words(p)[k])
  {
    var bytes := Encode(p);
    EncodeCarries(p, []);
    assert bytes + [] == bytes;
    assert WordAt(bytes, k) == Words(p)[k];
    DecodedIsSpelled(bytes[6 + 4 * k..6 + 4 * k + 4]);
  }

  /** All words of the body at once. */
  ghost predicate WordsAreLaidOut(bytes: seq<Int8>, ws: seq<Int32>) {
    forall k {:trigger ws[k]} :: 0 <= k < |ws| ==> Spells(bytes, 6 + 4 * k, ws[k])
  }

  lemma AllWordsAreLaidOut(p: Packet)
    requires Fits(p) && !p.PacketPing?
    ensures WordsAreLaidOut(Encode(p), Words(p))
  {
    forall k | 0 <= k < |Words(p)|
      ensures Spells(Encode(p), 6 + 4 * k, Words(p)[k])
    {
      WordIsLaidOut(p, k);
    }
  }

  lemma ObjIsLaidOut(bytes: seq<Int8>, ws: seq<Int32>, k: nat, o: GameObj)
    requires WordsAreLaidOut(bytes, ws) && k + 6 <= |ws| && ObjFits(o) && ws[k..k + 6] == ObjWords(o)
    ensures SpellsObj(bytes, 6 + 4 * k, o)
  {
    var part := ws[k..k + 6];
    assert part[0] == ws[k] && part[1] == ws[k + 1] && part[2] == ws[k + 2];
    assert part[3] == ws[k + 3] && part[4] == ws[k + 4] && part[5] == ws[k + 5];
  }

  lemma InitIsLaidOut(p: Packet)
    requires Fits(p) && p.PacketInit?
    ensures IsInitLayout(Encode(p), p.sync, p.state)
  {
    var ws, bytes, s := Words(p), Encode(p), p.state;
    HeaderIsLaidOut(p);
    AllWordsAreLaidOut(p);
    InitWords(p);
    ObjIsLaidOut(bytes, ws, 5, s.player1);
    ObjIsLaidOut(bytes, ws, 11, s.player2);
    ObjIsLaidOut(bytes, ws, 17, s.ball);
    assert ws[0] == s.playerIds.first && ws[1] == s.playerIds.second && ws[2] == s.ownIdIndex;
    assert ws[3] == s.score.first && ws[4] == s.score.second;
    assert ws[23] == ToFixed(s.boxSize.x) && ws[24] == ToFixed(s.boxSize.y);
  }

  lemma StateIsLaidOut(p: Packet)
    requires Fits(p) && p.PacketState?
    ensures IsStateLayout(Encode(p), p.sync, p.state)
  {
    var ws, s := Words(p), p.state;
    HeaderIsLaidOut(p);
    AllWordsAreLaidOut(p);
    assert ws[0] == ToFixed(s.player1.pos.y) && ws[3] == ToFixed(s.player2.pos.y);
    assert ws[1] == ToFixed(s.player1.velocity.x) && ws[2] == ToFixed(s.player1.velocity.y);
    assert ws[4] == ToFixed(s.player2.velocity.x) && ws[5] == ToFixed(s.player2.velocity.y);
    assert ws[6] == ToFixed(s.ball.pos.x) && ws[7] == ToFixed(s.ball.pos.y);
    assert ws[8] == ToFixed(s.ball.velocity.x) && ws[9] == ToFixed(s.ball.velocity.y);
  }

  /** Every packet is laid out as above, byte by byte. */
  lemma EncodingIsLaidOut(p: Packet)
    requires Fits(p)
    ensures IsLayoutOf(Encode(p), p)
  {
    match p
    case PacketInit(_, _) => InitIsLaidOut(p);
    case PacketState(_, _) => StateIsLaidOut(p);
    case PacketInput(_, ms) =>
      HeaderIsLaidOut(p);
      WordIsLaidOut(p, 0);
    case _ => HeaderIsLaidOut(p);
  }
}
