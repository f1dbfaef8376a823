/**
 Packets over a byte stream: `sendall` (`src/lib/server.c`), `recvall`, `recv_packet` and the senders
 (`src/common/cpong_packets.c`). The network decides how many bytes each `send` and `recv` takes; these
 decisions are a schedule, over which everything is quantified.
 */
module Stream {
  import opened Game
  import opened Bytes
  import opened BinArray
  import opened Packets
  import opened Codec

  /** How one `recv` ends: interrupted by a signal (EINTR), with another error, or with some bytes. */
  datatype Delivery = Interrupted | RecvFailed | Chunk(limit: nat)

  /** How one `send` ends. */
  datatype Acceptance = SendFailed | Accepted(limit: nat)

  function Min(a: nat, b: nat): nat {
    if a < b then a else b
  }

  /** At least one byte, at most the network's limit, what was asked for, and what there is. */
  function Granted(limit: nat, asked: nat, available: nat): (k: nat)
    ensures k <= asked && k <= available
    ensures asked > 0 && available > 0 ==> k > 0
  {
    Min(Min(if limit == 0 then 1 else limit, asked), available)
  }

  /** The receiving end of a connection. When the schedule is used up, whatever is asked for and there is delivered. */
  class Inlet {
    var incoming: seq<Int8>
    var schedule: seq<Delivery>

    constructor (incoming: seq<Int8>, schedule: seq<Delivery>)
      ensures this.incoming == incoming && this.schedule == schedule
    {
      this.incoming, this.schedule := incoming, schedule;
    }

    /** `recv`: -1 on error, with `interrupted` telling whether it was EINTR; 0 at the end of the stream. */
    method Recv(asked: nat) returns (res: int, interrupted: bool, data: seq<Int8>)
      modifies this
      ensures res == -1 || res == |data|
      ensures interrupted ==> res == -1
      ensures res == -1 ==> data == [] && old(schedule) != []
                            && old(schedule)[0] == (if interrupted then Interrupted else RecvFailed)
      ensures old(incoming) == data + incoming && |data| <= asked
      ensures res == 0 ==> asked == 0 || incoming == []
      ensures schedule == if old(schedule) == [] then [] else old(schedule)[1..]
    {
      var event := if schedule == [] then Chunk(asked) else schedule[0];
      if schedule != [] {
        schedule := schedule[1..];
      }
      match event {
        case Interrupted => res, interrupted, data := -1, true, [];
        case RecvFailed => res, interrupted, data := -1, false, [];
        case Chunk(limit) =>
          var k := Granted(limit, asked, |incoming|);
          res, interrupted, data := k, false, incoming[..k];
          incoming := incoming[k..];
      }
    }
  }

  predicate NeverFails(schedule: seq<Delivery>) {
    RecvFailed !in schedule
  }

  lemma TailNeverFails(schedule: seq<Delivery>)
    requires NeverFails(schedule) && schedule != []
    ensures NeverFails(schedule[1..]) && schedule[0] != RecvFailed
  {
  }

  /** `recv` with the retry loop around it. */
  method RecvRetrying(inlet: Inlet, asked: nat) returns (res: int, data: seq<Int8>)
    modifies inlet
    ensures res == -1 || res == |data|
    ensures res == -1 ==> data == [] && !NeverFails(old(inlet.schedule))
    ensures old(inlet.incoming) == data + inlet.incoming && |data| <= asked
    ensures res == 0 ==> asked == 0 || inlet.incoming == []
    ensures NeverFails(old(inlet.schedule)) ==> NeverFails(inlet.schedule)
  {
    var interrupted;
    res, interrupted, data := inlet.Recv(asked);
    if old(inlet.schedule) != [] && NeverFails(old(inlet.schedule)) {
      TailNeverFails(old(inlet.schedule));
    }
    while res == -1 && interrupted
      invariant res == -1 || res == |data|
      invariant interrupted ==> res == -1
      invariant res == -1 && !interrupted ==> !NeverFails(old(inlet.schedule))
      invariant res == -1 ==> data == []
      invariant old(inlet.incoming) == data + inlet.incoming && |data| <= asked
      invariant res == 0 ==> asked == 0 || inlet.incoming == []
      invariant NeverFails(old(inlet.schedule)) ==> NeverFails(inlet.schedule)
      invariant inlet.schedule == [] && interrupted ==> res == -1
      decreases |inlet.schedule|, if interrupted then 1 else 0
    {
      ghost var before := inlet.schedule;
      res, interrupted, data := inlet.Recv(asked);
      if before != [] && NeverFails(before) {
        TailNeverFails(before);
      }
    }
  }

  /** The buffer `now` is `start` with the first `n` bytes of the stream written over it at `at`. */
  ghost predicate IsFilled(start: seq<Int8>, now: seq<Int8>, stream: seq<Int8>, at: nat, n: nat) {
    n <= |stream| && at + n <= |start| && now == start[..at] + stream[..n] + start[at + n..]
  }

  lemma FilledWithNothing(start: seq<Int8>, stream: seq<Int8>, at: nat)
    requires at <= |start|
    ensures IsFilled(start, start, stream, at, 0) && stream[0..] == stream
  {
  }

  /** `recvall`: exactly `n` bytes into the buffer at `at`, or the first result that was not positive: 0 at the end of a
      stream that is too short, -1 only when a receive failed. */
  method RecvAll(inlet: Inlet, buf: array<Int8>, at: nat, n: nat) returns (res: int)
    requires at + n <= buf.Length
    modifies inlet, buf
    ensures res == n || res == 0 || res == -1
    ensures res == n ==>
              && |old(inlet.incoming)| >= n
              && IsFilled(old(buf[..]), buf[..], old(inlet.incoming), at, n)
              && inlet.incoming == old(inlet.incoming)[n..]
    ensures NeverFails(old(inlet.schedule)) ==> NeverFails(inlet.schedule)
    ensures NeverFails(old(inlet.schedule)) && |old(inlet.incoming)| >= n ==> res == n
    ensures res == -1 ==> !NeverFails(old(inlet.schedule))
    ensures res == 0 && n > 0 ==> |old(inlet.incoming)| < n && inlet.incoming == []
  {
    ghost var start, stream, failing := buf[..], inlet.incoming, !NeverFails(inlet.schedule);
    FilledWithNothing(start, stream, at);
    var received := 0;
    while received < n
      invariant received <= n && IsFilled(start, buf[..], stream, at, received)
      invariant inlet.incoming == stream[received..]
      invariant failing || NeverFails(inlet.schedule)
      decreases n - received
    {
      var k := RecvMore(inlet, buf, at, received, n - received, start, stream);
      if k <= 0 {
        return k;
      }
      received := received + k;
    }
    return received;
  }

  /** One round of the loop: some more bytes of `stream`, of which `received` are in the buffer already. */
  method RecvMore(inlet: Inlet, buf: array<Int8>, at: nat, received: nat, asked: nat,
                  ghost start: seq<Int8>, ghost stream: seq<Int8>)
    returns (k: int)
    requires 0 < asked && at + received + asked <= buf.Length == |start|
    requires IsFilled(start, buf[..], stream, at, received) && inlet.incoming == stream[received..]
    modifies inlet, buf
    ensures -1 <= k <= asked
    ensures k == -1 ==> !NeverFails(old(inlet.schedule))
    ensures k == 0 ==> received == |stream| && inlet.incoming == []
    ensures k > 0 ==>
              && received + k <= |stream|
              && IsFilled(start, buf[..], stream, at, received + k) && inlet.incoming == stream[received + k..]
    ensures NeverFails(old(inlet.schedule)) ==> NeverFails(inlet.schedule)
    ensures NeverFails(old(inlet.schedule)) && received < |stream| ==> k > 0
  {
    ghost var filled := buf[..];
    var data;
    k, data := RecvRetrying(inlet, asked);
    if k > 0 {
      Store(buf, at + received, data);
      FillsOn(start, filled, buf[..], stream, inlet.incoming, data, at, received);
    }
  }

  /** The next `data` goes right behind the part already filled. */
  lemma FillsOn(start: seq<Int8>, before: seq<Int8>, after: seq<Int8>, stream: seq<Int8>, left: seq<Int8>,
                data: seq<Int8>, at: nat, n: nat)
    requires IsFilled(start, before, stream, at, n) && at + n + |data| <= |start|
    requires stream[n..] == data + left
    requires after == before[..at + n] + data + before[at + n + |data|..]
    ensures IsFilled(start, after, stream, at, n + |data|) && left == stream[n + |data|..]
  {
    assert stream[..n + |data|] == stream[..n] + data;
    assert before[..at + n] == start[..at] + stream[..n];
  }

  /** `start` with the first `n` bytes of `data` written over it at `at`. */
  ghost function Overwritten(start: seq<Int8>, at: nat, data: seq<Int8>, n: nat): (now: seq<Int8>)
    requires n <= |data| && at + n <= |start|
    ensures |now| == |start|
  {
    start[..at] + data[..n] + start[at + n..]
  }

  lemma OneMoreOverwritten(start: seq<Int8>, at: nat, data: seq<Int8>, n: nat)
    requires n < |data| && at + n < |start|
    ensures Overwritten(start, at, data, n)[at + n := data[n]] == Overwritten(start, at, data, n + 1)
  {
    assert data[..n + 1] == data[..n] + [data[n]];
    assert start[at + n..] == [start[at + n]] + start[at + n + 1..];
  }

  /** What `recv` itself does to the caller's buffer. */
  method Store(buf: array<Int8>, at: nat, data: seq<Int8>)
    requires at + |data| <= buf.Length
    modifies buf
    ensures buf[..] == old(buf[..at]) + data + old(buf[at + |data|..])
  {
    for i := 0 to |data|
      invariant buf[..] == Overwritten(old(buf[..]), at, data, i)
    {
      OneMoreOverwritten(old(buf[..]), at, data, i);
      ghost var before := buf[..];
      buf[at + i] := data[i];
      assert buf[..] == before[at + i := data[i]];
    }
    assert data[..|data|] == data;
  }

  /** The body length announced by the first six bytes. */
  function Announced(bytes: seq<Int8>): int
    requires |bytes| >= PACKET_HEADER_SIZE
  {
    DecodeI32(bytes[2..PACKET_HEADER_SIZE])
  }

  /** A stream that breaks off inside a header, or announces a body the buffer has room for. What C does with
      another one is undefined. */
  predicate AnnouncesLittle(incoming: seq<Int8>) {
    |incoming| >= PACKET_HEADER_SIZE ==> 0 <= Announced(incoming) <= MAX_PACKET_SIZE - PACKET_HEADER_SIZE
  }

  /** No frame with a body is all there. */
  predicate BreaksOff(incoming: seq<Int8>) {
    |incoming| < PACKET_HEADER_SIZE || Announced(incoming) == 0 || |incoming| < PACKET_HEADER_SIZE + Announced(incoming)
  }

  /** The bytes of `recv_packet`: the header, then as many bytes as it announces, one after the other into the
      buffer. An empty body reads as a failure. */
  method RecvFrame(inlet: Inlet, barr: BinArr) returns (res: int)
    requires barr.buf.Length == MAX_PACKET_SIZE && barr.index == barr.size == 0
    requires AnnouncesLittle(inlet.incoming)
    modifies inlet, barr, barr.buf
    ensures NeverFails(old(inlet.schedule)) ==> NeverFails(inlet.schedule)
    ensures res == -1 ==> !NeverFails(old(inlet.schedule))
    ensures NeverFails(old(inlet.schedule)) ==> (res == 0 <==> BreaksOff(old(inlet.incoming)))
    ensures res != 0 && res != -1 ==>
              && PACKET_HEADER_SIZE <= |old(inlet.incoming)|
              && Announced(old(inlet.incoming)) > 0
              && res == PACKET_HEADER_SIZE + Announced(old(inlet.incoming)) <= |old(inlet.incoming)|
              && barr.buf[..res] == old(inlet.incoming)[..res]
              && inlet.incoming == old(inlet.incoming)[res..]
  {
    var headerSize := RecvAll(inlet, barr.buf, 0, PACKET_HEADER_SIZE);
    barr.size := if headerSize > 0 then barr.size + headerSize else barr.size;
    if headerSize <= 0 {
      return headerSize;
    }
    var _ := barr.ReadI8();
    var _ := barr.ReadI8();
    var packetSize := barr.ReadI32N();
    assert barr.buf[2..PACKET_HEADER_SIZE] == old(inlet.incoming)[2..PACKET_HEADER_SIZE];
    var dataSize := RecvAll(inlet, barr.buf, barr.size, packetSize);
    barr.index := 0;
    if dataSize <= 0 {
      return dataSize;
    }
    res := headerSize + dataSize;
    assert barr.buf[..res] == old(inlet.incoming)[..PACKET_HEADER_SIZE] +
             old(inlet.incoming)[PACKET_HEADER_SIZE..][..packetSize];
  }

  /** The stream begins with the encoding of `p`, or breaks off inside it. */
  predicate BeginsWith(incoming: seq<Int8>, p: Packet) {
    Fits(p) && !p.PacketUnknown? && (Encode(p) <= incoming || incoming <= Encode(p))
  }

  /**
   `recv_packet`. Without receive errors 0 says exactly that no whole frame is there; -1 says that a receive failed.
   A success takes one frame off the stream and decodes it; what lies behind it in the buffer only matters to a frame
   shorter than its type wants. If the stream begins with the encoding of some packet `p` and all
   of that is there, the call succeeds unless a receive fails, and `p` is what arrives.
   */
  method RecvPacket(inlet: Inlet, prior: PongState, ghost p: Packet) returns (res: int, packet: Packet)
    requires AnnouncesLittle(inlet.incoming)
    modifies inlet
    ensures NeverFails(old(inlet.schedule)) ==> NeverFails(inlet.schedule)
    ensures res == -1 ==> !NeverFails(old(inlet.schedule))
    ensures NeverFails(old(inlet.schedule)) ==> (res == 0 <==> BreaksOff(old(inlet.incoming)))
    ensures res != 0 && res != -1 ==>
              && PACKET_HEADER_SIZE <= |old(inlet.incoming)|
              && res == PACKET_HEADER_SIZE + Announced(old(inlet.incoming)) <= |old(inlet.incoming)|
              && inlet.incoming == old(inlet.incoming)[res..]
              && exists buf: seq<Int8> ::
                   |buf| == MAX_PACKET_SIZE && buf[..res] == old(inlet.incoming)[..res] && packet == Decode(buf, prior)
    ensures BeginsWith(old(inlet.incoming), p) ==>
              && (NeverFails(old(inlet.schedule)) && |old(inlet.incoming)| >= |Encode(p)| ==> res > 0)
              && (res > 0 ==> res == |Encode(p)| && packet == Arrived(p, prior))
  {
    packet := PacketUnknown(0, -1);
    ghost var isFrame := BeginsWith(inlet.incoming, p);
    if isFrame {
      EncodingAnnouncesItself(p, inlet.incoming);
    }
    var barr := new BinArr(MAX_PACKET_SIZE);
    res := RecvFrame(inlet, barr);
    if res <= 0 {
      return;
    }
    if isFrame {
      FrameDecodes(p, old(inlet.incoming), barr.buf[..], res, prior);
    }
    var size, known;
    packet, size, known := PacketDeserialize(barr, prior);
  }

  /** The header of an encoding announces the length of its body. */
  lemma EncodingAnnouncesItself(p: Packet, incoming: seq<Int8>)
    requires Fits(p) && !p.PacketUnknown?
    requires Encode(p) <= incoming || incoming <= Encode(p)
    ensures |incoming| >= PACKET_HEADER_SIZE ==>
            0 < Announced(incoming) == |Encode(p)| - PACKET_HEADER_SIZE <= MAX_PACKET_SIZE - PACKET_HEADER_SIZE
    ensures |Encode(p)| >= PACKET_HEADER_SIZE
  {
    BodyHasLength(p);
    if |incoming| >= PACKET_HEADER_SIZE {
      assert incoming[2..PACKET_HEADER_SIZE] == Encode(p)[2..PACKET_HEADER_SIZE] == EncodeI32(|Body(p)|);
      DecodeOfEncode(|Body(p)|);
    }
  }

  lemma FrameDecodes(p: Packet, incoming: seq<Int8>, buf: seq<Int8>, n: nat, prior: PongState)
    requires Fits(p) && n == |Encode(p)| <= |incoming| && n <= |buf| == MAX_PACKET_SIZE
    requires Encode(p) <= incoming || incoming <= Encode(p)
    requires buf[..n] == incoming[..n]
    ensures Decode(buf, prior) == Arrived(p, prior)
  {
    assert incoming[..n] == Encode(p);
    assert buf == Encode(p) + buf[n..];
    RoundTrip(p, buf[n..], prior);
  }

  // ---------------------------------------------------------------- sending

  /** The sending end of a connection. When the schedule is used up, everything offered is accepted. */
  class Outlet {
    var sent: seq<Int8>
    var schedule: seq<Acceptance>

    constructor (schedule: seq<Acceptance>)
      ensures sent == [] && this.schedule == schedule
    {
      sent, this.schedule := [], schedule;
    }

    /** `send` */
    method Send(offered: seq<Int8>) returns (res: int)
      requires offered != []
      modifies this
      ensures res == -1 ==> sent == old(sent) && SendFailed in old(schedule)
      ensures res != -1 ==> 0 < res <= |offered| && sent == old(sent) + offered[..res]
      ensures schedule == if old(schedule) == [] then [] else old(schedule)[1..]
    {
      var event := if schedule == [] then Accepted(|offered|) else schedule[0];
      if schedule != [] {
        schedule := schedule[1..];
      }
      match event {
        case SendFailed => res := -1;
        case Accepted(limit) =>
          res := Granted(limit, |offered|, |offered|);
          sent := sent + offered[..res];
      }
    }
  }

  predicate NeverRefuses(schedule: seq<Acceptance>) {
    SendFailed !in schedule
  }

  /** `sendall`: the whole buffer, or -1 with a prefix of it sent. */
  method SendAll(outlet: Outlet, buf: array<Int8>, n: nat) returns (res: int)
    requires n <= buf.Length
    modifies outlet
    ensures res == n || res == -1
    ensures res == n ==> outlet.sent == old(outlet.sent) + buf[..n]
    ensures res == -1 ==> old(outlet.sent) <= outlet.sent <= old(outlet.sent) + buf[..n]
    ensures NeverRefuses(old(outlet.schedule)) ==> res == n && NeverRefuses(outlet.schedule)
  {
    var sent := 0;
    while sent < n
      invariant sent <= n
      invariant outlet.sent == old(outlet.sent) + buf[..sent]
      invariant NeverRefuses(old(outlet.schedule)) ==> NeverRefuses(outlet.schedule)
      decreases n - sent
    {
      ghost var before, bytes := outlet.schedule, buf[..];
      res := outlet.Send(buf[sent..n]);
      if res == -1 {
        return;
      }
      assert buf[..] == bytes;
      assert bytes[..sent] + bytes[sent..n][..res] == bytes[..sent + res];
      assert before != [] ==> forall e :: e in before[1..] ==> e in before;
      sent := sent + res;
    }
    return sent;
  }

  /** `server_send_packet` and `client_send`: serialise into a fresh buffer and send it. An unknown type is not sent. */
  method SendPacket(outlet: Outlet, p: Packet) returns (res: int)
    requires Fits(p)
    modifies outlet
    ensures p.PacketUnknown? ==> res == -1 && outlet.sent == old(outlet.sent)
    ensures !p.PacketUnknown? && NeverRefuses(old(outlet.schedule)) ==> res != -1 && NeverRefuses(outlet.schedule)
    ensures !p.PacketUnknown? && res != -1 ==> outlet.sent == old(outlet.sent) + Encode(p)
  {
    var barr := new BinArr(MAX_PACKET_SIZE);
    var ok := PacketSerialize(barr, p);
    if !ok {
      return -1;
    }
    res := SendAll(outlet, barr.buf, barr.size);
  }

  // ---------------------------------------------------------------- whole conversations

  ghost predicate AllFit(ps: seq<Packet>) {
    forall i :: 0 <= i < |ps| ==> Fits(ps[i]) && !ps[i].PacketUnknown?
  }

  /** The packets' bytes, one sequence each. */
  ghost function Frames(ps: seq<Packet>): (fs: seq<seq<Int8>>)
    requires AllFit(ps)
    ensures |fs| == |ps| && forall k :: 0 <= k < |ps| ==> fs[k] == Encode(ps[k])
  {
    seq(|ps|, k requires 0 <= k < |ps| => Encode(ps[k]))
  }

  /** Frame number `i` and all after it, one behind the other. */
  ghost function Joined(fs: seq<seq<Int8>>, i: nat): seq<Int8>
    requires i <= |fs|
    decreases |fs| - i
  {
    if i == |fs| then [] else fs[i] + Joined(fs, i + 1)
  }

  /** The byte stream of the packets from number `i` on. */
  ghost function EncodeFrom(ps: seq<Packet>, i: nat): seq<Int8>
    requires AllFit(ps) && i <= |ps|
  {
    Joined(Frames(ps), i)
  }

  ghost function EncodeAll(ps: seq<Packet>): seq<Int8>
    requires AllFit(ps)
  {
    EncodeFrom(ps, 0)
  }

  /** The packets received so far are the first ones sent, each as the wire delivers it. */
  ghost predicate ArrivedSoFar(received: seq<Packet>, ps: seq<Packet>) {
    |received| <= |ps| && forall j :: 0 <= j < |received| ==> received[j] == Arrived(ps[j], ZERO_STATE)
  }

  ghost predicate ArrivedAll(received: seq<Packet>, ps: seq<Packet>) {
    |received| == |ps| && ArrivedSoFar(received, ps)
  }

  lemma OneMoreArrived(received: seq<Packet>, ps: seq<Packet>, packet: Packet)
    requires ArrivedSoFar(received, ps) && |received| < |ps| && packet == Arrived(ps[|received|], ZERO_STATE)
    ensures ArrivedSoFar(received + [packet], ps)
  {
  }

  /** One packet after the other. */
  method SendPackets(outlet: Outlet, ps: seq<Packet>)
    requires AllFit(ps) && NeverRefuses(outlet.schedule)
    modifies outlet
    ensures outlet.sent == old(outlet.sent) + EncodeAll(ps)
  {
    ghost var goal := outlet.sent + EncodeAll(ps);
    for i := 0 to |ps|
      invariant NeverRefuses(outlet.schedule)
      invariant outlet.sent + EncodeFrom(ps, i) == goal
    {
      ghost var before := outlet.sent;
      var _ := SendPacket(outlet, ps[i]);
      Regrouped(before, Encode(ps[i]), EncodeFrom(ps, i + 1));
    }
  }

  lemma Regrouped(a: seq<Int8>, b: seq<Int8>, c: seq<Int8>)
    ensures (a + b) + c == a + (b + c)
  {
  }

  /** `server_state_receiver`: `recv_packet` again and again, into a zeroed packet each time. */
  method ReceivePackets(inlet: Inlet, count: nat, ghost ps: seq<Packet>, ghost rest: seq<Int8>)
    returns (received: seq<Packet>)
    requires AllFit(ps) && count == |ps| && NeverFails(inlet.schedule)
    requires inlet.incoming == EncodeAll(ps) + rest
    modifies inlet
    ensures ArrivedAll(received, ps) && inlet.incoming == rest
  {
    received := [];
    for i := 0 to count
      invariant NeverFails(inlet.schedule)
      invariant inlet.incoming == EncodeFrom(ps, i) + rest
      invariant |received| == i && ArrivedSoFar(received, ps)
    {
      Regrouped(Encode(ps[i]), EncodeFrom(ps, i + 1), rest);
      var packet := ReceiveOne(inlet, ps[i], EncodeFrom(ps, i + 1) + rest);
      OneMoreArrived(received, ps, packet);
      received := received + [packet];
    }
  }

  method ReceiveOne(inlet: Inlet, ghost p: Packet, ghost rest: seq<Int8>) returns (packet: Packet)
    requires Fits(p) && !p.PacketUnknown? && NeverFails(inlet.schedule)
    requires inlet.incoming == Encode(p) + rest
    modifies inlet
    ensures packet == Arrived(p, ZERO_STATE) && inlet.incoming == rest && NeverFails(inlet.schedule)
  {
    FrameComesFirst(Encode(p), rest);
    var res;
    res, packet := RecvPacket(inlet, ZERO_STATE, p);
  }

  lemma FrameComesFirst(frame: seq<Int8>, rest: seq<Int8>)
    ensures frame <= frame + rest && (frame + rest)[|frame|..] == rest
  {
  }

  /**
   Framing does not depend on fragmentation. Whatever packets are sent, however the network cuts the stream on the way
   in and on the way out, and however often a read is interrupted, the receiver gets those packets in order and ends
   on a packet boundary.
   */
  method Conversation(ps: seq<Packet>, sending: seq<Acceptance>, receiving: seq<Delivery>)
    returns (received: seq<Packet>, left: seq<Int8>)
    requires AllFit(ps) && NeverRefuses(sending) && NeverFails(receiving)
    ensures ArrivedAll(received, ps) && left == []
  {
    var outlet := new Outlet(sending);
    SendPackets(outlet, ps);
    var inlet := new Inlet(outlet.sent, receiving);
    received := ReceivePackets(inlet, |ps|, ps, []);
    left := inlet.incoming;
  }

  /** Two packets no receiver can tell apart. */
  ghost predicate SameOnArrival(p: Packet, q: Packet) {
    Arrived(p, ZERO_STATE) == Arrived(q, ZERO_STATE)
  }

  ghost predicate SameFrom(ps: seq<Packet>, qs: seq<Packet>, i: nat) {
    |ps| == |qs| && forall j :: i <= j < |ps| ==> SameOnArrival(ps[j], qs[j])
  }

  // ---------------------------------------------------------------- no two lists of packets share a stream

  /** A sequence of bytes whose header announces its length. */
  ghost predicate IsFrame(f: seq<Int8>) {
    |f| >= PACKET_HEADER_SIZE && |f| == PACKET_HEADER_SIZE + Announced(f)
  }

  ghost predicate AreFrames(fs: seq<seq<Int8>>) {
    forall k :: 0 <= k < |fs| ==> IsFrame(fs[k])
  }

  lemma FirstFrameIsShared(f: seq<Int8>, g: seq<Int8>, fRest: seq<Int8>, gRest: seq<Int8>)
    requires IsFrame(f) && IsFrame(g) && f + fRest == g + gRest
    ensures f == g && fRest == gRest
  {
    var stream := f + fRest;
    assert stream[2..PACKET_HEADER_SIZE] == f[2..PACKET_HEADER_SIZE];
    assert stream[2..PACKET_HEADER_SIZE] == g[2..PACKET_HEADER_SIZE];
    assert |f| == |g|;
    assert f == stream[..|f|] && g == stream[..|g|];
    assert fRest == stream[|f|..] && gRest == stream[|g|..];
  }

  lemma {:induction false} JoinedDeterminesFrames(fs: seq<seq<Int8>>, gs: seq<seq<Int8>>, i: nat)
    requires AreFrames(fs) && AreFrames(gs) && i <= |fs| && i <= |gs| && Joined(fs, i) == Joined(gs, i)
    ensures |fs| == |gs| && forall k :: i <= k < |fs| ==> fs[k] == gs[k]
    decreases |fs| - i
  {
    if i < |fs| && i < |gs| {
      FirstFrameIsShared(fs[i], gs[i], Joined(fs, i + 1), Joined(gs, i + 1));
      JoinedDeterminesFrames(fs, gs, i + 1);
    }
  }

  lemma EncodingIsFrame(p: Packet)
    requires Fits(p) && !p.PacketUnknown?
    ensures IsFrame(Encode(p))
  {
    EncodingAnnouncesItself(p, Encode(p));
  }

  lemma AllAreFrames(ps: seq<Packet>)
    requires AllFit(ps)
    ensures AreFrames(Frames(ps))
  {
    forall k | 0 <= k < |ps|
      ensures IsFrame(Frames(ps)[k])
    {
      EncodingIsFrame(ps[k]);
    }
  }

  /** A stream determines the packets in it: two lists with the same bytes arrive as the same packets. */
  lemma StreamDeterminesPackets(ps: seq<Packet>, qs: seq<Packet>, i: nat)
    requires AllFit(ps) && AllFit(qs) && i <= |ps| && i <= |qs| && EncodeFrom(ps, i) == EncodeFrom(qs, i)
    ensures SameFrom(ps, qs, i)
  {
    FramesAgree(ps, qs, i);
    forall j | i <= j < |ps|
      ensures SameOnArrival(ps[j], qs[j])
    {
      SameBytesSamePacket(ps[j], qs[j]);
    }
  }

  lemma FramesAgree(ps: seq<Packet>, qs: seq<Packet>, i: nat)
    requires AllFit(ps) && AllFit(qs) && i <= |ps| && i <= |qs| && EncodeFrom(ps, i) == EncodeFrom(qs, i)
    ensures |ps| == |qs| && forall j :: i <= j < |ps| ==> Encode(ps[j]) == Encode(qs[j])
  {
    AllAreFrames(ps);
    AllAreFrames(qs);
    JoinedDeterminesFrames(Frames(ps), Frames(qs), i);
  }

  lemma SameBytesSamePacket(p: Packet, q: Packet)
    requires Fits(p) && Fits(q) && Encode(p) == Encode(q)
    ensures SameOnArrival(p, q)
  {
    var padding := seq(PACKET_HEADER_SIZE + 100, _ => 0);
    RoundTrip(p, padding, ZERO_STATE);
    RoundTrip(q, padding, ZERO_STATE);
  }
}
