/**
 The input protocol again, now with every critical section of the programs a step of its own: the tick drains, counts
 a goal, composes its packet and posts it to one client after the other; an input is checked and credited in two
 sections; a client takes an INIT in three; it types, collects and sends on two threads of their own. Each client gets a
 reader of its own at the server; the program has one thread for both, so it has fewer interleavings. Of the game there
 are only the two copies of the client's own paddle: typing moves one of them right away, draining the other.

 What holds at this granularity in every run: STATE packets find their client in their round, and the ledger balances.
 */
module FineGrained {
  import opened Bytes
  import opened Packets
  import opened Match
  import opened Agreement

  /** An INIT or a STATE, without the game. */
  datatype Note = Note(isInit: bool, sync: int, round: int)

  /** The client's receiving thread: between packets, or inside `server_state_receive` on an INIT. */
  datatype Receiver = Idle | StateWritten(note: Note) | SyncWritten

  /** A packet a thread holds: composed but not sent yet, or checked but not credited yet. */
  datatype Held = Nothing | Letter(m: InputMsg)

  datatype FinePeer = FinePeer(
    // the client
    sync: int,
    inputMs: int,
    shown: int,          // the own paddle's height as predicted, in half pixels above its reset height
    receiver: Receiver,
    outbox: Held,
    // the channels
    toServer: seq<InputMsg>,
    toClient: seq<Note>,
    // the server
    passed: Held,
    serverMs: int,
    height: int,         // the same paddle's height at the server
    // history
    round: int,
    pending: seq<Contribution>,
    accepted: seq<Contribution>,
    generated: int,
    discarded: int,
    rejected: int,
    drained: int
  )

  /** The ticking thread inside `send_state`. */
  datatype Ticker = Resting | HasDrained | HasCounted | Posting(note: Note, next: int)

  datatype FineState = FineState(sync: int, round: nat, ticker: Ticker, first: FinePeer, second: FinePeer) {
    function Peer(i: int): FinePeer {
      if i == 0 then first else second
    }

    function With(i: int, p: FinePeer): FineState {
      if i == 0 then this.(first := p) else this.(second := p)
    }
  }

  datatype Section =
    | Drain | Count | Compose | Post
    | Join(i: int) | TakeState(i: int) | TakeInit(i: int) | WriteSync(i: int) | ClearInput(i: int)
    | Type(i: int, ms: int) | Collect(i: int) | Ship(i: int)
    | Check(i: int) | Credit(i: int)

  predicate OfServer(a: Section) {
    a.Drain? || a.Count? || a.Compose? || a.Post?
  }

  predicate CanServer(t: Ticker, a: Section) {
    match a
    case Drain => t.Resting?
    case Count => t.HasDrained?
    case Compose => t.HasDrained? || t.HasCounted?
    case Post => t.Posting?
    case _ => false
  }

  predicate CanPeer(p: FinePeer, a: Section) {
    match a
    case Join(_) => p.round < 0 && p.toClient != [] && p.toClient[0].isInit
    case TakeState(_) => p.round >= 0 && p.receiver.Idle? && p.toClient != [] && !p.toClient[0].isInit
    case TakeInit(_) => p.round >= 0 && p.receiver.Idle? && p.toClient != [] && p.toClient[0].isInit
    case WriteSync(_) => p.receiver.StateWritten?
    case ClearInput(_) => p.receiver.SyncWritten?
    case Type(_, _) => p.round >= 0
    case Collect(_) => p.round >= 0 && p.outbox.Nothing?
    case Ship(_) => p.outbox.Letter?
    case Check(_) => p.passed.Nothing? && p.toServer != []
    case Credit(_) => p.passed.Letter?
    case _ => false
  }

  predicate Can(s: FineState, a: Section) {
    if OfServer(a) then CanServer(s.ticker, a) else 0 <= a.i < 2 && CanPeer(s.Peer(a.i), a)
  }

  function DrainedPeer(p: FinePeer): FinePeer {
    p.(serverMs := 0, height := p.height + p.serverMs, accepted := [], drained := p.drained + p.serverMs)
  }

  /** A goal resets the paddles. */
  function ResetPeer(p: FinePeer): FinePeer {
    p.(height := 0)
  }

  function AfterServer(s: FineState, a: Section): FineState
    requires OfServer(a) && CanServer(s.ticker, a)
  {
    match a
    case Drain => s.(ticker := HasDrained, first := DrainedPeer(s.first), second := DrainedPeer(s.second))
    case Count =>
      s.(ticker := HasCounted, sync := WrapInt8(s.sync + 1), round := s.round + 1,
         first := ResetPeer(s.first), second := ResetPeer(s.second))
    case Compose => s.(ticker := Posting(Note(s.ticker.HasCounted?, s.sync, s.round), 0))
    case Post =>
      var i := s.ticker.next;
      var p := s.Peer(i);
      s.(ticker := if i == 0 then s.ticker.(next := 1) else Resting)
       .With(i, p.(toClient := p.toClient + [s.ticker.note]))
  }

  function AfterPeer(sync: int, p: FinePeer, a: Section): FinePeer
    requires CanPeer(p, a)
  {
    match a
    case Join(_) =>
      p.(toClient := p.toClient[1..], shown := 0, sync := p.toClient[0].sync, round := p.toClient[0].round)
    case TakeState(_) => p.(toClient := p.toClient[1..])
    case TakeInit(_) => p.(toClient := p.toClient[1..], shown := 0, receiver := StateWritten(p.toClient[0]))
    case WriteSync(_) => p.(sync := p.receiver.note.sync, round := p.receiver.note.round, receiver := SyncWritten)
    case ClearInput(_) => p.(inputMs := 0, pending := [], discarded := p.discarded + p.inputMs, receiver := Idle)
    case Type(_, ms) =>
      p.(inputMs := p.inputMs + ms, shown := p.shown + ms, pending := p.pending + [Contribution(p.round, ms)],
         generated := p.generated + ms)
    case Collect(_) =>
      p.(inputMs := 0, pending := [], outbox := Letter(InputMsg(PacketInput(p.sync, p.inputMs), p.round, p.pending)))
    case Ship(_) => p.(toServer := p.toServer + [p.outbox.m], outbox := Nothing)
    case Check(_) =>
      var m, rest := p.toServer[0], p.toServer[1..];
      if m.packet.sync == sync then p.(toServer := rest, passed := Letter(m))
      else p.(toServer := rest, rejected := p.rejected + Amount(m))
    case Credit(_) =>
      p.(serverMs := p.serverMs + Amount(p.passed.m), accepted := p.accepted + p.passed.m.log, passed := Nothing)
  }

  function After(s: FineState, a: Section): FineState
    requires Can(s, a)
  {
    if OfServer(a) then AfterServer(s, a) else s.With(a.i, AfterPeer(s.sync, s.Peer(a.i), a))
  }

  const NEW_PEER := FinePeer(0, 0, 0, Idle, Nothing, [], [Note(true, 0, 0)], Nothing, 0, 0, -1, [], [], 0, 0, 0, 0)

  /** The first INIT is on its way to both. */
  const BEGIN := FineState(0, 0, Resting, NEW_PEER, NEW_PEER)

  ghost predicate IsFineRun(s: FineState, run: seq<Section>, end: FineState)
    decreases |run|
  {
    if run == [] then end == s
    else Can(s, run[0]) && IsFineRun(After(s, run[0]), run[1..], end)
  }

  // ---------------------------------------------------------------- every run: rounds and ledger

  /** Heard in order, the notes take a client from one round to another: INITs one round on each, STATEs none. */
  ghost predicate Notes(ch: seq<Note>, from: int, to: int)
    decreases |ch|
  {
    if ch == [] then from == to
    else
      && ch[0].sync == WrapInt8(ch[0].round)
      && if ch[0].isInit then ch[0].round == from + 1 && Notes(ch[1..], from + 1, to)
         else from >= 0 && ch[0].round == from && Notes(ch[1..], from, to)
  }

  lemma {:induction false} NotesAppend(ch: seq<Note>, from: int, to: int, n: Note)
    requires Notes(ch, from, to) && n.sync == WrapInt8(n.round)
    requires if n.isInit then n.round == to + 1 else n.round == to && to >= 0
    ensures Notes(ch + [n], from, n.round)
    decreases |ch|
  {
    if ch == [] {
      assert [n][1..] == [];
    } else {
      assert (ch + [n])[1..] == ch[1..] + [n];
      NotesAppend(ch[1..], if ch[0].isInit then from + 1 else from, to, n);
    }
  }

  /** The round of the latest note posted to client `i`. */
  function Posted(s: FineState, i: int): int {
    match s.ticker
    case Resting => s.round
    case HasDrained => s.round
    case HasCounted => s.round - 1
    case Posting(note, next) => if note.isInit && next <= i then s.round - 1 else s.round
  }

  /** The round up to which the client has read its notes. */
  function Heard(p: FinePeer): int {
    if p.receiver.StateWritten? then p.round + 1 else p.round
  }

  function HeldAmount(h: Held): int {
    if h.Letter? then Amount(h.m) else 0
  }

  /** Every millisecond typed is in exactly one place, those in the threads' hands included. */
  ghost predicate FineLedger(p: FinePeer) {
    p.generated == p.inputMs + p.discarded + HeldAmount(p.outbox) + TotalInFlight(p.toServer) + p.rejected
                   + HeldAmount(p.passed) + p.serverMs + p.drained
  }

  ghost predicate FinePeerOk(p: FinePeer, posted: int) {
    && p.round >= -1
    && Notes(p.toClient, Heard(p), posted)
    && (p.round >= 0 ==> p.sync == WrapInt8(p.round))
    && (p.round < 0 ==> p.receiver.Idle?)
    && (p.receiver.StateWritten? ==>
        p.receiver.note.round == p.round + 1 && p.receiver.note.sync == WrapInt8(p.round + 1))
    && FineLedger(p)
  }

  ghost predicate TickerOk(s: FineState) {
    && s.sync == WrapInt8(s.round)
    && (s.ticker.Posting? ==> 0 <= s.ticker.next < 2 && s.ticker.note == Note(s.ticker.note.isInit, s.sync, s.round))
  }

  ghost predicate FineOk(s: FineState) {
    TickerOk(s) && FinePeerOk(s.first, Posted(s, 0)) && FinePeerOk(s.second, Posted(s, 1))
  }

  /** The sections that only move input about. */
  predicate MovesInput(a: Section) {
    a.Type? || a.Collect? || a.Ship? || a.Check? || a.Credit?
  }

  lemma MovingInputKeepsOk(sync: int, p: FinePeer, a: Section, posted: int)
    requires FinePeerOk(p, posted) && CanPeer(p, a) && MovesInput(a)
    ensures FinePeerOk(AfterPeer(sync, p, a), posted)
  {
    if a.Ship? {
      TotalInFlightAppend(p.toServer, p.outbox.m);
    }
  }

  lemma ReadingNotesKeepsOk(sync: int, p: FinePeer, a: Section, posted: int)
    requires FinePeerOk(p, posted) && CanPeer(p, a) && !MovesInput(a)
    ensures FinePeerOk(AfterPeer(sync, p, a), posted)
  {
  }

  lemma PeerSectionKeepsOk(sync: int, p: FinePeer, a: Section, posted: int)
    requires FinePeerOk(p, posted) && CanPeer(p, a)
    ensures FinePeerOk(AfterPeer(sync, p, a), posted)
  {
    if MovesInput(a) {
      MovingInputKeepsOk(sync, p, a, posted);
    } else {
      ReadingNotesKeepsOk(sync, p, a, posted);
    }
  }

  lemma PostToPeer(p: FinePeer, posted: int, n: Note)
    requires FinePeerOk(p, posted) && n.sync == WrapInt8(n.round)
    requires if n.isInit then n.round == posted + 1 else n.round == posted && posted >= 0
    ensures FinePeerOk(p.(toClient := p.toClient + [n]), n.round)
  {
    NotesAppend(p.toClient, Heard(p), posted, n);
  }

  lemma PostKeepsOk(s: FineState)
    requires FineOk(s) && s.ticker.Posting?
    ensures FineOk(AfterServer(s, Post))
  {
    if s.ticker.next == 0 {
      PostToPeer(s.first, Posted(s, 0), s.ticker.note);
    } else {
      PostToPeer(s.second, Posted(s, 1), s.ticker.note);
    }
  }

  lemma ServerSectionKeepsOk(s: FineState, a: Section)
    requires FineOk(s) && OfServer(a) && CanServer(s.ticker, a)
    ensures FineOk(AfterServer(s, a))
  {
    match a
    case Drain =>
    case Count => WrapOfSuccessor(s.round);
    case Compose =>
    case Post => PostKeepsOk(s);
  }

  lemma PeerOfOk(s: FineState, i: int)
    requires FineOk(s) && 0 <= i < 2
    ensures FinePeerOk(s.Peer(i), Posted(s, i))
  {
  }

  lemma WithOkPeer(s: FineState, i: int, p: FinePeer)
    requires FineOk(s) && 0 <= i < 2 && FinePeerOk(p, Posted(s, i))
    ensures FineOk(s.With(i, p))
  {
  }

  lemma ClientSectionKeepsOk(s: FineState, a: Section)
    requires FineOk(s) && !OfServer(a) && Can(s, a)
    ensures FineOk(s.With(a.i, AfterPeer(s.sync, s.Peer(a.i), a)))
  {
    PeerOfOk(s, a.i);
    PeerSectionKeepsOk(s.sync, s.Peer(a.i), a, Posted(s, a.i));
    WithOkPeer(s, a.i, AfterPeer(s.sync, s.Peer(a.i), a));
  }

  lemma SectionKeepsOk(s: FineState, a: Section)
    requires FineOk(s) && Can(s, a)
    ensures FineOk(After(s, a))
  {
    if OfServer(a) {
      ServerSectionKeepsOk(s, a);
    } else {
      ClientSectionKeepsOk(s, a);
    }
  }

  lemma {:induction false} FineRunKeepsOk(s: FineState, run: seq<Section>, end: FineState)
    requires FineOk(s) && IsFineRun(s, run, end)
    ensures FineOk(end)
    decreases |run|
  {
    if run != [] {
      SectionKeepsOk(s, run[0]);
      FineRunKeepsOk(After(s, run[0]), run[1..], end);
    }
  }

  lemma BeginIsOk()
    ensures FineOk(BEGIN)
  {
    assert NEW_PEER.toClient[1..] == [];
  }

  lemma ReachedPeerIsOk(run: seq<Section>, end: FineState, i: int)
    requires IsFineRun(BEGIN, run, end) && 0 <= i < 2
    ensures FinePeerOk(end.Peer(i), Posted(end, i))
  {
    BeginIsOk();
    FineRunKeepsOk(BEGIN, run, end);
    PeerOfOk(end, i);
  }

  ghost predicate TakesOwnRound(p: FinePeer, i: int) {
    CanPeer(p, TakeState(i)) ==> p.toClient[0].sync == p.sync && p.toClient[0].round == p.round
  }

  lemma OkPeerTakesOwnRound(p: FinePeer, posted: int, i: int)
    requires FinePeerOk(p, posted)
    ensures TakesOwnRound(p, i) && FineLedger(p)
  {
  }

  /** Whatever the interleaving, a client takes a STATE only in the round it was sent in, its sync the client's
      own; and no input is lost. */
  lemma FineRunIsConsistent(run: seq<Section>, end: FineState, i: int)
    requires IsFineRun(BEGIN, run, end) && 0 <= i < 2
    ensures TakesOwnRound(end.Peer(i), i) && FineLedger(end.Peer(i))
  {
    ReachedPeerIsOk(run, end, i);
    OkPeerTakesOwnRound(end.Peer(i), Posted(end, i), i);
  }
}
