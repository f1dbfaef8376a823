/**
 When does prediction agree with authority, with every critical section a step of its own? Exactly along the runs
 without four kinds of section. Three are the races of inputs with a goal and the confusion of rounds, here by amount;
 the fourth is a frame between the arrival of a new round's state at the client and the clearing of its input: it
 moves the fresh paddle, and its input is thrown away.
 */
module FineHeights {
  import opened Bytes
  import opened Match
  import opened Prediction
  import opened FineGrained
  import opened FineRaces

  // ---------------------------------------------------------------- the two copies of a paddle

  /** The amount of a letter in a thread's hands, if it is of this round. */
  function HeldInRound(h: Held, round: int): int {
    if h.Letter? && h.m.round == round then Amount(h.m) else 0
  }

  /** Where the server's copy will be once all it has accepted is applied. */
  function Accepted(p: FinePeer): int {
    p.height + p.serverMs + HeldAmount(p.passed)
  }

  /** Where the client's copy is without what the client has yet to get accepted. While it takes an INIT its
      pending input does not count, for it is about to be cleared. A client that has not read the round's INIT
      expects a reset paddle. */
  ghost function Expected(p: FinePeer, round: int): int {
    if Heard(p) == round then
      p.shown - (if p.receiver.Idle? then p.inputMs else 0) - HeldInRound(p.outbox, round) - InFlight(p.toServer, round)
    else 0
  }

  ghost predicate Level(p: FinePeer, round: int) {
    Accepted(p) == Expected(p, round)
  }

  /** Nothing typed in this round is still to be applied. */
  predicate NothingPending(p: FinePeer, round: int) {
    && p.receiver.Idle? && p.round == round && p.inputMs == 0 && p.outbox.Nothing? && p.toServer == []
    && p.passed.Nothing? && p.serverMs == 0
  }

  /** Then level means: at the same height. */
  lemma LevelMeansSameHeight(p: FinePeer, round: int)
    requires Level(p, round) && NothingPending(p, round)
    ensures p.shown == p.height
  {
  }

  // ---------------------------------------------------------------- every run: what letters say

  ghost predicate IsTagged(m: InputMsg) {
    m.packet.PacketInput? && m.packet.sync == WrapInt8(m.round)
  }

  /** Every letter carries the sync of its round; who has not joined has typed nothing. */
  ghost predicate Tagged(p: FinePeer) {
    && (p.outbox.Letter? ==> IsTagged(p.outbox.m))
    && (forall k :: 0 <= k < |p.toServer| ==> IsTagged(p.toServer[k]))
    && (p.round < 0 ==> p.inputMs == 0)
  }

  lemma RestIsTagged(p: FinePeer)
    requires Tagged(p) && p.toServer != []
    ensures forall k :: 0 <= k < |p.toServer[1..]| ==> IsTagged(p.toServer[1..][k])
  {
    assert forall k :: 0 <= k < |p.toServer[1..]| ==> p.toServer[1..][k] == p.toServer[k + 1];
  }

  lemma PeerSectionKeepsTagged(sync: int, p: FinePeer, a: Section, posted: int)
    requires FinePeerOk(p, posted) && Tagged(p) && CanPeer(p, a)
    ensures Tagged(AfterPeer(sync, p, a))
  {
    if a.Check? {
      RestIsTagged(p);
    }
  }

  ghost predicate FineHonest(s: FineState) {
    FineSound(s) && Tagged(s.first) && Tagged(s.second)
  }

  lemma WithTaggedPeer(s: FineState, i: int, p: FinePeer)
    requires Tagged(s.first) && Tagged(s.second) && Tagged(p)
    ensures Tagged(s.With(i, p).first) && Tagged(s.With(i, p).second)
  {
  }

  lemma ServerSectionKeepsTagged(s: FineState, a: Section)
    requires Tagged(s.first) && Tagged(s.second) && OfServer(a) && CanServer(s.ticker, a)
    ensures Tagged(AfterServer(s, a).first) && Tagged(AfterServer(s, a).second)
  {
  }

  lemma SectionKeepsHonest(s: FineState, a: Section)
    requires FineHonest(s) && Can(s, a)
    ensures FineHonest(After(s, a))
  {
    SectionKeepsSound(s, a);
    if OfServer(a) {
      ServerSectionKeepsTagged(s, a);
    } else {
      PeerOfOk(s, a.i);
      PeerSectionKeepsTagged(s.sync, s.Peer(a.i), a, Posted(s, a.i));
      WithTaggedPeer(s, a.i, AfterPeer(s.sync, s.Peer(a.i), a));
    }
  }

  // ---------------------------------------------------------------- what disturbs the level

  /** A frame while the client takes the INIT of the current round. */
  predicate TypesTooEarly(p: FinePeer, a: Section, round: int) {
    a.Type? && a.ms != 0 && !p.receiver.Idle? && Heard(p) == round
  }

  /** Old input is collected under the current sync. */
  predicate CollectsOld(p: FinePeer, a: Section, round: int) {
    a.Collect? && p.receiver.SyncWritten? && p.inputMs != 0 && p.round == round
  }

  /** A letter of another round is taken for a current one. */
  predicate ChecksOld(sync: int, p: FinePeer, a: Section, round: int)
    requires a.Check? ==> p.toServer != []
  {
    a.Check? && p.toServer[0].packet.sync == sync && p.toServer[0].round != round && Amount(p.toServer[0]) != 0
  }

  /** A goal is counted while input is checked but not credited, or credited since the drain. */
  predicate CountsOver(p: FinePeer) {
    p.serverMs + HeldAmount(p.passed) != 0
  }

  predicate DisturbsPeer(sync: int, p: FinePeer, a: Section, round: int)
    requires a.Check? ==> p.toServer != []
  {
    TypesTooEarly(p, a, round) || CollectsOld(p, a, round) || ChecksOld(sync, p, a, round)
  }

  predicate Disturbs(s: FineState, a: Section)
    requires Can(s, a)
  {
    if OfServer(a) then a.Count? && (CountsOver(s.first) || CountsOver(s.second))
    else DisturbsPeer(s.sync, s.Peer(a.i), a, s.round)
  }

  // ---------------------------------------------------------------- exactly these

  lemma {:induction false} NoneInFlight(ch: seq<InputMsg>, bound: int, round: int)
    requires (forall k :: 0 <= k < |ch| ==> ch[k].round <= bound) && bound < round
    ensures InFlight(ch, round) == 0
  {
    if ch != [] {
      assert forall k :: 0 <= k < |ch[1..]| ==> ch[1..][k] == ch[k + 1];
      NoneInFlight(ch[1..], bound, round);
    }
  }

  /** A client that takes the INIT of the current round has nothing of it underway. */
  lemma NewRoundIsEmpty(p: FinePeer, round: int)
    requires Aged(p) && p.round < round
    ensures HeldInRound(p.outbox, round) == 0 && InFlight(p.toServer, round) == 0
  {
    NoneInFlight(p.toServer, p.round, round);
  }

  lemma TypeKeepsLevelIff(sync: int, round: int, p: FinePeer, a: Section)
    requires Level(p, round) && CanPeer(p, a) && a.Type?
    ensures Level(AfterPeer(sync, p, a), round) <==> !TypesTooEarly(p, a, round)
  {
  }

  lemma CollectKeepsLevelIff(sync: int, round: int, p: FinePeer, a: Section)
    requires Level(p, round) && Heard(p) <= round && CanPeer(p, a) && a.Collect?
    ensures Level(AfterPeer(sync, p, a), round) <==> !CollectsOld(p, a, round)
  {
  }

  lemma ShipKeepsLevel(sync: int, round: int, p: FinePeer, a: Section)
    requires Level(p, round) && CanPeer(p, a) && a.Ship?
    ensures Level(AfterPeer(sync, p, a), round)
  {
    InFlightAppend(p.toServer, p.outbox.m, round);
  }

  lemma CheckKeepsLevelIff(sync: int, round: int, p: FinePeer, a: Section)
    requires Level(p, round) && Heard(p) <= round && Aged(p) && Tagged(p) && sync == WrapInt8(round)
    requires CanPeer(p, a) && a.Check?
    ensures Level(AfterPeer(sync, p, a), round) <==> !ChecksOld(sync, p, a, round)
  {
    var m, rest := p.toServer[0], p.toServer[1..];
    assert IsTagged(m) && LetterOk(m, p.round);
    assert InFlight(p.toServer, round) == (if m.round == round then Amount(m) else 0) + InFlight(rest, round);
  }

  lemma CreditKeepsLevel(sync: int, round: int, p: FinePeer, a: Section)
    requires Level(p, round) && CanPeer(p, a) && a.Credit?
    ensures Level(AfterPeer(sync, p, a), round)
  {
  }

  lemma ReadingKeepsLevel(sync: int, round: int, p: FinePeer, a: Section, posted: int)
    requires Level(p, round) && FinePeerOk(p, posted) && Aged(p) && Tagged(p) && posted <= round
    requires CanPeer(p, a) && !MovesInput(a)
    ensures Level(AfterPeer(sync, p, a), round)
  {
    NotesGoUp(p.toClient, Heard(p), posted);
    if a.Join? || a.TakeInit? {
      NotesGoUp(p.toClient[1..], Heard(p) + 1, posted);
      NewRoundIsEmpty(p, Heard(p) + 1);
    }
  }

  lemma MovingKeepsLevelIff(sync: int, round: int, p: FinePeer, a: Section)
    requires Level(p, round) && Heard(p) <= round && Aged(p) && Tagged(p) && sync == WrapInt8(round)
    requires CanPeer(p, a) && MovesInput(a)
    ensures Level(AfterPeer(sync, p, a), round) <==> !DisturbsPeer(sync, p, a, round)
  {
    match a
    case Type(_, _) => TypeKeepsLevelIff(sync, round, p, a);
    case Collect(_) => CollectKeepsLevelIff(sync, round, p, a);
    case Ship(_) => ShipKeepsLevel(sync, round, p, a);
    case Check(_) => CheckKeepsLevelIff(sync, round, p, a);
    case Credit(_) => CreditKeepsLevel(sync, round, p, a);
  }

  lemma PeerKeepsLevelIff(sync: int, round: int, p: FinePeer, a: Section, posted: int)
    requires Level(p, round) && FinePeerOk(p, posted) && Aged(p) && Tagged(p) && posted <= round
    requires sync == WrapInt8(round)
    requires CanPeer(p, a)
    ensures Level(AfterPeer(sync, p, a), round) <==> !DisturbsPeer(sync, p, a, round)
  {
    NotesGoUp(p.toClient, Heard(p), posted);
    if MovesInput(a) {
      MovingKeepsLevelIff(sync, round, p, a);
    } else {
      ReadingKeepsLevel(sync, round, p, a, posted);
    }
  }

  lemma DrainKeepsLevel(p: FinePeer, round: int)
    requires Level(p, round)
    ensures Level(DrainedPeer(p), round)
  {
  }

  lemma CountKeepsLevelIff(p: FinePeer, round: int)
    requires Level(p, round) && Heard(p) <= round
    ensures Level(ResetPeer(p), round + 1) <==> !CountsOver(p)
  {
  }

  ghost predicate BothLevel(s: FineState) {
    Level(s.first, s.round) && Level(s.second, s.round)
  }

  lemma HeardIsPast(s: FineState, i: int)
    requires FineHonest(s) && 0 <= i < 2
    ensures FinePeerOk(s.Peer(i), Posted(s, i)) && Posted(s, i) <= s.round && Heard(s.Peer(i)) <= s.round
    ensures Aged(s.Peer(i)) && Tagged(s.Peer(i)) && s.sync == WrapInt8(s.round)
  {
    PeerOfOk(s, i);
    NotesGoUp(s.Peer(i).toClient, Heard(s.Peer(i)), Posted(s, i));
  }

  lemma ServerKeepsLevelIff(s: FineState, a: Section)
    requires FineHonest(s) && BothLevel(s) && OfServer(a) && CanServer(s.ticker, a)
    ensures BothLevel(AfterServer(s, a)) <==> !(a.Count? && (CountsOver(s.first) || CountsOver(s.second)))
  {
    HeardIsPast(s, 0);
    HeardIsPast(s, 1);
    match a
    case Drain =>
      DrainKeepsLevel(s.first, s.round);
      DrainKeepsLevel(s.second, s.round);
    case Count =>
      CountKeepsLevelIff(s.first, s.round);
      CountKeepsLevelIff(s.second, s.round);
    case Compose =>
    case Post => PostKeepsLevel(s);
  }

  lemma PostKeepsLevel(s: FineState)
    requires BothLevel(s) && s.ticker.Posting?
    ensures BothLevel(AfterServer(s, Post))
  {
  }

  lemma PutLevelIff(s: FineState, i: int, p: FinePeer)
    requires BothLevel(s) && 0 <= i < 2
    ensures BothLevel(s.With(i, p)) <==> Level(p, s.round)
  {
  }

  lemma SectionKeepsLevelIff(s: FineState, a: Section)
    requires FineHonest(s) && BothLevel(s) && Can(s, a)
    ensures BothLevel(After(s, a)) <==> !Disturbs(s, a)
  {
    if OfServer(a) {
      ServerKeepsLevelIff(s, a);
    } else {
      HeardIsPast(s, a.i);
      assert Level(s.Peer(a.i), s.round);
      PeerKeepsLevelIff(s.sync, s.round, s.Peer(a.i), a, Posted(s, a.i));
      PutLevelIff(s, a.i, AfterPeer(s.sync, s.Peer(a.i), a));
    }
  }

  // ---------------------------------------------------------------- all runs

  ghost predicate Undisturbed(s: FineState, run: seq<Section>)
    decreases |run|
  {
    run != [] ==> Can(s, run[0]) && !Disturbs(s, run[0]) && Undisturbed(After(s, run[0]), run[1..])
  }

  ghost predicate LevelAllAlong(s: FineState, run: seq<Section>)
    decreases |run|
  {
    BothLevel(s) && (run != [] ==> Can(s, run[0]) && LevelAllAlong(After(s, run[0]), run[1..]))
  }

  /** In every interleaving: prediction agrees with authority all along a run if and only if no section of it
      disturbs the level. */
  lemma {:induction false} LevelIffUndisturbed(s: FineState, run: seq<Section>, end: FineState)
    requires FineHonest(s) && BothLevel(s) && IsFineRun(s, run, end)
    ensures LevelAllAlong(s, run) <==> Undisturbed(s, run)
    decreases |run|
  {
    if run != [] {
      SectionKeepsHonest(s, run[0]);
      SectionKeepsLevelIff(s, run[0]);
      if BothLevel(After(s, run[0])) {
        LevelIffUndisturbed(After(s, run[0]), run[1..], end);
      }
    }
  }

  /** A client that has just connected has typed nothing, and its paddle is at rest. */
  lemma UntouchedIsLevel(p: FinePeer, round: int)
    requires IsUntouched(p) && p.inputMs == 0 && p.serverMs == 0 && p.shown == 0 && p.height == 0
    ensures Tagged(p) && Level(p, round)
  {
  }

  lemma NewPeerIsLevel()
    ensures NEW_PEER.inputMs == 0 && NEW_PEER.serverMs == 0 && NEW_PEER.shown == 0 && NEW_PEER.height == 0
    ensures BEGIN.first == NEW_PEER && BEGIN.second == NEW_PEER
  {
  }

  lemma BeginIsLevel()
    ensures FineHonest(BEGIN) && BothLevel(BEGIN)
  {
    BeginIsSound();
    BeginIsUntouched();
    NewPeerIsLevel();
    UntouchedIsLevel(BEGIN.first, BEGIN.round);
    UntouchedIsLevel(BEGIN.second, BEGIN.round);
  }

  // ---------------------------------------------------------------- a frame too early

  lemma JoinAlone() returns (s: FineState)
    ensures FineReachable(s) && s.ticker.Resting? && s.round == 0 && s.sync == 0
    ensures s.first == NEW_PEER.(toClient := [], round := 0)
  {
    assert IsFineRun(BEGIN, [], BEGIN);
    s := ReachOn(BEGIN, Join(0));
  }

  /** The INIT of the second round has arrived, its sync and the input are still to be written. */
  lemma TakeSecondInit() returns (s: FineState)
    ensures FineReachable(s) && s.round == 1 && s.sync == 1
    ensures s.first == NEW_PEER.(toClient := [], round := 0, receiver := StateWritten(Note(true, 1, 1)))
  {
    s := JoinAlone();
    s := DrainNothing(s);
    s := CountGoal(s);
    s := PostInit(s);
    s := ReachOn(s, TakeInit(0));
  }

  /** One frame there, and nothing else, leaves the two copies apart with nothing pending: none of the other races,
      no input across a goal, and no way back before the next round. */
  lemma EarlyFrameDrifts() returns (s: FineState, s': FineState)
    ensures FineReachable(s) && Can(s, Type(0, 10)) && TypesTooEarly(s.first, Type(0, 10), s.round)
    ensures FineReachable(s') && NothingPending(s'.first, s'.round) && s'.first.shown == 10 && s'.first.height == 0
    ensures s'.first.accepted == []
  {
    s := TakeSecondInit();
    s' := ReachOn(s, Type(0, 10));
    s' := ReachOn(s', WriteSync(0));
    s' := ReachOn(s', ClearInput(0));
  }
}
