/**
 When do inputs stay in their round, with every critical section a step of its own? Exactly along the runs in which
 none of three races brings input of one round into the next, and no letter is confused with one of a round 256 goals
 later.
 */
module FineRaces {
  import opened Packets
  import opened Match
  import opened Prediction
  import opened FineGrained

  // ---------------------------------------------------------------- every run: the age of inputs

  /** Typed in this order, the last in this round at the latest. */
  ghost predicate Ordered(log: seq<Contribution>, round: int) {
    forall j, k :: 0 <= j <= k < |log| ==> log[j].round <= log[k].round <= round
  }

  lemma OldestDecides(log: seq<Contribution>, round: int)
    requires Ordered(log, round)
    ensures AllOf(log, round) <==> log == [] || log[0].round == round
  {
  }

  /** A letter whose oldest input was typed before the sync it carries was written. */
  predicate IsEarly(m: InputMsg) {
    m.log != [] && m.log[0].round != m.round
  }

  ghost predicate LetterOk(m: InputMsg, round: int) {
    Ordered(m.log, m.round) && m.round <= round
  }

  /** In every run: input and letters are in order, none is from the future, and only between writing a sync and
      clearing the input does the client hold input of an earlier round. */
  ghost predicate Aged(p: FinePeer) {
    && Ordered(p.pending, p.round)
    && (!p.receiver.SyncWritten? ==> AllOf(p.pending, p.round))
    && (p.round < 0 ==> p.pending == [])
    && (p.outbox.Letter? ==> LetterOk(p.outbox.m, p.round))
    && (forall k :: 0 <= k < |p.toServer| ==> LetterOk(p.toServer[k], p.round))
  }

  ghost predicate FineSound(s: FineState) {
    FineOk(s) && Aged(s.first) && Aged(s.second)
  }

  lemma RestIsAged(p: FinePeer)
    requires Aged(p) && p.toServer != []
    ensures forall k :: 0 <= k < |p.toServer[1..]| ==> LetterOk(p.toServer[1..][k], p.round)
  {
    assert forall k :: 0 <= k < |p.toServer[1..]| ==> p.toServer[1..][k] == p.toServer[k + 1];
  }

  lemma LaterIsAged(p: FinePeer, round: int)
    requires Aged(p) && p.round <= round
    ensures Ordered(p.pending, round)
    ensures p.outbox.Letter? ==> LetterOk(p.outbox.m, round)
    ensures forall k :: 0 <= k < |p.toServer| ==> LetterOk(p.toServer[k], round)
  {
  }

  lemma MovingInputKeepsAged(sync: int, p: FinePeer, a: Section, posted: int)
    requires FinePeerOk(p, posted) && Aged(p) && CanPeer(p, a) && MovesInput(a)
    ensures Aged(AfterPeer(sync, p, a))
  {
    if a.Check? {
      RestIsAged(p);
    }
  }

  lemma ReadingNotesKeepsAged(sync: int, p: FinePeer, a: Section, posted: int)
    requires FinePeerOk(p, posted) && Aged(p) && CanPeer(p, a) && !MovesInput(a)
    ensures Aged(AfterPeer(sync, p, a))
  {
    if a.Join? {
      LaterIsAged(p, p.toClient[0].round);
    } else if a.WriteSync? {
      LaterIsAged(p, p.receiver.note.round);
    }
  }

  lemma PeerSectionKeepsAged(sync: int, p: FinePeer, a: Section, posted: int)
    requires FinePeerOk(p, posted) && Aged(p) && CanPeer(p, a)
    ensures Aged(AfterPeer(sync, p, a))
  {
    if MovesInput(a) {
      MovingInputKeepsAged(sync, p, a, posted);
    } else {
      ReadingNotesKeepsAged(sync, p, a, posted);
    }
  }

  lemma WithAgedPeer(s: FineState, i: int, p: FinePeer)
    requires Aged(s.first) && Aged(s.second) && Aged(p)
    ensures Aged(s.With(i, p).first) && Aged(s.With(i, p).second)
  {
  }

  lemma ServerSectionKeepsAged(s: FineState, a: Section)
    requires Aged(s.first) && Aged(s.second) && OfServer(a) && CanServer(s.ticker, a)
    ensures Aged(AfterServer(s, a).first) && Aged(AfterServer(s, a).second)
  {
  }

  lemma SectionKeepsSound(s: FineState, a: Section)
    requires FineSound(s) && Can(s, a)
    ensures FineSound(After(s, a))
  {
    SectionKeepsOk(s, a);
    if OfServer(a) {
      ServerSectionKeepsAged(s, a);
    } else {
      PeerOfOk(s, a.i);
      PeerSectionKeepsAged(s.sync, s.Peer(a.i), a, Posted(s, a.i));
      WithAgedPeer(s, a.i, AfterPeer(s.sync, s.Peer(a.i), a));
    }
  }

  lemma {:induction false} NotesGoUp(ch: seq<Note>, from: int, to: int)
    requires Notes(ch, from, to)
    ensures from <= to
    decreases |ch|
  {
    if ch != [] {
      NotesGoUp(ch[1..], if ch[0].isInit then from + 1 else from, to);
    }
  }

  /** A letter waiting at the server is of the server's round at the latest. */
  lemma LettersAreNotAhead(s: FineState, i: int)
    requires FineSound(s) && 0 <= i < 2 && s.Peer(i).toServer != []
    ensures LetterOk(s.Peer(i).toServer[0], s.round)
  {
    PeerOfOk(s, i);
    NotesGoUp(s.Peer(i).toClient, Heard(s.Peer(i)), Posted(s, i));
  }

  // ---------------------------------------------------------------- at the server

  /** What the server has checked or credited was typed in the server's round. */
  ghost predicate ServerCleanPeer(p: FinePeer, round: int) {
    (p.passed.Letter? ==> AllOf(p.passed.m.log, round)) && AllOf(p.accepted, round)
  }

  ghost predicate ServerClean(s: FineState) {
    ServerCleanPeer(s.first, s.round) && ServerCleanPeer(s.second, s.round)
  }

  /** A goal is counted while input is checked but not credited, or credited since the drain. */
  predicate CountsTooEarly(p: FinePeer, a: Section) {
    a.Count? && ((p.passed.Letter? && p.passed.m.log != []) || p.accepted != [])
  }

  /** A letter of the current sync is taken that is not empty, and of another round, or early. */
  predicate TakesForeign(sync: int, round: int, p: FinePeer, a: Section)
    requires a.Check? ==> p.toServer != []
  {
    a.Check? && var m := p.toServer[0]; m.packet.sync == sync && m.log != [] && (m.round != round || IsEarly(m))
  }

  /** The section brings input of one round into another. */
  predicate IsCrossing(s: FineState, a: Section)
    requires Can(s, a)
  {
    if OfServer(a) then CountsTooEarly(s.first, a) || CountsTooEarly(s.second, a)
    else TakesForeign(s.sync, s.round, s.Peer(a.i), a)
  }

  lemma CountKeepsServerCleanIff(p: FinePeer, round: int)
    requires ServerCleanPeer(p, round)
    ensures ServerCleanPeer(p, round + 1) <==> !CountsTooEarly(p, Count)
  {
    AllOfTwo(p.accepted, round, round + 1);
    if p.passed.Letter? {
      AllOfTwo(p.passed.m.log, round, round + 1);
    }
  }

  /** A letter that is not ahead is all of the server's round exactly if it is empty, or neither of another round
      nor early. */
  lemma LetterIsCurrentIff(m: InputMsg, round: int)
    requires LetterOk(m, round)
    ensures AllOf(m.log, round) <==> m.log == [] || (m.round == round && !IsEarly(m))
  {
    OldestDecides(m.log, m.round);
    if m.log != [] && m.round != round {
      assert m.log[0].round <= m.round;
    }
  }

  lemma PeerKeepsServerCleanIff(sync: int, round: int, p: FinePeer, a: Section)
    requires ServerCleanPeer(p, round) && CanPeer(p, a)
    requires a.Check? ==> LetterOk(p.toServer[0], round)
    ensures ServerCleanPeer(AfterPeer(sync, p, a), round) <==> !TakesForeign(sync, round, p, a)
  {
    if a.Check? {
      LetterIsCurrentIff(p.toServer[0], round);
    }
  }

  lemma PutServerCleanIff(s: FineState, i: int, p: FinePeer)
    requires ServerClean(s) && 0 <= i < 2
    ensures ServerClean(s.With(i, p)) <==> ServerCleanPeer(p, s.round)
  {
  }

  lemma SectionKeepsServerCleanIff(s: FineState, a: Section)
    requires FineSound(s) && ServerClean(s) && Can(s, a)
    ensures ServerClean(After(s, a)) <==> !IsCrossing(s, a)
  {
    if a.Count? {
      CountKeepsServerCleanIff(s.first, s.round);
      CountKeepsServerCleanIff(s.second, s.round);
    } else if !OfServer(a) {
      var p := s.Peer(a.i);
      assert ServerCleanPeer(p, s.round);
      if a.Check? {
        LettersAreNotAhead(s, a.i);
      }
      PeerKeepsServerCleanIff(s.sync, s.round, p, a);
      PutServerCleanIff(s, a.i, AfterPeer(s.sync, p, a));
    }
  }

  ghost predicate CrossingFree(s: FineState, run: seq<Section>)
    decreases |run|
  {
    run != [] ==> Can(s, run[0]) && !IsCrossing(s, run[0]) && CrossingFree(After(s, run[0]), run[1..])
  }

  ghost predicate ServerCleanRun(s: FineState, run: seq<Section>)
    decreases |run|
  {
    ServerClean(s) && (run != [] ==> Can(s, run[0]) && ServerCleanRun(After(s, run[0]), run[1..]))
  }

  /** Every input is checked, credited and drained in the round it was typed in, all along a run, if and only if no
      section of the run brings input across. */
  lemma {:induction false} ServerCleanIffCrossingFree(s: FineState, run: seq<Section>, end: FineState)
    requires FineSound(s) && ServerClean(s) && IsFineRun(s, run, end)
    ensures ServerCleanRun(s, run) <==> CrossingFree(s, run)
    decreases |run|
  {
    if run != [] {
      SectionKeepsSound(s, run[0]);
      SectionKeepsServerCleanIff(s, run[0]);
      if ServerClean(After(s, run[0])) {
        ServerCleanIffCrossingFree(After(s, run[0]), run[1..], end);
      }
    }
  }

  // ---------------------------------------------------------------- in the whole system

  /** Beyond the server: no letter on its way is early. */
  ghost predicate CleanPeer(p: FinePeer, round: int) {
    && ServerCleanPeer(p, round)
    && (p.outbox.Letter? ==> !IsEarly(p.outbox.m))
    && (forall k :: 0 <= k < |p.toServer| ==> !IsEarly(p.toServer[k]))
  }

  ghost predicate Clean(s: FineState) {
    CleanPeer(s.first, s.round) && CleanPeer(s.second, s.round)
  }

  /** A client that has just connected, with nothing typed and nothing sent. */
  ghost predicate IsUntouched(p: FinePeer) {
    p.pending == [] && p.toServer == [] && p.accepted == [] && p.outbox.Nothing? && p.passed.Nothing?
  }

  lemma UntouchedIsClean(p: FinePeer, round: int)
    requires IsUntouched(p)
    ensures Aged(p) && CleanPeer(p, round)
  {
  }

  lemma UntouchedIsSound(s: FineState)
    requires FineOk(s) && IsUntouched(s.first) && IsUntouched(s.second)
    ensures FineSound(s) && ServerClean(s) && Clean(s)
  {
    UntouchedIsClean(s.first, s.round);
    UntouchedIsClean(s.second, s.round);
  }

  lemma BeginIsUntouched()
    ensures IsUntouched(BEGIN.first) && IsUntouched(BEGIN.second)
  {
  }

  lemma BeginIsSound()
    ensures FineSound(BEGIN) && ServerClean(BEGIN) && Clean(BEGIN)
  {
    BeginIsOk();
    BeginIsUntouched();
    UntouchedIsSound(BEGIN);
  }

  /** The network thread collects after the new sync is written and before the old input is cleared, with input
      typed before the one and after the other. */
  predicate CollectsTooEarly(p: FinePeer, a: Section) {
    a.Collect? && p.receiver.SyncWritten? && p.pending != [] && p.pending[0].round != p.round
  }

  /** A letter of another round is taken for a current one. */
  predicate ChecksStale(sync: int, round: int, p: FinePeer, a: Section)
    requires a.Check? ==> p.toServer != []
  {
    a.Check? && p.toServer[0].packet.sync == sync && p.toServer[0].round != round && p.toServer[0].log != []
  }

  predicate IsRace(s: FineState, a: Section)
    requires Can(s, a)
  {
    if OfServer(a) then CountsTooEarly(s.first, a) || CountsTooEarly(s.second, a)
    else CollectsTooEarly(s.Peer(a.i), a) || ChecksStale(s.sync, s.round, s.Peer(a.i), a)
  }

  lemma CheckKeepsCleanIff(sync: int, round: int, p: FinePeer, a: Section)
    requires CleanPeer(p, round) && CanPeer(p, a) && a.Check? && LetterOk(p.toServer[0], round)
    ensures CleanPeer(AfterPeer(sync, p, a), round) <==> !ChecksStale(sync, round, p, a)
  {
    LetterIsCurrentIff(p.toServer[0], round);
    assert forall k :: 0 <= k < |p.toServer[1..]| ==> p.toServer[1..][k] == p.toServer[k + 1];
  }

  lemma PeerKeepsCleanIff(sync: int, round: int, p: FinePeer, a: Section)
    requires Aged(p) && CleanPeer(p, round) && CanPeer(p, a)
    requires a.Check? ==> LetterOk(p.toServer[0], round)
    ensures CleanPeer(AfterPeer(sync, p, a), round) <==> !(CollectsTooEarly(p, a) || ChecksStale(sync, round, p, a))
  {
    if a.Check? {
      CheckKeepsCleanIff(sync, round, p, a);
    }
  }

  lemma PutCleanIff(s: FineState, i: int, p: FinePeer)
    requires Clean(s) && 0 <= i < 2
    ensures Clean(s.With(i, p)) <==> CleanPeer(p, s.round)
  {
  }

  lemma SectionKeepsCleanIff(s: FineState, a: Section)
    requires FineSound(s) && Clean(s) && Can(s, a)
    ensures Clean(After(s, a)) <==> !IsRace(s, a)
  {
    if a.Count? {
      CountKeepsServerCleanIff(s.first, s.round);
      CountKeepsServerCleanIff(s.second, s.round);
    } else if !OfServer(a) {
      var p := s.Peer(a.i);
      assert CleanPeer(p, s.round) && Aged(p);
      if a.Check? {
        LettersAreNotAhead(s, a.i);
      }
      PeerKeepsCleanIff(s.sync, s.round, p, a);
      PutCleanIff(s, a.i, AfterPeer(s.sync, p, a));
    }
  }

  ghost predicate RaceFree(s: FineState, run: seq<Section>)
    decreases |run|
  {
    run != [] ==> Can(s, run[0]) && !IsRace(s, run[0]) && RaceFree(After(s, run[0]), run[1..])
  }

  ghost predicate CleanRun(s: FineState, run: seq<Section>)
    decreases |run|
  {
    Clean(s) && (run != [] ==> Can(s, run[0]) && CleanRun(After(s, run[0]), run[1..]))
  }

  /** No letter is early, and the server is clean, all along a run, if and only if no section of the run is a race. */
  lemma {:induction false} CleanIffRaceFree(s: FineState, run: seq<Section>, end: FineState)
    requires FineSound(s) && Clean(s) && IsFineRun(s, run, end)
    ensures CleanRun(s, run) <==> RaceFree(s, run)
    decreases |run|
  {
    if run != [] {
      SectionKeepsSound(s, run[0]);
      SectionKeepsCleanIff(s, run[0]);
      if Clean(After(s, run[0])) {
        CleanIffRaceFree(After(s, run[0]), run[1..], end);
      }
    }
  }

  /** In every interleaving from the start of a match. */
  lemma FineRunIsSound(run: seq<Section>, end: FineState)
    requires IsFineRun(BEGIN, run, end)
    ensures FineSound(end)
  {
    BeginIsSound();
    FineRunKeepsSound(BEGIN, run, end);
  }

  lemma {:induction false} FineRunKeepsSound(s: FineState, run: seq<Section>, end: FineState)
    requires FineSound(s) && IsFineRun(s, run, end)
    ensures FineSound(end)
    decreases |run|
  {
    if run != [] {
      SectionKeepsSound(s, run[0]);
      FineRunKeepsSound(After(s, run[0]), run[1..], end);
    }
  }

  // ---------------------------------------------------------------- the races are real

  ghost predicate FineReachable(s: FineState) {
    exists run :: IsFineRun(BEGIN, run, s)
  }

  lemma {:induction false} RunAppend(s: FineState, run: seq<Section>, end: FineState, a: Section)
    requires IsFineRun(s, run, end) && Can(end, a)
    ensures IsFineRun(s, run + [a], After(end, a))
    decreases |run|
  {
    if run == [] {
      assert [a][1..] == [];
    } else {
      assert (run + [a])[1..] == run[1..] + [a];
      RunAppend(After(s, run[0]), run[1..], end, a);
    }
  }

  lemma ReachOn(s: FineState, a: Section) returns (s': FineState)
    requires FineReachable(s) && Can(s, a)
    ensures s' == After(s, a) && FineReachable(s')
  {
    var run :| IsFineRun(BEGIN, run, s);
    RunAppend(BEGIN, run, s, a);
    s' := After(s, a);
  }

  /** The first client has joined and typed for ten milliseconds. */
  ghost predicate HasTypedTen(s: FineState) {
    && FineReachable(s) && s.ticker.Resting? && s.round == 0 && s.sync == 0
    && s.first == NEW_PEER.(toClient := [], round := 0, inputMs := 10, shown := 10, pending := [Contribution(0, 10)],
                            generated := 10)
  }

  lemma TypeTen() returns (s: FineState)
    ensures HasTypedTen(s)
  {
    assert IsFineRun(BEGIN, [], BEGIN);
    s := ReachOn(BEGIN, Join(0));
    s := ReachOn(s, Type(0, 10));
    assert [] + [Contribution(0, 10)] == [Contribution(0, 10)];
  }

  /** ... and has sent them; they wait at the server. */
  ghost predicate HasSentTen(s: FineState, ticker: Ticker) {
    && FineReachable(s) && s.ticker == ticker && s.round == 0 && s.sync == 0
    && s.first.passed.Nothing? && s.first.accepted == [] && s.first.serverMs == 0 && s.first.height == 0
    && s.first.toServer == [InputMsg(PacketInput(0, 10), 0, [Contribution(0, 10)])]
  }

  lemma SendTen() returns (s: FineState)
    ensures HasSentTen(s, Resting)
  {
    var typed := TypeTen();
    TenIsCollected(typed);
    var collected := ReachOn(typed, Collect(0));
    s := ShipTen(collected);
  }

  /** What is collected is in the network thread's hands. */
  ghost predicate HasCollectedTen(s: FineState) {
    && s.ticker.Resting? && s.round == 0 && s.sync == 0
    && s.first.passed.Nothing? && s.first.accepted == [] && s.first.serverMs == 0 && s.first.height == 0
    && s.first.toServer == [] && s.first.outbox == Letter(InputMsg(PacketInput(0, 10), 0, [Contribution(0, 10)]))
  }

  lemma TenIsCollected(s: FineState)
    requires HasTypedTen(s)
    ensures Can(s, Collect(0)) && HasCollectedTen(After(s, Collect(0)))
  {
  }

  lemma ShipTen(s: FineState) returns (s': FineState)
    requires FineReachable(s) && HasCollectedTen(s)
    ensures HasSentTen(s', Resting)
  {
    s' := ReachOn(s, Ship(0));
    assert [] + [s.first.outbox.m] == [s.first.outbox.m];
  }

  /** The server is in the second round and holds ten milliseconds of the first. */
  ghost predicate HoldsForeign(s: FineState) {
    FineReachable(s) && s.round == 1 && s.first.accepted == [Contribution(0, 10)] && s.first.serverMs == 10
  }

  lemma NothingToDrain(p: FinePeer)
    requires p.serverMs == 0 && p.accepted == []
    ensures DrainedPeer(p) == p
  {
  }

  lemma DrainNothing(s: FineState) returns (s': FineState)
    requires FineReachable(s) && s.ticker.Resting? && s.sync == 0 && s.round == 0
    requires s.first.serverMs == 0 && s.first.accepted == []
    ensures FineReachable(s') && s'.first == s.first
    ensures s'.ticker.HasDrained? && s'.sync == 0 && s'.round == 0
  {
    NothingToDrain(s.first);
    s' := ReachOn(s, Drain);
  }

  lemma CountGoal(s: FineState) returns (s': FineState)
    requires FineReachable(s) && s.ticker.HasDrained? && s.sync == 0 && s.round == 0 && s.first.height == 0
    ensures Can(s, Count) && s' == After(s, Count)
    ensures FineReachable(s') && s'.first == s.first
    ensures s'.ticker.HasCounted? && s'.sync == 1 && s'.round == 1
  {
    s' := ReachOn(s, Count);
  }

  /** Input is drained before the goal is counted: what is credited in between outlives the round. */
  lemma CreditedSinceTheDrain() returns (s: FineState, s': FineState)
    ensures FineReachable(s) && Can(s, Count) && s' == After(s, Count)
    ensures IsCrossing(s, Count) && s.first.accepted != [] && HoldsForeign(s')
  {
    s := SendTen();
    s := DrainNothing(s);
    s := ReachOn(s, Check(0));
    s := ReachOn(s, Credit(0));
    s' := CountGoal(s);
  }

  /** A letter is checked in one section and credited in another: a goal may be counted in between. */
  lemma CheckedBeforeTheGoal() returns (s: FineState, s': FineState)
    ensures FineReachable(s) && Can(s, Count) && IsCrossing(s, Count) && s.first.passed.Letter?
    ensures Can(After(s, Count), Credit(0)) && s' == After(After(s, Count), Credit(0)) && HoldsForeign(s')
  {
    s := SendTen();
    s := DrainNothing(s);
    s := ReachOn(s, Check(0));
    var counted := CountGoal(s);
    s' := ReachOn(counted, Credit(0));
  }

  lemma PostInit(s: FineState) returns (s': FineState)
    requires FineReachable(s) && s.ticker.HasCounted? && s.sync == 1 && s.round == 1 && s.first.toClient == []
    ensures FineReachable(s') && s'.first == s.first.(toClient := [Note(true, 1, 1)]) && s'.sync == 1 && s'.round == 1
  {
    s' := ReachOn(s, Compose);
    s' := ReachOn(s', Post);
    assert [] + [Note(true, 1, 1)] == [Note(true, 1, 1)];
  }

  /** The new sync is written in one section and the old input cleared in another: old input may be collected
      under the new sync in between. */
  lemma CollectedInBetween() returns (s: FineState)
    ensures FineReachable(s) && Can(s, Collect(0)) && CollectsTooEarly(s.first, Collect(0))
    ensures s.sync == 1 && s.round == 1 && s.first.sync == 1 && s.first.round == 1
    ensures s.first.inputMs == 10 && s.first.pending == [Contribution(0, 10)]
    ensures s.first.toServer == [] && s.first.passed.Nothing? && s.first.accepted == [] && s.first.serverMs == 0
  {
    s := TypeTen();
    s := DrainNothing(s);
    s := CountGoal(s);
    s := PostInit(s);
    s := ReachOn(s, TakeInit(0));
    s := ReachOn(s, WriteSync(0));
  }

  /** ... and the server takes it for input of the new round. */
  lemma CollectedArrives() returns (s: FineState, s': FineState)
    ensures FineReachable(s) && Can(s, Check(0)) && IsCrossing(s, Check(0)) && IsEarly(s.first.toServer[0])
    ensures Can(After(s, Check(0)), Credit(0)) && s' == After(After(s, Check(0)), Credit(0)) && HoldsForeign(s')
  {
    s := CollectedInBetween();
    s := ReachOn(s, Collect(0));
    s := ReachOn(s, Ship(0));
    s' := ReachOn(s, Check(0));
    s' := ReachOn(s', Credit(0));
  }

  /** Each of the three races can happen, and each leaves input of one round in the server's hands in the next. */
  lemma RacesAreReal()
    ensures exists s :: FineReachable(s) && Can(s, Count) && s.first.accepted != [] && HoldsForeign(After(s, Count))
    ensures exists s ::
              && FineReachable(s) && Can(s, Count) && s.first.passed.Letter?
              && Can(After(s, Count), Credit(0)) && HoldsForeign(After(After(s, Count), Credit(0)))
    ensures exists s ::
              && FineReachable(s) && Can(s, Check(0)) && IsEarly(s.first.toServer[0])
              && Can(After(s, Check(0)), Credit(0)) && HoldsForeign(After(After(s, Check(0)), Credit(0)))
  {
    var c, c' := CreditedSinceTheDrain();
    var d, d' := CheckedBeforeTheGoal();
    var e, e' := CollectedArrives();
  }
}
