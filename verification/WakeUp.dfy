/**
 The threads around the client queue, at the granularity of the mutex: the acceptor (`server_worker`), one short-lived
 thread per connection (`mm_on_connection`, which signals without holding the mutex), and the matcher.

 Two questions: can the matcher sleep on a full room with no signal to come, and is any player lost, doubled or
 reordered?
 */
module WakeUp {
  import opened Matchmaking

  /** One connection; `serial` is its rank of arrival (sockets, and so ids, are reused). */
  datatype Waiter = Waiter(fd: int, serial: nat)

  /** `Unlocked`: about to lock the mutex, or woken and about to lock it again. `Testing`: at the inner loop's test.
      `AboutToWait`: the test said to wait but the wait has not begun. `Pairing`: in the pairing loop. */
  datatype Matcher = Unlocked | Testing | AboutToWait | Waiting | Pairing

  /** Between enqueueing a client and spawning its thread the acceptor is `Spawning`. */
  datatype Acceptor = Accepting | Spawning

  datatype State = State(
    queue: seq<Waiter>,
    matcher: Matcher,
    acceptor: Acceptor,
    threads: nat,              // connection threads that have not signalled yet
    rooms: seq<seq<Waiter>>,
    arrivals: seq<Waiter>,     // history: everyone who connected, in order
    removed: set<Waiter>       // history: everyone dropped from the queue by a disconnection
  )

  predicate MatcherHoldsMutex(s: State) {
    s.matcher in {Testing, AboutToWait, Pairing}
  }

  const INITIAL := State([], Unlocked, Accepting, 0, [], [], {})

  datatype Event =
    | Arrive(fd: int)          // accept, lock, enqueue, unlock
    | Spawn                    // pthread_create
    | Signal                   // pthread_cond_signal by one connection thread
    | SpuriousWake
    | Lock
    | Test                     // the condition of the inner loop
    | Wait                     // pthread_cond_wait releases the mutex and blocks, in one step
    | MakeRoom
    | Unlock
    | Disconnect(k: nat)       // lock, search, unlink, unlock

  predicate Enabled(s: State, e: Event) {
    match e
    case Arrive(_) => s.acceptor.Accepting? && !MatcherHoldsMutex(s)
    case Spawn => s.acceptor.Spawning?
    case Signal => s.threads > 0
    case SpuriousWake => s.matcher.Waiting?
    case Lock => s.matcher.Unlocked?
    case Test => s.matcher.Testing?
    case Wait => s.matcher.AboutToWait?
    case MakeRoom => s.matcher.Pairing? && |s.queue| >= ROOM_SIZE
    case Unlock => s.matcher.Pairing? && |s.queue| < ROOM_SIZE
    case Disconnect(k) => !MatcherHoldsMutex(s) && k < |s.queue|
  }

  function Next(s: State, e: Event): State
    requires Enabled(s, e)
  {
    match e
    case Arrive(fd) =>
      var w := Waiter(fd, |s.arrivals|);
      s.(queue := s.queue + [w], arrivals := s.arrivals + [w], acceptor := Spawning)
    case Spawn => s.(acceptor := Accepting, threads := s.threads + 1)
    case Signal => s.(threads := s.threads - 1, matcher := if s.matcher.Waiting? then Unlocked else s.matcher)
    case SpuriousWake => s.(matcher := Unlocked)
    case Lock => s.(matcher := Testing)
    case Test => s.(matcher := if |s.queue| < ROOM_SIZE then AboutToWait else Pairing)
    case Wait => s.(matcher := Waiting)
    case MakeRoom => s.(rooms := s.rooms + [s.queue[..ROOM_SIZE]], queue := s.queue[ROOM_SIZE..])
    case Unlock => s.(matcher := Unlocked)
    case Disconnect(k) => s.(queue := s.queue[..k] + s.queue[k + 1..], removed := s.removed + {s.queue[k]})
  }

  /** Signals still to come: threads that have not signalled, and the one about to be spawned. */
  function PendingSignals(s: State): nat {
    s.threads + if s.acceptor.Spawning? then 1 else 0
  }

  /** Everyone in the rooms, in order. */
  ghost function InRooms(rooms: seq<seq<Waiter>>): seq<Waiter> {
    if rooms == [] then [] else InRooms(rooms[..|rooms| - 1]) + rooms[|rooms| - 1]
  }

  /** The arrivals without the removed ones, in order. */
  ghost function Kept(arrivals: seq<Waiter>, removed: set<Waiter>): seq<Waiter> {
    if arrivals == [] then []
    else Kept(arrivals[..|arrivals| - 1], removed) +
         if arrivals[|arrivals| - 1] in removed then [] else [arrivals[|arrivals| - 1]]
  }

  ghost predicate NoLostWakeUp(s: State) {
    && (s.matcher.AboutToWait? ==> |s.queue| < ROOM_SIZE)
    && (s.matcher.Waiting? ==> |s.queue| <= ROOM_SIZE - 1 + PendingSignals(s))
  }

  /** The rooms, one after the other, and then the queue, are the arrivals that did not disconnect while waiting. */
  ghost predicate Conserved(s: State) {
    && (forall i :: 0 <= i < |s.arrivals| ==> s.arrivals[i].serial == i)
    && InRooms(s.rooms) + s.queue == Kept(s.arrivals, s.removed)
    && (forall i :: 0 <= i < |s.rooms| ==> |s.rooms[i]| == ROOM_SIZE)
    && (forall w :: w in s.removed ==> w in s.arrivals)
  }

  ghost predicate Invariant(s: State) {
    NoLostWakeUp(s) && Conserved(s)
  }

  lemma {:induction false} KeptOnesArrived(arrivals: seq<Waiter>, removed: set<Waiter>)
    requires forall i :: 0 <= i < |arrivals| ==> arrivals[i].serial == i
    ensures forall i :: 0 <= i < |Kept(arrivals, removed)| ==>
            Kept(arrivals, removed)[i] in arrivals && Kept(arrivals, removed)[i] !in removed
    ensures forall i, j :: 0 <= i < j < |Kept(arrivals, removed)| ==>
            Kept(arrivals, removed)[i].serial < Kept(arrivals, removed)[j].serial
    ensures forall i :: 0 <= i < |Kept(arrivals, removed)| ==> Kept(arrivals, removed)[i].serial < |arrivals|
  {
    if arrivals != [] {
      var before := arrivals[..|arrivals| - 1];
      KeptOnesArrived(before, removed);
      assert forall w :: w in before ==> w in arrivals;
    }
  }

  lemma {:induction false} KeptIgnoresStrangers(arrivals: seq<Waiter>, removed: set<Waiter>, w: Waiter)
    requires w !in arrivals
    ensures Kept(arrivals, removed + {w}) == Kept(arrivals, removed)
  {
    if arrivals != [] {
      KeptIgnoresStrangers(arrivals[..|arrivals| - 1], removed, w);
    }
  }

  /** Removing one more waiter takes exactly his place out of the sequence. */
  lemma {:induction false} KeptWithoutOne(arrivals: seq<Waiter>, removed: set<Waiter>, k: nat)
    requires forall i :: 0 <= i < |arrivals| ==> arrivals[i].serial == i
    requires k < |Kept(arrivals, removed)|
    ensures var kept := Kept(arrivals, removed);
            Kept(arrivals, removed + {kept[k]}) == kept[..k] + kept[k + 1..]
  {
    var kept, n := Kept(arrivals, removed), |arrivals| - 1;
    var before, last := arrivals[..n], arrivals[n];
    KeptOnesArrived(before, removed);
    if last !in removed && k == |kept| - 1 {
      assert kept[k] == last;
      assert last !in before;
      KeptIgnoresStrangers(before, removed, last);
    } else {
      KeptWithoutOne(before, removed, k);
      var shorter := Kept(before, removed);
      assert kept[k] == shorter[k];
      assert shorter[k] != last;
      if last !in removed {
        assert kept == shorter + [last];
        assert kept[..k] + kept[k + 1..] == (shorter[..k] + shorter[k + 1..]) + [last];
      }
    }
  }

  lemma KeptOneMore(arrivals: seq<Waiter>, removed: set<Waiter>, w: Waiter)
    requires w !in removed
    ensures Kept(arrivals + [w], removed) == Kept(arrivals, removed) + [w]
  {
    assert (arrivals + [w])[..|arrivals|] == arrivals;
  }

  lemma ArrivalIsConserved(s: State, fd: int)
    requires Conserved(s) && Enabled(s, Arrive(fd))
    ensures Conserved(Next(s, Arrive(fd)))
  {
    var w := Waiter(fd, |s.arrivals|);
    assert w !in s.removed;
    KeptOneMore(s.arrivals, s.removed, w);
    assert (InRooms(s.rooms) + s.queue) + [w] == InRooms(s.rooms) + (s.queue + [w]);
  }

  lemma MakeRoomIsConserved(s: State)
    requires Conserved(s) && Enabled(s, MakeRoom)
    ensures Conserved(Next(s, MakeRoom))
  {
    var room, left := s.queue[..ROOM_SIZE], s.queue[ROOM_SIZE..];
    assert (s.rooms + [room])[..|s.rooms|] == s.rooms;
    assert s.queue == room + left;
    assert (InRooms(s.rooms) + room) + left == InRooms(s.rooms) + s.queue;
  }

  lemma WithoutInSecond(first: seq<Waiter>, second: seq<Waiter>, k: nat)
    requires k < |second|
    ensures var both := first + second;
            && both[|first| + k] == second[k]
            && both[..|first| + k] + both[|first| + k + 1..] == first + (second[..k] + second[k + 1..])
  {
    var both := first + second;
    assert both[..|first| + k] == first + second[..k];
    assert both[|first| + k + 1..] == second[k + 1..];
  }

  lemma DisconnectIsConserved(s: State, k: nat)
    requires Conserved(s) && Enabled(s, Disconnect(k))
    ensures Conserved(Next(s, Disconnect(k)))
  {
    var seated := InRooms(s.rooms);
    KeptOnesArrived(s.arrivals, s.removed);
    WithoutInSecond(seated, s.queue, k);
    KeptWithoutOne(s.arrivals, s.removed, |seated| + k);
  }

  lemma StepKeepsInvariant(s: State, e: Event)
    requires Invariant(s) && Enabled(s, e)
    ensures Invariant(Next(s, e))
  {
    match e
    case Arrive(fd) => ArrivalIsConserved(s, fd);
    case MakeRoom => MakeRoomIsConserved(s);
    case Disconnect(k) => DisconnectIsConserved(s, k);
    case _ =>
  }

  /** The state after a run, if every event is possible when its turn comes. */
  ghost predicate IsRun(s: State, events: seq<Event>, end: State)
    decreases |events|
  {
    if events == [] then end == s
    else Enabled(s, events[0]) && IsRun(Next(s, events[0]), events[1..], end)
  }

  lemma {:induction false} RunKeepsInvariant(s: State, events: seq<Event>, end: State)
    requires Invariant(s) && IsRun(s, events, end)
    ensures Invariant(end)
    decreases |events|
  {
    if events != [] {
      StepKeepsInvariant(s, events[0]);
      RunKeepsInvariant(Next(s, events[0]), events[1..], end);
    }
  }

  /**
   In every interleaving: while the matcher waits, no more players are queued than one short of a room plus those whose
   signal is still to come, so with a full room there is one to come; any such signal makes it runnable; and it
   gives the mutex away (to wait or after pairing) only with less than a room waiting.
   */
  lemma NeverSleepsOnAFullRoom(events: seq<Event>, s: State)
    requires IsRun(INITIAL, events, s)
    ensures s.matcher.Waiting? ==> |s.queue| <= ROOM_SIZE - 1 + PendingSignals(s)
    ensures s.matcher.Waiting? && |s.queue| >= ROOM_SIZE ==> PendingSignals(s) > 0
    ensures s.matcher.Waiting? && s.threads > 0 ==> Next(s, Signal).matcher.Unlocked?
    ensures Enabled(s, Wait) || Enabled(s, Unlock) ==> |s.queue| < ROOM_SIZE
  {
    RunKeepsInvariant(INITIAL, events, s);
  }

  /** In every interleaving: rooms and queue are the arrivals in order minus those who left, rooms are full, and nobody
      sits in two rooms or in a room and the queue. */
  lemma NobodyIsLostOrDoubled(events: seq<Event>, s: State)
    requires IsRun(INITIAL, events, s)
    ensures InRooms(s.rooms) + s.queue == Kept(s.arrivals, s.removed)
    ensures forall i :: 0 <= i < |s.rooms| ==> |s.rooms[i]| == ROOM_SIZE
    ensures var everyone := InRooms(s.rooms) + s.queue;
            forall i, j :: 0 <= i < j < |everyone| ==> everyone[i] != everyone[j]
  {
    RunKeepsInvariant(INITIAL, events, s);
    KeptOnesArrived(s.arrivals, s.removed);
  }
}
