/** `src/lib/matchmaking.c`: pairing waiting clients into rooms. */
module Matchmaking {
  import opened TsQueue
  import opened Server

  const ROOM_SIZE := 2

  datatype Room = Room(id: int, clients: seq<Client>, isDisbanded: bool)

  /** A room as the matcher makes it: full, named after its first client, open. */
  ghost predicate IsNewRoom(room: Room) {
    |room.clients| == ROOM_SIZE && room.id == room.clients[0].id && !room.isDisbanded
  }

  ghost predicate AreNewRooms(rooms: seq<Room>) {
    forall i :: 0 <= i < |rooms| ==> IsNewRoom(rooms[i])
  }

  /** Everyone in the rooms, in order of rooms and of seats. */
  ghost function Seated(rooms: seq<Room>): seq<Client> {
    if rooms == [] then [] else Seated(rooms[..|rooms| - 1]) + rooms[|rooms| - 1].clients
  }

  lemma SeatedInOneMore(rooms: seq<Room>, room: Room)
    ensures Seated(rooms + [room]) == Seated(rooms) + room.clients
  {
    assert (rooms + [room])[..|rooms|] == rooms;
  }

  lemma MadeRoomsGrow(made: seq<Room>, room: Room, waiting: seq<Client>, left: seq<Client>)
    requires AreNewRooms(made) && IsNewRoom(room) && room.clients + left == waiting
    ensures AreNewRooms(made + [room])
    ensures Seated(made + [room]) + left == Seated(made) + waiting
  {
    SeatedInOneMore(made, room);
    assert (Seated(made) + room.clients) + left == Seated(made) + (room.clients + left);
  }

  /** `rooms` is what the matcher makes of `waiting`, and `left` whom it leaves. */
  ghost predicate IsPairing(waiting: seq<Client>, rooms: seq<Room>, left: seq<Client>) {
    AreNewRooms(rooms) && Seated(rooms) + left == waiting && |left| < ROOM_SIZE
  }

  lemma {:induction false} SeatedCount(rooms: seq<Room>)
    requires AreNewRooms(rooms)
    ensures |Seated(rooms)| == ROOM_SIZE * |rooms|
  {
    if rooms != [] {
      SeatedCount(rooms[..|rooms| - 1]);
    }
  }

  /** The order of arrival alone decides who meets whom: there is one pairing of a queue. */
  lemma {:induction false} PairingIsUnique(waiting: seq<Client>, r: seq<Room>, left: seq<Client>, r': seq<Room>,
                                           left': seq<Client>)
    requires IsPairing(waiting, r, left) && IsPairing(waiting, r', left')
    ensures r == r' && left == left'
  {
    SeatedCount(r);
    SeatedCount(r');
    assert |waiting| == ROOM_SIZE * |r| + |left|;
    assert |waiting| == ROOM_SIZE * |r'| + |left'|;
    assert waiting[..|Seated(r)|] == Seated(r) && waiting[..|Seated(r)|] == Seated(r');
    assert waiting[|Seated(r)|..] == left && waiting[|Seated(r)|..] == left';
    SameSeatsSameRooms(r, r');
  }

  lemma {:induction false} SameSeatsSameRooms(r: seq<Room>, r': seq<Room>)
    requires AreNewRooms(r) && AreNewRooms(r') && Seated(r) == Seated(r')
    ensures r == r'
  {
    SeatedCount(r);
    SeatedCount(r');
    if r != [] {
      var n := |r| - 1;
      SeatedCount(r[..n]);
      SeatedCount(r'[..n]);
      assert Seated(r)[..ROOM_SIZE * n] == Seated(r[..n]) && Seated(r')[..ROOM_SIZE * n] == Seated(r'[..n]);
      assert Seated(r)[ROOM_SIZE * n..] == r[n].clients && Seated(r')[ROOM_SIZE * n..] == r'[n].clients;
      SameSeatsSameRooms(r[..n], r'[..n]);
      assert r == r[..n] + [r[n]] && r' == r'[..n] + [r'[n]];
    }
  }

  /** Who sits where: the arrivals two by two, in open rooms named after the first, an odd one left over. */
  ghost predicate SeatsNeighbours(waiting: seq<Client>, rooms: seq<Room>, left: seq<Client>) {
    && |rooms| == |waiting| / 2 && left == waiting[2 * |rooms|..]
    && forall k :: 0 <= k < |rooms| ==>
         rooms[k] == Room(waiting[2 * k].id, [waiting[2 * k], waiting[2 * k + 1]], false)
  }

  lemma {:induction false} SeatsByTwos(rooms: seq<Room>, k: nat)
    requires AreNewRooms(rooms) && k < |rooms|
    ensures |Seated(rooms)| == 2 * |rooms|
    ensures rooms[k].clients == [Seated(rooms)[2 * k], Seated(rooms)[2 * k + 1]]
  {
    var n := |rooms| - 1;
    SeatedCount(rooms);
    SeatedCount(rooms[..n]);
    if k < n {
      SeatsByTwos(rooms[..n], k);
    }
  }

  /** A pairing puts neighbours in the queue into one room. */
  lemma NeighboursMeet(waiting: seq<Client>, rooms: seq<Room>, left: seq<Client>)
    requires IsPairing(waiting, rooms, left)
    ensures SeatsNeighbours(waiting, rooms, left)
  {
    SeatedCount(rooms);
    forall k | 0 <= k < |rooms|
      ensures rooms[k] == Room(waiting[2 * k].id, [waiting[2 * k], waiting[2 * k + 1]], false)
    {
      SeatsByTwos(rooms, k);
    }
  }

  /** The first players leave the queue for the seats of one room. */
  method FillRoom(clients: Queue<Client>) returns (seats: seq<Client>)
    requires clients.Valid() && |clients.contents| >= ROOM_SIZE
    modifies clients.Repr
    ensures clients.Valid() && clients.Repr == old(clients.Repr)
    ensures |seats| == ROOM_SIZE && seats + clients.contents == old(clients.contents)
  {
    seats := [];
    for i := 0 to ROOM_SIZE
      invariant clients.Valid() && clients.Repr == old(clients.Repr)
      invariant |seats| == i && seats + clients.contents == old(clients.contents)
    {
      seats := seats + [clients.head.data];
      clients.Dequeue();
    }
  }

  /** One room is made, filled from the front of the queue and listed. */
  method MakeRoom(clients: Queue<Client>, rooms: Queue<Room>) returns (room: Room)
    requires clients.Valid() && rooms.Valid() && clients.Repr !! rooms.Repr
    requires |clients.contents| >= ROOM_SIZE
    modifies clients.Repr, rooms.Repr
    ensures clients.Valid() && rooms.Valid()
    ensures clients.Repr == old(clients.Repr) && fresh(rooms.Repr - old(rooms.Repr))
    ensures IsNewRoom(room) && rooms.contents == old(rooms.contents) + [room]
    ensures room.clients + clients.contents == old(clients.contents)
  {
    var seats := FillRoom(clients);
    room := Room(seats[0].id, seats, false);
    rooms.Enqueue(room);
  }

  /** `matchmaking_worker` from the moment it wakes up with enough players to the unlock. */
  method PairWaiting(clients: Queue<Client>, rooms: Queue<Room>) returns (ghost made: seq<Room>)
    requires clients.Valid() && rooms.Valid() && clients.Repr !! rooms.Repr
    modifies clients.Repr, rooms.Repr
    ensures clients.Valid() && rooms.Valid()
    ensures clients.Repr == old(clients.Repr) && fresh(rooms.Repr - old(rooms.Repr))
    ensures rooms.contents == old(rooms.contents) + made
    ensures IsPairing(old(clients.contents), made, clients.contents)
  {
    made := [];
    while clients.size >= ROOM_SIZE
      invariant clients.Valid() && rooms.Valid()
      invariant clients.Repr == old(clients.Repr) && fresh(rooms.Repr - old(rooms.Repr))
      invariant rooms.contents == old(rooms.contents) + made
      invariant AreNewRooms(made) && Seated(made) + clients.contents == old(clients.contents)
      decreases |clients.contents|
    {
      ghost var waiting := clients.contents;
      var room := MakeRoom(clients, rooms);
      MadeRoomsGrow(made, room, waiting, clients.contents);
      made := made + [room];
    }
  }
}
