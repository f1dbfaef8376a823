/** `src/lib/server.c`: the connected clients and what happens when one disconnects. */
module Server {
  import opened TsQueue

  /** `client_t`; the server hands out the socket as the id. */
  datatype Client = Client(fd: int, id: int)

  /** The queue without the first client of that id, or unchanged when there is none. */
  function WithoutFirst(clients: seq<Client>, id: int): seq<Client> {
    if clients == [] then []
    else if clients[0].id == id then clients[1..]
    else [clients[0]] + WithoutFirst(clients[1..], id)
  }

  predicate HasId(clients: seq<Client>, id: int) {
    exists i :: 0 <= i < |clients| && clients[i].id == id
  }

  /** Position `k` holds the first client of that id, or is the end when there is none. */
  ghost predicate IsFirstWithId(clients: seq<Client>, id: int, k: nat) {
    && k <= |clients|
    && (forall i :: 0 <= i < k ==> clients[i].id != id)
    && (k < |clients| ==> clients[k].id == id)
  }

  /** Dropping the position found drops the first client of that id and keeps everyone else in order. */
  lemma {:induction false} WithoutFirstDropsPosition(clients: seq<Client>, id: int, k: nat)
    requires IsFirstWithId(clients, id, k)
    ensures WithoutFirst(clients, id) == if k < |clients| then clients[..k] + clients[k + 1..] else clients
    ensures HasId(clients, id) <==> k < |clients|
  {
    if k == 0 {
      assert clients != [] ==> clients[..0] + clients[1..] == clients[1..];
    } else {
      WithoutFirstDropsPosition(clients[1..], id, k - 1);
      assert clients == [clients[0]] + clients[1..];
      if k < |clients| {
        assert clients[1..][..k - 1] == clients[1..k] && clients[1..][k..] == clients[k + 1..];
        assert clients[..k] == [clients[0]] + clients[1..k];
      }
    }
  }

  /** With distinct ids, afterwards nobody has that id and nobody else is gone. */
  lemma {:induction false} WithoutFirstRemovesId(clients: seq<Client>, id: int)
    requires forall i, j :: 0 <= i < j < |clients| ==> clients[i].id != clients[j].id
    ensures forall c :: c in WithoutFirst(clients, id) <==> c in clients && c.id != id
  {
    if clients != [] {
      var rest := clients[1..];
      assert forall i :: 0 <= i < |rest| ==> rest[i] == clients[i + 1];
      WithoutFirstRemovesId(rest, id);
      assert forall c :: c in clients <==> c == clients[0] || c in rest;
    }
  }

  /** `server_handle_disconnection`; `closed` tells whether the client's socket was closed. */
  method HandleDisconnection(clients: Queue<Client>, client: Client) returns (closed: bool)
    requires clients.Valid()
    modifies clients.Repr
    ensures clients.Valid() && clients.Repr == old(clients.Repr)
    ensures clients.contents == WithoutFirst(old(clients.contents), client.id)
    ensures closed == HasId(old(clients.contents), client.id)
    ensures |clients.freed| == |old(clients.freed)| + if closed then 1 else 0
  {
    var clientNode: Node?<Client> := null;
    var p := clients.head;
    ghost var k := 0;
    while p != null
      invariant k <= |clients.nodes| && p == At(clients.nodes, k)
      invariant clientNode == null
      invariant forall i :: 0 <= i < k ==> clients.contents[i].id != client.id
      decreases |clients.nodes| - k
    {
      if p.data.id == client.id {
        clientNode := p;
        break;
      }
      p := p.next;
      k := k + 1;
    }
    WithoutFirstDropsPosition(clients.contents, client.id, k);
    closed := clientNode != null;
    if clientNode != null {
      clients.RemoveNolock(clientNode.prev, clientNode.next, k);
    }
  }
}
