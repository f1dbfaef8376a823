/**
 `src/lib/ts_queue.c`: the doubly linked queue. Every operation is tied to a sequence: `nodes` is the list of
 linked nodes from head to tail, `contents` what they hold.

 The mutex is not modelled here: each method is one critical section.
 */
module TsQueue {

  class Node<T> {
    const data: T
    var prev: Node?<T>
    var next: Node?<T>

    constructor (data: T)
      ensures this.data == data && prev == null && next == null
    {
      this.data := data;
      prev, next := null, null;
    }
  }

  /** The node at position `i`, or null beyond either end. */
  ghost function At<T>(ns: seq<Node<T>>, i: int): Node?<T> {
    if 0 <= i < |ns| then ns[i] else null
  }

  ghost predicate Distinct<T>(ns: seq<Node<T>>) {
    forall i, j :: 0 <= i < j < |ns| ==> ns[i] != ns[j]
  }

  /** Neighbours point at each other and the ends at nothing. */
  ghost predicate Linked<T>(ns: seq<Node<T>>)
    reads ns
  {
    && Distinct(ns)
    && (forall i {:trigger ns[i].prev} :: 0 <= i < |ns| ==> ns[i].prev == At(ns, i - 1))
    && (forall i {:trigger ns[i].next} :: 0 <= i < |ns| ==> ns[i].next == At(ns, i + 1))
  }

  /** The neighbours of position `k` now bypass it and nothing else has changed. */
  twostate lemma LinkedWithout<T>(ns: seq<Node<T>>, new k: nat)
    requires k < |ns| && old(Linked(ns))
    requires forall i {:trigger ns[i].next} :: 0 <= i < |ns| && i != k - 1 ==> ns[i].next == old(ns[i].next)
    requires forall i {:trigger ns[i].prev} :: 0 <= i < |ns| && i != k + 1 ==> ns[i].prev == old(ns[i].prev)
    requires k > 0 ==> ns[k - 1].next == At(ns, k + 1)
    requires k + 1 < |ns| ==> ns[k + 1].prev == At(ns, k - 1)
    ensures Linked(ns[..k] + ns[k + 1..])
  {
    var rest := ns[..k] + ns[k + 1..];
    assert forall i :: 0 <= i < |rest| ==> rest[i] == ns[if i < k then i else i + 1];
  }

  /** `node` now sits between its neighbours at position `k` and nothing else has changed. */
  twostate lemma LinkedWith<T>(ns: seq<Node<T>>, new k: nat, new node: Node<T>)
    requires k <= |ns| && old(Linked(ns)) && node !in ns
    requires node.prev == At(ns, k - 1) && node.next == At(ns, k)
    requires forall i {:trigger ns[i].next} :: 0 <= i < |ns| && i != k - 1 ==> ns[i].next == old(ns[i].next)
    requires forall i {:trigger ns[i].prev} :: 0 <= i < |ns| && i != k ==> ns[i].prev == old(ns[i].prev)
    requires k > 0 ==> ns[k - 1].next == node
    requires k < |ns| ==> ns[k].prev == node
    ensures Linked(ns[..k] + [node] + ns[k..])
  {
    var more := ns[..k] + [node] + ns[k..];
    assert forall i :: 0 <= i < |more| ==> more[i] == if i < k then ns[i] else if i == k then node else ns[i - 1];
  }

  /** Where the items of a sequence are once position `k` is taken out. */
  lemma WithoutAt<X>(s: seq<X>, k: nat)
    requires k < |s|
    ensures var rest := s[..k] + s[k + 1..];
            |rest| == |s| - 1 && forall i :: 0 <= i < |rest| ==> rest[i] == s[if i < k then i else i + 1]
  {
  }

  class Queue<T> {
    var head: Node?<T>
    var tail: Node?<T>
    var size: nat
    ghost var nodes: seq<Node<T>>
    ghost var contents: seq<T>
    /** The nodes handed to the destructor so far, oldest first. */
    ghost var freed: seq<Node<T>>
    /** The queue and every node it has ever linked. */
    ghost var Repr: set<object>

    ghost predicate Valid()
      reads this, Repr
      ensures Valid() ==> this in Repr
    {
      && this in Repr
      && (forall i :: 0 <= i < |nodes| ==> nodes[i] in Repr)
      && size == |nodes|
      && head == At(nodes, 0) && tail == At(nodes, |nodes| - 1)
      && Linked(nodes)
      && |contents| == |nodes|
      && (forall i {:trigger nodes[i].data} :: 0 <= i < |nodes| ==> nodes[i].data == contents[i])
    }

    /** `ts_queue_new` */
    constructor ()
      ensures Valid() && fresh(Repr) && nodes == [] && contents == [] && freed == []
    {
      head, tail, size := null, null, 0;
      nodes, contents, freed := [], [], [];
      Repr := {this};
    }

    predicate IsEmpty()
      reads this
    {
      head == null
    }

    /** The pointer work of `__ts_queue_add`. */
    method Splice(prev: Node?<T>, next: Node?<T>, node: Node<T>, ghost k: nat)
      requires Valid() && k <= |nodes|
      requires prev == At(nodes, k - 1) && next == At(nodes, k)
      requires node !in Repr && node.prev == null && node.next == null
      modifies Repr, node
      ensures Repr == old(Repr) && nodes == old(nodes) && contents == old(contents) && freed == old(freed)
      ensures Linked(nodes[..k] + [node] + nodes[k..])
      ensures size == |nodes| + 1
      ensures head == (if k == 0 then node else nodes[0])
      ensures tail == (if k == |nodes| then node else nodes[|nodes| - 1])
    {
      assert prev == null <==> k == 0;
      assert next == null <==> k == |nodes|;
      assert prev != null && next != null ==> prev != next;
      size := size + 1;
      if IsEmpty() {
        head := node;
        tail := node;
      } else if prev == null {
        head := node;
        next.prev := node;
        node.next := next;
      } else if next == null {
        tail := node;
        prev.next := node;
        node.prev := prev;
      } else {
        prev.next := node;
        next.prev := node;
        node.prev := prev;
        node.next := next;
      }
      LinkedWith(nodes, k, node);
    }

    /** `__ts_queue_add`: link a fresh node between two neighbours, `k` being the position it takes. */
    method Add(prev: Node?<T>, next: Node?<T>, node: Node<T>, ghost k: nat)
      requires Valid() && k <= |nodes|
      requires prev == At(nodes, k - 1) && next == At(nodes, k)
      requires node !in Repr && node.prev == null && node.next == null
      modifies Repr, node
      ensures Valid() && Repr == old(Repr) + {node}
      ensures nodes == old(nodes[..k] + [node] + nodes[k..]) && freed == old(freed)
      ensures contents == old(contents[..k] + [node.data] + contents[k..])
    {
      Splice(prev, next, node, k);
      ghost var was := nodes;
      Repr := Repr + {node};
      nodes, contents := nodes[..k] + [node] + nodes[k..], contents[..k] + [node.data] + contents[k..];
      forall i | 0 <= i < |nodes|
        ensures nodes[i] in Repr && nodes[i].data == contents[i]
      {
        assert nodes[i] == if i < k then was[i] else if i == k then node else was[i - 1];
      }
    }

    /** The pointer work of `__ts_queue_remove_nolock` on a queue that is not empty; returns the node to destroy. */
    method Unsplice(prev: Node?<T>, next: Node?<T>, ghost k: nat) returns (node: Node?<T>)
      requires Valid() && k < |nodes| && prev == At(nodes, k - 1) && next == At(nodes, k + 1)
      modifies Repr
      ensures Repr == old(Repr) && nodes == old(nodes) && contents == old(contents) && freed == old(freed)
      ensures node == nodes[k] && Linked(nodes[..k] + nodes[k + 1..])
      ensures size == |nodes| - 1
      ensures head == (if k == 0 then At(nodes, 1) else nodes[0])
      ensures tail == (if k == |nodes| - 1 then At(nodes, k - 1) else nodes[|nodes| - 1])
    {
      assert prev != null && next != null ==> prev != next;
      assert prev == null <==> k == 0;
      assert next == null <==> k == |nodes| - 1;
      node := null;
      if prev == null && next == null {
        node := tail;
      }
      size := size - 1;
      if prev == null {
        head := next;
      }
      if next == null {
        tail := prev;
      }
      if prev != null {
        node := prev.next;
        prev.next := next;
      }
      if next != null {
        node := next.prev;
        next.prev := prev;
      }
      LinkedWithout(nodes, k);
    }

    /** `__ts_queue_remove_nolock`: unlink and destroy the node between two neighbours, the node at position `k`. */
    method RemoveNolock(prev: Node?<T>, next: Node?<T>, ghost k: nat)
      requires Valid()
      requires nodes != [] ==> k < |nodes| && prev == At(nodes, k - 1) && next == At(nodes, k + 1)
      modifies Repr
      ensures Valid() && Repr == old(Repr)
      ensures old(nodes) == [] ==> nodes == [] && freed == old(freed)
      ensures old(nodes) != [] ==>
                && nodes == old(nodes[..k] + nodes[k + 1..])
                && freed == old(freed + [nodes[k]])
                && contents == old(contents[..k] + contents[k + 1..])
    {
      if IsEmpty() {
        return;
      }
      var node := Unsplice(prev, next, k);
      freed := freed + [node];
      WithoutAt(nodes, k);
      WithoutAt(contents, k);
      nodes, contents := nodes[..k] + nodes[k + 1..], contents[..k] + contents[k + 1..];
    }

    /** `__ts_queue_enqueue_nolock` */
    method Enqueue(item: T)
      requires Valid()
      modifies Repr
      ensures Valid() && fresh(Repr - old(Repr)) && freed == old(freed)
      ensures contents == old(contents) + [item]
    {
      var node := new Node(item);
      Add(tail, null, node, size);
    }

    /** `__ts_queue_dequeue_nolock`: drops the first item, if there is one. */
    method Dequeue()
      requires Valid()
      modifies Repr
      ensures Valid() && Repr == old(Repr)
      ensures old(nodes) == [] ==> nodes == [] && freed == old(freed)
      ensures old(nodes) != [] ==>
                nodes == old(nodes[1..]) && freed == old(freed + [nodes[0]]) && contents == old(contents[1..])
    {
      if IsEmpty() {
        return;
      }
      RemoveNolock(null, head.next, 0);
    }

    /** `ts_queue_destroy`: hands every node to the destructor once, from head to tail. */
    method Destroy()
      requires Valid()
      modifies this`freed
      ensures freed == old(freed) + nodes
    {
      var node := head;
      ghost var i := 0;
      while node != null
        invariant 0 <= i <= |nodes| && node == At(nodes, i)
        invariant freed == old(freed) + nodes[..i]
        decreases |nodes| - i
      {
        var trash := node;
        node := node.next;
        freed := freed + [trash];
        i := i + 1;
      }
    }
  }
}
