/** The intrusive queue of include/tcode/slist.hpp: `head` and `tail` pointers into nodes that
    carry their own `next`. The ghost field `nodes` is the sequence the pointers stand for. */
module SList {

  class Node {
    var next: Node?

    constructor ()
      ensures next == null
    {
      next := null;
    }
  }

  /** Following `next` from `head` visits exactly `nodes` and then reaches null. */
  ghost predicate Linked(head: Node?, nodes: seq<Node>)
    reads nodes
  {
    if nodes == [] then head == null
    else
      && head == nodes[0]
      && (forall i :: 0 <= i < |nodes| - 1 ==> nodes[i].next == nodes[i+1])
      && nodes[|nodes|-1].next == null
  }

  lemma LinkedTail(head: Node?, nodes: seq<Node>)
    requires Linked(head, nodes) && nodes != []
    ensures Linked(nodes[0].next, nodes[1..])
  {
  }

  /** A pointer determines its sequence: two walks from the same node are the same walk. */
  lemma {:induction false} LinkedUnique(head: Node?, a: seq<Node>, b: seq<Node>)
    requires Linked(head, a) && Linked(head, b)
    ensures a == b
  {
    if a != [] && b != [] {
      LinkedTail(head, a);
      LinkedTail(head, b);
      LinkedUnique(a[0].next, a[1..], b[1..]);
      assert a == [a[0]] + a[1..] && b == [b[0]] + b[1..];
    }
  }

  /** The suffix of a walk is the walk from its first node. */
  lemma LinkedSuffix(head: Node?, nodes: seq<Node>, i: nat)
    requires Linked(head, nodes) && i < |nodes|
    ensures Linked(nodes[i], nodes[i..])
  {
  }

  /** A walk that reaches null never visits a node twice. */
  lemma LinkedAcyclic(head: Node?, nodes: seq<Node>)
    requires Linked(head, nodes)
    ensures forall i, j :: 0 <= i < j < |nodes| ==> nodes[i] != nodes[j]
  {
    forall i, j | 0 <= i < j < |nodes| ensures nodes[i] != nodes[j] {
      if nodes[i] == nodes[j] {
        LinkedSuffix(head, nodes, i);
        LinkedSuffix(head, nodes, j);
        LinkedUnique(nodes[i], nodes[i..], nodes[j..]);
        assert false;
      }
    }
  }

  /** Two walks that share a node end in the same nodes; so walks with different ends are disjoint. */
  lemma LinkedMeet(ha: Node?, a: seq<Node>, hb: Node?, b: seq<Node>, i: nat, j: nat)
    requires Linked(ha, a) && Linked(hb, b) && i < |a| && j < |b| && a[i] == b[j]
    ensures a[i..] == b[j..] && a[|a|-1] == b[|b|-1]
  {
    LinkedSuffix(ha, a, i);
    LinkedSuffix(hb, b, j);
    LinkedUnique(a[i], a[i..], b[j..]);
    assert a[|a|-1] == a[i..][|a|-1-i] && b[|b|-1] == b[j..][|b|-1-j];
  }

  /** A node with a link cannot be both the first and the last of a walk. */
  lemma LoneNode(n: Node, nodes: seq<Node>)
    requires n.next != null && Linked(n, nodes)
    ensures nodes[|nodes|-1] != n
  {
    LinkedAcyclic(n, nodes);
  }

  class Queue {
    var head: Node?
    var tail: Node?
    ghost var nodes: seq<Node>

    ghost predicate Valid()
      reads this, nodes
    {
      && Linked(head, nodes)
      && tail == if nodes == [] then null else nodes[|nodes|-1]
    }

    /** `queue(head)`: takes over a chain, which `chain` witnesses to be finite. */
    constructor (first: Node?, ghost chain: seq<Node>)
      requires Linked(first, chain)
      ensures Valid() && nodes == chain && head == first
    {
      var last := first;
      ghost var n := 0;
      while last != null && last.next != null
        invariant if chain == [] then last == null else n < |chain| && last == chain[n]
        invariant last != null ==> last.next == if n + 1 < |chain| then chain[n+1] else null
        decreases |chain| - n
      {
        last := last.next;
        n := n + 1;
      }
      head, tail := first, last;
      nodes := chain;
    }

    /** The new node's link is overwritten, so any unqueued node will do. */
    method PushBack(n: Node)
      requires Valid() && n !in nodes
      modifies this, n, tail
      ensures Valid() && nodes == old(nodes) + [n]
    {
      LinkedAcyclic(head, nodes);
      if head == null {
        head, tail := n, n;
      } else {
        tail.next := n;
        tail := n;
      }
      n.next := null;
      nodes := nodes + [n];
    }

    /** The link of a node pushed onto an empty queue is left as it is: the queue is well formed
        afterwards exactly when it was not empty or that link is null. */
    method PushFront(n: Node)
      requires Valid() && n !in nodes
      modifies this, n
      ensures nodes == [n] + old(nodes)
      ensures Valid() <==> old(nodes) != [] || old(n.next) == null
      ensures head == n && (old(nodes) == [] ==> tail == n && n.next == old(n.next))
    {
      if head == null {
        head, tail := n, n;
      } else {
        n.next := head;
        head := n;
      }
      nodes := [n] + nodes;
    }

    /** The popped node leaves with a null link, ready for any queue. */
    method PopFront()
      requires Valid()
      modifies this, head
      ensures Valid()
      ensures if old(nodes) == [] then nodes == [] && head == null
              else nodes == old(nodes)[1..] && old(head).next == null
    {
      if head == null {
        return;
      }
      LinkedAcyclic(head, nodes);
      if head == tail {
        assert nodes[0] == nodes[|nodes|-1];
        head, tail := null, null;
      } else {
        var node := head;
        head := head.next;
        node.next := null;
      }
      nodes := nodes[1..];
    }

    method Front() returns (n: Node?)
      requires Valid()
      ensures n == if nodes == [] then null else nodes[0]
    {
      n := head;
    }

    method Empty() returns (b: bool)
      requires Valid()
      ensures b <==> nodes == []
    {
      b := head == null;
    }

    method Size() returns (sz: nat)
      requires Valid()
      ensures sz == |nodes|
    {
      sz := 0;
      var n := head;
      while n != null
        invariant sz <= |nodes|
        invariant n == if sz < |nodes| then nodes[sz] else null
        decreases |nodes| - sz
      {
        sz := sz + 1;
        n := n.next;
      }
    }

    /** `splice`: concatenation that empties its argument. A queue spliced onto itself is
        emptied and its nodes are left in a ring. */
    method Splice(q: Queue)
      requires Valid() && q.Valid()
      requires q != this ==> forall n :: n in nodes ==> n !in q.nodes
      modifies this, q, tail
      ensures Valid() && q.Valid() && q.nodes == []
      ensures q != this ==> nodes == old(nodes + q.nodes)
      ensures q == this && old(nodes) != [] ==> old(tail).next == old(head)
    {
      LinkedAcyclic(head, nodes);
      if q.head == null {
        return;
      }
      ghost var all := nodes + q.nodes;
      assert nodes != [] && q != this ==> tail in nodes && tail !in q.nodes;
      if head == null {
        head, tail := q.head, q.tail;
      } else {
        tail.next := q.head;
        tail := q.tail;
      }
      nodes := all;
      q.head, q.tail := null, null;
      q.nodes := [];
    }

    /** Move assignment: what this queue held before is let go; moving a queue onto itself
        empties it. */
    method MoveFrom(q: Queue)
      requires q.Valid()
      modifies this, q
      ensures Valid() && q.Valid() && q.nodes == []
      ensures q != this ==> nodes == old(q.nodes)
    {
      head, tail := q.head, q.tail;
      nodes := q.nodes;
      q.head, q.tail := null, null;
      q.nodes := [];
    }

    /** Two queues with different last nodes share none, so they may be spliced. */
    lemma DisjointEnds(q: Queue)
      requires Valid() && q.Valid() && (tail != q.tail || tail == null)
      ensures forall n :: n in nodes ==> n !in q.nodes
    {
      forall n | n in nodes && n in q.nodes ensures false {
        var i :| 0 <= i < |nodes| && nodes[i] == n;
        var j :| 0 <= j < |q.nodes| && q.nodes[j] == n;
        LinkedMeet(head, nodes, q.head, q.nodes, i, j);
      }
    }
  }

  /** A drain as the run loop does it: pop until the queue is empty. Every node comes out once,
      in push order, unlinked. */
  method DrainAll(run: Queue) returns (out: seq<Node>)
    requires run.Valid()
    modifies run, run.nodes
    ensures run.Valid() && run.nodes == [] && out == old(run.nodes)
    ensures forall i :: 0 <= i < |out| ==> out[i].next == null
  {
    out := [];
    LinkedAcyclic(run.head, run.nodes);
    ghost var all := run.nodes;
    while run.head != null
      invariant run.Valid() && |out| <= |all| && out == all[..|out|] && run.nodes == all[|out|..]
      invariant forall i :: 0 <= i < |out| ==> all[i].next == null
      decreases |run.nodes|
    {
      var n := run.head;
      assert n == run.nodes[0];
      assert n == all[|out|];
      run.PopFront();
      out := out + [n];
    }
  }
}
