/** Lists of objects that carry their own `next` pointer, as `_sender` and `_receiver` of a mutex
    (include/yaclib/coro/mutex.hpp), the queues of a reader/writer lock (include/yaclib/coro/shared_mutex.hpp),
    the jobs of a strand (src/exe/strand.cpp) and those of a thread pool are. */
module IntrusiveLists {
  import opened Common

  /** A job or a suspended coroutine; only a coroutine has an executor of its own. */
  class Node {
    const id: Tid
    var next: Node?
    var executor: Exec

    constructor (id: Tid, executor: Exec)
      ensures this.id == id && this.executor == executor && next == null
    {
      this.id, this.executor := id, executor;
      next := null;
    }
  }

  /** The coroutines of a list. */
  function Ids(q: seq<Node>): (r: seq<Tid>)
    ensures |r| == |q| && forall i :: 0 <= i < |r| ==> r[i] == q[i].id
  {
    seq(|q|, i requires 0 <= i < |q| => q[i].id)
  }

  lemma {:induction false} IdsReversed(q: seq<Node>)
    ensures Ids(Reversed(q)) == Reversed(Ids(q))
  {
    if q != [] {
      IdsReversed(q[1..]);
      assert Ids(q)[1..] == Ids(q[1..]);
      assert Ids(Reversed(q[1..]) + [q[0]]) == Ids(Reversed(q[1..])) + [q[0].id];
    }
  }

  function Before(q: seq<Node>, i: nat): Node?
    requires i < |q|
  {
    if i == 0 then null else q[i - 1]
  }

  function After(q: seq<Node>, i: nat): Node?
    requires i < |q|
  {
    if i + 1 < |q| then q[i + 1] else null
  }

  function First(q: seq<Node>): Node? { if q == [] then null else q[0] }

  function Last(q: seq<Node>): Node? { if q == [] then null else q[|q| - 1] }

  /** `q` is a stack in the order of the pushes: everybody points to the one pushed before. */
  ghost predicate Stack(q: seq<Node>)
    reads q
  {
    Distinct(q) && forall i {:trigger q[i].next} :: 0 <= i < |q| ==> q[i].next == Before(q, i)
  }

  /** `q` is a list in the order of service: everybody points to the next one. */
  ghost predicate List(q: seq<Node>)
    reads q
  {
    Distinct(q) && forall i {:trigger q[i].next} :: 0 <= i < |q| ==> q[i].next == After(q, i)
  }

  lemma ReversedElements(q: seq<Node>, x: Node)
    ensures x in Reversed(q) <==> x in q
  {
  }

  /** A stack is a list in the opposite order. */
  lemma StackIsList(q: seq<Node>)
    requires Stack(q)
    ensures List(Reversed(q))
  {
    var r := Reversed(q);
    forall i | 0 <= i < |r| ensures r[i].next == After(r, i) {
      assert r[i] == q[|q| - 1 - i];
    }
  }

  lemma ListTail(q: seq<Node>)
    requires List(q) && q != []
    ensures List(q[1..]) && q[0].next == First(q[1..]) && q[0] !in q[1..]
  {
    forall i | 0 <= i < |q[1..]| ensures q[1..][i].next == After(q[1..], i) {
      assert q[1..][i] == q[i + 1];
    }
  }

  lemma StackPush(q: seq<Node>, x: Node)
    requires Stack(q) && x !in q && x.next == Last(q)
    ensures Stack(q + [x])
  {
    forall i | 0 <= i < |q + [x]| ensures (q + [x])[i].next == Before(q + [x], i) {
      if i < |q| { assert (q + [x])[i] == q[i]; }
    }
  }

  /** The loop of MutexImpl::GetHead and of Strand::Call: turn a non-empty stack around in place, so that it
      becomes a list in the order of the pushes. */
  method TurnAround(head: Node, ghost q: seq<Node>) returns (first: Node)
    requires Stack(q) && q != [] && head == q[|q| - 1]
    modifies q
    ensures List(q) && first == q[0]
    ensures forall x <- q :: x.executor == old(x.executor)
  {
    var node: Node? := head;
    var prev: Node? := null;
    ghost var k := |q|;
    while node != null
      invariant 0 <= k <= |q|
      invariant node == if k == 0 then null else q[k - 1]
      invariant prev == if k == |q| then null else q[k]
      invariant forall i {:trigger q[i].next} :: 0 <= i < k ==> q[i].next == Before(q, i)
      invariant forall i {:trigger q[i].next} :: k <= i < |q| ==> q[i].next == After(q, i)
      invariant forall x <- q :: x.executor == old(x.executor)
      decreases k
    {
      var next := node.next;
      node.next := prev;
      prev := node;
      node := next;
      k := k - 1;
    }
    first := prev;
  }

  /** List (src/util/intrusive_list.cpp), a linear list: `head.next` is the first element, `tail` the last one, or the head itself. */
  class LinkedList {
    const head: Node
    var tail: Node
    ghost var elems: seq<Node>

    ghost predicate Valid()
      reads this, head, elems
    {
      && List(elems) && head !in elems
      && head.next == First(elems)
      && tail == if elems == [] then head else elems[|elems| - 1]
    }

    constructor ()
      ensures Valid() && elems == [] && fresh(head)
    {
      head := new Node(Tid(0), Exec(0));
      tail := head;
      elems := [];
    }

    method PushBack(node: Node)
      requires Valid() && node != head && node !in elems
      modifies this`tail, this`elems, head`next, node`next, elems
      ensures Valid() && elems == old(elems) + [node]
    {
      ghost var q := elems;
      node.next := null;
      tail.next := node;
      tail := node;
      elems := q + [node];
      forall i | 0 <= i < |elems| ensures elems[i].next == After(elems, i) {
        if i < |q| { assert old(q[i].next == After(q, i)); }
      }
    }

    method PushFront(node: Node)
      requires Valid() && node != head && node !in elems
      modifies this`tail, this`elems, head`next, node`next
      ensures Valid() && elems == [node] + old(elems)
    {
      ghost var q := elems;
      var empty := Empty();
      if empty {
        tail := node;
      }
      node.next := head.next;
      head.next := node;
      elems := [node] + q;
      forall i | 0 <= i < |elems| ensures elems[i].next == After(elems, i) {
        if i > 0 { assert old(q[i - 1].next == After(q, i - 1)); }
      }
    }

    method Empty() returns (empty: bool)
      requires Valid()
      ensures empty <==> elems == []
    {
      empty := head.next == null;
    }

    method PopFront() returns (node: Node)
      requires Valid() && elems != []
      modifies this`tail, this`elems, head`next
      ensures Valid() && node == old(elems[0]) && elems == old(elems[1..])
      ensures node !in elems && node != head
    {
      ListTail(elems);
      node := head.next;
      head.next := node.next;
      elems := elems[1..];
      if head.next == null {
        tail := head;
      }
    }

    /** The move constructor. */
    constructor Moved(other: LinkedList)
      requires other.Valid()
      modifies other`tail, other`elems, other.head`next
      ensures Valid() && other.Valid() && elems == old(other.elems) && other.elems == [] && fresh(head)
    {
      head := new Node(Tid(0), Exec(0));
      tail := head;
      elems := [];
      new;
      var empty := other.Empty();
      if empty {
        return;
      }
      head.next, other.head.next := other.head.next, null;
      tail, other.tail := other.tail, other.head;
      elems, other.elems := other.elems, [];
    }
  }
}
