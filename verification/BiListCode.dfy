/** BiList, a circular doubly linked intrusive list on a heap
    (src/fault/fiber/bidirectional_intrusive_list.cpp). */
module BiListCode {
  import opened Common

  class Node {
    var prev: Node?
    var next: Node?

    /** A node starts as a ring of its own. */
    constructor ()
      ensures prev == this && next == this
    {
      prev, next := this, this;
    }

    /** Unlink the node, which is element `k` of `list`, or in no list: then it is a ring of its own, as it was
        made, or was unlinked before and stays as it is. */
    method Erase(ghost list: BiList?, ghost k: nat) returns (ok: bool)
      requires list == null ==> next == null || prev == null || (next == this && prev == this)
      requires list != null ==> list.Valid() && k < |list.elems| && list.elems[k] == this
      modifies this
      modifies if list == null then {} else {list, list.head} + set x <- list.elems
      ensures ok <==> old(next) != null && old(prev) != null
      ensures list != null ==> ok
      ensures if ok then next == null && prev == null else next == old(next) && prev == old(prev)
      ensures list != null ==> list.Valid() && list.elems == old(list.elems[..k] + list.elems[k + 1..])
    {
      if list != null {
        assert Linked(list.head, list.elems, k) && Linked(list.head, list.elems, k + 1);
      }
      if next == null || prev == null {
        return false;
      }
      var prevNode := prev;
      var nextNode := next;
      prevNode.next := nextNode;
      nextNode.prev := prevNode;
      next := null;
      prev := null;
      ok := true;
      if list != null {
        ghost var head, q := list.head, list.elems;
        list.elems := q[..k] + q[k + 1..];
        forall i | 0 <= i <= |list.elems| ensures Linked(head, list.elems, i) {
          var j := if i <= k then i else i + 1;
          assert old(Linked(head, q, j)) && Pos(head, list.elems, i) == Pos(head, q, j);
          assert i != k ==> Succ(head, list.elems, i) == Succ(head, q, j);
          assert i == k ==> Succ(head, list.elems, i) == Succ(head, q, k + 1);
          assert old(Linked(head, q, k)) && old(Linked(head, q, k + 1));
        }
      }
    }
  }

  /** Positions 0, 1, ... of the ring of `head` and `q`: the head, then the elements. */
  function Pos(head: Node, q: seq<Node>, i: nat): Node
    requires i <= |q|
  {
    if i == 0 then head else q[i - 1]
  }

  /** The node after position `i`. */
  function Succ(head: Node, q: seq<Node>, i: nat): Node
    requires i <= |q|
  {
    if i < |q| then q[i] else head
  }

  ghost predicate Linked(head: Node, q: seq<Node>, i: nat)
    requires i <= |q|
    reads Pos(head, q, i), Succ(head, q, i)
  {
    Pos(head, q, i).next == Succ(head, q, i) && Succ(head, q, i).prev == Pos(head, q, i)
  }

  /** `head` and the elements `q` form a circle in both directions. */
  ghost predicate Ring(head: Node, q: seq<Node>)
    reads head, q
  {
    && Distinct(q) && head !in q
    && forall i :: 0 <= i <= |q| ==> Linked(head, q, i)
  }

  class BiList {
    const head: Node
    ghost var elems: seq<Node>

    ghost predicate Valid()
      reads this, head, elems
    {
      Ring(head, elems)
    }

    ghost predicate Apart(other: BiList)
      reads this, other
    {
      && other != this && other.head != head && other.head !in elems && head !in other.elems
      && forall x <- elems :: x !in other.elems
    }

    constructor ()
      ensures Valid() && elems == [] && fresh(head)
    {
      head := new Node();
      elems := [];
      new;
      assert Linked(head, elems, 0);
    }

    method PushBack(node: Node)
      requires Valid() && node != head && node !in elems
      modifies this, head, node, elems
      ensures Valid() && elems == old(elems) + [node]
    {
      ghost var q := elems;
      assert Linked(head, q, |q|);
      var last := head.prev;
      node.next := head;
      head.prev.next := node;
      node.prev := head.prev;
      head.prev := node;
      elems := elems + [node];
      forall i | 0 <= i <= |elems| ensures Linked(head, elems, i) {
        if i < |q| { assert old(Linked(head, q, i)); }
        assert i <= |q| ==> Pos(head, elems, i) == Pos(head, q, i);
      }
    }

    method Empty() returns (empty: bool)
      requires Valid()
      ensures empty <==> elems == []
    {
      assert Linked(head, elems, 0);
      empty := head.next == head;
    }

    method PopBack() returns (node: Node)
      requires Valid() && elems != []
      modifies this, head, elems
      ensures Valid() && node == old(elems[|elems| - 1]) && elems == old(elems[..|elems| - 1])
    {
      assert Linked(head, elems, |elems|);
      node := head.prev;
      var _ := node.Erase(this, |elems| - 1);
    }

    /** The element with index `ind` from the front or from the back.  When there are not so many, the walk
        tells how many there are and some element is returned after all. */
    method GetElement(ind: nat, reversed: bool) returns (found: Node?)
      requires Valid()
      ensures found == null <==> elems == []
      ensures ind < |elems| ==> found == elems[if reversed then |elems| - 1 - ind else ind]
      ensures ind >= |elems| > 0 ==> found == elems[Wrapped(ind, |elems|, reversed)]
    {
      var i: nat := 0;
      assert Linked(head, elems, 0) && Linked(head, elems, |elems|);
      var node := if reversed then head.prev else head.next;
      while i != ind && node != head
        invariant 0 <= i <= |elems| && i <= ind
        invariant node == if reversed then Pos(head, elems, |elems| - i) else Succ(head, elems, i)
        decreases |elems| - i
      {
        assert i < |elems|;
        assert Linked(head, elems, i + 1) && Linked(head, elems, |elems| - i - 1);
        i := i + 1;
        node := if reversed then node.prev else node.next;
      }
      if i == ind && node != head {
        return node;
      }
      var size := i;
      assert size == |elems|;
      if size == 0 {
        return null;
      }
      i := Wrapped(ind, size, reversed);
      if i < size / 2 {
        var current: nat := 0;
        node := head.next;
        while current < i
          invariant 0 <= current <= i && node == elems[current]
        {
          assert Linked(head, elems, current + 1);
          node := node.next;
          current := current + 1;
        }
      } else {
        var current: nat := size - 1;
        node := head.prev;
        while current > i
          invariant i <= current < size && node == elems[current]
        {
          assert Linked(head, elems, current);
          node := node.prev;
          current := current - 1;
        }
      }
      return node;
    }

    /** The move assignment; whatever was in this list before is left behind. */
    method MoveFrom(other: BiList)
      requires Valid() && other.Valid() && (other != this ==> Apart(other))
      modifies this, head, other, other.head, other.elems
      ensures other == this ==> elems == old(elems) && Valid()
      ensures other != this ==>
                Valid() && other.Valid() && elems == old(other.elems) && other.elems == [] && Apart(other)
    {
      if other == this {
        return;
      }
      assert Linked(other.head, other.elems, 0) && Linked(other.head, other.elems, |other.elems|);
      var empty := other.Empty();
      if empty {
        head.next := head;
        head.prev := head;
        elems := [];
        assert Linked(head, elems, 0);
        assert Linked(other.head, other.elems, 0);
        return;
      }
      ghost var q, h := other.elems, other.head;
      head.next, other.head.next := other.head.next, other.head;
      head.prev, other.head.prev := other.head.prev, other.head;
      head.next.prev := head;
      head.prev.next := head;
      elems, other.elems := q, [];
      assert Linked(h, other.elems, 0);
      forall i | 0 <= i <= |q| ensures Linked(head, q, i) {
        assert old(Linked(h, q, i));
      }
    }

    /** The move constructor. */
    constructor Moved(other: BiList)
      requires other.Valid()
      modifies other, other.head, other.elems
      ensures Valid() && other.Valid() && elems == old(other.elems) && other.elems == [] && fresh(head)
    {
      head := new Node();
      elems := [];
      new;
      assert Linked(head, elems, 0);
      var empty := other.Empty();
      if empty {
        return;
      }
      MoveFrom(other);
    }

    /** All elements of `other` go to the end of this list. */
    method PushAll(other: BiList)
      requires Valid() && other.Valid() && (other != this ==> Apart(other))
      modifies this, head, elems, other, other.head, other.elems
      ensures other == this ==> elems == old(elems) && Valid()
      ensures other != this ==>
                Valid() && other.Valid() && elems == old(elems + other.elems) && other.elems == [] && Apart(other)
    {
      if other == this {
        return;
      }
      var empty := other.Empty();
      if empty {
        assert elems + other.elems == elems;
        return;
      }
      ghost var p, q, h := elems, other.elems, other.head;
      assert Linked(h, q, 0) && Linked(h, q, |q|) && Linked(head, p, |p|) && Linked(head, p, 0);
      head.prev.next, other.head.next := other.head.next, other.head;
      head.prev.next.prev := head.prev;
      head.prev, other.head.prev := other.head.prev, other.head;
      head.prev.next := head;
      elems, other.elems := p + q, [];
      DistinctAppend(p, q);
      assert Linked(h, other.elems, 0);
      forall i | 0 <= i <= |elems| ensures Linked(head, elems, i) {
        Joined(head, h, p, q, i);
        if i <= |p| { assert old(Linked(head, p, i)); }
        if i >= |p| { assert old(Linked(h, q, i - |p|)); }
      }
    }
  }

  /** Positions in the ring of `p` and then `q`, from those in the rings of `p` and of `q`. */
  lemma Joined(head: Node, h: Node, p: seq<Node>, q: seq<Node>, i: nat)
    requires i <= |p + q|
    ensures Pos(head, p + q, i) == if i <= |p| then Pos(head, p, i) else Pos(h, q, i - |p|)
    ensures Succ(head, p + q, i)
         == if i < |p| then Succ(head, p, i) else if i < |p + q| then Succ(h, q, i - |p|) else head
  {
  }

  lemma DistinctAppend(p: seq<Node>, q: seq<Node>)
    requires Distinct(p) && Distinct(q) && forall x <- p :: x !in q
    ensures Distinct(p + q)
  {
    forall i, j | 0 <= i < j < |p + q| ensures (p + q)[i] != (p + q)[j] {
      if i < |p| <= j { assert (p + q)[i] in p && (p + q)[j] == q[j - |p|]; }
    }
  }

  /** The index that stands in for one that is out of range. */
  function Wrapped(ind: nat, size: nat, reversed: bool): (i: nat)
    requires size > 0
    ensures i < size
  {
    if reversed then (size - ind % size) % size else ind % size
  }
}
