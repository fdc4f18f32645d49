/** BaseCore (src/algo/base_core.cpp) as code on a heap: the tagged word, the intrusive list of callbacks
    behind it and the dispatch loop.  Other threads do not interfere here; SharedCoreRuns interleaves the
    same accesses with everybody else's. */
module BaseCoreCode {
  import opened Common
  import Alone = SharedCoreAlone

  datatype Kind = Runs | Posts

  /** A callback; `next` belongs to whoever has the callback at the moment. */
  class InlineCore {
    const id: Tid
    const kind: Kind
    var next: InlineCore?

    constructor (id: Tid, kind: Kind)
      ensures this.id == id && this.kind == kind && next == null
    {
      this.id, this.kind := id, kind;
      next := null;
    }
  }

  datatype Tagged = Empty | Callback(head: InlineCore) | Result

  function Pointer(w: Tagged): InlineCore? {
    if w.Callback? then w.head else null
  }

  function Before(q: seq<InlineCore>, i: nat): InlineCore?
    requires i < |q|
  {
    if i == 0 then null else q[i - 1]
  }

  /** `q`, in registration order, is the list that starts at `head`. */
  ghost predicate Linked(q: seq<InlineCore>, head: InlineCore?)
    reads q
  {
    && (head == if q == [] then null else q[|q| - 1])
    && forall i {:trigger q[i].next} :: 0 <= i < |q| ==> q[i].next == Before(q, i)
  }

  function EntryOf(c: InlineCore): Alone.Entry { Alone.Entry(c.id, c.kind == Posts) }

  function Entries(q: seq<InlineCore>): (r: seq<Alone.Entry>)
    ensures |r| == |q| && forall i :: 0 <= i < |q| ==> r[i] == EntryOf(q[i])
  {
    seq(|q|, i requires 0 <= i < |q| => EntryOf(q[i]))
  }

  function Posted(q: seq<InlineCore>): nat { Alone.Posting(Entries(q)) }

  /** A callback of a core that is called: its own reference count is what the core's was. */
  datatype Call = Call(callback: InlineCore, refs: int)

  function Callbacks(calls: seq<Call>): (q: seq<InlineCore>)
    ensures |q| == |calls| && forall i :: 0 <= i < |q| ==> q[i] == calls[i].callback
  {
    seq(|calls|, i requires 0 <= i < |calls| => calls[i].callback)
  }

  function Ids(calls: seq<Call>): seq<Tid> { Alone.IdsOf(Entries(Callbacks(calls))) }

  class BaseCore {
    var callback: Tagged
    var refs: int
    var calls: seq<Call>
    ghost var list: seq<InlineCore>

    ghost predicate Valid()
      reads this, list
    {
      && Distinct(list)
      && (callback.Result? ==> list == [])
      && Linked(list, Pointer(callback))
    }

    /** The core as the machine sees it. */
    ghost function View(): Alone.View
      reads this
    {
      Alone.View(callback == Result, Entries(list), refs, Ids(calls))
    }

    constructor (refs: int)
      ensures Valid() && callback == Empty && list == [] && calls == [] && this.refs == refs
    {
      callback, this.refs, calls, list := Empty, refs, [], [];
    }

    /** SetCallbackImpl<true>: the weak compare_exchange fails `spurious` times for no reason. */
    method SetCallbackShared(c: InlineCore, spurious: nat) returns (ok: bool)
      requires Valid() && c !in list
      modifies this`callback, this`list, c`next
      ensures Valid()
      ensures ok <==> old(callback) != Result
      ensures list == if ok then old(list) + [c] else old(list)
      ensures callback == if ok then Callback(c) else Result
      ensures View() == Alone.Registered(old(View()), EntryOf(c))
    {
      assert Entries(list + [c]) == Entries(list) + [EntryOf(c)];
      var next := callback;
      var failures := spurious;
      ok := false;
      while !ok && next != Result
        invariant ok ==> callback == Callback(c) && old(callback) != Result && Pointer(old(callback)) == c.next
        invariant !ok ==> callback == next == old(callback)
        invariant list == old(list)
        invariant forall x :: x in list ==> x.next == old(x.next)
        decreases !ok, failures
      {
        c.next := Pointer(next);
        if callback == next && failures == 0 {
          callback := Callback(c);
          ok := true;
        } else {
          next := callback;
          failures := failures - 1;
        }
      }
      if ok {
        assert forall i {:trigger list[i].next} :: 0 <= i < |list| ==> list[i] in list && list[i].next == old(list[i].next);
        list := list + [c];
      }
    }

    /** SetCallbackImpl<false>. */
    method SetCallbackUnique(c: InlineCore) returns (ok: bool)
      requires Valid() && c.next == null
      modifies this`callback, this`list
      ensures Valid()
      ensures ok <==> old(callback) == Empty
      ensures callback == if ok then Callback(c) else old(callback)
      ensures list == if ok then [c] else old(list)
    {
      ok := callback == Empty;
      if ok {
        callback := Callback(c);
        list := [c];
      }
    }

    /** ResetImpl: true when the core has no result, and then no callback either. */
    method Reset() returns (ok: bool)
      requires Valid()
      modifies this`callback, this`list
      ensures Valid()
      ensures ok <==> old(callback) != Result
      ensures callback == if ok then Empty else Result
      ensures list == []
    {
      ok := callback != Result;
      if ok {
        callback := Empty;
      }
      list := [];
    }

    method DecRef()
      modifies this`refs
      ensures refs == old(refs) - 1
    {
      refs := refs - 1;
    }

    /** Loop(this, head): the callback runs, may take a reference, and from now on its `next` is its own. */
    method Run(c: InlineCore)
      modifies this`refs, this`calls, c`next
      ensures calls == old(calls) + [Call(c, old(refs))]
      ensures refs == old(refs) + if c.kind == Posts then 1 else 0
    {
      calls := calls + [Call(c, refs)];
      if c.kind == Posts {
        refs := refs + 1;
      }
      c.next := *;
    }

    /** SetResultImpl<_, true>: everybody is called once, the last registered first.  The count is at least
        what it was for all but the first registered callback, which sees one less, and in the end the core
        has given up three references. */
    method SetResultShared()
      requires Valid() && callback != Result && calls == []
      modifies this, list
      ensures callback == Result && list == []
      ensures Callbacks(calls) == Reversed(old(list))
      ensures forall i :: 0 <= i < |calls| - 1 ==> calls[i].refs >= old(refs)
      ensures calls != [] ==> calls[|calls| - 1].refs == old(refs) - 1 + Posted(old(list)[1..])
      ensures refs == old(refs) - 3 + Posted(old(list))
      ensures View() == Alone.Dispatched(old(View()))
    {
      hide Posted;
      assert Ids([]) == [];
      ghost var q := list;
      var head := Pointer(callback);
      assert Linked(q, head);
      assert forall i {:trigger q[i].next} :: 0 <= i < |q| ==> q[i].next == Before(q, i);
      callback, list := Result, [];
      if head != null {
        ghost var k := |q|;
        assert q[..k] == q;
        while head.next != null
          invariant 1 <= k <= |q| && head == q[k - 1]
          invariant forall i {:trigger q[i].next} :: 0 <= i < k ==> q[i].next == Before(q, i)
          invariant |calls| == |q| - k
          invariant forall i :: 0 <= i < |calls| ==> calls[i].callback == q[|q| - 1 - i] && calls[i].refs >= old(refs)
          invariant refs == old(refs) + Posted(q) - Posted(q[..k])
          invariant callback == Result && list == []
          invariant refs >= old(refs)
          decreases k
        {
          var next := head.next;
          assert k > 1 && next == q[k - 2];
          PostedLast(q, k);
          Run(head);
          head := next;
          k := k - 1;
        }
        assert k == 1;
        DecRef();
        Run(head);
        PostedLast(q, 1);
        PostedSplit(q);
      } else {
        PostedNone(q);
        DecRef();
      }
      DecRef();
      DecRef();
      assert Callbacks(calls) == Reversed(q);
      DispatchedView(q, old(refs));
    }

    lemma DispatchedView(q: seq<InlineCore>, before: int)
      requires callback == Result && list == [] && Callbacks(calls) == Reversed(q) && refs == before - 3 + Posted(q)
      ensures View() == Alone.Dispatched(Alone.View(false, Entries(q), before, []))
    {
      ReversedEntries(q);
    }
  }

  lemma ReversedEntries(q: seq<InlineCore>)
    ensures Alone.IdsOf(Entries(Reversed(q))) == Reversed(Alone.IdsOf(Entries(q)))
  {
  }

  lemma PostedOne(q: seq<InlineCore>)
    requires q != []
    ensures Posted(q) == Posted(q[..|q| - 1]) + if q[|q| - 1].kind == Posts then 1 else 0
  {
    assert Entries(q)[..|q| - 1] == Entries(q[..|q| - 1]);
  }

  lemma PostedNone(q: seq<InlineCore>)
    ensures q == [] ==> Posted(q) == 0
  {
  }

  lemma PostedLast(q: seq<InlineCore>, k: nat)
    requires 1 <= k <= |q|
    ensures Posted(q[..k]) == Posted(q[..k - 1]) + if q[k - 1].kind == Posts then 1 else 0
    ensures k == 1 ==> Posted(q[..k - 1]) == 0
  {
    assert q[..k][..k - 1] == q[..k - 1];
    PostedOne(q[..k]);
  }

  lemma {:induction false} PostedSplit(q: seq<InlineCore>)
    requires q != []
    ensures Posted(q) == Posted(q[..1]) + Posted(q[1..])
  {
    PostedOne(q);
    if |q| > 1 {
      PostedOne(q[1..]);
      PostedSplit(q[..|q| - 1]);
      assert q[..|q| - 1][..1] == q[..1];
      assert q[1..][..|q[1..]| - 1] == q[..|q| - 1][1..];
    }
  }
}
