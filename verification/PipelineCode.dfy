/** The loops of a chain of continuations as code on a heap: MoveToCaller
    (include/yaclib/algo/detail/core.hpp) and the trampoline Loop
    (include/yaclib/algo/detail/inline_core.hpp). */
module PipelineCode {
  import opened Common
  import opened PipelineRuns
  import Lists = IntrusiveLists

  /** Each core of a Task points to the one before it; walk to the first and cut the links. */
  method MoveToCaller(last: Lists.Node, ghost q: seq<Lists.Node>) returns (first: Lists.Node)
    requires Lists.List(q) && q != [] && last == q[0]
    modifies q
    ensures first == q[|q| - 1]
    ensures forall x <- q :: x.next == null && x.executor == old(x.executor)
  {
    var head := last;
    ghost var k := 0;
    while head.next != null
      invariant 0 <= k < |q| && head == q[k]
      invariant forall i {:trigger q[i].next} :: 0 <= i < k ==> q[i].next == null
      invariant forall i {:trigger q[i].next} :: k <= i < |q| ==> q[i].next == Lists.After(q, i)
      invariant forall x <- q :: x.executor == old(x.executor)
      decreases |q| - k
    {
      var next := head.next;
      head.next := null;
      head := next;
      k := k + 1;
    }
    assert k == |q| - 1;
    first := head;
  }

  /** Start (src/lazy/task_impl.cpp): the first core of a Task is submitted, to its own executor or to the one
      given; the others keep theirs.  `on`: the executor it was submitted to. */
  method Start(last: Lists.Node, given: Option<Exec>, ghost q: seq<Lists.Node>) returns (first: Lists.Node, on: Exec)
    requires Lists.List(q) && q != [] && last == q[0]
    modifies q
    ensures first == q[|q| - 1] && on == first.executor
    ensures first.executor == if given.Some? then given.value else old(first.executor)
    ensures forall x <- q :: x.next == null && (x != first ==> x.executor == old(x.executor))
  {
    first := MoveToCaller(last, q);
    if given.Some? {
      first.executor := given.value;
    }
    on := first.executor;
  }

  /** A core whose stage runs inline. */
  class StageCore {
    const func: Func
    var callback: StageCore?
    var result: Option<Res>
    var released: nat

    constructor (func: Func)
      ensures this.func == func && callback == null && result == None && released == 0
    {
      this.func := func;
      callback, result, released := null, None, 0;
    }

    /** The stage has what its function gave back, unless that is a future or task, which comes back later. */
    ghost predicate Has(out: Outcome, before: Option<Res>, next: StageCore?)
      reads this
    {
      if out.Returns? then result == Some(out.r) && next == callback else result == before && next == null
    }

    /** Core::Impl: run on the caller's result and release the caller; go on with the callback, unless the function
        returned a future or task. */
    method Here(caller: StageCore) returns (next: StageCore?)
      requires caller != this && caller.result.Some?
      modifies this`result, caller`released
      ensures caller.released == old(caller.released) + 1
      ensures var r := caller.result.value;
        match func
        case OnValue(f) => Has(if r.Ok? then f(r.value) else Returns(r), old(result), next)
        case OnError(g) => Has(if r.Err? then g(r.error) else Returns(r), old(result), next)
        case OnResult(h) => Has(h(r), old(result), next)
    {
      var (_, out) := Dispatch(func, caller.result.value);
      caller.released := caller.released + 1;
      if !out.Returns? {
        return null;
      }
      result := Some(out.r);
      next := callback;
    }
  }

  ghost predicate DistinctCores(q: seq<StageCore>) {
    forall i, j :: 0 <= i < j < |q| ==> q[i] != q[j]
  }

  function Next(q: seq<StageCore>, i: nat): StageCore?
    requires i < |q|
  {
    if i + 1 < |q| then q[i + 1] else null
  }

  /** `q` are the cores of the stages of `c`, each the callback of the one before. */
  ghost predicate Chain(c: Config, q: seq<StageCore>)
    reads q
  {
    && |q| == |c.stages| && DistinctCores(q)
    && (forall i :: 0 <= i < |q| ==> q[i].func == c.stages[i].func)
    && (forall i {:trigger q[i].callback} :: 0 <= i < |q| ==> q[i].callback == Next(q, i))
  }

  /** The stages behind the head run inline. */
  ghost predicate InlineStages(c: Config) {
    forall i :: 0 < i < |c.stages| ==> !c.stages[i].call
  }

  lemma InlineFold(c: Config, i: nat)
    requires 0 < i < |c.stages| && InlineStages(c)
    ensures OutcomeOf(c, i) == Dispatch(c.stages[i].func, Fold(c, i - 1)) && Fold(c, i) == OutcomeOf(c, i).1.r
  {
  }

  /** The first stage from `i` on whose function returns a future or task. */
  function FirstLater(c: Config, i: nat): (n: nat)
    requires i <= |c.stages|
    ensures i <= n <= |c.stages|
    ensures forall k :: i <= k < n ==> OutcomeOf(c, k).1.Returns?
    ensures n < |c.stages| ==> !OutcomeOf(c, n).1.Returns?
    decreases |c.stages| - i
  {
    if i == |c.stages| || !OutcomeOf(c, i).1.Returns? then i else FirstLater(c, i + 1)
  }

  /** Loop: the head has its result; every stage up to the first that has to wait for a future or task runs, one
      after the other and not one inside the other, and leaves the left fold behind; each releases the core before
      it, also the one that waits. */
  method Loop(head: StageCore, ghost c: Config, ghost q: seq<StageCore>)
    requires c.stages != [] && InlineStages(c) && Chain(c, q) && head == q[0]
    requires head.result == Some(Fold(c, 0))
    modifies q
    ensures var n := FirstLater(c, 1);
      && (forall i :: 0 <= i < |q| ==> q[i].result == if i < n then Some(Fold(c, i)) else old(q[i].result))
      && (forall i :: 0 <= i < |q| ==>
            q[i].released == old(q[i].released) + if i < n && i + 1 < |q| then 1 else 0)
    ensures Chain(c, q)
  {
    hide Fold, OutcomeOf, InputOf, ExecOf, HandsOn;
    ghost var n := FirstLater(c, 1);
    var prev := head;
    var curr := head.callback;
    ghost var k := 0;
    while curr != null
      invariant 0 <= k < |q| && k <= n && Chain(c, q)
      invariant if k < n then prev == q[k] && curr == Next(q, k) else curr == null
      invariant forall i :: 0 <= i < |q| ==> q[i].result == if i <= k && i < n then Some(Fold(c, i)) else old(q[i].result)
      invariant forall i :: 0 <= i < |q| ==> q[i].released == old(q[i].released) + if i < k then 1 else 0
      decreases |q| - k
    {
      InlineFold(c, k + 1);
      var next := curr.Here(prev);
      prev := curr;
      curr := next;
      k := k + 1;
    }
  }
}
