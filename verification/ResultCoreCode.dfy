/** ResultCore (include/yaclib/algo/detail/result_core.hpp), SharedCore
    (include/yaclib/algo/detail/shared_core.hpp) and SharedFuture::Get
    (include/yaclib/async/shared_future.hpp) as code that moves or copies a stored result.  Other threads do not
    interfere here; the lemmas at the end say that these are the steps that SharedCoreRuns interleaves. */
module ResultCoreCode {
  import opened Common
  import opened SharedCoreRuns
  import opened SharedCoreInvariant
  import opened SharedCoreTheorems
  import Connect = ConnectRuns
  import ConnectProofs

  /** The count and the cell after a reference was released. */
  function Released(refs: int, cell: Cell): (int, Cell) {
    (refs - 1, if refs == 1 then Destroyed else cell)
  }

  /** What Impl of another core leaves of a core with a copyable value. */
  function Consulted(refs: int, cell: Cell): (int, Cell) {
    if refs >= 3 then (refs, cell)
    else if refs == 1 then Released(refs, MovedFrom)
    else (refs, MovedFrom)
  }

  /** What Get && leaves of the result. */
  function Got(refs: int, cell: Cell): Cell { if refs == 1 then MovedFrom else cell }

  /** What Retire leaves. */
  function Retired(refs: int, cell: Cell): (int, Cell) { Released(refs, Got(refs, cell)) }

  class ResultCore {
    const copyable: bool
    var refs: int
    var result: Cell

    constructor (copyable: bool, refs: int)
      ensures this.copyable == copyable && this.refs == refs && result == Raw
    {
      this.copyable, this.refs, result := copyable, refs, Raw;
    }

    /** Constructs the result in place; a core is stored into once. */
    method Store(v: Payload)
      requires result == Raw
      modifies this`result
      ensures result == Stored(v)
    {
      result := Stored(v);
    }

    method MoveOut() returns (v: Payload)
      requires result.Stored?
      modifies this`result
      ensures v == old(result.v) && result == MovedFrom
    {
      v := result.v;
      result := MovedFrom;
    }

    /** The destructor asserts that there was a result. */
    method DecRef()
      requires refs >= 1 && (refs == 1 ==> result.Stored? || result.MovedFrom?)
      modifies this
      ensures refs == old(refs) - 1 && result == if refs == 0 then Destroyed else old(result)
    {
      refs := refs - 1;
      if refs == 0 {
        result := Destroyed;
      }
    }

    /** Impl: take the result of `caller`, by a copy only if somebody else may still want it.  A value that cannot
        be copied comes from a core with one owner. */
    method Impl(caller: ResultCore)
      requires caller != this && result == Raw && caller.result.Stored? && caller.refs >= 1
      requires !copyable ==> caller.refs == 1
      modifies this`result, caller
      ensures result == Stored(old(caller.result.v))
      ensures old(caller.refs) == 1 ==> caller.refs == 0 && caller.result == Destroyed
      ensures old(caller.refs) == 2 ==> caller.refs == 2 && caller.result == MovedFrom
      ensures old(caller.refs) >= 3 ==> caller.refs == old(caller.refs) && caller.result == old(caller.result)
      ensures (caller.refs, caller.result) == Consulted(old(caller.refs), old(caller.result))
    {
      if copyable {
        var ref := caller.refs;
        if ref >= 3 {
          Store(caller.result.v);
          return;
        }
        var v := caller.MoveOut();
        Store(v);
        if ref == 1 {
          caller.DecRef();
        }
      } else {
        var v := caller.MoveOut();
        Store(v);
        caller.DecRef();
      }
    }

    /** SharedCore::Retire: the owner of a reference takes the result and gives the reference up. */
    method Retire() returns (v: Payload)
      requires result.Stored? && refs >= 1
      modifies this
      ensures v == old(result.v) && refs == old(refs) - 1
      ensures result == if old(refs) == 1 then Destroyed else old(result)
      ensures (refs, result) == Retired(old(refs), old(result))
    {
      if refs == 1 {
        v := MoveOut();
      } else {
        v := result.v;
      }
      DecRef();
    }

    /** SharedFuture::Get of a future that is not used again; it keeps its reference. */
    method Get() returns (v: Payload)
      requires result.Stored? && refs >= 1
      modifies this`result
      ensures v == old(result.v) && result == if refs == 1 then MovedFrom else old(result)
    {
      if refs == 1 {
        v := MoveOut();
      } else {
        v := result.v;
      }
    }
  }

  /** A core that is called in the dispatch of a reachable shared core finds what Impl needs.  Its two steps leave
      of that core what Impl leaves, and it has the stored result; the result is moved away only if the core is
      the last of the list and no future, combinator or submitted callback is left. */
  lemma ImplIsSteps(s: Sys, junk: Option<Tid>)
    requires Reachable(s) && s.promise.Runs?
    requires s.promise.current in s.cb && Shape(s) && s.kind[s.promise.current] == Forwards
    ensures Readable(s) && s.refs >= 2
    ensures var s1 := SharedCoreRuns.Run(s, junk);
      && s1.promise.Forwarding? && Readable(s1) && Shape(s1)
      && var s2 := Forward(s1);
      && (s2.refs, s2.cell) == Consulted(s.refs, s.cell)
      && s.promise.current in s2.got && s2.got[s.promise.current] == s.truth
      && (s2.cell != s.cell <==> s.promise.next.None? && OnlyPromise(s))
  {
    hide Reachable, OnlyPromise;
    DispatchCounts(s);
    ReachableStep(s, s.promise.current, RunOp(junk));
    ReceivedIsStored(s, s.promise.current);
    hide Safe, Shape;
  }

  /** The steps of a core that is called by a core with one owner, as its callback, up to its own SetResult. */
  ghost predicate UniqueSteps(c: Connect.Config, s: Connect.Sys, i: nat, s1: Connect.Sys, s2: Connect.Sys, s': Connect.Sys) {
    && (if c.copyable then ConnectGoes(c, s, Connect.CountOp(i), s1) else s1 == s)
    && ConnectGoes(c, s1, Connect.MoveOp(i), s2)
    && ConnectGoes(c, s2, Connect.ReleaseOp(i), s')
  }

  ghost predicate ConnectGoes(c: Connect.Config, s: Connect.Sys, a: Connect.Action, s': Connect.Sys) {
    Connect.Enabled(c, s, a) && Connect.Safe(c, s, a) && s' == Connect.Apply(c, s, a)
  }

  /** In every reachable state of a chain of contracts with one owner each, a core that is called as a callback takes
      steps that do what Impl does on the heap at a count of 1, whether its value can be copied or not: it has the
      result, and the core before it is destroyed, for the first time. */
  lemma UniqueImplIsSteps(c: Connect.Config, s: Connect.Sys, i: nat)
    returns (s1: Connect.Sys, s2: Connect.Sys, s': Connect.Sys)
    requires ConnectProofs.Reachable(c, s) && 0 < i < |s.cores| && s.cores[i].at == Connect.Called
    ensures UniqueSteps(c, s, i, s1, s2, s') && |s'.cores| == |s.cores|
    ensures s.cores[i - 1].refs == 1 && s.cores[i - 1].cell == Stored(s.truth) && s.cores[i - 1].destroyed == 0
    ensures s'.cores[i - 1].refs == 0 && s'.cores[i - 1].cell == Destroyed && s'.cores[i - 1].destroyed == 1
    ensures s'.cores[i].cell == Stored(s.truth) && s'.cores[i].at == Connect.Filled
    ensures forall j :: 0 <= j < |s.cores| && j != i && j != i - 1 ==> s'.cores[j] == s.cores[j]
  {
    hide ConnectProofs.Reachable;
    ConnectProofs.ReachableInv(c, s);
    ConnectProofs.Knows(s, i);
    ConnectProofs.Knows(s, i - 1);
    s1 := if c.copyable then Connect.Count(s, i) else s;
    s2 := Connect.Move(c, s1, i);
    s' := Connect.Release(s2, i);
    hide ConnectProofs.Inv;
  }

  lemma ReachableStep(s: Sys, t: Tid, a: Action)
    requires Reachable(s) && Enabled(s, t, a) && !TrustsReady(a)
    ensures Safe(s, t, a)
  {
    hide Safe, Inv, Enabled, Reachable;
    ReachableInv(s);
    StepKeeps(s, t, a);
  }

  /** The owner of a reference to a ready core that loads the count, takes the result and releases the reference
      without a pause leaves what Retire leaves. */
  lemma RetireIsSteps(s: Sys, t: Tid)
    requires Reachable(s) && Enabled(s, t, GetRefOp) && s.word == Result
    ensures Readable(s) && s.refs >= 1
    ensures var s1 := LoadCount(s, t);
      && t in s1.pc && Readable(s1)
      && var s2 := Drop(Take(s1, t), t);
      && (s2.refs, s2.cell) == Retired(s.refs, s.cell)
      && t in s2.taken && s2.taken[t] == s.truth && OwnerIs(s2, t, NoRef)
  {
    hide Reachable;
    ReadyHolder(s, t);
    hide Shape;
  }

  /** A future that loads the count and takes the result without a pause leaves what Get && leaves, and keeps its
      reference. */
  lemma GetIsSteps(s: Sys, t: Tid)
    requires Reachable(s) && Enabled(s, t, GetRefOp) && s.word == Result
    ensures Readable(s) && s.refs >= 1
    ensures var s1 := LoadCount(s, t);
      && t in s1.pc && Readable(s1)
      && var s2 := Take(s1, t);
      && s2.refs == s.refs && s2.cell == Got(s.refs, s.cell)
      && t in s2.taken && s2.taken[t] == s.truth && OwnerIs(s2, t, Spent)
  {
    hide Reachable;
    ReadyHolder(s, t);
    hide Shape;
  }

  lemma ReadyHolder(s: Sys, t: Tid)
    requires Reachable(s) && OwnerIs(s, t, Holds) && s.word == Result
    ensures Readable(s) && s.refs >= 1 && s.cell.v == s.truth
  {
    assert Enabled(s, t, ReadOp) by { hide Reachable; ReachableShape(s); }
    ReachableStep(s, t, ReadOp);
    ReceivedIsStored(s, t);
    hide Reachable;
  }

  lemma ReachableShape(s: Sys)
    requires Reachable(s)
    ensures Shape(s)
  {
    hide Reachable;
    ReachableInv(s);
  }
}
