/** Wait and WaitFor (include/yaclib/async/detail/wait_impl.hpp) and the counter of their event
    (include/yaclib/util/detail/atomic_counter.hpp) as code that assigns words and counters.  Producers finish
    at three moments only, before the waiter subtracts its share, while it waits and before it takes its
    callbacks back; WaitRuns lets them finish whenever they like. */
module WaitCode {

  /** The word of an input's core; the callback can only be the waiter's event. */
  datatype Word = Empty | Callback | Result

  function Callbacks(words: seq<Word>): nat {
    if words == [] then 0 else Callbacks(words[..|words| - 1]) + if words[|words| - 1] == Callback then 1 else 0
  }

  lemma {:induction false} CallbacksUpdate(words: seq<Word>, i: nat, x: Word)
    requires i < |words|
    ensures Callbacks(words[i := x])
         == Callbacks(words) - (if words[i] == Callback then 1 else 0) + if x == Callback then 1 else 0
  {
    var last := |words| - 1;
    if i < last {
      CallbacksUpdate(words[..last], i, x);
      assert words[i := x][..last] == words[..last][i := x];
    } else {
      assert words[i := x][..last] == words[..last];
    }
  }

  lemma {:induction false} NoCallbacks(words: seq<Word>)
    ensures Callbacks(words) == 0 <==> forall i :: 0 <= i < |words| ==> words[i] != Callback
    ensures Callbacks(words) <= |words|
  {
    if words != [] { NoCallbacks(words[..|words| - 1]); }
  }

  /** AtomicCounter with SetDeleter: the last reference sets the event. */
  class Event {
    var count: int
    var ready: bool

    constructor (n: int)
      ensures count == n && !ready
    {
      count, ready := n, false;
    }

    method Add(delta: nat)
      modifies this`count
      ensures count == old(count) + delta
    {
      count := count + delta;
    }

    method SubEqual(n: nat) returns (last: bool)
      modifies this`count
      ensures count == old(count) - n && (last <==> count == 0)
    {
      last := count == n;
      count := count - n;
    }

    method Sub(delta: nat)
      modifies this
      ensures count == old(count) - delta && (ready <==> old(ready) || count == 0)
    {
      var last := SubEqual(delta);
      if last {
        ready := true;
      }
    }
  }

  /** SetResult of every producer in `finished` that has not set it yet: a callback decrements the event,
      of whose count `own` belongs to the waiter. */
  method Finish(words: array<Word>, finished: seq<bool>, event: Event, ghost own: nat)
    requires |finished| == words.Length
    requires event.count == Callbacks(words[..]) + own && (event.ready <==> event.count == 0)
    modifies words, event
    ensures forall i :: 0 <= i < words.Length ==> words[i] == if finished[i] then Result else old(words[i])
    ensures event.count == Callbacks(words[..]) + own && (event.ready <==> event.count == 0)
  {
    var i := 0;
    while i < words.Length
      invariant 0 <= i <= words.Length
      invariant forall j :: 0 <= j < words.Length ==> words[j] == if j < i && finished[j] then Result else old(words[j])
      invariant event.count == Callbacks(words[..]) + own && (event.ready <==> event.count == 0)
    {
      if finished[i] {
        CallbacksUpdate(words[..], i, Result);
        var word := words[i];
        ghost var was := words[..];
        words[i] := Result;
        assert words[..] == was[i := Result];
        if word == Callback {
          event.Sub(1);
        }
      }
      i := i + 1;
    }
  }

  /** SetCallback of every input. */
  method SetCallbacks(words: array<Word>) returns (waitCount: nat)
    requires forall i :: 0 <= i < words.Length ==> words[i] != Callback
    modifies words
    ensures forall i :: 0 <= i < words.Length ==> words[i] == if old(words[i]) == Empty then Callback else Result
    ensures waitCount == Callbacks(words[..]) <= words.Length
  {
    waitCount := 0;
    NoCallbacks(words[..]);
    var i := 0;
    while i < words.Length
      invariant 0 <= i <= words.Length && waitCount == Callbacks(words[..]) <= i
      invariant forall j :: 0 <= j < words.Length ==>
                  words[j] == if j < i && old(words[j]) == Empty then Callback else old(words[j])
    {
      if words[i] == Empty {
        CallbacksUpdate(words[..], i, Callback);
        ghost var was := words[..];
        words[i] := Callback;
        assert words[..] == was[i := Callback];
        waitCount := waitCount + 1;
      }
      i := i + 1;
    }
  }

  /** Reset of every input. */
  method ResetCallbacks(words: array<Word>) returns (resetCount: nat)
    requires forall i :: 0 <= i < words.Length ==> words[i] != Empty
    modifies words
    ensures forall i :: 0 <= i < words.Length ==> words[i] == if old(words[i]) == Result then Result else Empty
    ensures resetCount == old(Callbacks(words[..]))
  {
    resetCount := 0;
    ghost var start := words[..];
    var i := 0;
    while i < words.Length
      invariant 0 <= i <= words.Length && resetCount == Callbacks(start) - Callbacks(words[..])
      invariant forall j :: 0 <= j < words.Length ==>
                  words[j] == if j < i && start[j] != Result then Empty else start[j]
    {
      if words[i] != Result {
        CallbacksUpdate(words[..], i, Empty);
        ghost var was := words[..];
        words[i] := Empty;
        assert words[..] == was[i := Empty];
        resetCount := resetCount + 1;
      }
      i := i + 1;
    }
    NoCallbacks(words[..]);
  }

  /** WaitRange with a timeout; WaitIterator does not wait for nothing.  The answer is true exactly when every input has its result in the end; an input
      that has none is as it was, without a callback, and may be waited for again; when the answer is false all
      producers that finished have set their results. */
  method WaitRange(words: array<Word>, early: seq<bool>, during: seq<bool>, late: seq<bool>) returns (all: bool)
    requires |early| == |during| == |late| == words.Length
    requires forall i :: 0 <= i < words.Length ==> words[i] != Callback
    modifies words
    ensures all <==> forall i :: 0 <= i < words.Length ==> words[i] == Result
    ensures forall i :: 0 <= i < words.Length ==> words[i] == Result || words[i] == old(words[i])
    ensures forall i :: 0 <= i < words.Length && words[i] == Result ==> old(words[i]) == Result || early[i] || during[i] || late[i]
    ensures !all ==> forall i :: 0 <= i < words.Length && (early[i] || during[i] || late[i]) ==> words[i] == Result
  {
    hide Callbacks;
    var n := words.Length;
    if n == 0 {
      return true;
    }
    var event := new Event(n + 1);
    var waitCount := SetCallbacks(words);
    NoCallbacks(words[..]);
    if waitCount == 0 {
      return true;
    }
    Finish(words, early, event, n - waitCount + 1);
    NoCallbacks(words[..]);
    var last := event.SubEqual(n - waitCount + 1);
    if last {
      return true;
    }
    Finish(words, during, event, 0);
    NoCallbacks(words[..]);
    if event.ready {
      return true;
    }
    Finish(words, late, event, 0);
    NoCallbacks(words[..]);
    var resetCount := ResetCallbacks(words);
    if resetCount != 0 {
      if resetCount == waitCount {
        return false;
      }
      var zero := event.SubEqual(resetCount);
      if zero {
        return false;
      }
    }
    return resetCount == 0;
  }

  /** co_await of several futures (include/yaclib/algo/detail/shared_event.hpp,
      include/yaclib/coro/detail/await_awaiter.hpp): SetCallbacksDynamic, await_ready and await_suspend of
      MultiAwaitAwaiter; producers finish before await_ready, between it and the last decrement of
      await_suspend, and afterwards.  The coroutine goes on by itself only when every future has its result;
      if it suspends, the event resumes it exactly when the last one has. */
  method MultiAwait(words: array<Word>, early: seq<bool>, during: seq<bool>, late: seq<bool>)
    returns (suspended: bool, resumed: bool)
    requires |early| == |during| == |late| == words.Length
    requires forall i :: 0 <= i < words.Length ==> words[i] != Callback
    modifies words
    ensures !suspended ==> !resumed && forall i :: 0 <= i < words.Length ==> words[i] == Result
    ensures suspended ==> (resumed <==> forall i :: 0 <= i < words.Length ==> words[i] == Result)
    ensures forall i :: 0 <= i < words.Length ==>
              (words[i] == Result ==> old(words[i]) == Result || early[i] || during[i] || late[i])
              && (suspended && late[i] ==> words[i] == Result)
  {
    var n := words.Length;
    var event := new Event(n + 1);
    var waitCount := SetCallbacks(words);
    event.count := event.count - (n - waitCount);
    Finish(words, early, event, 1);
    NoCallbacks(words[..]);
    if event.count == 1 {
      return false, false;
    }
    Finish(words, during, event, 1);
    NoCallbacks(words[..]);
    var last := event.SubEqual(1);
    if last {
      return false, false;
    }
    Finish(words, late, event, 0);
    NoCallbacks(words[..]);
    return true, event.ready;
  }
}
