/** OneShotEvent (src/algo/one_shot_event.cpp) as code on a heap and WaitGroup
    (include/yaclib/algo/wait_group.hpp) over it.  Other threads do not interfere here; WaitGroupRuns interleaves
    the same accesses with everybody else's. */
module WaitGroupCode {
  import opened Common
  import opened IntrusiveLists
  import W = WaitCode

  /** kAllDone, or the job added last; kEmpty is no job. */
  datatype Word = AllDone | Jobs(top: Node?)

  class OneShotEvent {
    var head: Word
    var called: seq<Node>
    ghost var stack: seq<Node>

    ghost predicate Valid()
      reads this, stack
    {
      Stack(stack) && (if head == AllDone then stack == [] else head.top == Last(stack))
    }

    constructor ()
      ensures Valid() && head == Jobs(null) && stack == [] && called == []
    {
      head, called, stack := Jobs(null), [], [];
    }

    /** False when the event is set.  The weak compare_exchange fails `spurious` times for no reason. */
    method TryAdd(job: Node, spurious: nat) returns (ok: bool)
      requires Valid() && job !in stack
      modifies this`head, this`stack, job`next
      ensures Valid() && (ok <==> old(head) != AllDone)
      ensures head == if ok then Jobs(job) else AllDone
      ensures stack == if ok then old(stack) + [job] else []
    {
      var expected := head;
      var failures := spurious;
      while expected != AllDone
        invariant expected == head == old(head) && stack == old(stack) && Valid()
        decreases failures
      {
        job.next := expected.top;
        if head == expected && failures == 0 {
          StackPush(stack, job);
          head, stack := Jobs(job), stack + [job];
          return true;
        }
        expected := head;
        failures := failures - 1;
      }
      return false;
    }

    method Ready() returns (ready: bool)
      ensures ready <==> head == AllDone
    {
      ready := head == AllDone;
    }

    /** Job::Call; the job may be gone afterwards. */
    method CallJob(job: Node)
      modifies this`called, job`next
      ensures called == old(called) + [job]
    {
      called := called + [job];
      job.next := *;
    }

    /** The loop of SetImpl: every job of the list is called once, in order. */
    method CallAll(first: Node?, ghost q: seq<Node>)
      requires List(q) && first == First(q)
      modifies this`called, q
      ensures called == old(called) + q
    {
      var job := first;
      ghost var k := 0;
      while job != null
        invariant 0 <= k <= |q| && job == First(q[k..]) && List(q[k..])
        invariant called == old(called) + q[..k]
        decreases |q| - k
      {
        ListTail(q[k..]);
        assert q[k..][1..] == q[k + 1..] && q[..k + 1] == q[..k] + [q[k]];
        var next := job.next;
        CallJob(job);
        job := next;
        k := k + 1;
      }
      assert q[..k] == q;
    }

    /** Every job is called once, the last added first. */
    method SetImpl(value: Word)
      requires Valid() && head != AllDone && (value == AllDone || value == Jobs(null))
      modifies this, stack
      ensures Valid() && head == value && stack == []
      ensures called == old(called) + Reversed(old(stack))
    {
      ghost var q := Reversed(stack);
      StackIsList(stack);
      assert forall x <- q :: x in stack;
      var job := head.top;
      head, stack := value, [];
      CallAll(job, q);
    }

    /** The event stays usable. */
    method Call()
      requires Valid() && head != AllDone
      modifies this, stack
      ensures Valid() && head == Jobs(null) && stack == []
      ensures called == old(called) + Reversed(old(stack))
    {
      SetImpl(Jobs(null));
    }

    method Set()
      requires Valid() && head != AllDone
      modifies this, stack
      ensures Valid() && head == AllDone && stack == []
      ensures called == old(called) + Reversed(old(stack))
    {
      SetImpl(AllDone);
    }

    /** The assertion: nobody waits. */
    method Reset()
      requires Valid() && stack == []
      modifies this`head
      ensures Valid() && head == Jobs(null)
    {
      head := Jobs(null);
    }
  }

  class WaitGroup {
    const event: OneShotEvent
    var count: nat

    constructor (count: nat)
      ensures fresh(event) && event.Valid() && event.head == Jobs(null) && event.stack == [] && event.called == []
      ensures this.count == count
    {
      event := new OneShotEvent();
      this.count := count;
    }

    method Add(n: nat)
      modifies this`count
      ensures count == old(count) + n
    {
      count := count + n;
    }

    /** The last operation sets the event and so calls everybody who waits. */
    method Done(n: nat)
      requires n <= count && event.Valid() && event.head != AllDone
      modifies this`count, event, event.stack
      ensures event.Valid() && count == old(count) - n
      ensures count == 0 ==> event.head == AllDone && event.stack == []
                             && event.called == old(event.called) + Reversed(old(event.stack))
      ensures count != 0 ==> event.head == old(event.head) && event.stack == old(event.stack)
                             && event.called == old(event.called)
    {
      var last := count == n;
      count := count - n;
      if last {
        event.Set();
      }
    }

    /** The loop over the futures; counts those that have no result yet. */
    static method SetCallbacks(words: array<W.Word>, refs: array<int>, move: bool) returns (waitCount: nat)
      requires words.Length == refs.Length
      requires forall i :: 0 <= i < words.Length ==> words[i] != W.Callback
      modifies words, refs
      ensures forall i :: 0 <= i < words.Length ==> words[i] == if old(words[i]) == W.Empty then W.Callback else W.Result
      ensures forall i :: 0 <= i < refs.Length ==>
                refs[i] == old(refs[i]) - if move && old(words[i]) == W.Result then 1 else 0
      ensures waitCount == W.Callbacks(words[..])
    {
      ghost var start := words[..];
      waitCount := 0;
      W.NoCallbacks(start);
      var i := 0;
      while i < words.Length
        invariant 0 <= i <= words.Length && waitCount == W.Callbacks(words[..]) <= i
        invariant forall j :: 0 <= j < words.Length ==>
                    words[j] == if j < i && start[j] == W.Empty then W.Callback else start[j]
        invariant forall j :: 0 <= j < refs.Length ==>
                    refs[j] == old(refs[j]) - if j < i && move && start[j] == W.Result then 1 else 0
      {
        if words[i] == W.Empty {
          W.CallbacksUpdate(words[..], i, W.Callback);
          ghost var was := words[..];
          words[i] := W.Callback;
          assert words[..] == was[i := W.Callback];
          waitCount := waitCount + 1;
        } else if move {
          refs[i] := refs[i] - 1;
        }
        i := i + 1;
      }
    }

    /** Attach (or, with `move`, Consume) of futures whose cores have the words `words` and the counts `refs`.
        Afterwards the group counts exactly the futures that have no result yet, each of which will call it
        back; a consumed future with a result is released at once.  The event is set only if nothing is left, and not
        by an empty range. */
    method InsertRange(words: array<W.Word>, refs: array<int>, move: bool, needAdd: bool)
      requires words.Length == refs.Length
      requires forall i :: 0 <= i < words.Length ==> words[i] != W.Callback
      requires event.Valid() && event.head != AllDone && (!needAdd ==> count >= words.Length)
      modifies this`count, event, event.stack, words, refs
      ensures forall i :: 0 <= i < words.Length ==> words[i] == if old(words[i]) == W.Empty then W.Callback else W.Result
      ensures forall i :: 0 <= i < refs.Length ==>
                refs[i] == old(refs[i]) - if move && old(words[i]) == W.Result then 1 else 0
      ensures count == old(count) + W.Callbacks(words[..]) - if needAdd then 0 else words.Length
      ensures event.Valid()
      ensures count == 0 < words.Length ==>
                event.head == AllDone && event.called == old(event.called) + Reversed(old(event.stack))
      ensures count != 0 || words.Length == 0 ==> event.head == old(event.head) && event.called == old(event.called)
    {
      if words.Length == 0 {
        return;
      }
      if needAdd {
        Add(words.Length);
      }
      var waitCount := SetCallbacks(words, refs, move);
      W.NoCallbacks(words[..]);
      if words.Length != waitCount {
        Done(words.Length - waitCount);
      }
    }
  }
}
