/** Strand as code on a heap (src/exe/strand.cpp): the tagged pointer `_jobs` and the intrusive list of jobs.
    Other threads do not interfere here; StrandRuns interleaves the same accesses with everybody else's. */
module StrandCode {
  import opened Common
  import opened IntrusiveLists
  import StrandProofs

  /** Mark(), or the job pushed last, or nullptr. */
  datatype Word = Mark | Jobs(top: Node?)

  class Strand {
    var jobs: Word
    var refs: int
    var submitted: nat        // how often the strand was submitted to its executor
    var called: seq<Node>
    var dropped: seq<Node>
    ghost var stack: seq<Node>

    ghost predicate Valid()
      reads this, stack
    {
      Stack(stack) && (if jobs == Mark then stack == [] else jobs.top == Last(stack))
    }

    /** The strand as its machine sees it. */
    ghost function View(): StrandProofs.View
      reads this
    {
      StrandProofs.View(jobs == Mark, Ids(stack), refs, Ids(called))
    }

    constructor (refs: int)
      ensures Valid() && jobs == Mark && stack == [] && this.refs == refs && submitted == 0 && called == [] && dropped == []
    {
      jobs, this.refs, submitted, called, dropped, stack := Mark, refs, 0, [], [], [];
    }

    /** The weak compare_exchange fails `spurious` times for no reason.  The first job after Mark submits the
        strand, which then owns a reference to itself. */
    method Submit(job: Node, spurious: nat)
      requires Valid() && job !in stack
      modifies this`jobs, this`refs, this`submitted, this`stack, job`next
      ensures Valid() && jobs == Jobs(job) && stack == old(stack) + [job]
      ensures refs == old(refs) + if old(jobs) == Mark then 1 else 0
      ensures submitted == old(submitted) + if old(jobs) == Mark then 1 else 0
      ensures View() == StrandProofs.AfterSubmit(old(View()), job.id)
    {
      assert Ids(stack + [job]) == Ids(stack) + [job.id];
      var expected := jobs;
      var failures := spurious;
      var pushed := false;
      while !pushed
        invariant expected == old(jobs) && refs == old(refs) && submitted == old(submitted)
        invariant if pushed then Valid() && jobs == Jobs(job) && stack == old(stack) + [job]
                  else Valid() && jobs == old(jobs) && stack == old(stack)
        decreases !pushed, failures
      {
        job.next := if expected == Mark then null else expected.top;
        if jobs == expected && failures == 0 {
          StackPush(stack, job);
          jobs, stack, pushed := Jobs(job), stack + [job], true;
        } else {
          expected := jobs;
          failures := failures - 1;
        }
      }
      if expected == Mark {
        refs := refs + 1;
        submitted := submitted + 1;
      }
    }

    /** Job::Call of one job; it may do to its `next` what it likes. */
    method CallJob(job: Node)
      modifies this`called, job`next
      ensures called == old(called) + [job]
    {
      called := called + [job];
      job.next := *;
    }

    method DropJob(job: Node)
      modifies this`dropped, job`next
      ensures dropped == old(dropped) + [job]
    {
      dropped := dropped + [job];
      job.next := *;
    }

    /** The loop of Call: every job of the list is called once, in order. */
    method CallAll(first: Node, ghost q: seq<Node>)
      requires List(q) && q != [] && first == q[0]
      modifies this`called, q
      ensures called == old(called) + q
    {
      var prev: Node? := first;
      ghost var k := 0;
      while prev != null
        invariant 0 <= k <= |q| && prev == First(q[k..]) && List(q[k..])
        invariant called == old(called) + q[..k]
        decreases |q| - k
      {
        ListTail(q[k..]);
        assert q[k..][1..] == q[k + 1..] && q[..k + 1] == q[..k] + [q[k]];
        var next := prev.next;
        CallJob(prev);
        prev := next;
        k := k + 1;
      }
      assert q[..k] == q;
    }

    /** Every job of the list is called once, in the order of the pushes.  When they, or others meanwhile, submit
        further jobs, the strand is submitted again with these, otherwise it is marked again. */
    method Call(late: seq<Node>)
      requires Valid() && stack != [] && Distinct(late) && forall x <- late :: x !in stack
      modifies this, stack, late
      ensures Valid() && dropped == old(dropped) && called == old(called) + old(stack) && stack == late
      ensures late == [] ==> jobs == Mark && refs == old(refs) - 1 && submitted == old(submitted)
      ensures late != [] ==> jobs != Mark && refs == old(refs) && submitted == old(submitted) + 1
      ensures late == [] ==> View() == StrandProofs.AfterCall(old(View()))
    {
      assert Ids(called + stack) == Ids(called) + Ids(stack);
      ghost var q := stack;
      var node := jobs.top;
      jobs, stack := Jobs(null), [];
      var first := TurnAround(node, q);
      CallAll(first, q);
      SubmitAll(late);
      if jobs == Jobs(null) {
        jobs := Mark;
        refs := refs - 1;
      } else {
        submitted := submitted + 1;
      }
    }

    /** Jobs that are submitted while the strand is not marked do not submit it. */
    method SubmitAll(late: seq<Node>)
      requires Valid() && jobs == Jobs(null) && Distinct(late)
      modifies this`jobs, this`refs, this`submitted, this`stack, late
      ensures Valid() && jobs != Mark && stack == late && refs == old(refs) && submitted == old(submitted)
    {
      var i := 0;
      while i < |late|
        invariant 0 <= i <= |late| && Valid() && jobs != Mark && stack == late[..i]
        invariant refs == old(refs) && submitted == old(submitted)
      {
        assert late[..i + 1] == late[..i] + [late[i]];
        Submit(late[i], 0);
        i := i + 1;
      }
      assert late[..i] == late;
    }

    /** Every job of the list is dropped once, the last pushed first. */
    method Drop()
      requires Valid() && stack != []
      modifies this, stack
      ensures Valid() && jobs == Mark && stack == [] && called == old(called)
      ensures dropped == old(dropped) + Reversed(old(stack))
      ensures refs == old(refs) - 1 && submitted == old(submitted)
      ensures View() == StrandProofs.AfterDrop(old(View()))
    {
      ghost var q := Reversed(stack);
      StackIsList(stack);
      var node := jobs.top;
      jobs, stack := Mark, [];
      ghost var k := 0;
      while node != null
        invariant 0 <= k <= |q| && node == First(q[k..])
        invariant List(q[k..]) && forall x <- q :: x in old(stack)
        invariant dropped == old(dropped) + q[..k]
        invariant jobs == Mark && stack == [] && called == old(called)
        invariant refs == old(refs) && submitted == old(submitted)
        decreases |q| - k
      {
        ListTail(q[k..]);
        assert q[k..][1..] == q[k + 1..];
        var next := node.next;
        DropJob(node);
        node := next;
        k := k + 1;
      }
      assert q[..k] == q;
      refs := refs - 1;
    }
  }
}
