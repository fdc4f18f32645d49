/** FairThreadPool (src/runtime/fair_thread_pool.cpp) over the intrusive list of its jobs as code on a heap.  A
    method is a critical section and what follows it; FairPoolRuns interleaves them. */
module FairPoolCode {
  import opened Common
  import opened IntrusiveLists
  import Pool = FairPoolRuns
  import FairPoolProofs
  import Alone = FairPoolAlone

  /** One more node of `q` is done, behind `done`. */
  lemma Advance(done: seq<Node>, q: seq<Node>, k: nat)
    requires k < |q|
    ensures q[k..] != [] && q[k..][1..] == q[k + 1..] && done + q[..k] + [q[k..][0]] == done + q[..k + 1]
  {
    assert q[..k + 1] == q[..k] + [q[k]];
  }

  /** How a worker leaves Loop or goes to sleep in it. */
  datatype End = Waits | Exits

  class FairThreadPool {
    var jobs: LinkedList
    var count: nat
    var called: seq<Node>
    var dropped: seq<Node>

    ghost predicate Valid()
      reads this, jobs, jobs.head, jobs.elems
    {
      jobs.Valid()
    }

    /** The pool as its machine sees it. */
    ghost function View(): Alone.View
      reads this, jobs
    {
      Alone.View(count, Ids(jobs.elems))
    }

    constructor ()
      ensures Valid() && jobs.elems == [] && count == 0 && called == [] && dropped == []
      ensures fresh(jobs) && fresh(jobs.head)
    {
      jobs := new LinkedList();
      count, called, dropped := 0, [], [];
    }

    method Submit(job: Node)
      requires Valid() && job != jobs.head && job !in jobs.elems && count + Pool.JOB < Pool.U64
      modifies this`count, this`dropped, jobs, jobs.head, jobs.elems, job`next
      ensures Valid() && jobs == old(jobs)
      ensures if Pool.WasStop(old(count))
              then count == old(count) && jobs.elems == old(jobs.elems) && dropped == old(dropped) + [job]
              else count == Pool.AddJob(old(count)) && jobs.elems == old(jobs.elems) + [job] && dropped == old(dropped)
      ensures View() == Alone.Submitted(old(View()), job.id)
    {
      assert Ids(jobs.elems + [job]) == Ids(jobs.elems) + [job.id];
      if count % 2 == 1 {
        dropped := dropped + [job];
        return;
      }
      jobs.PushBack(job);
      count := (count + Pool.JOB) % Pool.U64;
    }

    method Stop()
      modifies this`count
      ensures count == Pool.SetStop(old(count))
    {
      if count % 2 == 0 {
        count := count + 1;
      }
    }

    method SoftStop()
      modifies this`count
      ensures count == if Pool.NoJobs(old(count)) then Pool.SetStop(old(count)) else Pool.SetWant(old(count))
    {
      if count / 4 == 0 {
        Stop();
      } else if count / 2 % 2 == 0 {
        count := count + 2;
      }
    }

    /** Every queued job is dropped, the first submitted first. */
    method HardStop()
      requires Valid()
      modifies this`count, this`dropped, jobs, jobs.head
      ensures Valid() && jobs == old(jobs) && jobs.elems == [] && count == Pool.SetStop(old(count))
      ensures dropped == old(dropped) + old(jobs.elems) && View() == Alone.HardStopped(old(View()))
    {
      ghost var q := jobs.elems;
      var moved := new LinkedList.Moved(jobs);
      Stop();
      ghost var k := 0;
      var empty := moved.Empty();
      while !empty
        invariant 0 <= k <= |q| && moved.Valid() && moved.elems == q[k..] && (empty <==> k == |q|)
        invariant fresh(moved) && fresh(moved.head)
        invariant dropped == old(dropped) + q[..k] && count == Pool.SetStop(old(count))
        invariant jobs == old(jobs) && Valid() && jobs.elems == []
        decreases |q| - k
      {
        Advance(old(dropped), q, k);
        var job := moved.PopFront();
        dropped := dropped + [job];
        k := k + 1;
        empty := moved.Empty();
      }
      assert q[..k] == q;
    }

    /** A job is called outside of the mutex, and counted down when the worker has it again. */
    method CallJob(job: Node)
      requires Valid() && Pool.JOB <= count < Pool.U64
      modifies this`count, this`called
      ensures Valid() && called == old(called) + [job] && count == Pool.PopJob(old(count))
    {
      called := called + [job];
      count := (count - Pool.JOB) % Pool.U64;
    }

    /** The body of the inner loop. */
    method CallNext()
      requires Valid() && count < Pool.U64 && count / 4 == |jobs.elems| > 0
      modifies this`count, this`called, jobs, jobs.head
      ensures Valid() && jobs == old(jobs) && jobs.elems == old(jobs.elems[1..]) && called == old(called) + [old(jobs.elems[0])]
      ensures count < Pool.U64 && count / 4 == old(count) / 4 - 1
      ensures Pool.WasStop(count) == Pool.WasStop(old(count)) && Pool.WantStop(count) == Pool.WantStop(old(count))
    {
      FairPoolProofs.CountDown(count);
      hide Pool.WasStop, Pool.WantStop, Pool.PopJob;
      var job := jobs.PopFront();
      CallJob(job);
    }

    /** The inner loop of a worker that is alone: all queued jobs are called, in the order of submission. */
    method CallAll()
      requires Valid() && count < Pool.U64 && count / 4 == |jobs.elems|
      modifies this`count, this`called, jobs, jobs.head
      ensures Valid() && jobs == old(jobs) && jobs.elems == [] && called == old(called) + old(jobs.elems)
      ensures count / 4 == 0 && count < Pool.U64
      ensures Pool.WasStop(count) == Pool.WasStop(old(count)) && Pool.WantStop(count) == Pool.WantStop(old(count))
    {
      hide Pool.WasStop, Pool.WantStop, Pool.PopJob, LinkedList.Valid, List;
      ghost var q := jobs.elems;
      ghost var k := 0;
      var empty := jobs.Empty();
      while !empty
        invariant 0 <= k <= |q| && Valid() && jobs == old(jobs) && jobs.elems == q[k..] && (empty <==> k == |q|)
        invariant count < Pool.U64 && count / 4 == |q| - k
        invariant Pool.WasStop(count) == Pool.WasStop(old(count)) && Pool.WantStop(count) == Pool.WantStop(old(count))
        invariant called == old(called) + q[..k]
        decreases |q| - k
      {
        Advance(old(called), q, k);
        CallNext();
        k := k + 1;
        empty := jobs.Empty();
      }
      assert q[..k] == q;
    }

    /** One worker alone, from the moment it has the mutex until it waits or exits: a soft stop that waited for
        the queued jobs stops the pool when they are done. */
    method Loop() returns (end: End)
      requires Valid() && count < Pool.U64 && count / 4 == |jobs.elems|
      modifies this`count, this`called, jobs, jobs.head
      ensures Valid() && jobs == old(jobs) && jobs.elems == [] && called == old(called) + old(jobs.elems)
      ensures end == Exits <==> Pool.WasStop(old(count)) || Pool.WantStop(old(count))
      ensures count / 4 == 0 && (Pool.WasStop(count) <==> end == Exits)
      ensures View() == Alone.Worked(old(View()))
    {
      CallAll();
      Alone.FlagsOnly(count, old(count));
      if count / 4 == 0 && count / 2 % 2 == 1 {
        Stop();
        return Exits;
      }
      if count % 2 == 1 {
        return Exits;
      }
      return Waits;
    }
  }
}
