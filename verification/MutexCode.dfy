/** Mutex as code on a heap (include/yaclib/coro/mutex.hpp): the word `_sender`, the private list `_receiver`
    and the intrusive `next` pointers.  Other threads do not interfere here; MutexRuns interleaves the same
    accesses with everybody else's. */
module MutexCode {
  import opened Common
  import opened IntrusiveLists
  import MutexRuns
  import MutexTheorems

  datatype Word = NotLocked | NoWaiters | Waiter(head: Node)

  /** A coroutine that goes on, and the executor on which it does. */
  datatype Resumption = Resumption(core: Node, on: Exec)

  function WordOf(q: seq<Node>): Word {
    if q == [] then NoWaiters else Waiter(q[|q| - 1])
  }

  /** The batch that the next owner is taken from. */
  function NextBatch(fifo: bool, batch: seq<Node>, arrivals: seq<Node>): seq<Node> {
    if batch != [] then batch else if fifo then arrivals else Reversed(arrivals)
  }

  lemma GrantedIs(c: MutexRuns.Config, batch: seq<Node>, arrivals: seq<Node>, batch': seq<Node>, arrivals': seq<Node>)
    requires NextBatch(c.fifo, batch, arrivals) != [] && batch' == NextBatch(c.fifo, batch, arrivals)[1..]
    requires arrivals' == if batch != [] then arrivals else []
    ensures var l := MutexTheorems.Lock(true, {}, Ids(batch), Ids(arrivals));
      && MutexTheorems.Awaited(l)
      && MutexTheorems.Granted(c, l)
         == MutexTheorems.Lock(true, {NextBatch(c.fifo, batch, arrivals)[0].id}, Ids(batch'), Ids(arrivals'))
  {
    IdsReversed(arrivals);
    var q := NextBatch(c.fifo, batch, arrivals);
    assert Ids(q)[1..] == Ids(q[1..]);
  }

  class MutexImpl {
    const fifo: bool
    const batching: bool
    var sender: Word
    var receiver: Node?
    var resumed: seq<Resumption>
    ghost var arrivals: seq<Node>
    ghost var batch: seq<Node>

    /** The lists, `receiver` aside. */
    ghost predicate Lists()
      reads this, arrivals, batch
    {
      && Stack(arrivals) && List(batch)
      && (forall x <- arrivals :: x !in batch)
      && (if sender == NotLocked then arrivals == batch == [] else sender == WordOf(arrivals))
    }

    ghost predicate Valid()
      reads this, arrivals, batch
    {
      Lists() && receiver == First(batch)
    }

    /** Everybody who waits, the next owner first. */
    ghost function Queue(): seq<Node>
      reads this
    {
      batch + if fifo then arrivals else Reversed(arrivals)
    }

    /** The abstract lock that MutexTheorems.Refines has the machine refine; who owns it is not the list's to say. */
    ghost function Abstract(owners: set<Tid>): MutexTheorems.Lock
      reads this
    {
      MutexTheorems.Lock(sender != NotLocked, owners, Ids(batch), Ids(arrivals))
    }

    /** The lists after the first of the queue left it. */
    twostate predicate Popped()
      reads this
    {
      && old(Queue()) != [] && sender != NotLocked
      && batch == (if old(batch) != [] then old(batch) else old(Queue()))[1..]
      && arrivals == if old(batch) != [] then old(arrivals) else []
    }

    /** That is the step of the abstract lock that grants it to the first of the queue. */
    twostate lemma PoppedIsGranted()
      requires Popped() && old(sender) != NotLocked
      ensures old(MutexTheorems.Awaited(Abstract({})))
      ensures Abstract({old(Queue())[0].id})
           == MutexTheorems.Granted(MutexRuns.Config(fifo, batching), old(Abstract({})))
    {
      hide Ids, MutexTheorems.Awaited, MutexTheorems.Granted, Reversed;
      assert old(batch) == [] ==> old(Queue()) == NextBatch(fifo, old(batch), old(arrivals));
      GrantedIs(MutexRuns.Config(fifo, batching), old(batch), old(arrivals), batch, arrivals);
    }

    constructor (fifo: bool, batching: bool)
      ensures Valid() && sender == NotLocked && resumed == [] && this.fifo == fifo && this.batching == batching
    {
      this.fifo, this.batching := fifo, batching;
      sender, receiver, resumed, arrivals, batch := NotLocked, null, [], [], [];
    }

    method TryLockAwait() returns (ok: bool)
      requires Valid()
      modifies this`sender
      ensures Valid() && (ok <==> old(sender) == NotLocked)
      ensures sender == if ok then NoWaiters else old(sender)
    {
      ok := sender == NotLocked;
      if ok {
        sender := NoWaiters;
      }
    }

    /** True when the coroutine suspends.  The weak compare_exchange fails `spurious` times for no reason. */
    method AwaitLock(curr: Node, spurious: nat) returns (suspends: bool)
      requires Valid() && curr !in arrivals && curr !in batch
      modifies this`sender, this`arrivals, curr`next
      ensures Valid() && (suspends <==> old(sender) != NotLocked)
      ensures arrivals == if suspends then old(arrivals) + [curr] else old(arrivals)
      ensures sender == if suspends then Waiter(curr) else NoWaiters
    {
      var expected := sender;
      var failures := spurious;
      while true
        invariant expected == sender == old(sender) && arrivals == old(arrivals) && Valid()
        decreases failures
      {
        if expected == NotLocked {
          if sender == expected && failures == 0 {
            sender := NoWaiters;
            return false;
          }
        } else {
          curr.next := if expected.Waiter? then expected.head else null;
          if sender == expected && failures == 0 {
            StackPush(arrivals, curr);
            sender := Waiter(curr);
            arrivals := arrivals + [curr];
            return true;
          }
        }
        expected := sender;
        failures := failures - 1;
      }
    }

    method TryUnlockAwait() returns (ok: bool)
      requires Valid() && sender != NotLocked
      modifies this`sender
      ensures Valid() && (ok <==> Queue() == [])
      ensures sender == if ok then NotLocked else old(sender)
    {
      if receiver != null {
        return false;
      }
      ok := sender == NoWaiters;
      if ok {
        sender := NotLocked;
      }
    }

    /** The next owner.  When `_receiver` is empty, everybody behind `_sender` is taken, and in FIFO mode the
        list is turned around. */
    method GetHead() returns (head: Node)
      requires Valid() && Queue() != []
      modifies this`sender, this`arrivals, this`batch, arrivals
      ensures Lists() && batch != [] && head == batch[0] && sender != NotLocked
      ensures batch == if old(batch) != [] then old(batch) else old(Queue())
      ensures arrivals == if old(batch) != [] then old(arrivals) else []
      ensures old(batch) != [] ==> sender == old(sender)
      ensures forall x <- old(arrivals) :: x.executor == old(x.executor)
    {
      if receiver != null {
        return receiver;
      }
      ghost var q := arrivals;
      var expected := sender;
      sender, arrivals := NoWaiters, [];
      if fifo {
        head := TurnAround(expected.head, q);
        batch := q;
      } else {
        head := expected.head;
        StackIsList(q);
        batch := Reversed(q);
      }
    }

    /** Take the head of the list that GetHead found. */
    method PopHead(head: Node)
      requires Lists() && batch != [] && head == batch[0] && sender != NotLocked
      modifies this`receiver, this`batch
      ensures Valid() && batch == old(batch)[1..]
      ensures head !in arrivals && head !in batch
    {
      ListTail(batch);
      receiver := head.next;
      batch := batch[1..];
    }

    /** The first of the queue becomes the owner, on its own executor. */
    method UnlockHereAwait()
      requires Valid() && Queue() != []
      modifies this, arrivals
      ensures Valid() && sender != NotLocked && Queue() == old(Queue()[1..])
      ensures resumed == old(resumed) + [Resumption(old(Queue()[0]), old(Queue()[0].executor))]
      ensures Popped()
    {
      var head := GetHead();
      PopHead(head);
      resumed := resumed + [Resumption(head, head.executor)];
    }

    /** The coroutine `curr` goes on, on the executor of the next owner, and that one on this thread. */
    method AwaitUnlock(curr: Node)
      requires Valid() && batch != [] && curr !in arrivals && curr !in batch
      modifies this`receiver, this`batch, this`resumed, curr`executor, batch
      ensures Valid() && Queue() == old(Queue()[1..])
      ensures curr.executor == old(batch[0].executor) && old(batch[0]).executor == old(curr.executor)
      ensures resumed == old(resumed)
                       + [Resumption(curr, old(batch[0].executor)), Resumption(old(batch[0]), old(curr.executor))]
    {
      var head := receiver;
      PopHead(head);
      curr.executor, head.executor := head.executor, curr.executor;
      resumed := resumed + [Resumption(curr, curr.executor)];
      resumed := resumed + [Resumption(head, head.executor)];
    }

    /** The end of AwaitUnlockOn: the next owner goes on, on its own executor, or on this thread and then on
        `currExecutor` when it was in `_receiver` and batching is on. */
    method PassOn(currExecutor: Exec)
      requires Valid() && Queue() != []
      modifies this, arrivals, batch
      ensures Valid() && sender != NotLocked && Queue() == old(Queue())[1..]
      ensures resumed == old(resumed) + [Resumption(old(Queue())[0],
                           if batching && old(batch) != [] then currExecutor else old(Queue()[0].executor))]
      ensures Popped()
    {
      ghost var first := Queue()[0];
      var head := GetHead();
      assert head == first;
      if batching && receiver != null {
        PopHead(head);
        head.executor := currExecutor;
      } else {
        PopHead(head);
      }
      resumed := resumed + [Resumption(head, head.executor)];
    }

    /** The coroutine `curr` goes on, on `executor`; then the next owner, if there is one. */
    method AwaitUnlockOn(curr: Node, executor: Exec)
      requires Valid() && sender != NotLocked && curr !in arrivals && curr !in batch
      modifies this, curr`executor, arrivals, batch
      ensures Valid() && curr.executor == executor
      ensures sender == NotLocked <==> old(Queue()) == []
      ensures old(Queue()) != [] ==> Queue() == old(Queue())[1..]
      ensures resumed == old(resumed) + [Resumption(curr, executor)]
        + if old(Queue()) == [] then []
          else [Resumption(old(Queue())[0],
                           if batching && old(batch) != [] then old(curr.executor) else old(Queue()[0].executor))]
    {
      var currExecutor := curr.executor;
      curr.executor := executor;
      resumed := resumed + [Resumption(curr, executor)];
      var ok := TryUnlockAwait();
      if !ok {
        PassOn(currExecutor);
      }
    }

    method UnlockHere()
      requires Valid() && sender != NotLocked
      modifies this, arrivals
      ensures Valid() && (sender == NotLocked <==> old(Queue()) == [])
      ensures old(Queue()) == [] ==> resumed == old(resumed)
      ensures old(Queue()) != [] ==> Queue() == old(Queue())[1..]
      ensures old(Queue()) != [] ==> resumed == old(resumed) + [Resumption(old(Queue())[0], old(Queue()[0].executor))]
    {
      var ok := TryUnlockAwait();
      if !ok {
        UnlockHereAwait();
      }
    }

    /** UnlockAwaiter: `curr` suspends only to let the next owner of a batch go on here. */
    method CoUnlock(curr: Node)
      requires Valid() && sender != NotLocked && curr !in arrivals && curr !in batch
      modifies this, curr`executor, arrivals, batch
      ensures Valid() && (sender == NotLocked <==> old(Queue()) == [])
      ensures old(Queue()) != [] ==> Queue() == old(Queue())[1..]
      ensures curr.executor == if batching && old(batch) != [] then old(batch[0].executor) else old(curr.executor)
      ensures resumed == old(resumed)
        + (if old(Queue()) == [] then []
           else if batching && old(batch) != [] then
             [Resumption(curr, old(batch[0].executor)), Resumption(old(batch[0]), old(curr.executor))]
           else [Resumption(old(Queue())[0], old(Queue()[0].executor))])
    {
      var ok := TryUnlockAwait();
      if ok {
        return;
      }
      if batching && receiver != null {
        AwaitUnlock(curr);
      } else {
        UnlockHereAwait();
      }
    }
  }

  /** StickyGuard (include/yaclib/coro/guard_sticky.hpp): remembers the executor of a coroutine that had to wait. */
  class StickyGuard {
    const mutex: MutexImpl
    var executor: Option<Exec>

    constructor (mutex: MutexImpl)
      ensures this.mutex == mutex && executor == None
    {
      this.mutex := mutex;
      executor := None;
    }

    /** LockStickyAwaiter; true when the coroutine suspends.  An owner for whom nobody waits may unlock the mutex
        (`freed`) between the two attempts. */
    method Lock(curr: Node, freed: bool, spurious: nat) returns (suspends: bool)
      requires mutex.Valid() && curr !in mutex.arrivals && curr !in mutex.batch
      modifies this`executor, mutex`sender, mutex`arrivals, curr`next
      ensures mutex.Valid() && mutex.sender != NotLocked
      ensures suspends <==> old(mutex.sender) != NotLocked && !(freed && old(mutex.Queue()) == [])
      ensures mutex.arrivals == if suspends then old(mutex.arrivals) + [curr] else old(mutex.arrivals)
      ensures executor == if suspends then Some(curr.executor) else None
    {
      executor := None;
      var ok := mutex.TryLockAwait();
      if ok {
        return false;
      }
      if freed {
        ok := mutex.TryUnlockAwait();
      }
      executor := Some(curr.executor);
      suspends := mutex.AwaitLock(curr, spurious);
      if !suspends {
        executor := None;
      }
    }

    /** UnlockStickyAwaiter: afterwards `curr` is on the executor it had before Lock, whether it waited or not,
        if it is now on the one it was given with the lock. */
    method Unlock(curr: Node)
      requires mutex.Valid() && mutex.sender != NotLocked && curr !in mutex.arrivals && curr !in mutex.batch
      modifies mutex, curr`executor, mutex.arrivals, mutex.batch
      ensures mutex.Valid() && (mutex.sender == NotLocked <==> old(mutex.Queue()) == [])
      ensures old(mutex.Queue()) != [] ==> mutex.Queue() == old(mutex.Queue())[1..]
      ensures curr.executor == if executor.Some? then executor.value else old(curr.executor)
      ensures executor.Some? ==> old(mutex.resumed) + [Resumption(curr, executor.value)] <= mutex.resumed
    {
      match executor
      case None => mutex.UnlockHere();
      case Some(e) => mutex.AwaitUnlockOn(curr, e);
    }
  }
}
