/** A WaitGroup over a OneShotEvent (include/yaclib/algo/wait_group.hpp, src/algo/one_shot_event.cpp,
    include/yaclib/util/detail/atomic_counter.hpp): any number of operations that are added and done and any
    number of waiters, interleaved at every access to the counter and to the event's word.

    An operation is anything that ends in Done: a task of the user, or an attached future, whose callback
    calls Sub(1), or the thread in InsertRange that gives back the futures that were ready.  The count
    reaches zero once: operations are added only while another one is not done, or first, to a group that was made
    with a count of zero. */
module WaitGroupRuns {
  import opened Common
  import opened Census

  /** The event's word, as a pointer: kEmpty, kAllDone or the job added last. */
  datatype Word = Empty | AllDone | Top(t: Tid)

  datatype OpPhase =
    | Unborn
    | Working   // counted
    | Sets      // its decrement was the last, before the exchange with kAllDone
    | Calls     // has the list of jobs, calls those of `todo`
    | Over

  datatype Op = Op(at: OpPhase, todo: seq<Tid>)

  datatype WaiterPhase =
    | Idle
    | Tries     // in TryAdd, `expected` was loaded
    | Added     // waits for its job to be called
    | Woken     // its job was called
    | Refused   // TryAdd saw kAllDone

  datatype Waiter = Waiter(at: WaiterPhase, expected: Word)

  /** `stack`: the jobs behind the word, in the order of the successful additions; `added`: all of them. */
  datatype Sys = Sys(count: int, done: bool, stack: seq<Tid>, ops: map<Tid, Op>, waiters: map<Tid, Waiter>,
                     added: seq<Tid>, called: seq<Tid>)

  predicate IsWorking(x: Op) { x.at == Working }

  ghost predicate Init(s: Sys) {
    && !s.done && s.stack == [] && s.added == [] && s.called == []
    && (forall t :: t in s.ops ==> s.ops[t] == Op(Working, []) || s.ops[t] == Op(Unborn, []))
    && s.count == N(s.ops, IsWorking)
    && (forall w :: w in s.waiters ==> s.waiters[w].at == Idle)
  }

  function Head(s: Sys): Word {
    if s.done then AllDone else if s.stack == [] then Empty else Top(s.stack[|s.stack| - 1])
  }

  datatype Action =
    | AddOp(u: Tid) | DoneOp | ExchangeOp | CallOp       // operation t
    | TryOp | AddJobOp(spurious: bool)                   // waiter t

  /** Nothing was added yet. */
  ghost predicate NothingAdded(s: Sys) { forall t :: t in s.ops ==> s.ops[t].at == Unborn }

  ghost predicate Enabled(s: Sys, t: Tid, a: Action) {
    match a
    case AddOp(u) =>
      u in s.ops && s.ops[u].at == Unborn && ((t in s.ops && s.ops[t].at == Working) || NothingAdded(s))
    case DoneOp => t in s.ops && s.ops[t].at == Working
    case ExchangeOp => t in s.ops && s.ops[t].at == Sets
    case CallOp => t in s.ops && s.ops[t].at == Calls
    case TryOp => t in s.waiters && s.waiters[t].at == Idle
    case AddJobOp(_) => t in s.waiters && s.waiters[t].at == Tries
  }

  /** Nothing is added to a group that is done, the counter does not wrap around, the event is set once, a job that is called waits for it. */
  ghost predicate Safe(s: Sys, t: Tid, a: Action)
    requires Enabled(s, t, a)
  {
    match a
    case AddOp(_) => !s.done
    case DoneOp => s.count >= 1 && !s.done
    case ExchangeOp => !s.done && s.count == 0
    case CallOp => s.ops[t].todo != [] && s.ops[t].todo[0] in s.waiters && s.waiters[s.ops[t].todo[0]].at == Added
    case _ => true
  }

  function PutOp(s: Sys, t: Tid, x: Op): Sys { s.(ops := s.ops[t := x]) }

  function PutWaiter(s: Sys, w: Tid, x: Waiter): Sys { s.(waiters := s.waiters[w := x]) }

  function Add(s: Sys, u: Tid): Sys { PutOp(s.(count := s.count + 1), u, Op(Working, [])) }

  /** Sub(1) with SetDeleter. */
  function Done(s: Sys, t: Tid): Sys {
    PutOp(s.(count := s.count - 1), t, Op(if s.count == 1 then Sets else Over, []))
  }

  /** OneShotEvent::Set. */
  function Exchange(s: Sys, t: Tid): Sys {
    PutOp(s.(done := true, stack := []), t, Op(if s.stack == [] then Over else Calls, Reversed(s.stack)))
  }

  /** The next job is read before the job is called. */
  function CallOne(s: Sys, t: Tid): Sys
    requires t in s.ops && s.ops[t].todo != []
  {
    var w, rest := s.ops[t].todo[0], s.ops[t].todo[1..];
    PutOp(PutWaiter(s.(called := s.called + [w]), w, Waiter(Woken, Empty)), t, Op(if rest == [] then Over else Calls, rest))
  }

  /** TryAdd: the word was (re)loaded. */
  function Loaded(s: Sys, w: Tid): Sys {
    PutWaiter(s, w, Waiter(if s.done then Refused else Tries, Head(s)))
  }

  function AddJob(s: Sys, w: Tid, spurious: bool): Sys
    requires w in s.waiters
  {
    if Head(s) == s.waiters[w].expected && !spurious then
      PutWaiter(s.(stack := s.stack + [w], added := s.added + [w]), w, Waiter(Added, Empty))
    else Loaded(s, w)
  }

  function Apply(s: Sys, t: Tid, a: Action): (s': Sys)
    requires Enabled(s, t, a) && Safe(s, t, a)
  {
    match a
    case AddOp(u) => Add(s, u)
    case DoneOp => Done(s, t)
    case ExchangeOp => Exchange(s, t)
    case CallOp => CallOne(s, t)
    case TryOp => Loaded(s, t)
    case AddJobOp(spurious) => AddJob(s, t, spurious)
  }
}
