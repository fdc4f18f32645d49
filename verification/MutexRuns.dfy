/** Any number of coroutines using one Mutex, interleaved at every access to `_sender`
    (include/yaclib/coro/mutex.hpp, include/yaclib/coro/guard_sticky.hpp).

    The intrusive lists are sequences here; MutexCode has them on a heap.  `arrivals` are the waiters behind
    `_sender`, in the order of their successful compare_exchange; `receiver` is the owner's private list, the
    next one to serve first. */
module MutexRuns {
  import opened Common
  import opened Census

  datatype Config = Config(fifo: bool, batching: bool)

  /** `_sender`: kNotLocked, kLockedNoWaiters or a waiter. */
  datatype Word = NotLocked | NoWaiters | Head(t: Tid)

  datatype Phase =
    | Idle
    | TryCas       // TryLock between its load and its compare_exchange
    | TryCasAwait  // the same in await_ready of Lock
    | Wants        // await_ready said no, before AwaitLock
    | Locks        // in AwaitLock, `saved` = expected
    | Queued       // suspended
    | Holds        // owns the mutex
    | UnlockCas    // TryUnlockAwait between its load and its compare_exchange
    | Exchanges    // UnlockHereAwait, about to exchange `_sender`

  /** A thread in AwaitUnlockOn whose coroutine was already submitted elsewhere; `given` is `curr_executor`, the
      one that the coroutine had, and `on` the executor whose thread this is. */
  datatype Pass = NoPass | Starts(given: Exec, on: Exec) | Cas | Exchange

  /** `exec`: the coroutine's `_executor`; `runsOn`: the executor whose thread runs it, which is the one that it
      was last submitted to or the one of the thread that went on with it; `guard`: StickyGuard::_executor.  History: `home`, the executor before Lock, whether that was a sticky Lock,
      and whether the coroutine itself left the executor since. */
  datatype Coroutine = Coroutine(
    at: Phase, saved: Word, exec: Exec, runsOn: Exec, guard: Option<Exec>, home: Exec, sticky: bool, left: bool)

  /** History: all suspensions and all hand-overs in order, and the batches grabbed from `_sender`. */
  datatype Sys = Sys(
    locked: bool, arrivals: seq<Tid>, receiver: seq<Tid>, pass: Pass, co: map<Tid, Coroutine>,
    suspended: seq<Tid>, granted: seq<Tid>, batches: seq<seq<Tid>>)

  ghost predicate Init(s: Sys) {
    && !s.locked && s.arrivals == [] && s.receiver == [] && s.pass == NoPass
    && s.suspended == [] && s.granted == [] && s.batches == []
    && forall t :: t in s.co ==> s.co[t].at == Idle && s.co[t].runsOn == s.co[t].exec && !s.co[t].sticky
  }

  function Sender(s: Sys): Word {
    if !s.locked then NotLocked
    else if s.arrivals == [] then NoWaiters
    else Head(s.arrivals[|s.arrivals| - 1])
  }

  /** How the owner unlocks: UnlockHere, co_await Unlock, co_await UnlockOn(e), co_await StickyGuard::Unlock. */
  datatype Way = Here | Awaiting | On(e: Exec) | Sticky

  datatype Action =
    | TryLoadOp | LockLoadOp(sticky: bool) | TryCasOp | AwaitLoadOp | AwaitCasOp(spurious: bool)
    | SwitchOp(e: Exec)
    | UnlockOp(way: Way) | UnlockCasOp | ExchangeOp
    | PassStartOp | PassCasOp | PassExchangeOp

  ghost predicate Is(s: Sys, t: Tid, p: Phase) { t in s.co && s.co[t].at == p }

  ghost predicate Enabled(s: Sys, t: Tid, a: Action) {
    && t in s.co
    && match a
       case TryLoadOp => s.co[t].at == Idle
       case LockLoadOp(_) => s.co[t].at == Idle
       case TryCasOp => s.co[t].at == TryCas || s.co[t].at == TryCasAwait
       case AwaitLoadOp => s.co[t].at == Wants
       case AwaitCasOp(_) => s.co[t].at == Locks
       case SwitchOp(_) => s.co[t].at == Idle || s.co[t].at == Holds
       case UnlockOp(way) => s.co[t].at == Holds && (way == Sticky ==> s.co[t].sticky)
       case UnlockCasOp => s.co[t].at == UnlockCas
       case ExchangeOp => s.co[t].at == Exchanges
       case PassStartOp => s.pass.Starts?
       case PassCasOp => s.pass.Cas?
       case PassExchangeOp => s.pass.Exchange?
  }

  /** The assertion of TryUnlockAwait, and that a list which is about to be popped has a suspended coroutine. */
  ghost predicate Safe(s: Sys, t: Tid, a: Action)
    requires Enabled(s, t, a)
  {
    match a
    case UnlockOp(_) => s.locked && NextWaits(s)
    case ExchangeOp => BatchWaits(s)
    case PassStartOp => s.locked && NextWaits(s)
    case PassExchangeOp => BatchWaits(s)
    case _ => true
  }

  ghost predicate NextWaits(s: Sys) { s.receiver != [] ==> Is(s, s.receiver[0], Queued) }

  /** GetHead finds `_receiver` empty and waiters behind `_sender`. */
  ghost predicate BatchWaits(s: Sys) {
    s.receiver == [] && s.arrivals != [] && forall u :: u in s.arrivals ==> Is(s, u, Queued)
  }

  // ---------- locking ----------

  function Put(s: Sys, t: Tid, x: Coroutine): Sys { s.(co := s.co[t := x]) }

  function TryLoad(s: Sys, t: Tid): Sys
    requires t in s.co
  {
    if s.locked then s else Put(s, t, s.co[t].(at := TryCas, sticky := false))
  }

  function LockLoad(s: Sys, t: Tid, sticky: bool): Sys
    requires t in s.co
  {
    var x := s.co[t];
    Put(s, t, x.(at := if s.locked then Wants else TryCasAwait,
                 sticky := sticky, left := false, home := x.exec, guard := None))
  }

  function TryCasStep(s: Sys, t: Tid): Sys
    requires t in s.co
  {
    var x := s.co[t];
    if !s.locked then Put(s.(locked := true), t, x.(at := Holds))
    else Put(s, t, x.(at := if x.at == TryCas then Idle else Wants))
  }

  /** LockStickyAwaiter::await_suspend saves the executor, then AwaitLock loads the word. */
  function AwaitLoad(s: Sys, t: Tid): Sys
    requires t in s.co
  {
    var x := s.co[t];
    Put(s, t, x.(at := Locks, saved := Sender(s), guard := if x.sticky then Some(x.exec) else None))
  }

  function AwaitCas(s: Sys, t: Tid, spurious: bool): Sys
    requires t in s.co
  {
    var x := s.co[t];
    if Sender(s) != x.saved || spurious then Put(s, t, x.(saved := Sender(s)))
    else if !s.locked then Put(s.(locked := true), t, x.(at := Holds, guard := None))
    else Put(s.(arrivals := s.arrivals + [t], suspended := s.suspended + [t]), t, x.(at := Queued))
  }

  /** co_await On(e). */
  function Switch(s: Sys, t: Tid, e: Exec): Sys
    requires t in s.co
  {
    Put(s, t, s.co[t].(exec := e, runsOn := e, left := true))
  }

  // ---------- unlocking ----------

  /** `u` becomes the owner, has executor `e` and runs on a thread of `on`. */
  function Resume(s: Sys, u: Tid, e: Exec, on: Exec): Sys
    requires u in s.co
  {
    Put(s.(granted := s.granted + [u]), u, s.co[u].(at := Holds, exec := e, runsOn := on))
  }

  function Pop(s: Sys): Sys
    requires s.receiver != []
  {
    s.(receiver := s.receiver[1..])
  }

  /** GetHead: the waiters behind `_sender`, in the order in which they are going to be served. */
  function Order(c: Config, q: seq<Tid>): (r: seq<Tid>)
    ensures |r| == |q| && forall i :: 0 <= i < |r| ==> r[i] in q
  {
    if c.fifo then q else Reversed(q)
  }

  function Grab(c: Config, s: Sys): (s': Sys)
    ensures s.arrivals != [] ==> s'.receiver != [] && s'.receiver[0] in s.arrivals
  {
    s.(arrivals := [], receiver := Order(c, s.arrivals), batches := s.batches + [s.arrivals])
  }

  /** The head of `_receiver` becomes the owner and is submitted to its own executor. */
  function Serve(s: Sys): Sys
    requires s.receiver != [] && s.receiver[0] in s.co
  {
    var e := s.co[s.receiver[0]].exec;
    Resume(Pop(s), s.receiver[0], e, e)
  }

  /** The head of `_receiver` becomes the owner, is given executor `e` and goes on on this thread, of `on`. */
  function Transfer(s: Sys, e: Exec, on: Exec): Sys
    requires s.receiver != [] && s.receiver[0] in s.co
  {
    Resume(Pop(s), s.receiver[0], e, on)
  }

  /** The unlocking coroutine goes on where it is. */
  function GoOn(s: Sys, t: Tid): Sys
    requires t in s.co
  {
    Put(s, t, s.co[t].(at := Idle))
  }

  /** The unlocking coroutine is given executor `e` and submitted to it. */
  function Submit(s: Sys, t: Tid, e: Exec): Sys
    requires t in s.co
  {
    Put(s, t, s.co[t].(at := Idle, exec := e, runsOn := e))
  }

  /** AwaitUnlock: the two executors are swapped, the unlocking coroutine is submitted and the next owner goes
      on on its thread. */
  function Swap(s: Sys, t: Tid): Sys
    requires t in s.co && s.receiver != [] && s.receiver[0] in s.co
  {
    Transfer(Submit(s, t, s.co[s.receiver[0]].exec), s.co[t].exec, s.co[t].runsOn)
  }

  /** TryUnlockAwait: the load. */
  function TryUnlock(s: Sys, t: Tid): Sys
    requires t in s.co
  {
    Put(s, t, s.co[t].(at := if s.arrivals == [] then UnlockCas else Exchanges))
  }

  /** UnlockHereAwait when `_receiver` is not empty, the load of TryUnlockAwait otherwise. */
  function UnlockHere(s: Sys, t: Tid): Sys
    requires t in s.co && (s.receiver != [] ==> s.receiver[0] in s.co)
  {
    if s.receiver != [] then Serve(GoOn(s, t)) else TryUnlock(s, t)
  }

  /** AwaitUnlockOn, up to the submission of the coroutine. */
  function LeaveTo(s: Sys, t: Tid, e: Exec): Sys
    requires t in s.co
  {
    Submit(s, t, e).(pass := Starts(s.co[t].exec, s.co[t].runsOn))
  }

  /** Only a sticky unlock promises to bring the coroutine back. */
  function Disclaim(s: Sys, t: Tid): Sys
    requires t in s.co
  {
    Put(s, t, s.co[t].(left := true))
  }

  function Unlock(c: Config, s: Sys, t: Tid, way: Way): Sys
    requires t in s.co && (s.receiver != [] ==> s.receiver[0] in s.co)
  {
    match way
    case On(e) => LeaveTo(Disclaim(s, t), t, e)
    case Sticky => if s.co[t].guard.Some? then LeaveTo(s, t, s.co[t].guard.value) else UnlockHere(s, t)
    case Awaiting =>
      if s.receiver != [] && c.batching then Swap(Disclaim(s, t), t) else UnlockHere(Disclaim(s, t), t)
    case Here => UnlockHere(Disclaim(s, t), t)
  }

  function UnlockCasStep(s: Sys, t: Tid): Sys
    requires t in s.co
  {
    if Sender(s) == NoWaiters then GoOn(s.(locked := false), t)
    else Put(s, t, s.co[t].(at := Exchanges))
  }

  function ExchangeStep(c: Config, s: Sys, t: Tid): Sys
    requires t in s.co && BatchWaits(s)
  {
    Serve(Grab(c, GoOn(s, t)))
  }

  function PassStart(c: Config, s: Sys): Sys
    requires s.pass.Starts? && (s.receiver != [] ==> s.receiver[0] in s.co)
  {
    if s.receiver == [] then s.(pass := if s.arrivals == [] then Cas else Exchange)
    else if c.batching then Transfer(s.(pass := NoPass), s.pass.given, s.pass.on)
    else Serve(s.(pass := NoPass))
  }

  function PassCas(s: Sys): Sys
    requires s.pass.Cas?
  {
    if Sender(s) == NoWaiters then s.(locked := false, pass := NoPass) else s.(pass := Exchange)
  }

  /** GetHead took the waiters from `_sender`, `_receiver` itself was empty: no batching. */
  function PassExchange(c: Config, s: Sys): Sys
    requires BatchWaits(s)
  {
    Serve(Grab(c, s.(pass := NoPass)))
  }

  function Apply(c: Config, s: Sys, t: Tid, a: Action): (s': Sys)
    requires Enabled(s, t, a) && Safe(s, t, a)
  {
    match a
    case TryLoadOp => TryLoad(s, t)
    case LockLoadOp(sticky) => LockLoad(s, t, sticky)
    case TryCasOp => TryCasStep(s, t)
    case AwaitLoadOp => AwaitLoad(s, t)
    case AwaitCasOp(spurious) => AwaitCas(s, t, spurious)
    case SwitchOp(e) => Switch(s, t, e)
    case UnlockOp(way) => Unlock(c, s, t, way)
    case UnlockCasOp => UnlockCasStep(s, t)
    case ExchangeOp => ExchangeStep(c, s, t)
    case PassStartOp => PassStart(c, s)
    case PassCasOp => PassCas(s)
    case PassExchangeOp => PassExchange(c, s)
  }
}
