/** One waiter and the producers of the futures it waits for, with an event on the waiter's stack or in its
    coroutine frame: Wait, WaitFor and WaitUntil (include/yaclib/async/detail/wait_impl.hpp) and co_await of
    several futures (include/yaclib/algo/detail/shared_event.hpp, include/yaclib/coro/detail/await_awaiter.hpp).
    Every access to a core's word, to the event's counter and to the event's flag is one step. */
module WaitRuns {
  import opened Common
  import opened Census

  /** `Single`: Wait on a single future (OneCounter, which counts nothing); `Several`: Wait on several;
      `Coroutine`: co_await, the event resumes a coroutine.  `timed`: with a timeout, for the other two. */
  datatype Mode = Single | Several | Coroutine

  datatype Config = Config(mode: Mode, timed: bool, cores: seq<Tid>)

  /** A core and its producer.  The word is kEmpty in the first two phases, the event in `Armed`, then kResult. */
  datatype Phase =
    | Bare      // no callback
    | Disarmed  // the event was its callback and the waiter reset it
    | Armed     // the event is its callback
    | Ready     // kResult, the event was not told
    | Late      // kResult, after the reset
    | Calls     // kResult, the producer found the event, is about to decrement its counter
    | Sets      // its decrement was the last one, it is about to set the event (or to resume the coroutine)
    | Called    // done with the event

  /** Where the waiter is. */
  datatype Stage =
    | SetLoad     // SetCallback of core `i`: the load
    | SetCas      // the compare_exchange, when the load saw kEmpty
    | Subtracts   // about to subtract the callbacks that were not set
    | TimedWait   // event.Wait(token, timeout)
    | ResetLoad   // ResetImpl of core `i`
    | ResetCas
    | ResetSub    // event.SubEqual(reset_count)
    | FinalWait   // event.Wait(token)
    | AwaitReady  // await_ready
    | AwaitSub    // await_suspend, `next` is set
    | Suspended
    | ReturnedTrue   // the event does not exist any more
    | ReturnedFalse

  /** `w`: callbacks set, `r`: callbacks reset; `count`, `flag`, `next`: the event; `sets`: how often it was set. */
  datatype Sys = Sys(pc: map<Tid, Phase>, at: Stage, i: nat, w: nat, r: nat,
                     count: int, flag: bool, next: bool, sets: nat)

  ghost predicate ConfigOk(c: Config) {
    c.cores != [] && Distinct(c.cores) && (c.mode == Single ==> |c.cores| == 1)
  }

  /** Some futures may have results before the waiter starts. */
  ghost predicate Init(c: Config, s: Sys) {
    && ConfigOk(c)
    && s.pc.Keys == Elements(c.cores)
    && (forall t :: t in s.pc ==> s.pc[t] == Bare || s.pc[t] == Ready)
    && s.at == SetLoad && s.i == s.w == s.r == 0
    && s.count == |c.cores| + 1 && !s.flag && !s.next && s.sets == 0
  }

  predicate AtCore(p: Stage) { p == SetLoad || p == SetCas || p == ResetLoad || p == ResetCas }

  predicate Returned(p: Stage) { p == ReturnedTrue || p == ReturnedFalse }

  ghost predicate Shape(c: Config, s: Sys) {
    && s.pc.Keys == Elements(c.cores)
    && (AtCore(s.at) ==> s.i < |c.cores| && c.cores[s.i] in s.pc)
  }

  datatype Action =
    | PublishOp(t: Tid) | SubOp(t: Tid) | SetOp(t: Tid)
    | SetCallbackOp | SubtractOp | TimedWaitOp(timeout: bool) | ResetOp | ResetSubOp | FinalWaitOp
    | AwaitReadyOp | AwaitSubOp

  ghost predicate Is(s: Sys, t: Tid, p: Phase) { t in s.pc && s.pc[t] == p }

  ghost predicate Enabled(c: Config, s: Sys, a: Action) {
    && Shape(c, s)
    && match a
       case PublishOp(t) => Is(s, t, Bare) || Is(s, t, Disarmed) || Is(s, t, Armed)
       case SubOp(t) => Is(s, t, Calls)
       case SetOp(t) => Is(s, t, Sets)
       case SetCallbackOp => s.at == SetLoad || s.at == SetCas
       case SubtractOp => s.at == Subtracts
       case TimedWaitOp(timeout) => s.at == TimedWait && (timeout || s.flag)
       case ResetOp => s.at == ResetLoad || s.at == ResetCas
       case ResetSubOp => s.at == ResetSub
       case FinalWaitOp => s.at == FinalWait && s.flag
       case AwaitReadyOp => s.at == AwaitReady
       case AwaitSubOp => s.at == AwaitSub
  }

  /** The event exists when somebody touches it, its counter does not go below zero, it is set once, and
      when it resumes the coroutine, `next` points to it and it is suspended. */
  ghost predicate Safe(c: Config, s: Sys, a: Action)
    requires Enabled(c, s, a)
  {
    match a
    case SubOp(_) => !Returned(s.at) && (c.mode != Single ==> s.count >= 1)
    case SetOp(_) => !Returned(s.at) && s.sets == 0 && (c.mode == Coroutine ==> s.next && s.at == Suspended)
    case SubtractOp => s.w <= |c.cores| && (c.mode != Single ==> s.count >= Unset(c, s))
    case ResetSubOp => s.count >= s.r
    case AwaitSubOp => s.count >= 1
    case _ => true
  }

  // ---------- producers ----------

  function Published(p: Phase): Phase {
    match p case Armed => Calls case Disarmed => Late case _ => Ready
  }

  /** SetResultImpl: the exchange. */
  function Publish(s: Sys, t: Tid): Sys
    requires t in s.pc
  {
    s.(pc := s.pc[t := Published(s.pc[t])])
  }

  /** CallCallback::Here: Sub(1).  OneCounter sets the event at once. */
  function Sub(c: Config, s: Sys, t: Tid): Sys {
    if c.mode == Single then s.(pc := s.pc[t := Called], flag := true, sets := s.sets + 1)
    else s.(count := s.count - 1, pc := s.pc[t := if s.count == 1 then Sets else Called])
  }

  /** SetDeleter, or AwaitEvent running the coroutine that `next` points to. */
  function Set(c: Config, s: Sys, t: Tid): Sys {
    var s1 := s.(pc := s.pc[t := Called], sets := s.sets + 1);
    if c.mode == Coroutine then s1.(at := ReturnedTrue) else s1.(flag := true)
  }

  // ---------- the waiter ----------

  /** SetCallback of core `i` returned `done`. */
  function NextSet(c: Config, s: Sys, done: bool): Sys {
    var w, i := s.w + (if done then 1 else 0), s.i + 1;
    s.(w := w, i := i,
       at := if i < |c.cores| then SetLoad
             else if w == 0 && c.mode != Coroutine then ReturnedTrue
             else Subtracts)
  }

  function SetCallback(c: Config, s: Sys): Sys
    requires s.i < |c.cores| && c.cores[s.i] in s.pc
  {
    var t := c.cores[s.i];
    var empty := s.pc[t] == Bare || s.pc[t] == Disarmed;
    if !empty then NextSet(c, s, false)
    else if s.at == SetLoad then s.(at := SetCas)
    else NextSet(c, s.(pc := s.pc[t := Armed]), true)
  }

  /** count - wait_count, and the waiter's own share unless it is a coroutine. */
  function Unset(c: Config, s: Sys): int {
    |c.cores| - s.w + if c.mode == Coroutine then 0 else 1
  }

  function Subtract(c: Config, s: Sys): Sys {
    var d := Unset(c, s);
    if c.mode == Single then s.(at := if c.timed then TimedWait else FinalWait)
    else
      s.(count := s.count - d,
         at := if c.mode == Coroutine then AwaitReady
               else if s.count == d then ReturnedTrue
               else if c.timed then TimedWait else FinalWait)
  }

  function TimeOut(s: Sys): Sys {
    if s.flag then s.(at := ReturnedTrue) else s.(at := ResetLoad, i := 0)
  }

  function NextReset(c: Config, s: Sys, reset: bool): Sys {
    var r, i := s.r + (if reset then 1 else 0), s.i + 1;
    s.(r := r, i := i,
       at := if i < |c.cores| then ResetLoad
             else if r == 0 then FinalWait
             else if r == s.w then ReturnedFalse
             else ResetSub)
  }

  /** ResetImpl: only a core with a result refuses. */
  function Reset(c: Config, s: Sys): Sys
    requires s.i < |c.cores| && c.cores[s.i] in s.pc
  {
    var t := c.cores[s.i];
    if s.pc[t] != Armed then NextReset(c, s, false)
    else if s.at == ResetLoad then s.(at := ResetCas)
    else NextReset(c, s.(pc := s.pc[t := Disarmed]), true)
  }

  function SubtractReset(c: Config, s: Sys): Sys {
    if c.mode == Single then s.(at := FinalWait)
    else s.(count := s.count - s.r, at := if s.count == s.r then ReturnedFalse else FinalWait)
  }

  function Suspend(s: Sys): Sys {
    s.(count := s.count - 1, at := if s.count == 1 then ReturnedTrue else Suspended)
  }

  function Apply(c: Config, s: Sys, a: Action): Sys
    requires Enabled(c, s, a)
  {
    match a
    case PublishOp(t) => Publish(s, t)
    case SubOp(t) => Sub(c, s, t)
    case SetOp(t) => Set(c, s, t)
    case SetCallbackOp => SetCallback(c, s)
    case SubtractOp => Subtract(c, s)
    case TimedWaitOp(_) => TimeOut(s)
    case ResetOp => Reset(c, s)
    case ResetSubOp => SubtractReset(c, s)
    case FinalWaitOp => s.(at := if s.r == 0 then ReturnedTrue else ReturnedFalse)
    case AwaitReadyOp => s.(at := if s.count == 1 then ReturnedTrue else AwaitSub, next := s.count != 1)
    case AwaitSubOp => Suspend(s)
  }
}
