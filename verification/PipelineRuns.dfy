/** A chain of continuations (include/yaclib/algo/detail/core.hpp): a head core and the stages that Then,
    ThenInline and the like attach behind it, while it runs, after it has finished, or before it starts
    (include/yaclib/lazy/task.hpp, src/lazy/task_impl.cpp).  Every access to a core's word, every decision of
    an executor and every call of a stage's function is one step. */
module PipelineRuns {
  import opened Common

  datatype Res = Ok(value: int) | Err(error: int)

  /** The error of a job that its executor dropped. */
  const STOP: Res := Err(-1)

  /** What a function gives back: a value, a result or an exception, or a future or a task that is going to have
      result `r`; a task is one whose first core is ready, or a coroutine. */
  datatype Outcome = Returns(r: Res) | FutureOf(r: Res) | ReadyTask(r: Res) | CoroutineTask(r: Res)

  /** A stage's function, by what it can be invoked with. */
  datatype Func = OnValue(f: int -> Outcome) | OnError(g: int -> Outcome) | OnResult(h: Res -> Outcome)

  /** `call`: the stage is submitted to an executor, its own or the one of the core before. */
  datatype Stage = Stage(func: Func, call: bool, exec: Option<Exec>)

  /** The executor of a core that nobody gave one; it calls every job at once. */
  const INLINE: Exec := Exec(0)

  /** Stage 0 is the head.  `accepts`: which jobs the executors call rather than drop. */
  datatype Config = Config(stages: seq<Stage>, accepts: (int, Exec) -> bool)

  ghost predicate ConfigOk(c: Config) {
    && c.stages != [] && c.stages[0].call && c.stages[0].exec.Some?
    && forall i :: c.accepts(i, INLINE)
  }

  /** CallResolveState and CallResolveAsync: is the function invoked, and with what outcome. */
  function Dispatch(func: Func, input: Res): (bool, Outcome) {
    match func
    case OnValue(f) => if input.Ok? then (true, f(input.value)) else (false, Returns(input))
    case OnError(g) => if input.Err? then (true, g(input.error)) else (false, Returns(input))
    case OnResult(h) => (true, h(input))
  }

  // ---------- the meaning of a chain ----------

  /** The executor of a stage: its own, or what the one before hands on. */
  function ExecOf(c: Config, i: nat): Exec
    requires i < |c.stages|
    decreases i, 0
  {
    if c.stages[i].exec.Some? then c.stages[i].exec.value
    else if i == 0 then INLINE
    else HandsOn(c, i - 1)
  }

  /** What a stage is given: the result before it, or Stop when its executor drops it. */
  function InputOf(c: Config, i: nat): Res
    requires i < |c.stages|
    decreases i, 1
  {
    if c.stages[i].call && !c.accepts(i, ExecOf(c, i)) then STOP
    else if i == 0 then Ok(0)
    else Fold(c, i - 1)
  }

  /** Whether a stage's function is invoked, and with what outcome. */
  function OutcomeOf(c: Config, i: nat): (bool, Outcome)
    requires i < |c.stages|
    decreases i, 2
  {
    Dispatch(c.stages[i].func, InputOf(c, i))
  }

  /** The left fold of the stages up to `i`. */
  function Fold(c: Config, i: nat): Res
    requires i < |c.stages|
    decreases i, 3
  {
    OutcomeOf(c, i).1.r
  }

  /** The executor that a stage leaves behind: a coroutine that it starts takes its executor away and leaves the
      one that the coroutine was made with. */
  function HandsOn(c: Config, i: nat): Exec
    requires i < |c.stages|
    decreases i, 3
  {
    if OutcomeOf(c, i).1.CoroutineTask? then INLINE else ExecOf(c, i)
  }

  // ---------- the machine ----------

  datatype Word = Empty | Callback | Result

  datatype Phase =
    | Unmade      // not attached yet
    | Waiting     // the callback of the core before
    | Submitted   // in the hands of its executor
    | Called      // has its input, about to run
    | Asks        // its function returned a future, before the load in SetInline
    | AskCas      // the load saw kEmpty
    | Unwrapping  // the callback of the future or task that its function returned
    | Stored      // has its result, before the exchange
    | Published

  /** The core of the future or task that a function returned: its word, and the result that it has or is going
      to have. */
  datatype Inner = Inner(word: Word, r: Res)

  /** `input`: what the stage was given; `released`, `invoked`: how often the core was released and its function
      was invoked; `unwrapped`: how often the core of the returned future or task was released. */
  datatype Core = Core(at: Phase, word: Word, exec: Option<Exec>, input: Res, inner: Inner, result: Option<Res>,
                       released: nat, invoked: nat, unwrapped: nat)

  /** `attached`: the stages that exist; `casing`: the thread that attaches the next one has seen kEmpty. */
  datatype Sys = Sys(cores: seq<Core>, attached: nat, casing: bool)

  function NewCore(at: Phase, word: Word, exec: Option<Exec>): Core {
    Core(at, word, exec, STOP, Inner(Empty, STOP), None, 0, 0, 0)
  }

  /** Run or MakeContract: the head was submitted, nothing is attached yet. */
  ghost predicate InitEager(c: Config, s: Sys) {
    && ConfigOk(c) && |s.cores| == |c.stages| && s.attached == 1 && !s.casing
    && forall i :: 0 <= i < |s.cores| ==>
         s.cores[i] == if i == 0 then NewCore(Submitted, Empty, c.stages[0].exec) else NewCore(Unmade, Empty, None)
  }

  /** A Task: the whole chain exists, linked by StoreCallback, when Start submits its head. */
  ghost predicate InitLazy(c: Config, s: Sys) {
    && ConfigOk(c) && |s.cores| == |c.stages| && s.attached == |c.stages| && !s.casing
    && forall i :: 0 <= i < |s.cores| ==>
         s.cores[i] == NewCore(if i == 0 then Submitted else Waiting,
                               if i + 1 < |s.cores| then Callback else Empty, c.stages[i].exec)
  }

  datatype Action = AttachOp | DecideOp(i: nat) | RunOp(i: nat) | AskOp(i: nat) | AskCasOp(i: nat) | InnerOp(i: nat) | PublishOp(i: nat)

  ghost predicate Is(s: Sys, i: nat, p: Phase) { i < |s.cores| && s.cores[i].at == p }

  /** The future or task that the function of `x` returned has no result yet. */
  predicate Pending(x: Core) { (x.at == Asks || x.at == AskCas || x.at == Unwrapping) && x.inner.word != Result }

  ghost predicate Enabled(c: Config, s: Sys, a: Action) {
    && |s.cores| == |c.stages|
    && match a
       case AttachOp => 1 <= s.attached < |s.cores|
       case DecideOp(i) => Is(s, i, Submitted)
       case RunOp(i) => Is(s, i, Called)
       case AskOp(i) => Is(s, i, Asks)
       case AskCasOp(i) => Is(s, i, AskCas)
       case InnerOp(i) => i < |s.cores| && Pending(s.cores[i])
       case PublishOp(i) => Is(s, i, Stored)
  }

  /** The core before is there to be read and has an executor to hand on. */
  ghost predicate CanRead(s: Sys, i: nat)
    requires i < |s.cores|
  {
    i > 0 ==> s.cores[i - 1].result.Some? && s.cores[i - 1].released == 0
  }

  ghost predicate CanHere(c: Config, s: Sys, i: nat)
    requires 0 < i < |s.cores| == |c.stages|
  {
    && s.cores[i - 1].result.Some? && s.cores[i - 1].released == 0
    && (c.stages[i].exec.None? ==> s.cores[i - 1].exec.Some?)
  }

  /** The returned core is still there, and nobody stored what it is going to give. */
  ghost predicate Takes(s: Sys, i: nat)
    requires i < |s.cores|
  {
    s.cores[i].result == None && s.cores[i].unwrapped == 0
  }

  ghost predicate Safe(c: Config, s: Sys, a: Action)
    requires Enabled(c, s, a)
  {
    match a
    case AttachOp =>
      && s.cores[s.attached].at == Unmade && s.cores[s.attached - 1].word != Callback
      && (s.cores[s.attached - 1].word == Result ==> CanHere(c, s, s.attached))
    case DecideOp(i) => s.cores[i].exec.Some? && CanRead(s, i)
    case RunOp(i) => s.cores[i].result == None && (i > 0 ==> s.cores[i - 1].released == 0)
    case AskOp(i) => Takes(s, i) && s.cores[i].inner.word != Callback
    case AskCasOp(i) => Takes(s, i) && s.cores[i].inner.word != Callback
    case InnerOp(i) => s.cores[i].inner.word == Callback ==> s.cores[i].at == Unwrapping && Takes(s, i)
    case PublishOp(i) =>
      && s.cores[i].word != Result && s.cores[i].released == 0
      && (s.cores[i].word == Callback ==> i + 1 < |s.cores| && CanHere(c, s, i + 1) && s.cores[i + 1].at == Waiting)
  }

  function Put(s: Sys, i: nat, x: Core): Sys
    requires i < |s.cores|
  {
    s.(cores := s.cores[i := x])
  }

  /** TransferExecutorTo: the core before `i` gives its executor away to a core that has none. */
  function Gave(c: Config, before: Core, i: nat): Core
    requires i < |c.stages|
  {
    if c.stages[i].exec.None? then before.(exec := None) else before
  }

  /** Core::Impl of core `i`: inherit the executor, then go to the executor or run. */
  function Took(c: Config, before: Core, x: Core, i: nat): Core
    requires i < |c.stages| && before.result.Some?
  {
    var y := x.(exec := if c.stages[i].exec.Some? then c.stages[i].exec else before.exec);
    if c.stages[i].call then y.(at := Submitted) else y.(at := Called, input := before.result.value)
  }

  /** The core before, or the thread that attaches core `i`, calls it. */
  function Here(c: Config, s: Sys, i: nat): Sys
    requires 0 < i < |s.cores| == |c.stages| && s.cores[i - 1].result.Some?
  {
    var before := s.cores[i - 1];
    Put(Put(s, i - 1, Gave(c, before, i)), i, Took(c, before, s.cores[i], i))
  }

  /** SetCallback of the next stage on the last one: the load, then the compare_exchange. */
  function Attach(c: Config, s: Sys): Sys
    requires 1 <= s.attached < |s.cores| == |c.stages|
    requires s.cores[s.attached - 1].word == Result ==> s.cores[s.attached - 1].result.Some?
  {
    var i := s.attached;
    if s.cores[i - 1].word == Result then Here(c, s.(attached := i + 1, casing := false), i)
    else if !s.casing then s.(casing := true)
    else
      var s1 := Put(s.(attached := i + 1, casing := false), i - 1, s.cores[i - 1].(word := Callback));
      Put(s1, i, s.cores[i].(at := Waiting, exec := c.stages[i].exec))
  }

  /** The executor calls or drops the core. */
  function Decide(c: Config, s: Sys, i: nat): Sys
    requires i < |s.cores| == |c.stages| && s.cores[i].exec.Some?
    requires i > 0 ==> s.cores[i - 1].result.Some?
  {
    var input := if !c.accepts(i, s.cores[i].exec.value) then STOP
                 else if i == 0 then Ok(0) else s.cores[i - 1].result.value;
    Put(s, i, s.cores[i].(at := Called, input := input))
  }

  function ReleaseBefore(s: Sys, i: nat): Sys
    requires i < |s.cores|
  {
    if i == 0 then s else Put(s, i - 1, s.cores[i - 1].(released := s.cores[i - 1].released + 1))
  }

  /** CallResolveAsync: a future is asked for its result; a task gets the stage as its callback and its first
      core is called, which in a coroutine swaps the executors. */
  function Resolve(x: Core, out: Outcome): Core {
    match out
    case Returns(r) => x.(at := Stored, result := Some(r))
    case FutureOf(r) => x.(at := Asks, inner := Inner(Empty, r))
    case ReadyTask(r) => x.(at := Unwrapping, inner := Inner(Callback, r))
    case CoroutineTask(r) => x.(at := Unwrapping, inner := Inner(Callback, r), exec := Some(INLINE))
  }

  /** CallImpl: the function runs, or is skipped. */
  function CallImpl(func: Func, x: Core): Core {
    var (invoked, out) := Dispatch(func, x.input);
    Resolve(x.(invoked := x.invoked + if invoked then 1 else 0), out)
  }

  /** The core before is released. */
  function RunStage(c: Config, s: Sys, i: nat): Sys
    requires i < |s.cores| == |c.stages|
  {
    Put(ReleaseBefore(s, i), i, CallImpl(c.stages[i].func, s.cores[i]))
  }

  /** async_done: the result of the returned future or task is taken, and its core is released. */
  function Unwrap(x: Core): Core { x.(at := Stored, result := Some(x.inner.r), unwrapped := x.unwrapped + 1) }

  /** SetInline on the returned future: the load, then the compare_exchange. */
  function Ask(s: Sys, i: nat): Sys
    requires i < |s.cores|
  {
    var x := s.cores[i];
    Put(s, i, if x.inner.word == Result then Unwrap(x)
              else if x.at == Asks then x.(at := AskCas)
              else x.(at := Unwrapping, inner := x.inner.(word := Callback)))
  }

  /** The returned future or task gets its result, and calls the stage if that is its callback. */
  function InnerDone(s: Sys, i: nat): Sys
    requires i < |s.cores|
  {
    var x := s.cores[i];
    var y := x.(inner := x.inner.(word := Result));
    Put(s, i, if x.inner.word == Callback then Unwrap(y) else y)
  }

  /** SetResult: the exchange, and the callback if there is one. */
  function Publish(c: Config, s: Sys, i: nat): Sys
    requires i < |s.cores| == |c.stages|
    requires s.cores[i].word == Callback ==> i + 1 < |s.cores| && s.cores[i].result.Some?
  {
    var s1 := Put(s, i, s.cores[i].(at := Published, word := Result));
    if s.cores[i].word == Callback then Here(c, s1, i + 1) else s1
  }

  function Apply(c: Config, s: Sys, a: Action): Sys
    requires Enabled(c, s, a) && Safe(c, s, a)
  {
    match a
    case AttachOp => Attach(c, s)
    case DecideOp(i) => Decide(c, s, i)
    case RunOp(i) => RunStage(c, s, i)
    case AskOp(i) => Ask(s, i)
    case AskCasOp(i) => Ask(s, i)
    case InnerOp(i) => InnerDone(s, i)
    case PublishOp(i) => Publish(c, s, i)
  }
}
