/** A chain of continuations means the left fold of its stages, however it is attached and scheduled. */
module PipelineProofs {
  import opened Common
  import opened PipelineRuns

  // ---------- the invariant ----------

  function One(b: bool): nat { if b then 1 else 0 }

  predicate Begun(p: Phase) { p == Submitted || p == Called || HasRun(p) }

  predicate Asking(p: Phase) { p == Asks || p == AskCas }

  predicate HasRun(p: Phase) { Asking(p) || p == Unwrapping || HasResult(p) }

  predicate HasResult(p: Phase) { p == Stored || p == Published }

  /** The core of the future or task that core `i`'s function returned. */
  ghost predicate InnerOk(x: Core, out: Outcome) {
    && (Asking(x.at) ==> out.FutureOf? && x.inner.word != Callback)
    && (x.at == Unwrapping ==> !out.Returns? && x.inner.word == Callback)
    && (Asking(x.at) || x.at == Unwrapping ==> x.inner.r == out.r)
    && x.unwrapped == One(HasResult(x.at) && !out.Returns?)
  }

  /** What core `i` is, on its own. */
  ghost predicate Alone(c: Config, x: Core, i: nat)
    requires i < |c.stages|
  {
    && (x.result == if HasResult(x.at) then Some(Fold(c, i)) else None)
    && (x.at == Called || HasRun(x.at) ==> x.input == InputOf(c, i))
    && (x.at == Submitted ==> c.stages[i].call)
    && (x.word == Result <==> x.at == Published)
    && x.invoked == One(HasRun(x.at) && OutcomeOf(c, i).0)
    && InnerOk(x, OutcomeOf(c, i).1)
  }

  /** The executor of a core that has begun and was not asked for it: a coroutine leaves its own. */
  ghost function Executor(c: Config, x: Core, i: nat): Exec
    requires i < |c.stages|
  {
    if HasRun(x.at) then HandsOn(c, i) else ExecOf(c, i)
  }

  /** Core `i` and the one behind it. */
  ghost predicate Linked(c: Config, x: Core, y: Core, i: nat)
    requires i + 1 < |c.stages|
  {
    && (Begun(y.at) ==> x.at == Published)
    && (x.word == Callback <==> y.at == Waiting)
    && x.released == One(HasRun(y.at))
    && (Begun(x.at) ==>
          x.exec == if Begun(y.at) && c.stages[i + 1].exec.None? then None else Some(Executor(c, x, i)))
  }

  /** The last core: nobody takes anything from it. */
  ghost predicate Open(c: Config, x: Core, i: nat)
    requires i < |c.stages|
  {
    x.word != Callback && x.released == 0 && (Begun(x.at) ==> x.exec == Some(Executor(c, x, i)))
  }

  ghost predicate Made(c: Config, s: Sys, i: nat)
    requires i < |s.cores|
  {
    i < s.attached <==> s.cores[i].at != Unmade
  }

  ghost predicate CoreOk(c: Config, s: Sys, i: nat)
    requires i < |s.cores| == |c.stages|
  {
    && Alone(c, s.cores[i], i) && Made(c, s, i)
    && (if i + 1 < |s.cores| then Linked(c, s.cores[i], s.cores[i + 1], i) else Open(c, s.cores[i], i))
  }

  ghost predicate Inv(c: Config, s: Sys) {
    && ConfigOk(c) && |s.cores| == |c.stages| && 1 <= s.attached <= |s.cores|
    && Begun(s.cores[0].at)
    && forall i :: 0 <= i < |s.cores| ==> CoreOk(c, s, i)
  }

  lemma EagerInv(c: Config, s: Sys)
    requires InitEager(c, s)
    ensures Inv(c, s)
  {
    forall i | 0 <= i < |s.cores| ensures CoreOk(c, s, i) {
      assert i + 1 < |s.cores| ==> s.cores[i + 1] == NewCore(Unmade, Empty, None);
    }
  }

  lemma LazyInv(c: Config, s: Sys)
    requires InitLazy(c, s)
    ensures Inv(c, s)
  {
    forall i | 0 <= i < |s.cores| ensures CoreOk(c, s, i) {
      assert i + 1 < |s.cores| ==> s.cores[i + 1].at == Waiting;
    }
  }

  // ---------- every step keeps it ----------

  lemma Knows(c: Config, s: Sys, i: nat)
    requires Inv(c, s) && i < |s.cores|
    ensures CoreOk(c, s, i)
  {
  }

  /** A core is as it was when it did not change and the one behind it is in the same phase. */
  lemma CoreSame(c: Config, s: Sys, s': Sys, j: nat)
    requires j < |s.cores| == |c.stages| == |s'.cores| && CoreOk(c, s, j) && (j < s'.attached <==> j < s.attached)
    requires s'.cores[j] == s.cores[j] && (j + 1 < |s.cores| ==> s'.cores[j + 1].at == s.cores[j + 1].at)
    ensures CoreOk(c, s', j)
  {
    hide Alone;
  }

  /** A core that only changes on its own. */
  lemma CoreMoves(c: Config, s: Sys, i: nat, x: Core)
    requires Inv(c, s) && i < |s.cores| && CoreOk(c, Put(s, i, x), i)
    requires Begun(s.cores[i].at) && Begun(x.at)
    requires HasRun(x.at) == HasRun(s.cores[i].at) && (x.at == Published) == (s.cores[i].at == Published)
    ensures Inv(c, Put(s, i, x))
  {
    hide Alone, ConfigOk, InnerOk;
    var s' := Put(s, i, x);
    forall j | 0 <= j < |s'.cores| ensures CoreOk(c, s', j) { Knows(c, s, j); }
  }

  lemma DecideKeeps(c: Config, s: Sys, i: nat)
    requires Inv(c, s) && Is(s, i, Submitted)
    ensures s.cores[i].exec.Some? && CanRead(s, i) && Inv(c, Decide(c, s, i))
  {
    hide Fold, InputOf, ExecOf, OutcomeOf, HandsOn;
    Knows(c, s, i);
    if i > 0 { Knows(c, s, i - 1); }
    InputIs(c, i);
    hide Inv;
    CoreMoves(c, s, i, Decide(c, s, i).cores[i]);
  }

  lemma InputIs(c: Config, i: nat)
    requires i < |c.stages|
    ensures c.stages[i].call && !c.accepts(i, ExecOf(c, i)) ==> InputOf(c, i) == STOP
    ensures !(c.stages[i].call && !c.accepts(i, ExecOf(c, i))) ==> InputOf(c, i) == if i == 0 then Ok(0) else Fold(c, i - 1)
    ensures OutcomeOf(c, i) == Dispatch(c.stages[i].func, InputOf(c, i)) && Fold(c, i) == OutcomeOf(c, i).1.r
    ensures i > 0 ==> ExecOf(c, i) == if c.stages[i].exec.Some? then c.stages[i].exec.value else HandsOn(c, i - 1)
    ensures HandsOn(c, i) == if OutcomeOf(c, i).1.CoroutineTask? then INLINE else ExecOf(c, i)
  {
  }

  /** The core whose function runs. */
  lemma RunAlone(c: Config, x: Core, i: nat)
    requires i < |c.stages| && Alone(c, x, i) && x.at == Called
    ensures var y := CallImpl(c.stages[i].func, x);
      && Alone(c, y, i) && HasRun(y.at) && y.at != Published && y.word == x.word && y.released == x.released
      && (x.exec == Some(ExecOf(c, i)) ==> y.exec == Some(HandsOn(c, i)))
  {
    hide Fold, InputOf, ExecOf, OutcomeOf, HandsOn, Dispatch;
    InputIs(c, i);
  }

  lemma RunKeeps(c: Config, s: Sys, i: nat)
    requires Inv(c, s) && Is(s, i, Called)
    ensures s.cores[i].result == None && (i > 0 ==> s.cores[i - 1].released == 0) && Inv(c, RunStage(c, s, i))
  {
    hide Fold, InputOf, ExecOf, OutcomeOf, HandsOn, Dispatch, ConfigOk, CallImpl;
    Knows(c, s, i);
    if i > 0 { Knows(c, s, i - 1); }
    RunAlone(c, s.cores[i], i);
    var s' := RunStage(c, s, i);
    assert s.cores[i].result == None;
    assert i > 0 ==> Alone(c, s'.cores[i - 1], i - 1);
    hide Alone;
    forall j | 0 <= j < |s'.cores| ensures CoreOk(c, s', j) { Knows(c, s, j); }
  }

  /** A step that changes only core `i`, between its call and its result. */
  lemma UnwrapKeeps(c: Config, s: Sys, i: nat, x: Core)
    requires Inv(c, s) && i < |s.cores| && HasRun(s.cores[i].at) && !HasResult(s.cores[i].at)
    requires x == s.cores[i].(at := x.at, inner := x.inner, result := x.result, unwrapped := x.unwrapped)
    requires HasRun(x.at) && x.at != Published && Alone(c, x, i)
    ensures Inv(c, Put(s, i, x))
  {
    hide Alone, ConfigOk;
    Knows(c, s, i);
    var s' := Put(s, i, x);
    forall j | 0 <= j < |s'.cores| ensures CoreOk(c, s', j) { Knows(c, s, j); }
  }

  lemma AskKeeps(c: Config, s: Sys, i: nat)
    requires Inv(c, s) && (Is(s, i, Asks) || Is(s, i, AskCas))
    ensures Takes(s, i) && s.cores[i].inner.word != Callback && Inv(c, Ask(s, i))
  {
    hide Fold, InputOf, ExecOf, OutcomeOf, HandsOn;
    Knows(c, s, i);
    InputIs(c, i);
    hide Inv;
    UnwrapKeeps(c, s, i, Ask(s, i).cores[i]);
  }

  lemma InnerDoneKeeps(c: Config, s: Sys, i: nat)
    requires Inv(c, s) && i < |s.cores| && Pending(s.cores[i])
    ensures Takes(s, i) && (s.cores[i].inner.word == Callback ==> s.cores[i].at == Unwrapping) && Inv(c, InnerDone(s, i))
  {
    hide Fold, InputOf, ExecOf, OutcomeOf, HandsOn;
    Knows(c, s, i);
    InputIs(c, i);
    hide Inv;
    UnwrapKeeps(c, s, i, InnerDone(s, i).cores[i]);
  }

  lemma PublishAloneKeeps(c: Config, s: Sys, i: nat)
    requires Inv(c, s) && Is(s, i, Stored) && s.cores[i].word != Callback
    ensures Safe(c, s, PublishOp(i)) && Inv(c, Publish(c, s, i))
  {
    hide Fold, InputOf, ExecOf, OutcomeOf, HandsOn, ConfigOk;
    Knows(c, s, i);
    var s' := Publish(c, s, i);
    assert CoreOk(c, s', i);
    hide Alone, Open;
    forall j | 0 <= j < |s'.cores| && j != i ensures CoreOk(c, s', j) { Knows(c, s, j); }
  }

  /** A core takes over from the published one before it. */
  lemma TookOk(c: Config, before: Core, x: Core, i: nat)
    requires 0 < i < |c.stages| && Alone(c, before, i - 1) && Alone(c, x, i)
    requires before.at == Published && before.released == 0 && before.exec == Some(HandsOn(c, i - 1))
    requires x.at == Waiting || x.at == Unmade
    ensures var y := Took(c, before, x, i);
      && Alone(c, y, i) && y.exec == Some(ExecOf(c, i)) && Begun(y.at) && !HasRun(y.at)
      && y.word == x.word && y.released == x.released
      && Alone(c, Gave(c, before, i), i - 1) && Linked(c, Gave(c, before, i), y, i - 1)
  {
    hide Fold, InputOf, ExecOf, OutcomeOf, HandsOn;
    InputIs(c, i);
  }

  /** A core whose result is published, just before its callback takes over. */
  lemma PublishedOk(c: Config, x: Core, i: nat)
    requires i < |c.stages| && Alone(c, x, i) && x.at == Stored
    ensures Alone(c, x.(at := Published, word := Result), i) && Executor(c, x, i) == HandsOn(c, i)
  {
    hide Fold, InputOf, ExecOf, OutcomeOf, HandsOn;
  }

  /** Core `i` is published and its callback, core `i + 1`, begins. */
  lemma PublishedPair(c: Config, s: Sys, i: nat)
    requires Inv(c, s) && Is(s, i, Stored) && s.cores[i].word == Callback
    ensures Safe(c, s, PublishOp(i))
    ensures CoreOk(c, Publish(c, s, i), i) && CoreOk(c, Publish(c, s, i), i + 1)
  {
    Knows(c, s, i);
    Knows(c, s, i + 1);
    hide Inv;
    var x := s.cores[i].(at := Published, word := Result);
    PublishedOk(c, s.cores[i], i);
    assert x.result.Some? && x.exec == Some(HandsOn(c, i)) && s.cores[i + 1].at == Waiting;
    TookOk(c, x, s.cores[i + 1], i + 1);
    hide Alone, HandsOn, ExecOf, Took, Gave;
    assert Publish(c, s, i).cores[i] == Gave(c, x, i + 1);
  }

  lemma PublishedBefore(c: Config, s: Sys, i: nat)
    requires Inv(c, s) && 0 < i && Is(s, i, Stored) && s.cores[i].word == Callback
    ensures Safe(c, s, PublishOp(i)) && CoreOk(c, Publish(c, s, i), i - 1)
  {
    PublishedPair(c, s, i);
    Knows(c, s, i - 1);
    hide Inv, Alone, Fold, InputOf, ExecOf, Dispatch;
  }

  lemma PublishToKeeps(c: Config, s: Sys, i: nat)
    requires Inv(c, s) && Is(s, i, Stored) && s.cores[i].word == Callback
    ensures Safe(c, s, PublishOp(i)) && Inv(c, Publish(c, s, i))
  {
    hide Fold, InputOf, ExecOf, OutcomeOf, HandsOn, CoreOk;
    PublishedPair(c, s, i);
    var s' := Publish(c, s, i);
    forall j | 0 <= j < |s'.cores| ensures CoreOk(c, s', j) {
      if j + 1 == i { PublishedBefore(c, s, i); }
      else if j != i && j != i + 1 { CoreSame(c, s, s', j); }
    }
  }

  lemma PublishKeeps(c: Config, s: Sys, i: nat)
    requires Inv(c, s) && Is(s, i, Stored)
    ensures Safe(c, s, PublishOp(i)) && Inv(c, Publish(c, s, i))
  {
    hide Inv, CanHere;
    if s.cores[i].word == Callback { PublishToKeeps(c, s, i); } else { PublishAloneKeeps(c, s, i); }
  }

  /** The last core and the one that is attached to it, which begins or waits. */
  lemma AttachedHere(c: Config, s: Sys, i: nat)
    requires Inv(c, s) && i == s.attached < |s.cores| && s.cores[i - 1].word == Result
    ensures Safe(c, s, AttachOp)
    ensures CoreOk(c, Attach(c, s), i - 1) && CoreOk(c, Attach(c, s), i)
  {
    Knows(c, s, i);
    Knows(c, s, i - 1);
    hide Inv;
    assert s.cores[i - 1].result.Some? && s.cores[i - 1].exec == Some(HandsOn(c, i - 1));
    TookOk(c, s.cores[i - 1], s.cores[i], i);
    hide Alone, HandsOn, ExecOf, Took, Gave;
    assert Attach(c, s).cores[i - 1] == Gave(c, s.cores[i - 1], i);
  }

  lemma AttachedWaits(c: Config, s: Sys, i: nat)
    requires Inv(c, s) && i == s.attached < |s.cores| && s.cores[i - 1].word != Result
    ensures Safe(c, s, AttachOp)
    ensures CoreOk(c, Attach(c, s), i - 1) && CoreOk(c, Attach(c, s), i)
  {
    hide Fold, InputOf, ExecOf, OutcomeOf, HandsOn, ConfigOk;
    Knows(c, s, i);
    Knows(c, s, i - 1);
    hide Inv;
  }

  lemma AttachKeeps(c: Config, s: Sys)
    requires Inv(c, s) && s.attached < |s.cores|
    ensures Safe(c, s, AttachOp) && Inv(c, Attach(c, s))
  {
    hide CoreOk, ConfigOk;
    var i := s.attached;
    if s.cores[i - 1].word == Result { AttachedHere(c, s, i); } else { AttachedWaits(c, s, i); }
    var s' := Attach(c, s);
    forall j | 0 <= j < |s'.cores| ensures CoreOk(c, s', j) {
      if j != i - 1 && j != i { CoreSame(c, s, s', j); }
    }
  }

  lemma StepKeeps(c: Config, s: Sys, a: Action)
    requires Inv(c, s) && Enabled(c, s, a)
    ensures Safe(c, s, a) && Inv(c, Apply(c, s, a))
  {
    hide Inv, CanHere, CanRead;
    match a
    case AttachOp => AttachKeeps(c, s);
    case DecideOp(i) => DecideKeeps(c, s, i);
    case RunOp(i) => RunKeeps(c, s, i);
    case AskOp(i) => AskKeeps(c, s, i);
    case AskCasOp(i) => AskKeeps(c, s, i);
    case InnerOp(i) => InnerDoneKeeps(c, s, i);
    case PublishOp(i) => PublishKeeps(c, s, i);
  }

  // ---------- runs ----------

  /** A step that breaks an assumption of the code may do anything at all. */
  ghost predicate Step(c: Config, s: Sys, s': Sys, a: Action) {
    Enabled(c, s, a) && (Safe(c, s, a) ==> s' == Apply(c, s, a))
  }

  /** The chain is attached while it runs, or afterwards, or it is a Task. */
  ghost predicate Run(c: Config, states: seq<Sys>, events: seq<Action>) {
    && |states| == |events| + 1
    && (InitEager(c, states[0]) || InitLazy(c, states[0]))
    && forall i :: 0 <= i < |events| ==> Step(c, states[i], states[i + 1], events[i])
  }

  /** In every run a core that is read has its result and was not released, an executor that is inherited is
      there, and no core is given two callbacks or two results. */
  lemma {:induction false} RunsAreSafe(c: Config, states: seq<Sys>, events: seq<Action>, n: nat)
    requires Run(c, states, events) && n <= |events|
    ensures Inv(c, states[n])
    ensures forall i :: 0 <= i < n ==> Enabled(c, states[i], events[i]) && Safe(c, states[i], events[i])
  {
    hide Inv, Safe, Enabled, Apply, InitEager, InitLazy;
    if n == 0 {
      if InitEager(c, states[0]) { EagerInv(c, states[0]); } else { LazyInv(c, states[0]); }
    } else {
      RunsAreSafe(c, states, events, n - 1);
      assert Step(c, states[n - 1], states[n - 1 + 1], events[n - 1]);
      StepKeeps(c, states[n - 1], events[n - 1]);
    }
  }

  ghost predicate Reachable(c: Config, s: Sys) {
    exists states, events :: Run(c, states, events) && states[|states| - 1] == s
  }

  lemma ReachableInv(c: Config, s: Sys)
    requires Reachable(c, s)
    ensures Inv(c, s)
  {
    hide Inv, Safe;
    var states, events :| Run(c, states, events) && states[|states| - 1] == s;
    RunsAreSafe(c, states, events, |events|);
  }

  // ---------- the meaning ----------

  /** Whatever was attached when, and whichever thread ran it, the result of a stage is the left fold of the
      stages up to it. */
  lemma ChainIsFold(c: Config, s: Sys, i: nat)
    requires Reachable(c, s) && i < |s.cores| && s.cores[i].result.Some?
    ensures |s.cores| == |c.stages| && s.cores[i].result == Some(Fold(c, i))
  {
    hide Fold, InputOf, ExecOf, OutcomeOf, HandsOn;
    ReachableInv(c, s);
    Knows(c, s, i);
  }

  /** Two runs of the same stages agree on every result they both have: eager or lazy, attached before or
      after completion makes no difference. */
  lemma RunsAgree(c: Config, s: Sys, s': Sys, i: nat)
    requires Reachable(c, s) && Reachable(c, s') && i < |s.cores| && i < |s'.cores|
    requires s.cores[i].result.Some? && s'.cores[i].result.Some?
    ensures s.cores[i].result == s'.cores[i].result
  {
    hide Reachable, Fold;
    ChainIsFold(c, s, i);
    ChainIsFold(c, s', i);
  }

  /** A stage's function is invoked once, on the input that the fold gives it, or not at all when that input
      is not for it; every core is released once, by the stage behind it, and so is a future or task that the
      function returned, before the stage has its result. */
  lemma InvokedAndReleasedOnce(c: Config, s: Sys, i: nat)
    requires Reachable(c, s) && i < |s.cores|
    ensures |s.cores| == |c.stages| && s.cores[i].invoked <= 1 && s.cores[i].released <= 1
    ensures HasRun(s.cores[i].at) ==> s.cores[i].invoked == One(OutcomeOf(c, i).0)
    ensures i + 1 < |s.cores| && HasRun(s.cores[i + 1].at) ==> s.cores[i].released == 1
    ensures HasRun(s.cores[i].at) ==> s.cores[i].input == InputOf(c, i)
    ensures s.cores[i].unwrapped == One(s.cores[i].result.Some? && !OutcomeOf(c, i).1.Returns?)
  {
    hide Fold, InputOf, ExecOf, OutcomeOf, HandsOn;
    ReachableInv(c, s);
    Knows(c, s, i);
  }

  /** The executor that the chain names for a stage: its own, or the nearest one before it. */
  function Named(c: Config, i: nat): Exec
    requires i < |c.stages|
  {
    if c.stages[i].exec.Some? then c.stages[i].exec.value
    else if i == 0 then INLINE
    else Named(c, i - 1)
  }

  /** Stage `i` gets its executor from stage `j`, through those in between. */
  ghost predicate InheritsThrough(c: Config, j: nat, i: nat)
    requires i < |c.stages|
  {
    j < i && forall k :: j < k <= i ==> c.stages[k].exec.None?
  }

  ghost predicate SwapsBefore(c: Config, i: nat)
    requires i < |c.stages|
  {
    exists j: nat :: InheritsThrough(c, j, i) && OutcomeOf(c, j).1.CoroutineTask?
  }

  /** A stage runs on the executor that the chain names for it, unless a stage that it inherits through started a
      coroutine. */
  lemma {:induction false} ExecOfIs(c: Config, i: nat)
    requires i < |c.stages|
    ensures ExecOf(c, i) == if SwapsBefore(c, i) then INLINE else Named(c, i)
  {
    InputIs(c, i);
    hide InputOf, OutcomeOf, Fold;
    if c.stages[i].exec.None? && i > 0 {
      InputIs(c, i - 1);
      ExecOfIs(c, i - 1);
      if OutcomeOf(c, i - 1).1.CoroutineTask? {
        assert InheritsThrough(c, i - 1, i);
      } else if SwapsBefore(c, i - 1) {
        var j: nat :| InheritsThrough(c, j, i - 1) && OutcomeOf(c, j).1.CoroutineTask?;
        assert InheritsThrough(c, j, i);
      }
    }
  }

  lemma {:induction false} BegunBefore(c: Config, s: Sys, i: nat, j: nat)
    requires Inv(c, s) && j < i < |s.cores| && Begun(s.cores[i].at)
    ensures s.cores[j].at == Published
  {
    hide Alone, ConfigOk;
    Knows(c, s, i - 1);
    if j < i - 1 { BegunBefore(c, s, i - 1, j); }
  }

  /** In this run the function of stage `j` was invoked and returned a task that a coroutine heads. */
  ghost predicate Swapped(c: Config, s: Sys, j: nat)
    requires j < |s.cores| == |c.stages|
  {
    match c.stages[j].func
    case OnValue(f) => s.cores[j].invoked == 1 && s.cores[j].input.Ok? && f(s.cores[j].input.value).CoroutineTask?
    case OnError(g) => s.cores[j].invoked == 1 && s.cores[j].input.Err? && g(s.cores[j].input.error).CoroutineTask?
    case OnResult(h) => s.cores[j].invoked == 1 && h(s.cores[j].input).CoroutineTask?
  }

  ghost predicate SwappedBefore(c: Config, s: Sys, i: nat)
    requires i < |s.cores| == |c.stages|
  {
    exists j: nat :: InheritsThrough(c, j, i) && Swapped(c, s, j)
  }

  lemma SwappedIs(c: Config, s: Sys, i: nat)
    requires Inv(c, s) && i < |s.cores| && Begun(s.cores[i].at)
    ensures SwappedBefore(c, s, i) <==> SwapsBefore(c, i)
  {
    hide Fold, InputOf, ExecOf, OutcomeOf, HandsOn, ConfigOk, CoreOk;
    forall j: nat | j < i ensures Swapped(c, s, j) <==> OutcomeOf(c, j).1.CoroutineTask? {
      BegunBefore(c, s, i, j);
      Knows(c, s, j);
      SwappedOne(c, s, j);
    }
  }

  lemma SwappedOne(c: Config, s: Sys, j: nat)
    requires j < |s.cores| == |c.stages| && CoreOk(c, s, j) && s.cores[j].at == Published
    ensures Swapped(c, s, j) <==> OutcomeOf(c, j).1.CoroutineTask?
  {
    hide Fold, InputOf, ExecOf, OutcomeOf, HandsOn;
    InputIs(c, j);
  }

  /** A stage that has begun and still has its executor, before its function runs: it has the one that the chain
      names, if and only if no stage that it inherits through started a coroutine; otherwise it has the inline
      executor, which a new coroutine is made with.  A stage whose own function started one hands that on. */
  lemma ExecutorInherited(c: Config, s: Sys, i: nat)
    requires Reachable(c, s) && i < |s.cores| == |c.stages| && Begun(s.cores[i].at) && s.cores[i].exec.Some?
    ensures !HasRun(s.cores[i].at) ==>
              (s.cores[i].exec.value == Named(c, i) <==> Named(c, i) == INLINE || !SwappedBefore(c, s, i))
    ensures s.cores[i].exec.value
         == if SwappedBefore(c, s, i) || Swapped(c, s, i) then INLINE else Named(c, i)
  {
    hide Fold, InputOf, ExecOf, OutcomeOf, HandsOn, Reachable;
    ReachableInv(c, s);
    SwappedIs(c, s, i);
    ExecOfIs(c, i);
    Knows(c, s, i);
    InputIs(c, i);
    hide SwappedBefore, SwapsBefore, Named;
  }

  /** Until the last attached stage has its result, some core can take a step, however the stages wait for
      each other. */
  lemma {:induction false} NobodyForgotten(c: Config, s: Sys, i: nat) returns (a: Action)
    requires Reachable(c, s) && i < s.attached && i < |s.cores| && s.cores[i].at != Published
    ensures Enabled(c, s, a) && !a.AttachOp?
  {
    hide Fold, InputOf, ExecOf, OutcomeOf, HandsOn, Reachable;
    ReachableInv(c, s);
    Knows(c, s, i);
    match s.cores[i].at
    case Submitted => a := DecideOp(i);
    case Called => a := RunOp(i);
    case Asks => a := AskOp(i);
    case AskCas => a := AskCasOp(i);
    case Unwrapping => a := InnerOp(i);
    case Stored => a := PublishOp(i);
    case Waiting =>
      Knows(c, s, i - 1);
      a := NobodyForgotten(c, s, i - 1);
  }

  // ---------- laws of the fold ----------

  /** A failure passes every stage that only takes values and is not dropped. */
  lemma {:induction false} ErrorsPassThrough(c: Config, i: nat, j: nat)
    requires i <= j < |c.stages| && Fold(c, i).Err?
    requires forall k :: i < k <= j ==>
               c.stages[k].func.OnValue? && (c.stages[k].call ==> c.accepts(k, ExecOf(c, k)))
    ensures Fold(c, j) == Fold(c, i)
  {
    if i < j {
      ErrorsPassThrough(c, i, j - 1);
      InputIs(c, j);
    }
  }

  /** A value passes every stage that only takes errors. */
  lemma {:induction false} ValuesPassThrough(c: Config, i: nat, j: nat)
    requires i <= j < |c.stages| && Fold(c, i).Ok?
    requires forall k :: i < k <= j ==>
               c.stages[k].func.OnError? && (c.stages[k].call ==> c.accepts(k, ExecOf(c, k)))
    ensures Fold(c, j) == Fold(c, i)
  {
    if i < j {
      ValuesPassThrough(c, i, j - 1);
      InputIs(c, j);
    }
  }

  lemma DroppedInput(c: Config, i: nat)
    requires i < |c.stages| && c.stages[i].call && !c.accepts(i, ExecOf(c, i))
    ensures InputOf(c, i) == STOP && Fold(c, i) == Dispatch(c.stages[i].func, STOP).1.r
  {
  }

  /** What a function makes of Stop. */
  function OnStop(func: Func): Res {
    match func
    case OnValue(_) => STOP
    case OnError(g) => g(STOP.error).r
    case OnResult(h) => h(STOP).r
  }

  /** The executor that the chain names drops the stage, and no coroutine took that executor away. */
  ghost predicate Dropped(c: Config, s: Sys, i: nat)
    requires i < |s.cores| == |c.stages|
  {
    c.stages[i].call && !c.accepts(i, Named(c, i)) && !SwappedBefore(c, s, i)
  }

  /** In every run a stage that its executor dropped was given Stop, whatever the result before it is: a function
      that takes values was not invoked and its result is Stop, one that takes errors or results was invoked once,
      on Stop.  Every other stage was given the result before it, also when its executor had stopped but a
      coroutine had taken it away. */
  lemma DroppedSeesStop(c: Config, s: Sys, i: nat)
    requires Reachable(c, s) && i < |s.cores| == |c.stages| && HasRun(s.cores[i].at)
    ensures Dropped(c, s, i) ==>
              && s.cores[i].input == STOP
              && s.cores[i].invoked == (if c.stages[i].func.OnValue? then 0 else 1)
              && (s.cores[i].result.Some? ==> s.cores[i].result == Some(OnStop(c.stages[i].func)))
    ensures !Dropped(c, s, i) ==> Some(s.cores[i].input) == if i == 0 then Some(Ok(0)) else s.cores[i - 1].result
  {
    hide Reachable, Fold, InputOf, ExecOf, OutcomeOf, HandsOn;
    ReachableInv(c, s);
    SwappedIs(c, s, i);
    ExecOfIs(c, i);
    Knows(c, s, i);
    InputIs(c, i);
    if c.stages[i].call && !c.accepts(i, ExecOf(c, i)) { DroppedInput(c, i); }
    else if i > 0 { BegunBefore(c, s, i, i - 1); Knows(c, s, i - 1); }
    hide SwappedBefore, SwapsBefore, Named, Inv;
  }

  // ---------- what a stage computes ----------

  /** The function of `x` was invoked once and gave back `out`: the result is what came of that, and the core of a
      future or task was released. */
  ghost predicate Ran(x: Core, out: Outcome) {
    x.result == Some(out.r) && x.invoked == 1 && x.unwrapped == One(!out.Returns?)
  }

  /** The function of `x` was not for `r`, which the stage passes on. */
  ghost predicate Skipped(x: Core, r: Res) {
    x.result == Some(r) && x.invoked == 0 && x.unwrapped == 0
  }

  /** In every run, a stage that has its result took what was before it, or Stop if it was dropped, and did with it
      what its function says: one that takes values was invoked on a value and passed an error on, one that takes
      errors was invoked on an error and passed a value on, one that takes results was invoked on either. */
  lemma StageMeaning(c: Config, s: Sys, i: nat)
    requires Reachable(c, s) && i < |s.cores| == |c.stages| && s.cores[i].result.Some?
    ensures i > 0 ==> s.cores[i - 1].result.Some?
    ensures var before := if Dropped(c, s, i) then STOP else if i == 0 then Ok(0) else s.cores[i - 1].result.value;
      match c.stages[i].func
      case OnValue(f) => if before.Ok? then Ran(s.cores[i], f(before.value)) else Skipped(s.cores[i], before)
      case OnError(g) => if before.Err? then Ran(s.cores[i], g(before.error)) else Skipped(s.cores[i], before)
      case OnResult(h) => Ran(s.cores[i], h(before))
  {
    hide Reachable, Fold, InputOf, ExecOf, OutcomeOf, HandsOn, Dropped;
    ReachableInv(c, s);
    Knows(c, s, i);
    InputIs(c, i);
    DroppedSeesStop(c, s, i);
    if i > 0 { BegunBefore(c, s, i, i - 1); Knows(c, s, i - 1); }
    hide Inv;
  }

  /** `f` of the first function, then of the second, and so on, until one of them fails. */
  function Composed(fs: seq<int -> Res>, v: int): Res {
    if fs == [] then Ok(v)
    else
      var r := Composed(fs[..|fs| - 1], v);
      if r.Ok? then fs[|fs| - 1](r.value) else r
  }

  /** Stage `i` is a function of values that comes to `f`, at once or by a future or a task. */
  ghost predicate Computes(c: Config, i: nat, f: int -> Res)
    requires i < |c.stages|
  {
    c.stages[i].func.OnValue? && forall x :: c.stages[i].func.f(x).r == f(x)
  }

  /** A chain of functions of values computes their composition, up to the first that fails, of the value that its
      head has, however it was attached and run. */
  lemma {:induction false} ChainComposes(c: Config, s: Sys, fs: seq<int -> Res>, v: int)
    requires Reachable(c, s) && |fs| < |s.cores| == |c.stages|
    requires s.cores[|fs|].result.Some? && s.cores[0].result == Some(Ok(v))
    requires forall i :: 0 <= i < |fs| ==> Computes(c, i + 1, fs[i]) && !Dropped(c, s, i + 1)
    ensures s.cores[|fs|].result == Some(Composed(fs, v))
  {
    hide Reachable, Dropped;
    var n := |fs|;
    if n > 0 {
      StageMeaning(c, s, n);
      ChainComposes(c, s, fs[..n - 1], v);
      assert Computes(c, n, fs[n - 1]);
    }
  }

  // ---------- the executor that is lost ----------

  lemma ReachNext(c: Config, s: Sys, a: Action)
    requires Reachable(c, s) && Enabled(c, s, a)
    ensures Safe(c, s, a) && Reachable(c, Apply(c, s, a))
  {
    hide Inv, Enabled, Safe, Apply, InitEager, InitLazy;
    ReachableInv(c, s);
    StepKeeps(c, s, a);
    var states, events :| Run(c, states, events) && states[|states| - 1] == s;
    var states', events' := states + [Apply(c, s, a)], events + [a];
    forall i | 0 <= i < |events'| ensures Step(c, states'[i], states'[i + 1], events'[i]) {
      if i < |events| { assert Step(c, states[i], states[i + 1], events[i]); }
    }
    assert Run(c, states', events') && states'[|states'| - 1] == Apply(c, s, a);
  }

  /** Run(e, f).Then(g): `f` returns a coroutine's task, `g` names no executor, and `e` stops before `g`. */
  function CoroutineChain(e: Exec): Config {
    var f := _ => CoroutineTask(Ok(1));
    var g := x => Returns(Ok(x));
    Config([Stage(OnResult(f), true, Some(e)), Stage(OnValue(g), true, None)], (i, x) => x == INLINE || i == 0)
  }

  lemma Starts(c: Config, s: Sys)
    requires InitLazy(c, s)
    ensures Reachable(c, s)
  {
    hide InitLazy, InitEager;
    assert Run(c, [s], []) && [s][|[s]| - 1] == s;
  }

  /** The first stage is called, starts its coroutine, has its result, hands on; so does the second one. */
  function FirstAt(e: Exec, n: nat): Core {
    var x := NewCore(Submitted, Callback, Some(e));
    var called := x.(at := Called, input := Ok(0));
    var waits := called.(at := Unwrapping, inner := Inner(Callback, Ok(1)), exec := Some(INLINE), invoked := 1);
    var done := waits.(at := Stored, inner := Inner(Result, Ok(1)), result := Some(Ok(1)), unwrapped := 1);
    var gone := done.(at := Published, word := Result, exec := None);
    if n == 0 then x else if n == 1 then called else if n == 2 then waits else if n == 3 then done
    else if n < 6 then gone else gone.(released := 1)
  }

  function SecondAt(n: nat): Core {
    var x := NewCore(Waiting, Empty, None);
    var begun := x.(at := Submitted, exec := Some(INLINE));
    var called := begun.(at := Called, input := Ok(1));
    if n < 4 then x else if n == 4 then begun else if n == 5 then called
    else called.(at := Stored, result := Some(Ok(1)), invoked := 1)
  }

  function ChainAt(e: Exec, n: nat): Sys { Sys([FirstAt(e, n), SecondAt(n)], 2, false) }

  function ChainOp(n: nat): Action {
    if n == 0 then DecideOp(0) else if n == 1 then RunOp(0) else if n == 2 then InnerOp(0)
    else if n == 3 then PublishOp(0) else if n == 4 then DecideOp(1) else RunOp(1)
  }

  lemma ChainGoes(e: Exec, n: nat)
    requires n < 6 && e != INLINE
    ensures Enabled(CoroutineChain(e), ChainAt(e, n), ChainOp(n))
    ensures Safe(CoroutineChain(e), ChainAt(e, n), ChainOp(n)) ==>
              Apply(CoroutineChain(e), ChainAt(e, n), ChainOp(n)) == ChainAt(e, n + 1)
  {
  }

  lemma {:induction false} ChainReached(e: Exec, n: nat)
    requires n <= 6 && e != INLINE
    ensures Reachable(CoroutineChain(e), ChainAt(e, n))
  {
    var c := CoroutineChain(e);
    if n == 0 {
      Starts(c, ChainAt(e, 0));
    } else {
      hide Reachable, CoroutineChain, ChainAt, ChainOp, Enabled, Safe, Apply;
      ChainReached(e, n - 1);
      ChainGoes(e, n - 1);
      ReachNext(c, ChainAt(e, n - 1), ChainOp(n - 1));
    }
  }

  /** The executor of a chain has stopped when the second stage comes, which names no other.  It is called all the
      same, on the inline executor, because the first one returned a coroutine. */
  lemma CoroutineTakesExecutor(e: Exec) returns (c: Config, s: Sys)
    requires e != INLINE
    ensures |c.stages| == |s.cores| == 2 && c.stages[0].exec == Some(e) && c.stages[1].exec == None && c.stages[1].call
    ensures Reachable(c, s) && Named(c, 1) == e && !c.accepts(1, e)
    ensures s.cores[1].exec == Some(INLINE) && s.cores[1].input == Ok(1) && s.cores[1].result == Some(Ok(1))
  {
    hide Reachable;
    ChainReached(e, 6);
    c, s := CoroutineChain(e), ChainAt(e, 6);
  }
}
