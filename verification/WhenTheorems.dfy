/** What the combined future of WhenAny and WhenAll is, in every run. */
module WhenTheorems {
  import opened Common
  import opened Census
  import opened WhenRuns
  import opened WhenProofs

  // ---------- runs ----------

  /** A step that breaks an assumption of the code may do anything at all. */
  ghost predicate Step(c: Config, s: Sys, s': Sys, t: Tid, a: Action) {
    Enabled(c, s, t, a) && (Safe(c, s, t, a) ==> s' == Apply(c, s, t, a))
  }

  datatype Event = Event(t: Tid, a: Action)

  ghost predicate Run(c: Config, states: seq<Sys>, events: seq<Event>) {
    && |states| == |events| + 1
    && Init(c, states[0])
    && forall i :: 0 <= i < |events| ==> Step(c, states[i], states[i + 1], events[i].t, events[i].a)
  }

  /** In every run the combinator exists whenever it is touched and is destroyed once, after its last input;
      its promise is set at most once, and the destructor finds what it needs. */
  lemma {:induction false} RunsAreSafe(c: Config, states: seq<Sys>, events: seq<Event>, n: nat)
    requires Run(c, states, events) && n <= |events|
    ensures Inv(c, states[n])
    ensures forall i :: 0 <= i < n ==>
              Enabled(c, states[i], events[i].t, events[i].a) && Safe(c, states[i], events[i].t, events[i].a)
  {
    hide Inv, Safe, Enabled, Apply;
    if n == 0 {
      InitInv(c, states[0]);
    } else {
      RunsAreSafe(c, states, events, n - 1);
      assert Step(c, states[n - 1], states[n - 1 + 1], events[n - 1].t, events[n - 1].a);
      StepKeeps(c, states[n - 1], events[n - 1].t, events[n - 1].a);
    }
  }

  ghost predicate Reachable(c: Config, s: Sys) {
    exists states, events :: Run(c, states, events) && states[|states| - 1] == s
  }

  lemma ReachableInv(c: Config, s: Sys)
    requires Reachable(c, s)
    ensures Inv(c, s)
  {
    hide Inv, Safe;
    var states, events :| Run(c, states, events) && states[|states| - 1] == s;
    RunsAreSafe(c, states, events, |events|);
  }

  // ---------- lifetime ----------

  /** The combinator lives until the last input was registered, whatever is ready meanwhile. */
  lemma AliveWhileRegistering(c: Config, s: Sys)
    requires Reachable(c, s) && s.pos < |c.inputs|
    ensures s.count > 0 && !s.destroyed
  {
    hide Words, Judged, PromiseOk;
    ReachableInv(c, s);
    assert InputOk(c, s.destroyed, s.input[c.inputs[s.pos]], false);
    PendingAlive(c, s, c.inputs[s.pos]);
  }

  /** The promise is set exactly once, and every input core released exactly once, when the combinator is
      gone; and the combinator is gone exactly when the last input was consumed and the destructor has run. */
  lemma Finished(c: Config, s: Sys, t: Tid)
    requires Reachable(c, s) && t in s.input
    ensures s.input[t].released <= 1
    ensures s.destroyed ==> s.input[t].at == Out && s.input[t].released == 1 && s.promise == Some(Final(c, s.m.line))
    ensures (forall u :: u in s.input ==> s.input[u].at == Out) ==> s.destroyed
  {
    hide Words, PromiseOk;
    ReachableInv(c, s);
    InputKnows(c, s, t);
    if s.destroyed && s.input[t].at == Destroys { Present(s.input, IsDestroying, t); }
    if s.destroyed && IsPending(s.input[t]) { Present(s.input, IsPending, t); }
    if forall u :: u in s.input ==> s.input[u].at == Out {
      Nobody(s.input, IsPending);
      Nobody(s.input, IsDestroying);
    }
  }

  /** Until then somebody can take a step: the combined future is not forgotten once all inputs are ready. */
  lemma NobodyForgotten(c: Config, s: Sys) returns (t: Tid, a: Action)
    requires Reachable(c, s) && !s.destroyed
    ensures Enabled(c, s, t, a)
  {
    hide Words, Judged, PromiseOk;
    ReachableInv(c, s);
    if N(s.input, IsDestroying) >= 1 {
      t := Witness(s.input, IsDestroying);
      a := DestroyOp;
    } else {
      t := Witness(s.input, IsPending);
      assert t in Elements(c.inputs);
      match s.input[t].at
      case Enters => a := LoadOp;
      case Decides => a := DecideOp;
      case Sets => a := SetOp;
      case Stores => a := StoreOp;
      case Leaves => a := LeaveOp;
      case Armed => a := PublishOp;
      case Waiting => t, a := NextInput(c, s, t), RegisterOp;
      case RegCas => t, a := NextInput(c, s, t), RegisterOp;
    }
  }

  ghost function NextInput(c: Config, s: Sys, t: Tid): (u: Tid)
    requires Inv(c, s) && t in s.input && (s.input[t].at == Waiting || s.input[t].at == RegCas)
    ensures s.pos < |c.inputs| && u == c.inputs[s.pos] && u in s.input
  {
    assert t in Elements(c.inputs);
    c.inputs[s.pos]
  }

  // ---------- the answer ----------

  ghost predicate SomeOk(c: Config) { exists t :: t in c.results && c.results[t].Ok? }

  ghost predicate SomeErr(c: Config) { exists t :: t in c.results && c.results[t].Err? }

  /** Nobody is through with a destroyed combinator but its inputs, each settled. */
  lemma DestroyedSettled(c: Config, s: Sys, t: Tid)
    requires Inv(c, s) && s.destroyed && t in s.input
    ensures t in c.results && Settled(c, s.m, t, c.results[t])
  {
    hide Words, Settled;
    InputKnows(c, s, t);
    if IsPending(s.input[t]) { Present(s.input, IsPending, t); }
  }

  /** Any<None>: the result of the input that exchanged `_done` first. */
  lemma AnyNoneAnswer(c: Config, s: Sys)
    requires Reachable(c, s) && s.destroyed && c.strategy == AnyNone
    ensures s.m.line != [] && s.m.line[0] in c.results && s.promise == Some(Single(c.results[s.m.line[0]]))
  {
    hide N, Of, Words, JudgedOk;
    ReachableInv(c, s);
    assert c.inputs[0] in Elements(c.inputs);
    DestroyedSettled(c, s, c.inputs[0]);
    assert s.m.line[0] in s.m.line;
  }

  /** Any<FirstFail>: a value, of the first Ok input to set the bit, if any input is Ok, otherwise the first
      error. */
  lemma AnyFirstFailAnswer(c: Config, s: Sys)
    requires Reachable(c, s) && s.destroyed && c.strategy == AnyFirstFail
    ensures var w := First(c.results, s.m.line, SomeOk(c));
      w.Some? && s.promise == Some(Single(c.results[w.value]))
  {
    hide N, Of, JudgedOk;
    ReachableInv(c, s);
    if SomeOk(c) {
      var t :| t in c.results && c.results[t].Ok?;
      DestroyedSettled(c, s, t);
    } else {
      assert c.inputs[0] in Elements(c.inputs);
      DestroyedSettled(c, s, c.inputs[0]);
      assert First(c.results, s.m.line, true).None?;
    }
  }

  /** Any<LastFail>: the value of the first Ok input to exchange the state, if any input is Ok; otherwise the
      error of the last of all inputs to decrement it. */
  lemma AnyLastFailAnswer(c: Config, s: Sys)
    requires Reachable(c, s) && s.destroyed && c.strategy == AnyLastFail
    ensures SomeOk(c) ==> var w := First(c.results, s.m.line, true);
              w.Some? && s.promise == Some(Single(c.results[w.value]))
    ensures !SomeOk(c) ==>
              && |s.m.line| == |c.inputs| && Distinct(s.m.line)
              && var last := s.m.line[|s.m.line| - 1]; last in c.results && s.promise == Some(Single(c.results[last]))
  {
    ReachableInv(c, s);
    if SomeOk(c) {
      OneWasOk(c, s);
    } else {
      AllFailed(c, s);
    }
  }

  lemma OneWasOk(c: Config, s: Sys)
    requires Inv(c, s) && s.destroyed && c.strategy == AnyLastFail && SomeOk(c)
    ensures First(c.results, s.m.line, true).Some?
  {
    hide N, Of, JudgedOk, Life, Inputs;
    var t :| t in c.results && c.results[t].Ok?;
    DestroyedSettled(c, s, t);
  }

  lemma AllFailed(c: Config, s: Sys)
    requires Inv(c, s) && s.destroyed && c.strategy == AnyLastFail && !SomeOk(c)
    ensures |s.m.line| == |c.inputs| && s.m.line[|s.m.line| - 1] in c.results
    ensures First(c.results, s.m.line, true).None?
  {
    hide N, Of, JudgedOk, Life, Inputs;
    assert First(c.results, s.m.line, true).None?;
    forall u | u in c.inputs ensures u in s.m.line {
      assert u in Elements(c.inputs);
      DestroyedSettled(c, s, u);
    }
    SubsetSize(Elements(c.inputs), Elements(s.m.line));
    DistinctSize(c.inputs);
    DistinctSize(s.m.line);
    assert s.m.line[|s.m.line| - 1] in s.m.line;
  }

  /** Any<LastFail>: after a value was exchanged in, the state stays odd through every later decrement, even
      when it wraps around below zero; before, it is twice the number of inputs that have not failed yet. */
  lemma LastFailWord(c: Config, s: Sys)
    requires Reachable(c, s) && c.strategy == AnyLastFail
    ensures Odd(s.m.word) <==> First(c.results, s.m.line, true).Some?
    ensures !Odd(s.m.word) ==> s.m.word == 2 * (|c.inputs| - |s.m.line|)
  {
    ReachableInv(c, s);
  }

  /** All<None>: all results, in the order of the inputs. */
  lemma AllNoneAnswer(c: Config, s: Sys)
    requires Reachable(c, s) && s.destroyed && c.strategy == AllNone
    ensures c.results.Keys == Elements(c.inputs) && s.promise == Some(AllOf(Results(c)))
  {
    ReachableInv(c, s);
  }

  /** All<FirstFail>: the error of the first failed input to exchange `_done`, if any input failed; otherwise
      all values, in the order of the inputs. */
  lemma AllFirstFailAnswer(c: Config, s: Sys)
    requires Reachable(c, s) && s.destroyed && c.strategy == AllFirstFail
    ensures SomeErr(c) ==>
              && s.m.line != [] && s.m.line[0] in c.results && c.results[s.m.line[0]].Err?
              && s.promise == Some(Single(c.results[s.m.line[0]]))
    ensures !SomeErr(c) ==> c.results.Keys == Elements(c.inputs) && s.promise == Some(AllOf(Results(c)))
  {
    hide N, Of, Words, First;
    ReachableInv(c, s);
    if SomeErr(c) {
      var t :| t in c.results && c.results[t].Err?;
      DestroyedSettled(c, s, t);
    }
    if s.m.line != [] {
      assert s.m.line[0] in s.m.line;
      InputKnows(c, s, s.m.line[0]);
    }
  }
}
