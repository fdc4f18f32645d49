/** Every chain of stages comes to its end: no thread turns in a loop, and what it ends with is the fold. */
module PipelineProgress {
  import opened Common
  import opened Census
  import opened PipelineRuns
  import opened PipelineProofs

  function AtWeight(p: Phase): nat {
    match p
    case Published => 0
    case Stored => 1
    case Unwrapping => 2
    case AskCas => 3
    case Asks => 4
    case Called => 6
    case Submitted => 7
    case Waiting => 8
    case Unmade => 9
  }

  /** How many more steps a core can take; a returned future or task that has no result yet takes one of its own. */
  function Weight(x: Core): nat { AtWeight(x.at) + if Pending(x) then 1 else 0 }

  ghost function Weights(s: Sys): seq<nat> {
    seq(|s.cores|, i requires 0 <= i < |s.cores| => Weight(s.cores[i]))
  }

  /** How many steps there can be from here; the thread that attaches a stage may need one more to load its word. */
  ghost function Left(s: Sys): int {
    Total(Weights(s)) + |s.cores| - s.attached + if s.casing then 0 else 1
  }

  /** No core gets farther away from its end. */
  ghost predicate Onwards(s: Sys, s': Sys) {
    |s'.cores| == |s.cores| && forall j :: 0 <= j < |s.cores| ==> Weight(s'.cores[j]) <= Weight(s.cores[j])
  }

  /** Core `i` comes closer to it. */
  ghost predicate Closer(s: Sys, s': Sys, i: nat) {
    && Onwards(s, s') && i < |s.cores| && Weight(s'.cores[i]) < Weight(s.cores[i])
    && s'.attached == s.attached && s'.casing == s.casing
  }

  lemma CloserLeft(s: Sys, s': Sys, i: nat)
    requires Closer(s, s', i)
    ensures Left(s') < Left(s)
  {
    assert Weights(s')[i] < Weights(s)[i];
    TotalSmaller(Weights(s), Weights(s'));
  }

  lemma DecideCloser(c: Config, s: Sys, i: nat)
    requires Enabled(c, s, DecideOp(i)) && Safe(c, s, DecideOp(i))
    ensures Closer(s, Apply(c, s, DecideOp(i)), i)
  {
  }

  lemma CallWeight(func: Func, x: Core)
    requires x.at == Called
    ensures Weight(CallImpl(func, x)) < Weight(x)
  {
  }

  lemma RunCloser(c: Config, s: Sys, i: nat)
    requires Enabled(c, s, RunOp(i)) && Safe(c, s, RunOp(i))
    ensures Closer(s, Apply(c, s, RunOp(i)), i)
  {
    CallWeight(c.stages[i].func, s.cores[i]);
    hide CallImpl;
  }

  lemma AskCloser(c: Config, s: Sys, a: Action, i: nat)
    requires (a == AskOp(i) || a == AskCasOp(i)) && Enabled(c, s, a) && Safe(c, s, a)
    ensures Closer(s, Apply(c, s, a), i)
  {
  }

  lemma InnerCloser(c: Config, s: Sys, i: nat)
    requires Enabled(c, s, InnerOp(i)) && Safe(c, s, InnerOp(i))
    ensures Closer(s, Apply(c, s, InnerOp(i)), i)
  {
  }

  lemma HereOnwards(c: Config, s: Sys, i: nat)
    requires 0 < i < |s.cores| == |c.stages| && s.cores[i - 1].result.Some?
    requires s.cores[i].at == Waiting || s.cores[i].at == Unmade
    ensures Onwards(s, Here(c, s, i)) && Here(c, s, i).attached == s.attached && Here(c, s, i).casing == s.casing
    ensures Weight(Here(c, s, i).cores[i]) < Weight(s.cores[i])
  {
  }

  lemma PublishCloser(c: Config, s: Sys, i: nat)
    requires Enabled(c, s, PublishOp(i)) && Safe(c, s, PublishOp(i))
    ensures Closer(s, Apply(c, s, PublishOp(i)), i)
  {
    var s1 := Put(s, i, s.cores[i].(at := PipelineRuns.Published, word := Result));
    if s.cores[i].word == Callback {
      HereOnwards(c, s1, i + 1);
      hide Here;
    }
  }

  /** Either the word was loaded, or the stage is attached and has begun to move. */
  lemma AttachLeft(c: Config, s: Sys)
    requires Enabled(c, s, AttachOp) && Safe(c, s, AttachOp)
    ensures Left(Apply(c, s, AttachOp)) < Left(s)
  {
    var i, s' := s.attached, Apply(c, s, AttachOp);
    if s.cores[i - 1].word == Result {
      HereOnwards(c, s.(attached := i + 1, casing := false), i);
      hide Here;
      AttachedLeft(s, s', i);
    } else if !s.casing {
      assert Weights(s') == Weights(s);
    } else {
      AttachedLeft(s, s', i);
    }
  }

  lemma AttachedLeft(s: Sys, s': Sys, i: nat)
    requires Onwards(s, s') && i < |s.cores| && Weight(s'.cores[i]) < Weight(s.cores[i]) && s'.attached == s.attached + 1
    ensures Left(s') < Left(s)
  {
    assert Weights(s')[i] < Weights(s)[i];
    TotalSmaller(Weights(s), Weights(s'));
  }

  function Moving(a: Action): nat { if a == AttachOp then 0 else a.i }

  lemma StepLeft(c: Config, s: Sys, a: Action)
    requires Enabled(c, s, a) && Safe(c, s, a)
    ensures Left(Apply(c, s, a)) < Left(s)
  {
    hide Left, Enabled, Safe, Apply, Closer;
    match a {
      case AttachOp => AttachLeft(c, s);
      case DecideOp(i) => DecideCloser(c, s, i);
      case RunOp(i) => RunCloser(c, s, i);
      case AskOp(i) => AskCloser(c, s, a, i);
      case AskCasOp(i) => AskCloser(c, s, a, i);
      case InnerOp(i) => InnerCloser(c, s, i);
      case PublishOp(i) => PublishCloser(c, s, i);
    }
    if a != AttachOp { CloserLeft(s, Apply(c, s, a), Moving(a)); }
  }

  lemma StartLeft(c: Config, s: Sys)
    requires InitEager(c, s) || InitLazy(c, s)
    ensures Left(s) <= 10 * |s.cores| && |s.cores| == |c.stages|
  {
    TotalBound(Weights(s), 9);
  }

  lemma NeverNegative(c: Config, s: Sys)
    requires Inv(c, s)
    ensures 0 <= Left(s)
  {
  }

  /** No run of a chain of `n` stages has more than 10 n steps, whatever its functions return and whoever attaches
      what when. */
  lemma {:induction false} RunsEnd(c: Config, states: seq<Sys>, events: seq<Action>, n: nat)
    requires Run(c, states, events) && n <= |events|
    ensures n + Left(states[n]) <= 10 * |c.stages| && 0 <= Left(states[n])
  {
    hide Inv, Safe, Enabled, Apply, Left, InitEager, InitLazy;
    RunsAreSafe(c, states, events, n);
    NeverNegative(c, states[n]);
    if n == 0 {
      StartLeft(c, states[0]);
    } else {
      RunsEnd(c, states, events, n - 1);
      assert Step(c, states[n - 1], states[n - 1 + 1], events[n - 1]);
      StepLeft(c, states[n - 1], events[n - 1]);
    }
  }

  /** Where a run ends that nobody can go on with, every stage is attached and has published the fold of the stages up
      to it. */
  lemma EndsFolded(c: Config, s: Sys, i: nat)
    requires Reachable(c, s) && i < |c.stages| && forall a :: !Enabled(c, s, a)
    ensures s.attached == |c.stages| == |s.cores|
    ensures s.cores[i].at == PipelineRuns.Published && s.cores[i].result == Some(Fold(c, i))
  {
    ReachableInv(c, s);
    assert !Enabled(c, s, AttachOp);
    Knows(c, s, i);
    hide Reachable, Inv, Fold, InputOf, ExecOf, OutcomeOf, HandsOn;
    if s.cores[i].at != PipelineRuns.Published { var a := NobodyForgotten(c, s, i); }
    ChainIsFold(c, s, i);
  }
}
