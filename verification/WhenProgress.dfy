/** Every combinator comes to its end: no thread turns in a loop, and the end is the answer. */
module WhenProgress {
  import opened Common
  import opened Census
  import opened WhenRuns
  import opened WhenProofs
  import opened WhenTheorems

  function AtWeight(p: Phase): nat {
    match p
    case Out => 0
    case Destroys => 1
    case Leaves => 2
    case Sets => 3
    case Stores => 3
    case Decides => 4
    case Enters => 5
    case Armed => 6
    case RegCas => 7
    case Waiting => 8
  }

  /** How many more steps there can be for an input: its result comes, and somebody takes it to the combinator. */
  function Weight(x: Input): nat { AtWeight(x.at) + if x.ready then 0 else 1 }

  ghost function Weights(c: Config, s: Sys): seq<nat>
    requires Shape(c, s)
  {
    seq(|c.inputs|, i requires 0 <= i < |c.inputs| => (assert c.inputs[i] in Elements(c.inputs); Weight(s.input[c.inputs[i]])))
  }

  ghost function Left(c: Config, s: Sys): nat
    requires Shape(c, s)
  {
    Total(Weights(c, s))
  }

  /** Input `t` comes closer to its end, and the others stay where they are. */
  ghost predicate Closer(s: Sys, s': Sys, t: Tid) {
    && s'.input.Keys == s.input.Keys && t in s.input && Weight(s'.input[t]) < Weight(s.input[t])
    && forall u :: u in s.input && u != t ==> Weight(s'.input[u]) == Weight(s.input[u])
  }

  lemma CloserLeft(c: Config, s: Sys, s': Sys, t: Tid)
    requires Shape(c, s) && Shape(c, s') && Closer(s, s', t)
    ensures Left(c, s') < Left(c, s)
  {
    assert t in Elements(c.inputs);
    var i :| 0 <= i < |c.inputs| && c.inputs[i] == t;
    var q, q' := Weights(c, s), Weights(c, s');
    forall j | 0 <= j < |q| ensures q'[j] <= q[j] { assert c.inputs[j] in Elements(c.inputs); }
    assert q'[i] < q[i];
    TotalSmaller(q, q');
  }

  lemma RegisterCloser(c: Config, s: Sys, t: Tid)
    requires Inv(c, s) && Enabled(c, s, t, RegisterOp) && Safe(c, s, t, RegisterOp)
    ensures Closer(s, Apply(c, s, t, RegisterOp), t)
  {
    hide Inv, Slotted, Owned;
    NextAt(c, s);
  }

  lemma NextAt(c: Config, s: Sys)
    requires Inv(c, s) && s.pos < |c.inputs|
    ensures c.inputs[s.pos] in s.input
    ensures var p := s.input[c.inputs[s.pos]].at; p == Waiting || p == RegCas
  {
    hide Life, Slots, Words, Judged, PromiseOk, Shape, ConfigOk;
    assert InputOk(c, s.destroyed, s.input[c.inputs[s.pos]], s.pos < s.pos);
  }

  lemma {:induction false} ReleasedWeights(input: map<Tid, Input>, cores: seq<Option<Tid>>, u: Tid)
    requires forall i :: 0 <= i < |cores| ==> cores[i].Some? && cores[i].value in input
    requires u in input
    ensures Weight(ReleaseSlots(input, cores)[u]) == Weight(input[u])
  {
    if cores != [] { ReleasedWeights(input, cores[..|cores| - 1], u); }
  }

  lemma DestroyCloser(c: Config, s: Sys, t: Tid)
    requires Enabled(c, s, t, DestroyOp) && Safe(c, s, t, DestroyOp)
    ensures Closer(s, Apply(c, s, t, DestroyOp), t)
  {
    var s1 := Go(s.(destroyed := true), t, Out);
    if Owned(c.strategy) {
      assert forall i :: 0 <= i < |s.cores| ==> SlotReady(c, s, s.cores[i]);
      forall u | u in s.input ensures Weight(ReleaseSlots(s1.input, s.cores)[u]) == Weight(s1.input[u]) {
        ReleasedWeights(s1.input, s.cores, u);
      }
    }
    hide SlotsReady, SlotsOk, SlotOutput;
  }

  lemma DecideCloser(c: Config, s: Sys, t: Tid)
    requires Enabled(c, s, t, DecideOp) && Safe(c, s, t, DecideOp)
    ensures Closer(s, Apply(c, s, t, DecideOp), t)
  {
  }

  lemma OtherCloser(c: Config, s: Sys, t: Tid, a: Action)
    requires Enabled(c, s, t, a) && Safe(c, s, t, a) && !a.RegisterOp? && !a.DestroyOp? && !a.DecideOp?
    ensures Closer(s, Apply(c, s, t, a), t)
  {
  }

  lemma InvShape(c: Config, s: Sys)
    requires Inv(c, s)
    ensures Shape(c, s)
  {
  }

  lemma StepLeft(c: Config, s: Sys, t: Tid, a: Action)
    requires Inv(c, s) && Enabled(c, s, t, a) && Safe(c, s, t, a) && Inv(c, Apply(c, s, t, a))
    ensures Shape(c, s) && Shape(c, Apply(c, s, t, a)) && Left(c, Apply(c, s, t, a)) < Left(c, s)
  {
    hide Inv, Left, Enabled, Safe, Apply, Closer, Shape;
    InvShape(c, s);
    InvShape(c, Apply(c, s, t, a));
    match a {
      case RegisterOp => RegisterCloser(c, s, t);
      case DestroyOp => DestroyCloser(c, s, t);
      case DecideOp => DecideCloser(c, s, t);
      case _ => OtherCloser(c, s, t, a);
    }
    CloserLeft(c, s, Apply(c, s, t, a), t);
  }

  lemma StartLeft(c: Config, s: Sys)
    requires Shape(c, s)
    ensures Left(c, s) <= 9 * |c.inputs|
  {
    TotalBound(Weights(c, s), 9);
  }

  /** No run of a combinator of `n` inputs has more than 9 n steps. */
  lemma {:induction false} RunsEnd(c: Config, states: seq<Sys>, events: seq<Event>, n: nat)
    requires Run(c, states, events) && n <= |events|
    ensures Shape(c, states[n]) && n + Left(c, states[n]) <= 9 * |c.inputs|
  {
    hide Inv, Safe, Enabled, Apply, Left, Init;
    RunsAreSafe(c, states, events, n);
    InvShape(c, states[n]);
    if n == 0 {
      StartLeft(c, states[0]);
    } else {
      RunsEnd(c, states, events, n - 1);
      RunsAreSafe(c, states, events, n - 1);
      var e := events[n - 1];
      assert Step(c, states[n - 1], states[n - 1 + 1], e.t, e.a);
      StepLeft(c, states[n - 1], e.t, e.a);
    }
  }

  /** Where a run ends that nobody can go on with, every input has its result, the combinator was destroyed and its
      promise set to the answer. */
  lemma EndsAnswered(c: Config, s: Sys, t: Tid)
    requires Reachable(c, s) && t in s.input && forall u, a :: !Enabled(c, s, u, a)
    ensures s.destroyed && s.input[t].ready && s.input[t].at == Out && s.input[t].released == 1
    ensures s.promise == Some(Final(c, s.m.line))
  {
    hide Inv, Reachable;
    if !s.destroyed { var u, a := NobodyForgotten(c, s); }
    Finished(c, s, t);
    ReachableInv(c, s);
    InvShape(c, s);
    assert !Enabled(c, s, t, PublishOp);
  }
}
