/** What a waiter does when no producer takes a step meanwhile: WaitRange with a timeout, and co_await of several
    futures, as steps of WaitRuns. */
module WaitAlone {
  import opened Common
  import opened Census
  import opened WaitRuns
  import opened WaitProofs

  ghost predicate Goes(c: Config, s: Sys, a: Action, s': Sys) {
    Enabled(c, s, a) && Safe(c, s, a) && s' == Apply(c, s, a)
  }

  predicate OfWaiter(a: Action) { !a.PublishOp? && !a.SubOp? && !a.SetOp? }

  /** A stretch of a run from `s` to `s'` in which only the waiter takes steps. */
  ghost predicate Undisturbed(c: Config, s: Sys, states: seq<Sys>, ops: seq<Action>, s': Sys) {
    && |states| == |ops| + 1 && states[0] == s && states[|ops|] == s'
    && forall i :: 0 <= i < |ops| ==> OfWaiter(ops[i]) && Goes(c, states[i], ops[i], states[i + 1])
  }

  lemma Starts(c: Config, s: Sys)
    ensures Undisturbed(c, s, [s], [], s)
  {
  }

  lemma OneMore(c: Config, s: Sys, states: seq<Sys>, ops: seq<Action>, s1: Sys, a: Action)
    returns (states': seq<Sys>, ops': seq<Action>, s': Sys)
    requires Inv(c, s1) && Enabled(c, s1, a) && OfWaiter(a) && Undisturbed(c, s, states, ops, s1)
    ensures s' == Apply(c, s1, a) && Inv(c, s') && Undisturbed(c, s, states', ops', s')
  {
    hide Inv, Safe, Apply, Enabled;
    StepKeeps(c, s1, a);
    s' := Apply(c, s1, a);
    states', ops' := states + [s'], ops + [a];
    assert Goes(c, s1, a, s');
    hide Goes, OfWaiter;
    assert forall i :: 0 <= i < |ops| ==> OfWaiter(ops[i]) && Goes(c, states[i], ops[i], states[i + 1]);
  }

  // ---------- what the loops do to the cores ----------

  /** Among the first `n` cores of `c`, those without a result. */
  function Open(c: Config, pc: map<Tid, Phase>, n: nat): nat
    requires n <= |c.cores|
  {
    if n == 0 then 0
    else Open(c, pc, n - 1) + if c.cores[n - 1] in pc && pc[c.cores[n - 1]] == Bare then 1 else 0
  }

  /** The first `n` cores without a result are at `p`, all others are as in `pc`. */
  function Upto(c: Config, pc: map<Tid, Phase>, n: nat, p: Phase, q: Phase): map<Tid, Phase>
    requires n <= |c.cores|
  {
    map t | t in pc :: if pc[t] != Bare then pc[t] else if t in c.cores[..n] then p else q
  }

  lemma UptoNext(c: Config, pc: map<Tid, Phase>, n: nat, p: Phase, q: Phase)
    requires n < |c.cores| && Distinct(c.cores) && c.cores[n] in pc
    ensures var t, m := c.cores[n], Upto(c, pc, n, p, q);
      && t in m && m[t] == (if pc[t] == Bare then q else pc[t])
      && Upto(c, pc, n + 1, p, q) == if pc[t] == Bare then m[t := p] else m
  {
    assert c.cores[..n + 1] == c.cores[..n] + [c.cores[n]];
    assert c.cores[n] !in c.cores[..n];
  }

  lemma UptoEnds(c: Config, pc: map<Tid, Phase>, p: Phase, q: Phase)
    requires pc.Keys == Elements(c.cores)
    ensures Upto(c, pc, 0, p, q) == Upto(c, pc, |c.cores|, q, p)
  {
    assert c.cores[..|c.cores|] == c.cores && c.cores[..0] == [];
  }

  lemma OpenNone(c: Config, pc: map<Tid, Phase>, n: nat)
    requires n <= |c.cores| && forall t :: t in c.cores ==> t in pc
    ensures Open(c, pc, n) <= n
    ensures Open(c, pc, n) == 0 <==> forall i :: 0 <= i < n ==> pc[c.cores[i]] != Bare
  {
  }

  /** The waiter is at core `i` of its first loop. */
  ghost predicate Registering(c: Config, s0: Sys, s: Sys, i: nat) {
    i < |c.cores| && s == s0.(pc := Upto(c, s0.pc, i, Armed, Bare), i := i, w := Open(c, s0.pc, i))
  }

  /** It has gone through all of them. */
  ghost predicate Registered(c: Config, s0: Sys, s: Sys) {
    var n, w := |c.cores|, Open(c, s0.pc, |c.cores|);
    s == s0.(pc := Upto(c, s0.pc, n, Armed, Bare), i := n, w := w,
             at := if w == 0 && c.mode != Coroutine then ReturnedTrue else Subtracts)
  }

  lemma Started(c: Config, s0: Sys)
    requires Init(c, s0)
    ensures Registering(c, s0, s0, 0) && Inv(c, s0)
  {
    InitInv(c, s0);
    hide Inv, Distinct;
    UptoStarts(c, s0.pc, Armed);
    hide Upto;
  }

  lemma UptoStarts(c: Config, pc: map<Tid, Phase>, p: Phase)
    ensures Upto(c, pc, 0, p, Bare) == pc
  {
  }

  lemma SetAtCore(c: Config, s0: Sys, s: Sys, i: nat)
    requires Init(c, s0) && Registering(c, s0, s, i) && Shape(c, s)
    ensures Enabled(c, s, SetCallbackOp)
    ensures var t, s1 := c.cores[i], Apply(c, s, SetCallbackOp);
      && t in s0.pc
      && if s0.pc[t] == Bare then s1 == s.(at := SetCas)
         else if i + 1 < |c.cores| then Registering(c, s0, s1, i + 1) else Registered(c, s0, s1)
  {
    UptoNext(c, s0.pc, i, Armed, Bare);
    hide Upto;
  }

  lemma SetAtCas(c: Config, s0: Sys, s: Sys, i: nat, s1: Sys)
    requires Init(c, s0) && Registering(c, s0, s, i) && Shape(c, s) && s1 == s.(at := SetCas) && s0.pc[c.cores[i]] == Bare
    ensures Enabled(c, s1, SetCallbackOp)
    ensures var s2 := Apply(c, s1, SetCallbackOp);
      if i + 1 < |c.cores| then Registering(c, s0, s2, i + 1) else Registered(c, s0, s2)
  {
    UptoNext(c, s0.pc, i, Armed, Bare);
    hide Upto;
    SetApply(c, s1);
    hide Apply, Enabled;
  }

  lemma SetApply(c: Config, s: Sys)
    requires Shape(c, s.(at := SetLoad)) && s.at == SetCas
    requires s.i < |c.cores| && c.cores[s.i] in s.pc && s.pc[c.cores[s.i]] == Bare
    ensures Enabled(c, s, SetCallbackOp)
    ensures Apply(c, s, SetCallbackOp) == NextSet(c, s.(pc := s.pc[c.cores[s.i] := Armed]), true)
  {
  }

  lemma InvShape(c: Config, s: Sys)
    requires Inv(c, s)
    ensures Shape(c, s)
  {
  }

  lemma {:induction false} RegistersAll(c: Config, s0: Sys, states: seq<Sys>, ops: seq<Action>, s: Sys, i: nat)
    returns (states': seq<Sys>, ops': seq<Action>, s': Sys)
    requires Init(c, s0) && Inv(c, s) && Registering(c, s0, s, i) && Undisturbed(c, s0, states, ops, s)
    ensures Undisturbed(c, s0, states', ops', s') && Inv(c, s') && Registered(c, s0, s')
    decreases |c.cores| - i
  {
    hide Inv, Init, Undisturbed, Enabled, Apply, Registered, Shape, Upto, Open;
    InvShape(c, s);
    SetAtCore(c, s0, s, i);
    states', ops', s' := OneMore(c, s0, states, ops, s, SetCallbackOp);
    if s0.pc[c.cores[i]] == Bare {
      var s1 := s';
      SetAtCas(c, s0, s, i, s1);
      states', ops', s' := OneMore(c, s0, states', ops', s1, SetCallbackOp);
    }
    if i + 1 < |c.cores| {
      states', ops', s' := RegistersAll(c, s0, states', ops', s', i + 1);
    }
  }

  // ---------- the timeout ----------

  /** From the state `s1` in which it times out: the waiter is at core `i` of its second loop. */
  ghost predicate Resetting(c: Config, s0: Sys, s1: Sys, s: Sys, i: nat) {
    i < |c.cores| && s == s1.(pc := Upto(c, s0.pc, i, Disarmed, Armed), i := i, r := Open(c, s0.pc, i), at := ResetLoad)
  }

  ghost predicate WasReset(c: Config, s0: Sys, s1: Sys, s: Sys) {
    var n := |c.cores|;
    s == s1.(pc := Upto(c, s0.pc, n, Disarmed, Armed), i := n, r := s1.w, at := ReturnedFalse)
  }

  /** Some future has no result, and the waiter knows how many. */
  ghost predicate Waiting(c: Config, s0: Sys, s1: Sys) {
    s1.w == Open(c, s0.pc, |c.cores|) > 0 && s1.r == 0 && !s1.flag && s1.at == TimedWait
    && s1.pc == Upto(c, s0.pc, |c.cores|, Armed, Bare)
  }

  lemma ResetAtCore(c: Config, s0: Sys, s1: Sys, s: Sys, i: nat)
    requires Init(c, s0) && Waiting(c, s0, s1) && Resetting(c, s0, s1, s, i) && Shape(c, s)
    ensures Enabled(c, s, ResetOp)
    ensures var t, s2 := c.cores[i], Apply(c, s, ResetOp);
      && t in s0.pc
      && if s0.pc[t] == Bare then s2 == s.(at := ResetCas)
         else if i + 1 < |c.cores| then Resetting(c, s0, s1, s2, i + 1) else WasReset(c, s0, s1, s2)
  {
    UptoNext(c, s0.pc, i, Disarmed, Armed);
    hide Upto;
  }

  lemma ResetAtCas(c: Config, s0: Sys, s1: Sys, s: Sys, i: nat, s2: Sys)
    requires Init(c, s0) && Waiting(c, s0, s1) && Resetting(c, s0, s1, s, i) && Shape(c, s)
    requires s2 == s.(at := ResetCas) && s0.pc[c.cores[i]] == Bare
    ensures Enabled(c, s2, ResetOp)
    ensures var s3 := Apply(c, s2, ResetOp);
      if i + 1 < |c.cores| then Resetting(c, s0, s1, s3, i + 1) else WasReset(c, s0, s1, s3)
  {
    UptoNext(c, s0.pc, i, Disarmed, Armed);
    hide Upto;
    ResetApply(c, s2);
    hide Apply, Enabled;
  }

  lemma ResetApply(c: Config, s: Sys)
    requires Shape(c, s.(at := ResetLoad)) && s.at == ResetCas
    requires s.i < |c.cores| && c.cores[s.i] in s.pc && s.pc[c.cores[s.i]] == Armed
    ensures Enabled(c, s, ResetOp)
    ensures Apply(c, s, ResetOp) == NextReset(c, s.(pc := s.pc[c.cores[s.i] := Disarmed]), true)
  {
  }

  lemma {:induction false} ResetsAll(c: Config, s0: Sys, s1: Sys, states: seq<Sys>, ops: seq<Action>, s: Sys, i: nat)
    returns (states': seq<Sys>, ops': seq<Action>, s': Sys)
    requires Init(c, s0) && Inv(c, s) && Waiting(c, s0, s1) && Resetting(c, s0, s1, s, i)
    requires Undisturbed(c, s0, states, ops, s)
    ensures Undisturbed(c, s0, states', ops', s') && Inv(c, s') && WasReset(c, s0, s1, s')
    decreases |c.cores| - i
  {
    hide Inv, Init, Undisturbed, Enabled, Apply, WasReset, Waiting, Shape, Upto, Open;
    InvShape(c, s);
    ResetAtCore(c, s0, s1, s, i);
    states', ops', s' := OneMore(c, s0, states, ops, s, ResetOp);
    if s0.pc[c.cores[i]] == Bare {
      var s2 := s';
      ResetAtCas(c, s0, s1, s, i, s2);
      states', ops', s' := OneMore(c, s0, states', ops', s2, ResetOp);
    }
    if i + 1 < |c.cores| {
      states', ops', s' := ResetsAll(c, s0, s1, states', ops', s', i + 1);
    }
  }

  lemma SubtractsOne(c: Config, s0: Sys, s: Sys)
    requires Init(c, s0) && Registered(c, s0, s) && s.at == Subtracts && Shape(c, s) && c.timed && c.mode != Coroutine
    ensures Enabled(c, s, SubtractOp) && Waiting(c, s0, Apply(c, s, SubtractOp))
    ensures Apply(c, s, SubtractOp).sets == s.sets
  {
    OpenNone(c, s0.pc, |c.cores|);
    hide Upto, Open;
  }

  lemma TimesOut(c: Config, s0: Sys, s1: Sys)
    requires Init(c, s0) && Waiting(c, s0, s1) && Shape(c, s1)
    ensures Enabled(c, s1, TimedWaitOp(true)) && Resetting(c, s0, s1, Apply(c, s1, TimedWaitOp(true)), 0)
  {
    UptoEnds(c, s0.pc, Disarmed, Armed);
    UptoSame(c, s0.pc);
    hide Upto;
  }

  lemma UptoSame(c: Config, pc: map<Tid, Phase>)
    requires pc.Keys == Elements(c.cores)
    ensures Upto(c, pc, |c.cores|, Armed, Disarmed) == Upto(c, pc, |c.cores|, Armed, Bare)
  {
    assert c.cores[..|c.cores|] == c.cores;
  }

  lemma ResetPhases(c: Config, s0: Sys)
    requires Init(c, s0)
    ensures var pc := Upto(c, s0.pc, |c.cores|, Disarmed, Armed);
      pc.Keys == s0.pc.Keys && forall t :: t in pc ==> pc[t] == if s0.pc[t] == Bare then Disarmed else Ready
    ensures var pc := Upto(c, s0.pc, |c.cores|, Armed, Bare);
      pc.Keys == s0.pc.Keys && forall t :: t in pc ==> pc[t] == if s0.pc[t] == Bare then Armed else Ready
  {
    assert c.cores[..|c.cores|] == c.cores;
    forall t ensures t in s0.pc <==> t in c.cores { assert t in Elements(c.cores) <==> t in c.cores; }
    hide Distinct;
  }

  predicate AllReady(s: Sys) { forall t :: t in s.pc ==> s.pc[t] == Ready }

  lemma OpenAll(c: Config, s0: Sys)
    requires Init(c, s0)
    ensures Open(c, s0.pc, |c.cores|) == 0 <==> AllReady(s0)
  {
    OpenNone(c, s0.pc, |c.cores|);
    hide Open, Distinct;
    if Open(c, s0.pc, |c.cores|) == 0 {
      forall t | t in s0.pc ensures s0.pc[t] == Ready { var i :| 0 <= i < |c.cores| && c.cores[i] == t; }
    }
  }

  /** A wait with a timeout, of any futures of which any have results, that nobody disturbs: it returns true at once if
      all of them have, and otherwise times out and returns false, with every callback taken back and no result
      missed. */
  lemma WaitIsSteps(c: Config, s: Sys) returns (states: seq<Sys>, ops: seq<Action>, s': Sys)
    requires Init(c, s) && c.timed && c.mode != Coroutine
    ensures Undisturbed(c, s, states, ops, s') && s'.pc.Keys == s.pc.Keys && s'.sets == 0
    ensures s'.at == if AllReady(s) then ReturnedTrue else ReturnedFalse
    ensures forall t :: t in s.pc ==> s'.pc[t] == if s.pc[t] == Bare then Disarmed else Ready
  {
    hide Inv, Undisturbed, Enabled, Apply, Upto, Open, Shape;
    Started(c, s);
    OpenAll(c, s);
    Starts(c, s);
    states, ops, s' := RegistersAll(c, s, [s], [], s, 0);
    if s'.at == Subtracts {
      InvShape(c, s');
      SubtractsOne(c, s, s');
      states, ops, s' := OneMore(c, s, states, ops, s', SubtractOp);
      var s1 := s';
      InvShape(c, s1);
      TimesOut(c, s, s1);
      states, ops, s' := OneMore(c, s, states, ops, s1, TimedWaitOp(true));
      states, ops, s' := ResetsAll(c, s, s1, states, ops, s', 0);
    }
    ResetPhases(c, s);
  }
}
