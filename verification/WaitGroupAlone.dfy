/** What a thread does to WaitGroup and OneShotEvent when nobody disturbs it: steps of WaitGroupRuns that do what the
    methods of WaitGroupCode do. */
module WaitGroupAlone {
  import opened Common
  import opened Census
  import opened WaitGroupRuns
  import opened WaitGroupProofs

  /** `t` takes step `a` from `s`, safely, to `s'`. */
  ghost predicate Goes(s: Sys, t: Tid, a: Action, s': Sys) {
    Enabled(s, t, a) && Safe(s, t, a) && s' == Apply(s, t, a)
  }

  /** A stretch of a run from `s` to `s'` in which only `t` takes steps. */
  ghost predicate Undisturbed(t: Tid, s: Sys, states: seq<Sys>, ops: seq<Action>, s': Sys) {
    && |states| == |ops| + 1 && states[0] == s && states[|ops|] == s'
    && forall i :: 0 <= i < |ops| ==> Goes(states[i], t, ops[i], states[i + 1])
  }

  lemma Starts(t: Tid, s: Sys)
    ensures Undisturbed(t, s, [s], [], s)
  {
  }

  lemma OneMore(t: Tid, s: Sys, states: seq<Sys>, ops: seq<Action>, s1: Sys, a: Action, q: seq<Tid>)
    returns (states': seq<Sys>, ops': seq<Action>, s': Sys, q': seq<Tid>)
    requires Inv(s1, q) && Enabled(s1, t, a) && Undisturbed(t, s, states, ops, s1)
    ensures Goes(s1, t, a, s') && Inv(s', q') && Undisturbed(t, s, states', ops', s')
  {
    hide Inv, Safe, Apply, Enabled;
    q' := StepKeeps(s1, q, t, a);
    s' := Apply(s1, t, a);
    states', ops' := states + [s'], ops + [a];
    hide Goes;
    assert forall i :: 0 <= i < |ops| ==> Goes(states[i], t, ops[i], states[i + 1]);
  }

  // ---------- TryAdd ----------

  /** The waiter `t` tried to be added; the operations do not notice. */
  ghost predicate Tried(s: Sys, t: Tid, s': Sys) {
    && s'.count == s.count && s'.done == s.done && s'.ops == s.ops && s'.called == s.called
    && t in s.waiters && s'.waiters.Keys == s.waiters.Keys && (forall w :: w in s.waiters && w != t ==> s'.waiters[w] == s.waiters[w])
    && if s.done then s'.waiters[t].at == Refused && s'.stack == s.stack && s'.added == s.added
       else s'.waiters[t].at == Added && s'.stack == s.stack + [t] && s'.added == s.added + [t]
  }

  /** A waiter that nobody disturbs is added behind the others, unless the event is set, when it is refused. */
  lemma TryAddIsSteps(s: Sys, t: Tid) returns (states: seq<Sys>, ops: seq<Action>, s': Sys)
    requires Reachable(s) && t in s.waiters && s.waiters[t].at == Idle
    ensures Undisturbed(t, s, states, ops, s') && Tried(s, t, s')
  {
    hide Inv, Reachable, Undisturbed;
    var q := ReachableInv(s);
    Starts(t, s);
    states, ops, s', q := OneMore(t, s, [s], [], s, TryOp, q);
    if !s.done {
      states, ops, s', q := OneMore(t, s, states, ops, s', AddJobOp(false), q);
    }
  }

  // ---------- Set ----------

  lemma ExchangeFx(s: Sys, t: Tid, s': Sys)
    requires Goes(s, t, ExchangeOp, s')
    ensures s'.done && s'.count == 0 && s'.called == s.called && s'.added == s.added && t in s'.ops
    ensures s'.ops[t] == Op(if s.stack == [] then Over else Calls, Reversed(s.stack))
  {
  }

  lemma CallFx(s: Sys, t: Tid, s': Sys)
    requires Goes(s, t, CallOp, s')
    ensures t in s.ops && t in s'.ops && s.ops[t].todo != [] && s'.done == s.done && s'.count == s.count
    ensures s'.called == s.called + [s.ops[t].todo[0]] && s'.added == s.added
    ensures var rest := s.ops[t].todo[1..]; s'.ops[t] == Op(if rest == [] then Over else Calls, rest)
  {
  }

  lemma CanCall(s: Sys, t: Tid)
    requires t in s.ops && s.ops[t].at == Calls
    ensures Enabled(s, t, CallOp)
  {
  }

  lemma {:induction false} CallsAll(t: Tid, s: Sys, states: seq<Sys>, ops: seq<Action>, s1: Sys, q: seq<Tid>, todo: seq<Tid>)
    returns (states': seq<Sys>, ops': seq<Action>, s': Sys, q': seq<Tid>)
    requires Inv(s1, q) && Undisturbed(t, s, states, ops, s1) && t in s1.ops
    requires s1.ops[t] == Op(if todo == [] then Over else Calls, todo)
    ensures Undisturbed(t, s, states', ops', s') && Inv(s', q') && t in s'.ops && s'.ops[t] == Op(Over, [])
    ensures s'.called == s1.called + todo && s'.added == s1.added && s'.done == s1.done && s'.count == s1.count
    decreases |todo|
  {
    hide Inv, Undisturbed, Goes, Enabled;
    states', ops', s', q' := states, ops, s1, q;
    if todo != [] {
      CanCall(s1, t);
      states', ops', s', q' := OneMore(t, s, states, ops, s1, CallOp, q);
      CallFx(s1, t, s');
      states', ops', s', q' := CallsAll(t, s, states', ops', s', q', todo[1..]);
      assert s1.called + [todo[0]] + todo[1..] == s1.called + todo;
    }
  }

  lemma DoneFx(s: Sys, t: Tid, s': Sys)
    requires Goes(s, t, DoneOp, s')
    ensures s'.count == s.count - 1 && s'.done == s.done && s'.stack == s.stack && s'.added == s.added && s'.called == s.called
    ensures t in s'.ops && s'.ops[t] == Op(if s.count == 1 then Sets else Over, [])
  {
  }

  lemma NothingCalled(s: Sys, q: seq<Tid>)
    requires Inv(s, q) && !s.done
    ensures s.called == [] && s.added == s.stack
  {
  }

  /** An operation that finishes undisturbed takes one from the count; the last one sets the event and calls everybody
      who was ever added, the last one first. */
  lemma DoneIsSteps(s: Sys, t: Tid) returns (states: seq<Sys>, ops: seq<Action>, s': Sys)
    requires Reachable(s) && t in s.ops && s.ops[t].at == Working
    ensures Undisturbed(t, s, states, ops, s') && t in s'.ops && s'.ops[t] == Op(Over, [])
    ensures s'.count == s.count - 1 && s'.added == s.added && (s'.done <==> s.count == 1)
    ensures s'.called == if s.count == 1 then Reversed(s.added) else []
  {
    hide Inv, Reachable, Undisturbed, Goes;
    var q := ReachableInv(s);
    Starts(t, s);
    assert !s.done by { DoneKeeps(s, q, t); }
    NothingCalled(s, q);
    states, ops, s', q := OneMore(t, s, [s], [], s, DoneOp, q);
    DoneFx(s, t, s');
    if s.count == 1 {
      var s1 := s';
      states, ops, s', q := OneMore(t, s, states, ops, s1, ExchangeOp, q);
      ExchangeFx(s1, t, s');
      states, ops, s', q := CallsAll(t, s, states, ops, s', q, Reversed(s.added));
    }
  }
}
