/** What WaitGroup and OneShotEvent promise, in every interleaving of WaitGroupRuns. */
module WaitGroupProofs {
  import opened Common
  import opened Census
  import opened WaitGroupRuns

  predicate IsSetting(x: Op) { x.at == Sets }
  predicate IsCalling(x: Op) { x.at == Calls }
  predicate IsBorn(x: Op) { x.at != Unborn }

  /** Exactly one operation takes the count to zero and sets the event. */
  ghost predicate Numbers(s: Sys) {
    && s.count == N(s.ops, IsWorking)
    && N(s.ops, IsSetting) == One(s.count == 0 && !s.done && N(s.ops, IsBorn) > 0)
    && (s.done ==> s.count == 0 && N(s.ops, IsBorn) > 0)
    && N(s.ops, IsCalling) <= One(s.done)
  }

  ghost predicate Stacked(waiters: map<Tid, Waiter>, q: seq<Tid>) {
    && Distinct(q)
    && (forall i :: 0 <= i < |q| ==> q[i] in waiters && waiters[q[i]].at == Added)
  }

  /** The jobs not called yet, the next one first. */
  ghost predicate Lists(s: Sys, q: seq<Tid>) {
    && (!s.done ==> q == s.stack && s.called == [] && s.added == s.stack)
    && (s.done ==> s.stack == [] && s.called + q == Reversed(s.added))
    && Stacked(s.waiters, q) && Distinct(s.added)
    && (forall w :: w in s.waiters && s.waiters[w].at == Added ==> w in q)
    && (forall t :: t in s.ops ==> s.ops[t].todo == if s.ops[t].at == Calls then q else [])
    && (forall t :: t in s.ops && s.ops[t].at == Calls ==> q != [])
    && (s.done && N(s.ops, IsCalling) == 0 ==> q == [])
  }

  ghost predicate WaitersOk(s: Sys) {
    forall w :: w in s.waiters ==>
      && (s.waiters[w].at == Refused ==> s.done)
      && (s.waiters[w].at == Woken ==> s.done && w in s.called)
      && (s.waiters[w].at == Tries ==> s.waiters[w].expected != AllDone)
      && (w in s.called ==> s.waiters[w].at == Woken)
  }

  ghost predicate Inv(s: Sys, q: seq<Tid>) { Numbers(s) && Lists(s, q) && WaitersOk(s) }

  lemma InitInv(s: Sys)
    requires Init(s)
    ensures Inv(s, [])
  {
    Nobody(s.ops, IsSetting);
    Nobody(s.ops, IsCalling);
    if N(s.ops, IsBorn) > 0 {
      var t := Witness(s.ops, IsBorn);
      Present(s.ops, IsWorking, t);
    }
  }

  lemma OpMoved(s: Sys, t: Tid, x: Op)
    requires t in s.ops
    ensures N(s.ops[t := x], IsWorking) == N(s.ops, IsWorking) - One(IsWorking(s.ops[t])) + One(IsWorking(x))
    ensures N(s.ops[t := x], IsSetting) == N(s.ops, IsSetting) - One(IsSetting(s.ops[t])) + One(IsSetting(x))
    ensures N(s.ops[t := x], IsCalling) == N(s.ops, IsCalling) - One(IsCalling(s.ops[t])) + One(IsCalling(x))
    ensures N(s.ops, IsWorking) >= One(IsWorking(s.ops[t])) && N(s.ops, IsSetting) >= One(IsSetting(s.ops[t]))
    ensures N(s.ops, IsCalling) >= One(IsCalling(s.ops[t]))
    ensures N(s.ops[t := x], IsBorn) == N(s.ops, IsBorn) - One(IsBorn(s.ops[t])) + One(IsBorn(x))
    ensures N(s.ops, IsBorn) >= One(IsBorn(s.ops[t]))
  {
    hide N, Of;
    Moved(s.ops, t, x, IsBorn);
    Moved(s.ops, t, x, IsWorking);
    Moved(s.ops, t, x, IsSetting);
    Moved(s.ops, t, x, IsCalling);
  }

  lemma AddKeeps(s: Sys, q: seq<Tid>, t: Tid, u: Tid)
    requires Inv(s, q) && Enabled(s, t, AddOp(u))
    ensures !s.done && Inv(Add(s, u), q)
  {
    hide N, Of, Stacked;
    if NothingAdded(s) { Nobody(s.ops, IsBorn); } else { OpMoved(s, t, s.ops[t]); }
    OpMoved(s, u, Op(Working, []));
  }

  lemma DoneKeeps(s: Sys, q: seq<Tid>, t: Tid)
    requires Inv(s, q) && Enabled(s, t, DoneOp)
    ensures s.count >= 1 && !s.done && Inv(Done(s, t), q)
  {
    hide N, Of, Stacked;
    OpMoved(s, t, Done(s, t).ops[t]);
  }

  lemma StackedReversed(waiters: map<Tid, Waiter>, q: seq<Tid>)
    requires Stacked(waiters, q)
    ensures Stacked(waiters, Reversed(q)) && forall w :: w in q ==> w in Reversed(q)
  {
    forall w | w in q ensures w in Reversed(q) {
      var i :| 0 <= i < |q| && q[i] == w;
      assert Reversed(q)[|q| - 1 - i] == w;
    }
  }

  lemma NoCaller(s: Sys, t: Tid)
    requires Numbers(s) && !s.done && t in s.ops
    ensures s.ops[t].at != Calls
  {
    if s.ops[t].at == Calls { Present(s.ops, IsCalling, t); }
  }

  lemma ExchangeKeeps(s: Sys, q: seq<Tid>, t: Tid)
    requires Inv(s, q) && Enabled(s, t, ExchangeOp)
    ensures !s.done && s.count == 0 && Inv(Exchange(s, t), Reversed(q))
  {
    hide N, Of, Stacked;
    OpMoved(s, t, Exchange(s, t).ops[t]);
    StackedReversed(s.waiters, q);
    assert [] + Reversed(q) == Reversed(q);
    forall u | u in s.ops ensures s.ops[u].at != Calls { NoCaller(s, u); }
  }

  lemma OneCaller(s: Sys, t: Tid, u: Tid)
    requires Numbers(s) && t in s.ops && u in s.ops && s.ops[t].at == Calls && s.ops[u].at == Calls
    ensures t == u
  {
    if t != u { TwoPresent(s.ops, IsCalling, t, u); }
  }

  lemma StackedPop(waiters: map<Tid, Waiter>, q: seq<Tid>, x: Waiter)
    requires Stacked(waiters, q) && q != []
    ensures Stacked(waiters[q[0] := x], q[1..])
    ensures forall w :: w in q && w != q[0] ==> w in q[1..]
  {
    forall w | w in q && w != q[0] ensures w in q[1..] {
      var i :| 0 <= i < |q| && q[i] == w;
      assert q[1..][i - 1] == w;
    }
  }

  lemma CallLists(s: Sys, q: seq<Tid>, t: Tid)
    requires Inv(s, q) && Enabled(s, t, CallOp) && q != [] && s.ops[t].todo == q && s.done
    requires forall u :: u in s.ops && s.ops[u].at == Calls ==> u == t
    requires Stacked(s.waiters[q[0] := Waiter(Woken, Empty)], q[1..])
    requires forall w :: w in q && w != q[0] ==> w in q[1..]
    requires q[1..] == [] || N(CallOne(s, t).ops, IsCalling) != 0
    ensures Lists(CallOne(s, t), q[1..])
  {
    hide N, Of, Distinct, Numbers, Stacked;
    assert s.called + q == (s.called + [q[0]]) + q[1..];
  }

  lemma CallWaiters(s: Sys, q: seq<Tid>, t: Tid)
    requires Inv(s, q) && Enabled(s, t, CallOp) && q != [] && s.ops[t].todo == q && s.done
    ensures WaitersOk(CallOne(s, t))
  {
    hide N, Of, Distinct, Numbers, Lists;
    assert (s.called + [q[0]])[|s.called|] == q[0];
  }

  lemma CallKeeps(s: Sys, q: seq<Tid>, t: Tid)
    requires Inv(s, q) && Enabled(s, t, CallOp)
    ensures Safe(s, t, CallOp) && q != [] && Inv(CallOne(s, t), q[1..])
  {
    hide N, Of, Distinct, WaitersOk;
    OpMoved(s, t, CallOne(s, t).ops[t]);
    StackedPop(s.waiters, q, Waiter(Woken, Empty));
    forall u | u in s.ops && s.ops[u].at == Calls ensures u == t { OneCaller(s, t, u); }
    CallLists(s, q, t);
    CallWaiters(s, q, t);
    hide Stacked, Lists;
  }

  lemma StackedOther(waiters: map<Tid, Waiter>, q: seq<Tid>, w: Tid, x: Waiter)
    requires Stacked(waiters, q) && w in waiters && waiters[w].at != Added
    ensures Stacked(waiters[w := x], q)
  {
  }

  lemma LoadedKeeps(s: Sys, q: seq<Tid>, w: Tid)
    requires Inv(s, q) && w in s.waiters && (s.waiters[w].at == Idle || s.waiters[w].at == Tries)
    ensures Inv(Loaded(s, w), q)
  {
    hide N, Of, Distinct, Stacked;
    StackedOther(s.waiters, q, w, Loaded(s, w).waiters[w]);
  }

  lemma StackedPush(waiters: map<Tid, Waiter>, q: seq<Tid>, w: Tid)
    requires Stacked(waiters, q) && w in waiters && waiters[w].at != Added
    ensures Stacked(waiters[w := Waiter(Added, Empty)], q + [w]) && w in q + [w] && Distinct(q + [w])
    ensures forall u :: u in q ==> u in q + [w]
  {
    assert (q + [w])[|q|] == w;
  }

  lemma AddJobKeeps(s: Sys, q: seq<Tid>, w: Tid, spurious: bool) returns (q': seq<Tid>)
    requires Inv(s, q) && w in s.waiters && s.waiters[w].at == Tries
    ensures Inv(AddJob(s, w, spurious), q')
  {
    q' := q;
    if Head(s) == s.waiters[w].expected && !spurious {
      q' := q + [w];
      StackedPush(s.waiters, q, w);
      forall u | u in s.ops ensures s.ops[u].at != Calls { NoCaller(s, u); }
      hide N, Of, Stacked;
    } else {
      LoadedKeeps(s, q, w);
    }
  }

  lemma StepKeeps(s: Sys, q: seq<Tid>, t: Tid, a: Action) returns (q': seq<Tid>)
    requires Inv(s, q) && Enabled(s, t, a)
    ensures Safe(s, t, a) && Inv(Apply(s, t, a), q')
  {
    hide Inv;
    q' := q;
    match a
    case AddOp(u) => AddKeeps(s, q, t, u);
    case DoneOp => DoneKeeps(s, q, t);
    case ExchangeOp => ExchangeKeeps(s, q, t); q' := Reversed(q);
    case CallOp => CallKeeps(s, q, t); q' := q[1..];
    case TryOp => LoadedKeeps(s, q, t);
    case AddJobOp(spurious) => q' := AddJobKeeps(s, q, t, spurious);
  }

  // ---------- runs ----------

  /** A step that breaks an assumption of the code may do anything at all. */
  ghost predicate Step(s: Sys, s': Sys, t: Tid, a: Action) {
    Enabled(s, t, a) && (Safe(s, t, a) ==> s' == Apply(s, t, a))
  }

  datatype Event = Event(t: Tid, a: Action)

  ghost predicate Run(states: seq<Sys>, events: seq<Event>) {
    && |states| == |events| + 1
    && Init(states[0])
    && forall i :: 0 <= i < |events| ==> Step(states[i], states[i + 1], events[i].t, events[i].a)
  }

  /** In every run the counter does not wrap around, the event is set once, and a job is called only while
      its waiter waits for it. */
  lemma {:induction false} RunsAreSafe(states: seq<Sys>, events: seq<Event>, n: nat) returns (q: seq<Tid>)
    requires Run(states, events) && n <= |events|
    ensures Inv(states[n], q)
    ensures forall i :: 0 <= i < n ==> Enabled(states[i], events[i].t, events[i].a) && Safe(states[i], events[i].t, events[i].a)
  {
    hide Inv, Safe, Enabled, Apply;
    if n == 0 {
      InitInv(states[0]);
      q := [];
    } else {
      q := RunsAreSafe(states, events, n - 1);
      assert Step(states[n - 1], states[n - 1 + 1], events[n - 1].t, events[n - 1].a);
      q := StepKeeps(states[n - 1], q, events[n - 1].t, events[n - 1].a);
    }
  }

  ghost predicate Reachable(s: Sys) {
    exists states, events :: Run(states, events) && states[|states| - 1] == s
  }

  lemma ReachableInv(s: Sys) returns (q: seq<Tid>)
    requires Reachable(s)
    ensures Inv(s, q)
  {
    hide Inv, Safe;
    var states, events :| Run(states, events) && states[|states| - 1] == s;
    q := RunsAreSafe(states, events, |events|);
  }

  // ---------- what a wait group promises ----------

  /** Nobody who waits goes on, and nobody is told not to wait, before every operation is done. */
  lemma WaitMeansDone(s: Sys, w: Tid, t: Tid)
    requires Reachable(s) && w in s.waiters && (s.waiters[w].at == Woken || s.waiters[w].at == Refused)
    ensures s.done && s.count == 0
    ensures t in s.ops ==> s.ops[t].at != Working && s.ops[t].at != Sets
  {
    hide N, Of;
    var q := ReachableInv(s);
    if t in s.ops { OpMoved(s, t, s.ops[t]); }
  }

  /** The jobs are called once each, the last added first; all of them when the caller is through. */
  lemma CalledOnce(s: Sys)
    requires Reachable(s)
    ensures Distinct(s.called)
    ensures s.called <= Reversed(s.added)
    ensures s.done && (forall t :: t in s.ops ==> s.ops[t].at != Calls) ==> s.called == Reversed(s.added)
  {
    var q := ReachableInv(s);
    CalledPrefix(s, q);
  }

  lemma CalledPrefix(s: Sys, q: seq<Tid>)
    requires Inv(s, q)
    ensures Distinct(s.called)
    ensures s.called <= Reversed(s.added)
    ensures s.done && (forall t :: t in s.ops ==> s.ops[t].at != Calls) ==> s.called == Reversed(s.added)
  {
    hide N, Of, Stacked, WaitersOk;
    if forall t :: t in s.ops ==> s.ops[t].at != Calls { Nobody(s.ops, IsCalling); }
    if s.done { assert s.called == Reversed(s.added)[..|s.called|]; }
  }

  ghost predicate LeadsToCall(a: Action) { a == DoneOp || a == ExchangeOp || a == CallOp }

  /** A waiter whose job was added has an operation left that will lead to its call, and that can step, exactly if
      anything was ever added to the group: a group of nothing keeps its waiters. */
  lemma NobodyForgotten(s: Sys, w: Tid) returns (t: Tid, a: Action)
    requires Reachable(s) && w in s.waiters && s.waiters[w].at == Added
    ensures !NothingAdded(s) ==> Enabled(s, t, a) && LeadsToCall(a)
    ensures NothingAdded(s) ==> forall t', a' :: Enabled(s, t', a') ==> !LeadsToCall(a')
  {
    var q := ReachableInv(s);
    assert w in q;
    t, a := w, DoneOp;
    if !NothingAdded(s) {
      var o :| o in s.ops && s.ops[o].at != Unborn;
      Present(s.ops, IsBorn, o);
      if N(s.ops, IsWorking) >= 1 {
        t := Witness(s.ops, IsWorking);
        a := DoneOp;
      } else if N(s.ops, IsSetting) >= 1 {
        t := Witness(s.ops, IsSetting);
        a := ExchangeOp;
      } else {
        t := Witness(s.ops, IsCalling);
        a := CallOp;
      }
    }
  }
}
