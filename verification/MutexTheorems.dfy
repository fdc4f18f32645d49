/** What Mutex and StickyGuard promise, in every run. */
module MutexTheorems {
  import opened Common
  import opened Census
  import opened MutexRuns
  import opened MutexProofs

  // ---------- runs ----------

  /** A step that breaks an assumption of the code may do anything at all. */
  ghost predicate Step(c: Config, s: Sys, s': Sys, t: Tid, a: Action) {
    Enabled(s, t, a) && (Safe(s, t, a) ==> s' == Apply(c, s, t, a))
  }

  datatype Event = Event(t: Tid, a: Action)

  ghost predicate Run(c: Config, states: seq<Sys>, events: seq<Event>) {
    && |states| == |events| + 1
    && Init(states[0])
    && forall i :: 0 <= i < |events| ==> Step(c, states[i], states[i + 1], events[i].t, events[i].a)
  }

  /** In every run a list that is popped has a suspended coroutine at its head, and nobody unlocks an
      unlocked mutex. */
  lemma {:induction false} RunsAreSafe(c: Config, states: seq<Sys>, events: seq<Event>, n: nat)
    requires Run(c, states, events) && n <= |events|
    ensures Inv(c, states[n])
    ensures forall i :: 0 <= i < n ==> Enabled(states[i], events[i].t, events[i].a) && Safe(states[i], events[i].t, events[i].a)
  {
    hide Inv, Safe, Enabled, Apply;
    if n == 0 {
      InitInv(c, states[0]);
    } else {
      RunsAreSafe(c, states, events, n - 1);
      assert Step(c, states[n - 1], states[n - 1 + 1], events[n - 1].t, events[n - 1].a);
      StepKeeps(c, states[n - 1], events[n - 1].t, events[n - 1].a);
    }
  }

  ghost predicate Reachable(c: Config, s: Sys) {
    exists states, events :: Run(c, states, events) && states[|states| - 1] == s
  }

  lemma ReachableInv(c: Config, s: Sys)
    requires Reachable(c, s)
    ensures Inv(c, s)
  {
    hide Inv, Safe;
    var states, events :| Run(c, states, events) && states[|states| - 1] == s;
    RunsAreSafe(c, states, events, |events|);
  }

  // ---------- exclusion ----------

  /** At most one coroutine owns the mutex, and none while a thread that already left its coroutine still
      has to hand it over. */
  lemma Exclusion(c: Config, s: Sys, t: Tid, u: Tid)
    requires Reachable(c, s) && t in s.co && u in s.co && IsOwner(s.co[t])
    ensures s.locked && s.pass == NoPass
    ensures IsOwner(s.co[u]) ==> t == u
  {
    ReachableInv(c, s);
    OwnersUnique(s, t, u);
  }

  /** An unlocked mutex has no waiters, so nobody can overtake one. */
  lemma NoBarging(c: Config, s: Sys, t: Tid)
    requires Reachable(c, s) && !s.locked && t in s.co
    ensures s.arrivals == [] && s.receiver == [] && s.pass == NoPass
    ensures s.co[t].at != Queued && !IsOwner(s.co[t])
  {
    ReachableInv(c, s);
    NoOwner(s, t);
    assert t !in s.receiver + s.arrivals;
  }

  // ---------- an abstract lock ----------

  /** A lock with a queue: who owns it, a batch that is being served, and whoever came later.  While it is
      locked but nobody owns it, it is being handed over. */
  datatype Lock = Lock(locked: bool, owners: set<Tid>, batch: seq<Tid>, later: seq<Tid>)

  ghost function Abstract(s: Sys): Lock { Lock(s.locked, Of(s.co, IsOwner), s.receiver, s.arrivals) }

  predicate Awaited(l: Lock) { l.batch != [] || l.later != [] }

  /** The head of the batch becomes the owner; an empty batch is refilled with everybody. */
  function Granted(c: Config, l: Lock): Lock
    requires Awaited(l)
  {
    var q := if l.batch != [] then l.batch else Order(c, l.later);
    Lock(true, {q[0]}, q[1..], if l.batch != [] then l.later else [])
  }

  /** `t` does nothing, or takes a lock nobody owns or waits for, or queues up behind somebody else, or leaves
      the lock to be handed over, or it is granted to the next one, or it is freed because nobody waits; only
      the owner, or a thread that hands the lock over, can do the last three. */
  ghost predicate LockStep(c: Config, l: Lock, l': Lock, t: Tid) {
    || l' == l
    || (!l.locked && !Awaited(l) && l.owners == {} && l' == Lock(true, {t}, [], []))
    || (l.locked && t !in l.owners && l' == l.(later := l.later + [t]))
    || (l.locked && l.owners == {t} && l' == l.(owners := {}))
    || (l.locked && l.owners <= {t} && Awaited(l) && l' == Granted(c, l))
    || (l.locked && l.owners <= {t} && !Awaited(l) && l' == Lock(false, {}, [], []))
  }

  lemma OwnersMoved(co: map<Tid, Coroutine>, t: Tid, x: Coroutine)
    requires t in co
    ensures Of(co[t := x], IsOwner) == Of(co, IsOwner) - {t} + if IsOwner(x) then {t} else {}
    ensures t in Of(co, IsOwner) <==> IsOwner(co[t])
  {
  }

  lemma OwnerSet(c: Config, s: Sys, t: Tid)
    requires Inv(c, s) && t in s.co
    ensures IsOwner(s.co[t]) ==> Of(s.co, IsOwner) == {t} && s.locked && s.pass == NoPass
    ensures !s.locked || s.pass != NoPass ==> Of(s.co, IsOwner) == {}
  {
    forall u | u in Of(s.co, IsOwner)
      ensures IsOwner(s.co[t]) ==> u == t
      ensures s.locked && s.pass == NoPass
    {
      OwnersUnique(s, u, t);
    }
    if IsOwner(s.co[t]) { assert t in Of(s.co, IsOwner); }
  }

  /** Every step of the mutex is a step of the abstract lock, taken by the same coroutine. */
  lemma Refines(c: Config, s: Sys, t: Tid, a: Action)
    requires Inv(c, s) && Enabled(s, t, a)
    ensures Safe(s, t, a) && LockStep(c, Abstract(s), Abstract(Apply(c, s, t, a)), t)
  {
    StepKeeps(c, s, t, a);
    hide Waiters, History, N, Of, BatchWaits, LockStep, Order, Unlock, ExchangeStep, PassStart, PassExchange, PassCas,
      AwaitCas, TryCasStep, UnlockCasStep, Coroutines, Token;
    NobodyWaits(c, s);
    OwnerSet(c, s, t);
    Knows(c, s, t);
    match a
    case UnlockOp(way) => RefinesUnlock(c, s, t, way);
    case UnlockCasOp => RefinesUnlockCas(c, s, t);
    case ExchangeOp => RefinesExchange(c, s, t);
    case PassStartOp => RefinesPassStart(c, s, t);
    case PassCasOp => RefinesPassCas(c, s, t);
    case PassExchangeOp => RefinesPassExchange(c, s, t);
    case AwaitCasOp(spurious) => RefinesAwaitCas(c, s, t, spurious);
    case TryCasOp => RefinesTryCas(c, s, t);
    case TryLoadOp => RefinesLoad(c, s, t, a);
    case LockLoadOp(_) => RefinesLoad(c, s, t, a);
    case AwaitLoadOp => RefinesLoad(c, s, t, a);
    case SwitchOp(_) => RefinesLoad(c, s, t, a);
  }

  /** The steps at which the abstract lock moves: a compare_exchange or exchange that succeeds, a pop of `_receiver`,
      and the submission of an owner that leaves the mutex to its thread. */
  ghost predicate Moves(s: Sys, t: Tid, a: Action)
    requires Enabled(s, t, a)
  {
    match a
    case TryCasOp => !s.locked
    case AwaitCasOp(spurious) => !spurious && Sender(s) == s.co[t].saved
    case UnlockOp(way) => s.receiver != [] || Leaves(s.co[t], way)
    case UnlockCasOp => s.arrivals == []
    case ExchangeOp => true
    case PassStartOp => s.receiver != []
    case PassCasOp => s.arrivals == []
    case PassExchangeOp => true
    case _ => false
  }

  /** The abstract lock moves at these steps and at no other. */
  lemma MovesExactly(c: Config, s: Sys, t: Tid, a: Action)
    requires Reachable(c, s) && Enabled(s, t, a)
    ensures Safe(s, t, a) && LockStep(c, Abstract(s), Abstract(Apply(c, s, t, a)), t)
    ensures Abstract(Apply(c, s, t, a)) != Abstract(s) <==> Moves(s, t, a)
  {
    hide Reachable, Inv, Enabled, Safe, Apply, LockStep;
    ReachableInv(c, s);
    Refines(c, s, t, a);
    if Moves(s, t, a) { MovesThen(c, s, t, a); } else { StaysThen(c, s, t, a); }
  }

  lemma StaysThen(c: Config, s: Sys, t: Tid, a: Action)
    requires Inv(c, s) && Enabled(s, t, a) && !Moves(s, t, a) && Safe(s, t, a)
    ensures Abstract(Apply(c, s, t, a)) == Abstract(s)
  {
    hide Waiters, History, N, Of, BatchWaits, Order, ExchangeStep, PassExchange;
    var s' := Apply(c, s, t, a);
    if s'.co != s.co {
      assert s'.co == s.co[t := s'.co[t]];
      OwnersMoved(s.co, t, s'.co[t]);
    }
    Knows(c, s, t);
    NobodyWaits(c, s);
    OwnerSet(c, s, t);
  }

  lemma MovesThen(c: Config, s: Sys, t: Tid, a: Action)
    requires Inv(c, s) && Enabled(s, t, a) && Moves(s, t, a) && Safe(s, t, a)
    ensures Abstract(Apply(c, s, t, a)) != Abstract(s)
  {
    hide Waiters, History, N, Of, Order, Coroutines;
    Knows(c, s, t);
    NobodyWaits(c, s);
    OwnerSet(c, s, t);
    match a
    case UnlockOp(way) =>
      if Leaves(s.co[t], way) { LeavesOwner(c, s, t, way); } else { ServesOne(c, s, t, way); }
    case ExchangeOp => assert |Apply(c, s, t, a).arrivals| == 0;
    case PassExchangeOp => assert |Apply(c, s, t, a).arrivals| == 0;
    case PassStartOp => assert |Apply(c, s, t, a).receiver| < |s.receiver|;
    case AwaitCasOp(_) => assert s.locked ==> |Apply(c, s, t, a).arrivals| > |s.arrivals|;
    case _ =>
  }

  /** AwaitUnlockOn. */
  predicate Leaves(x: Coroutine, way: Way) { way.On? || (way == Sticky && x.guard.Some?) }

  lemma LeavesOwner(c: Config, s: Sys, t: Tid, way: Way)
    requires t in s.co && IsOwner(s.co[t]) && Leaves(s.co[t], way) && (s.receiver != [] ==> s.receiver[0] in s.co)
    ensures Abstract(Unlock(c, s, t, way)) != Abstract(s)
  {
    var s' := Unlock(c, s, t, way);
    assert t in Of(s.co, IsOwner) && t !in Of(s'.co, IsOwner);
  }

  lemma ServesOne(c: Config, s: Sys, t: Tid, way: Way)
    requires t in s.co && !Leaves(s.co[t], way) && s.receiver != [] && s.receiver[0] in s.co
    ensures Abstract(Unlock(c, s, t, way)) != Abstract(s)
  {
    assert |Unlock(c, s, t, way).receiver| < |s.receiver|;
  }

  lemma RefinesLoad(c: Config, s: Sys, t: Tid, a: Action)
    requires Enabled(s, t, a) && (a.TryLoadOp? || a.LockLoadOp? || a.AwaitLoadOp? || a.SwitchOp?)
    ensures Abstract(Apply(c, s, t, a)) == Abstract(s)
    ensures LockStep(c, Abstract(s), Abstract(Apply(c, s, t, a)), t)
  {
    hide Of, Order;
    var s' := Apply(c, s, t, a);
    if s' != s {
      OwnersMoved(s.co, t, s'.co[t]);
      assert s'.co == s.co[t := s'.co[t]];
    }
  }

  lemma RefinesTryCas(c: Config, s: Sys, t: Tid)
    requires t in s.co && (s.co[t].at == TryCas || s.co[t].at == TryCasAwait)
    requires !s.locked ==> s.arrivals == [] && s.receiver == [] && Of(s.co, IsOwner) == {}
    ensures LockStep(c, Abstract(s), Abstract(TryCasStep(s, t)), t)
  {
    hide Of, Order;
    OwnersMoved(s.co, t, TryCasStep(s, t).co[t]);
  }

  lemma RefinesAwaitCas(c: Config, s: Sys, t: Tid, spurious: bool)
    requires t in s.co && s.co[t].at == Locks
    requires !s.locked ==> s.arrivals == [] && s.receiver == [] && Of(s.co, IsOwner) == {}
    ensures LockStep(c, Abstract(s), Abstract(AwaitCas(s, t, spurious)), t)
  {
    hide Of, Order;
    OwnersMoved(s.co, t, AwaitCas(s, t, spurious).co[t]);
  }

  /** The next owner is served, by the owner `t` or by a passing thread. */
  lemma RefinesGrant(c: Config, s: Sys, s1: Sys, t: Tid, e: Exec, on: Exec)
    requires s.receiver != [] && s.locked && s1.locked && s1.receiver == s.receiver && s1.arrivals == s.arrivals
    requires s.receiver[0] in s1.co && Of(s.co, IsOwner) <= {t} && Of(s1.co, IsOwner) == {}
    ensures LockStep(c, Abstract(s), Abstract(Transfer(s1, e, on)), t)
  {
    hide Of, Order;
    OwnersMoved(s1.co, s1.receiver[0], Transfer(s1, e, on).co[s1.receiver[0]]);
    assert Abstract(Transfer(s1, e, on)) == Granted(c, Abstract(s));
  }

  /** The batch is refilled and its first is served. */
  lemma RefinesRefill(c: Config, s: Sys, s1: Sys, t: Tid)
    requires s.receiver == [] && s.arrivals != [] && s.locked && s1.locked
    requires s1.receiver == s.receiver && s1.arrivals == s.arrivals
    requires s1.co.Keys == s.co.Keys && (forall u :: u in s.arrivals ==> u in s.co)
    requires Of(s.co, IsOwner) <= {t} && Of(s1.co, IsOwner) == {}
    ensures Grab(c, s1).receiver != [] && Grab(c, s1).receiver[0] in Grab(c, s1).co
    ensures LockStep(c, Abstract(s), Abstract(Serve(Grab(c, s1))), t)
  {
    hide Of, Order;
    var s2 := Grab(c, s1);
    assert s2.receiver[0] in s.arrivals;
    OwnersMoved(s2.co, s2.receiver[0], Serve(s2).co[s2.receiver[0]]);
    assert Abstract(Serve(s2)) == Granted(c, Abstract(s));
  }

  lemma RefinesUnlockHere(c: Config, s: Sys, s1: Sys, t: Tid)
    requires t in s.co && (s1 == s || s1 == Disclaim(s, t))
    requires s.co[t].at == Holds && s.locked && Of(s.co, IsOwner) == {t}
    requires s.receiver != [] ==> s.receiver[0] in s.co
    ensures LockStep(c, Abstract(s), Abstract(UnlockHere(s1, t)), t)
  {
    hide Of, Order;
    OwnersMoved(s.co, t, s1.co[t].(at := Idle));
    OwnersMoved(s.co, t, TryUnlock(s1, t).co[t]);
    if s.receiver != [] {
      var s2 := GoOn(s1, t);
      assert s2.co == s.co[t := s1.co[t].(at := Idle)];
      RefinesGrant(c, s, s2, t, s2.co[s.receiver[0]].exec, s2.co[s.receiver[0]].exec);
    } else {
      assert TryUnlock(s1, t).co == s.co[t := TryUnlock(s1, t).co[t]];
    }
  }

  lemma RefinesLeaveTo(c: Config, s: Sys, s1: Sys, t: Tid, e: Exec)
    requires t in s.co && (s1 == s || s1 == Disclaim(s, t))
    requires s.locked && Of(s.co, IsOwner) == {t}
    ensures LockStep(c, Abstract(s), Abstract(LeaveTo(s1, t, e)), t)
  {
    hide Of, Order;
    var s' := LeaveTo(s1, t, e);
    assert s'.co == s.co[t := s'.co[t]];
    OwnersMoved(s.co, t, s'.co[t]);
  }

  lemma RefinesSwap(c: Config, s: Sys, t: Tid)
    requires t in s.co && s.locked && Of(s.co, IsOwner) == {t} && s.receiver != [] && s.receiver[0] in s.co
    ensures LockStep(c, Abstract(s), Abstract(Swap(Disclaim(s, t), t)), t)
  {
    hide Of, Order;
    var s1 := Disclaim(s, t);
    var s2 := Submit(s1, t, s1.co[s.receiver[0]].exec);
    assert s2.co == s.co[t := s2.co[t]];
    OwnersMoved(s.co, t, s2.co[t]);
    RefinesGrant(c, s, s2, t, s1.co[t].exec, s1.co[t].runsOn);
  }

  lemma RefinesUnlock(c: Config, s: Sys, t: Tid, way: Way)
    requires t in s.co && s.co[t].at == Holds && s.locked && Of(s.co, IsOwner) == {t}
    requires s.receiver != [] ==> s.receiver[0] in s.co
    ensures LockStep(c, Abstract(s), Abstract(Unlock(c, s, t, way)), t)
  {
    hide Of, Order, LockStep, UnlockHere, LeaveTo, Swap;
    match way
    case On(e) => RefinesLeaveTo(c, s, Disclaim(s, t), t, e);
    case Here => RefinesUnlockHere(c, s, Disclaim(s, t), t);
    case Sticky =>
      if s.co[t].guard.Some? { RefinesLeaveTo(c, s, s, t, s.co[t].guard.value); } else { RefinesUnlockHere(c, s, s, t); }
    case Awaiting =>
      if s.receiver != [] && c.batching { RefinesSwap(c, s, t); } else { RefinesUnlockHere(c, s, Disclaim(s, t), t); }
  }

  lemma RefinesUnlockCas(c: Config, s: Sys, t: Tid)
    requires t in s.co && s.co[t].at == UnlockCas && s.locked && Of(s.co, IsOwner) == {t} && s.receiver == []
    ensures LockStep(c, Abstract(s), Abstract(UnlockCasStep(s, t)), t)
  {
    hide Of, Order;
    OwnersMoved(s.co, t, UnlockCasStep(s, t).co[t]);
  }

  lemma RefinesExchange(c: Config, s: Sys, t: Tid)
    requires t in s.co && BatchWaits(s) && s.locked && Of(s.co, IsOwner) == {t}
    ensures LockStep(c, Abstract(s), Abstract(ExchangeStep(c, s, t)), t)
  {
    hide Of, Order, LockStep;
    OwnersMoved(s.co, t, GoOn(s, t).co[t]);
    RefinesRefill(c, s, GoOn(s, t), t);
  }

  lemma RefinesPassStart(c: Config, s: Sys, t: Tid)
    requires s.locked && s.pass.Starts? && Of(s.co, IsOwner) == {}
    requires s.receiver != [] ==> s.receiver[0] in s.co
    ensures LockStep(c, Abstract(s), Abstract(PassStart(c, s)), t)
  {
    hide Of, Order;
    if s.receiver != [] {
      var s1 := s.(pass := NoPass);
      var e := s.co[s.receiver[0]].exec;
      RefinesGrant(c, s, s1, t, e, e);
      RefinesGrant(c, s, s1, t, s.pass.given, s.pass.on);
    }
  }

  lemma RefinesPassCas(c: Config, s: Sys, t: Tid)
    requires s.locked && s.pass.Cas? && Of(s.co, IsOwner) == {} && s.receiver == []
    ensures LockStep(c, Abstract(s), Abstract(PassCas(s)), t)
  {
    hide Of, Order;
  }

  lemma RefinesPassExchange(c: Config, s: Sys, t: Tid)
    requires s.locked && BatchWaits(s) && Of(s.co, IsOwner) == {}
    ensures LockStep(c, Abstract(s), Abstract(PassExchange(c, s)), t)
  {
    hide Of, Order, LockStep;
    RefinesRefill(c, s, s.(pass := NoPass), t);
  }

  // ---------- order of service ----------

  lemma OrderedFifo(c: Config, b: seq<seq<Tid>>)
    requires c.fifo
    ensures Ordered(c, b) == b
  {
  }

  /** FIFO: the coroutines that had to suspend get the mutex in the order of their successful
      compare_exchange. */
  lemma FirstComeFirstServed(c: Config, s: Sys)
    requires Reachable(c, s) && c.fifo
    ensures s.suspended == s.granted + s.receiver + s.arrivals
  {
    ReachableInv(c, s);
    OrderedFifo(c, s.batches);
  }

  lemma ReversedElements(q: seq<Tid>)
    ensures multiset(Reversed(q)) == multiset(q)
  {
    if q != [] {
      ReversedElements(q[1..]);
      assert q == [q[0]] + q[1..];
    }
  }

  lemma {:induction false} OrderedElements(c: Config, b: seq<seq<Tid>>)
    ensures multiset(Flat(Ordered(c, b))) == multiset(Flat(b))
  {
    if b != [] {
      var last := b[|b| - 1];
      OrderedElements(c, b[..|b| - 1]);
      assert Ordered(c, b)[..|b| - 1] == Ordered(c, b[..|b| - 1]);
      ReversedElements(last);
      assert multiset(Order(c, last)) == multiset(last);
    }
  }

  lemma {:induction false} FlatPrefix(b: seq<seq<Tid>>, k: nat)
    requires k <= |b|
    ensures Flat(b[..k]) <= Flat(b)
  {
    if k < |b| {
      FlatPrefix(b[..|b| - 1], k);
      assert b[..|b| - 1][..k] == b[..k];
    } else {
      assert b[..k] == b;
    }
  }

  /** Every batch taken from `_sender` is served completely before anybody of a later one, in either mode:
      once more coroutines were served than the first `k` batches have, these were all among them. */
  lemma BatchBeforeBatch(c: Config, s: Sys, k: nat)
    requires Reachable(c, s) && k <= |s.batches|
    ensures s.suspended == Flat(s.batches) + s.arrivals
    ensures multiset(s.granted + s.receiver) == multiset(Flat(s.batches))
    ensures var n := |Flat(s.batches[..k])|;
      n <= |s.granted| ==> multiset(s.granted[..n]) == multiset(Flat(s.batches[..k]))
  {
    ReachableInv(c, s);
    hide Inv, Reachable, Ordered, Order, Flat, Reversed;
    HistoryOf(c, s);
    BatchesServed(c, s.batches, s.granted, s.receiver, k);
  }

  lemma HistoryOf(c: Config, s: Sys)
    requires Inv(c, s)
    ensures s.suspended == Flat(s.batches) + s.arrivals && s.granted + s.receiver == Flat(Ordered(c, s.batches))
  {
    hide Token, Waiters, Coroutines, Flat, Ordered;
  }

  lemma BatchesServed(c: Config, batches: seq<seq<Tid>>, granted: seq<Tid>, receiver: seq<Tid>, k: nat)
    requires k <= |batches| && granted + receiver == Flat(Ordered(c, batches))
    ensures multiset(granted + receiver) == multiset(Flat(batches))
    ensures var n := |Flat(batches[..k])|;
      n <= |granted| ==> multiset(granted[..n]) == multiset(Flat(batches[..k]))
  {
    hide Order, Reversed;
    var b := batches[..k];
    var all := Ordered(c, batches);
    OrderedElements(c, batches);
    OrderedElements(c, b);
    assert all[..k] == Ordered(c, b);
    FlatPrefix(all, k);
    hide Flat, Ordered;
    SameSize(Flat(all[..k]), Flat(b));
    if |Flat(b)| <= |granted| { PrefixOf(granted, receiver, Flat(all[..k])); }
  }

  lemma SameSize(p: seq<Tid>, q: seq<Tid>)
    requires multiset(p) == multiset(q)
    ensures |p| == |q|
  {
    assert |multiset(p)| == |multiset(q)|;
  }

  lemma PrefixOf(granted: seq<Tid>, receiver: seq<Tid>, q: seq<Tid>)
    requires q <= granted + receiver && |q| <= |granted|
    ensures granted[..|q|] == q
  {
    assert (granted + receiver)[..|q|] == q;
  }

  // ---------- nobody is forgotten ----------

  /** While a coroutine waits there is an owner, or a thread handing the mutex over, that can take a step. */
  lemma NobodyForgotten(c: Config, s: Sys, u: Tid) returns (t: Tid, a: Action)
    requires Reachable(c, s) && Is(s, u, Queued)
    ensures Enabled(s, t, a) && (IsOwner(s.co[t]) || s.pass != NoPass)
  {
    ReachableInv(c, s);
    assert u in s.receiver + s.arrivals;
    if s.pass != NoPass {
      t := u;
      a := match s.pass case Starts(_, _) => PassStartOp case Cas => PassCasOp case _ => PassExchangeOp;
    } else {
      t := Witness(s.co, IsOwner);
      a := match s.co[t].at case Holds => UnlockOp(Here) case UnlockCas => UnlockCasOp case _ => ExchangeOp;
    }
  }

  // ---------- executors ----------

  /** A coroutine that is not suspended runs on its own executor, whether it was submitted or another thread went
      on with it after the two executors were swapped or one was passed on. */
  lemma RunsOnItsExecutor(c: Config, s: Sys, t: Tid)
    requires Reachable(c, s) && t in s.co && s.co[t].at != Queued
    ensures s.co[t].runsOn == s.co[t].exec
  {
    ReachableInv(c, s);
    Knows(c, s, t);
  }

  /** A coroutine that locked with a StickyGuard, unlocked with it and did not leave its executor itself is
      back on the executor it had before, whatever the others did with it meanwhile. */
  lemma StickyReturnsHome(c: Config, s: Sys, t: Tid)
    requires Reachable(c, s) && Is(s, t, Idle) && s.co[t].sticky && !s.co[t].left
    ensures s.co[t].exec == s.co[t].home == s.co[t].runsOn
  {
    ReachableInv(c, s);
    Knows(c, s, t);
  }

  /** Only the coroutine's own switch, or an unlock that is not sticky, gives the promise up. */
  lemma LeftOnlyItself(c: Config, s: Sys, t: Tid, a: Action, u: Tid)
    requires Inv(c, s) && Enabled(s, t, a) && u in s.co && !s.co[u].left
    ensures Safe(s, t, a) && u in Apply(c, s, t, a).co
    ensures Apply(c, s, t, a).co[u].left ==> u == t && (a.SwitchOp? || (a.UnlockOp? && a.way != Sticky))
  {
    StepKeeps(c, s, t, a);
    hide Inv, NextWaits, BatchWaits, Unlock, ExchangeStep, PassExchange, PassStart, PassCas, UnlockCasStep,
      AwaitCas, TryCasStep, TryLoad, Order, Sender;
    match a
    case TryLoadOp => LockLeft(s, t, false, u);
    case TryCasOp => LockLeft(s, t, false, u);
    case AwaitCasOp(spurious) => LockLeft(s, t, spurious, u);
    case UnlockOp(way) => UnlockLeft(c, s, t, way, u);
    case UnlockCasOp => LockLeft(s, t, false, u);
    case ExchangeOp => ExchangeLeft(c, s, t, u);
    case PassStartOp => PassLeft(c, s, u);
    case PassCasOp => assert PassCas(s).co == s.co by { PassCasLeft(s); }
    case PassExchangeOp => PassExchangeLeft(c, s, u);
    case _ =>
  }

  lemma LockLeft(s: Sys, t: Tid, spurious: bool, u: Tid)
    requires t in s.co && u in s.co && !s.co[u].left
    ensures u in AwaitCas(s, t, spurious).co && !AwaitCas(s, t, spurious).co[u].left
    ensures u in TryCasStep(s, t).co && !TryCasStep(s, t).co[u].left
    ensures u in TryLoad(s, t).co && !TryLoad(s, t).co[u].left
    ensures u in UnlockCasStep(s, t).co && !UnlockCasStep(s, t).co[u].left
  {
  }

  lemma PassLeft(c: Config, s: Sys, u: Tid)
    requires s.pass.Starts? && (s.receiver != [] ==> s.receiver[0] in s.co) && u in s.co && !s.co[u].left
    ensures u in PassStart(c, s).co && !PassStart(c, s).co[u].left
  {
  }

  lemma PassCasLeft(s: Sys)
    requires s.pass.Cas?
    ensures PassCas(s).co == s.co
  {
  }

  lemma UnlockLeft(c: Config, s: Sys, t: Tid, way: Way, u: Tid)
    requires t in s.co && (s.receiver != [] ==> s.receiver[0] in s.co) && u in s.co && !s.co[u].left
    ensures u in Unlock(c, s, t, way).co
    ensures Unlock(c, s, t, way).co[u].left ==> u == t && way != Sticky
  {
  }

  lemma ExchangeLeft(c: Config, s: Sys, t: Tid, u: Tid)
    requires t in s.co && BatchWaits(s) && u in s.co && !s.co[u].left
    ensures u in ExchangeStep(c, s, t).co && !ExchangeStep(c, s, t).co[u].left
  {
  }

  lemma PassExchangeLeft(c: Config, s: Sys, u: Tid)
    requires BatchWaits(s) && u in s.co && !s.co[u].left
    ensures u in PassExchange(c, s).co && !PassExchange(c, s).co[u].left
  {
  }
}
