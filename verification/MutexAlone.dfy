/** What a coroutine does to Mutex when nobody disturbs it: in every reachable state it can take steps of MutexRuns
    that do to the lists, the owner and the executors what the methods of MutexCode ensure on the heap. */
module MutexAlone {
  import opened Common
  import opened Census
  import opened MutexRuns
  import opened MutexProofs
  import opened MutexTheorems

  /** `t` takes step `a` from `s`, safely, to `s'`. */
  ghost predicate Goes(c: Config, s: Sys, t: Tid, a: Action, s': Sys) {
    Enabled(s, t, a) && Safe(s, t, a) && s' == Apply(c, s, t, a)
  }

  /** A stretch of a run from `s` to `s'` in which only `t` takes steps, also on the thread that it left. */
  ghost predicate Undisturbed(c: Config, t: Tid, s: Sys, states: seq<Sys>, ops: seq<Action>, s': Sys) {
    && |states| == |ops| + 1 && states[0] == s && states[|ops|] == s'
    && forall i :: 0 <= i < |ops| ==> Goes(c, states[i], t, ops[i], states[i + 1])
  }

  lemma Starts(c: Config, t: Tid, s: Sys)
    ensures Undisturbed(c, t, s, [s], [], s)
  {
  }

  lemma OneMore(c: Config, t: Tid, s: Sys, states: seq<Sys>, ops: seq<Action>, s1: Sys, a: Action)
    returns (states': seq<Sys>, ops': seq<Action>, s': Sys)
    requires Inv(c, s1) && Enabled(s1, t, a) && Undisturbed(c, t, s, states, ops, s1)
    ensures Goes(c, s1, t, a, s') && Inv(c, s') && Undisturbed(c, t, s, states', ops', s')
  {
    hide Inv, Safe, Apply, Enabled;
    StepKeeps(c, s1, t, a);
    s' := Apply(c, s1, t, a);
    states', ops' := states + [s'], ops + [a];
    hide Goes;
    assert forall i :: 0 <= i < |ops| ==> Goes(c, states[i], t, ops[i], states[i + 1]);
  }

  /** Everybody but those of `q` is as before. */
  ghost predicate OthersSame(s: Sys, q: set<Tid>, s': Sys) {
    s'.co.Keys == s.co.Keys && forall u :: u in s.co && u !in q ==> s'.co[u] == s.co[u]
  }

  lemma NobodyChanges(s: Sys, q: set<Tid>)
    ensures OthersSame(s, q, s)
  {
  }

  // ---------- locking ----------

  lemma LoadFx(c: Config, s: Sys, t: Tid, sticky: bool, s': Sys)
    requires Goes(c, s, t, LockLoadOp(sticky), s')
    ensures s'.locked == s.locked && s'.arrivals == s.arrivals && s'.receiver == s.receiver
    ensures Is(s', t, if s.locked then Wants else TryCasAwait) && OthersSame(s, {t}, s')
    ensures t in s'.co && s'.co[t].exec == s.co[t].exec
  {
  }

  lemma TryLoadFx(c: Config, s: Sys, t: Tid, s': Sys)
    requires Goes(c, s, t, TryLoadOp, s')
    ensures s'.locked == s.locked && s'.arrivals == s.arrivals && s'.receiver == s.receiver
    ensures if s.locked then s' == s else Is(s', t, TryCas) && OthersSame(s, {t}, s')
    ensures t in s'.co && s'.co[t].exec == s.co[t].exec
  {
  }

  lemma TryCasFx(c: Config, s: Sys, t: Tid, s': Sys)
    requires Goes(c, s, t, TryCasOp, s') && !s.locked
    ensures s'.locked && s'.arrivals == s.arrivals && s'.receiver == s.receiver
    ensures Is(s', t, Holds) && OthersSame(s, {t}, s') && s'.co[t].exec == s.co[t].exec
  {
  }

  lemma AwaitLoadFx(c: Config, s: Sys, t: Tid, s': Sys)
    requires Goes(c, s, t, AwaitLoadOp, s')
    ensures s'.locked == s.locked && s'.arrivals == s.arrivals && s'.receiver == s.receiver
    ensures Is(s', t, Locks) && s'.co[t].saved == Sender(s') && OthersSame(s, {t}, s') && s'.co[t].exec == s.co[t].exec
  {
  }

  lemma AwaitCasFx(c: Config, s: Sys, t: Tid, s': Sys)
    requires Goes(c, s, t, AwaitCasOp(false), s') && s.co[t].saved == Sender(s) && s.locked
    ensures s'.locked && s'.arrivals == s.arrivals + [t] && s'.receiver == s.receiver
    ensures Is(s', t, Queued) && OthersSame(s, {t}, s') && s'.co[t].exec == s.co[t].exec
  {
  }

  /** Whoever owns an unlocked mutex, or one that a coroutine other than the waiting `t` owns. */
  lemma AbstractOwned(c: Config, s: Sys, t: Tid)
    requires Inv(c, s) && Is(s, t, Holds)
    ensures Abstract(s) == Lock(true, {t}, s.receiver, s.arrivals)
  {
    OwnerSet(c, s, t);
  }

  lemma AbstractFree(c: Config, s: Sys, t: Tid)
    requires Inv(c, s) && t in s.co && !s.locked
    ensures Abstract(s) == Lock(false, {}, [], [])
  {
    OwnerSet(c, s, t);
    NobodyWaits(c, s);
  }

  lemma OwnersStay(s: Sys, t: Tid, s': Sys)
    requires OthersSame(s, {t}, s') && t in s.co && !IsOwner(s.co[t]) && !IsOwner(s'.co[t])
    ensures Of(s'.co, IsOwner) == Of(s.co, IsOwner)
  {
  }

  lemma OthersTwice(s: Sys, q: set<Tid>, s1: Sys, r: set<Tid>, s': Sys)
    requires OthersSame(s, q, s1) && OthersSame(s1, r, s')
    ensures OthersSame(s, q + r, s')
  {
  }

  /** A coroutine that locks undisturbed has a free mutex for itself; a locked one it joins as the last of the
      queue, where it is suspended. */
  lemma LockIsSteps(c: Config, s: Sys, t: Tid, sticky: bool) returns (states: seq<Sys>, ops: seq<Action>, s': Sys)
    requires Reachable(c, s) && Is(s, t, Idle)
    ensures Undisturbed(c, t, s, states, ops, s')
    ensures !s.locked ==> Is(s', t, Holds) && Abstract(s') == Lock(true, {t}, [], [])
    ensures s.locked ==> Is(s', t, Queued) && Abstract(s') == Abstract(s).(later := s.arrivals + [t])
    ensures OthersSame(s, {t}, s') && s'.co[t].exec == s.co[t].exec
  {
    hide Inv, Reachable, Undisturbed, Goes, OthersSame;
    ReachableInv(c, s);
    NobodyWaits(c, s);
    Starts(c, t, s);
    states, ops, s' := OneMore(c, t, s, [s], [], s, LockLoadOp(sticky));
    var s1 := s';
    LoadFx(c, s, t, sticky, s1);
    if !s.locked {
      states, ops, s' := OneMore(c, t, s, states, ops, s1, TryCasOp);
      TryCasFx(c, s1, t, s');
      AbstractOwned(c, s', t);
      OthersTwice(s, {t}, s1, {t}, s');
      assert {t} + {t} == {t};
    } else {
      states, ops, s' := OneMore(c, t, s, states, ops, s1, AwaitLoadOp);
      var s2 := s';
      AwaitLoadFx(c, s1, t, s2);
      states, ops, s' := OneMore(c, t, s, states, ops, s2, AwaitCasOp(false));
      AwaitCasFx(c, s2, t, s');
      OthersTwice(s, {t}, s1, {t}, s2);
      OthersTwice(s, {t} + {t}, s2, {t}, s');
      assert {t} + {t} + {t} == {t};
      OwnersStay(s, t, s');
    }
  }

  /** TryLock of a coroutine that nobody disturbs takes a free mutex, and does nothing to a locked one. */
  lemma TryLockIsSteps(c: Config, s: Sys, t: Tid) returns (states: seq<Sys>, ops: seq<Action>, s': Sys)
    requires Reachable(c, s) && Is(s, t, Idle)
    ensures Undisturbed(c, t, s, states, ops, s')
    ensures if s.locked then s' == s else Is(s', t, Holds) && Abstract(s') == Lock(true, {t}, [], [])
    ensures OthersSame(s, {t}, s') && s'.co[t].exec == s.co[t].exec
  {
    hide Inv, Reachable, Undisturbed, Goes, OthersSame;
    ReachableInv(c, s);
    NobodyWaits(c, s);
    Starts(c, t, s);
    states, ops, s' := OneMore(c, t, s, [s], [], s, TryLoadOp);
    var s1 := s';
    TryLoadFx(c, s, t, s1);
    if s.locked {
      NobodyChanges(s, {t});
    } else {
      states, ops, s' := OneMore(c, t, s, states, ops, s1, TryCasOp);
      TryCasFx(c, s1, t, s');
      AbstractOwned(c, s', t);
      OthersTwice(s, {t}, s1, {t}, s');
      assert {t} + {t} == {t};
    }
  }

  // ---------- unlocking ----------

  /** The list whose head is the next owner: GetHead. */
  ghost function Batch(c: Config, s: Sys): seq<Tid> {
    if s.receiver != [] then s.receiver else Order(c, s.arrivals)
  }

  /** The executor on which the unlocking coroutine goes on. */
  ghost function OwnExec(c: Config, s: Sys, t: Tid, way: Way): Exec
    requires t in s.co && (s.receiver != [] ==> s.receiver[0] in s.co)
  {
    match way
    case Here => s.co[t].exec
    case Awaiting => if c.batching && s.receiver != [] then s.co[s.receiver[0]].exec else s.co[t].exec
    case On(e) => e
    case Sticky => if s.co[t].guard.Some? then s.co[t].guard.value else s.co[t].exec
  }

  /** Whether the next owner is given the executor of the unlocking coroutine, rather than submitted to its own. */
  ghost predicate HandsExec(c: Config, s: Sys, t: Tid, way: Way)
    requires t in s.co
  {
    c.batching && s.receiver != [] && (way == Awaiting || way.On? || (way == Sticky && s.co[t].guard.Some?))
  }

  /** `t` let go of the mutex and goes on with executor `e`; the head of the batch owns the mutex and goes on with
      executor `e'`. */
  ghost predicate Passed(c: Config, s: Sys, t: Tid, e: Exec, e': Exec, s': Sys) {
    var q := Batch(c, s);
    && q != [] && q[0] != t && s'.locked && s'.pass == NoPass
    && s'.receiver == q[1..] && s'.arrivals == (if s.receiver != [] then s.arrivals else [])
    && Is(s', t, Idle) && s'.co[t].exec == e
    && Is(s', q[0], Holds) && s'.co[q[0]].exec == e'
    && OthersSame(s, {t, q[0]}, s')
  }

  /** `t` let go of the mutex, which is free, and goes on with executor `e`. */
  ghost predicate Freed(s: Sys, t: Tid, e: Exec, s': Sys) {
    && !s'.locked && s'.pass == NoPass && s'.receiver == s'.arrivals == []
    && Is(s', t, Idle) && s'.co[t].exec == e && OthersSame(s, {t}, s')
  }

  /** The owner found nobody in `_receiver`, and its next access is to `_sender`. */
  ghost predicate Looks(s: Sys, t: Tid, s': Sys)
    requires t in s.co
  {
    && s'.locked && s'.pass == NoPass && s'.receiver == s.receiver == [] && s'.arrivals == s.arrivals
    && Is(s', t, if s.arrivals == [] then UnlockCas else Exchanges)
    && s'.co[t].exec == s.co[t].exec && OthersSame(s, {t}, s')
  }

  /** The owner was submitted to executor `e`, and its thread has the mutex to hand over. */
  ghost predicate Left(s: Sys, t: Tid, e: Exec, s': Sys)
    requires t in s.co
  {
    && s'.locked && s'.receiver == s.receiver && s'.arrivals == s.arrivals
    && s'.pass.Starts? && s'.pass.given == s.co[t].exec
    && Is(s', t, Idle) && s'.co[t].exec == e && OthersSame(s, {t}, s')
  }

  lemma LeftStarts(s: Sys, t: Tid, e: Exec, s': Sys)
    requires t in s.co && Left(s, t, e, s')
    ensures s'.pass.Starts? && t in s'.co
  {
  }

  lemma LooksWhere(s: Sys, t: Tid, s': Sys)
    requires t in s.co && Looks(s, t, s')
    ensures Is(s', t, if s.arrivals == [] then UnlockCas else Exchanges)
  {
  }

  /** What the owner knows. */
  lemma OwnerKnows(c: Config, s: Sys, t: Tid)
    requires Inv(c, s) && Is(s, t, Holds)
    ensures s.locked && s.pass == NoPass
    ensures s.receiver != [] ==> Is(s, s.receiver[0], Queued) && s.receiver[0] != t
    ensures forall u :: u in s.arrivals ==> Is(s, u, Queued) && u != t
  {
    hide History, Coroutines;
    OwnersUnique(s, t, t);
    var q := s.receiver + s.arrivals;
    if s.receiver != [] { assert q[0] == s.receiver[0]; }
    forall u | u in s.arrivals ensures Is(s, u, Queued) && u != t {
      var i :| 0 <= i < |s.arrivals| && s.arrivals[i] == u;
      assert q[|s.receiver| + i] == u;
    }
  }

  lemma UnlockLeaves(c: Config, s: Sys, t: Tid, way: Way, s': Sys)
    requires Goes(c, s, t, UnlockOp(way), s') && s.pass == NoPass && Leaves(s.co[t], way)
    requires s.receiver != [] ==> s.receiver[0] in s.co
    ensures Left(s, t, OwnExec(c, s, t, way), s')
  {
  }

  lemma UnlockServes(c: Config, s: Sys, t: Tid, way: Way, s': Sys)
    requires Goes(c, s, t, UnlockOp(way), s') && s.pass == NoPass && !Leaves(s.co[t], way)
    requires s.receiver != [] && s.receiver[0] in s.co && s.receiver[0] != t
    ensures Passed(c, s, t, OwnExec(c, s, t, way),
                   if HandsExec(c, s, t, way) then s.co[t].exec else s.co[s.receiver[0]].exec, s')
  {
  }

  lemma UnlockLooks(c: Config, s: Sys, t: Tid, way: Way, s': Sys)
    requires Goes(c, s, t, UnlockOp(way), s') && s.pass == NoPass && !Leaves(s.co[t], way) && s.receiver == []
    ensures Looks(s, t, s') && OwnExec(c, s, t, way) == s.co[t].exec && !HandsExec(c, s, t, way)
  {
  }

  lemma UnlockCasFx(c: Config, s: Sys, t: Tid, s1: Sys, s': Sys)
    requires t in s.co && Goes(c, s1, t, UnlockCasOp, s') && Looks(s, t, s1) && s.arrivals == []
    ensures Freed(s, t, s.co[t].exec, s')
  {
  }

  lemma ExchangeFx(c: Config, s: Sys, t: Tid, s1: Sys, s': Sys)
    requires t in s.co && Goes(c, s1, t, ExchangeOp, s') && Looks(s, t, s1) && s.arrivals != [] && t !in s.arrivals
    ensures Batch(c, s) != [] && Batch(c, s)[0] in s.co
    ensures Passed(c, s, t, s.co[t].exec, s.co[Batch(c, s)[0]].exec, s')
  {
    assert Batch(c, s)[0] in s.arrivals;
  }

  lemma PassStartServes(c: Config, s: Sys, t: Tid, e: Exec, s1: Sys, s': Sys)
    requires t in s.co && Goes(c, s1, t, PassStartOp, s') && Left(s, t, e, s1)
    requires s.receiver != [] && s.receiver[0] in s.co && s.receiver[0] != t
    ensures Passed(c, s, t, e, if c.batching then s.co[t].exec else s.co[s.receiver[0]].exec, s')
  {
  }

  lemma PassStartLooks(c: Config, s: Sys, t: Tid, e: Exec, s1: Sys, s': Sys)
    requires t in s.co && Goes(c, s1, t, PassStartOp, s') && Left(s, t, e, s1) && s.receiver == []
    ensures s' == s1.(pass := if s.arrivals == [] then Cas else Exchange)
  {
  }

  lemma PassCasFx(c: Config, s: Sys, t: Tid, e: Exec, s1: Sys, s2: Sys, s': Sys)
    requires t in s.co && Left(s, t, e, s1) && s2 == s1.(pass := Cas) && Goes(c, s2, t, PassCasOp, s')
    requires s.receiver == [] && s.arrivals == []
    ensures Freed(s, t, e, s')
  {
  }

  lemma PassExchangeFx(c: Config, s: Sys, t: Tid, e: Exec, s1: Sys, s2: Sys, s': Sys)
    requires t in s.co && Left(s, t, e, s1) && s2 == s1.(pass := Exchange) && Goes(c, s2, t, PassExchangeOp, s')
    requires s.receiver == [] && s.arrivals != [] && t !in s.arrivals
    ensures Batch(c, s) != [] && Batch(c, s)[0] in s.co
    ensures Passed(c, s, t, e, s.co[Batch(c, s)[0]].exec, s')
  {
    assert Batch(c, s)[0] in s.arrivals;
  }

  /** What an undisturbed unlock comes to. */
  ghost predicate Unlocked(c: Config, s: Sys, t: Tid, way: Way, s': Sys)
    requires t in s.co && (s.receiver != [] ==> s.receiver[0] in s.co)
  {
    if Batch(c, s) == [] then Freed(s, t, OwnExec(c, s, t, way), s')
    else
      && Batch(c, s)[0] in s.co
      && Passed(c, s, t, OwnExec(c, s, t, way),
                if HandsExec(c, s, t, way) then s.co[t].exec else s.co[Batch(c, s)[0]].exec, s')
  }

  /** AwaitUnlockOn, on the thread that the coroutine left. */
  lemma LeavingIsSteps(c: Config, s: Sys, t: Tid, way: Way, states: seq<Sys>, ops: seq<Action>, s1: Sys)
    returns (states': seq<Sys>, ops': seq<Action>, s': Sys)
    requires Inv(c, s1) && Undisturbed(c, t, s, states, ops, s1) && t in s.co && t !in s.arrivals && Leaves(s.co[t], way)
    requires s.receiver != [] ==> s.receiver[0] in s.co && s.receiver[0] != t
    requires Left(s, t, OwnExec(c, s, t, way), s1)
    ensures Undisturbed(c, t, s, states', ops', s') && Inv(c, s') && Unlocked(c, s, t, way, s')
  {
    hide Inv, Undisturbed, Goes, Left, Passed, Freed, Order;
    LeftStarts(s, t, OwnExec(c, s, t, way), s1);
    states', ops', s' := OneMore(c, t, s, states, ops, s1, PassStartOp);
    var e := OwnExec(c, s, t, way);
    if s.receiver != [] {
      PassStartServes(c, s, t, e, s1, s');
    } else {
      PassStartLooks(c, s, t, e, s1, s');
      var s2 := s';
      if s.arrivals == [] {
        states', ops', s' := OneMore(c, t, s, states', ops', s2, PassCasOp);
        PassCasFx(c, s, t, e, s1, s2, s');
      } else {
        states', ops', s' := OneMore(c, t, s, states', ops', s2, PassExchangeOp);
        PassExchangeFx(c, s, t, e, s1, s2, s');
      }
    }
  }

  /** TryUnlockAwait and UnlockHereAwait when `_receiver` is empty. */
  lemma LookingIsSteps(c: Config, s: Sys, t: Tid, way: Way, states: seq<Sys>, ops: seq<Action>, s1: Sys)
    returns (states': seq<Sys>, ops': seq<Action>, s': Sys)
    requires Inv(c, s1) && Undisturbed(c, t, s, states, ops, s1) && t in s.co && t !in s.arrivals && s.receiver == []
    requires Looks(s, t, s1) && OwnExec(c, s, t, way) == s.co[t].exec && !HandsExec(c, s, t, way)
    ensures Undisturbed(c, t, s, states', ops', s') && Inv(c, s') && Unlocked(c, s, t, way, s')
  {
    hide Inv, Undisturbed, Goes, Looks, Passed, Freed, Order;
    LooksWhere(s, t, s1);
    if s.arrivals == [] {
      states', ops', s' := OneMore(c, t, s, states, ops, s1, UnlockCasOp);
      UnlockCasFx(c, s, t, s1, s');
    } else {
      states', ops', s' := OneMore(c, t, s, states, ops, s1, ExchangeOp);
      ExchangeFx(c, s, t, s1, s');
    }
  }

  lemma UnlockedAbstract(c: Config, s: Sys, t: Tid, way: Way, s': Sys)
    requires Inv(c, s) && Is(s, t, Holds) && (s.receiver != [] ==> s.receiver[0] in s.co)
    requires Inv(c, s') && Unlocked(c, s, t, way, s')
    ensures Abstract(s')
         == if Awaited(Abstract(s)) then Granted(c, Abstract(s)) else Lock(false, {}, [], [])
  {
    hide Inv, Order, OthersSame, HandsExec, OwnExec;
    var q := Batch(c, s);
    if q == [] {
      AbstractFree(c, s', t);
    } else {
      AbstractOwned(c, s', q[0]);
    }
  }

  /** An owner that unlocks undisturbed, in any way, goes on and is off the mutex.  If nobody waits the mutex is free;
      otherwise it is granted to the first of the queue.  Each of the two goes on with the executor that MutexCode
      ensures, and nobody else notices. */
  lemma UnlockIsSteps(c: Config, s: Sys, t: Tid, way: Way) returns (states: seq<Sys>, ops: seq<Action>, s': Sys)
    requires Reachable(c, s) && Is(s, t, Holds) && (way == Sticky ==> s.co[t].sticky)
    ensures Undisturbed(c, t, s, states, ops, s') && Is(s', t, Idle)
    ensures s.receiver != [] ==> s.receiver[0] in s.co
    ensures Unlocked(c, s, t, way, s')
    ensures Abstract(s')
         == if Awaited(Abstract(s)) then Granted(c, Abstract(s)) else Lock(false, {}, [], [])
  {
    hide Inv, Reachable, Undisturbed, Goes, OthersSame, OwnExec, HandsExec, Order;
    ReachableInv(c, s);
    OwnerKnows(c, s, t);
    Starts(c, t, s);
    states, ops, s' := OneMore(c, t, s, [s], [], s, UnlockOp(way));
    var s1 := s';
    if Leaves(s.co[t], way) {
      UnlockLeaves(c, s, t, way, s1);
      states, ops, s' := LeavingIsSteps(c, s, t, way, states, ops, s1);
    } else if s.receiver != [] {
      UnlockServes(c, s, t, way, s1);
    } else {
      UnlockLooks(c, s, t, way, s1);
      states, ops, s' := LookingIsSteps(c, s, t, way, states, ops, s1);
    }
    UnlockedAbstract(c, s, t, way, s');
  }

  // ---------- a switch in between ----------

  lemma ReachableNext(c: Config, s: Sys, t: Tid, a: Action)
    requires Reachable(c, s) && Enabled(s, t, a)
    ensures Safe(s, t, a) && Reachable(c, Apply(c, s, t, a))
  {
    ReachableInv(c, s);
    StepKeeps(c, s, t, a);
    hide Inv, Safe, Enabled, Apply, Init;
    var states, events :| Run(c, states, events) && states[|states| - 1] == s;
    var s' := Apply(c, s, t, a);
    RunNext(c, states, events, s', t, a);
    assert (states + [s'])[|states + [s']| - 1] == s';
  }

  lemma RunNext(c: Config, states: seq<Sys>, events: seq<Event>, s': Sys, t: Tid, a: Action)
    requires Run(c, states, events) && Step(c, states[|events|], s', t, a)
    ensures Run(c, states + [s'], events + [Event(t, a)])
  {
    hide Step, Init;
    var states', events' := states + [s'], events + [Event(t, a)];
    forall i | 0 <= i < |events'| ensures Step(c, states'[i], states'[i + 1], events'[i].t, events'[i].a) {
      if i < |events| { assert Step(c, states[i], states[i + 1], events[i].t, events[i].a); }
    }
  }

  lemma SwitchFx(c: Config, s: Sys, t: Tid, e: Exec)
    requires Inv(c, s) && Is(s, t, Holds)
    ensures Enabled(s, t, SwitchOp(e)) && Safe(s, t, SwitchOp(e))
    ensures var s' := Apply(c, s, t, SwitchOp(e));
      && Is(s', t, Holds) && s'.co[t].exec == s'.co[t].runsOn == e && s'.co[t].sticky == s.co[t].sticky
      && s'.co[t].guard == s.co[t].guard && OthersSame(s, {t}, s')
    ensures s.co[t].sticky && !s.co[t].left ==> s.co[t].exec == s.co[t].home || s.co[t].guard == Some(s.co[t].home)
    ensures s.co[t].sticky && !s.co[t].left && s.co[t].guard.Some? ==> s.co[t].guard.value == s.co[t].home
  {
    Knows(c, s, t);
  }

  lemma UnlockedOwn(c: Config, s: Sys, t: Tid, s': Sys)
    requires t in s.co && (s.receiver != [] ==> s.receiver[0] in s.co) && Unlocked(c, s, t, Sticky, s')
    ensures t in s'.co && s'.co[t].exec == if s.co[t].guard.Some? then s.co[t].guard.value else s.co[t].exec
  {
  }

  /** An owner that switches to another executor while it holds a StickyGuard goes on there and keeps the mutex, which
      nobody notices.  The guard brings it home exactly when it had to await the lock; a guard that got the lock at
      once leaves it where it went. */
  lemma SwitchThenUnlock(c: Config, s: Sys, t: Tid, e: Exec)
    returns (s1: Sys, states: seq<Sys>, ops: seq<Action>, s': Sys)
    requires Reachable(c, s) && Is(s, t, Holds) && s.co[t].sticky && !s.co[t].left
    ensures Goes(c, s, t, SwitchOp(e), s1) && Is(s1, t, Holds) && s1.co[t].exec == s1.co[t].runsOn == e
    ensures Abstract(s1) == Abstract(s) && OthersSame(s, {t}, s1)
    ensures Undisturbed(c, t, s1, states, ops, s') && Is(s', t, Idle)
    ensures s'.co[t].exec == s'.co[t].runsOn == if s.co[t].guard.Some? then s.co[t].home else e
  {
    hide Inv, Reachable, Undisturbed, OthersSame, Unlocked, Enabled, Safe, Apply;
    ReachableInv(c, s);
    SwitchFx(c, s, t, e);
    MovesExactly(c, s, t, SwitchOp(e));
    ReachableNext(c, s, t, SwitchOp(e));
    s1 := Apply(c, s, t, SwitchOp(e));
    states, ops, s' := UnlockIsSteps(c, s1, t, Sticky);
    UnlockedOwn(c, s1, t, s');
    UndisturbedReaches(c, t, s1, states, ops, s');
    RunsOnItsExecutor(c, s', t);
  }

  lemma {:induction false} UndisturbedReaches(c: Config, t: Tid, s: Sys, states: seq<Sys>, ops: seq<Action>, s': Sys)
    requires Reachable(c, s) && Undisturbed(c, t, s, states, ops, s')
    ensures Reachable(c, s')
    decreases |ops|
  {
    hide Reachable, Enabled, Safe, Apply;
    if ops != [] {
      assert Goes(c, states[0], t, ops[0], states[1]);
      ReachableNext(c, s, t, ops[0]);
      UndisturbedReaches(c, t, states[1], states[1..], ops[1..], s');
    }
  }
}
