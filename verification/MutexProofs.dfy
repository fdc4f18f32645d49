/** What Mutex promises, in every interleaving of MutexRuns. */
module MutexProofs {
  import opened Common
  import opened Census
  import opened MutexRuns

  // ---------- the invariant ----------

  predicate IsOwner(x: Coroutine) { x.at == Holds || x.at == UnlockCas || x.at == Exchanges }

  /** The mutex is locked exactly when one coroutine, or one thread on its behalf, owns it; an unlocked
      mutex has no waiters.  A thread passes on the executor on which it runs. */
  ghost predicate Token(s: Sys) {
    && N(s.co, IsOwner) + One(s.pass != NoPass) == One(s.locked)
    && (!s.locked ==> s.arrivals == [] && s.receiver == [])
    && (s.pass.Cas? || s.pass.Exchange? ==> s.receiver == [])
    && (s.pass.Exchange? ==> s.arrivals != [])
    && (s.pass.Starts? ==> s.pass.given == s.pass.on)
  }

  ghost predicate Waiters(co: map<Tid, Coroutine>, q: seq<Tid>) {
    && Distinct(q)
    && (forall i :: 0 <= i < |q| ==> q[i] in co && co[q[i]].at == Queued)
    && (forall t :: t in co && co[t].at == Queued ==> t in q)
  }

  function Flat(b: seq<seq<Tid>>): seq<Tid> {
    if b == [] then [] else Flat(b[..|b| - 1]) + b[|b| - 1]
  }

  function Ordered(c: Config, b: seq<seq<Tid>>): seq<seq<Tid>> {
    seq(|b|, i requires 0 <= i < |b| => Order(c, b[i]))
  }

  /** Whoever suspended was grabbed in some batch or still waits behind `_sender`; whoever was grabbed was
      served or waits in `_receiver`, batch by batch. */
  ghost predicate History(c: Config, suspended: seq<Tid>, granted: seq<Tid>, batches: seq<seq<Tid>>,
                          receiver: seq<Tid>, arrivals: seq<Tid>) {
    suspended == Flat(batches) + arrivals && granted + receiver == Flat(Ordered(c, batches))
  }

  /** What a coroutine knows about the lists, and where it runs. */
  ghost predicate CoroutineOk(x: Coroutine, receiver: seq<Tid>, arrivals: seq<Tid>) {
    && (x.at == Exchanges ==> receiver == [] && arrivals != [])
    && (x.at == UnlockCas ==> receiver == [])
    && (x.at != Queued ==> x.runsOn == x.exec)
    && (x.sticky && !x.left ==> AtHome(x))
  }

  /** A coroutine that locked with a sticky guard and did not switch executors itself is on its old
      executor, or the guard knows it. */
  ghost predicate AtHome(x: Coroutine) {
    match x.at
    case TryCas => false
    case TryCasAwait => x.exec == x.home && x.guard == None
    case Wants => x.exec == x.home && x.guard == None
    case Locks => x.exec == x.home && x.guard == Some(x.home)
    case Queued => x.guard == Some(x.home)
    case Holds => (x.guard == None && x.exec == x.home) || x.guard == Some(x.home)
    case _ => x.exec == x.home
  }

  ghost predicate Coroutines(co: map<Tid, Coroutine>, receiver: seq<Tid>, arrivals: seq<Tid>) {
    forall t :: t in co ==> CoroutineOk(co[t], receiver, arrivals)
  }

  ghost predicate Inv(c: Config, s: Sys) {
    && Token(s)
    && Waiters(s.co, s.receiver + s.arrivals)
    && History(c, s.suspended, s.granted, s.batches, s.receiver, s.arrivals)
    && Coroutines(s.co, s.receiver, s.arrivals)
  }

  lemma InitInv(c: Config, s: Sys)
    requires Init(s)
    ensures Inv(c, s)
  {
    Nobody(s.co, IsOwner);
  }

  // ---------- the token ----------

  /** Two coroutines, or a coroutine and a passing thread, cannot both own the mutex. */
  lemma OwnersUnique(s: Sys, t: Tid, u: Tid)
    requires Token(s) && t in s.co && u in s.co && IsOwner(s.co[t])
    ensures s.locked && s.pass == NoPass
    ensures IsOwner(s.co[u]) ==> t == u
  {
    Present(s.co, IsOwner, t);
    if IsOwner(s.co[u]) && t != u { TwoPresent(s.co, IsOwner, t, u); }
  }

  lemma NoOwner(s: Sys, u: Tid)
    requires Token(s) && (s.pass != NoPass || !s.locked) && u in s.co
    ensures !IsOwner(s.co[u])
  {
    if IsOwner(s.co[u]) { Present(s.co, IsOwner, u); }
  }

  // ---------- the waiters ----------

  lemma WaitersOther(co: map<Tid, Coroutine>, q: seq<Tid>, t: Tid, x: Coroutine)
    requires Waiters(co, q) && t in co && co[t].at != Queued && x.at != Queued
    ensures Waiters(co[t := x], q)
  {
  }

  lemma WaitersArrive(co: map<Tid, Coroutine>, receiver: seq<Tid>, arrivals: seq<Tid>, t: Tid, x: Coroutine)
    requires Waiters(co, receiver + arrivals) && t in co && co[t].at != Queued && x.at == Queued
    ensures Waiters(co[t := x], receiver + (arrivals + [t]))
  {
    var q := receiver + arrivals;
    assert receiver + (arrivals + [t]) == q + [t];
    forall u | u in co && (co[u].at == Queued || u == t) ensures u in q + [t] {
      if u == t { assert (q + [t])[|q|] == t; } else { assert u in q; }
    }
  }

  lemma WaitersLeave(co: map<Tid, Coroutine>, q: seq<Tid>, x: Coroutine)
    requires Waiters(co, q) && q != [] && x.at != Queued
    ensures Waiters(co[q[0] := x], q[1..])
  {
    forall u | u in co && co[u].at == Queued && u != q[0] ensures u in q[1..] {
      assert u in q;
      var i :| 0 <= i < |q| && q[i] == u;
      assert q[1..][i - 1] == u;
    }
  }

  lemma WaitersOrder(c: Config, co: map<Tid, Coroutine>, q: seq<Tid>)
    requires Waiters(co, q)
    ensures Waiters(co, Order(c, q))
  {
    var r := Reversed(q);
    forall t | t in q ensures t in r {
      var i :| 0 <= i < |q| && q[i] == t;
      assert r[|q| - 1 - i] == t;
    }
  }

  // ---------- the history ----------

  lemma FlatSnoc(b: seq<seq<Tid>>, x: seq<Tid>)
    ensures Flat(b + [x]) == Flat(b) + x
  {
    assert (b + [x])[..|b|] == b;
  }

  lemma HistoryGrab(c: Config, s: Sys)
    requires History(c, s.suspended, s.granted, s.batches, [], s.arrivals)
    ensures History(c, s.suspended, s.granted, s.batches + [s.arrivals], Order(c, s.arrivals), [])
  {
    FlatSnoc(s.batches, s.arrivals);
    assert Ordered(c, s.batches + [s.arrivals]) == Ordered(c, s.batches) + [Order(c, s.arrivals)];
    FlatSnoc(Ordered(c, s.batches), Order(c, s.arrivals));
  }

  lemma HistoryArrive(c: Config, s: Sys, t: Tid)
    requires History(c, s.suspended, s.granted, s.batches, s.receiver, s.arrivals)
    ensures History(c, s.suspended + [t], s.granted, s.batches, s.receiver, s.arrivals + [t])
  {
    assert Flat(s.batches) + (s.arrivals + [t]) == (Flat(s.batches) + s.arrivals) + [t];
  }

  lemma HistoryServe(c: Config, s: Sys)
    requires History(c, s.suspended, s.granted, s.batches, s.receiver, s.arrivals) && s.receiver != []
    ensures History(c, s.suspended, s.granted + [s.receiver[0]], s.batches, s.receiver[1..], s.arrivals)
  {
    assert s.granted + s.receiver == (s.granted + [s.receiver[0]]) + s.receiver[1..];
  }

  // ---------- one coroutine changes ----------

  /** A step of `t` that touches no list. */
  lemma PutKeeps(c: Config, s: Sys, t: Tid, x: Coroutine, locked: bool)
    requires Inv(c, s) && t in s.co && s.co[t].at != Queued && x.at != Queued
    requires CoroutineOk(x, s.receiver, s.arrivals)
    requires One(locked) - One(IsOwner(x)) == One(s.locked) - One(IsOwner(s.co[t]))
    requires !locked ==> s.arrivals == [] && s.receiver == []
    ensures Inv(c, Put(s, t, x).(locked := locked))
  {
    hide N, Of, History, CoroutineOk, Waiters;
    Moved(s.co, t, x, IsOwner);
    WaitersOther(s.co, s.receiver + s.arrivals, t, x);
  }

  lemma Knows(c: Config, s: Sys, t: Tid)
    requires Inv(c, s) && t in s.co
    ensures CoroutineOk(s.co[t], s.receiver, s.arrivals)
  {
  }

  lemma TryLoadKeeps(c: Config, s: Sys, t: Tid)
    requires Inv(c, s) && Is(s, t, Idle)
    ensures Inv(c, TryLoad(s, t))
  {
    hide Inv;
    Knows(c, s, t);
    NobodyWaits(c, s);
    if !s.locked { PutKeeps(c, s, t, TryLoad(s, t).co[t], s.locked); }
  }

  lemma NobodyWaits(c: Config, s: Sys)
    requires Inv(c, s)
    ensures !s.locked ==> s.arrivals == [] && s.receiver == [] && s.pass == NoPass
    ensures s.pass.Exchange? ==> s.arrivals != []
    ensures s.pass != NoPass ==> s.locked
    ensures s.pass.Cas? || s.pass.Exchange? ==> s.receiver == []
    ensures s.pass.Starts? ==> s.pass.given == s.pass.on
  {
    hide N, Of;
  }

  lemma LockLoadKeeps(c: Config, s: Sys, t: Tid, sticky: bool)
    requires Inv(c, s) && Is(s, t, Idle)
    ensures Inv(c, LockLoad(s, t, sticky))
  {
    hide Inv;
    Knows(c, s, t);
    NobodyWaits(c, s);
    PutKeeps(c, s, t, LockLoad(s, t, sticky).co[t], s.locked);
  }

  lemma TryCasKeeps(c: Config, s: Sys, t: Tid)
    requires Inv(c, s) && (Is(s, t, TryCas) || Is(s, t, TryCasAwait))
    ensures Inv(c, TryCasStep(s, t))
  {
    hide Inv;
    Knows(c, s, t);
    NobodyWaits(c, s);
    PutKeeps(c, s, t, TryCasStep(s, t).co[t], true);
  }

  lemma AwaitLoadKeeps(c: Config, s: Sys, t: Tid)
    requires Inv(c, s) && Is(s, t, Wants)
    ensures Inv(c, AwaitLoad(s, t))
  {
    hide Inv;
    Knows(c, s, t);
    NobodyWaits(c, s);
    PutKeeps(c, s, t, AwaitLoad(s, t).co[t], s.locked);
  }

  lemma ArriveKeeps(c: Config, s: Sys, t: Tid)
    requires Inv(c, s) && Is(s, t, Locks) && s.locked && Sender(s) == s.co[t].saved
    ensures Inv(c, AwaitCas(s, t, false))
  {
    hide N, Of, History, Waiters;
    var s' := AwaitCas(s, t, false);
    Moved(s.co, t, s'.co[t], IsOwner);
    WaitersArrive(s.co, s.receiver, s.arrivals, t, s'.co[t]);
    HistoryArrive(c, s, t);
    forall u | u in s'.co ensures CoroutineOk(s'.co[u], s'.receiver, s'.arrivals) {
      assert CoroutineOk(s.co[u], s.receiver, s.arrivals);
    }
  }

  lemma AwaitCasKeeps(c: Config, s: Sys, t: Tid, spurious: bool)
    requires Inv(c, s) && Is(s, t, Locks)
    ensures Inv(c, AwaitCas(s, t, spurious))
  {
    hide Inv;
    Knows(c, s, t);
    NobodyWaits(c, s);
    if Sender(s) == s.co[t].saved && !spurious && s.locked {
      ArriveKeeps(c, s, t);
    } else {
      var s' := AwaitCas(s, t, spurious);
      PutKeeps(c, s, t, s'.co[t], s'.locked);
    }
  }

  lemma SwitchKeeps(c: Config, s: Sys, t: Tid, e: Exec)
    requires Inv(c, s) && (Is(s, t, Idle) || Is(s, t, Holds))
    ensures Inv(c, Switch(s, t, e))
  {
    hide Inv;
    Knows(c, s, t);
    NobodyWaits(c, s);
    PutKeeps(c, s, t, Switch(s, t, e).co[t], s.locked);
  }

  // ---------- the mutex changes hands ----------

  /** Locked, but the last owner has just let go and the next one is not chosen yet. */
  ghost predicate Vacant(c: Config, s: Sys) {
    && s.locked && N(s.co, IsOwner) == 0 && s.pass == NoPass
    && Waiters(s.co, s.receiver + s.arrivals)
    && History(c, s.suspended, s.granted, s.batches, s.receiver, s.arrivals)
    && Coroutines(s.co, s.receiver, s.arrivals)
  }

  lemma OwnerLeaves(c: Config, s: Sys, t: Tid, x: Coroutine)
    requires Inv(c, s) && t in s.co && IsOwner(s.co[t])
    requires x.at == Idle && x.runsOn == x.exec && (x.sticky && !x.left ==> x.exec == x.home)
    ensures Vacant(c, Put(s, t, x))
    ensures s.locked && s.pass == NoPass
  {
    hide N, Of, History, Waiters;
    OwnersUnique(s, t, t);
    Moved(s.co, t, x, IsOwner);
    WaitersOther(s.co, s.receiver + s.arrivals, t, x);
  }

  lemma PassLeaves(c: Config, s: Sys)
    requires Inv(c, s) && s.pass != NoPass
    ensures Vacant(c, s.(pass := NoPass))
  {
    hide Of, History, Waiters;
  }

  lemma GrabKeeps(c: Config, s: Sys)
    requires Vacant(c, s) && s.receiver == [] && s.arrivals != []
    ensures Vacant(c, Grab(c, s))
  {
    hide N, Of, History, Waiters;
    var s' := Grab(c, s);
    assert s.receiver + s.arrivals == s.arrivals && s'.receiver + [] == s'.receiver;
    WaitersOrder(c, s.co, s.arrivals);
    HistoryGrab(c, s);
    forall t | t in s'.co ensures CoroutineOk(s'.co[t], s'.receiver, s'.arrivals) {
      assert CoroutineOk(s.co[t], s.receiver, s.arrivals);
      NotOwner(s, t);
    }
  }

  lemma NotOwner(s: Sys, t: Tid)
    requires N(s.co, IsOwner) == 0 && t in s.co
    ensures !IsOwner(s.co[t])
  {
    if IsOwner(s.co[t]) { Present(s.co, IsOwner, t); }
  }

  lemma FirstQueued(co: map<Tid, Coroutine>, receiver: seq<Tid>, arrivals: seq<Tid>)
    requires Waiters(co, receiver + arrivals)
    ensures receiver != [] ==> receiver[0] in co && co[receiver[0]].at == Queued
    ensures forall t :: t in arrivals ==> t in co && co[t].at == Queued
  {
    var q := receiver + arrivals;
    if receiver != [] { assert q[0] == receiver[0]; }
    forall t | t in arrivals ensures t in co && co[t].at == Queued {
      var i :| 0 <= i < |arrivals| && arrivals[i] == t;
      assert q[|receiver| + i] == t;
    }
  }

  lemma TransferKeeps(c: Config, s: Sys, e: Exec, on: Exec)
    requires Vacant(c, s) && s.receiver != [] && e == on
    ensures s.receiver[0] in s.co && s.co[s.receiver[0]].at == Queued
    ensures Inv(c, Transfer(s, e, on))
  {
    hide N, Of, History, Waiters;
    FirstQueued(s.co, s.receiver, s.arrivals);
    var s', u := Transfer(s, e, on), s.receiver[0];
    Moved(s.co, u, s'.co[u], IsOwner);
    WaitersLeave(s.co, s.receiver + s.arrivals, s'.co[u]);
    assert (s.receiver + s.arrivals)[1..] == s.receiver[1..] + s.arrivals;
    HistoryServe(c, s);
    forall t | t in s'.co ensures CoroutineOk(s'.co[t], s'.receiver, s'.arrivals) {
      assert CoroutineOk(s.co[t], s.receiver, s.arrivals);
      NotOwner(s, t);
    }
  }

  lemma ServeKeeps(c: Config, s: Sys)
    requires Vacant(c, s) && s.receiver != []
    ensures s.receiver[0] in s.co && Inv(c, Serve(s))
  {
    hide Vacant;
    TransferKeeps(c, s, Exec(0), Exec(0));
    TransferKeeps(c, s, s.co[s.receiver[0]].exec, s.co[s.receiver[0]].exec);
  }

  lemma ReceiverQueued(c: Config, s: Sys)
    requires Inv(c, s)
    ensures NextWaits(s)
    ensures s.receiver == [] && s.arrivals != [] ==> BatchWaits(s)
  {
    hide N, Of, History, Waiters, Token, Coroutines;
    FirstQueued(s.co, s.receiver, s.arrivals);
  }

  lemma LeaveToKeeps(c: Config, s: Sys, t: Tid, e: Exec)
    requires Inv(c, s) && t in s.co && IsOwner(s.co[t])
    requires s.co[t].sticky && !s.co[t].left ==> e == s.co[t].home
    ensures Inv(c, LeaveTo(s, t, e))
  {
    hide N, Of, History, Waiters;
    OwnerLeaves(c, s, t, s.co[t].(at := Idle, exec := e, runsOn := e));
    NobodyWaits(c, s);
    Knows(c, s, t);
    hide Coroutines;
  }

  lemma UnlockHereKeeps(c: Config, s: Sys, t: Tid)
    requires Inv(c, s) && Is(s, t, Holds) && (s.receiver != [] ==> s.receiver[0] in s.co)
    requires s.co[t].sticky && !s.co[t].left ==> s.co[t].exec == s.co[t].home
    ensures Inv(c, UnlockHere(s, t))
  {
    hide Inv, Vacant, Serve;
    if s.receiver != [] {
      Knows(c, s, t);
      OwnerLeaves(c, s, t, s.co[t].(at := Idle));
      ServeKeeps(c, GoOn(s, t));
    } else {
      Knows(c, s, t);
      OwnerLocked(c, s, t);
      PutKeeps(c, s, t, TryUnlock(s, t).co[t], s.locked);
    }
  }

  lemma OwnerLocked(c: Config, s: Sys, t: Tid)
    requires Inv(c, s) && t in s.co && IsOwner(s.co[t])
    ensures s.locked && s.pass == NoPass
  {
    OwnersUnique(s, t, t);
  }

  lemma DisclaimKeeps(c: Config, s: Sys, t: Tid)
    requires Inv(c, s) && Is(s, t, Holds)
    ensures Inv(c, Disclaim(s, t))
  {
    hide Inv;
    Knows(c, s, t);
    OwnerLocked(c, s, t);
    PutKeeps(c, s, t, Disclaim(s, t).co[t], s.locked);
  }

  lemma SwapKeeps(c: Config, s: Sys, t: Tid)
    requires Inv(c, s) && Is(s, t, Holds) && s.co[t].left && s.receiver != [] && s.receiver[0] in s.co
    ensures Inv(c, Swap(s, t))
  {
    hide Inv, Vacant, Transfer;
    var e := s.co[s.receiver[0]].exec;
    Knows(c, s, t);
    OwnerLeaves(c, s, t, s.co[t].(at := Idle, exec := e, runsOn := e));
    TransferKeeps(c, Submit(s, t, e), s.co[t].exec, s.co[t].runsOn);
  }

  lemma UnlockKeeps(c: Config, s: Sys, t: Tid, way: Way)
    requires Inv(c, s) && Is(s, t, Holds) && (way == Sticky ==> s.co[t].sticky)
    ensures s.locked && NextWaits(s) && Inv(c, Unlock(c, s, t, way))
  {
    hide Inv, LeaveTo, UnlockHere, Swap;
    OwnerLocked(c, s, t);
    ReceiverQueued(c, s);
    if way == Sticky {
      Knows(c, s, t);
      if s.co[t].guard.Some? { LeaveToKeeps(c, s, t, s.co[t].guard.value); } else { UnlockHereKeeps(c, s, t); }
    } else {
      var s1 := Disclaim(s, t);
      DisclaimKeeps(c, s, t);
      match way
      case On(e) => LeaveToKeeps(c, s1, t, e);
      case Awaiting => if s1.receiver != [] && c.batching { SwapKeeps(c, s1, t); } else { UnlockHereKeeps(c, s1, t); }
      case Here => UnlockHereKeeps(c, s1, t);
    }
  }

  lemma UnlockCasKeeps(c: Config, s: Sys, t: Tid)
    requires Inv(c, s) && Is(s, t, UnlockCas)
    ensures Inv(c, UnlockCasStep(s, t))
  {
    hide Inv;
    Knows(c, s, t);
    OwnerLocked(c, s, t);
    var s' := UnlockCasStep(s, t);
    PutKeeps(c, s, t, s'.co[t], s'.locked);
  }

  lemma ExchangeKeeps(c: Config, s: Sys, t: Tid)
    requires Inv(c, s) && Is(s, t, Exchanges)
    ensures BatchWaits(s) && Inv(c, ExchangeStep(c, s, t))
  {
    hide Inv, Vacant, Serve, Grab;
    Knows(c, s, t);
    ReceiverQueued(c, s);
    var s1 := GoOn(s, t);
    OwnerLeaves(c, s, t, s.co[t].(at := Idle));
    GrabKeeps(c, s1);
    ServeKeeps(c, Grab(c, s1));
  }

  lemma PassStartKeeps(c: Config, s: Sys)
    requires Inv(c, s) && s.pass.Starts?
    ensures s.locked && NextWaits(s) && Inv(c, PassStart(c, s))
  {
    hide Inv, Vacant, Serve, Transfer;
    ReceiverQueued(c, s);
    NobodyWaits(c, s);
    if s.receiver == [] {
      PassGoes(c, s, PassStart(c, s).pass);
    } else {
      PassLeaves(c, s);
      if c.batching { TransferKeeps(c, s.(pass := NoPass), s.pass.given, s.pass.on); } else { ServeKeeps(c, s.(pass := NoPass)); }
    }
  }

  lemma PassGoes(c: Config, s: Sys, pass: Pass)
    requires Inv(c, s) && s.pass != NoPass && s.receiver == [] && pass != NoPass
    requires !pass.Starts? && (pass.Exchange? ==> s.arrivals != [])
    ensures Inv(c, s.(pass := pass))
  {
    hide N, Of, History, Waiters, Coroutines;
  }

  lemma PassCasKeeps(c: Config, s: Sys)
    requires Inv(c, s) && s.pass.Cas?
    ensures Inv(c, PassCas(s))
  {
    NobodyWaits(c, s);
    if s.arrivals == [] { Unlocked(c, s); } else { PassGoes(c, s, PassCas(s).pass); }
  }

  lemma Unlocked(c: Config, s: Sys)
    requires Inv(c, s) && s.pass != NoPass && s.receiver == [] && s.arrivals == []
    ensures Inv(c, s.(pass := NoPass, locked := false))
  {
    hide N, Of, History, Waiters, Coroutines;
  }

  lemma PassExchangeKeeps(c: Config, s: Sys)
    requires Inv(c, s) && s.pass.Exchange?
    ensures BatchWaits(s) && Inv(c, PassExchange(c, s))
  {
    hide Inv, Vacant, Serve, Grab;
    NobodyWaits(c, s);
    ReceiverQueued(c, s);
    PassLeaves(c, s);
    GrabKeeps(c, s.(pass := NoPass));
    ServeKeeps(c, Grab(c, s.(pass := NoPass)));
  }

  lemma StepKeeps(c: Config, s: Sys, t: Tid, a: Action)
    requires Inv(c, s) && Enabled(s, t, a)
    ensures Safe(s, t, a) && Inv(c, Apply(c, s, t, a))
  {
    hide Inv, NextWaits, BatchWaits, Unlock, Sender, PassStart, PassCas, UnlockCasStep, AwaitCas, TryCasStep;
    match a
    case TryLoadOp => TryLoadKeeps(c, s, t);
    case LockLoadOp(sticky) => LockLoadKeeps(c, s, t, sticky);
    case TryCasOp => TryCasKeeps(c, s, t);
    case AwaitLoadOp => AwaitLoadKeeps(c, s, t);
    case AwaitCasOp(spurious) => AwaitCasKeeps(c, s, t, spurious);
    case SwitchOp(e) => SwitchKeeps(c, s, t, e);
    case UnlockOp(way) => UnlockKeeps(c, s, t, way);
    case UnlockCasOp => UnlockCasKeeps(c, s, t);
    case ExchangeOp => ExchangeKeeps(c, s, t);
    case PassStartOp => PassStartKeeps(c, s);
    case PassCasOp => PassCasKeeps(c, s);
    case PassExchangeOp => PassExchangeKeeps(c, s);
  }
}
