/** How long a suspended coroutine of SharedMutex can be passed over. */
module SharedMutexFairness {
  import opened Common
  import opened Census
  import opened SharedMutexCode
  import opened SharedMutexRuns
  import opened SharedMutexInvariant
  import opened SharedMutexNumbers
  import opened SharedMutexSteps
  import opened SharedMutexHandOff
  import opened SharedMutexTheorems

  /** Some writer that did not own the lock before the step owns it after. */
  ghost predicate Gains(s: Sys, s': Sys) {
    exists w :: GainsBy(s, s', w)
  }

  ghost predicate GainsBy(s: Sys, s': Sys, w: Tid) {
    w in s.pc && w in s'.pc && !IsOwner(s.pc[w]) && IsOwner(s'.pc[w])
  }

  /** How many writers may still get the lock before the readers that are queued now:
      the first writer, if it is still waiting, and those that were queued before the first reader. */
  ghost function Potential(s: Sys): int {
    s.m.writersPrio + K(s).firsts + K(s).waits
  }

  // ---------- one step ----------

  /** A step of `t` alone to a phase that neither takes the lock nor concerns the first writer. */
  lemma PlainStep(s: Sys, s': Sys, t: Tid, q: Phase)
    requires t in s.pc && s'.pc == s.pc[t := q] && s'.m.writersPrio == s.m.writersPrio
    requires !IsFirst(s.pc[t]) && !IsFirst(q) && !IsWaiting(s.pc[t]) && !IsWaiting(q)
    requires IsOwner(q) ==> IsOwner(s.pc[t])
    ensures Potential(s') == Potential(s) && !Gains(s, s')
  {
    hide N, Of, TallyOf;
    TallyMoved(s.pc, t, q);
  }

  /** A step of `t` alone to a phase in which it owns the lock, from that of the first writer. */
  lemma FirstGets(s: Sys, s': Sys, t: Tid, q: Phase)
    requires t in s.pc && s'.pc == s.pc[t := q] && s'.m.writersPrio == s.m.writersPrio
    requires IsFirst(s.pc[t]) && (IsFirst(q) || IsWaiting(q) || IsOwner(q))
    ensures Potential(s') + One(Gains(s, s')) <= Potential(s)
  {
    hide N, Of, TallyOf;
    TallyMoved(s.pc, t, q);
  }

  /** Neither an owner nor the first writer. */
  ghost predicate Bystander(p: Phase) { !IsOwner(p) && !IsFirst(p) && !IsWaiting(p) }

  lemma BystanderPhase(p: Phase)
    requires p == Idle || p == Drains || p == ExclWakes || p == SharedHanded || p == SharedHeld
    ensures Bystander(p)
  {
  }

  /** The steps that run a coroutine which already owns the lock. */
  lemma PairStep(s: Sys, s': Sys, t: Tid, a: Phase, w: Tid, b: Phase)
    requires PairMove(s, s', t, a, w, b) && Bystander(s.pc[t]) && Bystander(a)
    requires (Bystander(s.pc[w]) && Bystander(b)) || (IsOwner(s.pc[w]) && IsOwner(b))
    ensures Potential(s') == Potential(s) && !Gains(s, s')
  {
    PairNobodyGains(s, s', t, a, w, b);
    if IsOwner(s.pc[w]) && IsOwner(b) { OwnersDoNotWait(s.pc[w], b); }
    hide N, Of, TallyOf, Gains, IsOwner, Outside;
    TallyMoved(s.pc, t, a);
    TallyMoved(s.pc[t := a], w, b);
  }

  lemma OwnersDoNotWait(p: Phase, q: Phase)
    requires IsOwner(p) && IsOwner(q)
    ensures !IsFirst(p) && !IsFirst(q) && !IsWaiting(p) && !IsWaiting(q)
  {
  }

  lemma PairNobodyGains(s: Sys, s': Sys, t: Tid, a: Phase, w: Tid, b: Phase)
    requires PairMove(s, s', t, a, w, b) && Bystander(s.pc[t]) && Bystander(a)
    requires (Bystander(s.pc[w]) && Bystander(b)) || (IsOwner(s.pc[w]) && IsOwner(b))
    ensures !Gains(s, s')
  {
    hide IsOwner, Outside;
  }

  lemma WakeFirstGets(s: Sys, t: Tid)
    requires t in s.pc && s.pc[t] == SharedWakes && WakeFirstSafe(s)
    ensures Potential(WakeFirst(s, t)) + One(Gains(s, WakeFirst(s, t))) <= Potential(s)
  {
    hide N, Of, TallyOf;
    TallyMoved(s.pc, t, Idle);
    TallyMoved(s.pc[t := Idle], s.m.writersFirst.value, ExclHeld);
  }

  /** `t` stops deciding, `w` gets the lock, and one of the writers ahead is gone. */
  lemma PairGets(s: Sys, s': Sys, t: Tid, w: Tid)
    requires t in s.pc && w in s.pc && w != t && s.pc[t] == ExclLeft && s.pc[w] == ExclQueued
    requires s'.pc == s.pc[t := ExclWakes][w := ExclHanded] && s'.m.writersPrio == s.m.writersPrio - 1
    ensures Potential(s') + One(Gains(s, s')) <= Potential(s)
  {
    hide N, Of, TallyOf, Gains;
    TallyMoved(s.pc, t, ExclWakes);
    TallyMoved(s.pc[t := ExclWakes], w, ExclHanded);
  }

  lemma PoppedGets(c: Config, s: Sys, t: Tid)
    requires t in s.pc && s.pc[t] == ExclLeft && WriterSuspended(s) && c.fifo && 0 < s.m.writersPrio < U32
    ensures Potential(HandWriter(c, s, t)) + One(Gains(s, HandWriter(c, s, t))) <= Potential(s)
  {
    hide Potential, Gains;
    PairGets(s, HandWriter(c, s, t), t, s.m.writers[0]);
  }

  // ---------- what a queued reader excludes ----------

  lemma WhileQueued(c: Config, s: Sys, r: Tid)
    requires Inv(c, s) && In(s, r, SharedQueued)
    ensures s.m.readers != [] && s.m.state != 0 && s.m.writersPrio < U32
    ensures K(s).leavers == 0 ==> Writers(s.m.state) != 0
  {
    hide N, Of, Hands, Queues, Locking, Locals, TallyOf;
    TallyPresent(s.pc, r);
    Unpack(s.m.state, CountedWriters(K(s)), CountedReaders(K(s)));
  }

  lemma ChoiceWhileQueued(c: Config, s: Sys, t: Tid, r: Tid)
    requires Inv(c, s) && In(s, r, SharedQueued) && t in s.pc && s.pc[t] == ExclLeft
    ensures ChooseSafe(c, s, t)
    ensures In(SlowChoose(c, s, t), r, SharedQueued) ==>
              Potential(SlowChoose(c, s, t)) + One(Gains(s, SlowChoose(c, s, t))) <= Potential(s)
  {
    hide Inv, Gains, Potential;
    InvShape(c, s);
    WhileQueued(c, s, r);
    SlowChooseKeeps(c, s, t);
    match Choose(c, s.m, s.saved[t]) {
      case ChooseWriter => PoppedGets(c, s, t);
      case ChooseReaders =>
        if Writers(s.saved[t]) != 1 {
          MovesBounded(s, t);
        } else {
          ReadersLeave(c, s, s.(m := PassReaders(s.m, s.saved[t])), t, r);
        }
    }
  }

  lemma MovesBounded(s: Sys, t: Tid)
    requires t in s.pc && s.pc[t] == ExclLeft
    ensures var s' := Goto(s.(m := SetReadersWait(s.m)), t, ExclMoves);
      Potential(s') + One(Gains(s, s')) <= Potential(s)
  {
    hide Gains, Potential;
    PlainStep(s, Goto(s.(m := SetReadersWait(s.m)), t, ExclMoves), t, ExclMoves);
  }

  lemma ReadersLeave(c: Config, s: Sys, s1: Sys, t: Tid, r: Tid)
    requires Inv(c, s) && In(s, r, SharedQueued) && t in s.pc && t != r
    requires s1.m.readers == s.m.readers && s1.pc.Keys == s.pc.Keys
    ensures In(HandReaders(s1, t), r, SharedHanded)
  {
    assert r in Of(s.pc, IsQueued);
  }

  // ---------- every step ----------

  ghost predicate Bounded(s: Sys, s': Sys, r: Tid) {
    In(s', r, SharedQueued) ==> Potential(s') + One(Gains(s, s')) <= Potential(s)
  }

  lemma SharedBodyBounded(c: Config, s: Sys, t: Tid)
    requires t in s.pc && s.pc[t] == SharedHasLock
    ensures Potential(SharedBody(c, s, t)) + One(Gains(s, SharedBody(c, s, t))) <= Potential(s)
  {
    hide Gains, Potential;
    PlainStep(s, SharedBody(c, s, t), t, if TakePassOrQueue(c, s.m, t).1 then SharedQueued else SharedHeld);
  }

  lemma UnlockSharedBounded(s: Sys, t: Tid)
    requires t in s.pc
    ensures s.pc[t] == SharedHeld ==> Potential(UnlockShared(s, t)) + One(Gains(s, UnlockShared(s, t))) <= Potential(s)
    ensures s.pc[t] == SharedLeaving ==>
              Potential(UnlockSharedDec(s, t)) + One(Gains(s, UnlockSharedDec(s, t))) <= Potential(s)
  {
    hide Gains, Potential;
    if s.pc[t] == SharedHeld {
      PlainStep(s, UnlockShared(s, t), t, if UncountReader(s.m).1 then SharedLeaving else Idle);
    } else if s.pc[t] == SharedLeaving {
      PlainStep(s, UnlockSharedDec(s, t), t, if ReaderGone(s.m).1 then SharedWakes else Idle);
    }
  }

  lemma LockSharedBounded(s: Sys, t: Tid)
    requires t in s.pc && s.pc[t] == Idle
    ensures Potential(LockShared(s, t)) + One(Gains(s, LockShared(s, t))) <= Potential(s)
  {
    hide Gains, Potential;
    PlainStep(s, LockShared(s, t), t, if CountReader(s.m).1 then SharedHeld else SharedInFlight);
  }

  lemma SharedSpinBounded(s: Sys, t: Tid)
    requires t in s.pc && s.pc[t] == SharedInFlight
    ensures var s' := GetSpinlock(s, t, SharedHasLock); Potential(s') + One(Gains(s, s')) <= Potential(s)
  {
    hide Gains, Potential;
    PlainStep(s, GetSpinlock(s, t, SharedHasLock), t, SharedHasLock);
  }

  lemma TryLockSharedLoadBounded(s: Sys, t: Tid)
    requires t in s.pc && s.pc[t] == Idle
    ensures Potential(TryLockSharedLoad(s, t)) + One(Gains(s, TryLockSharedLoad(s, t))) <= Potential(s)
  {
    hide Gains, Potential;
    if Writers(s.m.state) != 0 { Stutter(s); } else { PlainStep(s, TryLockSharedLoad(s, t), t, SharedTrying); }
  }

  lemma ReaderOvertakes(c: Config, s: Sys, t: Tid, a: Action, r: Tid)
    requires Inv(c, s) && Enabled(s, t, a) && ReaderAction(a) && In(s, r, SharedQueued)
    ensures Safe(c, s, t, a) && Bounded(s, Apply(c, s, t, a), r)
  {
    hide Inv, Gains, Potential, Safe, SharedBody, UnlockShared, UnlockSharedDec, LockShared, GetSpinlock, TryLockSharedLoad,
      TryLockSharedCas, DrainOne, WakeFirst;
    InvShape(c, s);
    StepKeeps(c, s, t, a);
    match a
    case TryLockSharedLoadOp => TryLockSharedLoadBounded(s, t);
    case TryLockSharedCasOp(_) => TryLockSharedCasPlain(c, s, t, a.spurious);
    case WakeFirstOp => WakeFirstKeeps(c, s, t); WakeFirstGets(s, t);
    case DrainOneOp => DrainOneBounded(c, s, t);
    case ReleaseOp => Stutter(s); StutterSame(s, Release(s));
    case LockSharedOp => LockSharedBounded(s, t);
    case SharedSpinOp => SharedSpinBounded(s, t);
    case SharedBodyOp => SharedBodyBounded(c, s, t);
    case UnlockSharedOp => UnlockSharedBounded(s, t);
    case UnlockSharedDecOp => UnlockSharedBounded(s, t);
  }

  lemma Stutter(s: Sys)
    ensures Potential(s) + One(Gains(s, s)) <= Potential(s)
  {
  }

  lemma StutterSame(s: Sys, s': Sys)
    requires s'.pc == s.pc && s'.m.writersPrio == s.m.writersPrio
    ensures Potential(s') + One(Gains(s, s')) <= Potential(s)
  {
  }

  lemma TryLockSharedCasPlain(c: Config, s: Sys, t: Tid, spurious: bool)
    requires Inv(c, s) && t in s.pc && s.pc[t] == SharedTrying
    ensures Potential(TryLockSharedCas(s, t, spurious)) + One(Gains(s, TryLockSharedCas(s, t, spurious))) <= Potential(s)
  {
    hide Inv, Gains, Potential;
    InvShape(c, s);
    var s' := TryLockSharedCas(s, t, spurious);
    if !spurious && s.m.state == s.saved[t] { PlainStep(s, s', t, SharedHeld); }
    else if Writers(s.m.state) != 0 { PlainStep(s, s', t, Idle); }
    else { StutterSame(s, s'); }
  }

  lemma DrainPotential(s: Sys, t: Tid)
    requires Shape(s) && t in s.pc && s.pc[t] == Drains && DrainSafe(s, t)
    ensures Potential(DrainOne(s, t)) + One(Gains(s, DrainOne(s, t))) <= Potential(s)
  {
    hide Gains, Potential, DrainOne, Bystander, PairMove, IsOwner;
    DrainMove(s, t);
    BystanderPhase(Drains);
    BystanderPhase(Idle);
    BystanderPhase(SharedHanded);
    BystanderPhase(SharedHeld);
    PairStep(s, DrainOne(s, t), t, if s.drain[t][1..] == [] then Idle else Drains, s.drain[t][0], SharedHeld);
  }

  lemma DrainOneBounded(c: Config, s: Sys, t: Tid)
    requires Inv(c, s) && t in s.pc && s.pc[t] == Drains
    ensures DrainSafe(s, t)
    ensures Potential(DrainOne(s, t)) + One(Gains(s, DrainOne(s, t))) <= Potential(s)
  {
    hide Inv, Gains, Potential, DrainOne, DrainSafe;
    InvShape(c, s);
    DrainOneKeeps(c, s, t);
    DrainPotential(s, t);
  }

  ghost predicate LockAction(a: Action) {
    a.LockLoadOp? || a.TryLockLoadOp? || a.LockCasOp? || a.SpinOp? || a.CountOp? || a.PlaceFirstOp? ||
    a.PlaceQueuedOp? || a.AddReadersOp?
  }

  lemma LockLoadBounded(c: Config, s: Sys, t: Tid, r: Tid)
    requires Inv(c, s) && t in s.pc && s.pc[t] == Idle && In(s, r, SharedQueued)
    ensures Potential(LockLoad(s, t)) + One(Gains(s, LockLoad(s, t))) <= Potential(s)
  {
    hide Inv, Gains, Potential;
    WhileQueued(c, s, r);
    PlainStep(s, LockLoad(s, t), t, ExclWants);
  }

  lemma SpinBounded(s: Sys, t: Tid)
    requires t in s.pc && s.pc[t] == ExclWants
    ensures var s' := GetSpinlock(s, t, ExclHasLock); Potential(s') + One(Gains(s, s')) <= Potential(s)
  {
    hide Gains, Potential;
    PlainStep(s, GetSpinlock(s, t, ExclHasLock), t, ExclHasLock);
  }

  lemma LockCasBounded(c: Config, s: Sys, t: Tid, r: Tid)
    requires Inv(c, s) && t in s.pc && (s.pc[t] == ExclTrying || s.pc[t] == ExclTryingAwait) && In(s, r, SharedQueued)
    ensures Potential(LockCas(s, t)) + One(Gains(s, LockCas(s, t))) <= Potential(s)
  {
    hide Inv, Gains, Potential;
    WhileQueued(c, s, r);
    var q := if s.pc[t] == ExclTryingAwait then ExclWants else Idle;
    assert LockCas(s, t) == Goto(s, t, q);
    hide LockCas;
    PlainStep(s, Goto(s, t, q), t, q);
  }

  lemma PlaceFirstBounded(c: Config, s: Sys, t: Tid)
    requires Inv(c, s) && t in s.pc && s.pc[t] == ExclFirst && t in s.saved
    ensures Potential(PlaceFirst(s, t)) + One(Gains(s, PlaceFirst(s, t))) <= Potential(s)
  {
    hide Inv, Gains, Potential;
    FirstGets(s, PlaceFirst(s, t), t, if s.saved[t] == 0 then ExclHeld else ExclAdds);
  }

  lemma PlacedBehind(c: Config, s: Sys, t: Tid)
    requires s.m.readers != [] && s.m.writersPrio < U32
    ensures var s' := PlaceQueued(c, s, t); s'.pc == s.pc[t := ExclQueued] && s'.m.writersPrio == s.m.writersPrio
  {
  }

  lemma PlaceQueuedBounded(c: Config, s: Sys, t: Tid, r: Tid)
    requires Inv(c, s) && t in s.pc && s.pc[t] == ExclEnqueues && In(s, r, SharedQueued)
    ensures Potential(PlaceQueued(c, s, t)) + One(Gains(s, PlaceQueued(c, s, t))) <= Potential(s)
  {
    hide Inv, Gains, Potential;
    WhileQueued(c, s, r);
    PlacedBehind(c, s, t);
    hide PlaceQueued;
    PlainStep(s, PlaceQueued(c, s, t), t, ExclQueued);
  }

  lemma AddReadersBounded(c: Config, s: Sys, t: Tid)
    requires Inv(c, s) && t in s.pc && s.pc[t] == ExclAdds && t in s.saved
    ensures Potential(AddReaders(s, t)) + One(Gains(s, AddReaders(s, t))) <= Potential(s)
  {
    hide Inv, Gains, Potential;
    FirstGets(s, AddReaders(s, t), t, if AwaitReaders(s.m, s.saved[t]).1 then ExclWaits else ExclHeld);
  }

  lemma LockOvertakes(c: Config, s: Sys, t: Tid, a: Action, r: Tid)
    requires Inv(c, s) && Enabled(s, t, a) && LockAction(a) && In(s, r, SharedQueued)
    ensures Safe(c, s, t, a) && Bounded(s, Apply(c, s, t, a), r)
  {
    hide Inv, Gains, Potential, Safe, Count, LockCas, PlaceFirst, PlaceQueued, AddReaders, LockLoad, GetSpinlock;
    InvShape(c, s);
    StepKeeps(c, s, t, a);
    match a
    case LockLoadOp => LockLoadBounded(c, s, t, r);
    case TryLockLoadOp => WhileQueued(c, s, r); Stutter(s);
    case LockCasOp => LockCasBounded(c, s, t, r);
    case SpinOp => SpinBounded(s, t);
    case CountOp => CountBounded(c, s, t, r);
    case PlaceFirstOp => PlaceFirstBounded(c, s, t);
    case PlaceQueuedOp => PlaceQueuedBounded(c, s, t, r);
    case AddReadersOp => AddReadersBounded(c, s, t);
  }

  lemma UnlockOvertakes(c: Config, s: Sys, t: Tid, a: Action, r: Tid)
    requires Inv(c, s) && Enabled(s, t, a) && !ReaderAction(a) && !LockAction(a) && In(s, r, SharedQueued)
    ensures Safe(c, s, t, a) && Bounded(s, Apply(c, s, t, a), r)
  {
    hide Inv, Gains, Potential, Safe, SlowChoose, SlowMove, WakeWriter, ChooseSafe, MoveSafe, WakeWriterSafe;
    InvShape(c, s);
    StepKeeps(c, s, t, a);
    var s' := Apply(c, s, t, a);
    match a
    case UnlockOp => PlainStep(s, s', t, if CasState(s.m, WRITER, 0).1 then Idle else ExclSlow);
    case SlowSpinOp => PlainStep(s, s', t, ExclSlowLocked);
    case SlowSubOp => PlainStep(s, s', t, ExclLeft);
    case SlowChooseOp => ChoiceWhileQueued(c, s, t, r);
    case SlowMoveOp => MoveTakes(c, s, t, r);
    case WakeWriterOp => WakeWriterBounded(c, s, t);
  }

  lemma CountBounded(c: Config, s: Sys, t: Tid, r: Tid)
    requires Inv(c, s) && t in s.pc && s.pc[t] == ExclHasLock && In(s, r, SharedQueued)
    ensures Potential(Count(s, t)) + One(Gains(s, Count(s, t))) <= Potential(s)
  {
    hide Inv, Gains, Potential;
    WhileQueued(c, s, r);
    NotFirst(c, s, t);
    PlainStep(s, Count(s, t), t, ExclEnqueues);
  }

  lemma NotFirst(c: Config, s: Sys, t: Tid)
    requires Inv(c, s) && t in s.pc && s.pc[t] == ExclHasLock
    ensures K(s).leavers == 0
  {
    hide N, Of, Hands, Queues, Locals, Numbers, TallyOf;
    AloneUnderLock(s, t);
  }

  lemma MoveTakes(c: Config, s: Sys, t: Tid, r: Tid)
    requires Inv(c, s) && t in s.pc && s.pc[t] == ExclMoves && In(s, r, SharedQueued)
    ensures MoveSafe(s) && !In(SlowMove(c, s, t), r, SharedQueued)
  {
    hide Inv;
    InvShape(c, s);
    SlowMoveKeeps(c, s, t);
    var w := s.m.writers[0];
    ReadersLeave(c, s, Goto(s.(m := NextFirst(c, s.m, s.saved[t])), w, ExclWaits), t, r);
  }

  lemma WakeWriterBounded(c: Config, s: Sys, t: Tid)
    requires Inv(c, s) && t in s.pc && s.pc[t] == ExclWakes
    ensures WakeWriterSafe(s, t)
    ensures Potential(WakeWriter(s, t)) + One(Gains(s, WakeWriter(s, t))) <= Potential(s)
  {
    hide Inv, Gains, Potential;
    InvShape(c, s);
    WakeWriterKeeps(c, s, t);
    PairStep(s, WakeWriter(s, t), t, Idle, s.drain[t][0], ExclHeld);
  }

  // ---------- runs ----------

  /** How many steps of a stretch of a run give the lock to a writer. */
  ghost function Grants(states: seq<Sys>, i: nat, j: nat): nat
    requires i <= j < |states|
    decreases j - i
  {
    if i == j then 0 else One(Gains(states[j - 1], states[j])) + Grants(states, i, j - 1)
  }

  /** While a reader stays queued, writers get the lock at most as often as the first writer and the
      `_writers_prio` writers queued before the first reader account for. */
  lemma {:induction false} BoundedBypass(c: Config, states: seq<Sys>, events: seq<Event>, i: nat, j: nat, r: Tid)
    requires Run(c, states, events) && i <= j < |states|
    requires forall n :: i <= n <= j ==> In(states[n], r, SharedQueued)
    ensures Grants(states, i, j) <= Potential(states[i]) - Potential(states[j])
    ensures Grants(states, i, j) <= states[i].m.writersPrio + 1
    ensures !c.fifo ==> Grants(states, i, j) <= 1
    decreases j - i
  {
    hide Inv, Init, Potential, Safe, Enabled, Apply, Gains, In, Shape;
    RunsAreSafe(c, states, events, i);
    PotentialIs(c, states[i]);
    if i < j {
      BoundedBypass(c, states, events, i, j - 1, r);
      RunsAreSafe(c, states, events, j - 1);
      var e := events[j - 1];
      assert Step(c, states[j - 1], states[j - 1 + 1], e.t, e.a);
      StepBounded(c, states[j - 1], e.t, e.a, r);
    }
    RunsAreSafe(c, states, events, j);
    PotentialIs(c, states[j]);
  }

  lemma StepBounded(c: Config, s: Sys, t: Tid, a: Action, r: Tid)
    requires Inv(c, s) && Enabled(s, t, a) && In(s, r, SharedQueued)
    ensures Safe(c, s, t, a) && Bounded(s, Apply(c, s, t, a), r)
  {
    hide Inv, Safe, Bounded, Apply, Enabled;
    if ReaderAction(a) { ReaderOvertakes(c, s, t, a, r); }
    else if LockAction(a) { LockOvertakes(c, s, t, a, r); }
    else { UnlockOvertakes(c, s, t, a, r); }
  }

  lemma PotentialIs(c: Config, s: Sys)
    requires Inv(c, s)
    ensures 0 <= Potential(s) <= s.m.writersPrio + 1
    ensures !c.fifo ==> s.m.writersPrio == 0
  {
    hide N, Of, Hands, Queues, Locking, Locals, TallyOf;
  }

  // ---------- the queue of writers ----------

  /** What one step does to the queue of writers: it loses its front, grows at its end or stays. */
  ghost predicate Pops(c: Config, s: Sys, t: Tid, a: Action)
    requires Shape(s) && t in s.pc
  {
    a == SlowMoveOp || (a == SlowChooseOp && Choose(c, s.m, s.saved[t]) == ChooseWriter)
  }

  ghost predicate QueueStep(c: Config, s: Sys, t: Tid, a: Action)
    requires Safe(c, s, t, a)
  {
    var q, q' := s.m.writers, Apply(c, s, t, a).m.writers;
    if Pops(c, s, t, a) then q != [] && q' == q[1..]
    else if a == PlaceQueuedOp then q' == q + [t]
    else q' == q
  }

  lemma QueueSteps(c: Config, s: Sys, t: Tid, a: Action)
    requires Safe(c, s, t, a)
    ensures QueueStep(c, s, t, a)
  {
    hide ReadersSuspended, WakeFirstSafe, DrainSafe, WakeWriterSafe, ChooseSafe, MoveSafe, SlowChoose, SlowMove;
    match a
    case SlowChooseOp => ChooseQueue(c, s, t);
    case SlowMoveOp => MoveQueue(c, s, t);
    case _ =>
  }

  lemma ChooseQueue(c: Config, s: Sys, t: Tid)
    requires Shape(s) && t in s.pc && ChooseSafe(c, s, t)
    ensures var q, q' := s.m.writers, SlowChoose(c, s, t).m.writers;
      if Choose(c, s.m, s.saved[t]) == ChooseWriter then q != [] && q' == q[1..] else q' == q
  {
    hide ReadersSuspended, HandOver, HandedBy;
  }

  lemma MoveQueue(c: Config, s: Sys, t: Tid)
    requires Shape(s) && t in s.pc && MoveSafe(s)
    ensures SlowMove(c, s, t).m.writers == s.m.writers[1..] && s.m.writers != []
  {
    hide ReadersSuspended, HandOver, HandedBy;
  }

  /** Every writer that unlocks while writers are queued takes exactly one of them out: at once, or in
      the step that follows when it also runs the readers. */
  lemma DecisionServesQueue(c: Config, s: Sys, t: Tid)
    requires Reachable(c, s) && In(s, t, ExclLeft) && s.m.writers != []
    ensures Shape(s) && ChooseSafe(c, s, t)
    ensures Choose(c, s.m, s.saved[t]) == ChooseWriter || SlowChoose(c, s, t).pc[t] == ExclMoves
  {
    hide Inv;
    ReachableInv(c, s);
    InvShape(c, s);
    LeaverKnows(c, s, t);
    SlowChooseKeeps(c, s, t);
    QueuedWriters(c, s);
    hide SlowChoose;
    if Choose(c, s.m, s.saved[t]) != ChooseWriter { ChoosesMove(c, s, t); }
  }

  lemma QueuedWriters(c: Config, s: Sys)
    requires Inv(c, s)
    ensures |s.m.writers| == K(s).writersQueued
  {
    hide N, Of, Hands, Queues, Locking, Locals, TallyOf;
  }

  lemma ChoosesMove(c: Config, s: Sys, t: Tid)
    requires Shape(s) && t in s.pc && ChooseSafe(c, s, t) && Departing(c, K(s), s.m, false, s.saved[t])
    requires |s.m.writers| == K(s).writersQueued && s.m.writers != [] && Choose(c, s.m, s.saved[t]) != ChooseWriter
    ensures SlowChoose(c, s, t).pc[t] == ExclMoves
  {
    hide N, Of, TallyOf;
  }

  ghost function Served(c: Config, states: seq<Sys>, events: seq<Event>, i: nat, j: nat): nat
    requires i <= j < |states| && |states| == |events| + 1
    requires forall n :: 0 <= n < |events| ==> Shape(states[n]) && events[n].t in states[n].pc
    decreases j - i
  {
    if i == j then 0
    else One(Pops(c, states[j - 1], events[j - 1].t, events[j - 1].a)) + Served(c, states, events, i, j - 1)
  }

  ghost predicate StaysQueued(states: seq<Sys>, i: nat, j: nat, w: Tid)
    requires i <= j < |states|
  {
    forall n :: i <= n <= j ==> w in states[n].m.writers
  }

  lemma {:induction false} WriterAdvances(c: Config, states: seq<Sys>, events: seq<Event>, i: nat, j: nat, w: Tid, p: nat)
    requires Run(c, states, events) && i <= j < |states|
    requires p < |states[i].m.writers| && states[i].m.writers[p] == w && StaysQueued(states, i, j, w)
    ensures forall n :: 0 <= n < |events| ==> Shape(states[n]) && events[n].t in states[n].pc
    ensures var p' := p - Served(c, states, events, i, j); 0 <= p' < |states[j].m.writers| && states[j].m.writers[p'] == w
    decreases j - i
  {
    hide Inv, Init, Safe, Enabled, Apply, Pops, Shape;
    ShapesOf(c, states, events);
    if i < j {
      WriterAdvances(c, states, events, i, j - 1, w, p);
      RunsAreSafe(c, states, events, j);
      var e, s := events[j - 1], states[j - 1];
      assert Step(c, states[j - 1], states[j - 1 + 1], e.t, e.a);
      RunsAreSafe(c, states, events, j - 1);
      AdvanceStep(c, s, states[j], e, p - Served(c, states, events, i, j - 1), w);
    }
  }

  lemma AdvanceStep(c: Config, s: Sys, s': Sys, e: Event, p: nat, w: Tid)
    requires Inv(c, s) && Shape(s) && e.t in s.pc && Safe(c, s, e.t, e.a) && s' == Apply(c, s, e.t, e.a)
    requires p < |s.m.writers| && s.m.writers[p] == w && w in s'.m.writers
    ensures var p' := p - One(Pops(c, s, e.t, e.a)); 0 <= p' < |s'.m.writers| && s'.m.writers[p'] == w
  {
    hide Inv, Safe, Apply, Pops;
    QueueSteps(c, s, e.t, e.a);
    WritersDistinct(c, s);
    AdvancesBy(s.m.writers, s'.m.writers, p, w, Pops(c, s, e.t, e.a), e);
  }

  lemma AdvancesBy(q: seq<Tid>, q': seq<Tid>, p: nat, w: Tid, pops: bool, e: Event)
    requires if pops then q != [] && q' == q[1..] else if e.a == PlaceQueuedOp then q' == q + [e.t] else q' == q
    requires p < |q| && q[p] == w && w in q' && Distinct(q)
    ensures 0 <= p - One(pops) < |q'| && q'[p - One(pops)] == w
  {
  }

  lemma WritersDistinct(c: Config, s: Sys)
    requires Inv(c, s)
    ensures Distinct(s.m.writers)
  {
  }

  lemma ShapesOf(c: Config, states: seq<Sys>, events: seq<Event>)
    requires Run(c, states, events)
    ensures forall n :: 0 <= n < |events| ==> Shape(states[n]) && events[n].t in states[n].pc
  {
    hide Inv, Safe, Apply;
    forall n | 0 <= n < |events| ensures Shape(states[n]) && events[n].t in states[n].pc {
      RunsAreSafe(c, states, events, n);
      InvShape(c, states[n]);
      assert Step(c, states[n], states[n + 1], events[n].t, events[n].a);
    }
  }
}
