/** What SharedMutex promises, in every state of every interleaving. */
module SharedMutexTheorems {
  import opened Common
  import opened Census
  import opened SharedMutexCode
  import opened SharedMutexRuns
  import opened SharedMutexInvariant
  import opened SharedMutexNumbers
  import opened SharedMutexSteps
  import opened SharedMutexHandOff

  // ---------- every step is safe and keeps the invariant ----------

  ghost predicate ReaderAction(a: Action) {
    a.LockSharedOp? || a.TryLockSharedLoadOp? || a.TryLockSharedCasOp? || a.SharedSpinOp? || a.SharedBodyOp? ||
    a.UnlockSharedOp? || a.UnlockSharedDecOp? || a.WakeFirstOp? || a.DrainOneOp? || a.ReleaseOp?
  }

  lemma ReaderStep(c: Config, s: Sys, t: Tid, a: Action)
    requires Inv(c, s) && Enabled(s, t, a) && ReaderAction(a)
    ensures Safe(c, s, t, a) && Inv(c, Apply(c, s, t, a))
  {
    hide Inv, ChooseSafe, MoveSafe, WakeFirstSafe, DrainSafe, WakeWriterSafe;
    InvShape(c, s);
    match a
    case LockSharedOp => LockSharedKeeps(c, s, t);
    case TryLockSharedLoadOp => TryLockSharedLoadKeeps(c, s, t);
    case TryLockSharedCasOp(spurious) => TryLockSharedCasKeeps(c, s, t, spurious);
    case SharedSpinOp => GetSpinlockKeeps(c, s, t, SharedHasLock);
    case SharedBodyOp =>
      if s.m.readersPass != 0 { TakePassKeeps(c, s, t); } else { QueueReaderKeeps(c, s, t); }
    case UnlockSharedOp => UnlockSharedKeeps(c, s, t);
    case UnlockSharedDecOp => UnlockSharedDecKeeps(c, s, t);
    case WakeFirstOp => WakeFirstKeeps(c, s, t);
    case DrainOneOp => DrainOneKeeps(c, s, t);
    case ReleaseOp => ReleaseKeeps(c, s);
  }

  lemma WriterStep(c: Config, s: Sys, t: Tid, a: Action)
    requires Inv(c, s) && Enabled(s, t, a) && !ReaderAction(a)
    ensures Safe(c, s, t, a) && Inv(c, Apply(c, s, t, a))
  {
    hide Inv, ChooseSafe, MoveSafe, WakeFirstSafe, DrainSafe, WakeWriterSafe, SlowChoose;
    InvShape(c, s);
    match a
    case LockLoadOp => LockLoadKeeps(c, s, t);
    case TryLockLoadOp => TryLockLoadKeeps(c, s, t);
    case LockCasOp => LockCasKeeps(c, s, t);
    case SpinOp => GetSpinlockKeeps(c, s, t, ExclHasLock);
    case CountOp => CountKeeps(c, s, t);
    case PlaceFirstOp => PlaceFirstKeeps(c, s, t);
    case PlaceQueuedOp => PlaceQueuedKeeps(c, s, t);
    case AddReadersOp => AddReadersKeeps(c, s, t);
    case UnlockOp => UnlockKeeps(c, s, t);
    case SlowSpinOp => SlowSpinKeeps(c, s, t);
    case SlowSubOp => SlowSubKeeps(c, s, t);
    case SlowChooseOp => SlowChooseKeeps(c, s, t);
    case SlowMoveOp => SlowMoveKeeps(c, s, t);
    case WakeWriterOp => WakeWriterKeeps(c, s, t);
  }

  lemma InvShape(c: Config, s: Sys)
    requires Inv(c, s)
    ensures Shape(s)
  {
  }

  lemma SlowChooseKeeps(c: Config, s: Sys, t: Tid)
    requires Inv(c, s) && t in s.pc && s.pc[t] == ExclLeft
    ensures ChooseSafe(c, s, t) && Inv(c, SlowChoose(c, s, t))
  {
    hide Inv, ChooseSafe;
    InvShape(c, s);
    match Choose(c, s.m, s.saved[t])
    case ChooseWriter => HandWriterKeeps(c, s, t);
    case ChooseReaders =>
      if Writers(s.saved[t]) != 1 { SetReadersWaitKeeps(c, s, t); } else { LastWriterKeeps(c, s, t); }
    case ChooseNobody => NobodyNextKeeps(c, s, t);
  }

  lemma StepKeeps(c: Config, s: Sys, t: Tid, a: Action)
    requires Inv(c, s) && Enabled(s, t, a)
    ensures Safe(c, s, t, a) && Inv(c, Apply(c, s, t, a))
  {
    hide Inv, Safe, Enabled, Apply;
    if ReaderAction(a) { ReaderStep(c, s, t, a); } else { WriterStep(c, s, t, a); }
  }

  // ---------- runs ----------

  /** A step that breaks an assumption of the code may do anything at all. */
  ghost predicate Step(c: Config, s: Sys, s': Sys, t: Tid, a: Action) {
    && Enabled(s, t, a)
    && (Safe(c, s, t, a) ==> s' == Apply(c, s, t, a))
  }

  datatype Event = Event(t: Tid, a: Action)

  ghost predicate Run(c: Config, states: seq<Sys>, events: seq<Event>) {
    && |states| == |events| + 1
    && Init(states[0])
    && forall i :: 0 <= i < |events| ==> Step(c, states[i], states[i + 1], events[i].t, events[i].a)
  }

  /** In every run the code's assumptions hold at each step, and each state satisfies the invariant. */
  lemma {:induction false} RunsAreSafe(c: Config, states: seq<Sys>, events: seq<Event>, n: nat)
    requires Run(c, states, events) && n <= |events|
    ensures Inv(c, states[n])
    ensures forall i :: 0 <= i < n ==> Safe(c, states[i], events[i].t, events[i].a)
  {
    hide Inv, Safe, Enabled, Apply;
    if n == 0 {
      InitInv(c, states[0]);
    } else {
      RunsAreSafe(c, states, events, n - 1);
      assert Step(c, states[n - 1], states[n - 1 + 1], events[n - 1].t, events[n - 1].a);
      StepKeeps(c, states[n - 1], events[n - 1].t, events[n - 1].a);
    }
  }

  ghost predicate Reachable(c: Config, s: Sys) {
    exists states, events :: Run(c, states, events) && states[|states| - 1] == s
  }

  lemma ReachableInv(c: Config, s: Sys)
    requires Reachable(c, s)
    ensures Inv(c, s)
  {
    hide Inv, Safe;
    var states, events :| Run(c, states, events) && states[|states| - 1] == s;
    RunsAreSafe(c, states, events, |events|);
  }

  // ---------- exclusion ----------

  /** The lock is the writer's from the moment another coroutine takes it out of the queue for it. */
  ghost predicate OwnsExclusively(p: Phase) { IsOwner(p) }

  ghost predicate OwnsShared(p: Phase) { IsAdmitted(p) }

  lemma Exclusion(c: Config, s: Sys, t: Tid, u: Tid)
    requires Reachable(c, s) && t in s.pc && u in s.pc && t != u && OwnsExclusively(s.pc[t])
    ensures !OwnsExclusively(s.pc[u]) && !OwnsShared(s.pc[u])
  {
    ReachableInv(c, s);
    OwnerAlone(c, s, t, u);
  }

  lemma OwnerAlone(c: Config, s: Sys, t: Tid, u: Tid)
    requires Inv(c, s) && t in s.pc && u in s.pc && t != u && IsOwner(s.pc[t])
    ensures !IsOwner(s.pc[u]) && !IsAdmitted(s.pc[u])
  {
    hide N, Of, Hands, Queues, Locking, Locals, Word, Waiting, Prio;
    Present(s.pc, IsOwner, t);
    if IsOwner(s.pc[u]) { TwoPresent(s.pc, IsOwner, t, u); }
    if IsAdmitted(s.pc[u]) { Present(s.pc, IsAdmitted, u); }
  }

  // ---------- the hand-over to the first writer is unique ----------

  /** While the last reader is on its way to run the first writer there is one such reader, one such
      writer, `_writers_first` points to it, and nobody owns the lock, waits to be counted or can get it. */
  lemma HandOverUnique(c: Config, s: Sys, t: Tid)
    requires Reachable(c, s) && In(s, t, SharedWakes)
    ensures WakeFirstSafe(s)
    ensures forall u :: In(s, u, SharedWakes) ==> u == t
    ensures forall u :: In(s, u, ExclWaits) ==> s.m.writersFirst == Some(u)
    ensures forall u :: u in s.pc ==> !IsOwner(s.pc[u]) && !IsAdmitted(s.pc[u]) && !IsLeaving(s.pc[u]) && !IsFirst(s.pc[u])
    ensures s.m.readersPass == 0 && s.m.readersWait == 0 && Writers(s.m.state) >= 1
  {
    ReachableInv(c, s);
    WakeFirstKeeps(c, s, t);
    WakingNumbers(c, s, t);
    forall u | u in s.pc
      ensures In(s, u, SharedWakes) ==> u == t
      ensures In(s, u, ExclWaits) ==> s.m.writersFirst == Some(u)
      ensures !IsOwner(s.pc[u]) && !IsAdmitted(s.pc[u]) && !IsLeaving(s.pc[u]) && !IsFirst(s.pc[u])
    {
      WakingOthers(c, s, t, u);
    }
  }

  lemma WakingNumbers(c: Config, s: Sys, t: Tid)
    requires Inv(c, s) && In(s, t, SharedWakes)
    ensures var k := K(s); k.wakes == 1 && k.waits == 1 && k.owners == 0 && k.firsts == 0 && k.admitted == 0 && k.leaving == 0
    ensures s.m.readersPass == 0 && s.m.readersWait == 0 && Writers(s.m.state) >= 1
  {
    hide N, Of, Hands, Queues, Locking, Locals, TallyOf, Shift;
    TallyPresent(s.pc, t);
    Unpack(s.m.state, CountedWriters(K(s)), CountedReaders(K(s)));
  }

  lemma WakingOthers(c: Config, s: Sys, t: Tid, u: Tid)
    requires Inv(c, s) && In(s, t, SharedWakes) && u in s.pc
    ensures In(s, u, SharedWakes) ==> u == t
    ensures In(s, u, ExclWaits) ==> s.m.writersFirst == Some(u)
    ensures !IsOwner(s.pc[u]) && !IsAdmitted(s.pc[u]) && !IsLeaving(s.pc[u]) && !IsFirst(s.pc[u])
  {
    hide N, Of, Hands, Queues, Locking, Numbers;
    WakingNumbers(c, s, t);
    assert LocalsOk(c, K(s), s, u);
    TallyPresent(s.pc, u);
    if IsWaking(s.pc[u]) && u != t { TwoPresent(s.pc, IsWaking, t, u); }
  }

  /** The value of `_readers_wait` modulo 2^32, before and after the first writer adds the readers it counted. */
  lemma ReadersWaitMeaning(c: Config, s: Sys, w: Tid)
    requires Reachable(c, s) && w in s.pc && (IsFirst(s.pc[w]) || IsWaiting(s.pc[w]))
    ensures Ahead(K(s), s.m) < U32 && w in s.saved
    ensures s.m.readersWait == (if IsFirst(s.pc[w]) then Ahead(K(s), s.m) - s.saved[w] else Ahead(K(s), s.m)) % U32
  {
    hide Inv, N, Of, TallyOf, Pending, Ahead;
    ReachableInv(c, s);
    FirstKnows(c, s, w);
    if IsFirst(s.pc[w]) { PendingMod(K(s), s.m, s.saved[w]); }
  }

  lemma FirstKnows(c: Config, s: Sys, w: Tid)
    requires Inv(c, s) && w in s.pc
    ensures 0 <= Ahead(K(s), s.m) < U32 && w in s.saved
    ensures IsFirst(s.pc[w]) ==> Pending(K(s), s.m, s.saved[w])
    ensures IsWaiting(s.pc[w]) ==> s.m.readersWait == Ahead(K(s), s.m) % U32
  {
    hide Numbers, Hands, Queues, Locking, N, Of, TallyOf, Pending, Departing, Ahead;
    assert LocalsOk(c, K(s), s, w);
    AheadFits(s.pc);
    TallyPresent(s.pc, w);
    WaitingMeans(c, K(s), s.m);
  }

  lemma WaitingMeans(c: Config, k: Tally, m: Fields)
    requires Numbers(c, k, m) && Natural(k) && k.admitted + k.flying + k.leaving < U32
    ensures 0 <= Ahead(k, m) < U32
    ensures k.waits >= 1 ==> m.readersWait == Ahead(k, m) % U32
  {
    hide Word, Owning, Prio;
    PassesFit(k, m);
  }

  lemma PassesFit(k: Tally, m: Fields)
    requires Token(k, m) && k.admitted + k.flying + k.leaving < U32
    ensures Ahead(k, m) < U32
  {
  }

  lemma PendingMod(k: Tally, m: Fields, r: nat)
    requires Pending(k, m, r) && 0 <= Ahead(k, m)
    ensures m.readersWait == (Ahead(k, m) - r) % U32
  {
  }

  // ---------- accounting ----------

  /** The packed word, token and queue counters in terms of who is where. */
  lemma Accounting(c: Config, s: Sys)
    requires Reachable(c, s)
    ensures Writers(s.m.state)
         == N(s.pc, IsOwner) + N(s.pc, IsFirst) + N(s.pc, IsWaiting) + |s.m.writers| + N(s.pc, IsEnqueuing)
    ensures Readers(s.m.state) == N(s.pc, IsAdmitted) + |s.m.readers| + N(s.pc, IsFlying)
    ensures s.lock == Free ==> N(s.pc, IsEnqueuing) == 0 && N(s.pc, IsLeaver) == 0
    ensures N(s.pc, IsOwner) + N(s.pc, IsFirst) + N(s.pc, IsWaiting) + N(s.pc, IsLeaver) <= 1
    ensures s.m.readersSize == |s.m.readers|
    ensures s.m.readersPass <= N(s.pc, IsFlying)
    ensures N(s.pc, IsOwner) + N(s.pc, IsFirst) + N(s.pc, IsWaiting) + N(s.pc, IsLeaver) == 0 ==>
              s.m.readersPass == N(s.pc, IsFlying) && s.m.readers == [] && s.m.writers == [] && Writers(s.m.state) == 0
    ensures N(s.pc, IsOwner) == 1 ==> s.m.readersPass == 0 && s.m.readersWait == 0
  {
    ReachableInv(c, s);
    AccountingOf(c, s);
    if s.lock == Free {
      Nobody(s.pc, IsEnqueuing);
      Nobody(s.pc, IsLeaver);
    }
  }

  lemma AccountingOf(c: Config, s: Sys)
    requires Inv(c, s)
    ensures var k := K(s);
      && Writers(s.m.state) == k.owners + k.firsts + k.waits + |s.m.writers| + k.enqueues
      && Readers(s.m.state) == k.admitted + |s.m.readers| + k.flying
      && k.owners + k.firsts + k.waits + k.leavers <= 1
      && s.m.readersSize == |s.m.readers|
      && s.m.readersPass <= k.flying
      && (k.owners + k.firsts + k.waits + k.leavers == 0 ==>
            s.m.readersPass == k.flying && s.m.readers == [] && s.m.writers == [] && Writers(s.m.state) == 0)
      && (k.owners == 1 ==> s.m.readersPass == 0 && s.m.readersWait == 0)
  {
    hide N, Of, Hands, Queues, Locking, Locals, TallyOf;
    Unpack(s.m.state, CountedWriters(K(s)), CountedReaders(K(s)));
  }

  // ---------- nobody is forgotten ----------

  ghost predicate Suspends(p: Phase) {
    p == SharedQueued || p == SharedHanded || p == ExclQueued || p == ExclHanded || p == ExclWaits
  }

  /** A coroutine that is neither idle nor suspended has a step as soon as the spinlock is free; while
      the spinlock is taken, whoever holds it has one. */
  lemma RunnerSteps(s: Sys, u: Tid) returns (v: Tid, a: Action)
    requires Shape(s) && Locking(s) && u in s.pc && s.pc[u] != Idle && !Suspends(s.pc[u])
    ensures Enabled(s, v, a) && (v == u || s.lock == Held(v) || a == ReleaseOp)
  {
    v := u;
    match s.pc[u]
    case SharedTrying => a := TryLockSharedCasOp(false);
    case SharedHasLock => a := SharedBodyOp;
    case SharedHeld => a := UnlockSharedOp;
    case SharedLeaving => a := UnlockSharedDecOp;
    case SharedWakes => a := WakeFirstOp;
    case ExclTrying => a := LockCasOp;
    case ExclTryingAwait => a := LockCasOp;
    case ExclHasLock => a := CountOp;
    case ExclFirst => a := PlaceFirstOp;
    case ExclAdds => a := AddReadersOp;
    case ExclEnqueues => a := PlaceQueuedOp;
    case ExclHeld => a := UnlockOp;
    case ExclSlowLocked => a := SlowSubOp;
    case ExclLeft => a := SlowChooseOp;
    case ExclMoves => a := SlowMoveOp;
    case ExclWakes => a := WakeWriterOp;
    case Drains => a := DrainOneOp;
    case SharedInFlight => if s.lock == Free { a := SharedSpinOp; } else { v, a := SpinlockSteps(s, u); }
    case ExclWants => if s.lock == Free { a := SpinOp; } else { v, a := SpinlockSteps(s, u); }
    case ExclSlow => if s.lock == Free { a := SlowSpinOp; } else { v, a := SpinlockSteps(s, u); }
  }

  lemma SpinlockSteps(s: Sys, u: Tid) returns (v: Tid, a: Action)
    requires Locking(s) && u in s.pc && s.lock != Free
    ensures Enabled(s, v, a) && (s.lock == Held(v) || a == ReleaseOp)
  {
    v := u;
    if s.lock == Releasing {
      a := ReleaseOp;
    } else {
      v := s.lock.holder;
      a := HolderSteps(s, v);
    }
  }

  lemma HolderSteps(s: Sys, v: Tid) returns (a: Action)
    requires Locking(s) && v in s.pc && s.lock == Held(v)
    ensures Enabled(s, v, a) && s.pc[v] != Idle
  {
    assert UnderLock(s.pc[v]);
    match s.pc[v]
    case SharedHasLock => a := SharedBodyOp;
    case ExclHasLock => a := CountOp;
    case ExclFirst => a := PlaceFirstOp;
    case ExclAdds => a := AddReadersOp;
    case ExclEnqueues => a := PlaceQueuedOp;
    case ExclSlowLocked => a := SlowSubOp;
    case ExclLeft => a := SlowChooseOp;
    case ExclMoves => a := SlowMoveOp;
  }

  /** `w` is the coroutine that `u` waits for: one whose hands it is in; for the first writer, a reader that was
      counted before it, or the one who has such a reader in its hands; for a queued one, the owner, the first
      writer or the unlocking writer `h`, or whom that one waits for. */
  ghost predicate WaitsFor(s: Sys, u: Tid, h: Tid, w: Tid)
    requires Shape(s) && u in s.pc
  {
    match s.pc[u]
    case SharedQueued => h in s.pc && IsToken(s.pc[h]) && (w == h || WaitsNext(s, h, w))
    case ExclQueued => h in s.pc && IsToken(s.pc[h]) && (w == h || WaitsNext(s, h, w))
    case _ => WaitsNext(s, u, w)
  }

  ghost predicate WaitsNext(s: Sys, u: Tid, w: Tid)
    requires Shape(s) && u in s.pc
  {
    match s.pc[u]
    case SharedHanded => w == s.hands[u]
    case ExclHanded => w == s.hands[u]
    case ExclWaits => w in s.pc && (IsReading(s.pc[w]) || HasReader(s, w))
    case _ => false
  }

  /** A reader that has to leave, or to get through, before the first writer may run. */
  predicate IsReading(p: Phase) { p == SharedHeld || IsWaking(p) || IsLeaving(p) || IsFlying(p) }

  ghost predicate HasReader(s: Sys, w: Tid)
    requires Shape(s)
  {
    exists r :: r in s.pc && s.pc[r] == SharedHanded && s.hands[r] == w
  }

  /** Whenever a coroutine is suspended, the one that it waits for is running: it can take a step, or the
      spinlock is taken and whoever has it can. */
  lemma NobodyForgotten(c: Config, s: Sys, u: Tid) returns (h: Tid, w: Tid, v: Tid, a: Action)
    requires Reachable(c, s) && u in s.pc && Suspends(s.pc[u])
    ensures Shape(s) && WaitsFor(s, u, h, w) && Runs(s, w)
    ensures Enabled(s, v, a) && (v == w || s.lock == Held(v) || a == ReleaseOp)
  {
    hide Inv, Hands, WaitsFor, Shape;
    ReachableInv(c, s);
    h, w := SomeoneRuns(c, s, u);
    InvHands(c, s);
    v, a := RunnerSteps(s, w);
  }

  ghost predicate Runs(s: Sys, w: Tid) {
    w in s.pc && s.pc[w] != Idle && !Suspends(s.pc[w])
  }

  lemma InvHands(c: Config, s: Sys)
    requires Inv(c, s)
    ensures Shape(s) && Hands(s) && Locking(s)
  {
  }

  lemma SomeoneRuns(c: Config, s: Sys, u: Tid) returns (h: Tid, w: Tid)
    requires Inv(c, s) && u in s.pc && Suspends(s.pc[u])
    ensures Shape(s) && Runs(s, w) && WaitsFor(s, u, h, w)
  {
    hide Inv, Hands, IsToken, HasReader, Shape;
    InvHands(c, s);
    h := u;
    if s.pc[u] == SharedHanded || s.pc[u] == ExclHanded {
      w := HandRuns(s, u);
    } else if s.pc[u] == ExclWaits {
      w := AwaitedRuns(c, s, u);
    } else {
      h, w := QueuedRuns(c, s, u);
    }
  }

  lemma QueuedRuns(c: Config, s: Sys, u: Tid) returns (h: Tid, w: Tid)
    requires Inv(c, s) && u in s.pc && (s.pc[u] == SharedQueued || s.pc[u] == ExclQueued)
    ensures Shape(s) && Runs(s, w) && h in s.pc && IsToken(s.pc[h]) && (w == h || WaitsNext(s, h, w))
  {
    hide Inv, Hands, IsToken, HasReader, Shape, Suspends;
    InvHands(c, s);
    RunningPhases();
    h := TokenHolder(c, s, u);
    if s.pc[h] == ExclHanded { w := HandRuns(s, h); }
    else if s.pc[h] == ExclWaits { w := AwaitedRuns(c, s, h); }
    else { w := h; }
  }

  lemma HandRuns(s: Sys, u: Tid) returns (w: Tid)
    requires Shape(s) && Hands(s) && u in s.pc && (s.pc[u] == SharedHanded || s.pc[u] == ExclHanded)
    ensures Runs(s, w) && w == s.hands[u]
  {
    assert HandOk(s, u);
    w := s.hands[u];
  }

  lemma TokenHolder(c: Config, s: Sys, u: Tid) returns (v: Tid)
    requires Inv(c, s) && u in s.pc && (s.pc[u] == SharedQueued || s.pc[u] == ExclQueued)
    ensures v in s.pc && IsToken(s.pc[v])
  {
    hide N, Of, Locking, Queues, Locals, Hands, Word, Owning, Waiting, Prio;
    TallyPresent(s.pc, u);
    if N(s.pc, IsOwner) >= 1 { v := Witness(s.pc, IsOwner); }
    else if N(s.pc, IsFirst) >= 1 { v := Witness(s.pc, IsFirst); }
    else if N(s.pc, IsWaiting) >= 1 { v := Witness(s.pc, IsWaiting); }
    else { v := Witness(s.pc, IsLeaver); }
  }

  lemma RunningPhases()
    ensures !Suspends(SharedWakes) && !Suspends(SharedLeaving) && !Suspends(SharedInFlight)
    ensures !Suspends(SharedHasLock) && !Suspends(SharedHeld)
    ensures forall p :: IsToken(p) ==> p == ExclHanded || p == ExclWaits || (!Suspends(p) && p != Idle)
  {
  }

  /** The first writer waits for some reader. */
  lemma AwaitedSomebody(c: Config, s: Sys, u: Tid)
    requires Inv(c, s) && u in s.pc && s.pc[u] == ExclWaits
    ensures N(s.pc, IsWaking) + N(s.pc, IsLeaving) + N(s.pc, IsFlying) + N(s.pc, IsAdmitted) >= 1
  {
    hide N, Of, Hands, Locking, Queues, Locals, Word, Owning, Prio;
    TallyPresent(s.pc, u);
  }

  lemma AwaitedRuns(c: Config, s: Sys, u: Tid) returns (w: Tid)
    requires Inv(c, s) && u in s.pc && s.pc[u] == ExclWaits
    ensures Shape(s) && Runs(s, w) && WaitsNext(s, u, w)
  {
    hide N, Of, Inv, Hands, Shape, Suspends, Runs, WaitsNext;
    AwaitedSomebody(c, s, u);
    InvHands(c, s);
    if N(s.pc, IsWaking) >= 1 { w := Witness(s.pc, IsWaking); RunsForFirst(s, u, w); }
    else if N(s.pc, IsLeaving) >= 1 { w := Witness(s.pc, IsLeaving); RunsForFirst(s, u, w); }
    else if N(s.pc, IsFlying) >= 1 { w := Witness(s.pc, IsFlying); RunsForFirst(s, u, w); }
    else { w := Witness(s.pc, IsAdmitted); w := AdmittedRuns(s, u, w); }
  }

  lemma RunsForFirst(s: Sys, u: Tid, w: Tid)
    requires Shape(s) && u in s.pc && s.pc[u] == ExclWaits && w in s.pc
    requires IsWaking(s.pc[w]) || IsLeaving(s.pc[w]) || IsFlying(s.pc[w]) || s.pc[w] == SharedHeld
    ensures Runs(s, w) && WaitsNext(s, u, w)
  {
    RunningPhases();
    hide Shape;
  }

  lemma AdmittedRuns(s: Sys, u: Tid, v: Tid) returns (w: Tid)
    requires Shape(s) && Hands(s) && u in s.pc && s.pc[u] == ExclWaits && v in s.pc && IsAdmitted(s.pc[v])
    ensures Runs(s, w) && WaitsNext(s, u, w)
  {
    hide Hands;
    if s.pc[v] == SharedHanded {
      w := HandRuns(s, v);
    } else {
      w := v;
      RunsForFirst(s, u, v);
    }
  }
}
