/** Every step of every coroutine keeps the invariant of SharedMutex. */
module SharedMutexSteps {
  import opened Common
  import opened Census
  import opened SharedMutexCode
  import opened SharedMutexRuns
  import opened SharedMutexInvariant
  import opened SharedMutexNumbers

  ghost function K(s: Sys): Tally { TallyOf(s.pc) }

  // ---------- there is one writer token and one spinlock ----------

  predicate IsToken(p: Phase) { IsOwner(p) || IsFirst(p) || IsWaiting(p) || IsLeaver(p) }

  lemma TokenUnique(c: Config, s: Sys, t: Tid, u: Tid)
    requires Inv(c, s) && t in s.pc && u in s.pc && IsToken(s.pc[t]) && IsToken(s.pc[u])
    ensures t == u
  {
    hide N, Of, Locals, Hands, Queues, Locking, Word, Owning, Waiting, Prio;
    if t != u {
      TokenTwice(s.pc, t, u);
    }
  }

  lemma TokenTwice(pc: map<Tid, Phase>, t: Tid, u: Tid)
    requires t in pc && u in pc && t != u && IsToken(pc[t]) && IsToken(pc[u])
    ensures N(pc, IsOwner) + N(pc, IsFirst) + N(pc, IsWaiting) + N(pc, IsLeaver) >= 2
  {
    TwoPresent(pc, IsToken, t, u);
    ThreeSum(pc, IsOwner, IsFirst, IsWaiting, IsAheadWriter);
    ThreeSum(pc, IsAheadWriter, IsLeaver, _ => false, IsToken);
    Nobody(pc, _ => false);
  }

  lemma AloneUnderLock(s: Sys, t: Tid)
    requires Locking(s) && t in s.pc && UnderLock(s.pc[t])
    ensures !IsLeaver(s.pc[t]) ==> K(s).leavers == 0
    ensures !IsEnqueuing(s.pc[t]) ==> K(s).enqueues == 0
  {
    if !IsLeaver(s.pc[t]) { Nobody(s.pc, IsLeaver); }
    if !IsEnqueuing(s.pc[t]) { Nobody(s.pc, IsEnqueuing); }
  }

  /** What a leaving writer, if there is one, knows. */
  lemma SomeLeaver(c: Config, s: Sys) returns (moves: bool, before: nat)
    requires Inv(c, s)
    ensures K(s).leavers >= 1 ==> Departing(c, K(s), s.m, moves, before)
  {
    hide N, Of, Hands, Queues, Locking, Numbers, Departing, Pending;
    moves, before := false, 0;
    if N(s.pc, IsLeaver) >= 1 {
      var u := Witness(s.pc, IsLeaver);
      assert LocalsOk(c, K(s), s, u);
      before := s.saved[u];
      if s.pc[u] == ExclMoves { moves := true; }
    }
  }

  /** What a first writer that has not added its readers yet, if there is one, knows. */
  lemma SomeFirst(c: Config, s: Sys) returns (r: nat)
    requires Inv(c, s)
    ensures K(s).firsts >= 1 ==> Pending(K(s), s.m, r)
  {
    hide N, Of, Hands, Queues, Locking, Numbers, Pending;
    r := 0;
    if N(s.pc, IsFirst) >= 1 {
      var u := Witness(s.pc, IsFirst);
      assert LocalsOk(c, K(s), s, u);
      r := s.saved[u];
    }
  }

  // ---------- steps that touch no queue ----------

  /** A phase in which a coroutine is neither handed over nor handing over. */
  ghost predicate Handless(p: Phase) {
    p != SharedHanded && p != ExclHanded && p != Drains && p != ExclWakes
  }

  /** Nor suspended in a queue. */
  ghost predicate Loose(p: Phase) {
    Handless(p) && !IsQueued(p) && !IsWriterQueued(p)
  }

  /** `s` after coroutine `t`, and nobody else, went to phase `q`, with new data and a new local. */
  function Go(s: Sys, t: Tid, q: Phase, m: Fields, lock: Lock, x: nat): Sys {
    s.(m := m, lock := lock, pc := s.pc[t := q], saved := s.saved[t := x])
  }

  ghost predicate SameQueues(m: Fields, m': Fields) {
    m'.readers == m.readers && m'.writers == m.writers
  }

  /** The lock changes hands consistently with the phases of `t`. */
  ghost predicate LockMove(s: Sys, t: Tid, q: Phase, lock: Lock)
    requires t in s.pc
  {
    || (lock == s.lock && (UnderLock(q) <==> UnderLock(s.pc[t])))
    || (s.lock == Free && lock == Held(t) && UnderLock(q))
    || (UnderLock(s.pc[t]) && !lock.Held? && !UnderLock(q))
  }

  lemma LooseQueues(s: Sys, t: Tid, q: Phase, m: Fields, lock: Lock, x: nat)
    requires t in s.pc && Loose(s.pc[t]) && Loose(q) && SameQueues(s.m, m) && Queues(s)
    ensures Queues(Go(s, t, q, m, lock, x))
  {
    assert Of(s.pc[t := q], IsQueued) == Of(s.pc, IsQueued);
    assert Of(s.pc[t := q], IsWriterQueued) == Of(s.pc, IsWriterQueued);
  }

  lemma LooseHands(s: Sys, t: Tid, q: Phase, m: Fields, lock: Lock, x: nat)
    requires Shape(s) && t in s.pc && Handless(s.pc[t]) && Handless(q) && Hands(s)
    ensures Hands(Go(s, t, q, m, lock, x))
  {
    var s' := Go(s, t, q, m, lock, x);
    forall u | u in s'.pc ensures HandOk(s', u) {
      assert HandOk(s, u);
      if u != t && s.pc[u] == Drains {
        forall r | r in s'.drain[u] ensures HandedTo(s', r, u) { assert HandedTo(s, r, u); }
      }
    }
  }

  lemma LooseLocking(s: Sys, t: Tid, q: Phase, m: Fields, lock: Lock, x: nat)
    requires Locking(s) && t in s.pc && LockMove(s, t, q, lock)
    ensures Locking(Go(s, t, q, m, lock, x))
  {
  }

  /** What a coroutine other than `t` knows survives a step of `t`. */
  lemma OthersKeep(c: Config, s: Sys, k': Tally, s': Sys, t: Tid, u: Tid)
    requires Inv(c, s) && Shape(s') && t in s.pc && u in s.pc && u in s'.pc && u != t
    requires s'.pc[u] == s.pc[u] && s'.saved[u] == s.saved[u]
    requires IsToken(s.pc[t]) || (s'.m.writersFirst == s.m.writersFirst && Carries(c, K(s), s.m, k', s'.m))
    ensures LocalsOk(c, k', s', u)
  {
    hide N, Of, Hands, Queues, Locking, Numbers, Departing, Pending;
    assert LocalsOk(c, K(s), s, u);
    if IsToken(s.pc[u]) && IsToken(s.pc[t]) { TokenUnique(c, s, t, u); }
    if IsFirst(s.pc[u]) { Present(s.pc, IsFirst, u); }
    if IsLeaver(s.pc[u]) { Present(s.pc, IsLeaver, u); }
  }

  /** What LocalsOk says, of one coroutine that goes to phase `q` with local `x`. */
  ghost predicate LocalOk(c: Config, k: Tally, m: Fields, t: Tid, q: Phase, x: nat) {
    && (q == ExclFirst ==> Pending(k, m, x))
    && (q == ExclAdds ==> Pending(k, m, x) && x != 0)
    && (q == ExclAdds || q == ExclWaits ==> m.writersFirst == Some(t))
    && (q == ExclLeft ==> Departing(c, k, m, false, x))
    && (q == ExclMoves ==> Departing(c, k, m, true, x))
    && (q == SharedTrying ==> Writers(x) == 0)
  }

  /** A loose step keeps the invariant when it keeps the numbers. */
  lemma LooseStep(c: Config, s: Sys, t: Tid, q: Phase, m: Fields, lock: Lock, x: nat)
    requires Inv(c, s) && t in s.pc && Loose(s.pc[t]) && Loose(q) && SameQueues(s.m, m) && LockMove(s, t, q, lock)
    requires Numbers(c, Shift(K(s), s.pc[t], q), m)
    requires IsToken(s.pc[t])
          || (m.writersFirst == s.m.writersFirst && Carries(c, K(s), s.m, Shift(K(s), s.pc[t], q), m))
    requires LocalOk(c, Shift(K(s), s.pc[t], q), m, t, q, x)
    ensures Inv(c, Go(s, t, q, m, lock, x))
  {
    hide N, Of, Hands, Queues, Locking, Numbers, LocalsOk, LocalOk, Carries, TallyOf, Shift, LockMove;
    var s' := Go(s, t, q, m, lock, x);
    LooseQueues(s, t, q, m, lock, x);
    LooseHands(s, t, q, m, lock, x);
    LooseLocking(s, t, q, m, lock, x);
    TallyMoved(s.pc, t, q);
    assert LocalsOk(c, K(s'), s', t) by { LocalIs(c, K(s'), s', t); }
    forall u | u in s'.pc ensures LocalsOk(c, K(s'), s', u) {
      if u != t { OthersKeep(c, s, K(s'), s', t, u); }
    }
  }

  lemma LocalIs(c: Config, k: Tally, s: Sys, t: Tid)
    requires Shape(s) && t in s.pc && LocalOk(c, k, s.m, t, s.pc[t], s.saved[t])
    ensures LocalsOk(c, k, s, t)
  {
    hide Pending, Departing, Writers;
  }

  lemma LocalNone(c: Config, k: Tally, s: Sys, t: Tid)
    requires Shape(s) && t in s.pc && !IsFirst(s.pc[t]) && !IsWaiting(s.pc[t]) && !IsLeaver(s.pc[t]) && s.pc[t] != SharedTrying
    ensures LocalsOk(c, k, s, t)
  {
    hide Pending, Departing, Writers;
  }

  lemma LocalSame(c: Config, k: Tally, s: Sys, s': Sys, u: Tid)
    requires Shape(s) && Shape(s') && u in s.pc && u in s'.pc && s'.m == s.m
    requires s'.pc[u] == s.pc[u] && s'.saved[u] == s.saved[u]
    requires LocalsOk(c, k, s, u)
    ensures LocalsOk(c, k, s', u)
  {
    hide Pending, Departing, Writers;
  }

  lemma NoSave(s: Sys, t: Tid)
    requires Shape(s) && t in s.pc
    ensures s.saved[t := s.saved[t]] == s.saved
  {
  }

  /** A step that changes neither the data nor the population of any counted kind. */
  lemma SilentStep(c: Config, s: Sys, t: Tid, q: Phase, lock: Lock, x: nat)
    requires Inv(c, s) && t in s.pc && Loose(s.pc[t]) && Loose(q) && LockMove(s, t, q, lock)
    requires Shift(K(s), s.pc[t], q) == K(s)
    requires q == SharedTrying ==> Writers(x) == 0
    requires !IsFirst(q) && !IsWaiting(q) && !IsLeaver(q)
    ensures Inv(c, Go(s, t, q, s.m, lock, x))
  {
    hide N, Of, Hands, Queues, Locking, Locals, Numbers, TallyOf, Shift, Pending, Departing, Loose, LockMove;
    LooseStep(c, s, t, q, s.m, lock, x);
  }

  /** A coroutine that nobody counts, outside of the spinlock. */
  ghost predicate Unnoticed(p: Phase) {
    p == Idle || p == SharedTrying || p == ExclTrying || p == ExclTryingAwait || p == ExclWants
  }

  ghost predicate Counted(p: Phase) {
    IsAdmitted(p) || IsFlying(p) || IsQueued(p) || IsLeaving(p) || IsWaking(p) || IsOwner(p) || IsSlow(p) || IsFirst(p) ||
    IsWaiting(p) || IsLeaver(p) || IsWriterQueued(p) || IsEnqueuing(p)
  }

  lemma UnnoticedPhase(p: Phase)
    requires Unnoticed(p)
    ensures !Counted(p) && Loose(p) && !UnderLock(p)
  {
  }

  lemma UncountedShift(k: Tally, p: Phase, q: Phase)
    requires !Counted(p) && !Counted(q)
    ensures Shift(k, p, q) == k && !IsFirst(q) && !IsWaiting(q) && !IsLeaver(q)
  {
    hide IsAdmitted, IsFlying, IsQueued, IsLeaving, IsWaking, IsOwner, IsSlow, IsFirst, IsWaiting, IsLeaver,
      IsWriterQueued, IsEnqueuing;
  }

  lemma UnnoticedStep(c: Config, s: Sys, t: Tid, q: Phase, x: nat)
    requires Inv(c, s) && t in s.pc && Unnoticed(s.pc[t]) && Unnoticed(q) && (q == SharedTrying ==> Writers(x) == 0)
    ensures Inv(c, Go(s, t, q, s.m, s.lock, x))
  {
    hide Inv, K, Go, Counted;
    UnnoticedPhase(s.pc[t]);
    UnnoticedPhase(q);
    UncountedShift(K(s), s.pc[t], q);
    hide Shift, Loose, Unnoticed, IsFirst, IsWaiting, IsLeaver, UnderLock;
    SilentStep(c, s, t, q, s.lock, x);
  }

  // ---------- readers ----------

  lemma LockSharedKeeps(c: Config, s: Sys, t: Tid)
    requires Inv(c, s) && t in s.pc && s.pc[t] == Idle
    ensures Inv(c, LockShared(s, t))
  {
    hide N, Of, Hands, Queues, Locking, Locals, Numbers, Carries, TallyOf, Shift, Departing, Pending;
    NoSave(s, t);
    if Writers(s.m.state) == 0 {
      Roomy(s, t, SharedHeld);
      AdmitReaderNumbers(c, K(s), s.m, Idle);
      LooseStep(c, s, t, SharedHeld, CountReader(s.m).0, s.lock, s.saved[t]);
    } else {
      Roomy(s, t, SharedInFlight);
      FlyReaderNumbers(c, K(s), s.m);
      LooseStep(c, s, t, SharedInFlight, CountReader(s.m).0, s.lock, s.saved[t]);
    }
  }

  /** There is room in the word for one more reader or writer. */
  lemma Roomy(s: Sys, t: Tid, q: Phase)
    requires |s.pc| < U32 && t in s.pc && Uncounted(s.pc[t])
    ensures q == SharedHeld || q == SharedInFlight ==> CountedReaders(K(s)) + 1 < U32
    ensures q == ExclFirst ==> CountedWriters(K(s)) + 1 < U32
  {
    TallyMoved(s.pc, t, q);
    ReadersFit(s.pc[t := q]);
    WritersFit(s.pc[t := q]);
  }

  lemma TryLockSharedLoadKeeps(c: Config, s: Sys, t: Tid)
    requires Inv(c, s) && t in s.pc && s.pc[t] == Idle
    ensures Inv(c, TryLockSharedLoad(s, t))
  {
    hide N, Of, Hands, Queues, Locking, Locals, Numbers, TallyOf;
    if Writers(s.m.state) == 0 { UnnoticedStep(c, s, t, SharedTrying, s.m.state); }
  }

  lemma TryLockSharedTakesKeeps(c: Config, s: Sys, t: Tid)
    requires Inv(c, s) && t in s.pc && s.pc[t] == SharedTrying && s.m.state == s.saved[t]
    ensures Inv(c, TryLockSharedCas(s, t, false))
  {
    hide N, Of, Hands, Queues, Locking, Numbers, Carries, TallyOf, Pending, Departing;
    NoSave(s, t);
    assert LocalsOk(c, K(s), s, t);
    Roomy(s, t, SharedHeld);
    AdmitReaderNumbers(c, K(s), s.m, SharedTrying);
    LooseStep(c, s, t, SharedHeld, CountReader(s.m).0, s.lock, s.saved[t]);
  }

  lemma TryLockSharedCasKeeps(c: Config, s: Sys, t: Tid, spurious: bool)
    requires Inv(c, s) && t in s.pc && s.pc[t] == SharedTrying
    ensures Inv(c, TryLockSharedCas(s, t, spurious))
  {
    hide N, Of, Hands, Queues, Locking, Locals, Numbers, Carries, TallyOf, Pending, Departing;
    if !spurious && s.m.state == s.saved[t] {
      TryLockSharedTakesKeeps(c, s, t);
    } else if Writers(s.m.state) != 0 {
      NoSave(s, t);
      UnnoticedStep(c, s, t, Idle, s.saved[t]);
    } else {
      UnnoticedStep(c, s, t, SharedTrying, s.m.state);
      assert s.pc[t := SharedTrying] == s.pc;
    }
  }

  lemma SpinningPhases(k: Tally)
    ensures Loose(SharedInFlight) && Loose(SharedHasLock) && Shift(k, SharedInFlight, SharedHasLock) == k
    ensures Loose(ExclWants) && Loose(ExclHasLock) && Shift(k, ExclWants, ExclHasLock) == k
    ensures UnderLock(SharedHasLock) && UnderLock(ExclHasLock)
  {
  }

  lemma GetSpinlockKeeps(c: Config, s: Sys, t: Tid, p: Phase)
    requires Inv(c, s) && t in s.pc && s.lock == Free
    requires (s.pc[t] == SharedInFlight && p == SharedHasLock) || (s.pc[t] == ExclWants && p == ExclHasLock)
    ensures Inv(c, GetSpinlock(s, t, p))
  {
    hide N, Of, Hands, Queues, Locking, Locals, Numbers, TallyOf;
    SpinningPhases(K(s));
    hide Shift, Loose, UnderLock, K;
    NoSave(s, t);
    SilentStep(c, s, t, p, Held(t), s.saved[t]);
  }

  lemma TakePassKeeps(c: Config, s: Sys, t: Tid)
    requires Inv(c, s) && t in s.pc && s.pc[t] == SharedHasLock && s.m.readersPass != 0
    ensures Inv(c, SharedBody(c, s, t))
  {
    hide N, Of, Hands, Queues, Locking, Locals, Numbers, Carries, TallyOf, Shift, Departing, Pending;
    NoSave(s, t);
    TallyPresent(s.pc, t);
    AloneUnderLock(s, t);
    TakePassNumbers(c, K(s), s.m, t);
    LooseStep(c, s, t, SharedHeld, TakePassOrQueue(c, s.m, t).0, Free, s.saved[t]);
  }

  lemma UnlockSharedKeeps(c: Config, s: Sys, t: Tid)
    requires Inv(c, s) && t in s.pc && s.pc[t] == SharedHeld
    ensures Inv(c, UnlockShared(s, t))
  {
    hide N, Of, Hands, Queues, Locking, Locals, Numbers, Carries, TallyOf, Shift, Departing, Pending;
    NoSave(s, t);
    TallyPresent(s.pc, t);
    var moves, before := SomeLeaver(c, s);
    if UncountReader(s.m).1 {
      LeaveNumbers(c, K(s), s.m, moves, before);
      LooseStep(c, s, t, SharedLeaving, UncountReader(s.m).0, s.lock, s.saved[t]);
    } else {
      LastOutNumbers(c, K(s), s.m, moves, before);
      LooseStep(c, s, t, Idle, UncountReader(s.m).0, s.lock, s.saved[t]);
    }
  }

  lemma UnlockSharedDecKeeps(c: Config, s: Sys, t: Tid)
    requires Inv(c, s) && t in s.pc && s.pc[t] == SharedLeaving
    ensures Inv(c, UnlockSharedDec(s, t))
  {
    hide N, Of, Hands, Queues, Locking, Locals, Numbers, Carries, TallyOf, Shift, Departing, Pending;
    NoSave(s, t);
    TallyPresent(s.pc, t);
    AheadFits(s.pc);
    PassesInFlight(c, s);
    var r := SomeFirst(c, s);
    ReaderGoneNumbers(c, K(s), s.m, r);
    LooseStep(c, s, t, if ReaderGone(s.m).1 then SharedWakes else Idle, ReaderGone(s.m).0, s.lock, s.saved[t]);
  }

  lemma PassesInFlight(c: Config, s: Sys)
    requires Inv(c, s)
    ensures s.m.readersPass <= K(s).flying
  {
    hide N, Of, Hands, Queues, Locking, Locals, Word, Owning, Waiting, Prio, TallyOf;
  }

  // ---------- writers ----------

  lemma LockLoadKeeps(c: Config, s: Sys, t: Tid)
    requires Inv(c, s) && t in s.pc && s.pc[t] == Idle
    ensures Inv(c, LockLoad(s, t))
  {
    hide N, Of, Hands, Queues, Locking, Locals, Numbers, TallyOf;
    NoSave(s, t);
    UnnoticedStep(c, s, t, if s.m.state == 0 then ExclTryingAwait else ExclWants, s.saved[t]);
  }

  lemma TryLockLoadKeeps(c: Config, s: Sys, t: Tid)
    requires Inv(c, s) && t in s.pc && s.pc[t] == Idle
    ensures Inv(c, TryLockLoad(s, t))
  {
    hide N, Of, Hands, Queues, Locking, Locals, Numbers, TallyOf;
    NoSave(s, t);
    if s.m.state == 0 { UnnoticedStep(c, s, t, ExclTrying, s.saved[t]); }
  }

  lemma LockTakesKeeps(c: Config, s: Sys, t: Tid)
    requires Inv(c, s) && t in s.pc && (s.pc[t] == ExclTrying || s.pc[t] == ExclTryingAwait) && s.m.state == 0
    ensures Inv(c, LockCas(s, t))
  {
    hide N, Of, Hands, Queues, Locking, Locals, Numbers, Carries, TallyOf, Pending, Departing;
    NoSave(s, t);
    var moves, before := SomeLeaver(c, s);
    TakeFreeNumbers(c, K(s), s.m, s.pc[t], moves, before);
    LooseStep(c, s, t, ExclHeld, CasState(s.m, 0, WRITER).0, s.lock, s.saved[t]);
  }

  lemma LockCasKeeps(c: Config, s: Sys, t: Tid)
    requires Inv(c, s) && t in s.pc && (s.pc[t] == ExclTrying || s.pc[t] == ExclTryingAwait)
    ensures Inv(c, LockCas(s, t))
  {
    hide N, Of, Hands, Queues, Locking, Locals, Numbers, Carries, TallyOf, Pending, Departing;
    if s.m.state == 0 {
      LockTakesKeeps(c, s, t);
    } else {
      NoSave(s, t);
      UnnoticedStep(c, s, t, if s.pc[t] == ExclTryingAwait then ExclWants else Idle, s.saved[t]);
    }
  }

  lemma CountKeeps(c: Config, s: Sys, t: Tid)
    requires Inv(c, s) && t in s.pc && s.pc[t] == ExclHasLock
    ensures Inv(c, Count(s, t))
  {
    hide N, Of, Hands, Queues, Locking, Locals, Numbers, Carries, TallyOf, Shift, Departing, Pending;
    NoSave(s, t);
    AloneUnderLock(s, t);
    Roomy(s, t, ExclFirst);
    if Writers(s.m.state) == 0 {
      CountFirstNumbers(c, K(s), s.m);
      LooseStep(c, s, t, ExclFirst, CountWriter(s.m).0, s.lock, Readers(s.m.state));
    } else {
      CountNextNumbers(c, K(s), s.m);
      LooseStep(c, s, t, ExclEnqueues, CountWriter(s.m).0, s.lock, s.saved[t]);
    }
  }

  lemma PlacedIs(c: Config, k: Tally, m: Fields, t: Tid, x: nat)
    requires m.writersFirst == Some(t) && (x != 0 ==> Pending(k, m, x))
    ensures var q := if x == 0 then ExclHeld else ExclAdds;
      Loose(ExclFirst) && Loose(q) && IsToken(ExclFirst) && LocalOk(c, k, m, t, q, x) && UnderLock(ExclFirst)
      && (UnderLock(q) <==> x != 0)
  {
  }

  lemma PlaceFirstKeeps(c: Config, s: Sys, t: Tid)
    requires Inv(c, s) && t in s.pc && s.pc[t] == ExclFirst
    ensures Inv(c, PlaceFirst(s, t))
  {
    hide N, Of, Hands, Queues, Locking, Numbers, Carries, TallyOf, Shift, Departing, Pending;
    NoSave(s, t);
    TallyPresent(s.pc, t);
    assert LocalsOk(c, K(s), s, t);
    var m, x := BecomeFirst(s.m, t), s.saved[t];
    if x == 0 {
      FirstOwnsNumbers(c, K(s), s.m, t);
      PlacedIs(c, Shift(K(s), ExclFirst, ExclHeld), m, t, x);
      hide Loose, LocalOk, UnderLock, IsToken, LocalsOk;
      LooseStep(c, s, t, ExclHeld, BecomeFirst(s.m, t), Free, s.saved[t]);
    } else {
      FirstAddsNumbers(c, K(s), s.m, t, x);
      PlacedIs(c, Shift(K(s), ExclFirst, ExclAdds), m, t, x);
      hide Loose, LocalOk, UnderLock, IsToken, LocalsOk;
      LooseStep(c, s, t, ExclAdds, BecomeFirst(s.m, t), s.lock, s.saved[t]);
    }
  }

  lemma AddedIs(c: Config, k: Tally, m: Fields, t: Tid, x: nat, waits: bool)
    requires m.writersFirst == Some(t)
    ensures var q := if waits then ExclWaits else ExclHeld;
      Loose(ExclAdds) && Loose(q) && IsToken(ExclAdds) && LocalOk(c, k, m, t, q, x) && !UnderLock(q) && UnderLock(ExclAdds)
  {
  }

  lemma AddReadersKeeps(c: Config, s: Sys, t: Tid)
    requires Inv(c, s) && t in s.pc && s.pc[t] == ExclAdds
    ensures Inv(c, AddReaders(s, t))
  {
    hide N, Of, Hands, Queues, Locking, Numbers, Carries, TallyOf, Shift, Departing, Pending;
    NoSave(s, t);
    TallyPresent(s.pc, t);
    assert LocalsOk(c, K(s), s, t);
    var (m, waits) := AwaitReaders(s.m, s.saved[t]);
    AddReadersNumbers(c, K(s), s.m, s.saved[t]);
    AddedIs(c, Shift(K(s), ExclAdds, if waits then ExclWaits else ExclHeld), m, t, s.saved[t], waits);
    hide Loose, LocalOk, UnderLock, IsToken;
    LooseStep(c, s, t, if waits then ExclWaits else ExclHeld, m, Releasing, s.saved[t]);
  }

  lemma ReleaseKeeps(c: Config, s: Sys)
    requires Inv(c, s) && s.lock == Releasing
    ensures Inv(c, Release(s))
  {
    hide Numbers, TallyOf, LocalsOk, HandOk;
    forall t | t in s.pc ensures HandOk(Release(s), t) && LocalsOk(c, K(s), Release(s), t) {
      assert HandOk(s, t) && LocalsOk(c, K(s), s, t);
      ReleaseFrames(c, s, t);
    }
  }

  lemma ReleaseFrames(c: Config, s: Sys, t: Tid)
    requires Shape(s) && t in s.pc
    ensures HandOk(s, t) ==> HandOk(Release(s), t)
    ensures LocalsOk(c, K(s), s, t) ==> LocalsOk(c, K(s), Release(s), t)
  {
    hide TallyOf;
    if s.pc[t] == Drains && HandOk(s, t) {
      forall r | r in s.drain[t] ensures HandedTo(Release(s), r, t) { assert HandedTo(s, r, t); }
    }
  }

  lemma UnlockKeeps(c: Config, s: Sys, t: Tid)
    requires Inv(c, s) && t in s.pc && s.pc[t] == ExclHeld
    ensures Inv(c, Unlock(s, t))
  {
    hide N, Of, Hands, Queues, Locking, Locals, Numbers, Carries, TallyOf, Shift, Departing, Pending;
    NoSave(s, t);
    TallyPresent(s.pc, t);
    NotSlow(s.pc, t);
    UnlockNumbers(c, K(s), s.m);
    var (m, ok) := CasState(s.m, WRITER, 0);
    LooseStep(c, s, t, if ok then Idle else ExclSlow, m, s.lock, s.saved[t]);
  }

  /** An owner in its critical section is one that is not in SlowUnlock. */
  lemma NotSlow(pc: map<Tid, Phase>, t: Tid)
    requires t in pc && pc[t] == ExclHeld
    ensures TallyOf(pc).slow + 1 <= TallyOf(pc).owners
  {
    SubsetSize(Of(pc, IsSlow) + {t}, Of(pc, IsOwner));
  }

  lemma SlowSpinKeeps(c: Config, s: Sys, t: Tid)
    requires Inv(c, s) && t in s.pc && s.pc[t] == ExclSlow && s.lock == Free
    ensures Inv(c, GetSpinlock(s, t, ExclSlowLocked))
  {
    hide N, Of, Hands, Queues, Locking, Locals, Numbers, TallyOf;
    NoSave(s, t);
    SilentStep(c, s, t, ExclSlowLocked, Held(t), s.saved[t]);
  }

  lemma SlowSubKeeps(c: Config, s: Sys, t: Tid)
    requires Inv(c, s) && t in s.pc && s.pc[t] == ExclSlowLocked
    ensures Inv(c, SlowSub(s, t))
  {
    hide N, Of, Hands, Queues, Locking, Locals, Numbers, Carries, TallyOf, Shift, Departing, Pending;
    TallyPresent(s.pc, t);
    AloneUnderLock(s, t);
    UncountWriterNumbers(c, K(s), s.m);
    LooseStep(c, s, t, ExclLeft, UncountWriter(s.m).0, s.lock, s.m.state);
  }
}
