/** Any number of coroutines using one SharedMutex, interleaved at every atomic
    access (include/yaclib/coro/shared_mutex.hpp, include/yaclib/coro/detail/mutex_awaiter.hpp). */
module SharedMutexRuns {
  import opened Common
  import opened Census
  import opened SharedMutexCode

  datatype Phase =
    | Idle
    // readers
    | SharedTrying      // TryLockShared between its load and its compare_exchange, `saved` = expected
    | SharedInFlight    // counted, saw a writer, has not got the spinlock yet
    | SharedHasLock     // in AwaitLockShared under the spinlock
    | SharedQueued      // suspended in `_readers`
    | SharedHanded      // taken out of `_readers` by the coroutine `hands`, not submitted yet
    | SharedHeld        // in its critical section
    | SharedLeaving     // UnlockHereShared between its two decrements
    | SharedWakes       // UnlockHereShared about to Run(_writers_first)
    // writers
    | ExclTrying        // TryLock between load and compare_exchange
    | ExclTryingAwait   // the same in TryLockAwait of a co_await
    | ExclWants         // AwaitLock before the spinlock
    | ExclHasLock       // AwaitLock under the spinlock, before fetch_add
    | ExclFirst         // no other writer was counted, `saved` = readers counted
    | ExclAdds          // `_writers_first` is set, about to add `saved` to `_readers_wait`
    | ExclEnqueues      // other writers were counted
    | ExclWaits         // suspended as `_writers_first`
    | ExclQueued        // suspended in the queue of writers
    | ExclHanded        // popped by RunWriter of the coroutine `hands`, not submitted yet
    | ExclHeld          // in its critical section
    | ExclSlow          // UnlockHere failed its compare_exchange, before the spinlock
    | ExclSlowLocked    // SlowUnlock before fetch_sub
    | ExclLeft          // SlowUnlock after fetch_sub, `saved` = the word before it
    | ExclMoves         // RunReaders after the store to `_readers_wait`
    | ExclWakes         // RunWriter after unlock, about to Run(drain[0])
    | Drains            // RunReaders after unlock, about to Run every reader of `drain`

  /** The spinlock; `Releasing`: a thread whose coroutine may already run elsewhere is about to unlock it. */
  datatype Lock = Free | Held(holder: Tid) | Releasing

  datatype Sys = Sys(m: Fields, lock: Lock, pc: map<Tid, Phase>, saved: map<Tid, nat>,
                     hands: map<Tid, Tid>, drain: map<Tid, seq<Tid>>)

  ghost predicate Shape(s: Sys) {
    s.saved.Keys == s.pc.Keys && s.hands.Keys == s.pc.Keys && s.drain.Keys == s.pc.Keys
  }

  ghost predicate Init(s: Sys) {
    && Shape(s)
    && |s.pc| < U32
    && s.m == INITIAL
    && s.lock == Free
    && forall t :: t in s.pc ==> s.pc[t] == Idle
  }

  function Goto(s: Sys, t: Tid, p: Phase): Sys {
    s.(pc := s.pc[t := p])
  }

  function Save(s: Sys, t: Tid, x: nat): Sys {
    s.(saved := s.saved[t := x])
  }

  ghost predicate In(s: Sys, t: Tid, p: Phase) {
    t in s.pc && s.pc[t] == p
  }

  /** Every coroutine of `q` leaves its queue for the hands of `by`. */
  function HandOver(pc: map<Tid, Phase>, q: seq<Tid>): map<Tid, Phase> {
    map t | t in pc :: if t in q then SharedHanded else pc[t]
  }

  function HandedBy(hands: map<Tid, Tid>, q: seq<Tid>, unlocker: Tid): map<Tid, Tid> {
    map t | t in hands :: if t in q then unlocker else hands[t]
  }

  datatype Action =
    | LockSharedOp | TryLockSharedLoadOp | TryLockSharedCasOp(spurious: bool)
    | SharedSpinOp | SharedBodyOp | UnlockSharedOp | UnlockSharedDecOp | WakeFirstOp
    | LockLoadOp | TryLockLoadOp | LockCasOp
    | SpinOp | CountOp | PlaceFirstOp | PlaceQueuedOp | AddReadersOp | ReleaseOp
    | UnlockOp | SlowSpinOp | SlowSubOp | SlowChooseOp | SlowMoveOp | WakeWriterOp | DrainOneOp

  /** When coroutine `t` may take a step.  Nothing here looks at the lock's data except the spinlock. */
  ghost predicate Enabled(s: Sys, t: Tid, a: Action) {
    && t in s.pc
    && match a
       case LockSharedOp => s.pc[t] == Idle
       case TryLockSharedLoadOp => s.pc[t] == Idle
       case TryLockSharedCasOp(_) => s.pc[t] == SharedTrying
       case SharedSpinOp => s.pc[t] == SharedInFlight && s.lock == Free
       case SharedBodyOp => s.pc[t] == SharedHasLock
       case UnlockSharedOp => s.pc[t] == SharedHeld
       case UnlockSharedDecOp => s.pc[t] == SharedLeaving
       case WakeFirstOp => s.pc[t] == SharedWakes
       case LockLoadOp => s.pc[t] == Idle
       case TryLockLoadOp => s.pc[t] == Idle
       case LockCasOp => s.pc[t] == ExclTrying || s.pc[t] == ExclTryingAwait
       case SpinOp => s.pc[t] == ExclWants && s.lock == Free
       case CountOp => s.pc[t] == ExclHasLock
       case PlaceFirstOp => s.pc[t] == ExclFirst
       case PlaceQueuedOp => s.pc[t] == ExclEnqueues
       case AddReadersOp => s.pc[t] == ExclAdds
       case ReleaseOp => s.lock == Releasing
       case UnlockOp => s.pc[t] == ExclHeld
       case SlowSpinOp => s.pc[t] == ExclSlow && s.lock == Free
       case SlowSubOp => s.pc[t] == ExclSlowLocked
       case SlowChooseOp => s.pc[t] == ExclLeft
       case SlowMoveOp => s.pc[t] == ExclMoves
       case WakeWriterOp => s.pc[t] == ExclWakes
       case DrainOneOp => s.pc[t] == Drains
  }

  /** What the code assumes without checking when it takes the step: a queue it pops is not
      empty, a pointer it follows points to a suspended coroutine, an assertion holds. */
  ghost predicate Safe(c: Config, s: Sys, t: Tid, a: Action) {
    && Shape(s) && t in s.pc
    && match a
       case SharedBodyOp => s.m.readersPass != 0 || Writers(s.m.state) != 0
       case WakeFirstOp => WakeFirstSafe(s)
       case SlowChooseOp => ChooseSafe(c, s, t)
       case SlowMoveOp => MoveSafe(s)
       case WakeWriterOp => WakeWriterSafe(s, t)
       case DrainOneOp => DrainSafe(s, t)
       case _ => true
  }

  ghost predicate WakeFirstSafe(s: Sys) {
    s.m.writersFirst.Some? && In(s, s.m.writersFirst.value, ExclWaits)
  }

  ghost predicate ReadersSuspended(s: Sys) {
    forall r :: r in s.m.readers ==> In(s, r, SharedQueued)
  }

  ghost predicate WriterSuspended(s: Sys) {
    s.m.writers != [] && In(s, s.m.writers[0], ExclQueued)
  }

  ghost predicate ChooseSafe(c: Config, s: Sys, t: Tid)
    requires Shape(s) && t in s.pc
  {
    var before := s.saved[t];
    match Choose(c, s.m, before)
    case ChooseWriter => WriterSuspended(s) && (c.fifo ==> s.m.writersPrio != 0 && Writers(before) > 1)
    case ChooseReaders =>
      ReadersSuspended(s) && s.m.readers != []
      && (Writers(before) != 1 || Readers(before) >= s.m.readersSize)
    case ChooseNobody => Writers(before) == 1 && Readers(before) >= s.m.readersSize
  }

  ghost predicate MoveSafe(s: Sys) {
    WriterSuspended(s) && ReadersSuspended(s) && s.m.readers != []
  }

  ghost predicate WakeWriterSafe(s: Sys, t: Tid)
    requires Shape(s) && t in s.pc
  {
    s.drain[t] != [] && In(s, s.drain[t][0], ExclHanded)
  }

  ghost predicate DrainSafe(s: Sys, t: Tid)
    requires Shape(s) && t in s.pc
  {
    s.drain[t] != [] && In(s, s.drain[t][0], SharedHanded)
  }

  // ---------- the steps ----------

  function LockShared(s: Sys, t: Tid): Sys {
    var (m, ok) := CountReader(s.m);
    Goto(s.(m := m), t, if ok then SharedHeld else SharedInFlight)
  }

  function TryLockSharedLoad(s: Sys, t: Tid): Sys {
    if Writers(s.m.state) != 0 then s else Goto(Save(s, t, s.m.state), t, SharedTrying)
  }

  function TryLockSharedCas(s: Sys, t: Tid, spurious: bool): Sys
    requires Shape(s) && t in s.pc
  {
    var (m, ok) := if spurious then (s.m, false) else CasState(s.m, s.saved[t], Add64(s.saved[t], READER));
    if ok then Goto(s.(m := m), t, SharedHeld)
    else if Writers(s.m.state) != 0 then Goto(s, t, Idle)
    else Save(s, t, s.m.state)
  }

  function GetSpinlock(s: Sys, t: Tid, p: Phase): Sys {
    Goto(s.(lock := Held(t)), t, p)
  }

  function SharedBody(c: Config, s: Sys, t: Tid): Sys {
    var (m, suspends) := TakePassOrQueue(c, s.m, t);
    Goto(s.(m := m, lock := Free), t, if suspends then SharedQueued else SharedHeld)
  }

  function UnlockShared(s: Sys, t: Tid): Sys {
    var (m, writerWaits) := UncountReader(s.m);
    Goto(s.(m := m), t, if writerWaits then SharedLeaving else Idle)
  }

  function UnlockSharedDec(s: Sys, t: Tid): Sys {
    var (m, last) := ReaderGone(s.m);
    Goto(s.(m := m), t, if last then SharedWakes else Idle)
  }

  function WakeFirst(s: Sys, t: Tid): Sys
    requires s.m.writersFirst.Some?
  {
    Goto(Goto(s, t, Idle), s.m.writersFirst.value, ExclHeld)
  }

  function LockLoad(s: Sys, t: Tid): Sys {
    Goto(s, t, if s.m.state == 0 then ExclTryingAwait else ExclWants)
  }

  function TryLockLoad(s: Sys, t: Tid): Sys {
    if s.m.state == 0 then Goto(s, t, ExclTrying) else s
  }

  function LockCas(s: Sys, t: Tid): Sys
    requires t in s.pc
  {
    var (m, ok) := CasState(s.m, 0, WRITER);
    Goto(s.(m := m), t, if ok then ExclHeld else if s.pc[t] == ExclTryingAwait then ExclWants else Idle)
  }

  function Count(s: Sys, t: Tid): Sys {
    var (m, before) := CountWriter(s.m);
    if Writers(before) == 0 then Goto(Save(s.(m := m), t, Readers(before)), t, ExclFirst)
    else Goto(s.(m := m), t, ExclEnqueues)
  }

  function PlaceFirst(s: Sys, t: Tid): Sys
    requires t in s.saved
  {
    var m := BecomeFirst(s.m, t);
    if s.saved[t] == 0 then Goto(s.(m := m, lock := Free), t, ExclHeld) else Goto(s.(m := m), t, ExclAdds)
  }

  function PlaceQueued(c: Config, s: Sys, t: Tid): Sys {
    Goto(s.(m := QueueWriter(c, s.m, t), lock := Free), t, ExclQueued)
  }

  function AddReaders(s: Sys, t: Tid): Sys
    requires t in s.saved
  {
    var (m, waits) := AwaitReaders(s.m, s.saved[t]);
    Goto(s.(m := m, lock := Releasing), t, if waits then ExclWaits else ExclHeld)
  }

  function Release(s: Sys): Sys {
    s.(lock := Free)
  }

  function Unlock(s: Sys, t: Tid): Sys {
    var (m, ok) := CasState(s.m, WRITER, 0);
    Goto(s.(m := m), t, if ok then Idle else ExclSlow)
  }

  function SlowSub(s: Sys, t: Tid): Sys {
    var (m, before) := UncountWriter(s.m);
    Goto(Save(s.(m := m), t, before), t, ExclLeft)
  }

  function SlowChoose(c: Config, s: Sys, t: Tid): Sys
    requires Shape(s) && t in s.pc && ChooseSafe(c, s, t)
  {
    var before := s.saved[t];
    match Choose(c, s.m, before)
    case ChooseWriter => HandWriter(c, s, t)
    case ChooseReaders =>
      if Writers(before) != 1 then Goto(s.(m := SetReadersWait(s.m)), t, ExclMoves)
      else HandReaders(s.(m := PassReaders(s.m, before)), t)
    case ChooseNobody => Goto(s.(m := PassReaders(s.m, before), lock := Free), t, Idle)
  }

  /** RunWriter: pop a writer, release the spinlock. */
  function HandWriter(c: Config, s: Sys, t: Tid): (s': Sys)
    requires s.m.writers != []
    ensures Shape(s) && t in s.pc && s.m.writers[0] in s.pc ==> Shape(s') && s'.pc.Keys == s.pc.Keys
  {
    var (m, w) := PopWriter(c, s.m);
    Goto(Goto(s.(m := m, lock := Free, drain := s.drain[t := [w]], hands := s.hands[w := t]), t, ExclWakes), w, ExclHanded)
  }

  /** The common end of RunReaders: take the readers' queue, release the spinlock. */
  function HandReaders(s: Sys, t: Tid): (s': Sys)
    ensures Shape(s) && t in s.pc ==> Shape(s') && s'.pc.Keys == s.pc.Keys
  {
    var (m, q) := TakeReaders(s.m);
    s.(m := m, lock := Free, pc := HandOver(s.pc, q)[t := Drains],
       hands := HandedBy(s.hands, q, t), drain := s.drain[t := q])
  }

  function SlowMove(c: Config, s: Sys, t: Tid): Sys
    requires Shape(s) && t in s.pc && s.m.writers != []
  {
    HandReaders(Goto(s.(m := NextFirst(c, s.m, s.saved[t])), s.m.writers[0], ExclWaits), t)
  }

  function WakeWriter(s: Sys, t: Tid): Sys
    requires t in s.drain && s.drain[t] != []
  {
    Goto(Goto(s, t, Idle), s.drain[t][0], ExclHeld)
  }

  function DrainOne(s: Sys, t: Tid): Sys
    requires t in s.drain && s.drain[t] != []
  {
    var r, rest := s.drain[t][0], s.drain[t][1..];
    Goto(Goto(s.(drain := s.drain[t := rest]), t, if rest == [] then Idle else Drains), r, SharedHeld)
  }

  function Apply(c: Config, s: Sys, t: Tid, a: Action): (s': Sys)
    requires Safe(c, s, t, a)
  {
    match a
    case LockSharedOp => LockShared(s, t)
    case TryLockSharedLoadOp => TryLockSharedLoad(s, t)
    case TryLockSharedCasOp(spurious) => TryLockSharedCas(s, t, spurious)
    case SharedSpinOp => GetSpinlock(s, t, SharedHasLock)
    case SharedBodyOp => SharedBody(c, s, t)
    case UnlockSharedOp => UnlockShared(s, t)
    case UnlockSharedDecOp => UnlockSharedDec(s, t)
    case WakeFirstOp => WakeFirst(s, t)
    case LockLoadOp => LockLoad(s, t)
    case TryLockLoadOp => TryLockLoad(s, t)
    case LockCasOp => LockCas(s, t)
    case SpinOp => GetSpinlock(s, t, ExclHasLock)
    case CountOp => Count(s, t)
    case PlaceFirstOp => PlaceFirst(s, t)
    case PlaceQueuedOp => PlaceQueued(c, s, t)
    case AddReadersOp => AddReaders(s, t)
    case ReleaseOp => Release(s)
    case UnlockOp => Unlock(s, t)
    case SlowSpinOp => GetSpinlock(s, t, ExclSlowLocked)
    case SlowSubOp => SlowSub(s, t)
    case SlowChooseOp => SlowChoose(c, s, t)
    case SlowMoveOp => SlowMove(c, s, t)
    case WakeWriterOp => WakeWriter(s, t)
    case DrainOneOp => DrainOne(s, t)
  }
}
