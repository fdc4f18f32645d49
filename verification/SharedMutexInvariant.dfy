/** What every interleaving of SharedMutexRuns keeps: the invariant, in a part about
    numbers only and a part about who is where. */
module SharedMutexInvariant {
  import opened Common
  import opened Census
  import opened SharedMutexCode
  import opened SharedMutexRuns

  // ---------- the populations ----------

  /** How many coroutines of each kind there are.
      `admitted`: readers that own the lock, resumed or still in the hands of an unlocking coroutine;
      `flying`: readers counted in the word but neither admitted nor queued;
      `leaving`: readers between their two decrements; `wakes`: the last reader, about to run the first writer;
      `owners`: writers that own the lock, resumed, handed over or unlocking; `slow`: those in SlowUnlock;
      `firsts`, `waits`: the first writer before and after its addition to `_readers_wait`;
      `leavers`: writers that gave the lock up and have not yet said who is next;
      `enqueues`: writers counted in the word and about to join the queue. */
  datatype Tally = Tally(
    admitted: int, flying: int, queued: int, leaving: int, wakes: int,
    owners: int, slow: int, firsts: int, waits: int, leavers: int, writersQueued: int, enqueues: int)

  ghost predicate Natural(k: Tally) {
    && k.admitted >= 0 && k.flying >= 0 && k.queued >= 0 && k.leaving >= 0 && k.wakes >= 0
    && k.owners >= 0 && k.slow >= 0 && k.firsts >= 0 && k.waits >= 0 && k.leavers >= 0
    && k.writersQueued >= 0 && k.enqueues >= 0
  }

  predicate IsAdmitted(p: Phase) { p == SharedHeld || p == SharedHanded }
  predicate IsFlying(p: Phase) { p == SharedInFlight || p == SharedHasLock }
  predicate IsQueued(p: Phase) { p == SharedQueued }
  predicate IsLeaving(p: Phase) { p == SharedLeaving }
  predicate IsWaking(p: Phase) { p == SharedWakes }
  predicate IsOwner(p: Phase) { p == ExclHeld || p == ExclHanded || p == ExclSlow || p == ExclSlowLocked }
  predicate IsSlow(p: Phase) { p == ExclSlow || p == ExclSlowLocked }
  predicate IsFirst(p: Phase) { p == ExclFirst || p == ExclAdds }
  predicate IsWaiting(p: Phase) { p == ExclWaits }
  predicate IsLeaver(p: Phase) { p == ExclLeft || p == ExclMoves }
  predicate IsWriterQueued(p: Phase) { p == ExclQueued }
  predicate IsEnqueuing(p: Phase) { p == ExclEnqueues }

  ghost function TallyOf(pc: map<Tid, Phase>): (k: Tally)
    ensures Natural(k)
  {
    Tally(N(pc, IsAdmitted), N(pc, IsFlying), N(pc, IsQueued), N(pc, IsLeaving), N(pc, IsWaking),
          N(pc, IsOwner), N(pc, IsSlow), N(pc, IsFirst), N(pc, IsWaiting), N(pc, IsLeaver),
          N(pc, IsWriterQueued), N(pc, IsEnqueuing))
  }

  /** One coroutine moves from phase `p` to phase `q`. */
  ghost function Shift(k: Tally, p: Phase, q: Phase): Tally {
    Tally(k.admitted - One(IsAdmitted(p)) + One(IsAdmitted(q)),
          k.flying - One(IsFlying(p)) + One(IsFlying(q)),
          k.queued - One(IsQueued(p)) + One(IsQueued(q)),
          k.leaving - One(IsLeaving(p)) + One(IsLeaving(q)),
          k.wakes - One(IsWaking(p)) + One(IsWaking(q)),
          k.owners - One(IsOwner(p)) + One(IsOwner(q)),
          k.slow - One(IsSlow(p)) + One(IsSlow(q)),
          k.firsts - One(IsFirst(p)) + One(IsFirst(q)),
          k.waits - One(IsWaiting(p)) + One(IsWaiting(q)),
          k.leavers - One(IsLeaver(p)) + One(IsLeaver(q)),
          k.writersQueued - One(IsWriterQueued(p)) + One(IsWriterQueued(q)),
          k.enqueues - One(IsEnqueuing(p)) + One(IsEnqueuing(q)))
  }

  lemma TallyMoved(pc: map<Tid, Phase>, t: Tid, q: Phase)
    requires t in pc
    ensures TallyOf(pc[t := q]) == Shift(TallyOf(pc), pc[t], q)
  {
    hide N, Of;
    Moved(pc, t, q, IsAdmitted); Moved(pc, t, q, IsFlying); Moved(pc, t, q, IsQueued);
    Moved(pc, t, q, IsLeaving); Moved(pc, t, q, IsWaking); Moved(pc, t, q, IsOwner);
    Moved(pc, t, q, IsSlow); Moved(pc, t, q, IsFirst); Moved(pc, t, q, IsWaiting);
    Moved(pc, t, q, IsLeaver); Moved(pc, t, q, IsWriterQueued); Moved(pc, t, q, IsEnqueuing);
  }

  lemma TallyPresent(pc: map<Tid, Phase>, t: Tid)
    requires t in pc
    ensures Counts(TallyOf(pc), pc[t])
  {
    hide N, Of;
    if IsAdmitted(pc[t]) { Present(pc, IsAdmitted, t); }
    if IsFlying(pc[t]) { Present(pc, IsFlying, t); }
    if IsQueued(pc[t]) { Present(pc, IsQueued, t); }
    if IsLeaving(pc[t]) { Present(pc, IsLeaving, t); }
    if IsWaking(pc[t]) { Present(pc, IsWaking, t); }
    if IsOwner(pc[t]) { Present(pc, IsOwner, t); }
    if IsSlow(pc[t]) { Present(pc, IsSlow, t); }
    if IsFirst(pc[t]) { Present(pc, IsFirst, t); }
    if IsWaiting(pc[t]) { Present(pc, IsWaiting, t); }
    if IsLeaver(pc[t]) { Present(pc, IsLeaver, t); }
    if IsWriterQueued(pc[t]) { Present(pc, IsWriterQueued, t); }
    if IsEnqueuing(pc[t]) { Present(pc, IsEnqueuing, t); }
  }

  /** The tally counts a coroutine that is in phase `p`. */
  ghost predicate Counts(k: Tally, p: Phase) {
    && (IsAdmitted(p) ==> k.admitted >= 1)
    && (IsFlying(p) ==> k.flying >= 1)
    && (IsQueued(p) ==> k.queued >= 1)
    && (IsLeaving(p) ==> k.leaving >= 1)
    && (IsWaking(p) ==> k.wakes >= 1)
    && (IsOwner(p) ==> k.owners >= 1)
    && (IsSlow(p) ==> k.slow >= 1)
    && (IsFirst(p) ==> k.firsts >= 1)
    && (IsWaiting(p) ==> k.waits >= 1)
    && (IsLeaver(p) ==> k.leavers >= 1)
    && (IsWriterQueued(p) ==> k.writersQueued >= 1)
    && (IsEnqueuing(p) ==> k.enqueues >= 1)
  }

  ghost function CountedWriters(k: Tally): int { k.owners + k.firsts + k.waits + k.writersQueued + k.enqueues }

  ghost function CountedReaders(k: Tally): int { k.admitted + k.queued + k.flying }

  /** Readers the first writer still waits for. */
  ghost function Ahead(k: Tally, m: Fields): int { k.admitted + m.readersPass + k.leaving }

  // ---------- numbers ----------

  ghost predicate Word(k: Tally, m: Fields) {
    && m.state == WRITER * CountedWriters(k) + CountedReaders(k)
    && CountedWriters(k) < U32
    && CountedReaders(k) < U32
    && |m.readers| == k.queued == m.readersSize
    && |m.writers| == k.writersQueued
  }

  /** One writer at most owns, is first or leaves; without one nobody waits and every reader in flight has a pass. */
  ghost predicate Token(k: Tally, m: Fields) {
    && k.owners + k.firsts + k.waits + k.leavers <= 1
    && m.readersPass <= k.flying
    && (k.writersQueued + k.queued + k.enqueues > 0 ==> k.owners + k.firsts + k.waits + k.leavers == 1)
    && (k.owners + k.firsts + k.waits + k.leavers == 0 ==>
          m.readersPass == k.flying && m.readersWait == 0 && k.leaving == 0 && k.wakes == 0)
  }

  ghost predicate Owning(k: Tally, m: Fields) {
    && (k.owners == 1 ==> Ahead(k, m) == 0 && k.wakes == 0 && m.readersWait == 0)
    && k.slow <= k.owners
    && (k.slow >= 1 ==> k.writersQueued + k.enqueues + k.queued + k.flying >= 1)
  }

  /** Before the first writer adds the readers `r` it counted, `_readers_wait` is minus the readers already gone. */
  ghost predicate Pending(k: Tally, m: Fields, r: nat) {
    && r < U32 && Ahead(k, m) <= r && k.wakes == 0
    && m.readersWait == if Ahead(k, m) == r then 0 else U32 + Ahead(k, m) - r
  }

  /** After it, `_readers_wait` is the number of readers the writer waits for; at zero, one reader is on its way to run it. */
  ghost predicate Waiting(k: Tally, m: Fields) {
    && (k.waits == 1 ==> m.readersWait == Ahead(k, m) && k.wakes == if Ahead(k, m) == 0 then 1 else 0)
    && (k.wakes >= 1 ==> k.waits == 1)
    && (k.leaving >= 1 ==> k.firsts + k.waits == 1)
  }

  ghost predicate Departing(c: Config, k: Tally, m: Fields, moves: bool, before: nat) {
    var w, r := Writers(before), Readers(before);
    && w >= 1
    && m.readersPass == 0 && k.leaving == 0 && k.wakes == 0
    && k.writersQueued == w - 1 && k.enqueues == 0
    && (w == 1 ==> k.flying + k.queued == r >= 1)
    && (w > 1 ==> k.admitted == 0)
    && m.readersWait == (if moves then k.queued else 0)
    && (moves ==> w > 1 && k.queued >= 1 && (c.fifo ==> m.writersPrio == 0))
  }

  /** `_writers_prio` counts the writers queued before the first queued reader. */
  ghost predicate Prio(c: Config, m: Fields) {
    && m.writersPrio <= |m.writers|
    && (c.fifo && m.readers == [] ==> m.writersPrio == |m.writers|)
    && (!c.fifo ==> m.writersPrio == 0)
  }

  ghost predicate Numbers(c: Config, k: Tally, m: Fields) {
    Word(k, m) && Token(k, m) && Owning(k, m) && Waiting(k, m) && Prio(c, m)
  }

  // ---------- who is where ----------

  ghost predicate UnderLock(p: Phase) {
    p == SharedHasLock || p == ExclHasLock || p == ExclFirst || p == ExclAdds || p == ExclEnqueues ||
    p == ExclSlowLocked || p == ExclLeft || p == ExclMoves
  }

  ghost predicate Locking(s: Sys) {
    && (s.lock.Held? ==> s.lock.holder in s.pc)
    && forall t :: t in s.pc ==> (UnderLock(s.pc[t]) <==> s.lock == Held(t))
  }

  ghost predicate Queues(s: Sys) {
    && Distinct(s.m.readers) && Distinct(s.m.writers)
    && (forall t :: t in s.m.readers <==> t in Of(s.pc, IsQueued))
    && (forall t :: t in s.m.writers <==> t in Of(s.pc, IsWriterQueued))
  }

  /** A coroutine taken out of a queue is in the hands of exactly one unlocking coroutine. */
  ghost predicate HandOk(s: Sys, t: Tid)
    requires Shape(s) && t in s.pc
  {
    match s.pc[t]
    case SharedHanded => In(s, s.hands[t], Drains) && t in s.drain[s.hands[t]]
    case Drains =>
      && s.drain[t] != [] && Distinct(s.drain[t])
      && forall r :: r in s.drain[t] ==> HandedTo(s, r, t)
    case ExclHanded => In(s, s.hands[t], ExclWakes) && s.drain[s.hands[t]] == [t]
    case ExclWakes => |s.drain[t]| == 1 && In(s, s.drain[t][0], ExclHanded) && s.hands[s.drain[t][0]] == t
    case _ => true
  }

  ghost predicate HandedTo(s: Sys, r: Tid, d: Tid)
    requires Shape(s)
  {
    In(s, r, SharedHanded) && s.hands[r] == d
  }

  ghost predicate Hands(s: Sys)
    requires Shape(s)
  {
    forall t :: t in s.pc ==> HandOk(s, t)
  }

  /** What the saved locals of the writers between two steps say. */
  ghost predicate LocalsOk(c: Config, k: Tally, s: Sys, t: Tid)
    requires Shape(s) && t in s.pc
  {
    match s.pc[t]
    case ExclFirst => Pending(k, s.m, s.saved[t])
    case ExclAdds => Pending(k, s.m, s.saved[t]) && s.saved[t] != 0 && s.m.writersFirst == Some(t)
    case ExclWaits => s.m.writersFirst == Some(t)
    case ExclLeft => Departing(c, k, s.m, false, s.saved[t])
    case ExclMoves => Departing(c, k, s.m, true, s.saved[t])
    case SharedTrying => Writers(s.saved[t]) == 0
    case _ => true
  }

  ghost predicate Locals(c: Config, s: Sys)
    requires Shape(s)
  {
    forall t :: t in s.pc ==> LocalsOk(c, TallyOf(s.pc), s, t)
  }

  ghost predicate Inv(c: Config, s: Sys) {
    && Shape(s) && |s.pc| < U32
    && Locking(s) && Queues(s) && Hands(s)
    && Numbers(c, TallyOf(s.pc), s.m)
    && Locals(c, s)
  }

  // ---------- arithmetic of the word ----------

  lemma Unpack(state: nat, w: nat, r: nat)
    requires state == WRITER * w + r && r < U32
    ensures Writers(state) == w && Readers(state) == r
  {
  }

  // ---------- the initial state ----------

  lemma InitTally(pc: map<Tid, Phase>)
    requires forall t :: t in pc ==> pc[t] == Idle
    ensures TallyOf(pc) == Tally(0, 0, 0, 0, 0, 0, 0, 0, 0, 0, 0, 0)
  {
    hide N, Of;
    Nobody(pc, IsAdmitted); Nobody(pc, IsFlying); Nobody(pc, IsQueued); Nobody(pc, IsLeaving);
    Nobody(pc, IsWaking); Nobody(pc, IsOwner); Nobody(pc, IsSlow); Nobody(pc, IsFirst);
    Nobody(pc, IsWaiting); Nobody(pc, IsLeaver); Nobody(pc, IsWriterQueued); Nobody(pc, IsEnqueuing);
  }

  lemma InitInv(c: Config, s: Sys)
    requires Init(s)
    ensures Inv(c, s)
  {
    hide N, Of, TallyOf, Queues, Numbers;
    InitQueues(s);
    InitTally(s.pc);
    InitNumbers(c, TallyOf(s.pc));
  }

  lemma InitNumbers(c: Config, k: Tally)
    requires k == Tally(0, 0, 0, 0, 0, 0, 0, 0, 0, 0, 0, 0)
    ensures Numbers(c, k, INITIAL)
  {
  }

  lemma InitQueues(s: Sys)
    requires Init(s)
    ensures Queues(s)
  {
    assert Of(s.pc, IsQueued) == {} == Of(s.pc, IsWriterQueued);
  }

  // ---------- population bounds ----------

  predicate IsAheadWriter(p: Phase) { IsOwner(p) || IsFirst(p) || IsWaiting(p) }

  lemma ReadersFit(pc: map<Tid, Phase>)
    requires |pc| < U32
    ensures CountedReaders(TallyOf(pc)) < U32
  {
    hide N, Of;
    ThreeBound(pc, IsAdmitted, IsQueued, IsFlying);
  }

  lemma WritersFit(pc: map<Tid, Phase>)
    requires |pc| < U32
    ensures CountedWriters(TallyOf(pc)) < U32
  {
    hide N, Of;
    ThreeBound(pc, IsAheadWriter, IsWriterQueued, IsEnqueuing);
    ThreeSum(pc, IsOwner, IsFirst, IsWaiting, IsAheadWriter);
  }

  lemma AheadFits(pc: map<Tid, Phase>)
    requires |pc| < U32
    ensures TallyOf(pc).admitted + TallyOf(pc).flying + TallyOf(pc).leaving < U32
  {
    hide N, Of;
    ThreeBound(pc, IsAdmitted, IsFlying, IsLeaving);
  }
}
