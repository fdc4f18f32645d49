/** The arithmetic of SharedMutex: what each fragment of code does to the numbers.

    `Numbers` is kept, and what a first writer or a leaving writer knows about the
    numbers (`Pending`, `Departing`) survives the steps of all other coroutines. */
module SharedMutexNumbers {
  import opened Common
  import opened Census
  import opened SharedMutexCode
  import opened SharedMutexRuns
  import opened SharedMutexInvariant

  ghost predicate Carries(c: Config, k: Tally, m: Fields, k': Tally, m': Fields) {
    && (k.firsts >= 1 ==> forall r: nat :: Pending(k, m, r) ==> Pending(k', m', r))
    && (k.leavers >= 1 ==>
          forall moves, before: nat :: Departing(c, k, m, moves, before) ==> Departing(c, k', m', moves, before))
  }

  ghost predicate Good(c: Config, k: Tally, m: Fields) {
    Natural(k) && Numbers(c, k, m)
  }

  /** A phase that no number counts. */
  ghost predicate Uncounted(p: Phase) {
    p == Idle || p == SharedTrying || p == ExclTrying || p == ExclTryingAwait || p == ExclWants || p == ExclHasLock
  }

  lemma AdmitReaderNumbers(c: Config, k: Tally, m: Fields, p: Phase)
    requires Good(c, k, m) && CountedReaders(k) + 1 < U32 && Uncounted(p) && Writers(m.state) == 0
    ensures var k', m' := Shift(k, p, SharedHeld), CountReader(m).0; Good(c, k', m') && Carries(c, k, m, k', m')
  {
    Unpack(m.state, CountedWriters(k), CountedReaders(k));
  }

  lemma FlyReaderNumbers(c: Config, k: Tally, m: Fields)
    requires Good(c, k, m) && CountedReaders(k) + 1 < U32 && Writers(m.state) != 0
    ensures var k', m' := Shift(k, Idle, SharedInFlight), CountReader(m).0; Good(c, k', m') && Carries(c, k, m, k', m')
  {
    Unpack(m.state, CountedWriters(k), CountedReaders(k));
  }

  lemma TakePassNumbers(c: Config, k: Tally, m: Fields, t: Tid)
    requires Good(c, k, m) && k.flying >= 1 && m.readersPass != 0 && k.leavers == 0
    ensures var k', m' := Shift(k, SharedHasLock, SharedHeld), TakePassOrQueue(c, m, t).0;
            Good(c, k', m') && Carries(c, k, m, k', m')
  {
  }

  lemma QueueReaderNumbers(c: Config, k: Tally, m: Fields, t: Tid)
    requires Good(c, k, m) && k.flying >= 1 && m.readersPass == 0 && k.leavers == 0
    ensures Writers(m.state) != 0
    ensures var k', m' := Shift(k, SharedHasLock, SharedQueued), TakePassOrQueue(c, m, t).0;
            Good(c, k', m') && Carries(c, k, m, k', m')
  {
    Unpack(m.state, CountedWriters(k), CountedReaders(k));
  }

  lemma LastOutNumbers(c: Config, k: Tally, m: Fields, moves: bool, b: nat)
    requires Good(c, k, m) && k.admitted >= 1 && !UncountReader(m).1
    requires k.leavers >= 1 ==> Departing(c, k, m, moves, b)
    ensures var k', m' := Shift(k, SharedHeld, Idle), UncountReader(m).0;
            Good(c, k', m') && Carries(c, k, m, k', m')
  {
  }

  lemma LeaveNumbers(c: Config, k: Tally, m: Fields, moves: bool, b: nat)
    requires Good(c, k, m) && k.admitted >= 1 && UncountReader(m).1
    requires k.leavers >= 1 ==> Departing(c, k, m, moves, b)
    ensures var k', m' := Shift(k, SharedHeld, SharedLeaving), UncountReader(m).0;
            Good(c, k', m') && Carries(c, k, m, k', m')
  {
  }

  lemma ReaderGoneNumbers(c: Config, k: Tally, m: Fields, r: nat)
    requires Good(c, k, m) && k.leaving >= 1 && Ahead(k, m) < U32
    requires k.firsts >= 1 ==> Pending(k, m, r)
    ensures var k', m' := Shift(k, SharedLeaving, if ReaderGone(m).1 then SharedWakes else Idle), ReaderGone(m).0;
            Good(c, k', m') && Carries(c, k, m, k', m')
  {
  }

  lemma WakeFirstNumbers(c: Config, k: Tally, m: Fields)
    requires Good(c, k, m) && k.wakes >= 1
    ensures k.waits == 1
    ensures var k' := Shift(Shift(k, SharedWakes, Idle), ExclWaits, ExclHeld); Good(c, k', m)
  {
  }

  lemma TakeFreeNumbers(c: Config, k: Tally, m: Fields, p: Phase, moves: bool, b: nat)
    requires Good(c, k, m) && m.state == 0 && Uncounted(p)
    requires k.leavers >= 1 ==> Departing(c, k, m, moves, b)
    ensures var k', m' := Shift(k, p, ExclHeld), CasState(m, 0, WRITER).0;
            Good(c, k', m') && Carries(c, k, m, k', m')
  {
  }

  lemma CountFirstNumbers(c: Config, k: Tally, m: Fields)
    requires Good(c, k, m) && k.leavers == 0 && k.enqueues == 0 && CountedWriters(k) + 1 < U32
    requires Writers(m.state) == 0
    ensures var k', m' := Shift(k, ExclHasLock, ExclFirst), CountWriter(m).0;
            Good(c, k', m') && Carries(c, k, m, k', m') && Pending(k', m', Readers(m.state))
  {
    Unpack(m.state, CountedWriters(k), CountedReaders(k));
  }

  lemma CountNextNumbers(c: Config, k: Tally, m: Fields)
    requires Good(c, k, m) && k.leavers == 0 && k.enqueues == 0 && CountedWriters(k) + 1 < U32
    requires Writers(m.state) != 0
    ensures var k', m' := Shift(k, ExclHasLock, ExclEnqueues), CountWriter(m).0;
            Good(c, k', m') && Carries(c, k, m, k', m')
  {
    Unpack(m.state, CountedWriters(k), CountedReaders(k));
  }

  lemma FirstOwnsNumbers(c: Config, k: Tally, m: Fields, t: Tid)
    requires Good(c, k, m) && k.firsts >= 1 && Pending(k, m, 0)
    ensures Good(c, Shift(k, ExclFirst, ExclHeld), BecomeFirst(m, t))
  {
  }

  lemma FirstAddsNumbers(c: Config, k: Tally, m: Fields, t: Tid, r: nat)
    requires Good(c, k, m) && Pending(k, m, r)
    ensures Shift(k, ExclFirst, ExclAdds) == k
    ensures Good(c, k, BecomeFirst(m, t)) && Pending(k, BecomeFirst(m, t), r)
  {
  }

  lemma AddReadersNumbers(c: Config, k: Tally, m: Fields, r: nat)
    requires Good(c, k, m) && k.firsts >= 1 && Pending(k, m, r) && r != 0
    ensures Good(c, Shift(k, ExclAdds, if AwaitReaders(m, r).1 then ExclWaits else ExclHeld), AwaitReaders(m, r).0)
  {
  }

  lemma QueueWriterNumbers(c: Config, k: Tally, m: Fields, t: Tid)
    requires Good(c, k, m) && k.enqueues >= 1 && k.leavers == 0
    ensures var k', m' := Shift(k, ExclEnqueues, ExclQueued), QueueWriter(c, m, t);
            Good(c, k', m') && Carries(c, k, m, k', m')
  {
  }

  lemma UnlockNumbers(c: Config, k: Tally, m: Fields)
    requires Good(c, k, m) && k.owners >= 1 && k.slow + 1 <= k.owners
    ensures Good(c, Shift(k, ExclHeld, if CasState(m, WRITER, 0).1 then Idle else ExclSlow), CasState(m, WRITER, 0).0)
  {
  }

  lemma UncountWriterNumbers(c: Config, k: Tally, m: Fields)
    requires Good(c, k, m) && k.slow >= 1 && k.enqueues == 0
    ensures var k', m' := Shift(k, ExclSlowLocked, ExclLeft), UncountWriter(m).0;
            Good(c, k', m') && Departing(c, k', m', false, m.state)
  {
    Unpack(m.state, CountedWriters(k), CountedReaders(k));
  }

  // ---------- the decision of SlowUnlock ----------

  /** What the leaver knows when it takes a writer: nobody else has a claim, and the readers are none or queued. */
  lemma PopsAlone(c: Config, k: Tally, m: Fields, before: nat)
    requires Good(c, k, m) && k.leavers >= 1 && Departing(c, k, m, false, before)
    requires Choose(c, m, before) == ChooseWriter
    ensures m.writers != [] && (c.fifo ==> m.writersPrio != 0 && Writers(before) > 1)
    ensures k.owners == k.firsts == k.waits == 0 && k.leavers == 1 && k.slow == 0 && Ahead(k, m) == 0 && k.wakes == 0
    ensures m.readersWait == 0 && k.writersQueued >= 1 && m.writersPrio < U32
  {
  }

  lemma PopWriterNumbers(c: Config, k: Tally, m: Fields, before: nat)
    requires Good(c, k, m) && k.leavers >= 1 && Departing(c, k, m, false, before)
    requires Choose(c, m, before) == ChooseWriter
    ensures m.writers != [] && (c.fifo ==> m.writersPrio != 0 && Writers(before) > 1)
    ensures Good(c, Shift(Shift(k, ExclLeft, ExclWakes), ExclQueued, ExclHanded), PopWriter(c, m).0)
  {
    PopsAlone(c, k, m, before);
    PopTally(k);
    hide Departing, Choose, Writers, Readers, Shift;
  }

  lemma PopTally(k: Tally)
    ensures Shift(Shift(k, ExclLeft, ExclWakes), ExclQueued, ExclHanded)
         == k.(leavers := k.leavers - 1, writersQueued := k.writersQueued - 1, owners := k.owners + 1)
  {
  }

  lemma SetReadersWaitNumbers(c: Config, k: Tally, m: Fields, before: nat)
    requires Good(c, k, m) && k.leavers >= 1 && Departing(c, k, m, false, before)
    requires Choose(c, m, before) == ChooseReaders && Writers(before) != 1
    ensures Shift(k, ExclLeft, ExclMoves) == k
    ensures Good(c, k, SetReadersWait(m)) && Departing(c, k, SetReadersWait(m), true, before)
  {
  }

  /** All queued readers become admitted. */
  ghost function ShiftReaders(k: Tally): Tally {
    k.(admitted := k.admitted + k.queued, queued := 0)
  }

  lemma LastWriterPasses(c: Config, k: Tally, m: Fields, before: nat)
    requires Good(c, k, m) && Departing(c, k, m, false, before) && Writers(before) == 1
    ensures Readers(before) >= m.readersSize
    ensures PassReaders(m, before) == m.(readersPass := k.flying)
  {
  }

  lemma ChosenLast(c: Config, k: Tally, m: Fields, before: nat)
    requires Good(c, k, m) && Departing(c, k, m, false, before) && Choose(c, m, before) == ChooseNobody
    ensures Writers(before) == 1
  {
  }

  lemma LastWriterNumbers(c: Config, k: Tally, m: Fields, before: nat)
    requires Good(c, k, m) && k.leavers >= 1 && Departing(c, k, m, false, before)
    requires Choose(c, m, before) == ChooseNobody || (Choose(c, m, before) == ChooseReaders && Writers(before) == 1)
    ensures Writers(before) == 1 && Readers(before) >= m.readersSize
    ensures Good(c, Shift(ShiftReaders(k), ExclLeft, Idle), TakeReaders(PassReaders(m, before)).0)
  {
    hide PassReaders;
    if Choose(c, m, before) == ChooseNobody { ChosenLast(c, k, m, before); }
    LastWriterPasses(c, k, m, before);
  }

  lemma NextFirstPrio(c: Config, k: Tally, m: Fields, before: nat)
    requires Good(c, k, m) && k.leavers >= 1 && Departing(c, k, m, true, before)
    ensures m.writers != []
    ensures NextFirst(c, m, before)
         == m.(writers := m.writers[1..], writersFirst := Some(m.writers[0]),
               writersPrio := if c.fifo then |m.writers| - 1 else 0)
  {
    assert k.writersQueued == Writers(before) - 1 && k.writersQueued < U32;
  }

  /** The tally and the data after RunReaders chose the next first writer and took the readers. */
  ghost function NextTally(k: Tally): Tally {
    k.(leavers := k.leavers - 1, writersQueued := k.writersQueued - 1, waits := k.waits + 1,
       admitted := k.admitted + k.queued, queued := 0)
  }

  lemma NextFirstWord(c: Config, k: Tally, m: Fields, before: nat)
    requires Good(c, k, m) && k.leavers >= 1 && Departing(c, k, m, true, before) && m.writers != []
    ensures Word(NextTally(k), TakeReaders(NextFirst(c, m, before)).0)
  {
  }

  lemma NextFirstRest(c: Config, k: Tally, m: Fields, before: nat)
    requires Good(c, k, m) && k.leavers >= 1 && Departing(c, k, m, true, before) && m.writers != []
    ensures var m' := TakeReaders(NextFirst(c, m, before)).0;
            Token(NextTally(k), m') && Owning(NextTally(k), m') && Waiting(NextTally(k), m') && Prio(c, m')
  {
    NextFirstPrio(c, k, m, before);
    hide NextFirst, Writers, Readers;
  }

  lemma NextTallyShifts(k: Tally)
    ensures Shift(ShiftReaders(Shift(k, ExclQueued, ExclWaits)), ExclMoves, Drains) == NextTally(k)
  {
    assert Shift(k, ExclQueued, ExclWaits) == k.(writersQueued := k.writersQueued - 1, waits := k.waits + 1);
    DrainShift(ShiftReaders(Shift(k, ExclQueued, ExclWaits)));
    hide Shift;
  }

  lemma DrainShift(k: Tally)
    ensures Shift(k, ExclMoves, Drains) == k.(leavers := k.leavers - 1)
  {
  }

  lemma NextFirstNumbers(c: Config, k: Tally, m: Fields, before: nat)
    requires Good(c, k, m) && k.leavers >= 1 && Departing(c, k, m, true, before)
    ensures m.writers != []
    ensures Shift(ShiftReaders(Shift(k, ExclQueued, ExclWaits)), ExclMoves, Drains) == NextTally(k)
    ensures Good(c, NextTally(k), TakeReaders(NextFirst(c, m, before)).0)
  {
    NextFirstPrio(c, k, m, before);
    NextFirstWord(c, k, m, before);
    NextFirstRest(c, k, m, before);
    NextTallyShifts(k);
    hide Shift, NextFirst, Word, Writers, Readers, Token, Owning, Waiting, Prio;
  }
}
