/** The steps of SharedMutex that put coroutines into queues, take them out and run them. */
module SharedMutexHandOff {
  import opened Common
  import opened Census
  import opened SharedMutexCode
  import opened SharedMutexRuns
  import opened SharedMutexInvariant
  import opened SharedMutexNumbers
  import opened SharedMutexSteps

  // ---------- joining a queue ----------

  lemma QueueReaderQueues(c: Config, s: Sys, t: Tid)
    requires Queues(s) && t in s.pc && s.pc[t] == SharedHasLock && s.m.readersPass == 0
    ensures Queues(SharedBody(c, s, t))
  {
    var s' := SharedBody(c, s, t);
    assert t !in Of(s.pc, IsQueued);
    assert Of(s'.pc, IsQueued) == Of(s.pc, IsQueued) + {t};
    assert Of(s'.pc, IsWriterQueued) == Of(s.pc, IsWriterQueued);
  }

  lemma QueueReaderKeeps(c: Config, s: Sys, t: Tid)
    requires Inv(c, s) && t in s.pc && s.pc[t] == SharedHasLock && s.m.readersPass == 0
    ensures Writers(s.m.state) != 0
    ensures Inv(c, SharedBody(c, s, t))
  {
    hide N, Of, Hands, Queues, Locking, Locals, LocalsOk, Numbers, Carries, TallyOf, Shift, Departing, Pending;
    var s' := SharedBody(c, s, t);
    TallyPresent(s.pc, t);
    AloneUnderLock(s, t);
    QueueReaderNumbers(c, K(s), s.m, t);
    QueueReaderQueues(c, s, t);
    NoSave(s, t);
    LooseHands(s, t, SharedQueued, s'.m, Free, s.saved[t]);
    LooseLocking(s, t, SharedQueued, s'.m, Free, s.saved[t]);
    TallyMoved(s.pc, t, SharedQueued);
    OtherLocals(c, s, s', t);
  }

  lemma OtherLocals(c: Config, s: Sys, s': Sys, t: Tid)
    requires Inv(c, s) && Shape(s') && t in s.pc && t in s'.pc && s'.pc == s.pc[t := s'.pc[t]] && s'.saved == s.saved
    requires IsToken(s.pc[t]) || (s'.m.writersFirst == s.m.writersFirst && Carries(c, K(s), s.m, K(s'), s'.m))
    requires LocalOk(c, K(s'), s'.m, t, s'.pc[t], s'.saved[t])
    ensures Locals(c, s')
  {
    hide N, Of, Hands, Queues, Locking, Numbers, LocalsOk, LocalOk, Carries, TallyOf, Inv;
    LocalIs(c, K(s'), s', t);
    forall u | u in s'.pc ensures LocalsOk(c, K(s'), s', u) {
      if u != t { OthersKeep(c, s, K(s'), s', t, u); }
    }
  }

  lemma PlaceQueuedQueues(c: Config, s: Sys, t: Tid)
    requires Queues(s) && t in s.pc && s.pc[t] == ExclEnqueues
    ensures Queues(PlaceQueued(c, s, t))
  {
    var s' := PlaceQueued(c, s, t);
    assert t !in Of(s.pc, IsWriterQueued);
    assert Of(s'.pc, IsQueued) == Of(s.pc, IsQueued);
    assert Of(s'.pc, IsWriterQueued) == Of(s.pc, IsWriterQueued) + {t};
  }

  lemma PlaceQueuedKeeps(c: Config, s: Sys, t: Tid)
    requires Inv(c, s) && t in s.pc && s.pc[t] == ExclEnqueues
    ensures Inv(c, PlaceQueued(c, s, t))
  {
    hide N, Of, Hands, Queues, Locking, Locals, LocalsOk, Numbers, Carries, TallyOf, Shift, Departing, Pending;
    var s' := PlaceQueued(c, s, t);
    TallyPresent(s.pc, t);
    AloneUnderLock(s, t);
    QueueWriterNumbers(c, K(s), s.m, t);
    PlaceQueuedQueues(c, s, t);
    NoSave(s, t);
    LooseHands(s, t, ExclQueued, s'.m, Free, s.saved[t]);
    LooseLocking(s, t, ExclQueued, s'.m, Free, s.saved[t]);
    TallyMoved(s.pc, t, ExclQueued);
    OtherLocals(c, s, s', t);
  }

  // ---------- two coroutines move at once: `t` runs `w` ----------

  /** `t` goes to phase `a` and `w` to phase `b`, and neither joins nor leaves a queue or the spinlock. */
  ghost predicate PairMove(s: Sys, s': Sys, t: Tid, a: Phase, w: Tid, b: Phase) {
    && t in s.pc && w in s.pc && t != w
    && s'.m == s.m && s'.lock == s.lock && s'.saved == s.saved
    && s'.pc == s.pc[t := a][w := b]
    && Outside(s.pc[t]) && Outside(a) && Outside(s.pc[w]) && Outside(b)
  }

  ghost predicate Outside(p: Phase) {
    !IsQueued(p) && !IsWriterQueued(p) && !UnderLock(p)
  }

  lemma PairFrames(s: Sys, s': Sys, t: Tid, a: Phase, w: Tid, b: Phase)
    requires PairMove(s, s', t, a, w, b) && Queues(s) && Locking(s)
    ensures Queues(s') && Locking(s')
    ensures K(s') == Shift(Shift(K(s), s.pc[t], a), s.pc[w], b)
  {
    hide N, Of, TallyOf, Shift, Queues, Locking, Outside;
    PairQueues(s, s', t, a, w, b);
    PairLocking(s, s', t, a, w, b);
    TallyMoved(s.pc, t, a);
    TallyMoved(s.pc[t := a], w, b);
  }

  lemma PairLocking(s: Sys, s': Sys, t: Tid, a: Phase, w: Tid, b: Phase)
    requires PairMove(s, s', t, a, w, b) && Locking(s)
    ensures Locking(s')
  {
    hide UnderLock, IsQueued, IsWriterQueued;
  }

  lemma PairQueues(s: Sys, s': Sys, t: Tid, a: Phase, w: Tid, b: Phase)
    requires PairMove(s, s', t, a, w, b) && Queues(s)
    ensures Queues(s')
  {
    PairOf(s, s', t, a, w, b, IsQueued);
    PairOf(s, s', t, a, w, b, IsWriterQueued);
    hide Of, PairMove;
  }

  lemma PairOf(s: Sys, s': Sys, t: Tid, a: Phase, w: Tid, b: Phase, f: Phase -> bool)
    requires PairMove(s, s', t, a, w, b) && !f(s.pc[t]) && !f(a) && !f(s.pc[w]) && !f(b)
    ensures Of(s'.pc, f) == Of(s.pc, f) && s'.m == s.m
  {
  }

  /** When `w` was the only writer with locals, or the tally stays, everybody keeps what it knows. */
  lemma PairLocals(c: Config, s: Sys, s': Sys, t: Tid, a: Phase, w: Tid, b: Phase)
    requires Inv(c, s) && Shape(s') && PairMove(s, s', t, a, w, b)
    requires IsToken(s.pc[w]) || K(s') == K(s)
    requires (a == Idle || a == Drains) && (b == SharedHeld || b == ExclHeld)
    ensures Locals(c, s')
  {
    hide N, Of, Hands, Queues, Locking, Numbers, LocalsOk, Carries, TallyOf, Inv;
    forall u | u in s'.pc ensures LocalsOk(c, K(s'), s', u) {
      PairLocal(c, s, s', t, a, w, b, u);
    }
  }

  lemma PairLocal(c: Config, s: Sys, s': Sys, t: Tid, a: Phase, w: Tid, b: Phase, u: Tid)
    requires Inv(c, s) && Shape(s') && PairMove(s, s', t, a, w, b) && u in s'.pc
    requires IsToken(s.pc[w]) || K(s') == K(s)
    requires (a == Idle || a == Drains) && (b == SharedHeld || b == ExclHeld)
    ensures LocalsOk(c, K(s'), s', u)
  {
    hide N, Of, Hands, Queues, Locking, Numbers, Carries, TallyOf, Departing, Pending, LocalsOk;
    if u == t || u == w {
      LocalNone(c, K(s'), s', u);
    } else if IsToken(s.pc[w]) {
      OthersKeep(c, s, K(s'), s', w, u);
    } else {
      LocalSame(c, K(s), s, s', u);
    }
  }

  lemma TheWaiter(c: Config, s: Sys) returns (w: Tid)
    requires Inv(c, s) && K(s).waits == 1
    ensures In(s, w, ExclWaits) && s.m.writersFirst == Some(w)
  {
    hide N, Of, Hands, Queues, Locking, Numbers;
    w := Witness(s.pc, IsWaiting);
    assert LocalsOk(c, K(s), s, w);
  }

  lemma WakeFirstHands(s: Sys, t: Tid, w: Tid)
    requires Shape(s) && Hands(s) && In(s, t, SharedWakes) && In(s, w, ExclWaits) && s.m.writersFirst == Some(w)
    ensures Hands(WakeFirst(s, t))
  {
    var s1 := Go(s, t, Idle, s.m, s.lock, s.saved[t]);
    NoSave(s, t);
    NoSave(s1, w);
    LooseHands(s, t, Idle, s.m, s.lock, s.saved[t]);
    LooseHands(s1, w, ExclHeld, s.m, s.lock, s1.saved[w]);
  }

  lemma WakeFirstKeeps(c: Config, s: Sys, t: Tid)
    requires Inv(c, s) && t in s.pc && s.pc[t] == SharedWakes
    ensures WakeFirstSafe(s)
    ensures Inv(c, WakeFirst(s, t))
  {
    hide N, Of, Hands, Queues, Locking, Locals, LocalsOk, Numbers, Carries, TallyOf, Shift, Departing, Pending;
    TallyPresent(s.pc, t);
    WakeFirstNumbers(c, K(s), s.m);
    var w := TheWaiter(c, s);
    WakeFirstHands(s, t, w);
    PairFrames(s, WakeFirst(s, t), t, Idle, w, ExclHeld);
    PairLocals(c, s, WakeFirst(s, t), t, Idle, w, ExclHeld);
  }

  lemma WakeWriterHands(s: Sys, t: Tid)
    requires Shape(s) && Hands(s) && t in s.pc && s.pc[t] == ExclWakes
    ensures WakeWriterSafe(s, t) && Hands(WakeWriter(s, t))
  {
    assert HandOk(s, t);
    hide HandOk;
    forall u | u in s.pc ensures HandOk(WakeWriter(s, t), u) {
      assert HandOk(s, u);
      WakeWriterHand(s, t, u);
    }
  }

  lemma WakeWriterHand(s: Sys, t: Tid, u: Tid)
    requires Shape(s) && t in s.pc && s.pc[t] == ExclWakes && HandOk(s, t) && u in s.pc && HandOk(s, u)
    ensures HandOk(WakeWriter(s, t), u)
  {
    var w, s' := s.drain[t][0], WakeWriter(s, t);
    assert s' == s.(pc := s.pc[t := Idle][w := ExclHeld]);
    hide WakeWriter;
    if s.pc[u] == Drains { WakeWriterDrains(s, s', t, w, u); }
  }

  lemma WakeWriterDrains(s: Sys, s': Sys, t: Tid, w: Tid, u: Tid)
    requires Shape(s) && t in s.pc && s.pc[t] == ExclWakes && w in s.pc && s.pc[w] == ExclHanded && u in s.pc
    requires s' == s.(pc := s.pc[t := Idle][w := ExclHeld]) && s.pc[u] == Drains && HandOk(s, u)
    ensures HandOk(s', u)
  {
    forall r | r in s.drain[u] ensures HandedTo(s', r, u) { assert HandedTo(s, r, u); }
  }

  /** The phases from and to which a resumed coroutine and the one that resumes it go. */
  lemma OutsidePhase(p: Phase)
    requires p == Idle || p == Drains || p == ExclWakes || p == SharedHanded || p == SharedHeld || p == ExclHanded || p == ExclHeld
    ensures Outside(p)
  {
  }

  lemma WakeWriterMove(s: Sys, t: Tid)
    requires Shape(s) && t in s.pc && s.pc[t] == ExclWakes && WakeWriterSafe(s, t)
    ensures Shape(WakeWriter(s, t)) && s.pc[s.drain[t][0]] == ExclHanded
    ensures PairMove(s, WakeWriter(s, t), t, Idle, s.drain[t][0], ExclHeld)
  {
    hide Outside;
    OutsidePhase(ExclWakes);
    OutsidePhase(Idle);
    OutsidePhase(ExclHanded);
    OutsidePhase(ExclHeld);
  }

  lemma OwnerStays(k: Tally)
    ensures Shift(Shift(k, ExclWakes, Idle), ExclHanded, ExclHeld) == k
  {
  }

  lemma WakeWriterKeeps(c: Config, s: Sys, t: Tid)
    requires Inv(c, s) && t in s.pc && s.pc[t] == ExclWakes
    ensures WakeWriterSafe(s, t)
    ensures Inv(c, WakeWriter(s, t))
  {
    hide N, Of, Hands, Queues, Locking, Locals, LocalsOk, Numbers, Carries, TallyOf, Shift, Departing, Pending, HandOk,
      WakeWriter, Outside;
    WakeWriterHands(s, t);
    var w := s.drain[t][0];
    WakeWriterMove(s, t);
    OwnerStays(K(s));
    PairFrames(s, WakeWriter(s, t), t, Idle, w, ExclHeld);
    PairLocals(c, s, WakeWriter(s, t), t, Idle, w, ExclHeld);
    WakeWriterSize(s, t);
  }

  lemma WakeWriterSize(s: Sys, t: Tid)
    requires Shape(s) && t in s.pc && WakeWriterSafe(s, t)
    ensures |WakeWriter(s, t).pc| == |s.pc| && WakeWriter(s, t).m == s.m
  {
    assert WakeWriter(s, t).pc.Keys == s.pc.Keys;
  }

  lemma DrainOneHands(s: Sys, t: Tid)
    requires Shape(s) && Hands(s) && t in s.pc && s.pc[t] == Drains
    ensures DrainSafe(s, t) && Hands(DrainOne(s, t))
  {
    assert HandOk(s, t);
    var r := s.drain[t][0];
    assert HandedTo(s, r, t);
    hide HandOk;
    forall u | u in s.pc ensures HandOk(DrainOne(s, t), u) {
      assert HandOk(s, u);
      DrainOneHand(s, t, u);
    }
  }

  lemma DrainOneHand(s: Sys, t: Tid, u: Tid)
    requires Shape(s) && t in s.pc && s.pc[t] == Drains && HandOk(s, t) && u in s.pc && HandOk(s, u)
    requires HandedTo(s, s.drain[t][0], t)
    ensures HandOk(DrainOne(s, t), u)
  {
    var s' := DrainOne(s, t);
    if s'.pc[u] == Drains {
      forall v | v in s'.drain[u] ensures HandedTo(s', v, u) {
        assert v in s.drain[u];
        assert HandedTo(s, v, u);
      }
    }
  }

  lemma HandedStaysAdmitted(k: Tally, p: Phase)
    requires p == Idle || p == Drains
    ensures Shift(Shift(k, Drains, p), SharedHanded, SharedHeld) == k
  {
  }

  lemma DrainMove(s: Sys, t: Tid)
    requires Shape(s) && t in s.pc && s.pc[t] == Drains && DrainSafe(s, t)
    ensures Shape(DrainOne(s, t))
    ensures PairMove(s, DrainOne(s, t), t, if s.drain[t][1..] == [] then Idle else Drains, s.drain[t][0], SharedHeld)
  {
    hide DrainOne, Outside;
    DrainPhases(s, t);
    OutsidePhase(Drains);
    OutsidePhase(Idle);
    OutsidePhase(SharedHanded);
    OutsidePhase(SharedHeld);
  }

  lemma DrainPhases(s: Sys, t: Tid)
    requires Shape(s) && t in s.pc && s.pc[t] == Drains && DrainSafe(s, t)
    ensures var s', r, p := DrainOne(s, t), s.drain[t][0], if s.drain[t][1..] == [] then Idle else Drains;
            && Shape(s') && s'.m == s.m && s'.lock == s.lock && s'.saved == s.saved && s'.pc == s.pc[t := p][r := SharedHeld]
  {
  }

  lemma DrainOneKeeps(c: Config, s: Sys, t: Tid)
    requires Inv(c, s) && t in s.pc && s.pc[t] == Drains
    ensures DrainSafe(s, t)
    ensures Inv(c, DrainOne(s, t))
  {
    hide N, Of, Hands, Queues, Locking, Locals, LocalsOk, Numbers, Carries, TallyOf, Shift, Departing, Pending, HandOk, DrainOne;
    DrainOneHands(s, t);
    var r, s' := s.drain[t][0], DrainOne(s, t);
    DrainMove(s, t);
    var p := if s.drain[t][1..] == [] then Idle else Drains;
    HandedStaysAdmitted(K(s), p);
    PairFrames(s, s', t, p, r, SharedHeld);
    PairLocals(c, s, s', t, p, r, SharedHeld);
  }

  // ---------- the decision of SlowUnlock ----------

  lemma LeaverKnows(c: Config, s: Sys, t: Tid)
    requires Inv(c, s) && t in s.pc && IsLeaver(s.pc[t])
    ensures Departing(c, K(s), s.m, s.pc[t] == ExclMoves, s.saved[t]) && K(s).leavers >= 1
  {
    hide N, Of, Hands, Queues, Locking, Numbers, TallyOf;
    assert LocalsOk(c, K(s), s, t);
    TallyPresent(s.pc, t);
  }

  lemma Suspended(s: Sys)
    requires Queues(s)
    ensures ReadersSuspended(s)
    ensures s.m.writers != [] ==> WriterSuspended(s)
  {
    forall r | r in s.m.readers ensures In(s, r, SharedQueued) { assert r in Of(s.pc, IsQueued); }
    if s.m.writers != [] { assert s.m.writers[0] in Of(s.pc, IsWriterQueued); }
  }

  /** After the decision of `t` no writer has locals except possibly `t` and the one it chose. */
  lemma DecisionLocals(c: Config, s: Sys, k': Tally, s': Sys, t: Tid, w: Tid)
    requires Inv(c, s) && Shape(s') && s'.pc.Keys == s.pc.Keys && s'.saved == s.saved && t in s.pc && w in s.pc
    requires IsToken(s.pc[t])
    requires forall u :: u in s.pc && u != t && u != w ==> s'.pc[u] == s.pc[u] || s'.pc[u] == SharedHanded
    requires LocalOk(c, k', s'.m, t, s'.pc[t], s'.saved[t])
    requires LocalOk(c, k', s'.m, w, s'.pc[w], s'.saved[w])
    requires k' == K(s')
    ensures Locals(c, s')
  {
    hide N, Of, Hands, Queues, Locking, Numbers, LocalOk, Carries, TallyOf, Departing, Pending;
    forall u | u in s'.pc ensures LocalsOk(c, K(s'), s', u) {
      if u == t || u == w { LocalIs(c, k', s', u); }
      else if s'.pc[u] == s.pc[u] { OthersKeep(c, s, k', s', t, u); }
    }
  }

  lemma UnlockingLocking(s: Sys, s': Sys, t: Tid)
    requires Locking(s) && t in s.pc && UnderLock(s.pc[t]) && s'.lock == Free && s'.pc.Keys == s.pc.Keys
    requires !UnderLock(s'.pc[t])
    requires forall u :: u in s.pc && u != t ==> (UnderLock(s'.pc[u]) <==> UnderLock(s.pc[u]))
    ensures Locking(s')
  {
  }

  // RunWriter

  lemma HandWriterQueues(c: Config, s: Sys, t: Tid)
    requires Queues(s) && WriterSuspended(s) && t in s.pc && s.pc[t] == ExclLeft
    ensures Queues(HandWriter(c, s, t))
  {
    var s', w := HandWriter(c, s, t), s.m.writers[0];
    assert Of(s'.pc, IsQueued) == Of(s.pc, IsQueued);
    assert Of(s'.pc, IsWriterQueued) == Of(s.pc, IsWriterQueued) - {w};
    assert forall u :: u in s'.m.writers <==> u in s.m.writers && u != w;
  }

  lemma HandWriterHands(c: Config, s: Sys, t: Tid)
    requires Shape(s) && Hands(s) && WriterSuspended(s) && t in s.pc && s.pc[t] == ExclLeft
    ensures Hands(HandWriter(c, s, t))
  {
    hide HandOk;
    forall u | u in s.pc ensures HandOk(HandWriter(c, s, t), u) {
      assert HandOk(s, u);
      HandWriterHand(c, s, t, u);
    }
  }

  lemma HandWriterHand(c: Config, s: Sys, t: Tid, u: Tid)
    requires Shape(s) && WriterSuspended(s) && t in s.pc && s.pc[t] == ExclLeft && u in s.pc && HandOk(s, u)
    ensures HandOk(HandWriter(c, s, t), u)
  {
    var s' := HandWriter(c, s, t);
    if s.pc[u] == Drains {
      forall r | r in s'.drain[u] ensures HandedTo(s', r, u) { assert HandedTo(s, r, u); }
    }
  }

  lemma HandWriterLocals(c: Config, s: Sys, t: Tid)
    requires Inv(c, s) && WriterSuspended(s) && t in s.pc && s.pc[t] == ExclLeft
    ensures Locals(c, HandWriter(c, s, t))
  {
    hide N, Of, Hands, Queues, Locking, Locals, LocalsOk, Numbers, Carries, TallyOf, Departing, Pending, HandWriter;
    var s', w := HandWriter(c, s, t), s.m.writers[0];
    HandWriterPhases(c, s, t);
    NothingKnown(c, K(s'), s'.m, t, ExclWakes, s'.saved[t]);
    NothingKnown(c, K(s'), s'.m, w, ExclHanded, s'.saved[w]);
    hide LocalOk;
    DecisionLocals(c, s, K(s'), s', t, w);
  }

  lemma NothingKnown(c: Config, k: Tally, m: Fields, t: Tid, p: Phase, x: nat)
    requires p == ExclWakes || p == ExclHanded
    ensures LocalOk(c, k, m, t, p, x)
  {
    hide Pending, Departing;
  }

  lemma HandWriterPhases(c: Config, s: Sys, t: Tid)
    requires Shape(s) && WriterSuspended(s) && t in s.pc && s.pc[t] == ExclLeft
    ensures var s', w := HandWriter(c, s, t), s.m.writers[0];
      && Shape(s') && s'.pc.Keys == s.pc.Keys && s'.saved == s.saved
      && s'.pc[t] == ExclWakes && w in s.pc && s'.pc[w] == ExclHanded
      && forall u :: u in s.pc && u != t && u != w ==> s'.pc[u] == s.pc[u]
  {
  }

  lemma HandWriterLocking(c: Config, s: Sys, t: Tid)
    requires Shape(s) && Locking(s) && WriterSuspended(s) && t in s.pc && s.pc[t] == ExclLeft
    ensures Locking(HandWriter(c, s, t))
  {
    hide Locking;
    PassedLocking(s, HandWriter(c, s, t), t, s.m.writers[0]);
  }

  lemma PassedLocking(s: Sys, s': Sys, t: Tid, w: Tid)
    requires Locking(s) && t in s.pc && s.pc[t] == ExclLeft && w in s.pc && s.pc[w] == ExclQueued
    requires s'.pc == s.pc[t := ExclWakes][w := ExclHanded] && s'.lock == Free
    ensures Locking(s')
  {
    UnlockingLocking(s, s', t);
  }

  lemma HandWriterKeeps(c: Config, s: Sys, t: Tid)
    requires Inv(c, s) && t in s.pc && s.pc[t] == ExclLeft && Choose(c, s.m, s.saved[t]) == ChooseWriter
    ensures ChooseSafe(c, s, t)
    ensures Inv(c, HandWriter(c, s, t))
  {
    hide N, Of, Hands, Queues, Locking, Locals, LocalsOk, Numbers, Carries, TallyOf, Shift, Departing, Pending, HandOk;
    LeaverKnows(c, s, t);
    PopWriterNumbers(c, K(s), s.m, s.saved[t]);
    Suspended(s);
    var s', w := HandWriter(c, s, t), s.m.writers[0];
    HandWriterQueues(c, s, t);
    HandWriterHands(c, s, t);
    HandWriterLocking(c, s, t);
    TallyMoved(s.pc, t, ExclWakes);
    TallyMoved(s.pc[t := ExclWakes], w, ExclHanded);
    HandWriterLocals(c, s, t);
  }

  // RunReaders with writers left: the store

  lemma SetReadersWaitKeeps(c: Config, s: Sys, t: Tid)
    requires Inv(c, s) && t in s.pc && s.pc[t] == ExclLeft
    requires Choose(c, s.m, s.saved[t]) == ChooseReaders && Writers(s.saved[t]) != 1
    ensures ChooseSafe(c, s, t)
    ensures Inv(c, SlowChoose(c, s, t))
  {
    hide N, Of, Hands, Queues, Locking, Locals, LocalsOk, Numbers, Carries, TallyOf, Shift, Departing, Pending, HandOk;
    LeaverKnows(c, s, t);
    SetReadersWaitNumbers(c, K(s), s.m, s.saved[t]);
    Suspended(s);
    NoSave(s, t);
    LooseStep(c, s, t, ExclMoves, SetReadersWait(s.m), s.lock, s.saved[t]);
  }

  // handing the readers' queue over

  /** What HandReaders does to the tally. */
  lemma HandReadersTally(s: Sys, t: Tid)
    requires Shape(s) && Queues(s) && t in s.pc && !IsQueued(s.pc[t])
    ensures K(HandReaders(s, t)) == Shift(ShiftReaders(K(s)), s.pc[t], Drains)
  {
    hide TallyOf, Shift, Queues;
    HandOverTally(s);
    NotTaken(s, t);
    TallyMoved(HandOver(s.pc, s.m.readers), t, Drains);
  }

  lemma Taken(s: Sys, u: Tid)
    requires Queues(s) && u in s.m.readers
    ensures In(s, u, SharedQueued)
  {
    assert u in Of(s.pc, IsQueued);
  }

  lemma NotTaken(s: Sys, t: Tid)
    requires Queues(s) && t in s.pc && !IsQueued(s.pc[t])
    ensures t !in s.m.readers
  {
    assert t !in Of(s.pc, IsQueued);
  }

  lemma HandOverTally(s: Sys)
    requires Queues(s)
    ensures TallyOf(HandOver(s.pc, s.m.readers)) == ShiftReaders(K(s))
  {
    hide N, Of, HandOver;
    HandOverReaders(s);
    forall t | t in s.m.readers ensures t in s.pc && IsQueued(s.pc[t]) { Taken(s, t); }
    SameKinds(s.pc, s.m.readers);
  }

  lemma HandOverReaders(s: Sys)
    requires Queues(s)
    ensures var pc := HandOver(s.pc, s.m.readers);
            N(pc, IsAdmitted) == N(s.pc, IsAdmitted) + N(s.pc, IsQueued) && N(pc, IsQueued) == 0
  {
    HandOverSets(s);
    assert Of(s.pc, IsAdmitted) !! Of(s.pc, IsQueued);
    hide Of, HandOver, Queues;
  }

  lemma HandOverSets(s: Sys)
    requires Queues(s)
    ensures var pc := HandOver(s.pc, s.m.readers);
      Of(pc, IsAdmitted) == Of(s.pc, IsAdmitted) + Of(s.pc, IsQueued) && Of(pc, IsQueued) == {}
  {
    assert forall u :: u in s.m.readers <==> u in Of(s.pc, IsQueued);
  }

  lemma SameKinds(pc: map<Tid, Phase>, q: seq<Tid>)
    requires forall t :: t in q ==> t in pc && IsQueued(pc[t])
    ensures var k, k' := TallyOf(pc), TallyOf(HandOver(pc, q));
            k' == k.(admitted := k'.admitted, queued := k'.queued)
  {
    var pc' := HandOver(pc, q);
    assert Of(pc', IsFlying) == Of(pc, IsFlying);
    assert Of(pc', IsLeaving) == Of(pc, IsLeaving);
    assert Of(pc', IsWaking) == Of(pc, IsWaking);
    assert Of(pc', IsOwner) == Of(pc, IsOwner);
    assert Of(pc', IsSlow) == Of(pc, IsSlow);
    assert Of(pc', IsFirst) == Of(pc, IsFirst);
    assert Of(pc', IsWaiting) == Of(pc, IsWaiting);
    assert Of(pc', IsLeaver) == Of(pc, IsLeaver);
    assert Of(pc', IsWriterQueued) == Of(pc, IsWriterQueued);
    assert Of(pc', IsEnqueuing) == Of(pc, IsEnqueuing);
  }

  lemma HandReadersQueues(s: Sys, t: Tid)
    requires Queues(s) && t in s.pc && IsLeaver(s.pc[t])
    ensures Queues(HandReaders(s, t))
  {
    var s' := HandReaders(s, t);
    assert Of(s'.pc, IsQueued) == {};
    assert Of(s'.pc, IsWriterQueued) == Of(s.pc, IsWriterQueued);
  }

  lemma HandReadersHands(s: Sys, t: Tid)
    requires Shape(s) && Hands(s) && Queues(s) && t in s.pc && IsLeaver(s.pc[t]) && s.m.readers != []
    ensures Hands(HandReaders(s, t))
  {
    hide HandOk, Queues;
    forall u | u in s.pc ensures HandOk(HandReaders(s, t), u) {
      assert HandOk(s, u);
      if u in s.m.readers || u == t { TakenHand(s, t, u); } else { UntakenHand(s, t, u); }
    }
  }

  lemma TakenHand(s: Sys, t: Tid, u: Tid)
    requires Shape(s) && Queues(s) && t in s.pc && IsLeaver(s.pc[t]) && s.m.readers != []
    requires u in s.pc && (u == t || u in s.m.readers)
    ensures HandOk(HandReaders(s, t), u)
  {
    assert t !in Of(s.pc, IsQueued);
    forall r | r in s.m.readers ensures HandedTo(HandReaders(s, t), r, t) { assert r in Of(s.pc, IsQueued); }
  }

  lemma UntakenHand(s: Sys, t: Tid, u: Tid)
    requires Shape(s) && Queues(s) && t in s.pc && IsLeaver(s.pc[t])
    requires u in s.pc && u != t && u !in s.m.readers && HandOk(s, u)
    ensures HandOk(HandReaders(s, t), u)
  {
    var s' := HandReaders(s, t);
    assert forall v :: v in s.m.readers <==> v in Of(s.pc, IsQueued);
    if s.pc[u] == Drains {
      forall r | r in s'.drain[u] ensures HandedTo(s', r, u) { assert HandedTo(s, r, u); }
    }
  }

  /** RunReaders, at its unlock: `s1` is the state just before the readers are taken. */
  lemma HandReadersKeeps(c: Config, s: Sys, s1: Sys, t: Tid, w: Tid)
    requires Inv(c, s) && t in s.pc && IsLeaver(s.pc[t]) && w in s.pc
    requires Shape(s1) && Queues(s1) && Hands(s1) && s1.lock == s.lock && s1.saved == s.saved
    requires s1.m.readers == s.m.readers != []
    requires s1.pc == s.pc || (w != t && Loose(s1.pc[w]) && s1.pc == s.pc[w := ExclWaits] && s1.m.writersFirst == Some(w)
                               && !UnderLock(s.pc[w]))
    requires Numbers(c, Shift(ShiftReaders(K(s1)), s.pc[t], Drains), TakeReaders(s1.m).0)
    ensures Inv(c, HandReaders(s1, t))
  {
    hide N, Of, Hands, Queues, Locking, Locals, LocalsOk, Numbers, Carries, TallyOf, Shift, Departing, Pending, HandOk;
    HandReadersTally(s1, t);
    HandReadersQueues(s1, t);
    HandReadersHands(s1, t);
    HandReadersLocking(s, s1, t, w);
    HandReadersLocals(c, s, s1, t, w);
  }

  lemma HandReadersLocking(s: Sys, s1: Sys, t: Tid, w: Tid)
    requires Locking(s) && t in s.pc && IsLeaver(s.pc[t]) && w in s.pc && Queues(s1) && Shape(s1)
    requires s1.pc == s.pc || (w != t && s1.pc == s.pc[w := ExclWaits] && !UnderLock(s.pc[w]))
    ensures Locking(HandReaders(s1, t))
  {
    hide Queues, UnderLock, HandReaders, IsLeaver, Shape, Locking;
    var s' := HandReaders(s1, t);
    LeaverUnderLock(s.pc[t]);
    HandReadersFree(s1, t);
    HandReadersAt(s1, t, t);
    forall u | u in s.pc && u != t ensures UnderLock(s'.pc[u]) <==> UnderLock(s.pc[u]) {
      HandReadersPhase(s, s1, t, w, u);
    }
    UnlockingLocking(s, s', t);
  }

  lemma HandReadersFree(s: Sys, t: Tid)
    requires Shape(s) && t in s.pc
    ensures HandReaders(s, t).lock == Free
  {
  }

  lemma LeaverUnderLock(p: Phase)
    ensures IsLeaver(p) ==> UnderLock(p)
    ensures !UnderLock(Drains)
  {
  }

  lemma HandReadersPhase(s: Sys, s1: Sys, t: Tid, w: Tid, u: Tid)
    requires Queues(s1) && Shape(s1) && w in s.pc && u in s.pc && u != t
    requires s1.pc == s.pc || (w != t && s1.pc == s.pc[w := ExclWaits] && !UnderLock(s.pc[w]))
    ensures UnderLock(HandReaders(s1, t).pc[u]) <==> UnderLock(s.pc[u])
  {
    if u in s1.m.readers { assert u in Of(s1.pc, IsQueued); }
  }

  lemma HandReadersLocals(c: Config, s: Sys, s1: Sys, t: Tid, w: Tid)
    requires Inv(c, s) && t in s.pc && IsLeaver(s.pc[t]) && w in s.pc && Shape(s1) && s1.saved == s.saved
    requires s1.pc == s.pc || (w != t && s1.pc == s.pc[w := ExclWaits] && s1.m.writersFirst == Some(w))
    ensures Locals(c, HandReaders(s1, t))
  {
    hide Inv, LocalsOk, TallyOf;
    forall u | u in s.pc ensures LocalsOk(c, K(HandReaders(s1, t)), HandReaders(s1, t), u) {
      HandReadersLocal(c, s, s1, t, w, u);
    }
  }

  lemma HandReadersAt(s: Sys, t: Tid, u: Tid)
    requires Shape(s) && t in s.pc && u in s.pc
    ensures var s' := HandReaders(s, t);
            && Shape(s') && s'.pc.Keys == s.pc.Keys && s'.saved == s.saved && s'.m.writersFirst == s.m.writersFirst
            && s'.pc[u] == if u == t then Drains else if u in s.m.readers then SharedHanded else s.pc[u]
  {
  }

  lemma ResumingLocal(c: Config, k: Tally, s: Sys, u: Tid)
    requires Shape(s) && u in s.pc && (s.pc[u] == Drains || s.pc[u] == SharedHanded)
    ensures LocalsOk(c, k, s, u)
  {
    hide Pending, Departing, Writers;
  }

  lemma HandReadersLocal(c: Config, s: Sys, s1: Sys, t: Tid, w: Tid, u: Tid)
    requires Inv(c, s) && t in s.pc && IsLeaver(s.pc[t]) && w in s.pc && Shape(s1) && s1.saved == s.saved
    requires s1.pc == s.pc || (w != t && s1.pc == s.pc[w := ExclWaits] && s1.m.writersFirst == Some(w))
    requires u in s.pc
    ensures LocalsOk(c, K(HandReaders(s1, t)), HandReaders(s1, t), u)
  {
    hide N, Of, Hands, Queues, Locking, Numbers, Carries, TallyOf, Departing, Pending, LocalsOk, HandReaders, Locals;
    HandReadersAt(s1, t, u);
    var s' := HandReaders(s1, t);
    if u == t || u in s1.m.readers {
      ResumingLocal(c, K(s'), s', u);
    } else if s1.pc[u] != s.pc[u] {
      LocalIs(c, K(s'), s', u);
    } else {
      OthersKeep(c, s, K(s'), s', t, u);
    }
  }

  // the last writer leaves

  lemma LastWriterKeeps(c: Config, s: Sys, t: Tid)
    requires Inv(c, s) && t in s.pc && s.pc[t] == ExclLeft
    requires Choose(c, s.m, s.saved[t]) == ChooseReaders && Writers(s.saved[t]) == 1
    ensures ChooseSafe(c, s, t)
    ensures Inv(c, SlowChoose(c, s, t))
  {
    hide N, Of, Hands, Queues, Locking, Locals, LocalsOk, Numbers, Carries, TallyOf, Shift, Departing, Pending, HandOk;
    LeaverKnows(c, s, t);
    LastWriterNumbers(c, K(s), s.m, s.saved[t]);
    Suspended(s);
    DrainsIsUncounted(ShiftReaders(K(s)));
    var s1 := s.(m := PassReaders(s.m, s.saved[t]));
    SameShape(s, s1);
    HandReadersKeeps(c, s, s1, t, t);
  }

  lemma DrainsIsUncounted(k: Tally)
    ensures Shift(k, ExclLeft, Drains) == Shift(k, ExclLeft, Idle)
  {
  }

  lemma SameShape(s: Sys, s1: Sys)
    requires Shape(s) && Queues(s) && Hands(s) && s1 == s.(m := s1.m) && SameQueues(s.m, s1.m)
    ensures Queues(s1) && Hands(s1)
  {
    hide HandOk;
    forall u | u in s1.pc ensures HandOk(s1, u) {
      assert HandOk(s, u);
      SameHand(s, s1, u);
    }
  }

  lemma SameHand(s: Sys, s1: Sys, u: Tid)
    requires Shape(s) && s1 == s.(m := s1.m) && u in s.pc && HandOk(s, u)
    ensures HandOk(s1, u)
  {
    if s.pc[u] == Drains {
      forall r | r in s1.drain[u] ensures HandedTo(s1, r, u) { assert HandedTo(s, r, u); }
    }
  }

  lemma NobodyNextKeeps(c: Config, s: Sys, t: Tid)
    requires Inv(c, s) && t in s.pc && s.pc[t] == ExclLeft
    requires Choose(c, s.m, s.saved[t]) == ChooseNobody
    ensures ChooseSafe(c, s, t)
    ensures Inv(c, SlowChoose(c, s, t))
  {
    hide N, Of, Hands, Queues, Locking, Locals, LocalsOk, Numbers, Carries, TallyOf, Shift, Departing, Pending, HandOk;
    LeaverKnows(c, s, t);
    LastWriterNumbers(c, K(s), s.m, s.saved[t]);
    EmptyReaders(c, K(s), s.m, s.saved[t]);
    NoSave(s, t);
    LooseStep(c, s, t, Idle, PassReaders(s.m, s.saved[t]), Free, s.saved[t]);
  }

  lemma EmptyReaders(c: Config, k: Tally, m: Fields, before: nat)
    requires Numbers(c, k, m) && Choose(c, m, before) == ChooseNobody
    ensures ShiftReaders(k) == k && TakeReaders(PassReaders(m, before)).0 == PassReaders(m, before)
  {
  }

  // RunReaders with writers left: the next first writer

  lemma NextFirstQueues(c: Config, s: Sys, t: Tid)
    requires Shape(s) && Queues(s) && Hands(s) && WriterSuspended(s) && t in s.pc && s.pc[t] == ExclMoves
    ensures var s1 := Goto(s.(m := NextFirst(c, s.m, s.saved[t])), s.m.writers[0], ExclWaits); Queues(s1) && Hands(s1)
  {
    var w := s.m.writers[0];
    var s1 := Goto(s.(m := NextFirst(c, s.m, s.saved[t])), w, ExclWaits);
    FirstQueues(s, s1, w);
    NoSave(s, w);
    hide Queues, Hands;
    LooseHands(s, w, ExclWaits, s1.m, s.lock, s.saved[w]);
  }

  /** The first writer leaves its queue. */
  lemma FirstQueues(s: Sys, s1: Sys, w: Tid)
    requires Queues(s) && WriterSuspended(s) && w == s.m.writers[0] && s1.pc == s.pc[w := ExclWaits]
    requires s1.m.readers == s.m.readers && s1.m.writers == s.m.writers[1..]
    ensures Queues(s1)
  {
    assert Of(s1.pc, IsQueued) == Of(s.pc, IsQueued);
    assert Of(s1.pc, IsWriterQueued) == Of(s.pc, IsWriterQueued) - {w};
  }

  /** The state between the choice of the first writer and the end of RunReaders. */
  function FirstChosen(c: Config, s: Sys, t: Tid): Sys
    requires Shape(s) && t in s.pc && s.m.writers != []
  {
    Goto(s.(m := NextFirst(c, s.m, s.saved[t])), s.m.writers[0], ExclWaits)
  }

  lemma FirstChosenIs(c: Config, s: Sys, t: Tid)
    requires Shape(s) && t in s.pc && s.pc[t] == ExclMoves && WriterSuspended(s)
    ensures var s1, w := FirstChosen(c, s, t), s.m.writers[0];
      && w in s.pc && w != t && s.pc[w] == ExclQueued && s1.pc == s.pc[w := ExclWaits] && Shape(s1)
      && s1.lock == s.lock && s1.saved == s.saved && s1.m == NextFirst(c, s.m, s.saved[t])
      && s1.m.readers == s.m.readers && s1.m.writersFirst == Some(w)
      && Loose(s1.pc[w]) && !UnderLock(s.pc[w]) && SlowMove(c, s, t) == HandReaders(s1, t)
  {
    hide HandReaders;
  }

  lemma SlowMoveKeeps(c: Config, s: Sys, t: Tid)
    requires Inv(c, s) && t in s.pc && s.pc[t] == ExclMoves
    ensures MoveSafe(s)
    ensures Inv(c, SlowMove(c, s, t))
  {
    hide N, Of, Hands, Queues, Locking, Locals, LocalsOk, Numbers, Carries, TallyOf, Shift, Departing, Pending, HandOk;
    LeaverKnows(c, s, t);
    NextFirstNumbers(c, K(s), s.m, s.saved[t]);
    ReadersWaiting(c, K(s), s.m, s.saved[t]);
    Suspended(s);
    NextFirstQueues(c, s, t);
    FirstChosenIs(c, s, t);
    var w, s1 := s.m.writers[0], FirstChosen(c, s, t);
    assert Queues(s1) && Hands(s1);
    hide WriterSuspended, ReadersSuspended, SlowMove, FirstChosen, NextFirst, Loose;
    TallyMoved(s.pc, w, ExclWaits);
    HandReadersKeeps(c, s, s1, t, w);
  }

  lemma ReadersWaiting(c: Config, k: Tally, m: Fields, before: nat)
    requires Numbers(c, k, m) && Departing(c, k, m, true, before)
    ensures m.readers != []
  {
  }
}
