/** How many readers can get past a writer that was chosen to have SharedMutex next. */
module SharedMutexPassing {
  import opened Common
  import opened Census
  import opened SharedMutexCode
  import opened SharedMutexRuns
  import opened SharedMutexInvariant
  import opened SharedMutexSteps
  import opened SharedMutexHandOff
  import opened SharedMutexTheorems

  /** Some reader that was not admitted before the step is admitted after it. */
  ghost predicate LetsIn(s: Sys, s': Sys) {
    exists r :: LetsInBy(s, s', r)
  }

  ghost predicate LetsInBy(s: Sys, s': Sys, r: Tid) {
    r in s.pc && r in s'.pc && !IsAdmitted(s.pc[r]) && IsAdmitted(s'.pc[r])
  }

  /** The readers that a waiting first writer waits for: admitted, with a pass, or between their two decrements. */
  ghost function ReadersAhead(s: Sys): int { Ahead(K(s), s.m) }

  ghost predicate Passes(s: Sys, s': Sys) {
    s'.m.readersPass + One(LetsIn(s, s')) <= s.m.readersPass && ReadersAhead(s') <= ReadersAhead(s)
  }

  // ---------- one step ----------

  /** One coroutine moves; it spends a pass if it is let in. */
  ghost predicate Spends(p: Phase, q: Phase, m: Fields, m': Fields) {
    && m'.readersPass + One(IsAdmitted(q) && !IsAdmitted(p)) <= m.readersPass
    && m'.readersPass + One(IsAdmitted(q)) + One(IsLeaving(q)) <= m.readersPass + One(IsAdmitted(p)) + One(IsLeaving(p))
  }

  lemma OneMoves(s: Sys, s': Sys, t: Tid, q: Phase)
    requires t in s.pc && s'.pc == s.pc[t := q] && Spends(s.pc[t], q, s.m, s'.m)
    ensures Passes(s, s')
  {
    hide N, Of, TallyOf;
    TallyMoved(s.pc, t, q);
  }

  lemma Stays(s: Sys, s': Sys)
    requires s'.pc == s.pc && s'.m.readersPass == s.m.readersPass
    ensures Passes(s, s')
  {
  }

  /** Two coroutines move that stay inside or outside. */
  lemma TwoMove(s: Sys, s': Sys, t: Tid, p: Phase, r: Tid, q: Phase)
    requires t in s.pc && r in s.pc && r != t && s'.pc == s.pc[t := p][r := q] && s'.m == s.m
    requires IsAdmitted(p) == IsAdmitted(s.pc[t]) && IsLeaving(p) == IsLeaving(s.pc[t])
    requires IsAdmitted(q) == IsAdmitted(s.pc[r]) && IsLeaving(q) == IsLeaving(s.pc[r])
    ensures Passes(s, s')
  {
    hide N, Of, TallyOf;
    TallyMoved(s.pc, t, p);
    TallyMoved(s.pc[t := p], r, q);
  }

  /** What a waiting first writer means for everybody else. */
  lemma WhileWaiting(c: Config, s: Sys, w: Tid)
    requires Inv(c, s) && In(s, w, ExclWaits)
    ensures Shape(s) && Writers(s.m.state) != 0 && s.m.writersFirst == Some(w)
    ensures forall t :: t in s.pc ==> !IsLeaver(s.pc[t]) && (s.pc[t] == SharedTrying ==> Writers(s.saved[t]) == 0)
    ensures s.m.readersWait == ReadersAhead(s)
  {
    hide N, Of, Hands, Queues, Locking, TallyOf;
    TallyPresent(s.pc, w);
    Unpack(s.m.state, CountedWriters(K(s)), CountedReaders(K(s)));
    assert LocalsOk(c, TallyOf(s.pc), s, w);
    forall t | t in s.pc ensures !IsLeaver(s.pc[t]) && (s.pc[t] == SharedTrying ==> Writers(s.saved[t]) == 0) {
      TallyPresent(s.pc, t);
      assert LocalsOk(c, TallyOf(s.pc), s, t);
    }
  }

  ghost predicate Gated(s: Sys, w: Tid) {
    && Shape(s) && Writers(s.m.state) != 0 && s.m.writersFirst == Some(w)
    && forall t :: t in s.pc ==> !IsLeaver(s.pc[t]) && (s.pc[t] == SharedTrying ==> Writers(s.saved[t]) == 0)
  }

  ghost predicate HandsOn(a: Action) { a.WakeFirstOp? || a.WakeWriterOp? || a.DrainOneOp? || a.ReleaseOp? }

  ghost predicate Decides(a: Action) { a.SlowChooseOp? || a.SlowMoveOp? }

  ghost predicate MovesAlone(s: Sys, s': Sys, t: Tid) {
    t in s.pc && t in s'.pc && s'.pc == s.pc[t := s'.pc[t]] && Spends(s.pc[t], s'.pc[t], s.m, s'.m)
  }

  /** The readers' steps before they are admitted or refused. */
  ghost predicate Entering(a: Action) {
    a.LockSharedOp? || a.TryLockSharedLoadOp? || a.TryLockSharedCasOp? || a.SharedSpinOp?
  }

  lemma ReaderSpends(c: Config, s: Sys, t: Tid, a: Action)
    requires Safe(c, s, t, a) && Enabled(s, t, a) && ReaderAction(a) && !HandsOn(a) && !Entering(a)
    ensures MovesAlone(s, Apply(c, s, t, a), t)
  {
    hide Safe;
  }

  predicate Quiet(p: Phase) { !IsAdmitted(p) && !IsLeaving(p) }

  lemma QuietPhases()
    ensures Quiet(Idle) && Quiet(ExclTrying) && Quiet(ExclTryingAwait) && Quiet(ExclWants) && Quiet(ExclHasLock)
    ensures Quiet(ExclHeld) && Quiet(ExclSlow) && Quiet(ExclSlowLocked) && Quiet(ExclLeft) && Quiet(ExclFirst)
    ensures Quiet(ExclEnqueues) && Quiet(ExclQueued) && Quiet(ExclAdds) && Quiet(ExclWaits)
    ensures Quiet(SharedInFlight) && Quiet(SharedHasLock) && Quiet(SharedTrying)
  {
  }

  lemma QuietMoves(s: Sys, s': Sys, t: Tid)
    requires t in s.pc && t in s'.pc && s'.pc == s.pc[t := s'.pc[t]]
    requires Quiet(s'.pc[t]) && s'.m.readersPass == s.m.readersPass
    ensures MovesAlone(s, s', t)
  {
  }

  ghost predicate Placing(a: Action) { a.CountOp? || a.PlaceFirstOp? || a.PlaceQueuedOp? || a.AddReadersOp? }

  lemma PlacingSpends(c: Config, s: Sys, t: Tid, a: Action)
    requires Safe(c, s, t, a) && Enabled(s, t, a) && Placing(a)
    ensures MovesAlone(s, Apply(c, s, t, a), t)
  {
    QuietPhases();
    hide Safe, Quiet, MovesAlone;
    QuietMoves(s, Apply(c, s, t, a), t);
  }

  lemma EnteringSpends(c: Config, s: Sys, t: Tid, a: Action, w: Tid)
    requires Safe(c, s, t, a) && Enabled(s, t, a) && Gated(s, w) && Entering(a)
    ensures MovesAlone(s, Apply(c, s, t, a), t)
  {
    QuietPhases();
    hide Safe, Quiet, MovesAlone;
    if Apply(c, s, t, a).pc == s.pc { StaysPut(s, Apply(c, s, t, a), t); } else { QuietMoves(s, Apply(c, s, t, a), t); }
  }

  lemma WriterSpends(c: Config, s: Sys, t: Tid, a: Action)
    requires Safe(c, s, t, a) && Enabled(s, t, a) && !ReaderAction(a) && !HandsOn(a) && !Decides(a) && !Placing(a)
    ensures MovesAlone(s, Apply(c, s, t, a), t)
  {
    QuietPhases();
    hide Safe, Quiet, MovesAlone;
    if Apply(c, s, t, a) == s { StaysPut(s, s, t); } else { QuietMoves(s, Apply(c, s, t, a), t); }
  }

  lemma StaysPut(s: Sys, s': Sys, t: Tid)
    requires t in s.pc && s'.pc == s.pc && s'.m.readersPass == s.m.readersPass
    ensures MovesAlone(s, s', t)
  {
  }

  lemma WakeWriterPasses(s: Sys, t: Tid)
    requires Shape(s) && t in s.pc && s.pc[t] == ExclWakes && WakeWriterSafe(s, t)
    ensures Passes(s, WakeWriter(s, t))
  {
    hide Passes;
    TwoMove(s, WakeWriter(s, t), t, Idle, s.drain[t][0], ExclHeld);
  }

  lemma DrainIs(s: Sys, t: Tid)
    requires Shape(s) && t in s.pc && s.pc[t] == Drains && DrainSafe(s, t)
    ensures var r, s', q := s.drain[t][0], DrainOne(s, t), if s.drain[t][1..] == [] then Idle else Drains;
      r in s.pc && r != t && s.pc[r] == SharedHanded && s'.pc == s.pc[t := q][r := SharedHeld] && s'.m == s.m
  {
  }

  lemma DrainPasses(s: Sys, t: Tid)
    requires Shape(s) && t in s.pc && s.pc[t] == Drains && DrainSafe(s, t)
    ensures Passes(s, DrainOne(s, t))
  {
    DrainIs(s, t);
    QuietPhases();
    hide Passes, DrainOne, DrainSafe, Shape;
    TwoMove(s, DrainOne(s, t), t, if s.drain[t][1..] == [] then Idle else Drains, s.drain[t][0], SharedHeld);
  }

  lemma HandsOnPasses(c: Config, s: Sys, t: Tid, a: Action, w: Tid)
    requires Safe(c, s, t, a) && Enabled(s, t, a) && HandsOn(a) && s.m.writersFirst == Some(w)
    requires In(Apply(c, s, t, a), w, ExclWaits)
    ensures Passes(s, Apply(c, s, t, a))
  {
    hide Passes, WakeWriter, DrainOne, WakeWriterSafe, DrainSafe;
    match a
    case ReleaseOp => Stays(s, Release(s));
    case WakeWriterOp => WakeWriterPasses(s, t);
    case DrainOneOp => DrainPasses(s, t);
    case _ =>
  }

  lemma StepPasses(c: Config, s: Sys, t: Tid, a: Action, w: Tid)
    requires Inv(c, s) && Enabled(s, t, a) && In(s, w, ExclWaits)
    ensures Safe(c, s, t, a) && (In(Apply(c, s, t, a), w, ExclWaits) ==> Passes(s, Apply(c, s, t, a)))
  {
    hide Inv, Safe, Apply, Passes, Spends, In, ReaderAction, Entering, Placing, ReadersAhead;
    StepKeeps(c, s, t, a);
    WhileWaiting(c, s, w);
    if In(Apply(c, s, t, a), w, ExclWaits) && !Decides(a) {
      if HandsOn(a) { HandsOnPasses(c, s, t, a, w); }
      else {
        if Entering(a) { EnteringSpends(c, s, t, a, w); } else if ReaderAction(a) { ReaderSpends(c, s, t, a); }
        else if Placing(a) { PlacingSpends(c, s, t, a); } else { WriterSpends(c, s, t, a); }
        OneMoves(s, Apply(c, s, t, a), t, Apply(c, s, t, a).pc[t]);
      }
    }
  }

  // ---------- runs ----------

  /** How many steps of a stretch of a run let a reader in. */
  ghost function Admissions(states: seq<Sys>, i: nat, j: nat): nat
    requires i <= j < |states|
    decreases j - i
  {
    if i == j then 0 else One(LetsIn(states[j - 1], states[j])) + Admissions(states, i, j - 1)
  }

  /** While a writer stays the waiting first writer, readers are let in only with the passes that were there at
      the start, and the readers that it waits for, which `_readers_wait` counts, only become fewer. */
  lemma {:induction false} FewReadersPass(c: Config, states: seq<Sys>, events: seq<Event>, i: nat, j: nat, w: Tid)
    requires Run(c, states, events) && i <= j < |states|
    requires forall n :: i <= n <= j ==> In(states[n], w, ExclWaits)
    ensures Admissions(states, i, j) + states[j].m.readersPass <= states[i].m.readersPass
    ensures ReadersAhead(states[j]) <= ReadersAhead(states[i])
    ensures states[j].m.readersWait == ReadersAhead(states[j]) && states[i].m.readersWait == ReadersAhead(states[i])
    decreases j - i
  {
    hide Inv, Init, Safe, Enabled, Apply, LetsIn, ReadersAhead, In, Shape;
    RunsAreSafe(c, states, events, j);
    WhileWaiting(c, states[j], w);
    if i < j {
      FewReadersPass(c, states, events, i, j - 1, w);
      RunsAreSafe(c, states, events, j - 1);
      var e := events[j - 1];
      assert Step(c, states[j - 1], states[j - 1 + 1], e.t, e.a);
      StepPasses(c, states[j - 1], e.t, e.a, w);
    }
  }
}
