/** What a coroutine does to SharedMutex when nobody disturbs it: in every reachable state it can take steps of
    SharedMutexRuns that do what the methods of SharedMutexImpl do to the heap. */
module SharedMutexAlone {
  import opened Common
  import opened Census
  import opened SharedMutexCode
  import opened SharedMutexRuns
  import opened SharedMutexInvariant
  import opened SharedMutexSteps
  import opened SharedMutexHandOff
  import opened SharedMutexTheorems
  import opened SharedMutexImpl

  lemma Takes(c: Config, s: Sys, t: Tid, a: Action)
    requires Inv(c, s) && Enabled(s, t, a)
    ensures Safe(c, s, t, a) && Inv(c, Apply(c, s, t, a)) && Shape(Apply(c, s, t, a))
  {
    hide Inv, Safe, Apply, Enabled;
    StepKeeps(c, s, t, a);
    InvShape(c, Apply(c, s, t, a));
  }

  /** `t` takes step `a` from `s`, safely, to `s'`. */
  ghost predicate Goes(c: Config, s: Sys, t: Tid, a: Action, s': Sys) {
    Enabled(s, t, a) && Safe(c, s, t, a) && s' == Apply(c, s, t, a)
  }

  /** A stretch of a run from `s` to `s'` in which only `t` takes steps. */
  ghost predicate Undisturbed(c: Config, t: Tid, s: Sys, states: seq<Sys>, ops: seq<Action>, s': Sys) {
    && |states| == |ops| + 1 && states[0] == s && states[|ops|] == s'
    && forall i :: 0 <= i < |ops| ==> Goes(c, states[i], t, ops[i], states[i + 1])
  }

  lemma Starts(c: Config, t: Tid, s: Sys)
    ensures Undisturbed(c, t, s, [s], [], s)
  {
  }

  /** One more step of `t`, what it does to the data and where it leads. */
  lemma Continues(c: Config, t: Tid, s: Sys, states: seq<Sys>, ops: seq<Action>, s1: Sys, a: Action, m: Fields, q: Phase)
    returns (states': seq<Sys>, ops': seq<Action>, s': Sys)
    requires Inv(c, s1) && Enabled(s1, t, a) && Undisturbed(c, t, s, states, ops, s1)
    requires Safe(c, s1, t, a) ==> Apply(c, s1, t, a).m == m && In(Apply(c, s1, t, a), t, q)
    ensures Goes(c, s1, t, a, s') && Inv(c, s') && s'.m == m && In(s', t, q)
    ensures Undisturbed(c, t, s, states', ops', s')
  {
    hide Inv, Safe, Apply, Enabled;
    Takes(c, s1, t, a);
    s' := Apply(c, s1, t, a);
    states', ops' := states + [s'], ops + [a];
    hide Goes;
    assert forall i :: 0 <= i < |ops| ==> Goes(c, states[i], t, ops[i], states[i + 1]);
  }

  lemma CountEffects(c: Config, s: Sys, t: Tid)
    requires In(s, t, Idle) && Shape(s)
    ensures Enabled(s, t, LockSharedOp) && Safe(c, s, t, LockSharedOp)
    ensures var (m, ok), s' := CountReader(s.m), Apply(c, s, t, LockSharedOp);
      s'.m == m && In(s', t, if ok then SharedHeld else SharedInFlight) && s'.lock == s.lock
  {
  }

  lemma SpinEffects(c: Config, s: Sys, t: Tid)
    requires In(s, t, SharedInFlight) && Shape(s) && s.lock == Free
    ensures Enabled(s, t, SharedSpinOp) && Safe(c, s, t, SharedSpinOp)
    ensures var s' := Apply(c, s, t, SharedSpinOp); s'.m == s.m && In(s', t, SharedHasLock)
  {
  }

  lemma BodyEffects(c: Config, s: Sys, t: Tid)
    requires In(s, t, SharedHasLock) && Shape(s)
    ensures Enabled(s, t, SharedBodyOp)
    ensures Safe(c, s, t, SharedBodyOp) ==>
              var (m, suspends), s' := TakePassOrQueue(c, s.m, t), Apply(c, s, t, SharedBodyOp);
              s'.m == m && In(s', t, if suspends then SharedQueued else SharedHeld) && s'.lock == Free
  {
  }

  /** A reader that nobody disturbs does what TryLockSharedAwait and AwaitLockShared do, and holds the lock unless it
      suspends; it leaves the spinlock free. */
  lemma LockSharedIsSteps(c: Config, s: Sys, t: Tid) returns (states: seq<Sys>, ops: seq<Action>, s': Sys)
    requires Reachable(c, s) && In(s, t, Idle) && s.lock == Free
    ensures Undisturbed(c, t, s, states, ops, s')
    ensures var (m, suspends) := LockedShared(c, s.m, t);
      s'.m == m && In(s', t, if suspends then SharedQueued else SharedHeld) && s'.lock == Free
  {
    hide Inv, Reachable, Undisturbed, Apply, Enabled, Safe, In, Shape, CountReader, TakePassOrQueue;
    ReachableInv(c, s);
    InvShape(c, s);
    Starts(c, t, s);
    CountEffects(c, s, t);
    var (m, ok) := CountReader(s.m);
    states, ops, s' := Continues(c, t, s, [s], [], s, LockSharedOp, m, if ok then SharedHeld else SharedInFlight);
    if !ok {
      InvShape(c, s');
      SpinEffects(c, s', t);
      states, ops, s' := Continues(c, t, s, states, ops, s', SharedSpinOp, m, SharedHasLock);
      InvShape(c, s');
      BodyEffects(c, s', t);
      var (m1, suspends) := TakePassOrQueue(c, m, t);
      states, ops, s' :=
        Continues(c, t, s, states, ops, s', SharedBodyOp, m1, if suspends then SharedQueued else SharedHeld);
    }
  }

  /** TryLockShared undisturbed: it takes the lock exactly when no writer is counted, and changes nothing otherwise. */
  lemma TryLockSharedIsSteps(c: Config, s: Sys, t: Tid) returns (states: seq<Sys>, ops: seq<Action>, s': Sys)
    requires Reachable(c, s) && In(s, t, Idle)
    ensures Undisturbed(c, t, s, states, ops, s')
    ensures if Writers(s.m.state) == 0 then s'.m == CountReader(s.m).0 && In(s', t, SharedHeld)
            else s'.m == s.m && In(s', t, Idle)
  {
    hide Inv, Reachable, Undisturbed;
    ReachableInv(c, s);
    Starts(c, t, s);
    if Writers(s.m.state) == 0 {
      states, ops, s' := Continues(c, t, s, [s], [], s, TryLockSharedLoadOp, s.m, SharedTrying);
      states, ops, s' := Continues(c, t, s, states, ops, s', TryLockSharedCasOp(false), CountReader(s.m).0, SharedHeld);
    } else {
      states, ops, s' := Continues(c, t, s, [s], [], s, TryLockSharedLoadOp, s.m, Idle);
    }
  }

  /** TryLock undisturbed: it takes the lock exactly when nobody is counted. */
  lemma TryLockIsSteps(c: Config, s: Sys, t: Tid) returns (states: seq<Sys>, ops: seq<Action>, s': Sys)
    requires Reachable(c, s) && In(s, t, Idle)
    ensures Undisturbed(c, t, s, states, ops, s')
    ensures if s.m.state == 0 then s'.m == s.m.(state := WRITER) && In(s', t, ExclHeld)
            else s'.m == s.m && In(s', t, Idle)
  {
    hide Inv, Reachable, Undisturbed;
    ReachableInv(c, s);
    Starts(c, t, s);
    if s.m.state == 0 {
      states, ops, s' := Continues(c, t, s, [s], [], s, TryLockLoadOp, s.m, ExclTrying);
      states, ops, s' := Continues(c, t, s, states, ops, s', LockCasOp, s.m.(state := WRITER), ExclHeld);
    } else {
      states, ops, s' := Continues(c, t, s, [s], [], s, TryLockLoadOp, s.m, Idle);
    }
  }

  lemma UnlockEffects(c: Config, s: Sys, t: Tid)
    requires In(s, t, SharedHeld) && Shape(s)
    ensures Enabled(s, t, UnlockSharedOp) && Safe(c, s, t, UnlockSharedOp)
    ensures var (m, waits), s' := UncountReader(s.m), Apply(c, s, t, UnlockSharedOp);
      s'.m == m && In(s', t, if waits then SharedLeaving else Idle)
  {
  }

  lemma LeaveEffects(c: Config, s: Sys, t: Tid)
    requires In(s, t, SharedLeaving) && Shape(s)
    ensures Enabled(s, t, UnlockSharedDecOp) && Safe(c, s, t, UnlockSharedDecOp)
    ensures var (m, last), s' := ReaderGone(s.m), Apply(c, s, t, UnlockSharedDecOp);
      s'.m == m && In(s', t, if last then SharedWakes else Idle)
  {
  }

  /** A reader that unlocks undisturbed does what UnlockHereShared does.  A writer that waits as the first one gets
      the lock, and is resumed for it, exactly when it waited for nobody but this reader; nobody else is resumed. */
  lemma UnlockSharedIsSteps(c: Config, s: Sys, t: Tid) returns (states: seq<Sys>, ops: seq<Action>, s': Sys)
    requires Reachable(c, s) && In(s, t, SharedHeld)
    ensures Undisturbed(c, t, s, states, ops, s')
    ensures s'.m == UnlockedShared(s.m).0 && In(s', t, Idle) && |UnlockedShared(s.m).1| <= 1
    ensures forall w <- UnlockedShared(s.m).1 :: In(s, w, ExclWaits)
    ensures forall w :: In(s, w, ExclWaits) ==>
              (w in UnlockedShared(s.m).1 <==> In(s', w, ExclHeld)) && (In(s', w, ExclHeld) <==> Ahead(K(s), s.m) == 1)
  {
    hide Inv, Reachable, Undisturbed, Goes, Apply, Enabled, Safe, Shape, In, UncountReader, ReaderGone, UnlockedShared, Ahead;
    ReachableInv(c, s);
    InvShape(c, s);
    UnlockEffects(c, s, t);
    Starts(c, t, s);
    var (m1, waits) := UncountReader(s.m);
    states, ops, s' := Continues(c, t, s, [s], [], s, UnlockSharedOp, m1, if waits then SharedLeaving else Idle);
    if !waits {
      forall w | In(s, w, ExclWaits) ensures false { FirstIs(c, s, w); Uncounts(s.m); }
      NobodyCounted(s.m);
    } else {
      states, ops, s' := LeavesIsSteps(c, s, states, ops, s', t);
    }
  }

  /** The end of it: a writer is counted. */
  lemma LeavesIsSteps(c: Config, s: Sys, states: seq<Sys>, ops: seq<Action>, s1: Sys, t: Tid)
    returns (states': seq<Sys>, ops': seq<Action>, s': Sys)
    requires Inv(c, s) && Inv(c, s1) && Goes(c, s, t, UnlockSharedOp, s1) && In(s1, t, SharedLeaving)
    requires UncountReader(s.m) == (s1.m, true) && Undisturbed(c, t, s, states, ops, s1)
    ensures Undisturbed(c, t, s, states', ops', s')
    ensures s'.m == UnlockedShared(s.m).0 && In(s', t, Idle) && |UnlockedShared(s.m).1| <= 1
    ensures forall w <- UnlockedShared(s.m).1 :: In(s, w, ExclWaits)
    ensures forall w :: In(s, w, ExclWaits) ==>
              (w in UnlockedShared(s.m).1 <==> In(s', w, ExclHeld)) && (In(s', w, ExclHeld) <==> Ahead(K(s), s.m) == 1)
  {
    hide Inv, Undisturbed, Goes, Apply, Enabled, Safe, Shape, In, UncountReader, ReaderGone, Ahead;
    var (m2, last) := ReaderGone(s1.m);
    InvShape(c, s1);
    LeaveEffects(c, s1, t);
    var s2;
    states', ops', s2 := Continues(c, t, s, states, ops, s1, UnlockSharedDecOp, m2, if last then SharedWakes else Idle);
    s' := s2;
    if last { states', ops', s' := WakesFirst(c, s, states', ops', s2, t); }
    forall w ensures In(s, w, ExclWaits) <==> In(s2, w, ExclWaits) { WaitedBefore(c, s, s1, s2, t, w); }
    forall w | In(s, w, ExclWaits)
      ensures (w in UnlockedShared(s.m).1 <==> In(s', w, ExclHeld)) && (In(s', w, ExclHeld) <==> Ahead(K(s), s.m) == 1)
    {
      FirstIs(c, s, w);
      FirstIs(c, s2, w);
      GoneWas(s.m, s1.m);
      OnePhase(s2, w);
    }
  }

  lemma OnePhase(s: Sys, w: Tid)
    ensures In(s, w, ExclWaits) ==> !In(s, w, ExclHeld)
  {
  }

  lemma Uncounts(m: Fields)
    ensures UncountReader(m).1 <==> m.state >= WRITER
  {
  }

  lemma NobodyCounted(m: Fields)
    requires !UncountReader(m).1
    ensures UnlockedShared(m) == (UncountReader(m).0, [])
  {
  }

  lemma GoneWas(m: Fields, m1: Fields)
    requires UncountReader(m) == (m1, true)
    ensures ReaderGone(m1).1 <==> m.readersWait == 1
    ensures ReaderGone(m1).0.writersFirst == m.writersFirst
  {
  }

  /** The writer that waits as the first one, and how many readers it waits for. */
  lemma FirstIs(c: Config, s: Sys, w: Tid)
    requires Inv(c, s) && In(s, w, ExclWaits)
    ensures s.m.writersFirst == Some(w) && s.m.state >= WRITER && s.m.readersWait == Ahead(K(s), s.m)
  {
    hide N, Of, SharedMutexInvariant.Hands, Queues, Locking, TallyOf;
    TallyPresent(s.pc, w);
    assert LocalsOk(c, K(s), s, w);
  }

  lemma WakesFirst(c: Config, s: Sys, states: seq<Sys>, ops: seq<Action>, s1: Sys, t: Tid)
    returns (states': seq<Sys>, ops': seq<Action>, s': Sys)
    requires Inv(c, s1) && In(s1, t, SharedWakes) && Undisturbed(c, t, s, states, ops, s1)
    ensures Undisturbed(c, t, s, states', ops', s')
    ensures var w := s1.m.writersFirst;
      s'.m == s1.m && In(s', t, Idle) && w.Some? && In(s1, w.value, ExclWaits) && In(s', w.value, ExclHeld)
  {
    hide Inv, Undisturbed;
    Takes(c, s1, t, WakeFirstOp);
    states', ops', s' := Continues(c, t, s, states, ops, s1, WakeFirstOp, s1.m, Idle);
  }

  /** Whoever waits as the first writer goes on waiting while a reader counts itself out. */
  lemma WaitedBefore(c: Config, s: Sys, s1: Sys, s2: Sys, t: Tid, w: Tid)
    requires Goes(c, s, t, UnlockSharedOp, s1) && Goes(c, s1, t, UnlockSharedDecOp, s2)
    ensures In(s, w, ExclWaits) <==> In(s2, w, ExclWaits)
  {
    hide Safe, Shape, Goes;
    WaitedOne(c, s1, s2, t, w, UnlockSharedDecOp);
    WaitedOne(c, s, s1, t, w, UnlockSharedOp);
  }

  lemma WaitedOne(c: Config, s: Sys, s': Sys, t: Tid, w: Tid, a: Action)
    requires Goes(c, s, t, a, s') && (a.UnlockSharedOp? || a.UnlockSharedDecOp?)
    ensures In(s, w, ExclWaits) <==> In(s', w, ExclWaits)
  {
    hide Safe, Shape;
  }

  /** Where a writer is after its steps: it has the lock, or it waits as the first one or in the queue. */
  ghost predicate Placed(s: Sys, t: Tid, suspends: bool) {
    if suspends then In(s, t, ExclWaits) || In(s, t, ExclQueued) else In(s, t, ExclHeld)
  }

  /** A writer that nobody disturbs does what TryLockAwait and AwaitLock do, and has the lock unless it suspends; it
      leaves the spinlock free. */
  lemma LockIsSteps(c: Config, s: Sys, t: Tid) returns (states: seq<Sys>, ops: seq<Action>, s': Sys)
    requires Reachable(c, s) && In(s, t, Idle) && s.lock == Free
    ensures Undisturbed(c, t, s, states, ops, s')
    ensures var (m, suspends) := Locked(c, s.m, t); s'.m == m && Placed(s', t, suspends) && s'.lock == Free
  {
    hide Inv, Reachable, Undisturbed;
    ReachableInv(c, s);
    Starts(c, t, s);
    if s.m.state == 0 {
      states, ops, s' := Continues(c, t, s, [s], [], s, LockLoadOp, s.m, ExclTryingAwait);
      states, ops, s' := Continues(c, t, s, states, ops, s', LockCasOp, s.m.(state := WRITER), ExclHeld);
    } else {
      states, ops, s' := SpinsForLock(c, s, t);
      states, ops, s' := AwaitLockIsSteps(c, s, states, ops, s', t);
    }
  }

  lemma SpinsForLock(c: Config, s: Sys, t: Tid) returns (states: seq<Sys>, ops: seq<Action>, s': Sys)
    requires Inv(c, s) && In(s, t, Idle) && s.lock == Free && s.m.state != 0
    ensures Inv(c, s') && In(s', t, ExclHasLock) && s'.m == s.m && Undisturbed(c, t, s, states, ops, s')
  {
    hide Inv, Undisturbed;
    Starts(c, t, s);
    states, ops, s' := Continues(c, t, s, [s], [], s, LockLoadOp, s.m, ExclWants);
    states, ops, s' := Continues(c, t, s, states, ops, s', SpinOp, s.m, ExclHasLock);
  }

  /** Under the spinlock: AwaitLock. */
  lemma AwaitLockIsSteps(c: Config, s: Sys, states: seq<Sys>, ops: seq<Action>, s1: Sys, t: Tid)
    returns (states': seq<Sys>, ops': seq<Action>, s': Sys)
    requires Inv(c, s1) && In(s1, t, ExclHasLock) && Undisturbed(c, t, s, states, ops, s1)
    ensures Undisturbed(c, t, s, states', ops', s')
    ensures var (m, suspends) := Awaited(c, s1.m, t); s'.m == m && Placed(s', t, suspends) && s'.lock == Free
  {
    hide Inv, Undisturbed, Goes;
    var (m, before) := CountWriter(s1.m);
    states', ops', s' :=
      Continues(c, t, s, states, ops, s1, CountOp, m, if Writers(before) == 0 then ExclFirst else ExclEnqueues);
    if Writers(before) != 0 {
      var s2 := s';
      states', ops', s' := Continues(c, t, s, states', ops', s2, PlaceQueuedOp, QueueWriter(c, m, t), ExclQueued);
      QueuedFrees(c, s2, t, s');
    } else {
      CountSaves(c, s1, t, s');
      states', ops', s' := FirstIsSteps(c, s, states', ops', s', t, Readers(before));
    }
  }

  lemma QueuedFrees(c: Config, s: Sys, t: Tid, s': Sys)
    requires Goes(c, s, t, PlaceQueuedOp, s')
    ensures s'.lock == Free
  {
  }

  lemma CountSaves(c: Config, s: Sys, t: Tid, s': Sys)
    requires Goes(c, s, t, CountOp, s') && Writers(s.m.state) == 0
    ensures t in s'.saved && s'.saved[t] == Readers(s.m.state)
  {
  }

  lemma FirstEffects(c: Config, s: Sys, t: Tid, r: nat)
    requires In(s, t, ExclFirst) && Shape(s) && s.saved[t] == r
    ensures Enabled(s, t, PlaceFirstOp) && Safe(c, s, t, PlaceFirstOp)
    ensures var s' := Apply(c, s, t, PlaceFirstOp);
      && s'.m == BecomeFirst(s.m, t) && In(s', t, if r == 0 then ExclHeld else ExclAdds)
      && t in s'.saved && s'.saved[t] == r && (r == 0 ==> s'.lock == Free)
  {
  }

  lemma AddEffects(c: Config, s: Sys, t: Tid, r: nat)
    requires In(s, t, ExclAdds) && Shape(s) && s.saved[t] == r
    ensures Enabled(s, t, AddReadersOp) && Safe(c, s, t, AddReadersOp)
    ensures var (m, waits), s' := AwaitReaders(s.m, r), Apply(c, s, t, AddReadersOp);
      s'.m == m && In(s', t, if waits then ExclWaits else ExclHeld) && s'.lock == Releasing
  {
  }

  lemma Released(c: Config, s: Sys, t: Tid, p: Phase)
    requires In(s, t, p) && Shape(s) && s.lock == Releasing
    ensures Enabled(s, t, ReleaseOp) && Safe(c, s, t, ReleaseOp)
    ensures var s' := Apply(c, s, t, ReleaseOp); s'.m == s.m && In(s', t, p) && s'.lock == Free
  {
  }

  /** The first writer, which counted `r` readers. */
  lemma FirstIsSteps(c: Config, s: Sys, states: seq<Sys>, ops: seq<Action>, s1: Sys, t: Tid, r: nat)
    returns (states': seq<Sys>, ops': seq<Action>, s': Sys)
    requires Inv(c, s1) && In(s1, t, ExclFirst) && t in s1.saved && s1.saved[t] == r
    requires Undisturbed(c, t, s, states, ops, s1)
    ensures Undisturbed(c, t, s, states', ops', s')
    ensures var m := BecomeFirst(s1.m, t);
      if r == 0 then s'.m == m && In(s', t, ExclHeld) else s'.m == AwaitReaders(m, r).0 && Placed(s', t, AwaitReaders(m, r).1)
    ensures s'.lock == Free
  {
    hide Inv, Undisturbed, Apply, Enabled, Safe, In, Shape, AwaitReaders, BecomeFirst;
    var m := BecomeFirst(s1.m, t);
    InvShape(c, s1);
    FirstEffects(c, s1, t, r);
    states', ops', s' := Continues(c, t, s, states, ops, s1, PlaceFirstOp, m, if r == 0 then ExclHeld else ExclAdds);
    if r != 0 {
      var (m1, waits) := AwaitReaders(m, r);
      InvShape(c, s');
      AddEffects(c, s', t, r);
      var p := if waits then ExclWaits else ExclHeld;
      states', ops', s' := Continues(c, t, s, states', ops', s', AddReadersOp, m1, p);
      InvShape(c, s');
      Released(c, s', t, p);
      states', ops', s' := Continues(c, t, s, states', ops', s', ReleaseOp, m1, p);
    }
  }

  // ---------- the writer unlocks ----------

  /** One more step of `t`. */
  lemma OneMore(c: Config, t: Tid, s: Sys, states: seq<Sys>, ops: seq<Action>, s1: Sys, a: Action)
    returns (states': seq<Sys>, ops': seq<Action>, s': Sys)
    requires Inv(c, s1) && Enabled(s1, t, a) && Undisturbed(c, t, s, states, ops, s1)
    ensures Goes(c, s1, t, a, s') && Inv(c, s') && Undisturbed(c, t, s, states', ops', s')
  {
    hide Inv, Safe, Apply, Enabled;
    Takes(c, s1, t, a);
    s' := Apply(c, s1, t, a);
    states', ops' := states + [s'], ops + [a];
    hide Goes;
    assert forall i :: 0 <= i < |ops| ==> Goes(c, states[i], t, ops[i], states[i + 1]);
  }

  /** Everybody but `t` is where he was, except those of `q`, who are at `p`. */
  ghost predicate Sent(s: Sys, t: Tid, q: seq<Tid>, p: Phase, s': Sys) {
    && s'.pc.Keys == s.pc.Keys
    && forall u :: u in s.pc && u != t ==> s'.pc[u] == if u in q then p else s.pc[u]
  }

  lemma UncontendedEffects(c: Config, s: Sys, t: Tid, s': Sys)
    requires Goes(c, s, t, UnlockOp, s')
    ensures s'.m == (if s.m.state == WRITER then s.m.(state := 0) else s.m) && s'.lock == s.lock
    ensures In(s', t, if s.m.state == WRITER then Idle else ExclSlow) && Sent(s, t, [], Idle, s')
  {
  }

  lemma SlowSpinEffects(c: Config, s: Sys, t: Tid, s': Sys)
    requires Goes(c, s, t, SlowSpinOp, s')
    ensures s'.m == s.m && In(s', t, ExclSlowLocked) && Sent(s, t, [], Idle, s')
  {
  }

  lemma SlowSubEffects(c: Config, s: Sys, t: Tid, s': Sys)
    requires Goes(c, s, t, SlowSubOp, s')
    ensures s' == SlowSub(s, t) && In(s', t, ExclLeft) && t in s'.saved && s'.saved[t] == s.m.state
    ensures s'.m == UncountWriter(s.m).0 && Sent(s, t, [], Idle, s')
  {
  }

  lemma SlowChooseIs(c: Config, s: Sys, t: Tid, s': Sys)
    requires Goes(c, s, t, SlowChooseOp, s')
    ensures Shape(s) && t in s.pc && ChooseSafe(c, s, t) && s' == SlowChoose(c, s, t)
  {
  }

  lemma SlowMoveIs(c: Config, s: Sys, t: Tid, s': Sys)
    requires Goes(c, s, t, SlowMoveOp, s')
    ensures Shape(s) && t in s.pc && MoveSafe(s) && s' == SlowMove(c, s, t)
  {
  }

  /** Who is where after the decision. */
  lemma ChoosePc(c: Config, s: Sys, t: Tid)
    requires Shape(s) && t in s.pc && s.pc[t] == ExclLeft && ChooseSafe(c, s, t)
    ensures var s', before := SlowChoose(c, s, t), s.saved[t];
      match Choose(c, s.m, before)
      case ChooseWriter => In(s', t, ExclWakes) && Sent(s, t, [s.m.writers[0]], ExclHanded, s')
      case ChooseReaders =>
        if Writers(before) == 1 then In(s', t, Drains) && Sent(s, t, s.m.readers, SharedHanded, s')
        else In(s', t, ExclMoves) && Sent(s, t, [], Idle, s') && s'.m.readers == s.m.readers && s'.m.writers == s.m.writers
      case ChooseNobody => In(s', t, Idle) && Sent(s, t, [], Idle, s')
  {
    var before := s.saved[t];
    match Choose(c, s.m, before)
    case ChooseWriter =>
      hide HandWriter, In, Sent;
      HandWriterPc(c, s, t);
    case ChooseReaders =>
      hide HandReaders;
      if Writers(before) == 1 {
        hide In, Sent;
        HandReadersPc(s.(m := PassReaders(s.m, before)), t, s.m.readers);
        SentSame(s, s.(m := PassReaders(s.m, before)), t, s.m.readers, SharedHanded, SlowChoose(c, s, t));
      }
    case ChooseNobody =>
  }

  lemma HandWriterPc(c: Config, s: Sys, t: Tid)
    requires s.m.writers != [] && t in s.pc && s.m.writers[0] in s.pc && s.m.writers[0] != t
    ensures var s' := HandWriter(c, s, t); In(s', t, ExclWakes) && Sent(s, t, [s.m.writers[0]], ExclHanded, s')
  {
  }

  lemma HandReadersPc(s: Sys, t: Tid, q: seq<Tid>)
    requires t in s.pc && t !in q && q == s.m.readers && forall u :: u in q ==> u in s.pc
    ensures var s' := HandReaders(s, t); In(s', t, Drains) && Sent(s, t, q, SharedHanded, s')
  {
  }

  lemma SentSame(s: Sys, s1: Sys, t: Tid, q: seq<Tid>, p: Phase, s': Sys)
    requires s1.pc == s.pc && Sent(s1, t, q, p, s')
    ensures Sent(s, t, q, p, s')
  {
  }

  lemma MovePc(c: Config, s: Sys, t: Tid)
    requires Shape(s) && In(s, t, ExclMoves) && MoveSafe(s)
    ensures var s', w := SlowMove(c, s, t), s.m.writers[0];
      && In(s', t, Drains) && s'.pc.Keys == s.pc.Keys
      && forall u :: u in s.pc && u != t ==>
           s'.pc[u] == if u in s.m.readers then SharedHanded else if u == w then ExclWaits else s.pc[u]
  {
  }

  /** The first writer's turn: it is run. */
  lemma WakesOne(c: Config, s: Sys, states: seq<Sys>, ops: seq<Action>, s1: Sys, t: Tid, w: Tid)
    returns (states': seq<Sys>, ops': seq<Action>, s': Sys)
    requires Inv(c, s1) && In(s1, t, ExclWakes) && t in s1.drain && s1.drain[t] == [w]
    requires Undisturbed(c, t, s, states, ops, s1)
    ensures Undisturbed(c, t, s, states', ops', s')
    ensures s'.m == s1.m && In(s', t, Idle) && w != t && Sent(s1, t, [w], ExclHeld, s') && s'.lock == s1.lock
  {
    hide Inv, Undisturbed;
    states', ops', s' := OneMore(c, t, s, states, ops, s1, WakeWriterOp);
  }

  lemma DrainEffects(c: Config, s: Sys, t: Tid, s': Sys)
    requires Goes(c, s, t, DrainOneOp, s')
    ensures t in s.drain && s.drain[t] != [] && In(s, s.drain[t][0], SharedHanded)
    ensures s'.m == s.m && s'.lock == s.lock && t in s'.drain && s'.drain[t] == s.drain[t][1..]
    ensures s.pc[t] == Drains ==> In(s', t, if s.drain[t][1..] == [] then Idle else Drains)
    ensures Sent(s, t, [s.drain[t][0]], SharedHeld, s')
  {
  }

  lemma SentBoth(s: Sys, s1: Sys, s': Sys, t: Tid, q: seq<Tid>, p: Phase)
    requires q != [] && Sent(s, t, [q[0]], p, s1) && Sent(s1, t, q[1..], p, s')
    ensures Sent(s, t, q, p, s')
  {
    assert q == [q[0]] + q[1..];
  }

  /** The loop that runs the readers, one after the other. */
  lemma {:induction false} DrainsAll(c: Config, s: Sys, states: seq<Sys>, ops: seq<Action>, s1: Sys, t: Tid)
    returns (states': seq<Sys>, ops': seq<Action>, s': Sys)
    requires Inv(c, s1) && In(s1, t, Drains) && t in s1.drain && Undisturbed(c, t, s, states, ops, s1)
    ensures Undisturbed(c, t, s, states', ops', s')
    ensures s'.m == s1.m && In(s', t, Idle) && Sent(s1, t, s1.drain[t], SharedHeld, s') && s'.lock == s1.lock
    decreases |s1.drain[t]|
  {
    hide Inv, Undisturbed, Goes, Sent;
    states', ops', s' := OneMore(c, t, s, states, ops, s1, DrainOneOp);
    DrainEffects(c, s1, t, s');
    var s2, q := s', s1.drain[t];
    if q[1..] == [] {
      assert q == [q[0]];
    } else {
      states', ops', s' := DrainsAll(c, s, states', ops', s2, t);
      SentBoth(s1, s2, s', t, q, SharedHeld);
    }
  }

  /** Where everybody is after an unlock: whoever was resumed has the lock, the new first writer waits for the readers
      before it, all others are where they were. */
  ghost predicate Settled(c: Config, s: Sys, t: Tid, s': Sys)
    requires CanSlowUnlock(c, s.m)
  {
    && s'.pc.Keys == s.pc.Keys
    && forall u :: u in s.pc && u != t ==>
         s'.pc[u] == if u in SlowUnlocked(c, s.m).1 then (if s.pc[u] == SharedQueued then SharedHeld else ExclHeld)
                     else if u in NewFirst(c, s.m) then ExclWaits else s.pc[u]
  }

  /** Everybody but `t` is where he was, except those of `q`, who are at `p`, and the new first writer. */
  ghost predicate Out(s: Sys, t: Tid, q: seq<Tid>, p: Phase, first: seq<Tid>, s': Sys) {
    && s'.pc.Keys == s.pc.Keys
    && forall u :: u in s.pc && u != t ==> s'.pc[u] == if u in q then p else if u in first then ExclWaits else s.pc[u]
  }

  /** What the unlocking writer decides. */
  function Decision(c: Config, f: Fields): Choice {
    var (m, before) := UncountWriter(f);
    Choose(c, m, before)
  }

  lemma WhoIs(c: Config, f: Fields)
    requires CanSlowUnlock(c, f)
    ensures match Decision(c, f)
      case ChooseWriter => f.writers != [] && SlowUnlocked(c, f).1 == [f.writers[0]] && NewFirst(c, f) == []
      case ChooseReaders =>
        && SlowUnlocked(c, f).1 == f.readers != []
        && (Writers(f.state) == 1 ==> NewFirst(c, f) == [])
        && (Writers(f.state) != 1 ==> f.writers != [] && NewFirst(c, f) == [f.writers[0]])
      case ChooseNobody => SlowUnlocked(c, f).1 == [] && NewFirst(c, f) == []
  {
  }

  /** Where those to resume are while they are in the hands of the unlocking writer, and where it is itself. */
  function HandedAt(d: Choice): Phase { if d == ChooseWriter then ExclHanded else SharedHanded }

  function HolderAt(d: Choice): Phase {
    match d case ChooseWriter => ExclWakes case ChooseReaders => Drains case ChooseNobody => Idle
  }

  lemma ChosenNow(c: Config, s: Sys, t: Tid, s1: Sys, s': Sys)
    requires Goes(c, s, t, SlowSubOp, s1) && Goes(c, s1, t, SlowChooseOp, s') && !In(s', t, ExclMoves)
    requires CanSlowUnlock(c, s.m)
    ensures var d := Decision(c, s.m);
      In(s', t, HolderAt(d)) && Out(s, t, SlowUnlocked(c, s.m).1, HandedAt(d), NewFirst(c, s.m), s')
  {
    hide Goes, SlowChoose, SlowSub, ChooseSafe, CanSlowUnlock, SlowUnlocked, NewFirst, Choose, In, Sent, Out;
    SlowSubEffects(c, s, t, s1);
    SlowChooseIs(c, s1, t, s');
    LeftIs(s1, t);
    ChoosePc(c, s1, t);
    WhoIs(c, s.m);
    MovesIs(s', t);
    var d, q := Decision(c, s.m), SlowUnlocked(c, s.m).1;
    if d == ChooseNobody { SentNow(s, t, s1, [], Idle, s'); NobodyAt(s, t, Idle, HandedAt(d), s'); }
    else { SentNow(s, t, s1, q, HandedAt(d), s'); }
  }

  lemma SentNow(s: Sys, t: Tid, s1: Sys, q: seq<Tid>, p: Phase, s': Sys)
    requires Sent(s, t, [], Idle, s1) && Sent(s1, t, q, p, s')
    ensures Out(s, t, q, p, [], s')
  {
  }

  lemma NobodyAt(s: Sys, t: Tid, p: Phase, p': Phase, s': Sys)
    requires Out(s, t, [], p, [], s')
    ensures Out(s, t, [], p', [], s')
  {
  }

  lemma LeftIs(s: Sys, t: Tid)
    ensures In(s, t, ExclLeft) <==> t in s.pc && s.pc[t] == ExclLeft
  {
  }

  lemma MovesIs(s: Sys, t: Tid)
    ensures In(s, t, ExclMoves) <==> t in s.pc && s.pc[t] == ExclMoves
    ensures forall p :: In(s, t, p) && p != ExclMoves ==> !In(s, t, ExclMoves)
  {
  }

  lemma MovedOut(c: Config, s: Sys, t: Tid, s2: Sys, s': Sys)
    requires s2.pc.Keys == s.pc.Keys == s'.pc.Keys && s2.m.readers == s.m.readers && s2.m.writers == s.m.writers != []
    requires Sent(s, t, [], Idle, s2)
    requires forall u :: u in s2.pc && u != t ==>
      s'.pc[u] == if u in s2.m.readers then SharedHanded else if u == s2.m.writers[0] then ExclWaits else s2.pc[u]
    ensures Out(s, t, s.m.readers, SharedHanded, [s.m.writers[0]], s')
  {
  }

  lemma ChosenMoves(c: Config, s: Sys, t: Tid, s1: Sys, s2: Sys)
    requires Goes(c, s, t, SlowSubOp, s1) && Goes(c, s1, t, SlowChooseOp, s2) && In(s2, t, ExclMoves)
    ensures Decision(c, s.m) == ChooseReaders && Writers(s.m.state) != 1
    ensures s2.m.readers == s.m.readers && s2.m.writers == s.m.writers && Sent(s, t, [], Idle, s2)
  {
    hide Goes, SlowChoose, SlowSub, ChooseSafe, Choose, In;
    SlowSubEffects(c, s, t, s1);
    SlowChooseIs(c, s1, t, s2);
    LeftIs(s1, t);
    ChoosePc(c, s1, t);
    MovesIs(s2, t);
  }

  lemma ChosenMoved(c: Config, s: Sys, t: Tid, s1: Sys, s2: Sys, s': Sys)
    requires Goes(c, s, t, SlowSubOp, s1) && Goes(c, s1, t, SlowChooseOp, s2) && In(s2, t, ExclMoves)
    requires Goes(c, s2, t, SlowMoveOp, s') && CanSlowUnlock(c, s.m)
    ensures var d := Decision(c, s.m);
      In(s', t, HolderAt(d)) && Out(s, t, SlowUnlocked(c, s.m).1, HandedAt(d), NewFirst(c, s.m), s')
  {
    hide Goes, SlowMove, CanSlowUnlock, SlowUnlocked, NewFirst, Decision, In, Out;
    ChosenMoves(c, s, t, s1, s2);
    WhoIs(c, s.m);
    SlowMoveIs(c, s2, t, s');
    MovePc(c, s2, t);
    MovedOut(c, s, t, s2, s');
  }

  lemma Next(s: Sys, t: Tid)
    ensures In(s, t, ExclSlowLocked) ==> Enabled(s, t, SlowSubOp)
    ensures In(s, t, ExclLeft) ==> Enabled(s, t, SlowChooseOp)
    ensures In(s, t, ExclMoves) ==> Enabled(s, t, SlowMoveOp)
    ensures forall p :: In(s, t, p) ==> t in s.pc && s.pc[t] == p
    ensures t in s.pc ==> In(s, t, s.pc[t])
  {
  }

  lemma ThroughNow(c: Config, s: Sys, t: Tid, s1: Sys, s2: Sys)
    requires CanRunThrough(c, s, t) && s1 == SlowSub(s, t) && ChooseSafe(c, s1, t) && Shape(s1) && t in s1.pc
    requires s2 == SlowChoose(c, s1, t)
    ensures t in s2.pc && Shape(s2) && (s2.pc[t] != ExclMoves ==> RunThrough(c, s, t) == s2)
    ensures s2.pc[t] == ExclMoves ==> MoveSafe(s2) && RunThrough(c, s, t) == SlowMove(c, s2, t)
    ensures RunThrough(c, s, t).lock == Free
  {
    ChooseFrees(c, s1, t);
    hide SlowChoose, SlowMove, SlowSub, ChooseSafe;
  }

  lemma ChooseFrees(c: Config, s: Sys, t: Tid)
    requires Shape(s) && t in s.pc && ChooseSafe(c, s, t)
    ensures var s' := SlowChoose(c, s, t); t in s'.pc && (s'.pc[t] != ExclMoves ==> s'.lock == Free)
  {
    hide HandOver, HandedBy, Shape;
  }

  /** SlowUnlock up to the release of the spinlock. */
  lemma Chooses(c: Config, s: Sys, states: seq<Sys>, ops: seq<Action>, s1: Sys, t: Tid)
    returns (states': seq<Sys>, ops': seq<Action>, s': Sys)
    requires Inv(c, s1) && In(s1, t, ExclSlowLocked) && Undisturbed(c, t, s, states, ops, s1)
    ensures Undisturbed(c, t, s, states', ops', s') && Inv(c, s') && CanSlowUnlock(c, s1.m)
    ensures var d, (m, q) := Decision(c, s1.m), SlowUnlocked(c, s1.m);
      && s'.m == m && s'.lock == Free && (q != [] ==> t in s'.drain && s'.drain[t] == q)
      && In(s', t, HolderAt(d)) && Out(s1, t, q, HandedAt(d), NewFirst(c, s1.m), s')
  {
    hide Inv, Undisturbed, Goes, SlowChoose, SlowSub, SlowMove, CanSlowUnlock, ChooseSafe, MoveSafe, Decision, RunThrough;
    hide SlowUnlocked, NewFirst, Out, HolderAt, HandedAt, Sent, UncountWriter, CanRunThrough, Enabled, In, Shape;
    Next(s1, t);
    RunsThrough(c, s1, t);
    RunThroughData(c, s1, t);
    states', ops', s' := OneMore(c, t, s, states, ops, s1, SlowSubOp);
    var s2 := s';
    SlowSubEffects(c, s1, t, s2);
    Next(s2, t);
    states', ops', s' := OneMore(c, t, s, states', ops', s2, SlowChooseOp);
    var s3 := s';
    Next(s3, t);
    SlowChooseIs(c, s2, t, s3);
    ThroughNow(c, s1, t, s2, s3);
    if In(s3, t, ExclMoves) {
      states', ops', s' := OneMore(c, t, s, states', ops', s3, SlowMoveOp);
      SlowMoveIs(c, s3, t, s');
      ChosenMoved(c, s1, t, s2, s3, s');
    } else {
      ChosenNow(c, s1, t, s2, s');
    }
  }

  lemma SentOut(s: Sys, t: Tid, q: seq<Tid>, p: Phase, first: seq<Tid>, s1: Sys, p': Phase, s': Sys)
    requires Out(s, t, q, p, first, s1) && Sent(s1, t, q, p', s')
    ensures Out(s, t, q, p', first, s')
  {
  }

  lemma OutSettled(c: Config, s: Sys, t: Tid, s': Sys)
    requires Inv(c, s) && CanSlowUnlock(c, s.m)
    requires var p := if Decision(c, s.m) == ChooseWriter then ExclHeld else SharedHeld;
      Out(s, t, SlowUnlocked(c, s.m).1, p, NewFirst(c, s.m), s')
    ensures Settled(c, s, t, s')
  {
    hide Inv, CanSlowUnlock, Decision, SlowUnlocked, NewFirst, Shape;
    WhoIs(c, s.m);
    forall u <- SlowUnlocked(c, s.m).1
      ensures In(s, u, if Decision(c, s.m) == ChooseWriter then ExclQueued else SharedQueued)
    {
      QueuesOf(c, s, u);
    }
  }

  /** SlowUnlock from the spinlock on: everybody that it resumes ends up with the lock. */
  lemma SlowIsSteps(c: Config, s: Sys, states: seq<Sys>, ops: seq<Action>, s1: Sys, t: Tid)
    returns (states': seq<Sys>, ops': seq<Action>, s': Sys)
    requires Inv(c, s1) && In(s1, t, ExclSlowLocked) && Undisturbed(c, t, s, states, ops, s1)
    ensures Undisturbed(c, t, s, states', ops', s') && In(s', t, Idle) && CanSlowUnlock(c, s1.m)
    ensures s'.m == SlowUnlocked(c, s1.m).0 && Settled(c, s1, t, s') && s'.lock == Free
  {
    hide Inv, Undisturbed, CanSlowUnlock, Decision, SlowUnlocked, NewFirst, Out, Sent, Settled, In;
    states', ops', s' := Chooses(c, s, states, ops, s1, t);
    var s2, d, q := s', Decision(c, s1.m), SlowUnlocked(c, s1.m).1;
    WhoIs(c, s1.m);
    if d == ChooseWriter {
      states', ops', s' := WakesOne(c, s, states', ops', s2, t, q[0]);
      SentOut(s1, t, q, ExclHanded, NewFirst(c, s1.m), s2, ExclHeld, s');
    } else if d == ChooseReaders {
      states', ops', s' := DrainsAll(c, s, states', ops', s2, t);
      SentOut(s1, t, q, SharedHanded, NewFirst(c, s1.m), s2, SharedHeld, s');
    } else {
      NobodyAt(s1, t, SharedHanded, SharedHeld, s2);
    }
    OutSettled(c, s1, t, s');
  }

  lemma SettledFrom(c: Config, s: Sys, t: Tid, s1: Sys, s2: Sys, s': Sys)
    requires s1.m == s.m == s2.m && Sent(s, t, [], Idle, s1) && Sent(s1, t, [], Idle, s2)
    requires CanSlowUnlock(c, s.m) && Settled(c, s2, t, s')
    ensures Settled(c, s, t, s')
  {
    hide CanSlowUnlock, SlowUnlocked, NewFirst;
  }

  /** A writer that unlocks undisturbed does what UnlockHere does: it frees a lock for which nobody else is counted;
      otherwise everybody that SlowUnlock resumes ends up with the lock.  The spinlock is free afterwards. */
  lemma UnlockIsSteps(c: Config, s: Sys, t: Tid) returns (states: seq<Sys>, ops: seq<Action>, s': Sys)
    requires Reachable(c, s) && In(s, t, ExclHeld) && s.lock == Free
    ensures Undisturbed(c, t, s, states, ops, s') && In(s', t, Idle) && s'.lock == Free
    ensures s.m.state == WRITER ==> s'.m == s.m.(state := 0) && Sent(s, t, [], Idle, s')
    ensures s.m.state != WRITER ==>
              CanSlowUnlock(c, s.m) && s'.m == SlowUnlocked(c, s.m).0 && Settled(c, s, t, s')
  {
    hide Inv, Reachable, Undisturbed, Goes, CanSlowUnlock, Settled, SlowUnlocked, Sent;
    ReachableInv(c, s);
    Starts(c, t, s);
    states, ops, s' := OneMore(c, t, s, [s], [], s, UnlockOp);
    var s1 := s';
    UncontendedEffects(c, s, t, s1);
    if s.m.state != WRITER {
      states, ops, s' := OneMore(c, t, s, states, ops, s1, SlowSpinOp);
      var s2 := s';
      SlowSpinEffects(c, s1, t, s2);
      states, ops, s' := SlowIsSteps(c, s, states, ops, s2, t);
      SettledFrom(c, s, t, s1, s2, s');
    }
  }
}
