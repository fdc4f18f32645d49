/** What Wait, WaitFor, WaitUntil and co_await of several futures promise, in every interleaving of WaitRuns. */
module WaitProofs {
  import opened Common
  import opened Census
  import opened WaitRuns

  // ---------- the invariant ----------

  predicate IsDue(p: Phase) { p == Armed || p == Calls }
  predicate IsSetting(p: Phase) { p == Sets }
  predicate IsCalled(p: Phase) { p == Called }
  predicate IsReset(p: Phase) { p == Disarmed || p == Late }

  /** The callbacks that were set: those that will still decrement the counter, the producer about to set the
      event, those that are done, and those that were reset. */
  datatype Tally = Tally(due: int, setting: int, called: int, resets: int)

  ghost predicate Natural(k: Tally) { k.due >= 0 && k.setting >= 0 && k.called >= 0 && k.resets >= 0 }

  ghost function TallyOf(pc: map<Tid, Phase>): (k: Tally)
    ensures Natural(k)
  {
    Tally(N(pc, IsDue), N(pc, IsSetting), N(pc, IsCalled), N(pc, IsReset))
  }

  ghost function Shift(k: Tally, p: Phase, q: Phase): Tally {
    Tally(k.due - One(IsDue(p)) + One(IsDue(q)),
          k.setting - One(IsSetting(p)) + One(IsSetting(q)),
          k.called - One(IsCalled(p)) + One(IsCalled(q)),
          k.resets - One(IsReset(p)) + One(IsReset(q)))
  }

  ghost predicate Counts(k: Tally, p: Phase) {
    && (IsDue(p) ==> k.due >= 1) && (p == Sets ==> k.setting >= 1)
    && (p == Called ==> k.called >= 1) && (IsReset(p) ==> k.resets >= 1)
  }

  lemma TallyMoved(pc: map<Tid, Phase>, t: Tid, q: Phase)
    requires t in pc
    ensures TallyOf(pc[t := q]) == Shift(TallyOf(pc), pc[t], q)
    ensures Counts(TallyOf(pc), pc[t])
  {
    hide N, Of;
    Moved(pc, t, q, IsDue);
    Moved(pc, t, q, IsSetting);
    Moved(pc, t, q, IsCalled);
    Moved(pc, t, q, IsReset);
  }

  ghost function Told(k: Tally): int { k.due + k.setting + k.called + k.resets }

  predicate Registers(p: Stage) { p == SetLoad || p == SetCas || p == Subtracts }

  predicate Resets(p: Stage) { p == ResetLoad || p == ResetCas || p == ResetSub }

  predicate Blocks(p: Stage) { p == TimedWait || Resets(p) || p == FinalWait }

  predicate Awaits(p: Stage) { p == AwaitReady || p == AwaitSub || p == Suspended }

  /** A single future: the event is set as soon as the producer is done with it. */
  ghost predicate OneFlag(s: Sys, k: Tally) {
    k.setting == 0 && k.called <= 1 && s.sets == k.called && (s.flag <==> k.called == 1)
  }

  /** Before the waiter subtracts, the counter is out of the producers' reach. */
  ghost predicate WhileRegisters(c: Config, s: Sys, k: Tally) {
    && k.setting == 0 && k.resets == 0
    && (if s.at == Subtracts then s.w <= |c.cores| && (s.w == 0 ==> c.mode == Coroutine) else s.w <= s.i < |c.cores|)
    && (if c.mode == Single then OneFlag(s, k)
        else s.count == |c.cores| + 1 - k.called && !s.flag && s.sets == 0)
  }

  /** Afterwards it counts the callbacks that are due, and those reset but not subtracted yet, and whoever
      takes it to zero sets the event. */
  ghost predicate WhileBlocks(c: Config, s: Sys, k: Tally) {
    && c.mode != Coroutine && 1 <= s.w && k.resets == s.r
    && (s.at == ResetSub ==> 1 <= s.r < s.w)
    && (s.at == TimedWait ==> s.r == 0)
    && (s.at == TimedWait || Resets(s.at) || s.r > 0 ==> c.timed)
    && (if c.mode == Single then s.w == 1 && OneFlag(s, k) && (s.at == FinalWait ==> s.r == 0)
        else Counting(s, k, if Resets(s.at) then s.r else 0))
  }

  ghost predicate Counting(s: Sys, k: Tally, pending: nat) {
    s.count == k.due + pending && k.setting + s.sets == One(s.count == 0) && (s.flag <==> s.sets == 1)
  }

  ghost predicate WhileAwaits(c: Config, s: Sys, k: Tally) {
    && c.mode == Coroutine && s.sets == 0 && k.resets == 0
    && (s.at == Suspended || s.at == AwaitSub ==> s.next)
    && (s.count == k.due + if s.at == Suspended then 0 else 1)
    && k.setting == One(s.count == 0)
  }

  ghost predicate WhenReturned(c: Config, s: Sys, k: Tally) {
    k.due == 0 && k.setting == 0 && s.sets <= 1 && (if s.at == ReturnedTrue then k.resets == 0 else k.resets >= 1 && c.timed)
  }

  ghost predicate Numbers(c: Config, s: Sys, k: Tally) {
    && (!Returned(s.at) ==> Told(k) == s.w)
    && (Registers(s.at) ==> s.r == 0 && WhileRegisters(c, s, k))
    && (Blocks(s.at) ==> WhileBlocks(c, s, k))
    && (Awaits(s.at) ==> WhileAwaits(c, s, k))
    && (Returned(s.at) ==> WhenReturned(c, s, k))
  }

  /** How many cores SetCallback has gone through. */
  function Visited(c: Config, s: Sys): nat {
    if s.at == SetLoad || s.at == SetCas then s.i else |c.cores|
  }

  ghost predicate CoreOk(c: Config, s: Sys, j: nat)
    requires j < |c.cores|
  {
    && c.cores[j] in s.pc
    && if j < Visited(c, s) then s.pc[c.cores[j]] != Bare
       else s.pc[c.cores[j]] == Bare || s.pc[c.cores[j]] == Ready
  }

  ghost predicate Cores(c: Config, s: Sys) {
    forall j :: 0 <= j < |c.cores| ==> CoreOk(c, s, j)
  }

  ghost predicate Inv(c: Config, s: Sys) {
    ConfigOk(c) && Shape(c, s) && Cores(c, s) && Numbers(c, s, TallyOf(s.pc))
  }

  // ---------- every step keeps it ----------

  lemma InitCores(c: Config, s: Sys)
    requires s.pc.Keys == Elements(c.cores) && s.at == SetLoad && s.i == 0
    requires forall t :: t in s.pc ==> s.pc[t] == Bare || s.pc[t] == Ready
    ensures Cores(c, s)
  {
    forall j | 0 <= j < |c.cores| ensures CoreOk(c, s, j) { assert c.cores[j] in Elements(c.cores); }
  }

  lemma InitInv(c: Config, s: Sys)
    requires Init(c, s)
    ensures Inv(c, s)
  {
    hide Distinct;
    InitCores(c, s);
    assert CoreOk(c, s, 0);
    hide N, Of, Cores, CoreOk;
    Nobody(s.pc, IsDue);
    Nobody(s.pc, IsSetting);
    Nobody(s.pc, IsCalled);
    Nobody(s.pc, IsReset);
  }

  /** One core changes; all the others are as they were. */
  lemma CoresKeep(c: Config, s: Sys, s': Sys, t: Tid)
    requires Cores(c, s) && t in s.pc && t in s'.pc && s'.pc == s.pc[t := s'.pc[t]]
    requires Visited(c, s') == Visited(c, s)
    requires s.pc[t] != Bare ==> s'.pc[t] != Bare && (s.pc[t] == Ready ==> s'.pc[t] == Ready)
    requires s.pc[t] == Bare ==> s'.pc[t] == Ready
    ensures Cores(c, s')
  {
    forall j | 0 <= j < |c.cores| ensures CoreOk(c, s', j) { assert CoreOk(c, s, j); }
  }

  lemma PublishTally(pc: map<Tid, Phase>, t: Tid)
    requires t in pc && (pc[t] == Bare || pc[t] == Disarmed || pc[t] == Armed)
    ensures TallyOf(pc[t := Published(pc[t])]) == TallyOf(pc)
  {
    hide TallyOf;
    TallyMoved(pc, t, Published(pc[t]));
  }

  lemma PublishKeeps(c: Config, s: Sys, t: Tid)
    requires Inv(c, s) && Enabled(c, s, PublishOp(t))
    ensures Inv(c, Publish(s, t))
  {
    hide TallyOf, Cores, Numbers;
    var s' := Publish(s, t);
    PublishTally(s.pc, t);
    NumbersSame(c, s, s', TallyOf(s.pc));
    CoresKeep(c, s, s', t);
  }

  lemma NumbersSame(c: Config, s: Sys, s': Sys, k: Tally)
    requires Numbers(c, s, k) && s' == s.(pc := s'.pc)
    ensures Numbers(c, s', k)
  {
  }

  ghost function AfterSub(c: Config, s: Sys, k: Tally): Tally {
    if c.mode != Single && s.count == 1 then k.(due := k.due - 1, setting := k.setting + 1)
    else k.(due := k.due - 1, called := k.called + 1)
  }

  lemma SubRegisters(c: Config, s: Sys, t: Tid, k: Tally)
    requires Registers(s.at) && WhileRegisters(c, s, k) && Told(k) == s.w && ConfigOk(c) && Natural(k) && k.due >= 1
    ensures WhileRegisters(c, Sub(c, s, t), AfterSub(c, s, k)) && (c.mode != Single ==> s.count > 1)
  {
  }

  lemma SubBlocks(c: Config, s: Sys, t: Tid, k: Tally)
    requires Blocks(s.at) && WhileBlocks(c, s, k) && Told(k) == s.w && Natural(k) && k.due >= 1
    ensures WhileBlocks(c, Sub(c, s, t), AfterSub(c, s, k)) && (c.mode != Single ==> s.count >= 1)
  {
  }

  lemma SubAwaits(c: Config, s: Sys, t: Tid, k: Tally)
    requires Awaits(s.at) && WhileAwaits(c, s, k) && Natural(k) && k.due >= 1
    ensures WhileAwaits(c, Sub(c, s, t), AfterSub(c, s, k)) && s.count >= 1
  {
  }

  lemma SubShift(c: Config, s: Sys, t: Tid, k: Tally)
    requires t in s.pc && Natural(k) && k.due >= 1
    ensures t in Sub(c, s, t).pc && Shift(k, Calls, Sub(c, s, t).pc[t]) == AfterSub(c, s, k)
  {
  }

  lemma SubStage(c: Config, s: Sys, t: Tid, k: Tally)
    requires t in s.pc
    ensures Told(AfterSub(c, s, k)) == Told(k)
    ensures var s' := Sub(c, s, t); s'.at == s.at && s'.w == s.w && s'.r == s.r
  {
  }

  lemma SubNumbers(c: Config, s: Sys, t: Tid, k: Tally)
    requires Numbers(c, s, k) && ConfigOk(c) && Natural(k) && Is(s, t, Calls) && k.due >= 1
    ensures Numbers(c, Sub(c, s, t), Shift(k, Calls, Sub(c, s, t).pc[t]))
    ensures !Returned(s.at) && (c.mode != Single ==> s.count >= 1)
  {
    hide ConfigOk, WhileRegisters, WhileBlocks, WhileAwaits, Shift, AfterSub, Sub, Told;
    SubShift(c, s, t, k);
    SubStage(c, s, t, k);
    if Registers(s.at) { SubRegisters(c, s, t, k); }
    if Blocks(s.at) { SubBlocks(c, s, t, k); }
    if Awaits(s.at) { SubAwaits(c, s, t, k); }
  }

  lemma SubKeeps(c: Config, s: Sys, t: Tid)
    requires Inv(c, s) && Enabled(c, s, SubOp(t))
    ensures Safe(c, s, SubOp(t)) && Inv(c, Sub(c, s, t))
  {
    hide TallyOf, Numbers, Cores, Shift;
    TallyMoved(s.pc, t, Sub(c, s, t).pc[t]);
    SubNumbers(c, s, t, TallyOf(s.pc));
    CoresKeep(c, s, Sub(c, s, t), t);
  }

  /** Only the last producer sets the event. */
  lemma SetNumbers(c: Config, s: Sys, t: Tid, k: Tally)
    requires Numbers(c, s, k) && ConfigOk(c) && Natural(k) && k.setting >= 1
    ensures Numbers(c, Set(c, s, t), k.(setting := k.setting - 1, called := k.called + 1))
    ensures Visited(c, Set(c, s, t)) == Visited(c, s)
    ensures !Returned(s.at) && s.sets == 0 && (c.mode == Coroutine ==> s.next && s.at == Suspended)
  {
    hide Distinct;
    if Awaits(s.at) {
      assert s.at == Suspended;
    } else {
      assert Blocks(s.at) && c.mode == Several;
    }
  }

  lemma SetTally(pc: map<Tid, Phase>, t: Tid)
    requires t in pc && pc[t] == Sets
    ensures var k := TallyOf(pc); TallyOf(pc[t := Called]) == k.(setting := k.setting - 1, called := k.called + 1)
    ensures TallyOf(pc).setting >= 1
  {
    hide TallyOf;
    TallyMoved(pc, t, Called);
  }

  lemma SetKeeps(c: Config, s: Sys, t: Tid)
    requires Inv(c, s) && Enabled(c, s, SetOp(t))
    ensures Safe(c, s, SetOp(t)) && Inv(c, Set(c, s, t))
  {
    hide TallyOf, Numbers, Cores, Shift;
    SetTally(s.pc, t);
    SetNumbers(c, s, t, TallyOf(s.pc));
    CoresKeep(c, s, Set(c, s, t), t);
  }

  // ---------- the waiter ----------

  lemma SetCallbackCores(c: Config, s: Sys)
    requires Inv(c, s) && (s.at == SetLoad || s.at == SetCas)
    ensures Cores(c, SetCallback(c, s)) && Shape(c, SetCallback(c, s))
  {
    hide Numbers;
    SetCallbackShape(c, s);
    hide Shape;
    var s' := SetCallback(c, s);
    forall j | 0 <= j < |c.cores| ensures CoreOk(c, s', j) { assert CoreOk(c, s, j); }
  }

  lemma SetCallbackShape(c: Config, s: Sys)
    requires Inv(c, s) && (s.at == SetLoad || s.at == SetCas)
    ensures Shape(c, s) && Shape(c, SetCallback(c, s))
  {
    hide Numbers, CoreOk;
  }

  lemma NextSetRegisters(c: Config, s: Sys, done: bool, k: Tally, k': Tally)
    requires (s.at == SetLoad || s.at == SetCas) && WhileRegisters(c, s, k) && Told(k) == s.w && Natural(k)
    requires Registers(NextSet(c, s, done).at) && k' == if done then k.(due := k.due + 1) else k
    ensures WhileRegisters(c, NextSet(c, s, done), k')
  {
  }

  lemma NextSetReturns(c: Config, s: Sys, done: bool, k: Tally, k': Tally)
    requires (s.at == SetLoad || s.at == SetCas) && WhileRegisters(c, s, k) && Told(k) == s.w && Natural(k)
    requires Returned(NextSet(c, s, done).at) && k' == if done then k.(due := k.due + 1) else k
    ensures WhenReturned(c, NextSet(c, s, done), k')
  {
  }

  lemma NextSetAt(c: Config, s: Sys, done: bool)
    ensures var s' := NextSet(c, s, done);
      && s'.w == s.w + One(done) && s'.r == s.r
      && (Registers(s'.at) || Returned(s'.at)) && !(Registers(s'.at) && Returned(s'.at))
      && !Blocks(s'.at) && !Awaits(s'.at)
  {
  }

  /** SetCallback of core `i` is over, `done` or not. */
  lemma NextSetNumbers(c: Config, s: Sys, done: bool, k: Tally)
    requires (s.at == SetLoad || s.at == SetCas) && WhileRegisters(c, s, k) && s.r == 0 && Told(k) == s.w
    requires ConfigOk(c) && Natural(k)
    ensures Numbers(c, NextSet(c, s, done), if done then k.(due := k.due + 1) else k)
  {
    hide ConfigOk, WhileRegisters, WhileBlocks, WhileAwaits, WhenReturned, NextSet, Registers, Returned,
      Blocks, Awaits;
    NextSetAt(c, s, done);
    var k' := if done then k.(due := k.due + 1) else k;
    if Returned(NextSet(c, s, done).at) {
      NextSetReturns(c, s, done, k, k');
    } else {
      NextSetRegisters(c, s, done, k, k');
    }
  }

  lemma ArmTally(pc: map<Tid, Phase>, t: Tid)
    requires t in pc && pc[t] == Bare
    ensures var k := TallyOf(pc); TallyOf(pc[t := Armed]) == k.(due := k.due + 1)
  {
    hide TallyOf;
    TallyMoved(pc, t, Armed);
  }

  lemma RegistersNumbers(c: Config, s: Sys, t: Tid)
    requires Numbers(c, s, TallyOf(s.pc)) && Registers(s.at) && t in s.pc
    ensures WhileRegisters(c, s, TallyOf(s.pc)) && Told(TallyOf(s.pc)) == s.w && s.r == 0
    ensures s.pc[t] != Disarmed
  {
    hide TallyOf;
    TallyMoved(s.pc, t, Bare);
  }

  lemma SetCasNumbers(c: Config, s: Sys)
    requires s.at == SetLoad && Numbers(c, s, TallyOf(s.pc))
    ensures Numbers(c, s.(at := SetCas), TallyOf(s.pc))
  {
    hide TallyOf;
  }

  lemma SetCallbackKeeps(c: Config, s: Sys)
    requires Inv(c, s) && (s.at == SetLoad || s.at == SetCas)
    ensures Inv(c, SetCallback(c, s))
  {
    hide TallyOf, Cores, Numbers, WhileRegisters, Told;
    var t := c.cores[s.i];
    RegistersNumbers(c, s, t);
    SetCallbackCores(c, s);
    if s.pc[t] != Bare {
      NextSetNumbers(c, s, false, TallyOf(s.pc));
    } else if s.at == SetCas {
      ArmTally(s.pc, t);
      NextSetNumbers(c, s, true, TallyOf(s.pc));
      NumbersSame(c, NextSet(c, s, true), SetCallback(c, s), TallyOf(SetCallback(c, s).pc));
    } else {
      SetCasNumbers(c, s);
    }
  }

  lemma ResetCores(c: Config, s: Sys)
    requires Inv(c, s) && (s.at == ResetLoad || s.at == ResetCas)
    ensures Cores(c, Reset(c, s)) && Shape(c, Reset(c, s))
  {
    hide Numbers, Distinct;
    var s' := Reset(c, s);
    forall j | 0 <= j < |c.cores| ensures CoreOk(c, s', j) { assert CoreOk(c, s, j); }
  }

  lemma NextResetNumbers(c: Config, s: Sys, done: bool, k: Tally)
    requires (s.at == ResetLoad || s.at == ResetCas) && WhileBlocks(c, s, k) && Told(k) == s.w
    requires Natural(k) && (done ==> k.due >= 1)
    ensures Numbers(c, NextReset(c, s, done), if done then k.(due := k.due - 1, resets := k.resets + 1) else k)
  {
    hide WhileRegisters, WhileAwaits;
    if c.mode == Single { hide Counting; } else { hide OneFlag; }
  }

  lemma DisarmTally(pc: map<Tid, Phase>, t: Tid)
    requires t in pc && pc[t] == Armed
    ensures var k := TallyOf(pc); TallyOf(pc[t := Disarmed]) == k.(due := k.due - 1, resets := k.resets + 1)
    ensures TallyOf(pc).due >= 1
  {
    hide TallyOf;
    TallyMoved(pc, t, Disarmed);
  }

  lemma BlocksNumbers(c: Config, s: Sys)
    requires Numbers(c, s, TallyOf(s.pc)) && Blocks(s.at)
    ensures WhileBlocks(c, s, TallyOf(s.pc)) && Told(TallyOf(s.pc)) == s.w
    ensures s.at == ResetLoad ==> Numbers(c, s.(at := ResetCas), TallyOf(s.pc))
  {
    hide TallyOf;
  }

  lemma ResetKeeps(c: Config, s: Sys)
    requires Inv(c, s) && (s.at == ResetLoad || s.at == ResetCas)
    ensures Inv(c, Reset(c, s))
  {
    hide TallyOf, Cores, Numbers, WhileBlocks, Told;
    var t := c.cores[s.i];
    BlocksNumbers(c, s);
    ResetCores(c, s);
    if s.pc[t] != Armed {
      NextResetNumbers(c, s, false, TallyOf(s.pc));
    } else if s.at == ResetCas {
      DisarmTally(s.pc, t);
      NextResetNumbers(c, s, true, TallyOf(s.pc));
      NumbersSame(c, NextReset(c, s, true), Reset(c, s), TallyOf(Reset(c, s).pc));
    }
  }

  ghost predicate Elsewhere(a: Action) {
    a.SubtractOp? || a.TimedWaitOp? || a.ResetSubOp? || a.FinalWaitOp? || a.AwaitReadyOp? || a.AwaitSubOp?
  }

  lemma SubtractNumbers(c: Config, s: Sys, k: Tally)
    requires Numbers(c, s, k) && ConfigOk(c) && Natural(k) && s.at == Subtracts
    ensures s.w <= |c.cores| && (c.mode != Single ==> s.count >= Unset(c, s)) && Numbers(c, Subtract(c, s), k)
  {
    hide Distinct;
    assert WhileRegisters(c, s, k);
    if c.mode == Coroutine { assert WhileAwaits(c, Subtract(c, s), k); }
    else if !Returned(Subtract(c, s).at) { assert WhileBlocks(c, Subtract(c, s), k); }
  }

  lemma TimeOutNumbers(c: Config, s: Sys, k: Tally)
    requires Numbers(c, s, k) && Natural(k) && s.at == TimedWait
    ensures Numbers(c, TimeOut(s), k)
  {
  }

  lemma SubtractResetNumbers(c: Config, s: Sys, k: Tally)
    requires Numbers(c, s, k) && Natural(k) && s.at == ResetSub
    ensures s.count >= s.r && Numbers(c, SubtractReset(c, s), k)
  {
    assert WhileBlocks(c, s, k);
  }

  lemma FinalWaitNumbers(c: Config, s: Sys, k: Tally)
    requires Numbers(c, s, k) && Natural(k) && s.at == FinalWait && s.flag
    ensures Numbers(c, s.(at := if s.r == 0 then ReturnedTrue else ReturnedFalse), k)
  {
  }

  lemma AwaitReadyNumbers(c: Config, s: Sys, k: Tally)
    requires Numbers(c, s, k) && Natural(k) && s.at == AwaitReady
    ensures Numbers(c, s.(at := if s.count == 1 then ReturnedTrue else AwaitSub, next := s.count != 1), k)
  {
  }

  lemma SuspendNumbers(c: Config, s: Sys, k: Tally)
    requires Numbers(c, s, k) && Natural(k) && s.at == AwaitSub
    ensures s.count >= 1 && Numbers(c, Suspend(s), k)
  {
  }

  lemma ElsewhereNumbers(c: Config, s: Sys, a: Action, k: Tally)
    requires Numbers(c, s, k) && ConfigOk(c) && Natural(k) && Enabled(c, s, a) && Elsewhere(a)
    ensures Safe(c, s, a) && Numbers(c, Apply(c, s, a), k)
  {
    hide Numbers, ConfigOk, Shape;
    match a
    case SubtractOp => SubtractNumbers(c, s, k);
    case TimedWaitOp(_) => TimeOutNumbers(c, s, k);
    case ResetSubOp => SubtractResetNumbers(c, s, k);
    case FinalWaitOp => FinalWaitNumbers(c, s, k);
    case AwaitReadyOp => AwaitReadyNumbers(c, s, k);
    case AwaitSubOp => SuspendNumbers(c, s, k);
  }

  lemma ElsewhereKeeps(c: Config, s: Sys, a: Action)
    requires Inv(c, s) && Enabled(c, s, a) && Elsewhere(a)
    ensures Safe(c, s, a) && Inv(c, Apply(c, s, a))
  {
    hide TallyOf, Numbers, Safe;
    var s' := Apply(c, s, a);
    ElsewhereNumbers(c, s, a, TallyOf(s.pc));
    forall j | 0 <= j < |c.cores| ensures CoreOk(c, s', j) { assert CoreOk(c, s, j); }
  }

  lemma StepKeeps(c: Config, s: Sys, a: Action)
    requires Inv(c, s) && Enabled(c, s, a)
    ensures Safe(c, s, a) && Inv(c, Apply(c, s, a))
  {
    hide Inv, Shape;
    match a
    case PublishOp(t) => PublishKeeps(c, s, t);
    case SubOp(t) => SubKeeps(c, s, t);
    case SetOp(t) => SetKeeps(c, s, t);
    case SetCallbackOp => SetCallbackKeeps(c, s);
    case ResetOp => ResetKeeps(c, s);
    case _ => ElsewhereKeeps(c, s, a);
  }

  // ---------- runs ----------

  /** A step that breaks an assumption of the code may do anything at all. */
  ghost predicate Step(c: Config, s: Sys, s': Sys, a: Action) {
    Enabled(c, s, a) && (Safe(c, s, a) ==> s' == Apply(c, s, a))
  }

  ghost predicate Run(c: Config, states: seq<Sys>, events: seq<Action>) {
    && |states| == |events| + 1
    && Init(c, states[0])
    && forall i :: 0 <= i < |events| ==> Step(c, states[i], states[i + 1], events[i])
  }

  /** In every run nobody touches the event after the waiter is gone, the counter does not wrap around, the
      event is set at most once and the coroutine is resumed only when suspended, with `next` pointing to it. */
  lemma {:induction false} RunsAreSafe(c: Config, states: seq<Sys>, events: seq<Action>, n: nat)
    requires Run(c, states, events) && n <= |events|
    ensures Inv(c, states[n])
    ensures forall i :: 0 <= i < n ==> Enabled(c, states[i], events[i]) && Safe(c, states[i], events[i])
  {
    hide Inv, Safe, Enabled, Apply;
    if n == 0 {
      InitInv(c, states[0]);
    } else {
      RunsAreSafe(c, states, events, n - 1);
      assert Step(c, states[n - 1], states[n - 1 + 1], events[n - 1]);
      StepKeeps(c, states[n - 1], events[n - 1]);
    }
  }

  ghost predicate Reachable(c: Config, s: Sys) {
    exists states, events :: Run(c, states, events) && states[|states| - 1] == s
  }

  lemma ReachableInv(c: Config, s: Sys)
    requires Reachable(c, s)
    ensures Inv(c, s)
  {
    hide Inv, Safe;
    var states, events :| Run(c, states, events) && states[|states| - 1] == s;
    RunsAreSafe(c, states, events, |events|);
  }

  // ---------- what the answer means ----------

  predicate HasResult(p: Phase) { p != Bare && p != Disarmed && p != Armed }

  lemma InCores(c: Config, s: Sys, t: Tid)
    requires Inv(c, s) && t in s.pc
    ensures s.pc[t] == Bare ==> s.at == SetLoad || s.at == SetCas
  {
    hide Numbers;
    assert t in Elements(c.cores);
    var j :| 0 <= j < |c.cores| && c.cores[j] == t;
    assert CoreOk(c, s, j);
  }

  /** `true`, or a coroutine that goes on: every future has its result. */
  lemma TrueMeansReady(c: Config, s: Sys, t: Tid)
    requires Reachable(c, s) && s.at == ReturnedTrue && t in s.pc
    ensures HasResult(s.pc[t])
  {
    hide TallyOf;
    ReachableInv(c, s);
    InCores(c, s, t);
    TallyMoved(s.pc, t, s.pc[t]);
  }

  /** `false`: there was a timeout and the callback of some future was taken back before its result. */
  lemma FalseMeansReset(c: Config, s: Sys) returns (t: Tid)
    requires Reachable(c, s) && s.at == ReturnedFalse
    ensures t in s.pc && (s.pc[t] == Disarmed || s.pc[t] == Late) && c.timed
  {
    ReachableInv(c, s);
    t := Witness(s.pc, IsReset);
  }

  /** After the return no core refers to the event and no producer is about to use it. */
  lemma NobodyTouches(c: Config, s: Sys, t: Tid)
    requires Reachable(c, s) && Returned(s.at) && t in s.pc
    ensures s.pc[t] != Armed && s.pc[t] != Calls && s.pc[t] != Sets && s.pc[t] != Bare
  {
    hide TallyOf;
    ReachableInv(c, s);
    InCores(c, s, t);
    TallyMoved(s.pc, t, s.pc[t]);
  }

  lemma SetOnce(c: Config, s: Sys)
    requires Reachable(c, s)
    ensures s.sets <= 1
  {
    hide TallyOf, ConfigOk, Shape, Cores, Reachable;
    ReachableInv(c, s);
    SetsBound(c, s, TallyOf(s.pc));
  }

  lemma SetsBound(c: Config, s: Sys, k: Tally)
    requires Numbers(c, s, k) && Natural(k)
    ensures s.sets <= 1
  {
    if Blocks(s.at) { assert WhileBlocks(c, s, k); }
  }

  // ---------- somebody wakes the waiter ----------

  /** A waiter that cannot go on without the event has a producer that will set it, and that producer can step. */
  lemma SomebodyWakes(c: Config, s: Sys) returns (t: Tid, a: Action)
    requires Reachable(c, s)
    requires s.at == Suspended || ((s.at == FinalWait || s.at == TimedWait) && !s.flag)
    ensures t in s.pc && Enabled(c, s, a)
    ensures (s.pc[t] == Armed && a == PublishOp(t)) || (s.pc[t] == Calls && a == SubOp(t)) || (s.pc[t] == Sets && a == SetOp(t))
  {
    ReachableInv(c, s);
    if N(s.pc, IsSetting) >= 1 {
      t := Witness(s.pc, IsSetting);
      a := SetOp(t);
    } else {
      t := Witness(s.pc, IsDue);
      a := if s.pc[t] == Armed then PublishOp(t) else SubOp(t);
    }
  }

  predicate IsArmed(p: Phase) { p == Armed }
  predicate IsCalling(p: Phase) { p == Calls }

  /** The most steps that the producers that know the event still have to take. */
  ghost function Work(pc: map<Tid, Phase>): nat {
    3 * N(pc, IsArmed) + 2 * N(pc, IsCalling) + N(pc, IsSetting)
  }

  ghost predicate Knows(s: Sys, t: Tid) { Is(s, t, Armed) || Is(s, t, Calls) || Is(s, t, Sets) }

  ghost predicate ProducerStep(a: Action) { a.PublishOp? || a.SubOp? || a.SetOp? }

  lemma WorkMoved(pc: map<Tid, Phase>, t: Tid, q: Phase)
    requires t in pc
    ensures Work(pc[t := q]) - 3 * One(IsArmed(q)) - 2 * One(IsCalling(q)) - One(IsSetting(q))
         == Work(pc) - 3 * One(IsArmed(pc[t])) - 2 * One(IsCalling(pc[t])) - One(IsSetting(pc[t]))
    ensures Work(pc) >= One(IsArmed(pc[t])) + One(IsCalling(pc[t])) + One(IsSetting(pc[t]))
  {
    hide N, Of;
    Moved(pc, t, q, IsArmed);
    Moved(pc, t, q, IsCalling);
    Moved(pc, t, q, IsSetting);
  }

  /** A step of a producer that knows the event takes some of the work away, and no step of a producer adds any;
      as long as the waiter cannot go on without the event, there is work left. */
  lemma ProducersFinish(c: Config, s: Sys, a: Action)
    requires Reachable(c, s) && Enabled(c, s, a) && ProducerStep(a)
    ensures Knows(s, a.t) ==> Work(Apply(c, s, a).pc) < Work(s.pc)
    ensures !Knows(s, a.t) ==> Work(Apply(c, s, a).pc) == Work(s.pc)
    ensures Stuck(s) ==> Work(s.pc) > 0
  {
    hide Work, Reachable;
    var s' := Apply(c, s, a);
    assert s'.pc == s.pc[a.t := s'.pc[a.t]];
    WorkMoved(s.pc, a.t, s'.pc[a.t]);
    if Stuck(s) { StuckHasWork(c, s); }
  }

  /** The waiter cannot go on unless the event is set. */
  ghost predicate Stuck(s: Sys) { s.at == Suspended || (s.at == FinalWait && !s.flag) }

  lemma StuckHasWork(c: Config, s: Sys)
    requires Reachable(c, s) && (Stuck(s) || (s.at == TimedWait && !s.flag))
    ensures Work(s.pc) > 0
  {
    hide Work, Reachable;
    var t, a := SomebodyWakes(c, s);
    WorkMoved(s.pc, t, s.pc[t]);
  }

  /** How many steps of a stretch of a run were taken by producers that know the event. */
  ghost function Useful(states: seq<Sys>, events: seq<Action>, i: nat, j: nat): nat
    requires i <= j <= |events| < |states|
    decreases j - i
  {
    if i == j then 0 else
      var useful := ProducerStep(events[j - 1]) && Knows(states[j - 1], events[j - 1].t);
      Useful(states, events, i, j - 1) + if useful then 1 else 0
  }

  lemma WorkBound(c: Config, s: Sys)
    requires Inv(c, s)
    ensures Work(s.pc) <= 3 * |c.cores|
  {
    DistinctSize(c.cores);
    ThreeBound(s.pc, IsArmed, IsCalling, IsSetting);
  }

  lemma StuckSteps(c: Config, s: Sys, s': Sys, a: Action)
    requires Reachable(c, s) && Enabled(c, s, a) && Safe(c, s, a) && s' == Apply(c, s, a) && Stuck(s)
    ensures ProducerStep(a)
    ensures Work(s'.pc) + (if Knows(s, a.t) then 1 else 0) <= Work(s.pc)
  {
    ProducersFinish(c, s, a);
  }

  /** A waiter does not block for ever: over any stretch of a run in which it stays blocked or suspended, the
      producers that know the event take no more steps than the work they had, three for each future at most,
      and there is work left for them until the event is set. */
  lemma {:induction false} WaitEnds(c: Config, states: seq<Sys>, events: seq<Action>, i: nat, j: nat)
    requires Run(c, states, events) && i <= j <= |events|
    requires forall n :: i <= n <= j ==> Stuck(states[n])
    ensures Useful(states, events, i, j) + Work(states[j].pc) <= Work(states[i].pc) <= 3 * |c.cores|
    ensures Work(states[j].pc) > 0
    decreases j - i
  {
    hide Inv, Safe, Enabled, Apply, Work, Stuck, Knows;
    ReachedAt(c, states, events, j);
    ReachableInv(c, states[j]);
    StuckHasWork(c, states[j]);
    WorkBound(c, states[j]);
    if i < j {
      WaitEnds(c, states, events, i, j - 1);
      ReachedAt(c, states, events, j - 1);
      RunsAreSafe(c, states, events, j);
      assert Step(c, states[j - 1], states[j - 1 + 1], events[j - 1]);
      StuckSteps(c, states[j - 1], states[j], events[j - 1]);
    }
  }

  lemma ReachedAt(c: Config, states: seq<Sys>, events: seq<Action>, n: nat)
    requires Run(c, states, events) && n <= |events|
    ensures Reachable(c, states[n])
  {
    hide Init, Step;
    var prefix := states[..n + 1];
    assert Run(c, prefix, events[..n]) && prefix[|prefix| - 1] == states[n];
  }
}
