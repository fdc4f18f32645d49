/** What WhenAny and WhenAll promise, in every interleaving of WhenRuns. */
module WhenProofs {
  import opened Common
  import opened Census
  import opened WhenRuns

  // ---------- who wins ----------

  /** The first input of the line that is Ok, or the first that failed. */
  function First(results: map<Tid, Res>, line: seq<Tid>, ok: bool): (r: Option<Tid>)
    ensures r.Some? ==> r.value in line && r.value in results && results[r.value].Ok? == ok
  {
    if line == [] then None
    else if line[0] in results && results[line[0]].Ok? == ok then Some(line[0])
    else First(results, line[1..], ok)
  }

  lemma {:induction false} FirstSnoc(results: map<Tid, Res>, line: seq<Tid>, t: Tid, ok: bool)
    requires t in results
    ensures First(results, line + [t], ok)
         == if First(results, line, ok).Some? then First(results, line, ok)
            else if results[t].Ok? == ok then Some(t) else None
  {
    if line == [] {
      assert (line + [t])[1..] == [];
    } else {
      assert (line + [t])[1..] == line[1..] + [t];
      FirstSnoc(results, line[1..], t, ok);
    }
  }

  /** The input whose decision sets the promise, the destructor aside. */
  function Winner(c: Config, line: seq<Tid>): Option<Tid> {
    match c.strategy
    case AnyFirstFail => First(c.results, line, true)
    case AnyLastFail =>
      if First(c.results, line, true).Some? then First(c.results, line, true)
      else if |line| == |c.inputs| && line != [] then Some(line[|line| - 1]) else None
    case AllNone => None
    case _ => if line == [] then None else Some(line[0])
  }

  // ---------- the invariant ----------

  predicate IsPending(x: Input) { x.at != Out && x.at != Destroys }
  predicate IsDestroying(x: Input) { x.at == Destroys }
  predicate IsSetting(x: Input) { x.at == Sets }
  predicate IsStoring(x: Input) { x.at == Stores }

  /** Consume is over with the strategy's atomics. */
  predicate IsJudged(p: Phase) { p == Sets || p == Stores || p == Leaves || p == Destroys || p == Out }

  predicate IsEntered(p: Phase) { p == Enters || p == Decides || IsJudged(p) }

  /** The combinator lives as long as an input is not through with it. */
  ghost predicate Life(s: Sys) {
    && s.count == N(s.input, IsPending)
    && N(s.input, IsDestroying) == One(s.count == 0 && !s.destroyed)
    && (s.destroyed ==> s.count == 0)
  }

  /** Registered inputs, in order; a core is released when its result was retired, or by the destructor. */
  ghost predicate InputOk(c: Config, destroyed: bool, x: Input, registered: bool) {
    && (registered <==> x.at != Waiting && x.at != RegCas)
    && (IsEntered(x.at) ==> x.ready)
    && (x.at == Armed ==> !x.ready)
    && x.released == if Owned(c.strategy) then One(destroyed) else One(IsEntered(x.at) && x.at != Enters)
  }

  ghost predicate Inputs(c: Config, pos: nat, destroyed: bool, input: map<Tid, Input>) {
    && pos <= |c.inputs|
    && forall j :: 0 <= j < |c.inputs| ==>
         c.inputs[j] in input && InputOk(c, destroyed, input[c.inputs[j]], j < pos)
  }

  /** The strategy's atomics say who decided so far. */
  ghost predicate Words(c: Config, m: Marks) {
    match c.strategy
    case AnyFirstFail =>
      && (m.value <==> First(c.results, m.line, true).Some?)
      && (m.error <==> First(c.results, m.line, false).Some?)
    case AnyLastFail =>
      && |m.line| <= |c.inputs|
      && (Odd(m.word) <==> First(c.results, m.line, true).Some?)
      && (!Odd(m.word) ==> m.word == 2 * (|c.inputs| - |m.line|))
    case AllNone => m.line == []
    case _ => m.done <==> m.line != []
  }

  /** Whoever went past the decision found the matter decided or decided something. */
  ghost predicate Settled(c: Config, m: Marks, t: Tid, r: Res) {
    match c.strategy
    case AnyNone => m.line != []
    case AnyFirstFail => if r.Ok? then m.value else m.value || m.error
    case AnyLastFail => Odd(m.word) || (r.Err? && t in m.line)
    case AllNone => true
    case AllFirstFail => r.Err? ==> m.line != []
  }

  ghost predicate JudgedOk(c: Config, m: Marks, t: Tid, p: Phase) {
    && t in c.results
    && (t in m.line ==> IsJudged(p))
    && (IsJudged(p) ==> Settled(c, m, t, c.results[t]))
    && (p == Decides ==> c.strategy != AllNone)
    && (c.strategy == AllFirstFail && (t in m.line || p == Decides) ==> c.results[t].Err?)
    && (p == Sets ==> Winner(c, m.line) == Some(t))
    && (p == Stores ==> First(c.results, m.line, false) == Some(t) && c.strategy == AnyFirstFail)
  }

  /** Whoever has decided is in the line once. */
  ghost predicate Judged(c: Config, m: Marks, input: map<Tid, Input>) {
    && Distinct(m.line)
    && (forall t :: t in m.line ==> t in input)
    && forall t :: t in input ==> JudgedOk(c, m, t, input[t].at)
  }

  /** The promise is the winner's, who is about to set it or has. */
  ghost predicate PromiseOk(c: Config, s: Sys) {
    && N(s.input, IsSetting) + One(s.promise.Some?) == One(Winner(c, s.m.line).Some?)
    && (s.promise.Some? ==> s.promise == Some(Single(ResultOf(c, Winner(c, s.m.line)))))
    && N(s.input, IsStoring) + One(s.saved.Some?) == One(c.strategy == AnyFirstFail && s.m.error)
    && (s.saved.Some? ==> s.saved == Some(ResultOf(c, First(c.results, s.m.line, false))))
  }

  function ResultOf(c: Config, t: Option<Tid>): Res {
    if t.Some? && t.value in c.results then c.results[t.value] else Err(0)
  }

  /** All results, in the order of the inputs. */
  ghost function Results(c: Config): seq<Res>
    requires c.results.Keys == Elements(c.inputs)
  {
    seq(|c.inputs|, i requires 0 <= i < |c.inputs| => c.results[c.inputs[i]])
  }

  /** What the combined future gets. */
  ghost function Final(c: Config, line: seq<Tid>): Outcome
    requires c.results.Keys == Elements(c.inputs)
  {
    match c.strategy
    case AnyFirstFail =>
      Single(ResultOf(c, if Winner(c, line).Some? then Winner(c, line) else First(c.results, line, false)))
    case AllNone => AllOf(Results(c))
    case AllFirstFail => if line == [] then AllOf(Results(c)) else Single(ResultOf(c, Winner(c, line)))
    case _ => Single(ResultOf(c, Winner(c, line)))
  }

  /** Slot `j` holds input `j` as soon as that was registered. */
  ghost predicate Slots(c: Config, cores: seq<Option<Tid>>, input: map<Tid, Input>) {
    && |cores| == |c.inputs|
    && (Owned(c.strategy) ==> forall j :: 0 <= j < |cores| ==> SlotOk(input, c.inputs[j], cores[j]))
  }

  ghost predicate SlotOk(input: map<Tid, Input>, t: Tid, slot: Option<Tid>) {
    t in input && (input[t].at != Waiting ==> slot == Some(t))
  }

  ghost predicate Inv(c: Config, s: Sys) {
    && ConfigOk(c) && Shape(c, s) && Life(s) && Slots(c, s.cores, s.input)
    && Inputs(c, s.pos, s.destroyed, s.input) && Words(c, s.m) && Judged(c, s.m, s.input)
    && (if s.destroyed then s.promise == Some(Final(c, s.m.line)) else PromiseOk(c, s))
  }

  lemma InitInv(c: Config, s: Sys)
    requires Init(c, s)
    ensures Inv(c, s)
  {
    InitInputs(c, s);
    InitCount(c, s);
    hide Distinct;
    Nobody(s.input, IsDestroying);
    Nobody(s.input, IsSetting);
    Nobody(s.input, IsStoring);
  }

  lemma InitInputs(c: Config, s: Sys)
    requires Init(c, s)
    ensures Inputs(c, s.pos, s.destroyed, s.input)
  {
    forall j | 0 <= j < |c.inputs|
      ensures c.inputs[j] in s.input && InputOk(c, s.destroyed, s.input[c.inputs[j]], j < s.pos)
    {
      assert c.inputs[j] in Elements(c.inputs);
    }
  }

  lemma InitCount(c: Config, s: Sys)
    requires Init(c, s)
    ensures N(s.input, IsPending) == |c.inputs|
  {
    DistinctSize(c.inputs);
    assert Of(s.input, IsPending) == s.input.Keys;
  }

  // ---------- counting ----------

  lemma CountsMoved(s: Sys, t: Tid, x: Input)
    requires t in s.input
    ensures N(s.input[t := x], IsPending) == N(s.input, IsPending) - One(IsPending(s.input[t])) + One(IsPending(x))
    ensures N(s.input[t := x], IsDestroying)
         == N(s.input, IsDestroying) - One(IsDestroying(s.input[t])) + One(IsDestroying(x))
    ensures N(s.input[t := x], IsSetting) == N(s.input, IsSetting) - One(IsSetting(s.input[t])) + One(IsSetting(x))
    ensures N(s.input[t := x], IsStoring) == N(s.input, IsStoring) - One(IsStoring(s.input[t])) + One(IsStoring(x))
    ensures N(s.input, IsPending) >= One(IsPending(s.input[t]))
    ensures N(s.input, IsDestroying) >= One(IsDestroying(s.input[t]))
    ensures N(s.input, IsSetting) >= One(IsSetting(s.input[t]))
    ensures N(s.input, IsStoring) >= One(IsStoring(s.input[t]))
  {
    hide N, Of;
    Moved(s.input, t, x, IsPending);
    Moved(s.input, t, x, IsDestroying);
    Moved(s.input, t, x, IsSetting);
    Moved(s.input, t, x, IsStoring);
  }

  // ---------- registration and results ----------

  lemma InputKnows(c: Config, s: Sys, t: Tid)
    requires Inv(c, s) && t in s.input
    ensures InputOk(c, s.destroyed, s.input[t], true) || InputOk(c, s.destroyed, s.input[t], false)
    ensures JudgedOk(c, s.m, t, s.input[t].at)
  {
    hide Life, Words, PromiseOk, Distinct;
    assert t in Elements(c.inputs);
  }

  /** One input changes in a way that the others do not notice. */
  lemma InputsPut(c: Config, pos: nat, destroyed: bool, input: map<Tid, Input>, t: Tid, x: Input)
    requires Inputs(c, pos, destroyed, input) && t in input
    requires forall r :: InputOk(c, destroyed, input[t], r) ==> InputOk(c, destroyed, x, r)
    ensures Inputs(c, pos, destroyed, input[t := x])
  {
    forall j | 0 <= j < |c.inputs|
      ensures c.inputs[j] in input[t := x] && InputOk(c, destroyed, input[t := x][c.inputs[j]], j < pos)
    {
      assert c.inputs[j] in input && InputOk(c, destroyed, input[c.inputs[j]], j < pos);
    }
  }

  lemma JudgedPut(c: Config, m: Marks, input: map<Tid, Input>, t: Tid, x: Input)
    requires Judged(c, m, input) && t in input && JudgedOk(c, m, t, x.at)
    ensures Judged(c, m, input[t := x])
  {
  }

  /** Input `t` is registered. */
  lemma InputsNext(c: Config, s: Sys, t: Tid, x: Input)
    requires Distinct(c.inputs) && Inputs(c, s.pos, s.destroyed, s.input)
    requires s.pos < |c.inputs| && t == c.inputs[s.pos] && InputOk(c, s.destroyed, x, true)
    ensures Inputs(c, s.pos + 1, s.destroyed, s.input[t := x])
  {
    var input' := s.input[t := x];
    forall j | 0 <= j < |c.inputs|
      ensures c.inputs[j] in input' && InputOk(c, s.destroyed, input'[c.inputs[j]], j < s.pos + 1)
    {
      assert c.inputs[j] in s.input && InputOk(c, s.destroyed, s.input[c.inputs[j]], j < s.pos);
      if j != s.pos { assert c.inputs[j] != t; }
    }
  }

  /** An input that was registered stays registered. */
  lemma SlotsPut(c: Config, cores: seq<Option<Tid>>, input: map<Tid, Input>, t: Tid, x: Input)
    requires Slots(c, cores, input) && t in input && (input[t].at == Waiting ==> x.at == Waiting)
    ensures Slots(c, cores, input[t := x])
  {
    if Owned(c.strategy) {
      forall j | 0 <= j < |cores| ensures SlotOk(input[t := x], c.inputs[j], cores[j]) {
        assert SlotOk(input, c.inputs[j], cores[j]);
      }
    }
  }

  lemma SlotsRegister(c: Config, s: Sys, t: Tid, x: Input)
    requires Slots(c, s.cores, s.input) && Distinct(c.inputs) && s.pos < |c.inputs| && t == c.inputs[s.pos] && t in s.input
    ensures Slots(c, Slotted(c, s, t), s.input[t := x])
  {
    var cores := Slotted(c, s, t);
    if Owned(c.strategy) {
      forall j | 0 <= j < |cores| ensures SlotOk(s.input[t := x], c.inputs[j], cores[j]) {
        assert SlotOk(s.input, c.inputs[j], s.cores[j]);
      }
    }
  }

  /** As long as an input is not through with the combinator, it is alive. */
  lemma PendingAlive(c: Config, s: Sys, t: Tid)
    requires Life(s) && t in s.input && IsPending(s.input[t])
    ensures s.count > 0 && !s.destroyed
  {
    Present(s.input, IsPending, t);
  }

  /** An input moves between phases in which it still needs the combinator. */
  lemma LifePut(s: Sys, t: Tid, x: Input)
    requires Life(s) && t in s.input && IsPending(s.input[t]) && IsPending(x)
    ensures Life(Put(s, t, x)) && s.count > 0 && !s.destroyed
  {
    hide N, Of;
    CountsMoved(s, t, x);
  }

  /** Nor does it, doing so, touch the promise. */
  lemma PromisePut(c: Config, s: Sys, t: Tid, x: Input)
    requires PromiseOk(c, s) && t in s.input && !IsSetting(s.input[t]) && !IsSetting(x)
    requires !IsStoring(s.input[t]) && !IsStoring(x)
    ensures PromiseOk(c, Put(s, t, x))
  {
    hide N, Of, Winner;
    CountsMoved(s, t, x);
  }

  lemma RegisterKeeps(c: Config, s: Sys, t: Tid)
    requires Inv(c, s) && s.pos < |c.inputs| && t == c.inputs[s.pos] && t in s.input
    ensures s.count > 0 && !s.destroyed && Inv(c, Register(c, s, t))
  {
    hide N, Of, Distinct, Words, Judged, JudgedOk, Winner, Life, PromiseOk, Slots;
    var x := Register(c, s, t).input[t];
    SlotsRegister(c, s, t, x);
    assert InputOk(c, s.destroyed, s.input[t], false);
    LifePut(s, t, x);
    PromisePut(c, s, t, x);
    UnjudgedGoes(c, s, t, x.at);
    JudgedPut(c, s.m, s.input, t, x);
    RegisterInputs(c, s, t);
    LifeFrame(Put(s, t, x), Register(c, s, t));
    PromiseFrame(c, Put(s, t, x), Register(c, s, t));
  }

  lemma LifeFrame(s: Sys, s': Sys)
    requires Life(s) && s'.input == s.input && s'.count == s.count && s'.destroyed == s.destroyed
    ensures Life(s')
  {
    hide N, Of;
  }

  lemma PromiseFrame(c: Config, s: Sys, s': Sys)
    requires PromiseOk(c, s) && s'.input == s.input && s'.promise == s.promise && s'.saved == s.saved
    requires s'.m.line == s.m.line && s'.m.error == s.m.error
    ensures PromiseOk(c, s')
  {
    hide N, Of, Winner;
  }

  lemma RegisterInputs(c: Config, s: Sys, t: Tid)
    requires Distinct(c.inputs) && Inputs(c, s.pos, s.destroyed, s.input)
    requires s.pos < |c.inputs| == |s.cores| && t == c.inputs[s.pos] && t in s.input && !s.destroyed
    ensures Inputs(c, Register(c, s, t).pos, s.destroyed, Register(c, s, t).input)
  {
    hide Distinct, Inputs;
    var x := Register(c, s, t).input[t];
    InputAt(c, s, t);
    if Register(c, s, t).pos == s.pos { InputsPut(c, s.pos, s.destroyed, s.input, t, x); } else { InputsNext(c, s, t, x); }
  }

  lemma InputAt(c: Config, s: Sys, t: Tid)
    requires Inputs(c, s.pos, s.destroyed, s.input) && s.pos < |c.inputs| && t == c.inputs[s.pos] && t in s.input
    ensures InputOk(c, s.destroyed, s.input[t], false)
  {
  }

  lemma UnjudgedGoes(c: Config, s: Sys, t: Tid, p: Phase)
    requires Inv(c, s) && t in s.input && !IsJudged(s.input[t].at) && !IsJudged(p) && p != Decides
    ensures JudgedOk(c, s.m, t, p)
  {
    InputKnows(c, s, t);
  }

  lemma PublishKeeps(c: Config, s: Sys, t: Tid)
    requires Inv(c, s) && t in s.input && !s.input[t].ready
    ensures !s.destroyed && Inv(c, Publish(s, t))
  {
    hide N, Of, Distinct, Words, JudgedOk, Winner;
    InputKnows(c, s, t);
    var s' := Publish(s, t);
    PendingAlive(c, s, t);
    CountsMoved(s, t, s'.input[t]);
    UnjudgedGoes(c, s, t, s'.input[t].at);
    JudgedPut(c, s.m, s.input, t, s'.input[t]);
    InputsPut(c, s.pos, s.destroyed, s.input, t, s'.input[t]);
    SlotsPut(c, s.cores, s.input, t, s'.input[t]);
  }

  // ---------- Consume ----------

  lemma SkipsSettled(c: Config, s: Sys, t: Tid)
    requires Words(c, s.m) && t in c.results && Skips(c, s.m, c.results[t])
    ensures Settled(c, s.m, t, c.results[t])
  {
  }

  lemma LoadJudged(c: Config, s: Sys, t: Tid)
    requires Inv(c, s) && Is(s, t, Enters) && t in c.results
    ensures JudgedOk(c, s.m, t, Load(c, s, t).input[t].at)
  {
    InputKnows(c, s, t);
    hide Life, Inputs, Judged, PromiseOk, Words, Distinct;
    if Skips(c, s.m, c.results[t]) { SkipsSettled(c, s, t); }
  }

  lemma LoadKeeps(c: Config, s: Sys, t: Tid)
    requires Inv(c, s) && Is(s, t, Enters)
    ensures s.count > 0 && !s.destroyed && s.input[t].ready && t in c.results && Inv(c, Load(c, s, t))
  {
    hide N, Of, Distinct, Words, JudgedOk, Winner, Skips;
    InputKnows(c, s, t);
    PendingAlive(c, s, t);
    assert t in c.results;
    var s' := Load(c, s, t);
    CountsMoved(s, t, s'.input[t]);
    LoadJudged(c, s, t);
    JudgedPut(c, s.m, s.input, t, s'.input[t]);
    InputsPut(c, s.pos, s.destroyed, s.input, t, s'.input[t]);
    SlotsPut(c, s.cores, s.input, t, s'.input[t]);
  }

  /** A step from a decided phase to another that leaves the strategy's atomics alone. */
  lemma LeavesJudged(c: Config, s: Sys, t: Tid, p: Phase)
    requires Inv(c, s) && t in s.input && IsJudged(s.input[t].at) && (p == Leaves || p == Destroys || p == Out)
    ensures JudgedOk(c, s.m, t, p)
  {
    InputKnows(c, s, t);
  }

  lemma SetKeeps(c: Config, s: Sys, t: Tid)
    requires Inv(c, s) && Is(s, t, Sets)
    ensures s.count > 0 && !s.destroyed && s.promise == None && t in c.results && Inv(c, SetPromise(c, s, t))
  {
    hide N, Of, Distinct, Words, Judged, JudgedOk;
    InputKnows(c, s, t);
    PendingAlive(c, s, t);
    SetterWins(c, s, t);
    var s' := SetPromise(c, s, t);
    CountsMoved(s, t, s'.input[t]);
    LeavesJudged(c, s, t, Leaves);
    JudgedPut(c, s.m, s.input, t, s'.input[t]);
    InputsPut(c, s.pos, s.destroyed, s.input, t, s'.input[t]);
    SlotsPut(c, s.cores, s.input, t, s'.input[t]);
  }

  lemma SetterWins(c: Config, s: Sys, t: Tid)
    requires Inv(c, s) && t in s.input
    ensures t in c.results
    ensures s.input[t].at == Sets ==> Winner(c, s.m.line) == Some(t)
    ensures s.input[t].at == Stores ==> First(c.results, s.m.line, false) == Some(t) && c.strategy == AnyFirstFail
  {
    InputKnows(c, s, t);
  }

  lemma StoreKeeps(c: Config, s: Sys, t: Tid)
    requires Inv(c, s) && Is(s, t, Stores)
    ensures s.count > 0 && !s.destroyed && s.saved == None && t in c.results && Inv(c, StoreError(c, s, t))
  {
    hide N, Of, Distinct, Words, Judged, JudgedOk;
    InputKnows(c, s, t);
    PendingAlive(c, s, t);
    SetterWins(c, s, t);
    var s' := StoreError(c, s, t);
    CountsMoved(s, t, s'.input[t]);
    LeavesJudged(c, s, t, Leaves);
    JudgedPut(c, s.m, s.input, t, s'.input[t]);
    InputsPut(c, s.pos, s.destroyed, s.input, t, s'.input[t]);
    SlotsPut(c, s.cores, s.input, t, s'.input[t]);
  }

  lemma LeaveLife(s: Sys, t: Tid)
    requires Life(s) && Is(s, t, Leaves)
    ensures s.count > 0 && !s.destroyed && Life(Leave(s, t))
  {
    hide N, Of;
    CountsMoved(s, t, Leave(s, t).input[t]);
  }

  lemma LeaveKeeps(c: Config, s: Sys, t: Tid)
    requires Inv(c, s) && Is(s, t, Leaves)
    ensures s.count > 0 && !s.destroyed && s.input[t].ready && Inv(c, Leave(s, t))
  {
    hide N, Of, Distinct, Words, Judged, JudgedOk, Winner, Life, PromiseOk;
    InputKnows(c, s, t);
    LeaveLife(s, t);
    var s' := Leave(s, t);
    PromisePut(c, s, t, s'.input[t]);
    PromiseFrame(c, Put(s, t, s'.input[t]), s');
    LeavesJudged(c, s, t, s'.input[t].at);
    JudgedPut(c, s.m, s.input, t, s'.input[t]);
    InputsPut(c, s.pos, s.destroyed, s.input, t, s'.input[t]);
    SlotsPut(c, s.cores, s.input, t, s'.input[t]);
  }

  // ---------- the decision ----------

  function Joined(c: Config, m: Marks, t: Tid, r: Res): Marks {
    Decision(c, m, r).0.(line := m.line + [t])
  }

  /** The atomics still say who decided. */
  lemma WordsDecide(c: Config, m: Marks, t: Tid)
    requires Words(c, m) && t in c.results && c.strategy != AllNone
    requires 2 * |c.inputs| < U64 && |m.line| < |c.inputs|
    ensures Words(c, Joined(c, m, t, c.results[t]))
  {
    hide First;
    FirstSnoc(c.results, m.line, t, true);
    FirstSnoc(c.results, m.line, t, false);
  }

  /** What is settled stays settled, and the first ones stay first. */
  lemma SettledDecide(c: Config, m: Marks, t: Tid, u: Tid, r: Res)
    requires Words(c, m) && t in c.results && c.strategy != AllNone
    requires 2 * |c.inputs| < U64 && |m.line| < |c.inputs|
    requires Settled(c, m, u, r)
    ensures Settled(c, Joined(c, m, t, c.results[t]), u, r)
  {
    assert u in m.line ==> u in m.line + [t];
    hide First;
  }

  lemma WinnerDecide(c: Config, m: Marks, t: Tid)
    requires t in c.results && |m.line| < |c.inputs|
    ensures Winner(c, m.line).Some? ==> Winner(c, m.line + [t]) == Winner(c, m.line)
    ensures First(c.results, m.line, false).Some? ==>
              First(c.results, m.line + [t], false) == First(c.results, m.line, false)
  {
    FirstSnoc(c.results, m.line, t, true);
    FirstSnoc(c.results, m.line, t, false);
    hide First;
  }

  /** `t` joins the line; what the others know stays true. */
  lemma JudgedOther(c: Config, m: Marks, t: Tid, u: Tid, p: Phase)
    requires Words(c, m) && t in c.results && t != u && c.strategy != AllNone
    requires 2 * |c.inputs| < U64 && |m.line| < |c.inputs|
    requires JudgedOk(c, m, u, p)
    ensures JudgedOk(c, Joined(c, m, t, c.results[t]), u, p)
  {
    hide Winner, Words, Settled, Decision, First;
    assert u in m.line + [t] <==> u in m.line;
    WinnerDecide(c, m, t);
    if IsJudged(p) { SettledDecide(c, m, t, u, c.results[u]); }
  }

  /** What `t` itself finds out. */
  lemma DecisionMeans(c: Config, m: Marks, t: Tid)
    requires Words(c, m) && t in c.results && c.strategy != AllNone
    requires 2 * |c.inputs| < U64 && |m.line| < |c.inputs|
    requires c.strategy == AllFirstFail ==> c.results[t].Err?
    ensures var m', p := Joined(c, m, t, c.results[t]), Decision(c, m, c.results[t]).1;
      && Settled(c, m', t, c.results[t]) && IsJudged(p) && (p == Sets || p == Stores || p == Leaves)
      && (p == Sets ==> Winner(c, m.line) == None && Winner(c, m'.line) == Some(t))
      && (p != Sets ==> Winner(c, m'.line) == Winner(c, m.line))
      && (p == Stores ==> c.strategy == AnyFirstFail && !m.error && First(c.results, m'.line, false) == Some(t))
      && m'.error == (m.error || p == Stores)
  {
    FirstSnoc(c.results, m.line, t, true);
    FirstSnoc(c.results, m.line, t, false);
    assert (m.line + [t])[|m.line|] == t;
    hide First;
  }

  lemma DecideJudged(c: Config, s: Sys, t: Tid)
    requires Inv(c, s) && Is(s, t, Decides) && t in c.results
    ensures |s.m.line| < |c.inputs| && c.strategy != AllNone
    ensures Judged(c, Decide(c, s, t).m, Decide(c, s, t).input)
  {
    hide N, Of, Life, Inputs, PromiseOk;
    InputKnows(c, s, t);
    LineShort(c, s, t);
    var s' := Decide(c, s, t);
    DecisionMeans(c, s.m, t);
    forall u | u in s'.input ensures JudgedOk(c, s'.m, u, s'.input[u].at) {
      InputKnows(c, s, u);
      if u != t { JudgedOther(c, s.m, t, u, s.input[u].at); }
    }
  }

  lemma LineShort(c: Config, s: Sys, t: Tid)
    requires Inv(c, s) && Is(s, t, Decides)
    ensures |s.m.line| < |c.inputs| && c.strategy != AllNone && t !in s.m.line
  {
    hide N, Of, Life, Inputs, PromiseOk, Words;
    InputKnows(c, s, t);
    var line := s.m.line + [t];
    DistinctSize(line);
    DistinctSize(c.inputs);
    forall u | u in line ensures u in c.inputs {
      assert u in s.input;
      assert u in Elements(c.inputs);
    }
    SubsetSize(Elements(line), Elements(c.inputs));
  }

  lemma DecideKeeps(c: Config, s: Sys, t: Tid)
    requires Inv(c, s) && Is(s, t, Decides)
    ensures s.count > 0 && !s.destroyed && s.input[t].ready && t in c.results && Inv(c, Decide(c, s, t))
  {
    hide N, Of, Distinct, Words, Judged, JudgedOk, Life, PromiseOk, Winner, Decision, Settled;
    InputKnows(c, s, t);
    SetterWins(c, s, t);
    DecideJudged(c, s, t);
    WordsDecide(c, s.m, t);
    DecidePromise(c, s, t);
    var s' := Decide(c, s, t);
    DecidePhase(c, s, t);
    LifePut(s, t, s'.input[t]);
    LifeFrame(Put(s, t, s'.input[t]), s');
    InputsPut(c, s.pos, s.destroyed, s.input, t, s'.input[t]);
    SlotsPut(c, s.cores, s.input, t, s'.input[t]);
  }

  lemma DecidePhase(c: Config, s: Sys, t: Tid)
    requires t in s.input && t in c.results
    ensures var x := Decide(c, s, t).input[t];
      IsJudged(x.at) && IsPending(x) && x == s.input[t].(at := x.at)
  {
  }

  lemma DecidePromise(c: Config, s: Sys, t: Tid)
    requires Inv(c, s) && Is(s, t, Decides) && t in c.results && |s.m.line| < |c.inputs|
    ensures PromiseOk(c, Decide(c, s, t))
  {
    hide N, Of, Distinct, Words, Judged, JudgedOk, Life, Winner, Decision, Settled, First, Inputs;
    LineShort(c, s, t);
    InputKnows(c, s, t);
    AlwaysErr(c, s, t);
    DecisionMeans(c, s.m, t);
    WinnerDecide(c, s.m, t);
    PendingAlive(c, s, t);
    CountsMoved(s, t, Decide(c, s, t).input[t]);
    ErrorFirst(c, s.m);
  }

  lemma AlwaysErr(c: Config, s: Sys, t: Tid)
    requires Inv(c, s) && Is(s, t, Decides) && t in c.results
    ensures c.strategy == AllFirstFail ==> c.results[t].Err?
  {
    InputKnows(c, s, t);
  }

  lemma ErrorFirst(c: Config, m: Marks)
    requires Words(c, m)
    ensures c.strategy == AnyFirstFail && m.error ==> First(c.results, m.line, false).Some?
  {
  }

  // ---------- the destructor ----------

  /** When the destructor runs every input is through with the combinator. */
  lemma AllThrough(c: Config, s: Sys, t: Tid, u: Tid)
    requires Inv(c, s) && Is(s, t, Destroys) && u in s.input
    ensures s.count == 0 && !s.destroyed && !IsPending(s.input[u]) && s.input[u].ready
    ensures u in c.results && Settled(c, s.m, u, c.results[u])
  {
    hide Inputs, Words, Judged, PromiseOk, Settled;
    InputKnows(c, s, u);
    Present(s.input, IsDestroying, t);
    if IsPending(s.input[u]) { Present(s.input, IsPending, u); }
  }

  lemma NothingPending(c: Config, s: Sys, t: Tid)
    requires Inv(c, s) && Is(s, t, Destroys)
    ensures N(s.input, IsSetting) == 0 && N(s.input, IsStoring) == 0 && N(s.input, IsPending) == 0
    ensures s.count == 0 && !s.destroyed
  {
    hide Inputs, Words, Judged, PromiseOk;
    Present(s.input, IsDestroying, t);
    forall u | u in s.input ensures !IsPending(s.input[u]) { AllThrough(c, s, t, u); }
    Nobody(s.input, IsSetting);
    Nobody(s.input, IsStoring);
  }

  /** Any<LastFail>: if nobody was Ok, everybody is in the line. */
  lemma EverybodyFailed(c: Config, s: Sys, t: Tid)
    requires Inv(c, s) && Is(s, t, Destroys) && c.strategy == AnyLastFail && !Odd(s.m.word)
    ensures |s.m.line| == |c.inputs| && s.m.line != []
  {
    hide Inputs, Life, PromiseOk, JudgedOk, First;
    forall u | u in c.inputs ensures u in s.m.line {
      assert u in Elements(c.inputs);
      AllThrough(c, s, t, u);
    }
    SubsetSize(Elements(c.inputs), Elements(s.m.line));
    DistinctSize(c.inputs);
    DistinctSize(s.m.line);
  }

  /** Every slot holds its input, and every input has its result. */
  lemma SlotsFilled(c: Config, s: Sys, t: Tid)
    requires Inv(c, s) && Is(s, t, Destroys) && Owned(c.strategy)
    ensures forall j :: 0 <= j < |c.inputs| ==> s.cores[j] == Some(c.inputs[j]) && c.inputs[j] in s.input
    ensures SlotsReady(c, s)
  {
    hide N, Of, Inputs, Words, Judged, PromiseOk, Life, Distinct;
    forall j | 0 <= j < |c.inputs|
      ensures s.cores[j] == Some(c.inputs[j]) && c.inputs[j] in s.input && SlotReady(c, s, s.cores[j])
    {
      assert SlotOk(s.input, c.inputs[j], s.cores[j]);
      AllThrough(c, s, t, c.inputs[j]);
    }
  }

  /** The walk over the first `n` slots finds the first `n` results. */
  lemma {:induction false} OutputInOrder(c: Config, cores: seq<Option<Tid>>, n: nat)
    requires c.results.Keys == Elements(c.inputs) && n <= |cores| == |c.inputs|
    requires forall j :: 0 <= j < |cores| ==> cores[j] == Some(c.inputs[j]) && c.inputs[j] in c.results
    ensures Output(c.results, cores[..n]) == Results(c)[..n]
  {
    if n > 0 {
      assert cores[..n][..n - 1] == cores[..n - 1];
      OutputInOrder(c, cores, n - 1);
    }
  }

  ghost predicate ReleasedAt(input: map<Tid, Input>, input': map<Tid, Input>, t: Tid, released: bool) {
    t in input && t in input' && input'[t] == input[t].(released := input[t].released + if released then 1 else 0)
  }

  /** It releases each of the first `n` inputs once and nobody else. */
  lemma {:induction false} ReleasedOnce(c: Config, input: map<Tid, Input>, cores: seq<Option<Tid>>, n: nat)
    requires Distinct(c.inputs) && n <= |cores| == |c.inputs|
    requires forall j :: 0 <= j < |cores| ==> cores[j] == Some(c.inputs[j]) && c.inputs[j] in input
    ensures forall j :: 0 <= j < |c.inputs| ==> ReleasedAt(input, ReleaseSlots(input, cores[..n]), c.inputs[j], j < n)
  {
    if n > 0 {
      assert cores[..n][..n - 1] == cores[..n - 1];
      ReleasedOnce(c, input, cores, n - 1);
      var input' := ReleaseSlots(input, cores[..n]);
      forall j | 0 <= j < |c.inputs| ensures ReleasedAt(input, input', c.inputs[j], j < n) {
        assert ReleasedAt(input, ReleaseSlots(input, cores[..n - 1]), c.inputs[j], j < n - 1);
      }
    }
  }

  /** All<FirstFail>: with no error nobody failed. */
  lemma NobodyFailed(c: Config, s: Sys, t: Tid)
    requires Inv(c, s) && Is(s, t, Destroys) && c.strategy == AllFirstFail && s.promise == None
    ensures s.m.line == []
    ensures SlotsReady(c, s) && SlotsOk(c, s)
  {
    SlotsFilled(c, s, t);
    NothingPending(c, s, t);
    hide N, Of, Inputs, Judged, Life, Distinct, First;
    forall j | 0 <= j < |s.cores| ensures SlotReady(c, s, s.cores[j]) && c.results[s.cores[j].value].Ok? {
      AllThrough(c, s, t, c.inputs[j]);
    }
  }

  lemma SlotOutputIs(c: Config, s: Sys, t: Tid)
    requires Inv(c, s) && Is(s, t, Destroys) && Owned(c.strategy)
    ensures SlotsReady(c, s) && SlotOutput(c, s) == Results(c)
  {
    hide N, Of, Inputs, Words, Judged, PromiseOk, Life, Distinct;
    SlotsFilled(c, s, t);
    forall j | 0 <= j < |c.inputs| ensures c.inputs[j] in c.results { assert c.inputs[j] in Elements(c.inputs); }
    OutputInOrder(c, s.cores, |s.cores|);
    assert s.cores[..|s.cores|] == s.cores;
  }

  lemma DestroyPromise(c: Config, s: Sys, t: Tid)
    requires Inv(c, s) && Is(s, t, Destroys)
    ensures c.strategy == AnyNone || c.strategy == AnyLastFail ==> s.promise != None
    ensures c.strategy == AnyFirstFail && s.promise == None ==> s.saved != None
    ensures c.strategy == AllNone ==> s.promise == None
    ensures c.strategy == AllFirstFail && s.promise == None ==> SlotsReady(c, s) && SlotsOk(c, s)
    ensures Owned(c.strategy) ==> SlotsReady(c, s)
    ensures Destroy(c, s, t).promise == Some(Final(c, s.m.line))
  {
    hide N, Of, Inputs, Life, JudgedOk, First, Distinct, SlotOutput, SlotRelease, Slots, SlotsReady, SlotsOk;
    NothingPending(c, s, t);
    AllThrough(c, s, t, t);
    if c.strategy == AnyLastFail && !Odd(s.m.word) { EverybodyFailed(c, s, t); }
    if Owned(c.strategy) { SlotOutputIs(c, s, t); }
    if c.strategy == AllFirstFail && s.promise == None { NobodyFailed(c, s, t); }
  }

  lemma DestroyInputIs(c: Config, s: Sys, t: Tid)
    requires Shape(c, s) && t in s.input && (Owned(c.strategy) ==> SlotsReady(c, s))
    ensures var input := Go(s, t, Out).input;
      Destroy(c, s, t).input == if Owned(c.strategy) then SlotRelease(c, s, input) else input
  {
    hide SlotsReady, SlotRelease, SlotOutput, Shape;
  }

  /** The destructor leaves every input but `t` where it is and releases owned ones once. */
  lemma DestroyAt(c: Config, s: Sys, t: Tid, u: Tid)
    requires Inv(c, s) && Is(s, t, Destroys) && u in s.input && (Owned(c.strategy) ==> SlotsReady(c, s))
    ensures var input' := Destroy(c, s, t).input;
      && input'.Keys == s.input.Keys
      && input'[u] == s.input[u].(at := if u == t then Out else s.input[u].at,
                                  released := s.input[u].released + One(Owned(c.strategy)))
  {
    assert Shape(c, s);
    hide Inv, Shape, Destroy, SlotRelease, SlotOutput, SlotsReady, Is, ReleasedAt;
    DestroyInputIs(c, s, t);
    var input := Go(s, t, Out).input;
    if Owned(c.strategy) {
      OwnedAt(c, s, t, u);
      ReleasedIs(s, t, u, SlotRelease(c, s, input));
    }
  }

  lemma ReleasedIs(s: Sys, t: Tid, u: Tid, input': map<Tid, Input>)
    requires t in s.input && u in s.input && ReleasedAt(Go(s, t, Out).input, input', u, true)
    ensures u in input' && input'[u] == s.input[u].(at := if u == t then Out else s.input[u].at,
                                                   released := s.input[u].released + 1)
  {
  }

  lemma OwnedAt(c: Config, s: Sys, t: Tid, u: Tid)
    requires Inv(c, s) && Is(s, t, Destroys) && u in s.input && Owned(c.strategy)
    ensures SlotsReady(c, s)
    ensures var input := Go(s, t, Out).input;
      SlotRelease(c, s, input).Keys == input.Keys && ReleasedAt(input, SlotRelease(c, s, input), u, true)
  {
    hide N, Of, Life, PromiseOk, Words, First, Winner, Settled, Judged, Inputs, SlotsReady, Slots;
    SlotsFilled(c, s, t);
    assert u in Elements(c.inputs);
    var j :| 0 <= j < |c.inputs| && c.inputs[j] == u;
    var input := Go(s, t, Out).input;
    ReleasedOnce(c, input, s.cores, |s.cores|);
    assert s.cores[..|s.cores|] == s.cores;
    assert ReleasedAt(input, SlotRelease(c, s, input), c.inputs[j], true);
  }

  lemma DestroyInputs(c: Config, s: Sys, t: Tid)
    requires Inv(c, s) && Is(s, t, Destroys) && (Owned(c.strategy) ==> SlotsReady(c, s))
    ensures Inputs(c, s.pos, true, Destroy(c, s, t).input) && Slots(c, s.cores, Destroy(c, s, t).input)
  {
    hide N, Of, Life, PromiseOk, Distinct, Words, First, Winner, Settled, Judged, Destroy, SlotsReady;
    NothingPending(c, s, t);
    var input' := Destroy(c, s, t).input;
    forall j | 0 <= j < |c.inputs|
      ensures c.inputs[j] in input' && InputOk(c, true, input'[c.inputs[j]], j < s.pos)
      ensures Owned(c.strategy) ==> SlotOk(input', c.inputs[j], s.cores[j])
    {
      assert c.inputs[j] in s.input && InputOk(c, s.destroyed, s.input[c.inputs[j]], j < s.pos);
      DestroyAt(c, s, t, c.inputs[j]);
      if Owned(c.strategy) { assert SlotOk(s.input, c.inputs[j], s.cores[j]); }
    }
  }

  lemma DestroyJudged(c: Config, s: Sys, t: Tid)
    requires Inv(c, s) && Is(s, t, Destroys) && (Owned(c.strategy) ==> SlotsReady(c, s))
    ensures Judged(c, s.m, Destroy(c, s, t).input)
  {
    hide N, Of, Life, PromiseOk, Distinct, Words, First, Winner, Settled, Inputs, Destroy, Slots, SlotsReady;
    var input' := Destroy(c, s, t).input;
    DestroyAt(c, s, t, t);
    forall u | u in input' ensures JudgedOk(c, s.m, u, input'[u].at) {
      assert JudgedOk(c, s.m, u, s.input[u].at);
      DestroyAt(c, s, t, u);
    }
  }

  lemma DestroyLife(c: Config, s: Sys, t: Tid)
    requires Inv(c, s) && Is(s, t, Destroys) && (Owned(c.strategy) ==> SlotsReady(c, s))
    ensures Life(Destroy(c, s, t))
  {
    hide N, Of, Inputs, Judged, Words, PromiseOk, SlotRelease, SlotOutput, Slots, SlotsReady;
    NothingPending(c, s, t);
    var s1 := Go(s, t, Out);
    CountsMoved(s, t, s1.input[t]);
    var input' := Destroy(c, s, t).input;
    forall u | u in s.input ensures input'.Keys == s1.input.Keys && input'[u].at == s1.input[u].at {
      DestroyAt(c, s, t, u);
    }
    Unmoved(s1.input, input', IsPending);
    Unmoved(s1.input, input', IsDestroying);
  }

  lemma DestroyKeeps(c: Config, s: Sys, t: Tid)
    requires Inv(c, s) && Is(s, t, Destroys)
    ensures Safe(c, s, t, DestroyOp) && Inv(c, Destroy(c, s, t))
  {
    hide N, Of, Inputs, Judged, Words, PromiseOk, Life, Distinct, Final, Slots, SlotsReady, SlotsOk, SlotRelease, SlotOutput;
    forall u | u in s.input ensures s.input[u].ready { AllThrough(c, s, t, u); }
    NothingPending(c, s, t);
    DestroyPromise(c, s, t);
    DestroyAt(c, s, t, t);
    DestroyInputs(c, s, t);
    DestroyJudged(c, s, t);
    DestroyLife(c, s, t);
  }

  lemma StepKeeps(c: Config, s: Sys, t: Tid, a: Action)
    requires Inv(c, s) && Enabled(c, s, t, a)
    ensures Safe(c, s, t, a) && Inv(c, Apply(c, s, t, a))
  {
    hide Inv, Shape;
    match a
    case RegisterOp => RegisterKeeps(c, s, t);
    case PublishOp => PublishKeeps(c, s, t);
    case LoadOp => LoadKeeps(c, s, t);
    case DecideOp => DecideKeeps(c, s, t);
    case SetOp => SetKeeps(c, s, t);
    case StoreOp => StoreKeeps(c, s, t);
    case LeaveOp => LeaveKeeps(c, s, t);
    case DestroyOp => DestroyKeeps(c, s, t);
  }
}
