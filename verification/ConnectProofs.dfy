/** What a chain of connected contracts promises: one value, one owner at a time, every core destroyed once. */
module ConnectProofs {
  import opened Common
  import opened Census
  import opened ConnectRuns
  import Shared = SharedCoreRuns

  // ---------- the invariant ----------

  /** The core is still to get the result. */
  predicate Before(p: Phase) { p == Fresh || p == Called || p.Counted? || p.Carries? }

  /** The core that gives the result to a core in this phase was destroyed for it. */
  predicate Passed(p: Phase) { p.Carries? || p == Filled || p == Published }

  predicate Gone(x: Shared.Cell) { x.MovedFrom? || x.Destroyed? }

  /** What a core is, on its own. */
  ghost predicate Alone(x: Core, truth: Shared.Payload) {
    && x.refs == 1 - x.destroyed && x.destroyed <= 1
    && (x.cell.Destroyed? <==> x.destroyed == 1)
    && (x.word == Result <==> x.at == Published)
    && (x.cell.Raw? <==> Before(x.at))
    && (x.at == Took || x.at == Filled ==> x.cell.Stored?)
    && (x.cell.Stored? ==> x.cell.v == truth)
    && (x.at.Counted? ==> x.at.ref == 1)
    && (x.at.Carries? ==> x.at.v == truth)
  }

  /** A core and the one before it. */
  ghost predicate Linked(x: Core, y: Core) {
    && (y.link != Joined ==> y.at == Fresh)
    && (x.word == Callback <==> y.link == Joined && y.at == Fresh)
    && (y.link == Refused || y.at != Fresh ==> x.at == Published)
    && (y.at == Fresh || y.at == Called || y.at.Counted? ==> !Gone(x.cell))
    && (y.at == Took ==> x.cell.MovedFrom?)
    && (Passed(y.at) ==> x.cell.Destroyed?)
  }

  /** The first core is set, the last one is taken. */
  ghost predicate First(x: Core) { x.link == Apart && (x.at == Fresh || x.at == Filled || x.at == Published) }

  ghost predicate Last(x: Core, taken: Option<Shared.Payload>, truth: Shared.Payload) {
    && x.word != Callback && !x.cell.MovedFrom? && (x.cell.Destroyed? <==> taken.Some?)
    && (taken.Some? ==> taken.value == truth)
  }

  ghost predicate CoreOk(s: Sys, i: nat)
    requires i < |s.cores|
  {
    && Alone(s.cores[i], s.truth)
    && (if i == 0 then First(s.cores[0]) else Linked(s.cores[i - 1], s.cores[i]))
    && (i == |s.cores| - 1 ==> Last(s.cores[i], s.taken, s.truth))
  }

  ghost predicate Inv(s: Sys) {
    s.cores != [] && forall i :: 0 <= i < |s.cores| ==> CoreOk(s, i)
  }

  lemma InitInv(s: Sys)
    requires Init(s)
    ensures Inv(s)
  {
  }

  // ---------- every step keeps it ----------

  lemma Knows(s: Sys, i: nat)
    requires Inv(s) && i < |s.cores|
    ensures CoreOk(s, i)
  {
  }

  /** A step that changes core `i` and the one before it, or only core `i`. */
  lemma PairKeeps(s: Sys, s': Sys, i: nat)
    requires Inv(s) && i < |s.cores| == |s'.cores| && s'.truth == s.truth
    requires forall j :: 0 <= j < |s.cores| && j != i && j + 1 != i ==> s'.cores[j] == s.cores[j]
    requires i > 0 ==> CoreOk(s', i - 1)
    requires CoreOk(s', i) && (i + 1 < |s.cores| ==> CoreOk(s', i + 1) && s'.taken == s.taken)
    ensures Inv(s')
  {
    hide Alone, Linked, First, Last;
    forall j | 0 <= j < |s'.cores| ensures CoreOk(s', j) { Knows(s, j); }
  }

  /** What the cores around `i` know. */
  lemma KnowsAround(s: Sys, i: nat)
    requires Inv(s) && i < |s.cores|
    ensures CoreOk(s, i) && (i > 0 ==> CoreOk(s, i - 1)) && (i + 1 < |s.cores| ==> CoreOk(s, i + 1))
    ensures i > 1 ==> CoreOk(s, i - 2)
  {
    hide Alone, Linked, First, Last;
  }

  lemma SetKeeps(c: Config, s: Sys)
    requires Inv(s) && Enabled(c, s, SetOp)
    ensures Safe(c, s, SetOp) && Inv(Set(s))
  {
    KnowsAround(s, 0);
    PairKeeps(s, Set(s), 0);
  }

  lemma LoadKeeps(c: Config, s: Sys, i: nat)
    requires Inv(s) && Enabled(c, s, LoadOp(i))
    ensures Safe(c, s, LoadOp(i)) && Inv(Load(s, i))
  {
    KnowsAround(s, i);
    PairKeeps(s, Load(s, i), i);
  }

  lemma CasKeeps(c: Config, s: Sys, i: nat)
    requires Inv(s) && Enabled(c, s, CasOp(i))
    ensures Safe(c, s, CasOp(i)) && Inv(Cas(s, i))
  {
    KnowsAround(s, i);
    hide Inv;
    PairKeeps(s, Cas(s, i), i);
  }

  lemma TouchKeeps(c: Config, s: Sys, i: nat)
    requires Inv(s) && Enabled(c, s, TouchOp(i))
    ensures Safe(c, s, TouchOp(i)) && Inv(Touch(s, i))
  {
    KnowsAround(s, i);
    hide Inv;
    PairKeeps(s, Touch(s, i), i);
  }

  lemma StoreKeeps(c: Config, s: Sys, i: nat)
    requires Inv(s) && Enabled(c, s, StoreOp(i))
    ensures Safe(c, s, StoreOp(i)) && Inv(Store(s, i))
  {
    KnowsAround(s, i);
    hide Inv;
    PairKeeps(s, Store(s, i), i);
  }

  lemma CountKeeps(c: Config, s: Sys, i: nat)
    requires Inv(s) && Enabled(c, s, CountOp(i))
    ensures Safe(c, s, CountOp(i)) && Inv(Count(s, i))
  {
    KnowsAround(s, i);
    hide Inv;
    PairKeeps(s, Count(s, i), i);
  }

  lemma MoveKeeps(c: Config, s: Sys, i: nat)
    requires Inv(s) && Enabled(c, s, MoveOp(i))
    ensures Safe(c, s, MoveOp(i)) && Inv(Move(c, s, i))
  {
    KnowsAround(s, i);
    hide Inv;
    PairKeeps(s, Move(c, s, i), i);
  }

  lemma ReleaseKeeps(c: Config, s: Sys, i: nat)
    requires Inv(s) && Enabled(c, s, ReleaseOp(i))
    ensures Safe(c, s, ReleaseOp(i)) && Inv(Release(s, i))
  {
    KnowsAround(s, i);
    hide Inv;
    PairKeeps(s, Release(s, i), i);
  }

  lemma PublishKeeps(c: Config, s: Sys, i: nat)
    requires Inv(s) && Enabled(c, s, PublishOp(i))
    ensures Safe(c, s, PublishOp(i)) && Inv(Publish(s, i))
  {
    KnowsAround(s, i);
    if s.cores[i].word == Callback {
      KnowsAround(s, i + 1);
      hide Inv;
      PairKeeps(s, Publish(s, i), i + 1);
    } else {
      hide Inv;
      PairKeeps(s, Publish(s, i), i);
    }
  }

  lemma TakeKeeps(c: Config, s: Sys)
    requires Inv(s) && Enabled(c, s, TakeOp)
    ensures Safe(c, s, TakeOp) && Inv(Take(s))
  {
    KnowsAround(s, |s.cores| - 1);
    hide Inv;
    PairKeeps(s, Take(s), |s.cores| - 1);
  }

  lemma StepKeeps(c: Config, s: Sys, a: Action)
    requires Inv(s) && Enabled(c, s, a)
    ensures Safe(c, s, a) && Inv(Apply(c, s, a))
  {
    hide Inv, Alive, CanRelease;
    match a
    case SetOp => SetKeeps(c, s);
    case LoadOp(i) => LoadKeeps(c, s, i);
    case CasOp(i) => CasKeeps(c, s, i);
    case TouchOp(i) => TouchKeeps(c, s, i);
    case StoreOp(i) => StoreKeeps(c, s, i);
    case CountOp(i) => CountKeeps(c, s, i);
    case MoveOp(i) => MoveKeeps(c, s, i);
    case ReleaseOp(i) => ReleaseKeeps(c, s, i);
    case PublishOp(i) => PublishKeeps(c, s, i);
    case TakeOp => TakeKeeps(c, s);
  }

  // ---------- runs ----------

  /** A step that breaks an assumption of the code may do anything at all. */
  ghost predicate Step(c: Config, s: Sys, s': Sys, a: Action) {
    Enabled(c, s, a) && (Safe(c, s, a) ==> s' == Apply(c, s, a))
  }

  ghost predicate Run(c: Config, states: seq<Sys>, events: seq<Action>) {
    && |states| == |events| + 1 && Init(states[0])
    && forall i :: 0 <= i < |events| ==> Step(c, states[i], states[i + 1], events[i])
  }

  /** In every run a core that is touched exists, a result that is taken is there, one that is stored is the core's
      first, no core has two callbacks, and only a ready core is destroyed. */
  lemma {:induction false} RunsAreSafe(c: Config, states: seq<Sys>, events: seq<Action>, n: nat)
    requires Run(c, states, events) && n <= |events|
    ensures Inv(states[n])
    ensures forall i :: 0 <= i < n ==> Enabled(c, states[i], events[i]) && Safe(c, states[i], events[i])
  {
    hide Inv, Safe, Enabled, Apply;
    if n == 0 {
      InitInv(states[0]);
    } else {
      RunsAreSafe(c, states, events, n - 1);
      assert Step(c, states[n - 1], states[n - 1 + 1], events[n - 1]);
      StepKeeps(c, states[n - 1], events[n - 1]);
    }
  }

  ghost predicate Reachable(c: Config, s: Sys) {
    exists states, events :: Run(c, states, events) && states[|states| - 1] == s
  }

  lemma ReachableInv(c: Config, s: Sys)
    requires Reachable(c, s)
    ensures Inv(s)
  {
    hide Inv, Safe;
    var states, events :| Run(c, states, events) && states[|states| - 1] == s;
    RunsAreSafe(c, states, events, |events|);
  }

  // ---------- the value ----------

  /** The value is in core `i`, or in the hands of the thread that is going to store it there. */
  ghost predicate Has(s: Sys, i: nat) {
    i < |s.cores| && (s.cores[i].cell.Stored? || s.cores[i].at.Carries?)
  }

  lemma {:induction false} EmptiedBefore(s: Sys, i: nat, j: nat)
    requires Inv(s) && i < j < |s.cores| && !Before(s.cores[j].at)
    ensures s.cores[i].at == Published && Gone(s.cores[i].cell) && (i + 1 < j || Passed(s.cores[j].at) ==> s.cores[i].destroyed == 1)
  {
    Knows(s, j);
    Knows(s, j - 1);
    if i < j - 1 { EmptiedBefore(s, i, j - 1); }
  }

  /** The value is in one place at a time: in one core, in the hands of one thread, or with the owner of the last
      future; wherever it is, it is the one that the first promise was set to. */
  lemma OneOwner(c: Config, s: Sys, i: nat, j: nat)
    requires Reachable(c, s)
    ensures Has(s, i) && Has(s, j) ==> i == j
    ensures Has(s, i) ==> s.taken == None
    ensures Has(s, i) ==> if s.cores[i].at.Carries? then s.cores[i].at.v == s.truth else s.cores[i].cell.v == s.truth
    ensures s.taken.Some? ==> s.taken.value == s.truth
  {
    ReachableInv(c, s);
    hide Reachable;
    var n := |s.cores| - 1;
    Knows(s, n);
    if Has(s, i) {
      Knows(s, i);
      if s.taken.Some? && i < n { EmptiedAt(s, i, n); }
    }
    if Has(s, j) { Knows(s, j); }
    if Has(s, i) && Has(s, j) && i < j { EmptiedAt(s, i, j); }
    if Has(s, i) && Has(s, j) && j < i { EmptiedAt(s, j, i); }
  }

  lemma EmptiedAt(s: Sys, i: nat, j: nat)
    requires Inv(s) && i < j < |s.cores| && (!Before(s.cores[j].at) || s.cores[j].at.Carries?)
    ensures Gone(s.cores[i].cell) && s.cores[i].at == Published
  {
    Knows(s, j);
    Knows(s, j - 1);
    if i < j - 1 { EmptiedBefore(s, i, j - 1); }
  }

  /** A core that has got the result has destroyed the one before it, once, and so has every core before that; it
      holds the value, unless it was itself taken from since. */
  lemma DestroyedOnce(c: Config, s: Sys, i: nat, j: nat)
    requires Reachable(c, s) && i < j < |s.cores| && (s.cores[j].at == Filled || s.cores[j].at == Published)
    ensures s.cores[i].destroyed == 1 && s.cores[i].refs == 0 && s.cores[i].cell == Shared.Destroyed
    ensures s.cores[j].destroyed <= 1 && (s.cores[j].at == Filled ==> s.cores[j].cell == Shared.Stored(s.truth))
  {
    ReachableInv(c, s);
    EmptiedBefore(s, i, j);
    Knows(s, i);
    Knows(s, j);
  }

  /** When the last future was taken, every core was destroyed once. */
  lemma AllDestroyed(c: Config, s: Sys, i: nat)
    requires Reachable(c, s) && s.taken.Some? && i < |s.cores|
    ensures s.taken.value == s.truth && s.cores[i].destroyed == 1
  {
    ReachableInv(c, s);
    var n := |s.cores| - 1;
    Knows(s, n);
    if i < n { EmptiedBefore(s, i, n); }
  }

  /** Once the first promise is set and every future is connected or being connected, somebody can take a step until
      the last core has the result. */
  lemma NobodyForgotten(c: Config, s: Sys) returns (a: Action)
    requires Reachable(c, s) && |s.cores| > 0 && s.cores[0].at != Fresh
    requires forall i :: 0 < i < |s.cores| ==> s.cores[i].link != Apart
    requires s.cores[|s.cores| - 1].at != Published
    ensures Enabled(c, s, a) && a != TakeOp
  {
    ReachableInv(c, s);
    var i := FirstOpen(s, |s.cores| - 1);
    Knows(s, i);
    if i > 0 { Knows(s, i - 1); }
    hide Inv, Reachable;
    match s.cores[i].at
    case Fresh => a := if s.cores[i].link == Casing then CasOp(i) else TouchOp(i);
    case Called => a := if c.copyable then CountOp(i) else MoveOp(i);
    case Counted(_) => a := MoveOp(i);
    case Took => a := ReleaseOp(i);
    case Carries(_) => a := StoreOp(i);
    case Filled => a := PublishOp(i);
  }

  lemma FirstOpen(s: Sys, n: nat) returns (i: nat)
    requires n < |s.cores| && s.cores[n].at != Published
    ensures i <= n && s.cores[i].at != Published && (i > 0 ==> s.cores[i - 1].at == Published)
  {
    i := n;
    while i > 0 && s.cores[i - 1].at != Published
      invariant i <= n && s.cores[i].at != Published
    {
      i := i - 1;
    }
  }

  // ---------- every run ends ----------

  function AtWeight(p: Phase): nat {
    match p
    case Published => 0
    case Filled => 1
    case Took => 2
    case Carries(_) => 2
    case Counted(_) => 3
    case Called => 4
    case Fresh => 5
  }

  function LinkWeight(l: Link): nat {
    match l case Joined => 0 case Refused => 1 case Casing => 2 case Apart => 3
  }

  function Weight(x: Core): nat { AtWeight(x.at) + LinkWeight(x.link) }

  ghost function Weights(s: Sys): seq<nat> {
    seq(|s.cores|, i requires 0 <= i < |s.cores| => Weight(s.cores[i]))
  }

  /** How many steps there can be from here. */
  ghost function Left(s: Sys): nat { Total(Weights(s)) + if s.taken.Some? then 0 else 1 }

  /** Core `i` comes closer to its end, and no core gets farther away from it. */
  ghost predicate Closer(s: Sys, s': Sys, i: nat) {
    && |s'.cores| == |s.cores| && i < |s.cores| && s'.taken == s.taken
    && (forall j :: 0 <= j < |s.cores| ==> Weight(s'.cores[j]) <= Weight(s.cores[j]))
    && Weight(s'.cores[i]) < Weight(s.cores[i])
  }

  lemma CloserLeft(s: Sys, s': Sys, i: nat)
    requires Closer(s, s', i)
    ensures Left(s') < Left(s)
  {
    assert Weights(s')[i] < Weights(s)[i];
    TotalSmaller(Weights(s), Weights(s'));
  }

  lemma TakeLeft(c: Config, s: Sys)
    requires Enabled(c, s, TakeOp) && Safe(c, s, TakeOp)
    ensures Left(Apply(c, s, TakeOp)) < Left(s)
  {
    assert Weights(Apply(c, s, TakeOp)) == Weights(s);
  }

  function Moving(a: Action): nat { if a.SetOp? || a.TakeOp? then 0 else a.i }

  lemma StepLeft(c: Config, s: Sys, a: Action)
    requires Inv(s) && Enabled(c, s, a) && Safe(c, s, a)
    ensures Left(Apply(c, s, a)) < Left(s)
  {
    hide Inv, Left, Enabled, Safe, Apply, Closer;
    match a {
      case SetOp => SetCloser(c, s);
      case LoadOp(i) => LinkCloser(c, s, a, i);
      case CasOp(i) => LinkCloser(c, s, a, i);
      case TouchOp(i) => TouchCloser(c, s, i);
      case StoreOp(i) => StoreCloser(c, s, a, i);
      case CountOp(i) => StoreCloser(c, s, a, i);
      case MoveOp(i) => MoveCloser(c, s, i);
      case ReleaseOp(i) => ReleaseCloser(c, s, i);
      case PublishOp(i) => PublishCloser(c, s, i);
      case TakeOp => TakeLeft(c, s);
    }
    if a != TakeOp { CloserLeft(s, Apply(c, s, a), Moving(a)); }
  }

  lemma SetCloser(c: Config, s: Sys)
    requires Enabled(c, s, SetOp) && Safe(c, s, SetOp)
    ensures Closer(s, Apply(c, s, SetOp), 0)
  {
  }

  lemma LinkCloser(c: Config, s: Sys, a: Action, i: nat)
    requires Enabled(c, s, a) && Safe(c, s, a) && (a == LoadOp(i) || a == CasOp(i))
    ensures Closer(s, Apply(c, s, a), i)
  {
  }

  lemma TouchCloser(c: Config, s: Sys, i: nat)
    requires Inv(s) && Enabled(c, s, TouchOp(i)) && Safe(c, s, TouchOp(i))
    ensures Closer(s, Apply(c, s, TouchOp(i)), i)
  {
    KnowsAround(s, i);
    hide Inv;
  }

  lemma StoreCloser(c: Config, s: Sys, a: Action, i: nat)
    requires Enabled(c, s, a) && Safe(c, s, a) && (a == StoreOp(i) || a == CountOp(i))
    ensures Closer(s, Apply(c, s, a), i)
  {
  }

  lemma MoveCloser(c: Config, s: Sys, i: nat)
    requires Enabled(c, s, MoveOp(i)) && Safe(c, s, MoveOp(i))
    ensures Closer(s, Apply(c, s, MoveOp(i)), i)
  {
  }

  lemma ReleaseCloser(c: Config, s: Sys, i: nat)
    requires Enabled(c, s, ReleaseOp(i)) && Safe(c, s, ReleaseOp(i))
    ensures Closer(s, Apply(c, s, ReleaseOp(i)), i)
  {
  }

  lemma PublishCloser(c: Config, s: Sys, i: nat)
    requires Enabled(c, s, PublishOp(i)) && Safe(c, s, PublishOp(i))
    ensures Closer(s, Apply(c, s, PublishOp(i)), i)
  {
  }

  /** No run of a chain of `n` contracts has more than 8 n + 1 steps: nobody turns in a loop. */
  lemma {:induction false} RunsEnd(c: Config, states: seq<Sys>, events: seq<Action>, n: nat)
    requires Run(c, states, events) && n <= |events|
    ensures n + Left(states[n]) <= 8 * |states[0].cores| + 1
  {
    hide Inv, Safe, Enabled, Apply, Left;
    if n == 0 {
      StartLeft(states[0]);
    } else {
      RunsEnd(c, states, events, n - 1);
      RunsAreSafe(c, states, events, n);
      RunsAreSafe(c, states, events, n - 1);
      assert Step(c, states[n - 1], states[n - 1 + 1], events[n - 1]);
      StepLeft(c, states[n - 1], events[n - 1]);
    }
  }

  lemma StartLeft(s: Sys)
    requires Init(s)
    ensures Left(s) <= 8 * |s.cores| + 1
  {
    TotalBound(Weights(s), 8);
  }

  /** Where a run ends that nobody can go on with, the last future has given the value of the first promise, and every
      core was destroyed once. */
  lemma EndsTaken(c: Config, s: Sys, i: nat)
    requires Reachable(c, s) && i < |s.cores| && forall a :: !Enabled(c, s, a)
    ensures s.taken == Some(s.truth) && s.cores[i].destroyed == 1
  {
    ReachableInv(c, s);
    hide Reachable;
    assert !Enabled(c, s, SetOp) && !Enabled(c, s, TakeOp);
    forall j | 0 < j < |s.cores| ensures s.cores[j].link != Apart { assert !Enabled(c, s, LoadOp(j)); }
    if s.cores[|s.cores| - 1].at != Published { var a := NobodyForgotten(c, s); }
    Knows(s, |s.cores| - 1);
    AllDestroyed(c, s, i);
  }
}
