/** What a shared core promises, in every run of futures, promise and callbacks. */
module SharedCoreTheorems {
  import opened Common
  import opened Census
  import opened SharedCoreRuns
  import opened SharedCoreInvariant
  import opened SharedCoreSteps
  import opened SharedCoreDispatch

  // ---------- every careful step is safe and keeps the invariant ----------

  /** A callback is registered and nothing is stored yet: Ready says yes too early. */
  ghost predicate TooEarly(s: Sys) { s.order != [] && Unstored(s.promise) }

  /** The steps that read the result because Ready said yes, without waiting for it. */
  ghost predicate TrustsReady(a: Action) { a.LookOp? || a.TakeOp? }

  ghost predicate Careful(s: Sys, a: Action) { TrustsReady(a) ==> !TooEarly(s) }

  ghost predicate FutureAction(a: Action) {
    a.CopyOp? || a.DropOp? || a.ReadOp? || a.OfferOp? || a.CasOp? || a.RunRefusedOp? || a.GetRefOp? ||
    a.AwaitOp? || a.TouchOp? || a.ServeOp? || a.FinishOp?
  }

  lemma FutureStep(s: Sys, t: Tid, a: Action)
    requires Inv(s) && Enabled(s, t, a) && FutureAction(a)
    ensures Safe(s, t, a) && Inv(Apply(s, t, a))
  {
    hide Inv, Shape, Numbers, Alive, CanRelease, Readable, LenderWaits;
    match a
    case CopyOp(u) => CopyKeeps(s, t, u);
    case DropOp => DropKeeps(s, t);
    case ReadOp => HolderReads(s, t); ReadKeeps(s, t);
    case OfferOp(c) => OfferKeeps(s, t, c);
    case CasOp(spurious) => CasKeeps(s, t, spurious);
    case RunRefusedOp => RunRefusedKeeps(s, t);
    case AwaitOp(c) => if Ready(s.word) { TouchKeeps(s, t); } else { OfferKeeps(s, t, c); }
    case TouchOp => TouchKeeps(s, t);
    case GetRefOp => LoadCountKeeps(s, t);
    case ServeOp(c, stopped) => ServeKeeps(s, c, stopped);
    case FinishOp(c) => FinishKeeps(s, c);
  }

  lemma PromiseStep(s: Sys, t: Tid, a: Action)
    requires Inv(s) && Enabled(s, t, a) && !FutureAction(a) && !TrustsReady(a)
    ensures Safe(s, t, a) && Inv(Apply(s, t, a))
  {
    hide Inv, Shape, Numbers, Alive, CanRelease, Readable, LenderWaits;
    match a
    case PromiseCopyOp(u) => CopyKeeps(s, t, u);
    case PromiseOfferOp(c) => PromiseOfferKeeps(s, c);
    case PromiseCasOp(spurious) => PromiseCasKeeps(s, spurious);
    case StoreOp => StoreKeeps(s);
    case PublishOp => PublishKeeps(s);
    case WalkOp => WalkKeeps(s);
    case RunOp(junk) => RunKeeps(s, junk);
    case ForwardOp => ForwardKeeps(s);
    case ReleaseOp => ReleaseKeeps(s);
  }

  lemma UnpublishedWord(s: Sys)
    requires Listing(s.word, s.promise, s.order, s.ran, s.next, s.cb) && Unpublished(s.promise)
    ensures Ready(s.word) <==> s.order != []
  {
    assert Waiting(s.order, s.ran) == s.order;
  }

  lemma TrustingWord(s: Sys)
    requires Inv(s) && Unstored(s.promise)
    ensures Ready(s.word) <==> s.order != []
  {
    hide Listing, Numbers, Owners, Callbacks, PromiseOk, Delivered;
    UnpublishedWord(s);
  }

  lemma TrusterReady(s: Sys, t: Tid)
    requires Inv(s) && t in s.pc && (s.pc[t] == Trusts || s.pc[t] == Moves || s.pc[t] == Copies) && Unstored(s.promise)
    ensures Ready(s.word)
  {
    hide Listing, Numbers, Callbacks, PromiseOk, Delivered;
    assert OwnerOk(s, K(s), t);
  }

  /** Touch, co_await and Touch && of a future read a stored result exactly unless a callback is registered and
      nothing is stored when they read, whatever they saw before. */
  lemma TrustingIff(s: Sys, t: Tid, a: Action)
    requires Inv(s) && Enabled(s, t, a) && TrustsReady(a)
    ensures Safe(s, t, a) <==> !TooEarly(s)
    ensures Safe(s, t, a) ==> !Unstored(s.promise)
  {
    hide Inv, Shape, Alive;
    HolderReads(s, t);
    if Unstored(s.promise) {
      TrustingWord(s);
      TrusterReady(s, t);
    }
  }

  lemma TrustingKeeps(s: Sys, t: Tid, a: Action)
    requires Inv(s) && Enabled(s, t, a) && TrustsReady(a) && !TooEarly(s)
    ensures Safe(s, t, a) && Inv(Apply(s, t, a))
  {
    TrustingIff(s, t, a);
    hide Inv, Shape, Alive, Safe;
    match a
    case LookOp => LookKeeps(s, t);
    case TakeOp => TakeKeeps(s, t);
  }

  lemma StepKeeps(s: Sys, t: Tid, a: Action)
    requires Inv(s) && Enabled(s, t, a) && Careful(s, a)
    ensures Safe(s, t, a) && Inv(Apply(s, t, a))
  {
    hide Inv, Safe, Enabled, Apply, TooEarly;
    if TrustsReady(a) { TrustingKeeps(s, t, a); }
    else if FutureAction(a) { FutureStep(s, t, a); }
    else { PromiseStep(s, t, a); }
  }

  /** Nobody can take a step on a core that does not exist. */
  lemma StepAlive(s: Sys, t: Tid, a: Action)
    requires Inv(s) && Enabled(s, t, a)
    ensures Alive(s)
  {
    if TrustsReady(a) {
      hide Inv, Shape, Alive;
      HolderReads(s, t);
    } else {
      hide Inv, Shape, Alive, Apply;
      StepKeeps(s, t, a);
    }
  }

  // ---------- runs ----------

  /** A step that breaks an assumption of the code may do anything at all. */
  ghost predicate Step(s: Sys, s': Sys, t: Tid, a: Action) {
    Enabled(s, t, a) && (Safe(s, t, a) ==> s' == Apply(s, t, a))
  }

  datatype Event = Event(t: Tid, a: Action)

  ghost predicate Run(f: Option<Tid>, states: seq<Sys>, events: seq<Event>) {
    && |states| == |events| + 1
    && Init(states[0], f)
    && forall i :: 0 <= i < |events| ==> Step(states[i], states[i + 1], events[i].t, events[i].a)
  }

  ghost predicate CarefulRun(states: seq<Sys>, events: seq<Event>, n: nat)
    requires n <= |events| <= |states|
  {
    forall i :: 0 <= i < n ==> Careful(states[i], events[i].a)
  }

  ghost predicate SafeRun(states: seq<Sys>, events: seq<Event>, n: nat)
    requires n <= |events| <= |states|
  {
    forall i :: 0 <= i < n ==>
      Enabled(states[i], events[i].t, events[i].a) && Safe(states[i], events[i].t, events[i].a)
  }

  /** In every run the code's assumptions hold at each step (the core exists, what is read is the stored
      result and was not moved away, no one releases a core that is not ready), if and only if nobody
      trusts Ready while a callback is registered and nothing is stored. */
  lemma {:induction false} RunsAreSafe(f: Option<Tid>, states: seq<Sys>, events: seq<Event>, n: nat)
    requires Run(f, states, events) && n <= |events|
    ensures SafeRun(states, events, n) <==> CarefulRun(states, events, n)
    ensures CarefulRun(states, events, n) ==> Inv(states[n])
  {
    hide Inv, Safe, Enabled, Apply, Careful;
    if n == 0 {
      InitInv(states[0], f);
    } else {
      RunsAreSafe(f, states, events, n - 1);
      if CarefulRun(states, events, n - 1) {
        assert Step(states[n - 1], states[n - 1 + 1], events[n - 1].t, events[n - 1].a);
        StepIff(states[n - 1], events[n - 1].t, events[n - 1].a);
      }
    }
  }

  lemma StepIff(s: Sys, t: Tid, a: Action)
    requires Inv(s) && Enabled(s, t, a)
    ensures Safe(s, t, a) <==> Careful(s, a)
    ensures Careful(s, a) ==> Inv(Apply(s, t, a))
  {
    hide Inv, Safe, Enabled, Apply, TooEarly;
    if Careful(s, a) { StepKeeps(s, t, a); } else { TrustingIff(s, t, a); }
  }

  /** Reached without a step that is not safe. */
  ghost predicate Reachable(s: Sys) {
    exists f, states, events ::
      Run(f, states, events) && CarefulRun(states, events, |events|) && states[|states| - 1] == s
  }

  lemma ReachableInv(s: Sys)
    requires Reachable(s)
    ensures Inv(s)
  {
    hide Inv, Safe, Careful;
    var f, states, events :|
      Run(f, states, events) && CarefulRun(states, events, |events|) && states[|states| - 1] == s;
    RunsAreSafe(f, states, events, |events|);
  }

  // ---------- the value ----------

  /** A step that gives somebody the result, by copy, by move or by reference: a future, a callback that the
      dispatch calls, one whose registration failed, or one that was submitted. */
  ghost predicate ReadsResult(s: Sys, t: Tid, a: Action)
    requires Enabled(s, t, a) && Safe(s, t, a)
  {
    match a
    case ReadOp => true
    case LookOp => true
    case TakeOp => true
    case RunRefusedOp => s.kind[s.offer[t]] == Reads || s.kind[s.offer[t]] == Forwards
    case RunOp(_) => s.kind[s.promise.current] == Reads
    case ForwardOp => true
    case ServeOp(_, stopped) => !stopped
    case _ => false
  }

  predicate GoneCell(c: Cell) { c.MovedFrom? || c.Destroyed? }

  lemma CasCell(s: Sys, t: Tid, spurious: bool)
    requires Shape(s) && t in s.pc && s.offer[t] in s.cb
    ensures Cas(s, t, spurious).cell == s.cell
  {
  }

  lemma PromiseCasCell(s: Sys, spurious: bool)
    requires s.promise.Offering?
    ensures PromiseCas(s, spurious).cell == s.cell
  {
    var c := s.promise.callback;
    assert Push(s, c).cell == s.cell && PromiseLoaded(s, c).cell == s.cell;
    hide Push, PromiseLoaded;
  }

  lemma OfferCell(s: Sys, t: Tid, c: Tid)
    ensures Offer(s, t, c).cell == s.cell
  {
  }

  lemma ReleaseCell(s: Sys)
    requires GoneCell(s.cell) && s.promise.Releases? && s.promise.left > 0
    ensures GoneCell(Release(s).cell)
  {
  }

  lemma PublishCell(s: Sys)
    ensures Publish(s).cell == s.cell
  {
  }

  lemma WalkCell(s: Sys)
    requires GoneCell(s.cell) && Shape(s) && s.promise.Walks? && s.promise.head in s.cb
    ensures GoneCell(Walk(s).cell)
  {
    assert GoneCell(DecRef(s).cell);
    hide DecRef, Shape;
  }

  /** The steps that still make sense once the result is gone do not touch the cell, except for the last release. */
  lemma GoneStays(s: Sys, t: Tid, a: Action)
    requires Enabled(s, t, a) && Safe(s, t, a) && GoneCell(s.cell)
    ensures GoneCell(Apply(s, t, a).cell) && !ReadsResult(s, t, a)
  {
    hide Shape, CanRelease, LenderWaits, Run, RunRefused, Forward, Take, Serve, Read, Cas, PromiseCas, Offer, Release, Walk,
      Publish;
    match a
    case CasOp(spurious) => CasCell(s, t, spurious);
    case PromiseCasOp(spurious) => PromiseCasCell(s, spurious);
    case OfferOp(c) => OfferCell(s, t, c);
    case AwaitOp(c) => OfferCell(s, t, c);
    case WalkOp => WalkCell(s);
    case PublishOp => PublishCell(s);
    case ReleaseOp => ReleaseCell(s);
    case _ =>
  }

  /** Once the value was moved out, no later step of the run reads it or moves it again. */
  lemma {:induction false} MovedOnce(f: Option<Tid>, states: seq<Sys>, events: seq<Event>, i: nat, j: nat)
    requires Run(f, states, events) && i <= j < |events| && GoneCell(states[i].cell)
    requires CarefulRun(states, events, j + 1)
    ensures Enabled(states[j], events[j].t, events[j].a) && Safe(states[j], events[j].t, events[j].a)
    ensures GoneCell(states[j].cell) && !ReadsResult(states[j], events[j].t, events[j].a)
  {
    hide Inv, Safe, Enabled, Apply, ReadsResult, GoneCell, Careful;
    RunsAreSafe(f, states, events, j + 1);
    if i < j {
      MovedOnce(f, states, events, i, j - 1);
      RunsAreSafe(f, states, events, j);
      assert Step(states[j - 1], states[j - 1 + 1], events[j - 1].t, events[j - 1].a);
      GoneStays(states[j - 1], events[j - 1].t, events[j - 1].a);
    }
    GoneStays(states[j], events[j].t, events[j].a);
  }

  /** Everybody who was given a result was given the one that was stored. */
  lemma ReceivedIsStored(s: Sys, x: Tid)
    requires Reachable(s)
    ensures x in s.got ==> s.got[x] == s.truth
    ensures x in s.taken ==> s.taken[x] == s.truth
    ensures s.cell.Stored? ==> s.cell.v == s.truth
  {
    ReachableInv(s);
  }

  // ---------- the count ----------

  /** Nobody but the promise owns a reference. */
  ghost predicate OnlyPromise(s: Sys) {
    && (forall t :: t in s.pc ==> s.pc[t] == NoRef)
    && (forall c :: c in s.cb ==> !HoldsRef(s.cb[c]))
  }

  lemma NobodyElse(s: Sys)
    requires Inv(s)
    ensures s.refs == PromiseRefs(s.promise) <==> OnlyPromise(s)
    ensures s.refs >= PromiseRefs(s.promise)
  {
    hide Owners, Callbacks, PromiseOk, Listing, Delivered;
    if OnlyPromise(s) {
      Nobody(s.pc, IsActive);
      Nobody(s.pc, IsSpent);
      Nobody(s.cb, HoldsRef);
    } else if t :| t in s.pc && s.pc[t] != NoRef {
      if s.pc[t] == Spent { Present(s.pc, IsSpent, t); } else { Present(s.pc, IsActive, t); }
    } else {
      var c :| c in s.cb && HoldsRef(s.cb[c]);
      Present(s.cb, HoldsRef, c);
    }
  }

  /** While a callback is called the count is at least 3, unless it is the last one in the list; then the
      count is 2 exactly when there is no SharedFuture, no combinator and no submitted callback left.  What a
      forwarding core loaded tells it apart even later: 2 still means that nobody else is there. */
  lemma DispatchCounts(s: Sys)
    requires Reachable(s)
    ensures s.promise.Runs? && s.promise.next.Some? ==> s.refs >= 3
    ensures s.promise.Runs? && s.promise.next.None? ==> s.refs >= 2 && (s.refs == 2 <==> OnlyPromise(s))
    ensures s.promise.Forwarding? && s.promise.ref == 2 ==>
              s.promise.next.None? && forall t :: t in s.pc ==> !IsActive(s.pc[t])
    ensures s.promise.Forwarding? ==> s.promise.ref >= 2
  {
    ReachableInv(s);
    NobodyElse(s);
    if s.promise.Forwarding? {
      ForwardNumbers(s);
      forall t | t in s.pc && s.promise.ref == 2 ensures !IsActive(s.pc[t]) {
        if IsActive(s.pc[t]) { Present(s.pc, IsActive, t); }
      }
    }
  }

  /** A future that saw the count 1 and moves the result is the only one that can still reach the core. */
  lemma MoverIsAlone(s: Sys, t: Tid)
    requires Reachable(s) && OwnerIs(s, t, Moves)
    ensures s.promise == Gone && Readable(s)
    ensures forall u :: u in s.pc && u != t ==> !IsActive(s.pc[u])
    ensures forall c :: c in s.cb ==> !HoldsRef(s.cb[c])
  {
    hide N, Of, Callbacks, PromiseOk, Listing, Delivered, Numbers, Reachable;
    ReachableInv(s);
    assert OwnerOk(s, K(s), t);
    GoneReady(s);
    HolderReads(s, t);
    forall u | u in s.pc && u != t ensures !IsActive(s.pc[u]) {
      if IsActive(s.pc[u]) { OnlyActive(s, t, u); }
    }
    forall c | c in s.cb ensures !HoldsRef(s.cb[c]) {
      if HoldsRef(s.cb[c]) { Present(s.cb, HoldsRef, c); }
    }
  }

  // ---------- delivery ----------

  /** The dispatch calls no callback twice, calls only registered ones, and by the time the promise lets go
      of the core it has called them all, the last registered first. */
  lemma EachCalledOnce(s: Sys)
    requires Reachable(s)
    ensures Distinct(s.ran)
    ensures s.ran <= Reversed(s.order)
    ensures s.promise.Releases? || s.promise.Gone? ==> s.ran == Reversed(s.order)
    ensures forall c :: c in s.ran ==> c in s.cb && WasCalled(s.cb[c])
    ensures forall c :: CallbackIs(s, c, Listed) ==> c in s.order && c !in s.ran && !s.promise.Gone?
  {
    ReachableInv(s);
    hide Reachable, N, Of, Numbers, Owners, Callbacks, PromiseOk, Delivered;
    var q := Waiting(s.order, s.ran);
    assert |q| + |s.ran| == |s.order|;
    assert s.ran == Reversed(s.order)[..|s.ran|];
    forall c | CallbackIs(s, c, Listed) ensures c in s.order && c !in s.ran && !s.promise.Gone? {
      assert c in q;
    }
  }

  /** A registration fails only when the result is there to be read. */
  lemma RefusedIsReady(s: Sys, t: Tid)
    requires Reachable(s) && OwnerIs(s, t, Refused)
    ensures s.word == Result && Readable(s) && s.cell.v == s.truth
  {
    ReachableInv(s);
    assert OwnerOk(s, K(s), t);
    HolderReads(s, t);
  }

  /** A callback that is done, other than a submitted or a combinator's, was given the result. */
  lemma CalledGotResult(s: Sys, c: Tid)
    requires Reachable(s) && CallbackIs(s, c, Done)
    ensures c in s.kind
    ensures s.kind[c] == Reads || s.kind[c] == Forwards ==> c in s.got && s.got[c] == s.truth
  {
    hide N, Of, Owners, PromiseOk, Listing;
    ReachableInv(s);
    assert CallbackOk(s, c);
  }

  // ---------- lifetime ----------

  /** The core is destroyed exactly when the promise, every future, every combinator and every submitted
      callback let go of it, and then it is ready. */
  lemma Lifetime(s: Sys)
    requires Reachable(s)
    ensures s.cell.Destroyed? <==> s.promise == Gone && OnlyPromise(s)
    ensures s.cell.Destroyed? ==> s.word == Result && s.ran == Reversed(s.order)
  {
    ReachableInv(s);
    NobodyElse(s);
    GoneReady(s);
    EachCalledOnce(s);
  }

  /** Nobody can take a step on a destroyed core, so it is not destroyed again. */
  lemma DestroyedIsFinal(s: Sys, t: Tid, a: Action)
    requires Reachable(s) && s.cell.Destroyed?
    ensures !Enabled(s, t, a)
  {
    ReachableInv(s);
    if Enabled(s, t, a) { StepAlive(s, t, a); }
  }

  // ---------- Ready ----------

  /** Ready says that the result is computed when it is, but also as soon as a callback is registered. */
  lemma ReadyMeaning(s: Sys)
    requires Reachable(s)
    ensures s.word == Result ==> Ready(s.word)
    ensures (Ready(s.word) ==> s.word == Result) <==> s.order == [] || !Unpublished(s.promise)
  {
    ReachableInv(s);
    GoneReady(s);
  }

  /** co_await, Touch and Touch && of a future, between Ready and the read: the read finds an unconstructed
      result exactly when a callback is registered and the promise has still stored nothing. */
  lemma TrustingReady(s: Sys, t: Tid, a: Action)
    requires Reachable(s) && Enabled(s, t, a) && TrustsReady(a)
    ensures !Safe(s, t, a) <==> TooEarly(s)
    ensures TooEarly(s) ==> s.cell == Raw
  {
    hide Inv, Safe, Enabled, Reachable;
    ReachableInv(s);
    TrustingIff(s, t, a);
    StoredLater(s);
  }

  lemma StoredLater(s: Sys)
    requires Inv(s)
    ensures TooEarly(s) ==> s.cell == Raw
  {
  }

  /** A contract with its future `t`, and two coroutines `t` and `u` that are going to await it. */
  function Contract(t: Tid, u: Tid): Sys {
    Sys(Empty, WITH_FUTURE, Raw, Unset, map[t := Holds], map[t := Empty], map[t := t],
        map[t := Fresh, u := Fresh], map[t := Reads, u := Reads], map[t := None, u := None], map[t := None, u := None],
        [], [], Payload(0), map[], map[], {})
  }

  lemma ContractOffers(t: Tid, u: Tid)
    requires t != u
    ensures var s0, s1 := Contract(t, u), Offer(Contract(t, u), t, t);
      && Enabled(s0, t, AwaitOp(t)) && Safe(s0, t, AwaitOp(t)) && Await(s0, t, t) == s1 && Shape(s1)
      && OwnerIs(s1, t, Offers) && s1.offer[t] == t && s1.saved[t] == s1.word == Empty && Alive(s1) && s1.cell == Raw
      && CallbackIs(s1, t, Offered) && CallbackIs(s1, u, Fresh) && s1.kind[t] == s1.kind[u] == Reads
  {
    ContractIs(t, u);
    hide Contract, Offer, Await;
    OfferEffects(Contract(t, u), t, t);
  }

  lemma ContractIs(t: Tid, u: Tid)
    requires t != u
    ensures var s := Contract(t, u);
      && Shape(s) && OwnerIs(s, t, Holds) && CallbackIs(s, t, Fresh) && CallbackIs(s, u, Fresh) && s.word == Empty
      && s.kind[t] == s.kind[u] == Reads && Alive(s) && s.cell == Raw
  {
  }

  lemma OfferEffects(s: Sys, t: Tid, c: Tid)
    requires Shape(s) && OwnerIs(s, t, Holds) && CallbackIs(s, c, Fresh) && s.word == Empty
    ensures var s' := Offer(s, t, c);
      && Await(s, t, c) == s' && Shape(s') && OwnerIs(s', t, Offers) && s'.offer[t] == c && s'.saved[t] == s'.word == Empty
      && s'.refs == s.refs && s'.cell == s.cell && CallbackIs(s', c, Offered) && s'.kind == s.kind
      && forall u :: u != c && u in s.cb ==> u in s'.cb && s'.cb[u] == s.cb[u]
  {
  }

  lemma ContractPushes(s: Sys, t: Tid, u: Tid)
    requires t != u && Shape(s) && OwnerIs(s, t, Offers) && s.offer[t] == t && s.saved[t] == s.word == Empty
    requires Alive(s) && s.cell == Raw && CallbackIs(s, t, Offered) && CallbackIs(s, u, Fresh)
    requires s.kind[t] == s.kind[u] == Reads
    ensures Enabled(s, t, CasOp(false)) && Safe(s, t, CasOp(false))
    ensures var s' := Cas(s, t, false);
      && OwnerIs(s', t, Holds) && CallbackIs(s', u, Fresh) && Shape(s') && s'.kind[u] == Reads
      && Ready(s'.word) && s'.cell == Raw
  {
  }

  lemma ContractRegisters(t: Tid, u: Tid)
    requires t != u
    ensures var s0, s1 := Contract(t, u), Offer(Contract(t, u), t, t);
      && Enabled(s0, t, AwaitOp(t)) && Safe(s0, t, AwaitOp(t)) && Await(s0, t, t) == s1
      && Enabled(s1, t, CasOp(false)) && Safe(s1, t, CasOp(false))
      && var s := Cas(s1, t, false);
      && OwnerIs(s, t, Holds) && CallbackIs(s, u, Fresh) && Shape(s) && s.kind[u] == Reads
      && Ready(s.word) && s.cell == Raw
  {
    hide Offer, Contract, Enabled, Safe, Await, Shape, Alive, Ready;
    ContractOffers(t, u);
    ContractPushes(Offer(Contract(t, u), t, t), t, u);
  }

  lemma ReachStart(s: Sys, f: Option<Tid>)
    requires Init(s, f)
    ensures Reachable(s)
  {
    hide Init;
    assert Run(f, [s], []) && CarefulRun([s], [], 0) && [s][|[s]| - 1] == s;
  }

  lemma ReachNext(s: Sys, t: Tid, a: Action)
    requires Reachable(s) && Enabled(s, t, a) && Careful(s, a)
    ensures Safe(s, t, a) && Reachable(Apply(s, t, a))
  {
    hide Inv, Init, Enabled, Safe, Apply, Careful;
    ReachableInv(s);
    StepIff(s, t, a);
    var f, states, events :|
      Run(f, states, events) && CarefulRun(states, events, |events|) && states[|states| - 1] == s;
    var states', events' := states + [Apply(s, t, a)], events + [Event(t, a)];
    forall i | 0 <= i < |events'|
      ensures Step(states'[i], states'[i + 1], events'[i].t, events'[i].a) && Careful(states'[i], events'[i].a)
    {
      if i < |events| { assert Step(states[i], states[i + 1], events[i].t, events[i].a); }
    }
    assert Run(f, states', events') && CarefulRun(states', events', |events'|);
    assert states'[|states'| - 1] == Apply(s, t, a);
  }

  lemma ContractInit(t: Tid, u: Tid)
    ensures Init(Contract(t, u), Some(t)) && Careful(Contract(t, u), AwaitOp(t))
  {
  }

  /** A coroutine awaits a future and suspends.  Nothing was stored yet, but a second coroutine that awaits the
      same future does not suspend, and if it goes on before the store, it reads the result that is not there; so
      does Touch. */
  lemma ReadyTooEarly(t: Tid, u: Tid) returns (s: Sys, s': Sys)
    requires t != u
    ensures Reachable(s) && Ready(s.word) && s.cell == Raw
    ensures Enabled(s, t, AwaitOp(u)) && Safe(s, t, AwaitOp(u)) && Apply(s, t, AwaitOp(u)) == s'
    ensures Enabled(s, t, TouchOp) && Safe(s, t, TouchOp) && Apply(s, t, TouchOp) == s'
    ensures Reachable(s') && s'.cell == Raw && Enabled(s', t, LookOp) && !Safe(s', t, LookOp)
  {
    hide Init, Contract, Offer, Cas, Shape, Reachable, Careful;
    ContractRegisters(t, u);
    ContractInit(t, u);
    var s0 := Contract(t, u);
    var s1 := Offer(s0, t, t);
    ReachStart(s0, Some(t));
    ReachNext(s0, t, AwaitOp(t));
    CarefulCas(s1);
    ReachNext(s1, t, CasOp(false));
    s := Cas(s1, t, false);
    CarefulAwait(s, u);
    ReachNext(s, t, AwaitOp(u));
    s' := Touch(s, t);
    TouchedRaw(s, t);
  }

  lemma TouchedRaw(s: Sys, t: Tid)
    requires Shape(s) && OwnerIs(s, t, Holds) && s.cell == Raw
    ensures Enabled(Touch(s, t), t, LookOp) && !Safe(Touch(s, t), t, LookOp)
  {
  }

  lemma CarefulCas(s: Sys)
    ensures Careful(s, CasOp(false))
  {
  }

  lemma CarefulAwait(s: Sys, u: Tid)
    ensures Careful(s, AwaitOp(u))
  {
  }
}
