/** Who is given the result of a shared core, step by step: everybody who asks for it is, and nobody else. */
module SharedCoreDelivery {
  import opened Common
  import opened Census
  import opened SharedCoreRuns
  import opened SharedCoreInvariant
  import opened SharedCoreSteps
  import opened SharedCoreDispatch
  import opened SharedCoreTheorems

  /** Nobody is given anything. */
  ghost predicate Keeps(s: Sys, s': Sys) {
    s'.got == s.got && s'.taken == s.taken && s'.called == s.called && s'.kind == s.kind
  }

  /** The future or combinator `t` is given `v`. */
  ghost predicate Takes(s: Sys, s': Sys, t: Tid, v: Payload) {
    s'.taken == s.taken[t := v] && s'.got == s.got && s'.called == s.called && s'.kind == s.kind
  }

  /** The callback `c` is given `v`. */
  ghost predicate Gets(s: Sys, s': Sys, c: Tid, v: Payload) {
    s'.got == s.got[c := v] && s'.taken == s.taken && s'.called == s.called && s'.kind == s.kind
  }

  /** The submitted callback `c` is called and given `v`. */
  ghost predicate Calls(s: Sys, s': Sys, c: Tid, v: Payload) {
    s'.got == s.got[c := v] && s'.taken == s.taken && s'.called == s.called + {c} && s'.kind == s.kind
  }

  /** The callback `c`, which a core calls or whose registration it refused: one that reads and a core that forwards
      are given `v`; one that is submitted gets a reference; a combinator's owner has its own reference back. */
  ghost predicate Serves(s: Sys, s': Sys, c: Tid, v: Payload)
    requires c in s.kind
  {
    match s.kind[c]
    case Reads => Gets(s, s', c, v) && CallbackIs(s', c, Done)
    case Forwards => Gets(s, s', c, v) && CallbackIs(s', c, Done)
    case Posts => Keeps(s, s') && CallbackIs(s', c, Posted) && s'.refs == s.refs + 1
    case Retires => Keeps(s, s') && CallbackIs(s', c, Done) && s'.refs == s.refs
  }

  /** What a step gives to whom. */
  ghost predicate Delivers(s: Sys, s': Sys, t: Tid, a: Action, v: Payload)
    requires Enabled(s, t, a) && Safe(s, t, a)
  {
    match a
    case ReadOp => Takes(s, s', t, v)
    case LookOp => Takes(s, s', t, v)
    case TakeOp => Takes(s, s', t, v)
    case RunRefusedOp => Serves(s, s', s.offer[t], v) && OwnerIs(s', t, Holds)
    case RunOp(_) =>
      if s.kind[s.promise.current] == Forwards then Keeps(s, s') && s'.promise.Forwarding?
      else
        && Serves(s, s', s.promise.current, v)
        && (s.kind[s.promise.current] == Retires ==> OwnerIs(s', s.lender[s.promise.current].value, Holds))
    case ForwardOp => Serves(s, s', s.promise.current, v)
    case ServeOp(c, stopped) => if stopped then Keeps(s, s') else Calls(s, s', c, v)
    case _ => Keeps(s, s')
  }

  /** In every run: a step at which a future, a callback or a core asks for the result gives it the one that was
      stored, also to a submitted callback that its executor calls; no other step gives anybody anything. */
  lemma StepDelivers(s: Sys, t: Tid, a: Action)
    requires Reachable(s) && Enabled(s, t, a) && Careful(s, a)
    ensures Safe(s, t, a) && Delivers(s, Apply(s, t, a), t, a, s.truth)
  {
    hide Reachable, Inv, Safe, Enabled, Apply, Careful, Delivers;
    ReachableInv(s);
    StepKeeps(s, t, a);
    ReceivedIsStored(s, t);
    ForwardingIs(s);
    DeliversStored(s, t, a);
  }

  lemma ForwardingIs(s: Sys)
    requires Inv(s)
    ensures s.promise.Forwarding? ==> s.promise.current in s.kind && s.kind[s.promise.current] == Forwards
  {
    hide N, Of, Owners, Callbacks, Delivered, Listing;
  }

  lemma ReadDelivers(s: Sys, t: Tid, u: Tid)
    requires Readable(s)
    ensures Takes(s, Read(s, t), t, s.cell.v) && Takes(s, Look(s, t), t, s.cell.v)
    ensures t in s.pc ==> Takes(s, Take(s, t), t, s.cell.v)
  {
  }

  lemma RefusedDelivers(s: Sys, t: Tid)
    requires Shape(s) && t in s.pc && s.offer[t] in s.cb && Readable(s)
    ensures s.offer[t] in s.kind && Serves(s, RunRefused(s, t), s.offer[t], s.cell.v)
    ensures OwnerIs(RunRefused(s, t), t, Holds)
  {
  }

  lemma RunDelivers(s: Sys, t: Tid, junk: Option<Tid>)
    requires Shape(s) && s.promise.Runs? && s.promise.current in s.cb && Readable(s) && LenderWaits(s, s.promise.current)
    requires Enabled(s, t, RunOp(junk)) && Safe(s, t, RunOp(junk))
    ensures Delivers(s, SharedCoreRuns.Run(s, junk), t, RunOp(junk), s.cell.v)
  {
    hide Alive, After;
  }

  lemma ForwardDelivers(s: Sys)
    requires Shape(s) && s.promise.Forwarding? && Readable(s)
    requires s.promise.current in s.kind && s.kind[s.promise.current] == Forwards
    ensures Serves(s, Forward(s), s.promise.current, s.cell.v)
  {
    hide After;
  }

  lemma ServeDelivers(s: Sys, c: Tid, stopped: bool)
    requires Readable(s)
    ensures var s' := Serve(s, c, stopped);
      if stopped then Keeps(s, s') else Calls(s, s', c, s.cell.v)
  {
  }

  lemma FutureKeeps(s: Sys, t: Tid, u: Tid, c: Tid)
    ensures Keeps(s, Copy(s, u)) && Keeps(s, Drop(s, t)) && Keeps(s, Touch(s, t)) && Keeps(s, LoadCount(s, t))
    ensures Keeps(s, Finish(s, c)) && Keeps(s, Store(s)) && Keeps(s, Publish(s))
  {
  }

  lemma LoadedKeeps(s: Sys, t: Tid, c: Tid)
    ensures Keeps(s, Loaded(s, t, c))
  {
    if s.word != Result {
      hide GoOwner;
      var s1 := s.(saved := s.saved[t := s.word], next := s.next[c := Pointer(s.word)]);
      assert Keeps(s, s1);
      MovesKeep(s1, t, Offers);
    }
  }

  lemma MovesKeep(s: Sys, t: Tid, p: OwnerPhase)
    ensures Keeps(s, GoOwner(s, t, p))
  {
  }

  lemma PromiseLoadedKeeps(s: Sys, c: Tid)
    ensures Keeps(s, PromiseLoaded(s, c))
  {
  }

  lemma OfferDelivers(s: Sys, t: Tid, c: Tid)
    ensures Keeps(s, Offer(s, t, c))
  {
    hide Loaded;
    LoadedKeeps(GoCallback(s.(offer := s.offer[t := c], lender := s.lender[c := Some(t)]), c, Offered), t, c);
  }

  lemma PromiseOfferDelivers(s: Sys, t: Tid, c: Tid)
    ensures Keeps(s, PromiseOffer(s, c))
  {
    hide PromiseLoaded;
    PromiseLoadedKeeps(GoCallback(s.(lender := s.lender[c := None]), c, Offered), c);
  }

  lemma AwaitDelivers(s: Sys, t: Tid, c: Tid)
    ensures Keeps(s, Await(s, t, c))
  {
    hide Offer;
    OfferDelivers(s, t, c);
  }

  lemma PushKeepsAll(s: Sys, c: Tid)
    ensures Keeps(s, Push(s, c))
  {
  }

  lemma CasDelivers(s: Sys, t: Tid, spurious: bool)
    requires Shape(s) && t in s.pc && s.offer[t] in s.cb
    ensures Keeps(s, Cas(s, t, spurious))
  {
    hide Loaded, Push;
    LoadedKeeps(s, t, s.offer[t]);
    PushKeepsAll(s, s.offer[t]);
  }

  lemma PromiseCasDelivers(s: Sys, t: Tid, spurious: bool)
    requires s.promise.Offering?
    ensures Keeps(s, PromiseCas(s, spurious))
  {
    hide PromiseLoaded, Push;
    PromiseLoadedKeeps(s, s.promise.callback);
    PushKeepsAll(s, s.promise.callback);
  }

  lemma PromiseKeeps(s: Sys)
    requires Shape(s)
    ensures s.promise.Walks? && s.promise.head in s.cb ==> Keeps(s, Walk(s))
    ensures s.promise.Releases? && s.promise.left > 0 ==> Keeps(s, Release(s))
  {
  }

  lemma DeliversStored(s: Sys, t: Tid, a: Action)
    requires Enabled(s, t, a) && Safe(s, t, a) && (s.cell.Stored? ==> s.cell.v == s.truth)
    requires s.promise.Forwarding? ==> s.promise.current in s.kind && s.kind[s.promise.current] == Forwards
    ensures Delivers(s, Apply(s, t, a), t, a, s.truth)
  {
    hide Alive, CanRelease, Keeps, Takes, Serves, Calls, Shape, Copy, Drop, Read, Look, Take, Offer, Await, Touch,
      Cas, RunRefused, LoadCount, PromiseOffer, PromiseCas, Store, Publish, Walk, SharedCoreRuns.Run, Forward, Release, Serve,
      Finish, LenderWaits;
    match a
    case CopyOp(u) => FutureKeeps(s, t, u, t);
    case DropOp => FutureKeeps(s, t, t, t);
    case ReadOp => ReadDelivers(s, t, t);
    case AwaitOp(c) => AwaitDelivers(s, t, c);
    case TouchOp => FutureKeeps(s, t, t, t);
    case LookOp => ReadDelivers(s, t, t);
    case OfferOp(c) => OfferDelivers(s, t, c);
    case CasOp(spurious) => CasDelivers(s, t, spurious);
    case RunRefusedOp => RefusedDelivers(s, t);
    case GetRefOp => FutureKeeps(s, t, t, t);
    case TakeOp => ReadDelivers(s, t, t);
    case PromiseCopyOp(u) => FutureKeeps(s, t, u, t);
    case PromiseOfferOp(c) => PromiseOfferDelivers(s, t, c);
    case PromiseCasOp(spurious) => PromiseCasDelivers(s, t, spurious);
    case StoreOp => FutureKeeps(s, t, t, t);
    case PublishOp => FutureKeeps(s, t, t, t);
    case WalkOp => PromiseKeeps(s);
    case RunOp(junk) => RunDelivers(s, t, junk);
    case ForwardOp => ForwardDelivers(s);
    case ReleaseOp => PromiseKeeps(s);
    case ServeOp(c, stopped) => ServeDelivers(s, c, stopped);
    case FinishOp(c) => FutureKeeps(s, t, t, c);
  }

  // ---------- submitted callbacks ----------

  /** Of the submitted callbacks, those were given the result that their executor called. */
  ghost predicate Tracked(s: Sys) {
    && s.kind.Keys == s.cb.Keys
    && (forall c :: c in s.called ==> c in s.kind && s.kind[c] == Posts)
    && (forall c :: c in s.kind && s.kind[c] == Posts ==> (c in s.called <==> c in s.got))
  }

  lemma PostedKind(s: Sys, c: Tid)
    requires Inv(s) && CallbackIs(s, c, Posted)
    ensures Shape(s) && s.kind[c] == Posts
  {
    hide N, Of, Owners, Numbers, PromiseOk, Delivered, Listing;
    assert CallbackOk(s, c);
  }

  /** `x` is the callback or future that is given something, if anybody is. */
  lemma TrackedBy(s: Sys, s': Sys, x: Tid, v: Payload)
    requires Tracked(s) && s'.kind.Keys == s'.cb.Keys
    requires Keeps(s, s') || Takes(s, s', x, v) || (Gets(s, s', x, v) && x in s.kind && s.kind[x] != Posts)
          || (Calls(s, s', x, v) && x in s.kind && s.kind[x] == Posts)
    ensures Tracked(s')
  {
  }

  lemma TrackedServes(s: Sys, s': Sys, c: Tid, v: Payload)
    requires Tracked(s) && s'.kind.Keys == s'.cb.Keys && c in s.kind && Serves(s, s', c, v)
    ensures Tracked(s')
  {
    hide Tracked, Keeps, Gets;
    TrackedBy(s, s', c, v);
  }

  /** The step serves a callback. */
  predicate IsService(a: Action) { a.RunRefusedOp? || a.RunOp? || a.ForwardOp? || a.ServeOp? }

  lemma TrackedStep(s: Sys, t: Tid, a: Action)
    requires Inv(s) && Tracked(s) && Enabled(s, t, a) && Safe(s, t, a)
    requires Delivers(s, Apply(s, t, a), t, a, s.truth) && Shape(Apply(s, t, a))
    ensures Tracked(Apply(s, t, a))
  {
    var s' := Apply(s, t, a);
    if IsService(a) { TrackedService(s, t, a, s'); }
    else {
      hide Inv, Safe, Enabled, Apply, Tracked, Keeps, Takes, Gets, Calls, Serves;
      TrackedBy(s, s', t, s.truth);
    }
  }

  lemma TrackedService(s: Sys, t: Tid, a: Action, s': Sys)
    requires Inv(s) && Tracked(s) && Enabled(s, t, a) && Safe(s, t, a) && IsService(a)
    requires Delivers(s, s', t, a, s.truth) && Shape(s')
    ensures Tracked(s')
  {
    hide Inv, Enabled, Safe, Delivers, Tracked, Shape;
    match a
    case RunRefusedOp => TrackedRefused(s, t, s');
    case RunOp(junk) => TrackedRun(s, t, junk, s');
    case ForwardOp => ForwardingIs(s); PromiseForwards(s, t); TrackedForward(s, t, s');
    case ServeOp(c, stopped) => PostedIs(s, t, c, stopped); TrackedServe(s, t, c, stopped, s');
  }

  lemma PromiseForwards(s: Sys, t: Tid)
    requires Enabled(s, t, ForwardOp)
    ensures s.promise.Forwarding?
  {
  }

  lemma PostedIs(s: Sys, t: Tid, c: Tid, stopped: bool)
    requires Inv(s) && Enabled(s, t, ServeOp(c, stopped))
    ensures Shape(s) && c in s.kind && s.kind[c] == Posts
  {
    hide Inv;
    PostedKind(s, c);
  }

  lemma TrackedRefused(s: Sys, t: Tid, s': Sys)
    requires Tracked(s) && Enabled(s, t, RunRefusedOp) && Safe(s, t, RunRefusedOp) && Shape(s')
    requires Delivers(s, s', t, RunRefusedOp, s.truth)
    ensures Tracked(s')
  {
    hide Tracked, Serves;
    TrackedServes(s, s', s.offer[t], s.truth);
  }

  lemma TrackedRun(s: Sys, t: Tid, junk: Option<Tid>, s': Sys)
    requires Tracked(s) && Enabled(s, t, RunOp(junk)) && Safe(s, t, RunOp(junk)) && Shape(s')
    requires Delivers(s, s', t, RunOp(junk), s.truth)
    ensures Tracked(s')
  {
    hide Tracked, Serves, Keeps, OwnerIs;
    var c := s.promise.current;
    if s.kind[c] == Forwards { TrackedBy(s, s', c, s.truth); } else { TrackedServes(s, s', c, s.truth); }
  }

  lemma TrackedForward(s: Sys, t: Tid, s': Sys)
    requires Tracked(s) && Enabled(s, t, ForwardOp) && Safe(s, t, ForwardOp) && Shape(s')
    requires s.promise.current in s.kind && Delivers(s, s', t, ForwardOp, s.truth)
    ensures Tracked(s')
  {
    hide Tracked, Serves;
    TrackedServes(s, s', s.promise.current, s.truth);
  }

  lemma TrackedServe(s: Sys, t: Tid, c: Tid, stopped: bool, s': Sys)
    requires Tracked(s) && Enabled(s, t, ServeOp(c, stopped)) && Safe(s, t, ServeOp(c, stopped)) && Shape(s')
    requires c in s.kind && s.kind[c] == Posts && Delivers(s, s', t, ServeOp(c, stopped), s.truth)
    ensures Tracked(s')
  {
    hide Tracked, Keeps, Calls;
    TrackedBy(s, s', c, s.truth);
  }

  lemma StartTracked(f: Option<Tid>, s: Sys)
    requires Init(s, f)
    ensures Tracked(s)
  {
  }

  lemma {:induction false} CalledTracked(f: Option<Tid>, states: seq<Sys>, events: seq<Event>, n: nat)
    requires SharedCoreTheorems.Run(f, states, events) && n <= |events| && CarefulRun(states, events, n)
    ensures Tracked(states[n])
  {
    hide Inv, Safe, Enabled, Apply, Careful, Tracked, Delivers, Shape;
    RunsAreSafe(f, states, events, n);
    if n == 0 {
      StartTracked(f, states[0]);
    } else {
      CalledTracked(f, states, events, n - 1);
      RunsAreSafe(f, states, events, n - 1);
      var s, e := states[n - 1], events[n - 1];
      assert Step(s, states[n - 1 + 1], e.t, e.a);
      StepKeeps(s, e.t, e.a);
      InvStored(s);
      ForwardingIs(s);
      DeliversStored(s, e.t, e.a);
      InvStored(states[n]);
      TrackedStep(s, e.t, e.a);
    }
  }

  lemma InvStored(s: Sys)
    requires Inv(s)
    ensures Shape(s) && (s.cell.Stored? ==> s.cell.v == s.truth)
  {
    hide N, Of, Owners, Callbacks, PromiseOk, Delivered, Listing;
  }

  /** A submitted callback that its executor called was given the stored result; one that its executor dropped was
      given nothing. */
  lemma SubmittedGotResult(s: Sys, c: Tid)
    requires Reachable(s) && c in s.cb && c in s.kind && s.kind[c] == Posts
    ensures c in s.called ==> c in s.got && s.got[c] == s.truth
    ensures c !in s.called ==> c !in s.got
  {
    hide Inv, Safe, Careful;
    ReceivedIsStored(s, c);
    var f, states, events :|
      SharedCoreTheorems.Run(f, states, events) && CarefulRun(states, events, |events|) && states[|states| - 1] == s;
    CalledTracked(f, states, events, |events|);
  }
}
