/** The steps of the promise: registration before the result, SetResult and its dispatch loop. */
module SharedCoreDispatch {
  import opened Common
  import opened Census
  import opened SharedCoreRuns
  import opened SharedCoreInvariant
  import opened SharedCoreSteps

  lemma PromiseAlive(s: Sys)
    requires Numbers(K(s), s.truth) && PromiseRefs(s.promise) > 0
    ensures Alive(s) && (s.refs == 1 ==> CanRelease(s))
    ensures s.word == Result <==> !Unpublished(s.promise)
    ensures s.cell.Raw? <==> s.promise.Unset? || s.promise.Offering?
    ensures Dispatching(s.promise) ==> Readable(s) && s.cell.v == s.truth
  {
    hide N, Of;
  }

  lemma PromiseReloadKeeps(s: Sys, c: Tid)
    requires Inv(s) && (s.promise.Unset? || s.promise.Offering?)
    requires OfferedBy(s.cb, s.lender, c, None) && s.kind[c] != Retires
    ensures Inv(PromiseLoaded(s, c))
  {
    hide Delivered, N, Of, Numbers, Chain;
    PromiseAlive(s);
    var s' := PromiseLoaded(s, c);
    PromiseStagesNumbers(s, s'.promise);
    ListingOther(s, c, s'.next[c], Offered);
    assert s.cb[c := Offered] == s.cb;
    forall u | u in s'.pc ensures OwnerOk(s', K(s'), u) { assert OwnerOk(s, K(s), u); }
    forall d | d in s'.cb ensures CallbackOk(s', d) { assert CallbackOk(s, d); }
  }

  lemma PromiseStagesNumbers(s: Sys, p: Promise)
    requires Numbers(K(s), s.truth) && (s.promise.Unset? || s.promise.Offering?) && (p.Unset? || p.Offering?)
    ensures Numbers(K(s.(promise := p)), s.truth)
  {
    hide N, Of;
  }

  lemma PromiseOfferKeeps(s: Sys, c: Tid)
    requires Inv(s) && s.promise == Unset && CallbackIs(s, c, Fresh) && s.kind[c] != Retires
    ensures Alive(s) && Inv(PromiseOffer(s, c))
  {
    hide Listing, Delivered, N, Of, Numbers;
    PromiseAlive(s);
    var s1 := GoCallback(s.(lender := s.lender[c := None]), c, Offered);
    CallbackMoved(s, c, Offered);
    ListingOther(s, c, s.next[c], Offered);
    assert s.next[c := s.next[c]] == s.next;
    forall u | u in s1.pc ensures OwnerOk(s1, K(s1), u) { assert OwnerOk(s, K(s), u); }
    forall d | d in s1.cb ensures CallbackOk(s1, d) { assert CallbackOk(s, d); }
    PromiseReloadKeeps(s1, c);
  }

  lemma PromiseCasKeeps(s: Sys, spurious: bool)
    requires Inv(s) && s.promise.Offering?
    ensures Alive(s) && s.promise.callback in s.cb && s.word != Result && Inv(PromiseCas(s, spurious))
  {
    hide Listing, Delivered, N, Of, Numbers;
    PromiseAlive(s);
    var c, s' := s.promise.callback, PromiseCas(s, spurious);
    if s.word == s.promise.expected && !spurious {
      PushNumbers(s, c);
      PromiseStagesNumbers(Push(s, c), Unset);
      ListingPush(s, c);
      forall u | u in s'.pc ensures OwnerOk(s', K(s'), u) { assert OwnerOk(s, K(s), u); }
      forall d | d in s'.cb ensures CallbackOk(s', d) { assert CallbackOk(s, d); }
    } else {
      PromiseReloadKeeps(s, c);
    }
  }

  lemma StoreKeeps(s: Sys)
    requires Inv(s) && s.promise == Unset
    ensures Alive(s) && s.cell.Raw? && Inv(Store(s))
  {
    hide Chain, Delivered, N, Of;
    var s' := Store(s);
    forall u | u in s'.pc ensures OwnerOk(s', K(s'), u) { assert OwnerOk(s, K(s), u); }
    forall d | d in s'.cb ensures CallbackOk(s', d) { assert CallbackOk(s, d); }
  }

  lemma PublishKeeps(s: Sys)
    requires Inv(s) && s.promise == Filled
    ensures Alive(s) && s.word != Result && Inv(Publish(s))
  {
    hide Chain, Delivered, N, Of;
    var s' := Publish(s);
    forall u | u in s'.pc ensures OwnerOk(s', K(s'), u) { assert OwnerOk(s, K(s), u); }
    forall d | d in s'.cb ensures CallbackOk(s', d) { assert CallbackOk(s, d); }
  }

  /** The promise goes on, with one reference less or with as many, and the word stays at kResult. */
  lemma PromiseGoes(s: Sys, p: Promise, refs: int, cell: Cell)
    requires Inv(s) && s.word == Result && !p.Forwarding?
    requires Numbers(K(s.(promise := p, refs := refs, cell := cell)), s.truth)
    requires Listing(s.word, p, s.order, s.ran, s.next, s.cb)
    requires !s.promise.Gone?
    ensures Inv(s.(promise := p, refs := refs, cell := cell))
  {
    hide Listing, Delivered, N, Of, Numbers;
    GoneReady(s.(promise := p, refs := refs, cell := cell));
    var s' := s.(promise := p, refs := refs, cell := cell);
    forall u | u in s'.pc ensures OwnerOk(s', K(s'), u) { assert OwnerOk(s, K(s), u); }
    forall d | d in s'.cb ensures CallbackOk(s', d) { assert CallbackOk(s, d); }
  }

  lemma WalkKeeps(s: Sys)
    requires Inv(s) && s.promise.Walks?
    ensures Alive(s) && CanRelease(s) && CallbackIs(s, s.promise.head, Listed) && Inv(Walk(s))
  {
    hide Owners, Callbacks, Chain, Delivered, N, Of;
    PromiseAlive(s);
    CurrentListed(s);
    var s' := Walk(s);
    PromiseGoes(s, s'.promise, s'.refs, s'.cell);
  }

  lemma ReleaseKeeps(s: Sys)
    requires Inv(s) && s.promise.Releases? && s.promise.left > 0
    ensures Alive(s) && CanRelease(s) && Inv(Release(s))
  {
    hide Owners, Callbacks, Chain, Delivered, N, Of;
    PromiseAlive(s);
    var s' := Release(s);
    PromiseGoes(s, s'.promise, s'.refs, s'.cell);
  }

  // ---------- running one callback ----------

  /** Callback `c` at the head of the list is called and goes to phase `p`, its owner `pc` and the other
      data change as given. */
  function Called(s: Sys, p: CallbackPhase, junk: Option<Tid>, refs: int, cell: Cell, got: map<Tid, Payload>): Sys
    requires s.promise.Runs? || s.promise.Forwarding?
  {
    var c := s.promise.current;
    s.(promise := After(s.promise.next), ran := s.ran + [c], next := s.next[c := junk], cb := s.cb[c := p],
       refs := refs, cell := cell, got := got)
  }

  lemma CalledKeeps(s: Sys, p: CallbackPhase, junk: Option<Tid>, refs: int, cell: Cell, got: map<Tid, Payload>)
    requires Inv(s) && (s.promise.Runs? || s.promise.Forwarding?)
    requires s.promise.current in s.cb && (p == Posted || p == Done)
    requires s.kind[s.promise.current] != Retires && (p == Posted ==> s.kind[s.promise.current] == Posts)
    requires p == Done && s.kind[s.promise.current] != Posts ==> s.promise.current in got
    requires forall d :: d in s.got ==> d in got
    requires Delivered(got, s.taken, s.truth)
    requires Numbers(K(Called(s, p, junk, refs, cell, got)), s.truth)
    ensures Inv(Called(s, p, junk, refs, cell, got))
  {
    hide Listing, Delivered, N, Of, Numbers, OwnerOk, CallbackOk;
    PromiseAlive(s);
    CurrentListed(s);
    ListingPop(s, junk, p);
    CalledOwners(s, p, junk, refs, cell, got);
    CalledCallbacks(s, p, junk, refs, cell, got);
    hide Owners, Callbacks;
  }

  lemma CalledOwners(s: Sys, p: CallbackPhase, junk: Option<Tid>, refs: int, cell: Cell, got: map<Tid, Payload>)
    requires Shape(s) && Owners(s) && (s.promise.Runs? || s.promise.Forwarding?)
    requires CallbackIs(s, s.promise.current, Listed) && s.kind[s.promise.current] != Retires
    ensures Shape(Called(s, p, junk, refs, cell, got)) && Owners(Called(s, p, junk, refs, cell, got))
  {
    hide N, Of;
    var s' := Called(s, p, junk, refs, cell, got);
    forall u | u in s'.pc ensures OwnerOk(s', K(s'), u) { assert OwnerOk(s, K(s), u); }
  }

  lemma CalledCallbacks(s: Sys, p: CallbackPhase, junk: Option<Tid>, refs: int, cell: Cell, got: map<Tid, Payload>)
    requires Shape(s) && Callbacks(s) && (s.promise.Runs? || s.promise.Forwarding?)
    requires s.promise.current in s.cb && (p == Posted || p == Done)
    requires s.kind[s.promise.current] != Retires && (p == Posted ==> s.kind[s.promise.current] == Posts)
    requires p == Done && s.kind[s.promise.current] != Posts ==> s.promise.current in got
    requires forall d :: d in s.got ==> d in got
    ensures Callbacks(Called(s, p, junk, refs, cell, got))
  {
    var s' := Called(s, p, junk, refs, cell, got);
    forall d | d in s'.cb ensures CallbackOk(s', d) { assert CallbackOk(s, d); }
  }

  /** The count fits the callback that was called. */
  lemma CalledNumbers(s: Sys, p: CallbackPhase, junk: Option<Tid>, refs: int, cell: Cell, got: map<Tid, Payload>)
    requires Numbers(K(s), s.truth) && (s.promise.Runs? || s.promise.Forwarding?)
    requires CallbackIs(s, s.promise.current, Listed) && (p == Posted || p == Done) && refs == s.refs + One(p == Posted)
    requires cell == s.cell
          || (cell == MovedFrom && p == Done && s.promise.next.None? && K(s).active == 0 && K(s).posted == 0)
    ensures Numbers(K(Called(s, p, junk, refs, cell, got)), s.truth)
  {
    hide N, Of;
    CallbackMoved(s, s.promise.current, p);
  }

  lemma RunReadsKeeps(s: Sys, junk: Option<Tid>)
    requires Inv(s) && s.promise.Runs? && s.promise.current in s.cb && s.kind[s.promise.current] == Reads
    ensures RunSafe(s) && Inv(Run(s, junk))
  {
    hide Listing, Delivered, N, Of, Numbers, Owners, Callbacks;
    PromiseAlive(s);
    CurrentListed(s);
    var c := s.promise.current;
    GiveDelivered(s, c);
    CalledNumbers(s, Done, junk, s.refs, s.cell, s.got[c := s.cell.v]);
    CalledKeeps(s, Done, junk, s.refs, s.cell, s.got[c := s.cell.v]);
  }

  lemma RunPostsKeeps(s: Sys, junk: Option<Tid>)
    requires Inv(s) && s.promise.Runs? && s.promise.current in s.cb && s.kind[s.promise.current] == Posts
    ensures RunSafe(s) && Inv(Run(s, junk))
  {
    hide Listing, Delivered, N, Of, Numbers, Owners, Callbacks;
    PromiseAlive(s);
    CurrentListed(s);
    CalledNumbers(s, Posted, junk, s.refs + 1, s.cell, s.got);
    CalledKeeps(s, Posted, junk, s.refs + 1, s.cell, s.got);
  }

  ghost predicate RunSafe(s: Sys)
    requires Shape(s) && s.promise.Runs?
  {
    && Alive(s) && Readable(s) && CallbackIs(s, s.promise.current, Listed) && LenderWaits(s, s.promise.current)
  }

  lemma RetiredIs(s: Sys, junk: Option<Tid>)
    requires Shape(s) && s.promise.Runs? && s.promise.current in s.cb && s.kind[s.promise.current] == Retires
    requires Readable(s) && LenderWaits(s, s.promise.current)
    ensures Run(s, junk) == GoOwner(Called(s, Done, junk, s.refs, s.cell, s.got), s.lender[s.promise.current].value, Holds)
  {
  }

  lemma RunRetiresKeeps(s: Sys, junk: Option<Tid>)
    requires Inv(s) && s.promise.Runs? && s.promise.current in s.cb && s.kind[s.promise.current] == Retires
    ensures RunSafe(s) && Inv(Run(s, junk))
  {
    hide Listing, Delivered, N, Of, Numbers, Run, OwnerOk;
    PromiseAlive(s);
    CurrentListed(s);
    var c := s.promise.current;
    assert CallbackOk(s, c);
    var t := s.lender[c].value;
    var s1 := Called(s, Done, junk, s.refs, s.cell, s.got);
    RetiredIs(s, junk);
    CalledNumbers(s, Done, junk, s.refs, s.cell, s.got);
    OwnerGoes(s1, t, Holds);
    ListingPop(s, junk, Done);
    RetiredOwners(s, junk);
    RetiredCallbacks(s, junk);
    hide OwnerOk, CallbackOk;
  }

  lemma RetiredOwners(s: Sys, junk: Option<Tid>)
    requires Shape(s) && s.promise.Runs? && s.promise.current in s.cb && s.kind[s.promise.current] == Retires
    requires Owners(s) && Readable(s) && LentFor(s.pc, s.offer, s.lender, s.promise.current) && s.promise != Gone
    requires s.cb[s.promise.current] == Listed
    ensures Owners(Run(s, junk))
  {
    RetiredIs(s, junk);
    hide N, Of, Run;
    var s' := Run(s, junk);
    forall u | u in s'.pc ensures OwnerOk(s', K(s'), u) { assert OwnerOk(s, K(s), u); }
  }

  lemma RetiredCallbacks(s: Sys, junk: Option<Tid>)
    requires Shape(s) && s.promise.Runs? && s.promise.current in s.cb && s.kind[s.promise.current] == Retires
    requires Callbacks(s) && Readable(s) && LentFor(s.pc, s.offer, s.lender, s.promise.current)
    ensures Callbacks(Run(s, junk))
  {
    var s' := Run(s, junk);
    forall d | d in s'.cb ensures CallbackOk(s', d) { assert CallbackOk(s, d); }
  }

  /** The core `c` loads the count: 3 or more unless it is the last callback; 2 if nobody else is left. */
  lemma RunForwardsKeeps(s: Sys, junk: Option<Tid>)
    requires Inv(s) && s.promise.Runs? && s.promise.current in s.cb && s.kind[s.promise.current] == Forwards
    ensures RunSafe(s) && Inv(Run(s, junk))
  {
    hide Chain, Delivered, N, Of;
    PromiseAlive(s);
    CurrentListed(s);
    var s' := Run(s, junk);
    forall u | u in s'.pc ensures OwnerOk(s', K(s'), u) { assert OwnerOk(s, K(s), u); }
    forall d | d in s'.cb ensures CallbackOk(s', d) { assert CallbackOk(s, d); }
  }

  lemma RunKeeps(s: Sys, junk: Option<Tid>)
    requires Inv(s) && s.promise.Runs?
    ensures RunSafe(s) && Inv(Run(s, junk))
  {
    hide Numbers, Owners, Callbacks, Delivered, Listing, Run;
    CurrentListed(s);
    match s.kind[s.promise.current]
    case Reads => RunReadsKeeps(s, junk);
    case Posts => RunPostsKeeps(s, junk);
    case Forwards => RunForwardsKeeps(s, junk);
    case Retires => RunRetiresKeeps(s, junk);
  }

  lemma ForwardKeeps(s: Sys)
    requires Inv(s) && s.promise.Forwarding?
    ensures Alive(s) && Readable(s) && CallbackIs(s, s.promise.current, Listed) && s.promise.ref >= 2
    ensures Inv(Forward(s))
  {
    hide Listing, Delivered, N, Of, Numbers, Owners, Callbacks;
    PromiseAlive(s);
    CurrentListed(s);
    ForwardNumbers(s);
    var c, s' := s.promise.current, Forward(s);
    GiveDelivered(s, c);
    CalledNumbers(s, Done, s.next[c], s.refs, s'.cell, s'.got);
    CalledKeeps(s, Done, s.next[c], s.refs, s'.cell, s'.got);
    assert s.next[c := s.next[c]] == s.next;
  }

  lemma ForwardNumbers(s: Sys)
    requires Numbers(K(s), s.truth) && s.promise.Forwarding?
    ensures s.promise.ref >= 2
    ensures s.promise.ref == 2 ==> s.promise.next.None? && K(s).active == 0 && K(s).posted == 0
  {
    hide N, Of;
  }
}
