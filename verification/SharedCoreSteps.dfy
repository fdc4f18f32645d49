/** Every step of SharedCoreRuns is safe and keeps the invariant. */
module SharedCoreSteps {
  import opened Common
  import opened Census
  import opened SharedCoreRuns
  import opened SharedCoreInvariant

  // ---------- the list ----------

  /** A callback that is not in the list changes its phase or its pointer. */
  lemma ListingOther(s: Sys, c: Tid, n: Option<Tid>, p: CallbackPhase)
    requires Listing(s.word, s.promise, s.order, s.ran, s.next, s.cb)
    requires c in s.cb && c in s.next && s.cb[c] != Listed && p != Listed && (WasCalled(s.cb[c]) ==> WasCalled(p))
    ensures Listing(s.word, s.promise, s.order, s.ran, s.next[c := n], s.cb[c := p])
  {
    var q, next', cb' := Waiting(s.order, s.ran), s.next[c := n], s.cb[c := p];
    forall i | 0 <= i < |q| ensures ListedAt(q, i, next', cb') {
      assert ListedAt(q, i, s.next, s.cb);
    }
  }

  lemma ChainPush(q: seq<Tid>, next: map<Tid, Option<Tid>>, cb: map<Tid, CallbackPhase>, c: Tid)
    requires Chain(q, next, cb)
    requires c in cb && c in next && cb[c] != Listed && next[c] == Pointer(WordOf(q))
    ensures Chain(q + [c], next, cb[c := Listed])
  {
    var q', cb' := q + [c], cb[c := Listed];
    forall i | 0 <= i < |q'| ensures ListedAt(q', i, next, cb') {
      if i < |q| { assert ListedAt(q, i, next, cb); }
    }
    forall x | x in cb' && cb'[x] == Listed ensures x in q' {
      assert q'[|q|] == c;
      if x != c { assert x in q; }
    }
  }

  lemma ChainPop(q: seq<Tid>, next: map<Tid, Option<Tid>>, cb: map<Tid, CallbackPhase>, n: Option<Tid>, p: CallbackPhase)
    requires Chain(q, next, cb) && Distinct(q) && q != [] && p != Listed
    ensures var c := q[|q| - 1]; Chain(q[..|q| - 1], next[c := n], cb[c := p])
  {
    var c, q' := q[|q| - 1], q[..|q| - 1];
    var next', cb' := next[c := n], cb[c := p];
    forall i | 0 <= i < |q'| ensures ListedAt(q', i, next', cb') { assert ListedAt(q, i, next, cb); }
    forall x | x in cb' && cb'[x] == Listed ensures x in q' {
      assert x in q && x != c;
    }
  }

  lemma NotListed(q: seq<Tid>, next: map<Tid, Option<Tid>>, cb: map<Tid, CallbackPhase>, c: Tid)
    requires Chain(q, next, cb) && c in cb && cb[c] != Listed
    ensures c !in q
  {
    forall i | 0 <= i < |q| ensures q[i] != c { assert ListedAt(q, i, next, cb); }
  }

  lemma ListingPush(s: Sys, c: Tid)
    requires Unpublished(s.promise) && Listing(s.word, s.promise, s.order, s.ran, s.next, s.cb)
    requires c in s.cb && c in s.next && s.cb[c] != Listed && s.next[c] == Pointer(s.word)
    ensures c !in s.order
    ensures Listing(Head(c), s.promise, s.order + [c], s.ran, s.next, s.cb[c := Listed])
    ensures s.promise.Offering? ==> Listing(Head(c), Unset, s.order + [c], s.ran, s.next, s.cb[c := Listed])
  {
    hide Chain;
    assert Waiting(s.order, s.ran) == s.order;
    NotListed(s.order, s.next, s.cb, c);
    assert Waiting(s.order + [c], s.ran) == s.order + [c];
    ChainPush(s.order, s.next, s.cb, c);
  }

  /** The callback at the head of the list is done with. */
  lemma ListingPop(s: Sys, n: Option<Tid>, p: CallbackPhase)
    requires s.promise.Runs? || s.promise.Forwarding?
    requires Listing(s.word, s.promise, s.order, s.ran, s.next, s.cb) && WasCalled(p)
    ensures var c := s.promise.current;
      Listing(s.word, After(s.promise.next), s.order, s.ran + [c], s.next[c := n], s.cb[c := p])
  {
    hide Chain;
    var q, c := Waiting(s.order, s.ran), s.promise.current;
    assert q <= s.order;
    assert Waiting(s.order, s.ran + [c]) == q[..|q| - 1];
    ChainPop(q, s.next, s.cb, n, p);
  }

  lemma CurrentListed(s: Sys)
    requires Dispatching(s.promise) && Listing(s.word, s.promise, s.order, s.ran, s.next, s.cb)
    ensures CallbackIs(s, Current(s.promise), Listed)
    ensures Current(s.promise) in s.next
         && s.next[Current(s.promise)] == Before(Waiting(s.order, s.ran), |Waiting(s.order, s.ran)| - 1)
  {
    var q := Waiting(s.order, s.ran);
    assert ListedAt(q, |q| - 1, s.next, s.cb);
  }

  // ---------- futures ----------

  /** A future whose reference is not lent to a callback goes to another phase. */
  lemma CallbacksSame(s: Sys, s': Sys, t: Tid, p: OwnerPhase)
    requires Shape(s) && Callbacks(s) && Shape(s') && t in s.pc && s.pc[t] != Lent && s'.pc == s.pc[t := p]
    requires s'.cb == s.cb && s'.kind == s.kind && s'.lender == s.lender && s'.offer == s.offer && s'.got == s.got
    ensures Callbacks(s')
  {
    forall c | c in s'.cb ensures CallbackOk(s', c) { assert CallbackOk(s, c); }
  }

  lemma CopyNumbers(s: Sys, t: Tid, u: Tid)
    requires Numbers(K(s), s.truth) && OwnerIs(s, u, NoRef) && (OwnerIs(s, t, Holds) || s.promise == Unset)
    ensures Alive(s) && Numbers(K(Copy(s, u)), s.truth)
    ensures K(Copy(s, u)) == K(s).(refs := s.refs + 1, active := K(s).active + 1)
  {
    hide N, Of;
    OwnerMoved(s, u, Holds);
    if OwnerIs(s, t, Holds) { Present(s.pc, IsActive, t); }
  }

  lemma CopyOwners(s: Sys, t: Tid, u: Tid)
    requires Shape(s) && Owners(s) && OwnerIs(s, u, NoRef) && (OwnerIs(s, t, Holds) || s.promise == Unset)
    ensures Owners(Copy(s, u))
  {
    hide N, Of;
    var s' := Copy(s, u);
    forall v | v in s'.pc ensures OwnerOk(s', K(s'), v) {
      assert OwnerOk(s, K(s), v);
      if s.pc[v] == Moves && s.promise != Unset { OnlyActive(s, t, v); }
    }
  }

  lemma CopyKeeps(s: Sys, t: Tid, u: Tid)
    requires Inv(s) && OwnerIs(s, u, NoRef) && (OwnerIs(s, t, Holds) || s.promise == Unset)
    ensures Alive(s) && Inv(Copy(s, u))
  {
    hide Listing, Delivered, N, Of, Numbers, Owners, Callbacks, K, Alive;
    CopyNumbers(s, t, u);
    CopyOwners(s, t, u);
    CallbacksSame(s, Copy(s, u), u, Holds);
  }

  lemma DropNumbers(s: Sys, t: Tid)
    requires Numbers(K(s), s.truth) && (OwnerIs(s, t, Holds) || OwnerIs(s, t, Spent))
    ensures Alive(s) && CanRelease(s) && Numbers(K(Drop(s, t)), s.truth)
  {
    hide N, Of, Numbers;
    OwnerMoved(s, t, NoRef);
    OneLess(K(s), K(Drop(s, t)), s.truth, s.pc[t] == Spent);
  }

  /** One reference less. */
  lemma OneLess(k: Tally, k': Tally, truth: Payload, spent: bool)
    requires Numbers(k, truth) && (if spent then k.spent >= 1 else k.active >= 1)
    requires k' == k.(refs := k.refs - 1, active := k'.active, spent := k'.spent, cell := if k.refs == 1 then Destroyed else k.cell)
    requires k'.active == k.active - (if spent then 0 else 1) && k'.spent == k.spent - (if spent then 1 else 0)
    ensures Numbers(k', truth) && k.refs > 0 && !k.cell.Destroyed?
    ensures k.refs == 1 ==> k.word == Result && !k.cell.Raw?
  {
  }

  lemma DropOwners(s: Sys, t: Tid)
    requires Shape(s) && Owners(s) && (OwnerIs(s, t, Holds) || OwnerIs(s, t, Spent))
    ensures Owners(Drop(s, t))
  {
    hide N, Of;
    var s' := Drop(s, t);
    OwnerMoved(s, t, NoRef);
    forall u | u in s'.pc ensures OwnerOk(s', K(s'), u) {
      assert OwnerOk(s, K(s), u);
      if s.pc[u] == Moves && s.pc[t] == Holds { OnlyActive(s, t, u); }
    }
  }

  lemma DropKeeps(s: Sys, t: Tid)
    requires Inv(s) && (OwnerIs(s, t, Holds) || OwnerIs(s, t, Spent))
    ensures Alive(s) && CanRelease(s) && Inv(Drop(s, t))
  {
    hide Listing, Delivered, N, Of, Numbers, Owners, Callbacks, K, Alive, CanRelease;
    DropNumbers(s, t);
    DropOwners(s, t);
    CallbacksSame(s, Drop(s, t), t, NoRef);
  }

  /** Whoever holds a reference and found the core ready can read the result. */
  lemma HolderReads(s: Sys, t: Tid)
    requires Inv(s) && t in s.pc && IsActive(s.pc[t])
    ensures Alive(s) && (!Unstored(s.promise) ==> Readable(s) && s.cell.v == s.truth)
    ensures s.word == Result ==> !Unstored(s.promise)
    ensures Unstored(s.promise) ==> !Readable(s)
  {
    hide Listing, Delivered, N, Of, Owners, Callbacks, PromiseOk;
    OwnerMoved(s, t, NoRef);
  }

  lemma ReadKeeps(s: Sys, t: Tid)
    requires Inv(s) && OwnerIs(s, t, Holds) && !Unstored(s.promise)
    ensures Alive(s) && Readable(s) && Inv(Read(s, t))
  {
    hide Listing, N, Of, Numbers;
    HolderReads(s, t);
    var s' := Read(s, t);
    forall u | u in s'.pc ensures OwnerOk(s', K(s'), u) { assert OwnerOk(s, K(s), u); }
    forall c | c in s'.cb ensures CallbackOk(s', c) { assert CallbackOk(s, c); }
  }

  lemma TouchKeeps(s: Sys, t: Tid)
    requires Inv(s) && OwnerIs(s, t, Holds) && Ready(s.word)
    ensures Alive(s) && Inv(Touch(s, t))
  {
    hide Listing, Delivered, N, Of, Numbers;
    HolderReads(s, t);
    OwnerGoes(s, t, Trusts);
    var s' := Touch(s, t);
    forall u | u in s'.pc ensures OwnerOk(s', K(s'), u) { assert OwnerOk(s, K(s), u); }
    forall c | c in s'.cb ensures CallbackOk(s', c) { assert CallbackOk(s, c); }
  }

  lemma LookKeeps(s: Sys, t: Tid)
    requires Inv(s) && OwnerIs(s, t, Trusts) && !Unstored(s.promise)
    ensures Alive(s) && Readable(s) && Inv(Look(s, t))
  {
    hide Listing, Delivered, N, Of, Numbers;
    HolderReads(s, t);
    GiveDelivered(s, t);
    OwnerGoes(s, t, Holds);
    var s' := Look(s, t);
    forall u | u in s'.pc ensures OwnerOk(s', K(s'), u) { assert OwnerOk(s, K(s), u); }
    forall c | c in s'.cb ensures CallbackOk(s', c) { assert CallbackOk(s, c); }
  }

  /** An owner that is not about to move anything goes to another such phase. */
  lemma OwnerGoes(s: Sys, t: Tid, p: OwnerPhase)
    requires t in s.pc && IsActive(s.pc[t]) && IsActive(p)
    ensures K(GoOwner(s, t, p)) == K(s)
  {
    hide N, Of;
    OwnerMoved(s, t, p);
  }

  lemma RefusedKeeps(s: Sys, t: Tid, c: Tid)
    requires Inv(s) && t in s.pc && s.offer[t] == c && (s.pc[t] == Holds || s.pc[t] == Offers)
    requires OfferedBy(s.cb, s.lender, c, Some(t)) && s.word == Result
    ensures Inv(GoOwner(s, t, Refused))
  {
    hide Listing, Delivered, N, Of, Numbers;
    var s' := GoOwner(s, t, Refused);
    OwnerGoes(s, t, Refused);
    forall u | u in s'.pc ensures OwnerOk(s', K(s'), u) { assert OwnerOk(s, K(s), u); }
    forall d | d in s'.cb ensures CallbackOk(s', d) { assert CallbackOk(s, d); }
  }

  lemma ReloadKeeps(s: Sys, t: Tid, c: Tid)
    requires Inv(s) && t in s.pc && s.offer[t] == c && (s.pc[t] == Holds || s.pc[t] == Offers)
    requires OfferedBy(s.cb, s.lender, c, Some(t)) && s.word != Result
    ensures Inv(Loaded(s, t, c))
  {
    hide Listing, Delivered, N, Of, Numbers;
    var s' := Loaded(s, t, c);
    OwnerGoes(s, t, Offers);
    ListingOther(s, c, s'.next[c], Offered);
    assert s.cb[c := Offered] == s.cb;
    ReloadOwners(s, t, c);
    ReloadCallbacks(s, t, c);
  }

  lemma ReloadOwners(s: Sys, t: Tid, c: Tid)
    requires Shape(s) && Owners(s) && t in s.pc && s.offer[t] == c && (s.pc[t] == Holds || s.pc[t] == Offers)
    requires OfferedBy(s.cb, s.lender, c, Some(t)) && s.word != Result && K(Loaded(s, t, c)) == K(s)
    ensures Shape(Loaded(s, t, c)) && Owners(Loaded(s, t, c))
  {
    hide N, Of;
    var s' := Loaded(s, t, c);
    forall u | u in s'.pc ensures OwnerOk(s', K(s'), u) { assert OwnerOk(s, K(s), u); }
  }

  lemma ReloadCallbacks(s: Sys, t: Tid, c: Tid)
    requires Shape(s) && Callbacks(s) && t in s.pc && (s.pc[t] == Holds || s.pc[t] == Offers) && c in s.cb
    requires s.word != Result
    ensures Callbacks(Loaded(s, t, c))
  {
    var s' := Loaded(s, t, c);
    forall d | d in s'.cb ensures CallbackOk(s', d) { assert CallbackOk(s, d); }
  }

  /** The offered callback of `t` is nobody else's. */
  lemma LoadedKeeps(s: Sys, t: Tid, c: Tid)
    requires Inv(s) && t in s.pc && s.offer[t] == c && (s.pc[t] == Holds || s.pc[t] == Offers)
    requires OfferedBy(s.cb, s.lender, c, Some(t))
    ensures Alive(s) && Inv(Loaded(s, t, c))
  {
    hide Inv;
    HolderReads(s, t);
    if s.word == Result { RefusedKeeps(s, t, c); } else { ReloadKeeps(s, t, c); }
  }

  /** `t` picks a fresh callback `c` to push. */
  function Picked(s: Sys, t: Tid, c: Tid): Sys {
    GoCallback(s.(offer := s.offer[t := c], lender := s.lender[c := Some(t)]), c, Offered)
  }

  lemma PickedOwners(s: Sys, t: Tid, c: Tid)
    requires Shape(s) && Owners(s) && OwnerIs(s, t, Holds) && CallbackIs(s, c, Fresh) && K(Picked(s, t, c)) == K(s)
    ensures Shape(Picked(s, t, c)) && Owners(Picked(s, t, c))
  {
    hide N, Of, K;
    var s' := Picked(s, t, c);
    forall u | u in s'.pc ensures OwnerOk(s', K(s'), u) { assert OwnerOk(s, K(s), u); }
  }

  lemma PickedCallbacks(s: Sys, t: Tid, c: Tid)
    requires Shape(s) && Callbacks(s) && OwnerIs(s, t, Holds) && CallbackIs(s, c, Fresh)
    ensures Callbacks(Picked(s, t, c))
  {
    var s' := Picked(s, t, c);
    forall d | d in s'.cb ensures CallbackOk(s', d) { assert CallbackOk(s, d); }
  }

  lemma PickedKeeps(s: Sys, t: Tid, c: Tid)
    requires Inv(s) && OwnerIs(s, t, Holds) && CallbackIs(s, c, Fresh)
    ensures Inv(Picked(s, t, c)) && OfferedBy(Picked(s, t, c).cb, Picked(s, t, c).lender, c, Some(t))
  {
    hide Listing, Delivered, N, Of, Numbers, OwnerOk, CallbackOk;
    CallbackMoved(s, c, Offered);
    ListingOther(s, c, s.next[c], Offered);
    assert s.next[c := s.next[c]] == s.next;
    PickedOwners(s, t, c);
    PickedCallbacks(s, t, c);
    hide Owners, Callbacks;
  }

  lemma OfferKeeps(s: Sys, t: Tid, c: Tid)
    requires Inv(s) && OwnerIs(s, t, Holds) && CallbackIs(s, c, Fresh)
    ensures Alive(s) && Inv(Offer(s, t, c))
  {
    hide Inv;
    PickedKeeps(s, t, c);
    LoadedKeeps(Picked(s, t, c), t, c);
  }

  /** The callback of `t` is pushed. */
  lemma PushedKeeps(s: Sys, t: Tid)
    requires Inv(s) && OwnerIs(s, t, Offers) && s.word == s.saved[t]
    ensures s.offer[t] in s.cb && Inv(Cas(s, t, false))
  {
    hide Listing, Delivered, N, Of, Numbers;
    assert OwnerOk(s, K(s), t);
    var c, s' := s.offer[t], Cas(s, t, false);
    PushNumbers(s, c);
    OwnerGoes(Push(s, c), t, s'.pc[t]);
    ListingPush(s, c);
    PushedOwners(s, t);
    PushedCallbacks(s, t);
    hide Owners, Callbacks;
  }

  lemma PushedOwners(s: Sys, t: Tid)
    requires Shape(s) && Owners(s) && OwnerIs(s, t, Offers) && s.word == s.saved[t] && Unpublished(s.promise)
    requires s.offer[t] in s.cb && K(Cas(s, t, false)) == K(Push(s, s.offer[t])) && OwnerOk(s, K(s), t)
    ensures Owners(Cas(s, t, false))
  {
    hide N, Of;
    var s' := Cas(s, t, false);
    forall u | u in s'.pc ensures OwnerOk(s', K(s'), u) { assert OwnerOk(s, K(s), u); }
  }

  lemma PushedCallbacks(s: Sys, t: Tid)
    requires Shape(s) && Callbacks(s) && OwnerIs(s, t, Offers) && s.word == s.saved[t] && s.offer[t] in s.cb
    requires OfferedBy(s.cb, s.lender, s.offer[t], Some(t))
    ensures Callbacks(Cas(s, t, false))
  {
    var s' := Cas(s, t, false);
    forall d | d in s'.cb ensures CallbackOk(s', d) { assert CallbackOk(s, d); }
  }

  lemma CasKeeps(s: Sys, t: Tid, spurious: bool)
    requires Inv(s) && OwnerIs(s, t, Offers)
    ensures Alive(s) && s.offer[t] in s.cb && Inv(Cas(s, t, spurious))
  {
    assert OwnerOk(s, K(s), t);
    hide Inv, K, Push, Alive;
    HolderReads(s, t);
    if s.word == s.saved[t] && !spurious { PushedKeeps(s, t); } else { LoadedKeeps(s, t, s.offer[t]); }
  }

  lemma PushNumbers(s: Sys, c: Tid)
    requires Numbers(K(s), s.truth) && CallbackIs(s, c, Offered) && s.word != Result
    ensures Numbers(K(Push(s, c)), s.truth) && Unpublished(s.promise)
  {
    hide N, Of;
    CallbackMoved(s, c, Listed);
  }

  lemma GiveDelivered(s: Sys, c: Tid)
    requires Delivered(s.got, s.taken, s.truth) && Readable(s) && s.cell.v == s.truth
    ensures Delivered(s.got[c := s.cell.v], s.taken, s.truth) && Delivered(s.got, s.taken[c := s.cell.v], s.truth)
  {
  }

  /** Callback `c` leaves the hands of its registrar `t` for phase `p` and may get the result. */
  function Settle(s: Sys, t: Tid, c: Tid, p: CallbackPhase, refs: int, got: map<Tid, Payload>): Sys {
    s.(pc := s.pc[t := Holds], cb := s.cb[c := p], refs := refs, got := got)
  }

  lemma SettleNumbers(s: Sys, t: Tid, c: Tid, p: CallbackPhase, refs: int, got: map<Tid, Payload>)
    requires Numbers(K(s), s.truth) && OwnerIs(s, t, Refused) && s.word == Result
    requires CallbackIs(s, c, Offered) && (p == Posted || p == Done) && refs == s.refs + One(p == Posted)
    ensures Numbers(K(Settle(s, t, c, p, refs, got)), s.truth)
    ensures K(Settle(s, t, c, p, refs, got)).active == K(s).active
  {
    hide N, Of;
    OwnerMoved(s, t, Holds);
    CallbackMoved(s, c, p);
  }

  lemma SettleKeeps(s: Sys, t: Tid, c: Tid, p: CallbackPhase, refs: int, got: map<Tid, Payload>)
    requires Inv(s) && OwnerIs(s, t, Refused) && s.word == Result
    requires OfferedBy(s.cb, s.lender, c, Some(t)) && (p == Posted || p == Done) && refs == s.refs + One(p == Posted)
    requires p == Posted ==> s.kind[c] == Posts
    requires forall d :: d in s.got ==> d in got
    requires Delivered(got, s.taken, s.truth) && (p == Done && s.kind[c] != Retires ==> c in got)
    ensures Inv(Settle(s, t, c, p, refs, got))
  {
    hide Listing, Delivered, N, Of, Numbers;
    var s' := Settle(s, t, c, p, refs, got);
    SettleNumbers(s, t, c, p, refs, got);
    ListingOther(s, c, s.next[c], p);
    assert s.next[c := s.next[c]] == s.next;
    SettleOwners(s, t, c, p, refs, got);
    SettleCallbacks(s, t, c, p, refs, got);
    hide Owners, Callbacks;
  }

  lemma SettleOwners(s: Sys, t: Tid, c: Tid, p: CallbackPhase, refs: int, got: map<Tid, Payload>)
    requires Inv(s) && OwnerIs(s, t, Refused) && OfferedBy(s.cb, s.lender, c, Some(t)) && (p == Posted || p == Done)
    requires s.word == Result
    ensures Owners(Settle(s, t, c, p, refs, got))
  {
    hide Listing, Delivered, N, Of, Numbers, Callbacks;
    var s' := Settle(s, t, c, p, refs, got);
    forall u | u in s'.pc ensures OwnerOk(s', K(s'), u) {
      assert OwnerOk(s, K(s), u);
      if s.pc[u] == Moves { OnlyActive(s, t, u); }
    }
  }

  lemma SettleCallbacks(s: Sys, t: Tid, c: Tid, p: CallbackPhase, refs: int, got: map<Tid, Payload>)
    requires Shape(s) && Callbacks(s) && OwnerIs(s, t, Refused) && c in s.cb && s.cb[c] == Offered
    requires (p == Posted && s.kind[c] == Posts) || (p == Done && (s.kind[c] != Retires ==> c in got))
    requires forall d :: d in s.got ==> d in got
    ensures Callbacks(Settle(s, t, c, p, refs, got))
  {
    var s' := Settle(s, t, c, p, refs, got);
    forall d | d in s'.cb ensures CallbackOk(s', d) { assert CallbackOk(s, d); }
  }

  lemma RunRefusedKeeps(s: Sys, t: Tid)
    requires Inv(s) && OwnerIs(s, t, Refused)
    ensures Alive(s) && s.offer[t] in s.cb && Readable(s) && Inv(RunRefused(s, t))
  {
    hide Listing, Delivered, N, Of, Numbers, PromiseOk, Callbacks;
    assert OwnerOk(s, K(s), t);
    HolderReads(s, t);
    var c := s.offer[t];
    if s.kind[c] == Posts {
      SettleKeeps(s, t, c, Posted, s.refs + 1, s.got);
    } else if s.kind[c] == Retires {
      SettleKeeps(s, t, c, Done, s.refs, s.got);
    } else {
      GiveDelivered(s, c);
      SettleKeeps(s, t, c, Done, s.refs, s.got[c := s.cell.v]);
    }
  }

  // ---------- Get && and Retire ----------

  lemma LoadCountKeeps(s: Sys, t: Tid)
    requires Inv(s) && OwnerIs(s, t, Holds) && Ready(s.word)
    ensures Alive(s) && Inv(LoadCount(s, t))
  {
    hide Listing, Delivered, N, Of;
    var s' := LoadCount(s, t);
    HolderReads(s, t);
    OwnerMoved(s, t, s'.pc[t]);
    forall u | u in s'.pc ensures OwnerOk(s', K(s'), u) { assert OwnerOk(s, K(s), u); }
    forall c | c in s'.cb ensures CallbackOk(s', c) { assert CallbackOk(s, c); }
  }

  /** `t` is done with the result; if it was alone it moved it away. */
  lemma TakeNumbers(s: Sys, t: Tid, cell: Cell)
    requires Numbers(K(s), s.truth) && t in s.pc
    requires (s.pc[t] == Copies && cell == s.cell)
          || (s.pc[t] == Moves && cell == MovedFrom && s.promise == Gone && K(s).active == 1 && K(s).posted == 0)
    ensures Numbers(K(s.(pc := s.pc[t := Spent], cell := cell)), s.truth)
    ensures K(s.(pc := s.pc[t := Spent], cell := cell)).active == K(s).active - 1
  {
    hide N, Of;
    OwnerMoved(s, t, Spent);
  }

  lemma TakeOwners(s: Sys, t: Tid)
    requires Shape(s) && Owners(s) && (OwnerIs(s, t, Moves) || OwnerIs(s, t, Copies)) && Readable(s)
    requires K(Take(s, t)).active == K(s).active - 1
    ensures Owners(Take(s, t))
  {
    hide N, Of;
    var s' := Take(s, t);
    forall u | u in s'.pc ensures OwnerOk(s', K(s'), u) {
      assert OwnerOk(s, K(s), u) && OwnerOk(s, K(s), t);
      if s.pc[u] == Moves { OnlyActive(s, t, u); }
    }
  }

  /** What whoever is about to take the result knows. */
  lemma TakerKnows(s: Sys, t: Tid)
    requires Inv(s) && (OwnerIs(s, t, Moves) || OwnerIs(s, t, Copies))
    ensures s.pc[t] == Moves ==> s.promise == Gone && K(s).active == 1 && K(s).posted == 0
  {
    hide Listing, Delivered, N, Of, Numbers, Callbacks, PromiseOk;
    assert OwnerOk(s, K(s), t);
  }

  lemma TakeKeeps(s: Sys, t: Tid)
    requires Inv(s) && (OwnerIs(s, t, Moves) || OwnerIs(s, t, Copies)) && !Unstored(s.promise)
    ensures Alive(s) && Readable(s) && Inv(Take(s, t))
  {
    TakerKnows(s, t);
    hide Listing, Delivered, N, Of, Numbers, Callbacks, Owners, OfferedBy, Linked;
    HolderReads(s, t);
    var s' := Take(s, t);
    TakeNumbers(s, t, s'.cell);
    GiveDelivered(s, t);
    TakeOwners(s, t);
    CallbacksSame(s, s', t, Spent);
  }

  lemma GoneReady(s: Sys)
    requires Numbers(K(s), s.truth)
    ensures s.word == Result <==> !Unpublished(s.promise)
  {
    hide N, Of;
  }

  // ---------- submitted callbacks ----------

  lemma PostedReads(s: Sys, c: Tid)
    requires Numbers(K(s), s.truth) && c in s.cb && HoldsRef(s.cb[c])
    ensures Alive(s) && CanRelease(s) && Readable(s) && s.cell.v == s.truth && K(s).posted >= 1
  {
    hide N, Of;
    CallbackMoved(s, c, Done);
  }

  lemma ServeOwners(s: Sys, c: Tid, stopped: bool)
    requires Shape(s) && Owners(s) && CallbackIs(s, c, Posted) && Readable(s) && K(Serve(s, c, stopped)) == K(s)
    ensures Shape(Serve(s, c, stopped)) && Owners(Serve(s, c, stopped))
  {
    hide N, Of, K;
    var s' := Serve(s, c, stopped);
    forall u | u in s'.pc ensures OwnerOk(s', K(s'), u) { assert OwnerOk(s, K(s), u); }
  }

  lemma ServeCallbacks(s: Sys, c: Tid, stopped: bool)
    requires Shape(s) && Callbacks(s) && CallbackIs(s, c, Posted) && Readable(s)
    ensures Callbacks(Serve(s, c, stopped))
  {
    var s' := Serve(s, c, stopped);
    forall d | d in s'.cb ensures CallbackOk(s', d) { assert CallbackOk(s, d) && CallbackOk(s, c); }
  }

  lemma ServeKeeps(s: Sys, c: Tid, stopped: bool)
    requires Inv(s) && CallbackIs(s, c, Posted)
    ensures Alive(s) && Readable(s) && Inv(Serve(s, c, stopped))
  {
    hide Listing, Delivered, N, Of, Numbers, OwnerOk, CallbackOk;
    PostedReads(s, c);
    CallbackMoved(s, c, Served);
    ListingOther(s, c, s.next[c], Served);
    assert s.next[c := s.next[c]] == s.next;
    GiveDelivered(s, c);
    ServeOwners(s, c, stopped);
    ServeCallbacks(s, c, stopped);
    hide Owners, Callbacks;
  }

  lemma FinishNumbers(s: Sys, c: Tid)
    requires Numbers(K(s), s.truth) && CallbackIs(s, c, Served)
    ensures Numbers(K(Finish(s, c)), s.truth)
  {
    hide N, Of;
    CallbackMoved(s, c, Done);
  }

  lemma FinishKeeps(s: Sys, c: Tid)
    requires Inv(s) && CallbackIs(s, c, Served)
    ensures Alive(s) && CanRelease(s) && Inv(Finish(s, c))
  {
    hide Listing, Delivered, N, Of, Numbers;
    PostedReads(s, c);
    FinishNumbers(s, c);
    assert CallbackOk(s, c);
    ListingOther(s, c, s.next[c], Done);
    assert s.next[c := s.next[c]] == s.next;
    var s' := Finish(s, c);
    forall u | u in s'.pc ensures OwnerOk(s', K(s'), u) { assert OwnerOk(s, K(s), u); }
    forall d | d in s'.cb ensures CallbackOk(s', d) { assert CallbackOk(s, d); }
  }
}
