/** What the operations of a shared core do when nobody else takes a step meanwhile: the contracts of BaseCoreCode,
    for the machine. */
module SharedCoreAlone {
  import opened Common
  import opened Census
  import opened SharedCoreRuns
  import opened SharedCoreInvariant
  import opened SharedCoreSteps
  import opened SharedCoreDispatch
  import opened SharedCoreTheorems

  // ---------- the specification ----------

  /** A registered callback, and whether it takes a reference when it is called. */
  datatype Entry = Entry(id: Tid, posts: bool)

  /** A core as its own code sees it: `registered` in the order of registration, `called` in the order of the calls. */
  datatype View = View(ready: bool, registered: seq<Entry>, refs: int, called: seq<Tid>)

  function IdsOf(q: seq<Entry>): (r: seq<Tid>)
    ensures |r| == |q| && forall i :: 0 <= i < |q| ==> r[i] == q[i].id
  {
    seq(|q|, i requires 0 <= i < |q| => q[i].id)
  }

  /** How many of the callbacks take a reference. */
  function Posting(q: seq<Entry>): nat {
    if q == [] then 0 else Posting(q[..|q| - 1]) + if q[|q| - 1].posts then 1 else 0
  }

  /** SetCallback on a shared core. */
  function Registered(v: View, e: Entry): View { if v.ready then v else v.(registered := v.registered + [e]) }

  /** SetResult on a shared core: everybody is called, the last registered first, and three references go. */
  function Dispatched(v: View): View {
    View(true, [], v.refs - 3 + Posting(v.registered), v.called + Reversed(IdsOf(v.registered)))
  }

  // ---------- the machine ----------

  function Entries(kind: map<Tid, Kind>, q: seq<Tid>): (r: seq<Entry>)
    ensures |r| == |q| && forall i :: 0 <= i < |q| ==> r[i] == Entry(q[i], q[i] in kind && kind[q[i]] == Posts)
  {
    seq(|q|, i requires 0 <= i < |q| => Entry(q[i], q[i] in kind && kind[q[i]] == Posts))
  }

  function ViewOf(s: Sys): View {
    View(s.word == Result, Entries(s.kind, Waiting(s.order, s.ran)), s.refs, s.ran)
  }

  ghost predicate Goes(s: Sys, t: Tid, a: Action, s': Sys) {
    Enabled(s, t, a) && Safe(s, t, a) && s' == Apply(s, t, a)
  }

  /** A stretch of a run from `s` to `s'` in which only `t` takes steps. */
  ghost predicate Undisturbed(t: Tid, s: Sys, states: seq<Sys>, ops: seq<Action>, s': Sys) {
    && |states| == |ops| + 1 && states[0] == s && states[|ops|] == s'
    && forall i :: 0 <= i < |ops| ==> Goes(states[i], t, ops[i], states[i + 1])
  }

  lemma Prepend(t: Tid, s: Sys, a: Action, s1: Sys, states: seq<Sys>, ops: seq<Action>, s': Sys)
    requires Goes(s, t, a, s1) && Undisturbed(t, s1, states, ops, s')
    ensures Undisturbed(t, s, [s] + states, [a] + ops, s')
  {
    hide Goes;
    var states', ops' := [s] + states, [a] + ops;
    forall i | 0 <= i < |ops'| ensures Goes(states'[i], t, ops'[i], states'[i + 1]) {
      if i > 0 { assert states'[i] == states[i - 1] && ops'[i] == ops[i - 1] && states'[i + 1] == states[i]; }
    }
  }

  lemma Nothing(t: Tid, s: Sys)
    ensures Undisturbed(t, s, [s], [], s)
  {
  }

  // ---------- the dispatch ----------

  /** The promise has the result and is on its way to let go of the core. */
  predicate Publishing(p: Promise) { p.Filled? || Dispatching(p) || p.Releases? }

  function NextOp(p: Promise): Action
    requires Publishing(p)
  {
    match p
    case Filled => PublishOp
    case Walks(_) => WalkOp
    case Runs(_, _) => RunOp(None)
    case Forwarding(_, _, _) => ForwardOp
    case _ => ReleaseOp
  }

  /** Steps that the promise has left until it is done with another callback. */
  function Rank(p: Promise): int {
    match p
    case Filled => 6
    case Walks(_) => 5
    case Runs(_, _) => 4
    case Forwarding(_, _, _) => 3
    case Releases(left) => left
    case _ => 0
  }

  /** The count when the promise is through: its own references go, those of submitted callbacks are added. */
  function Settled(s: Sys): int { s.refs - PromiseRefs(s.promise) + Posting(Entries(s.kind, Waiting(s.order, s.ran))) }

  /** One step of the promise does not change where it ends, and brings it closer. */
  ghost predicate Closer(s: Sys, s': Sys) {
    && Settled(s') == Settled(s) && s'.order == s.order && s'.word == Result
    && (Publishing(s'.promise) || s'.promise.Gone?)
    && (if |s'.ran| == |s.ran| then Rank(s'.promise) < Rank(s.promise) else |s'.ran| > |s.ran|)
  }

  lemma PostingLast(kind: map<Tid, Kind>, q: seq<Tid>)
    requires q != []
    ensures var c := q[|q| - 1];
      Posting(Entries(kind, q)) == Posting(Entries(kind, q[..|q| - 1])) + One(c in kind && kind[c] == Posts)
  {
    assert Entries(kind, q)[..|q| - 1] == Entries(kind, q[..|q| - 1]);
  }

  lemma PublishCloser(s: Sys)
    requires Inv(s) && s.promise.Filled?
    ensures Closer(s, Publish(s))
  {
    hide Numbers, Owners, Callbacks, PromiseOk, Delivered, Posting, Entries;
  }

  lemma WalkCloser(s: Sys)
    requires Shape(s) && s.promise.Walks? && s.promise.head in s.cb && s.word == Result
    ensures Closer(s, Walk(s))
  {
    hide Posting, Entries, Waiting;
  }

  /** The callback at the head of the list is done with. */
  lemma CalledOne(s: Sys)
    requires Inv(s) && (s.promise.Runs? || s.promise.Forwarding?)
    ensures var q, c := Waiting(s.order, s.ran), s.promise.current;
      && q != [] && c == q[|q| - 1] && Waiting(s.order, s.ran + [c]) == q[..|q| - 1] && |s.ran| < |s.order|
      && PromiseRefs(After(s.promise.next)) == PromiseRefs(s.promise)
    ensures s.word == Result
  {
    hide N, Of, Owners, Callbacks, PromiseOk, Delivered, Chain;
  }

  lemma ShapeOf(s: Sys)
    requires Inv(s)
    ensures Shape(s) && s.kind.Keys == s.cb.Keys
  {
    hide N, Of, Owners, Callbacks, PromiseOk, Delivered, Listing;
  }

  lemma RunCloser(s: Sys)
    requires Inv(s) && s.promise.Runs? && s.promise.current in s.cb && Readable(s) && LenderWaits(s, s.promise.current)
    ensures Closer(s, SharedCoreRuns.Run(s, None))
  {
    hide Inv, Shape, LenderWaits, Posting, Entries, Waiting, SharedCoreRuns.Run;
    ShapeOf(s);
    CalledOne(s);
    PostingLast(s.kind, Waiting(s.order, s.ran));
    RanOne(s);
  }

  lemma RanOne(s: Sys)
    requires Shape(s) && s.promise.Runs? && s.promise.current in s.cb && Readable(s) && LenderWaits(s, s.promise.current)
    ensures var s', c := SharedCoreRuns.Run(s, None), s.promise.current;
      && s'.order == s.order && s'.word == s.word && s'.kind == s.kind
      && if s.kind[c] == Forwards then s'.refs == s.refs && s'.ran == s.ran && s'.promise == Forwarding(c, s.promise.next, s.refs)
         else s'.refs == s.refs + One(s.kind[c] == Posts) && s'.ran == s.ran + [c] && s'.promise == After(s.promise.next)
  {
    hide After, LenderWaits;
    if s.kind[s.promise.current] != Forwards { hide Shape; }
  }

  lemma ForwardCloser(s: Sys)
    requires Inv(s) && s.promise.Forwarding? && Readable(s) && s.promise.ref >= 2 && Shape(s)
    requires s.promise.current in s.kind && s.kind[s.promise.current] == Forwards
    ensures Closer(s, Forward(s))
  {
    hide Inv, Shape, Posting, Entries, Waiting, Forward;
    CalledOne(s);
    PostingLast(s.kind, Waiting(s.order, s.ran));
    ForwardedOne(s);
  }

  lemma ForwardedOne(s: Sys)
    requires Shape(s) && s.promise.Forwarding? && Readable(s) && s.promise.ref >= 2
    requires s.promise.current in s.kind && s.kind[s.promise.current] == Forwards
    ensures var s' := Forward(s);
      && s'.order == s.order && s'.word == s.word && s'.kind == s.kind && s'.refs == s.refs
      && s'.ran == s.ran + [s.promise.current] && s'.promise == After(s.promise.next)
  {
    hide After, Shape;
  }

  lemma ReleaseCloser(s: Sys)
    requires s.promise.Releases? && s.promise.left > 0 && s.word == Result
    ensures Closer(s, Release(s))
  {
    hide Posting, Entries, Waiting;
  }

  lemma PromiseGoes(t: Tid, s: Sys) returns (s': Sys)
    requires Inv(s) && Publishing(s.promise)
    ensures Goes(s, t, NextOp(s.promise), s') && Inv(s') && Closer(s, s')
  {
    PromiseEnabled(s, t);
    hide Inv, Enabled, Closer, Careful, Safe, Apply;
    StepKeeps(s, t, NextOp(s.promise));
    s' := Apply(s, t, NextOp(s.promise));
    GoesCloser(t, s);
  }

  lemma GoesCloser(t: Tid, s: Sys)
    requires Inv(s) && Publishing(s.promise) && Enabled(s, t, NextOp(s.promise)) && Safe(s, t, NextOp(s.promise))
    ensures Closer(s, Apply(s, t, NextOp(s.promise)))
  {
    hide Inv, Closer, Alive, CanRelease, LenderWaits, Publish, Walk, SharedCoreRuns.Run, Forward, Release;
    match s.promise
    case Filled => PublishCloser(s);
    case Walks(_) => Published(s); WalkCloser(s);
    case Runs(_, _) => RunCloser(s);
    case Forwarding(_, _, _) => Forwarded(s); ForwardCloser(s);
    case _ => Published(s); ReleaseCloser(s);
  }

  lemma PromiseEnabled(s: Sys, t: Tid)
    requires Inv(s) && Publishing(s.promise)
    ensures Enabled(s, t, NextOp(s.promise)) && Careful(s, NextOp(s.promise))
  {
    hide N, Of, Owners, Callbacks, PromiseOk, Delivered, Listing;
  }

  lemma Published(s: Sys)
    requires Inv(s) && !Unpublished(s.promise)
    ensures s.word == Result
  {
    hide N, Of, Owners, Callbacks, PromiseOk, Delivered, Listing;
  }

  lemma Forwarded(s: Sys)
    requires Inv(s) && s.promise.Forwarding?
    ensures s.promise.current in s.kind && s.kind[s.promise.current] == Forwards
  {
    hide N, Of, Owners, Callbacks, Delivered, Listing;
  }

  /** The promise goes on alone until it is gone. */
  lemma {:induction false} DispatchEnds(t: Tid, s: Sys) returns (states: seq<Sys>, ops: seq<Action>, s': Sys)
    requires Inv(s) && (Publishing(s.promise) || s.promise.Gone?)
    ensures Undisturbed(t, s, states, ops, s') && Inv(s') && s'.promise.Gone?
    ensures Settled(s') == Settled(s) && s'.order == s.order
    decreases |s.order| - |s.ran|, Rank(s.promise)
  {
    hide Inv, Undisturbed, Goes, Settled;
    if s.promise.Gone? {
      Nothing(t, s);
      return [s], [], s;
    }
    var s1 := PromiseGoes(t, s);
    CalledBound(s);
    CalledBound(s1);
    states, ops, s' := DispatchEnds(t, s1);
    Prepend(t, s, NextOp(s.promise), s1, states, ops, s');
    states, ops := [s] + states, [NextOp(s.promise)] + ops;
  }

  lemma CalledBound(s: Sys)
    requires Inv(s)
    ensures |s.ran| <= |s.order| && (s.promise.Releases? ==> s.promise.left >= 0)
  {
    hide N, Of, Owners, Callbacks, PromiseOk, Delivered, Chain, Pointers;
  }

  /** The promise alone, from the store on, does what SetResult does to the heap. */
  lemma DispatchIsSteps(t: Tid, s: Sys) returns (states: seq<Sys>, ops: seq<Action>, s': Sys)
    requires Reachable(s) && s.promise.Filled?
    ensures Undisturbed(t, s, states, ops, s') && ViewOf(s') == Dispatched(ViewOf(s))
  {
    hide Reachable, Inv, Undisturbed;
    ReachableInv(s);
    states, ops, s' := DispatchEnds(t, s);
    AtStart(s);
    AtEnd(s');
    hide Posting, Entries;
    assert IdsOf(Entries(s.kind, s.order)) == s.order;
  }

  lemma AtStart(s: Sys)
    requires Inv(s) && s.promise.Filled?
    ensures s.ran == [] && Waiting(s.order, s.ran) == s.order
  {
    hide N, Of, Owners, Callbacks, PromiseOk, Delivered, Chain, Pointers;
  }

  lemma AtEnd(s: Sys)
    requires Inv(s) && s.promise.Gone?
    ensures s.word == Result && s.ran == Reversed(s.order) && Waiting(s.order, s.ran) == []
  {
    hide N, Of, Owners, Callbacks, PromiseOk, Delivered, Chain;
    assert |Waiting(s.order, s.ran)| + |s.ran| == |s.order|;
  }

  // ---------- the registration ----------

  /** A future that registers a callback undisturbed does what SetCallback does to the heap; it has the callback
      back if there is a result. */
  lemma RegisterIsSteps(s: Sys, t: Tid, c: Tid) returns (states: seq<Sys>, ops: seq<Action>, s': Sys)
    requires Reachable(s) && OwnerIs(s, t, Holds) && CallbackIs(s, c, Fresh)
    ensures Undisturbed(t, s, states, ops, s') && t in s'.pc && (s'.pc[t] == Refused <==> s.word == Result)
    ensures c in s.kind && ViewOf(s') == Registered(ViewOf(s), Entry(c, s.kind[c] == Posts))
  {
    hide Reachable, Inv, Undisturbed;
    ReachableInv(s);
    Offered(s, t, c);
    hide Goes;
    var s1 := Offer(s, t, c);
    if s.word == Result {
      Nothing(t, s1);
      Prepend(t, s, OfferOp(c), s1, [s1], [], s1);
      return [s] + [s1], [OfferOp(c)] + [], s1;
    }
    Pushed(s1, t, c);
    s' := Cas(s1, t, false);
    Nothing(t, s');
    Prepend(t, s1, CasOp(false), s', [s'], [], s');
    Prepend(t, s, OfferOp(c), s1, [s1] + [s'], [CasOp(false)] + [], s');
    states, ops := [s] + ([s1] + [s']), [OfferOp(c)] + ([CasOp(false)] + []);
  }

  lemma Offered(s: Sys, t: Tid, c: Tid)
    requires Inv(s) && OwnerIs(s, t, Holds) && CallbackIs(s, c, Fresh)
    ensures Goes(s, t, OfferOp(c), Offer(s, t, c)) && Inv(Offer(s, t, c)) && c in s.kind
    ensures var s' := Offer(s, t, c);
      && t in s'.pc && s'.pc[t] == (if s.word == Result then Refused else Offers) && t in s'.offer && s'.offer[t] == c
      && s'.word == s.word && (s.word != Result ==> t in s'.saved && s'.saved[t] == s.word)
      && s'.kind == s.kind && ViewOf(s') == ViewOf(s)
  {
    hide Numbers, Owners, Callbacks, PromiseOk, Delivered, Listing;
    OfferKeeps(s, t, c);
  }

  lemma Pushed(s: Sys, t: Tid, c: Tid)
    requires Inv(s) && OwnerIs(s, t, Offers) && t in s.offer && s.offer[t] == c && c in s.kind
    requires t in s.saved && s.saved[t] == s.word && s.word != Result
    ensures c in s.cb && Shape(s) && Goes(s, t, CasOp(false), Cas(s, t, false))
    ensures t in Cas(s, t, false).pc && Cas(s, t, false).pc[t] != Refused
    ensures ViewOf(Cas(s, t, false)) == Registered(ViewOf(s), Entry(c, s.kind[c] == Posts))
  {
    hide Numbers, Owners, Callbacks, PromiseOk, Delivered, Listing, Entries, Waiting;
    CasKeeps(s, t, false);
    Unready(s);
    PushedView(s, t, c);
  }

  lemma PushedView(s: Sys, t: Tid, c: Tid)
    requires Shape(s) && OwnerIs(s, t, Offers) && s.offer[t] == c && c in s.kind && c in s.cb
    requires s.saved[t] == s.word && s.word != Result && s.ran == []
    ensures var s' := Cas(s, t, false);
      t in s'.pc && s'.pc[t] != Refused && ViewOf(s') == Registered(ViewOf(s), Entry(c, s.kind[c] == Posts))
  {
    hide Entries;
    assert Waiting(s.order + [c], s.ran) == s.order + [c] && Waiting(s.order, s.ran) == s.order;
    assert Entries(s.kind, s.order + [c]) == Entries(s.kind, s.order) + [Entry(c, s.kind[c] == Posts)];
  }

  lemma Unready(s: Sys)
    requires Inv(s) && s.word != Result
    ensures s.ran == []
  {
    hide N, Of, Owners, Callbacks, PromiseOk, Delivered, Chain, Pointers;
  }
}
