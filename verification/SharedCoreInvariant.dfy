/** What every interleaving of SharedCoreRuns keeps. */
module SharedCoreInvariant {
  import opened Common
  import opened Census
  import opened SharedCoreRuns

  predicate IsActive(p: OwnerPhase) { p != NoRef && p != Spent }
  predicate IsSpent(p: OwnerPhase) { p == Spent }
  predicate HoldsRef(p: CallbackPhase) { p == Posted || p == Served }

  /** The references of the promise: one for itself and two for the last callback. */
  function PromiseRefs(p: Promise): int {
    match p
    case Runs(_, n) => if n.Some? then 3 else 2
    case Forwarding(_, n, _) => if n.Some? then 3 else 2
    case Releases(left) => left
    case Gone => 0
    case _ => 3
  }

  predicate Unpublished(p: Promise) { p.Unset? || p.Offering? || p.Filled? }

  predicate Unstored(p: Promise) { p.Unset? || p.Offering? }

  predicate Dispatching(p: Promise) { p.Walks? || p.Runs? || p.Forwarding? }

  function Current(p: Promise): Tid
    requires Dispatching(p)
  {
    if p.Walks? then p.head else p.current
  }

  // ---------- numbers ----------

  /** The parts of the state that the count depends on. */
  datatype Tally = Tally(promise: Promise, word: Word, refs: int, cell: Cell, active: nat, spent: nat, posted: nat)

  ghost function K(s: Sys): Tally {
    Tally(s.promise, s.word, s.refs, s.cell, N(s.pc, IsActive), N(s.pc, IsSpent), N(s.cb, HoldsRef))
  }

  ghost predicate Counted(k: Tally) {
    && k.refs == PromiseRefs(k.promise) + k.active + k.spent + k.posted
    && (k.cell.Destroyed? <==> k.refs == 0)
    && (k.promise.Releases? ==> 1 <= k.promise.left <= 3)
  }

  ghost predicate Staged(k: Tally, truth: Payload) {
    && (k.word == Result <==> !Unpublished(k.promise))
    && (k.cell.Raw? <==> Unstored(k.promise))
    && (k.posted > 0 ==> k.word == Result)
    && (k.cell.Stored? ==> k.cell.v == truth)
  }

  /** After the value was moved nobody is left who could read it. */
  ghost predicate MoveOk(k: Tally) {
    && (k.cell.MovedFrom? ==> k.active == 0 && k.posted == 0 && (k.promise.Releases? || k.promise.Gone?))
    && (k.promise.Forwarding? ==> ForwardOk(k))
  }

  ghost predicate ForwardOk(k: Tally)
    requires k.promise.Forwarding?
  {
    k.promise.ref >= 2 && (k.promise.ref == 2 ==> k.promise.next.None? && k.active == 0 && k.posted == 0)
  }

  ghost predicate Numbers(k: Tally, truth: Payload) {
    Counted(k) && Staged(k, truth) && MoveOk(k)
  }

  // ---------- owners and callbacks ----------

  /** A callback that somebody tries to push, and who. */
  ghost predicate OfferedBy(cb: map<Tid, CallbackPhase>, lender: map<Tid, Option<Tid>>, c: Tid, who: Option<Tid>) {
    c in cb && cb[c] == Offered && c in lender && lender[c] == who
  }

  ghost predicate Linked(next: map<Tid, Option<Tid>>, c: Tid, expected: Word) {
    c in next && expected != Result && next[c] == Pointer(expected)
  }

  ghost predicate OwnerOk(s: Sys, k: Tally, t: Tid)
    requires Shape(s) && t in s.pc
  {
    var c := s.offer[t];
    match s.pc[t]
    case Offers => OfferedBy(s.cb, s.lender, c, Some(t)) && Linked(s.next, c, s.saved[t])
    case Refused => OfferedBy(s.cb, s.lender, c, Some(t)) && s.word == Result
    case Lent => CallbackIs(s, c, Listed) && s.lender[c] == Some(t) && s.kind[c] == Retires
    case Moves => s.promise == Gone && k.active == 1 && k.posted == 0
    case Copies => Ready(s.word)
    case Trusts => Ready(s.word)
    case _ => true
  }

  ghost predicate Owners(s: Sys)
    requires Shape(s)
  {
    forall t :: t in s.pc ==> OwnerOk(s, K(s), t)
  }

  /** The combinator's callback `c` waits in the list, and so does its reference. */
  ghost predicate LentFor(pc: map<Tid, OwnerPhase>, offer: map<Tid, Tid>, lender: map<Tid, Option<Tid>>, c: Tid) {
    && c in lender && lender[c].Some?
    && var t := lender[c].value; t in pc && pc[t] == Lent && t in offer && offer[t] == c
  }

  ghost predicate CallbackOk(s: Sys, c: Tid)
    requires Shape(s) && c in s.cb
  {
    match s.cb[c]
    case Listed => s.kind[c] == Retires ==> LentFor(s.pc, s.offer, s.lender, c)
    case Posted => s.kind[c] == Posts
    case Served => s.kind[c] == Posts
    case Done => s.kind[c] == Reads || s.kind[c] == Forwards ==> c in s.got
    case _ => true
  }

  ghost predicate Callbacks(s: Sys)
    requires Shape(s)
  {
    forall c :: c in s.cb ==> CallbackOk(s, c)
  }

  ghost predicate PromiseOk(s: Sys)
    requires Shape(s)
  {
    match s.promise
    case Offering(c, e) => OfferedBy(s.cb, s.lender, c, None) && Linked(s.next, c, e) && s.kind[c] != Retires
    case Forwarding(c, _, _) => c in s.cb && s.kind[c] == Forwards
    case _ => true
  }

  // ---------- the list ----------

  function Before(order: seq<Tid>, i: nat): Option<Tid>
    requires i < |order|
  {
    if i == 0 then None else Some(order[i - 1])
  }

  /** The list `q`, in registration order: every callback in it waits and points to the one before it. */
  ghost predicate Chain(q: seq<Tid>, next: map<Tid, Option<Tid>>, cb: map<Tid, CallbackPhase>) {
    && (forall i :: 0 <= i < |q| ==> ListedAt(q, i, next, cb))
    && (forall c :: c in cb && cb[c] == Listed ==> c in q)
  }

  ghost predicate ListedAt(q: seq<Tid>, i: nat, next: map<Tid, Option<Tid>>, cb: map<Tid, CallbackPhase>)
    requires i < |q|
  {
    q[i] in cb && cb[q[i]] == Listed && q[i] in next && next[q[i]] == Before(q, i)
  }

  /** The callbacks that still wait: all but the last |ran| of the registered ones. */
  function Waiting(order: seq<Tid>, ran: seq<Tid>): seq<Tid> {
    if |ran| <= |order| then order[..|order| - |ran|] else []
  }

  /** The dispatched callbacks: the last ones in registration order, last first. */
  ghost predicate Mirrored(order: seq<Tid>, ran: seq<Tid>) {
    |ran| <= |order| && forall i :: 0 <= i < |ran| ==> ran[i] == order[|order| - 1 - i]
  }

  predicate WasCalled(p: CallbackPhase) { p == Posted || p == Served || p == Done }

  ghost predicate Finished(ran: seq<Tid>, cb: map<Tid, CallbackPhase>) {
    forall c :: c in ran ==> c in cb && WasCalled(cb[c])
  }

  function WordOf(q: seq<Tid>): Word {
    if q == [] then Empty else Head(q[|q| - 1])
  }

  /** Where the word and the dispatch loop point, `q` being the callbacks that wait. */
  ghost predicate Pointers(word: Word, promise: Promise, q: seq<Tid>) {
    && (Unpublished(promise) ==> word == WordOf(q))
    && (Dispatching(promise) ==> q != [] && Current(promise) == q[|q| - 1])
    && (promise.Runs? || promise.Forwarding? ==> promise.next == Before(q, |q| - 1))
    && (promise.Releases? || promise.Gone? ==> q == [])
  }

  ghost predicate Listing(word: Word, promise: Promise, order: seq<Tid>, ran: seq<Tid>,
                          next: map<Tid, Option<Tid>>, cb: map<Tid, CallbackPhase>) {
    && Distinct(order) && Mirrored(order, ran) && Finished(ran, cb)
    && (Unpublished(promise) ==> ran == [])
    && Chain(Waiting(order, ran), next, cb)
    && Pointers(word, promise, Waiting(order, ran))
  }

  ghost predicate AllEqual(got: map<Tid, Payload>, truth: Payload) {
    forall c :: c in got ==> got[c] == truth
  }

  ghost predicate Delivered(got: map<Tid, Payload>, taken: map<Tid, Payload>, truth: Payload) {
    AllEqual(got, truth) && AllEqual(taken, truth)
  }

  ghost predicate Inv(s: Sys) {
    && Shape(s)
    && Numbers(K(s), s.truth)
    && Owners(s) && Callbacks(s) && PromiseOk(s)
    && Listing(s.word, s.promise, s.order, s.ran, s.next, s.cb)
    && Delivered(s.got, s.taken, s.truth)
  }

  // ---------- counting ----------

  lemma OwnerMoved(s: Sys, t: Tid, q: OwnerPhase)
    requires t in s.pc
    ensures N(s.pc[t := q], IsActive) == N(s.pc, IsActive) - One(IsActive(s.pc[t])) + One(IsActive(q))
    ensures N(s.pc[t := q], IsSpent) == N(s.pc, IsSpent) - One(IsSpent(s.pc[t])) + One(IsSpent(q))
    ensures N(s.pc, IsActive) >= One(IsActive(s.pc[t])) && N(s.pc, IsSpent) >= One(IsSpent(s.pc[t]))
  {
    hide N, Of;
    Moved(s.pc, t, q, IsActive);
    Moved(s.pc, t, q, IsSpent);
  }

  lemma CallbackMoved(s: Sys, c: Tid, q: CallbackPhase)
    requires c in s.cb
    ensures N(s.cb[c := q], HoldsRef) == N(s.cb, HoldsRef) - One(HoldsRef(s.cb[c])) + One(HoldsRef(q))
    ensures N(s.cb, HoldsRef) >= One(HoldsRef(s.cb[c]))
  {
    Moved(s.cb, c, q, HoldsRef);
  }

  lemma OnlyActive(s: Sys, t: Tid, u: Tid)
    requires t in s.pc && u in s.pc && IsActive(s.pc[t]) && IsActive(s.pc[u]) && N(s.pc, IsActive) == 1
    ensures t == u
  {
    if t != u { TwoPresent(s.pc, IsActive, t, u); }
  }

  // ---------- the initial state ----------

  lemma InitInv(s: Sys, f: Option<Tid>)
    requires Init(s, f)
    ensures Inv(s)
  {
    InitNumbers(s, f);
    hide N, Of, Numbers;
  }

  lemma InitNumbers(s: Sys, f: Option<Tid>)
    requires Init(s, f)
    ensures Numbers(K(s), s.truth)
  {
    InitActive(s, f);
    Nobody(s.pc, IsSpent);
    Nobody(s.cb, HoldsRef);
    hide N, Of;
  }

  lemma InitActive(s: Sys, f: Option<Tid>)
    requires Init(s, f)
    ensures N(s.pc, IsActive) == if f.Some? then 1 else 0
  {
    if f.Some? { assert Of(s.pc, IsActive) == {f.value}; } else { Nobody(s.pc, IsActive); }
  }
}
