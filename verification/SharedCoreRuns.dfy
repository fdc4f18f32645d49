/** A shared core: one promise, any number of SharedFutures and callbacks, interleaved at every
    access to the tagged word `_callback` and to the reference count
    (src/algo/base_core.cpp, include/yaclib/algo/detail/result_core.hpp,
    include/yaclib/algo/detail/shared_core.hpp, include/yaclib/async/shared_future.hpp). */
module SharedCoreRuns {
  import opened Common
  import opened Census

  /** What a core delivers: a value, an error or an exception. */
  datatype Payload = Payload(id: int)

  /** `_callback`: kEmpty, the head of a list of callbacks, or kResult. */
  datatype Word = Empty | Head(callback: Tid) | Result

  /** `_result`. */
  datatype Cell = Raw | Stored(v: Payload) | MovedFrom | Destroyed

  /** What a callback does when the core calls it.
      `Reads`: runs at once and reads the result (an event, an inline continuation);
      `Posts`: takes a reference and is submitted to an executor;
      `Forwards`: another core, ResultCore::Impl, which moves the result if the count says that it may;
      `Retires`: a combinator, which got the reference of the future and gives it back by Retire. */
  datatype Kind = Reads | Posts | Forwards | Retires

  datatype CallbackPhase =
    | Fresh
    | Offered   // somebody tries to push it
    | Listed    // in the list
    | Posted    // submitted, owns a reference
    | Served    // has read the result or was dropped, still owns the reference
    | Done

  /** An owner of one reference: a SharedFuture or a combinator's input. */
  datatype OwnerPhase =
    | NoRef
    | Holds
    | Offers    // SetCallback between a load of the word and the compare_exchange, `saved` = expected
    | Refused   // saw kResult, is about to run the callback itself
    | Trusts    // Touch or a co_await saw Ready, before it reads the result
    | Lent      // a combinator's reference while the callback is in the list
    | Moves     // Get &&, Touch && or Retire saw a count of 1
    | Copies    // one of them saw another count
    | Spent     // after that; the only thing left to do is to release the reference

  datatype Promise =
    | Unset
    | Offering(callback: Tid, expected: Word)  // Connect(primary, ...): SetCallback by the promise
    | Filled                                   // the result is stored, before the exchange
    | Walks(head: Tid)                         // in SetResult, about to read head->next
    | Runs(current: Tid, next: Option<Tid>)    // about to run `current`; it is the last one if there is no next
    | Forwarding(current: Tid, next: Option<Tid>, ref: int)  // `current` is a core and has loaded the count
    | Releases(left: nat)                      // DecRef calls to make
    | Gone

  datatype Sys = Sys(
    word: Word, refs: int, cell: Cell, promise: Promise,
    pc: map<Tid, OwnerPhase>, saved: map<Tid, Word>, offer: map<Tid, Tid>,
    cb: map<Tid, CallbackPhase>, kind: map<Tid, Kind>, next: map<Tid, Option<Tid>>, lender: map<Tid, Option<Tid>>,
    // history: the successful registrations, the dispatched callbacks, what everybody was given, and the submitted
    // callbacks that their executor called
    order: seq<Tid>, ran: seq<Tid>, truth: Payload, got: map<Tid, Payload>, taken: map<Tid, Payload>, called: set<Tid>)

  ghost predicate Shape(s: Sys) {
    && s.saved.Keys == s.pc.Keys && s.offer.Keys == s.pc.Keys
    && s.kind.Keys == s.cb.Keys && s.next.Keys == s.cb.Keys && s.lender.Keys == s.cb.Keys
  }

  const WITH_FUTURE := 4
  const NO_FUTURE := 3

  /** MakeSharedContract (with a future `f`) or MakeSharedPromise. */
  ghost predicate Init(s: Sys, f: Option<Tid>) {
    && Shape(s)
    && s.word == Empty && s.cell == Raw && s.promise == Unset
    && s.refs == (if f.Some? then WITH_FUTURE else NO_FUTURE)
    && (f.Some? ==> f.value in s.pc)
    && (forall t :: t in s.pc ==> s.pc[t] == if f == Some(t) then Holds else NoRef)
    && (forall c :: c in s.cb ==> s.cb[c] == Fresh)
    && s.order == [] && s.ran == [] && s.got == map[] && s.taken == map[] && s.called == {}
  }

  function Pointer(w: Word): Option<Tid> {
    if w.Head? then Some(w.callback) else None
  }

  datatype Action =
    // futures
    | CopyOp(to: Tid) | DropOp | ReadOp | AwaitOp(c: Tid) | TouchOp | LookOp
    | OfferOp(c: Tid) | CasOp(spurious: bool) | RunRefusedOp | GetRefOp | TakeOp
    // the promise
    | PromiseCopyOp(to: Tid) | PromiseOfferOp(c: Tid) | PromiseCasOp(spurious: bool)
    | StoreOp | PublishOp | WalkOp | RunOp(junk: Option<Tid>) | ForwardOp | ReleaseOp
    // submitted callbacks
    | ServeOp(c: Tid, stopped: bool) | FinishOp(c: Tid)

  ghost predicate OwnerIs(s: Sys, t: Tid, p: OwnerPhase) { t in s.pc && s.pc[t] == p }

  ghost predicate CallbackIs(s: Sys, c: Tid, p: CallbackPhase) { c in s.cb && s.cb[c] == p }

  /** SharedFutureBase::Ready, and await_ready of a co_await. */
  predicate Ready(w: Word) { w != Empty }

  /** When the step can be asked for; `t` is the future that takes it.  A future whose result was taken
      by Get && is only dropped.  Get waits for the result and then reads it (ReadOp); Touch asserts Ready
      (TouchOp), and so does Touch && before it loads the count like Get && (GetRefOp).  co_await of a future
      (AwaitOp) asks await_ready: if that says no the coroutine offers itself as the callback `c`, otherwise it
      goes on.  After a yes Touch and the coroutine read the result, at once or later (LookOp). */
  ghost predicate Enabled(s: Sys, t: Tid, a: Action) {
    && Shape(s)
    && match a
       case CopyOp(u) => OwnerIs(s, t, Holds) && OwnerIs(s, u, NoRef)
       case DropOp => OwnerIs(s, t, Holds) || OwnerIs(s, t, Spent)
       case ReadOp => OwnerIs(s, t, Holds) && s.word == Result
       case AwaitOp(c) => OwnerIs(s, t, Holds) && CallbackIs(s, c, Fresh) && s.kind[c] == Reads
       case TouchOp => OwnerIs(s, t, Holds) && Ready(s.word)
       case LookOp => OwnerIs(s, t, Trusts)
       case OfferOp(c) => OwnerIs(s, t, Holds) && CallbackIs(s, c, Fresh)
       case CasOp(_) => OwnerIs(s, t, Offers)
       case RunRefusedOp => OwnerIs(s, t, Refused)
       case GetRefOp => OwnerIs(s, t, Holds) && Ready(s.word)
       case TakeOp => OwnerIs(s, t, Moves) || OwnerIs(s, t, Copies)
       case PromiseCopyOp(u) => s.promise == Unset && OwnerIs(s, u, NoRef)
       case PromiseOfferOp(c) => s.promise == Unset && CallbackIs(s, c, Fresh) && s.kind[c] != Retires
       case PromiseCasOp(_) => s.promise.Offering?
       case StoreOp => s.promise == Unset
       case PublishOp => s.promise == Filled
       case WalkOp => s.promise.Walks?
       case RunOp(_) => s.promise.Runs?
       case ForwardOp => s.promise.Forwarding?
       case ReleaseOp => s.promise.Releases? && s.promise.left > 0
       case ServeOp(c, _) => CallbackIs(s, c, Posted)
       case FinishOp(c) => CallbackIs(s, c, Served)
  }

  ghost predicate Readable(s: Sys) { s.cell.Stored? }

  ghost predicate Alive(s: Sys) { s.refs > 0 && !s.cell.Destroyed? }

  /** The count may go down: whoever takes it to zero destroys a ready core (result_core.hpp:35-38). */
  ghost predicate CanRelease(s: Sys) {
    Alive(s) && (s.refs == 1 ==> s.word == Result && !s.cell.Raw?)
  }

  /** What the code relies on without checking: the core exists, the result it reads is stored and was
      not moved away, the pointers it follows are callbacks waiting in the list. */
  ghost predicate Safe(s: Sys, t: Tid, a: Action)
    requires Enabled(s, t, a)
  {
    && Alive(s)
    && match a
       case DropOp => CanRelease(s)
       case ReadOp => Readable(s)
       case LookOp => Readable(s)
       case CasOp(_) => s.offer[t] in s.cb
       case RunRefusedOp => s.offer[t] in s.cb && Readable(s)
       case TakeOp => Readable(s)
       case PromiseCasOp(_) => s.promise.callback in s.cb && s.word != Result
       case StoreOp => s.cell.Raw?
       case PublishOp => s.word != Result
       case WalkOp => CallbackIs(s, s.promise.head, Listed) && CanRelease(s)
       case RunOp(_) => CallbackIs(s, s.promise.current, Listed) && Readable(s) && LenderWaits(s, s.promise.current)
       case ForwardOp => CallbackIs(s, s.promise.current, Listed) && Readable(s) && s.promise.ref >= 2
       case ReleaseOp => CanRelease(s)
       case ServeOp(_, _) => Readable(s)
       case FinishOp(_) => CanRelease(s)
       case _ => true
  }

  ghost predicate LenderWaits(s: Sys, c: Tid)
    requires Shape(s) && c in s.cb
  {
    s.kind[c] == Retires ==> s.lender[c].Some? && OwnerIs(s, s.lender[c].value, Lent)
  }

  // ---------- steps ----------

  function GoOwner(s: Sys, t: Tid, p: OwnerPhase): Sys { s.(pc := s.pc[t := p]) }

  function GoCallback(s: Sys, c: Tid, p: CallbackPhase): Sys { s.(cb := s.cb[c := p]) }

  function IncRef(s: Sys): Sys { s.(refs := s.refs + 1) }

  /** DecRef, with the destructor when the count reaches zero. */
  function DecRef(s: Sys): Sys {
    s.(refs := s.refs - 1, cell := if s.refs == 1 then Destroyed else s.cell)
  }

  function Copy(s: Sys, u: Tid): Sys { GoOwner(IncRef(s), u, Holds) }

  function Drop(s: Sys, t: Tid): Sys { GoOwner(DecRef(s), t, NoRef) }

  function Read(s: Sys, t: Tid): Sys
    requires Readable(s)
  {
    s.(taken := s.taken[t := s.cell.v])
  }

  /** SetCallbackImpl: the word was (re)loaded; `callback.next = expected`. */
  function Loaded(s: Sys, t: Tid, c: Tid): Sys {
    if s.word == Result then GoOwner(s, t, Refused)
    else GoOwner(s.(saved := s.saved[t := s.word], next := s.next[c := Pointer(s.word)]), t, Offers)
  }

  function Offer(s: Sys, t: Tid, c: Tid): Sys {
    Loaded(GoCallback(s.(offer := s.offer[t := c], lender := s.lender[c := Some(t)]), c, Offered), t, c)
  }

  function Touch(s: Sys, t: Tid): Sys { GoOwner(s, t, Trusts) }

  /** co_await: await_ready, and await_suspend if it says no. */
  function Await(s: Sys, t: Tid, c: Tid): Sys {
    if Ready(s.word) then Touch(s, t) else Offer(s, t, c)
  }

  /** The end of Touch, or await_resume. */
  function Look(s: Sys, t: Tid): Sys
    requires Readable(s)
  {
    GoOwner(Read(s, t), t, Holds)
  }

  function Push(s: Sys, c: Tid): Sys {
    GoCallback(s.(word := Head(c), order := s.order + [c]), c, Listed)
  }

  function Cas(s: Sys, t: Tid, spurious: bool): Sys
    requires Shape(s) && t in s.pc && s.offer[t] in s.cb
  {
    var c := s.offer[t];
    if s.word == s.saved[t] && !spurious then GoOwner(Push(s, c), t, if s.kind[c] == Retires then Lent else Holds)
    else Loaded(s, t, c)
  }

  function Give(s: Sys, c: Tid): Sys
    requires Readable(s)
  {
    GoCallback(s.(got := s.got[c := s.cell.v]), c, Done)
  }

  /** The callback of a failed registration runs on the thread that offered it. */
  function RunRefused(s: Sys, t: Tid): Sys
    requires Shape(s) && t in s.pc && s.offer[t] in s.cb && Readable(s)
  {
    var c := s.offer[t];
    GoOwner(match s.kind[c]
            case Posts => GoCallback(IncRef(s), c, Posted)
            case Retires => GoCallback(s, c, Done)
            case _ => Give(s, c),
            t, Holds)
  }

  function LoadCount(s: Sys, t: Tid): Sys { GoOwner(s, t, if s.refs == 1 then Moves else Copies) }

  function Take(s: Sys, t: Tid): Sys
    requires t in s.pc && Readable(s)
  {
    var s1 := s.(taken := s.taken[t := s.cell.v], cell := if s.pc[t] == Moves then MovedFrom else s.cell);
    GoOwner(s1, t, Spent)
  }

  function PromiseLoaded(s: Sys, c: Tid): Sys {
    s.(promise := Offering(c, s.word), next := s.next[c := Pointer(s.word)])
  }

  function PromiseOffer(s: Sys, c: Tid): Sys {
    PromiseLoaded(GoCallback(s.(lender := s.lender[c := None]), c, Offered), c)
  }

  function PromiseCas(s: Sys, spurious: bool): Sys
    requires s.promise.Offering?
  {
    var c := s.promise.callback;
    if s.word == s.promise.expected && !spurious then Push(s, c).(promise := Unset) else PromiseLoaded(s, c)
  }

  function Store(s: Sys): Sys { s.(cell := Stored(s.truth), promise := Filled) }

  function Publish(s: Sys): Sys {
    s.(word := Result, promise := if s.word.Head? then Walks(s.word.callback) else Releases(3))
  }

  /** `head->next` is read before the callback runs; the last callback is run with one reference less. */
  function Walk(s: Sys): Sys
    requires Shape(s) && s.promise.Walks? && s.promise.head in s.cb
  {
    var h := s.promise.head;
    if s.next[h].Some? then s.(promise := Runs(h, s.next[h])) else DecRef(s).(promise := Runs(h, None))
  }

  function After(next: Option<Tid>): Promise {
    if next.Some? then Walks(next.value) else Releases(2)
  }

  /** The callback runs, and may overwrite its own `next`. */
  function Run(s: Sys, junk: Option<Tid>): Sys
    requires Shape(s) && s.promise.Runs? && s.promise.current in s.cb && Readable(s)
    requires LenderWaits(s, s.promise.current)
  {
    var c, n := s.promise.current, s.promise.next;
    if s.kind[c] == Forwards then s.(promise := Forwarding(c, n, s.refs))
    else
      var s1 := s.(promise := After(n), ran := s.ran + [c], next := s.next[c := junk]);
      match s.kind[c]
      case Posts => GoCallback(IncRef(s1), c, Posted)
      case Retires => GoOwner(GoCallback(s1, c, Done), s.lender[c].value, Holds)
      case _ => Give(s1, c)
  }

  /** ResultCore::Impl after it loaded the count. */
  function Forward(s: Sys): Sys
    requires Shape(s) && s.promise.Forwarding? && Readable(s)
  {
    var c, n, ref := s.promise.current, s.promise.next, s.promise.ref;
    var s1 := Give(s.(promise := After(n), ran := s.ran + [c]), c);
    if ref >= 3 then s1
    else if ref == 1 then DecRef(s1.(cell := MovedFrom))
    else s1.(cell := MovedFrom)
  }

  function Release(s: Sys): Sys
    requires s.promise.Releases? && s.promise.left > 0
  {
    DecRef(s).(promise := if s.promise.left == 1 then Gone else Releases(s.promise.left - 1))
  }

  /** A submitted callback is called and reads the result, or is dropped by its executor. */
  function Serve(s: Sys, c: Tid, stopped: bool): Sys
    requires Readable(s)
  {
    GoCallback(if stopped then s else s.(got := s.got[c := s.cell.v], called := s.called + {c}), c, Served)
  }

  function Finish(s: Sys, c: Tid): Sys { GoCallback(DecRef(s), c, Done) }

  function Apply(s: Sys, t: Tid, a: Action): (s': Sys)
    requires Enabled(s, t, a) && Safe(s, t, a)
  {
    match a
    case CopyOp(u) => Copy(s, u)
    case DropOp => Drop(s, t)
    case ReadOp => Read(s, t)
    case AwaitOp(c) => Await(s, t, c)
    case TouchOp => Touch(s, t)
    case LookOp => Look(s, t)
    case OfferOp(c) => Offer(s, t, c)
    case CasOp(spurious) => Cas(s, t, spurious)
    case RunRefusedOp => RunRefused(s, t)
    case GetRefOp => LoadCount(s, t)
    case TakeOp => Take(s, t)
    case PromiseCopyOp(u) => Copy(s, u)
    case PromiseOfferOp(c) => PromiseOffer(s, c)
    case PromiseCasOp(spurious) => PromiseCas(s, spurious)
    case StoreOp => Store(s)
    case PublishOp => Publish(s)
    case WalkOp => Walk(s)
    case RunOp(junk) => Run(s, junk)
    case ForwardOp => Forward(s)
    case ReleaseOp => Release(s)
    case ServeOp(c, stopped) => Serve(s, c, stopped)
    case FinishOp(c) => Finish(s, c)
  }
}
