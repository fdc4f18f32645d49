/** A chain of contracts with one owner each: the future of every core is connected to the promise of the next one
    (include/yaclib/async/connect.hpp), by a thread of its own, before or after the result is there.  The result is
    handed down the chain by ResultCore::Impl (include/yaclib/algo/detail/result_core.hpp) of a core that is the
    callback of the one before, or by Connect itself when that one was ready.  Every access to a core's word or
    count, and every move of the result, is one step. */
module ConnectRuns {
  import opened Common
  import Shared = SharedCoreRuns

  /** Whether the value can be copied. */
  datatype Config = Config(copyable: bool)

  datatype Word = Empty | Callback | Result

  datatype Phase =
    | Fresh                       // has no result, and nobody is about to give it one
    | Called                      // Impl was called by the core before
    | Counted(ref: int)           // it loaded the count of that core
    | Took                        // it has the result, and releases that core next
    | Carries(v: Shared.Payload)  // Connect has the result in its hands for it
    | Filled                      // has the result, before the exchange
    | Published

  /** How far Connect of the core before with this one is. */
  datatype Link = Apart | Casing | Refused | Joined

  /** `destroyed`: how often the core was destroyed. */
  datatype Core = Core(at: Phase, word: Word, refs: int, cell: Shared.Cell, link: Link, destroyed: nat)

  /** `truth`: what the first promise is set to; `taken`: what the last future gave. */
  datatype Sys = Sys(cores: seq<Core>, truth: Shared.Payload, taken: Option<Shared.Payload>)

  ghost predicate Init(s: Sys) {
    && s.cores != [] && s.taken == None
    && forall i :: 0 <= i < |s.cores| ==> s.cores[i] == Core(Fresh, Empty, 1, Shared.Raw, Apart, 0)
  }

  datatype Action =
    | SetOp | LoadOp(i: nat) | CasOp(i: nat) | TouchOp(i: nat) | StoreOp(i: nat)
    | CountOp(i: nat) | MoveOp(i: nat) | ReleaseOp(i: nat) | PublishOp(i: nat) | TakeOp

  ghost predicate Behind(s: Sys, i: nat) { 0 < i < |s.cores| }

  /** When the step can be asked for; Get of the last future waits for its result. */
  ghost predicate Enabled(c: Config, s: Sys, a: Action) {
    && s.cores != []
    && match a
       case SetOp => s.cores[0].at == Fresh
       case LoadOp(i) => Behind(s, i) && s.cores[i].link == Apart
       case CasOp(i) => Behind(s, i) && s.cores[i].link == Casing
       case TouchOp(i) => Behind(s, i) && s.cores[i].link == Refused
       case StoreOp(i) => Behind(s, i) && s.cores[i].at.Carries?
       case CountOp(i) => Behind(s, i) && s.cores[i].at == Called && c.copyable
       case MoveOp(i) => Behind(s, i) && (s.cores[i].at.Counted? || (s.cores[i].at == Called && !c.copyable))
       case ReleaseOp(i) => Behind(s, i) && s.cores[i].at == Took
       case PublishOp(i) => i < |s.cores| && s.cores[i].at == Filled
       case TakeOp => s.cores[|s.cores| - 1].word == Result && s.taken == None
  }

  predicate Alive(x: Core) { x.refs > 0 && !x.cell.Destroyed? }

  /** The last reference is released by whoever destroys a ready core (result_core.hpp:35-38). */
  predicate CanRelease(x: Core) { Alive(x) && x.word == Result && !x.cell.Raw? }

  /** What the code relies on: cores exist, a result that is read is there, one that is stored is the first, and a
      core has one callback. */
  ghost predicate Safe(c: Config, s: Sys, a: Action)
    requires Enabled(c, s, a)
  {
    match a
    case SetOp => Alive(s.cores[0]) && s.cores[0].cell.Raw?
    case LoadOp(i) => Alive(s.cores[i - 1]) && Alive(s.cores[i]) && s.cores[i - 1].word != Callback
    case CasOp(i) => Alive(s.cores[i - 1]) && Alive(s.cores[i]) && s.cores[i - 1].word != Callback
    case TouchOp(i) => CanRelease(s.cores[i - 1]) && s.cores[i - 1].cell.Stored?
    case StoreOp(i) => Alive(s.cores[i]) && s.cores[i].cell.Raw?
    case CountOp(i) => Alive(s.cores[i - 1])
    case MoveOp(i) =>
      Alive(s.cores[i - 1]) && s.cores[i - 1].cell.Stored? && Alive(s.cores[i]) && s.cores[i].cell.Raw?
    case ReleaseOp(i) => CanRelease(s.cores[i - 1])
    case PublishOp(i) =>
      && Alive(s.cores[i]) && s.cores[i].word != Result
      && (s.cores[i].word == Callback ==> i + 1 < |s.cores| && s.cores[i + 1].at == Fresh && Alive(s.cores[i + 1]))
    case TakeOp => CanRelease(s.cores[|s.cores| - 1]) && s.cores[|s.cores| - 1].cell.Stored?
  }

  // ---------- the steps ----------

  function Put(s: Sys, i: nat, x: Core): Sys
    requires i < |s.cores|
  {
    s.(cores := s.cores[i := x])
  }

  function DecRef(x: Core): Core {
    if x.refs == 1 then x.(refs := 0, cell := Shared.Destroyed, destroyed := x.destroyed + 1) else x.(refs := x.refs - 1)
  }

  /** Promise::Set on the first core. */
  function Set(s: Sys): Sys
    requires s.cores != []
  {
    Put(s, 0, s.cores[0].(at := Filled, cell := Shared.Stored(s.truth)))
  }

  /** SetCallback: the load, then the strong compare_exchange. */
  function Load(s: Sys, i: nat): Sys
    requires 0 < i < |s.cores|
  {
    Put(s, i, s.cores[i].(link := if s.cores[i - 1].word == Empty then Casing else Refused))
  }

  function Cas(s: Sys, i: nat): Sys
    requires 0 < i < |s.cores|
  {
    if s.cores[i - 1].word == Empty then
      Put(Put(s, i - 1, s.cores[i - 1].(word := Callback)), i, s.cores[i].(link := Joined))
    else Put(s, i, s.cores[i].(link := Refused))
  }

  /** Touch of a future that is not used again: the result is moved out and the core released. */
  function Touch(s: Sys, i: nat): Sys
    requires 0 < i < |s.cores| && s.cores[i - 1].cell.Stored?
  {
    var x := s.cores[i - 1];
    Put(Put(s, i - 1, DecRef(x.(cell := Shared.MovedFrom))), i, s.cores[i].(at := Carries(x.cell.v), link := Joined))
  }

  function Store(s: Sys, i: nat): Sys
    requires i < |s.cores| && s.cores[i].at.Carries?
  {
    Put(s, i, s.cores[i].(at := Filled, cell := Shared.Stored(s.cores[i].at.v)))
  }

  function Count(s: Sys, i: nat): Sys
    requires 0 < i < |s.cores|
  {
    Put(s, i, s.cores[i].(at := Counted(s.cores[i - 1].refs)))
  }

  /** Impl: copy the result or move it out of the core before; a value that cannot be copied is always moved, and
      the core before released. */
  function Move(c: Config, s: Sys, i: nat): Sys
    requires 0 < i < |s.cores| && s.cores[i - 1].cell.Stored? && (s.cores[i].at.Counted? || !c.copyable)
  {
    var x, y := s.cores[i - 1], s.cores[i].(cell := s.cores[i - 1].cell);
    if !c.copyable || s.cores[i].at.ref == 1 then Put(Put(s, i - 1, x.(cell := Shared.MovedFrom)), i, y.(at := Took))
    else if s.cores[i].at.ref >= 3 then Put(s, i, y.(at := Filled))
    else Put(Put(s, i - 1, x.(cell := Shared.MovedFrom)), i, y.(at := Filled))
  }

  function Release(s: Sys, i: nat): Sys
    requires 0 < i < |s.cores|
  {
    Put(Put(s, i - 1, DecRef(s.cores[i - 1])), i, s.cores[i].(at := Filled))
  }

  /** SetResult: the exchange; the callback is called next. */
  function Publish(s: Sys, i: nat): Sys
    requires i < |s.cores| && (s.cores[i].word == Callback ==> i + 1 < |s.cores|)
  {
    var s1 := Put(s, i, s.cores[i].(at := Published, word := Result));
    if s.cores[i].word == Callback then Put(s1, i + 1, s.cores[i + 1].(at := Called)) else s1
  }

  /** Get of the last future. */
  function Take(s: Sys): Sys
    requires s.cores != [] && s.cores[|s.cores| - 1].cell.Stored?
  {
    var x := s.cores[|s.cores| - 1];
    Put(s, |s.cores| - 1, DecRef(x.(cell := Shared.MovedFrom))).(taken := Some(x.cell.v))
  }

  function Apply(c: Config, s: Sys, a: Action): Sys
    requires Enabled(c, s, a) && Safe(c, s, a)
  {
    match a
    case SetOp => Set(s)
    case LoadOp(i) => Load(s, i)
    case CasOp(i) => Cas(s, i)
    case TouchOp(i) => Touch(s, i)
    case StoreOp(i) => Store(s, i)
    case CountOp(i) => Count(s, i)
    case MoveOp(i) => Move(c, s, i)
    case ReleaseOp(i) => Release(s, i)
    case PublishOp(i) => Publish(s, i)
    case TakeOp => Take(s)
  }
}
