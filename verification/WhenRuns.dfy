/** One combinator over any number of input futures: the registration loop
    (include/yaclib/async/when/when.hpp) and the strategies of WhenAny and WhenAll
    (include/yaclib/async/when/any.hpp, include/yaclib/async/when/all.hpp), interleaved with the producers at
    every access to an input's word, to the strategy's atomics and to the combinator's reference count. */
module WhenRuns {
  import opened Common
  import opened Census

  datatype Res = Ok(value: int) | Err(error: int)

  datatype Strategy = AnyNone | AnyFirstFail | AnyLastFail | AllNone | AllFirstFail

  /** `results`: what the input futures are going to be set to. */
  datatype Config = Config(strategy: Strategy, inputs: seq<Tid>, results: map<Tid, Res>)

  const U64: nat := 0x1_0000_0000_0000_0000

  datatype Phase =
    | Waiting   // not registered yet
    | RegCas    // SetCallback loaded kEmpty, before its compare_exchange
    | Armed     // the combinator is its callback
    | Enters    // in Consume, before the load
    | Decides   // the load did not say "done": about to exchange, fetch_or or fetch_sub
    | Sets      // won: about to set the promise
    | Stores    // won: about to store the error (Any<FirstFail>)
    | Leaves    // about to release its reference to the combinator
    | Destroys  // that was the last one: about to destroy it
    | Out

  /** `ready`: the input has its result; `released`: how often its core was released. */
  datatype Input = Input(at: Phase, ready: bool, released: nat)

  /** What the promise of the combined future is set to. */
  datatype Outcome = Single(res: Res) | AllOf(all: seq<Res>)

  /** The strategy's atomics: `done`, `_done` of Any<None> and All<FirstFail>; `value`, `error`, the bits of
      Any<FirstFail>; `word`, `_state` of Any<LastFail>.
      History: `line`, the inputs in the order of their decisions. */
  datatype Marks = Marks(done: bool, value: bool, error: bool, word: nat, line: seq<Tid>)

  /** `pos`: the next input to register; `count`: references to the combinator; `cores`: the vector `_cores` of
      the strategies that own their inputs; `saved`: the stored error of Any<FirstFail>. */
  datatype Sys = Sys(pos: nat, count: int, destroyed: bool, input: map<Tid, Input>,
                     cores: seq<Option<Tid>>, m: Marks, saved: Option<Res>, promise: Option<Outcome>)

  ghost predicate ConfigOk(c: Config) {
    && c.inputs != [] && Distinct(c.inputs) && 2 * |c.inputs| < U64
    && c.results.Keys == Elements(c.inputs)
  }

  ghost predicate Init(c: Config, s: Sys) {
    && ConfigOk(c)
    && s.input.Keys == c.results.Keys
    && (forall t :: t in s.input ==> s.input[t].at == Waiting && s.input[t].released == 0)
    && s.pos == 0 && s.count == |c.inputs| && !s.destroyed
    && s.cores == seq(|c.inputs|, _ => None)
    && s.m == Marks(false, false, false, 2 * |c.inputs|, []) && s.saved == None && s.promise == None
  }

  ghost predicate Shape(c: Config, s: Sys) {
    && s.input.Keys == c.results.Keys == Elements(c.inputs)
    && |s.cores| == |c.inputs|
  }

  datatype Action =
    | RegisterOp                       // the registering thread, input `pos`
    | PublishOp | LoadOp | DecideOp | SetOp | StoreOp | LeaveOp | DestroyOp  // input t

  ghost predicate Is(s: Sys, t: Tid, p: Phase) { t in s.input && s.input[t].at == p }

  ghost predicate Enabled(c: Config, s: Sys, t: Tid, a: Action) {
    && Shape(c, s)
    && match a
       case RegisterOp => s.pos < |c.inputs| && t == c.inputs[s.pos] && t in s.input
       case PublishOp => t in s.input && !s.input[t].ready
       case LoadOp => Is(s, t, Enters)
       case DecideOp => Is(s, t, Decides)
       case SetOp => Is(s, t, Sets)
       case StoreOp => Is(s, t, Stores)
       case LeaveOp => Is(s, t, Leaves)
       case DestroyOp => Is(s, t, Destroys)
  }

  /** The destructor walks `_cores`: every slot points to an input whose result is there. */
  ghost predicate SlotsReady(c: Config, s: Sys) {
    forall i :: 0 <= i < |s.cores| ==> SlotReady(c, s, s.cores[i])
  }

  ghost predicate SlotReady(c: Config, s: Sys, slot: Option<Tid>) {
    slot.Some? && slot.value in s.input && slot.value in c.results && s.input[slot.value].ready
  }

  /** All<FirstFail> takes the values out of all results if its promise is still there. */
  ghost predicate SlotsOk(c: Config, s: Sys)
    requires SlotsReady(c, s)
  {
    forall i :: 0 <= i < |s.cores| ==> SlotReady(c, s, s.cores[i]) && c.results[s.cores[i].value].Ok?
  }

  /** The combinator exists when it is touched, the promise is set once, a reserved error was stored when the
      destructor needs it, an input's result is there when it is read. */
  ghost predicate Safe(c: Config, s: Sys, t: Tid, a: Action)
    requires Enabled(c, s, t, a)
  {
    && !s.destroyed
    && match a
       case PublishOp => true
       case RegisterOp => s.count > 0
       case SetOp => s.count > 0 && s.promise == None
       case StoreOp => s.count > 0 && s.saved == None
       case DestroyOp =>
         && s.count == 0 && (forall u :: u in s.input ==> s.input[u].ready)
         && (c.strategy == AnyNone || c.strategy == AnyLastFail ==> s.promise != None)
         && (c.strategy == AnyFirstFail && s.promise == None ==> s.saved != None)
         && (c.strategy == AllNone ==> s.promise == None)
         && (Owned(c.strategy) ==> SlotsReady(c, s))
         && (c.strategy == AllFirstFail && s.promise == None ==> SlotsOk(c, s))
       case _ => s.count > 0 && s.input[t].ready
  }

  // ---------- the steps ----------

  function Put(s: Sys, t: Tid, x: Input): Sys { s.(input := s.input[t := x]) }

  function Go(s: Sys, t: Tid, p: Phase): Sys
    requires t in s.input
  {
    Put(s, t, s.input[t].(at := p))
  }

  /** The strategy's Register puts the input into its slot before SetCallback. */
  function Slotted(c: Config, s: Sys, t: Tid): seq<Option<Tid>>
    requires t in s.input && s.pos < |s.cores|
  {
    if Owned(c.strategy) && s.input[t].at == Waiting then s.cores[s.pos := Some(t)] else s.cores
  }

  /** Register and SetCallback of input `pos`; when it fails the registering thread consumes the input itself. */
  function Register(c: Config, s: Sys, t: Tid): Sys
    requires t in s.input && s.pos < |s.cores|
  {
    var x, cores := s.input[t], Slotted(c, s, t);
    if x.ready then Go(s.(pos := s.pos + 1, cores := cores), t, Enters)
    else if x.at == RegCas then Go(s.(pos := s.pos + 1, cores := cores), t, Armed)
    else Go(s.(cores := cores), t, RegCas)
  }

  /** The input's producer: SetResult. */
  function Publish(s: Sys, t: Tid): Sys
    requires t in s.input
  {
    var x := s.input[t];
    Put(s, t, x.(ready := true, at := if x.at == Armed then Enters else x.at))
  }

  predicate Owned(st: Strategy) { st == AllNone || st == AllFirstFail }

  predicate Odd(word: nat) { word % 2 == 1 }

  /** Consume, up to the load: nothing to do, or nothing any more. */
  function Skips(c: Config, m: Marks, r: Res): bool {
    match c.strategy
    case AnyNone => m.done
    case AnyFirstFail => if r.Ok? then m.value else m.value || m.error
    case AnyLastFail => Odd(m.word)
    case AllNone => true
    case AllFirstFail => r.Ok? || m.done
  }

  /** A managed input is released by Retire before its result is looked at. */
  function Load(c: Config, s: Sys, t: Tid): Sys
    requires t in s.input && t in c.results
  {
    var x := s.input[t];
    Put(s, t, x.(at := if Skips(c, s.m, c.results[t]) then Leaves else Decides,
                 released := if Owned(c.strategy) then x.released else x.released + 1))
  }

  /** The exchange, fetch_or or fetch_sub by an input with result `r`, and what the input does next. */
  function Decision(c: Config, m: Marks, r: Res): (Marks, Phase) {
    match c.strategy
    case AnyFirstFail =>
      if r.Ok? then (m.(value := true), if m.value then Leaves else Sets)
      else (m.(error := true), if m.error then Leaves else Stores)
    case AnyLastFail =>
      if r.Ok? then (m.(word := 1), if Odd(m.word) then Leaves else Sets)
      else (m.(word := (m.word - 2) % U64), if m.word == 2 then Sets else Leaves)
    case _ => (m.(done := true), if m.done then Leaves else Sets)
  }

  function Decide(c: Config, s: Sys, t: Tid): Sys
    requires t in s.input && t in c.results
  {
    var (m, p) := Decision(c, s.m, c.results[t]);
    Go(s.(m := m.(line := s.m.line + [t])), t, p)
  }

  function SetPromise(c: Config, s: Sys, t: Tid): Sys
    requires t in s.input && t in c.results
  {
    Go(s.(promise := Some(Single(c.results[t]))), t, Leaves)
  }

  function StoreError(c: Config, s: Sys, t: Tid): Sys
    requires t in s.input && t in c.results
  {
    Go(s.(saved := Some(c.results[t])), t, Leaves)
  }

  function Leave(s: Sys, t: Tid): Sys
    requires t in s.input
  {
    Go(s.(count := s.count - 1), t, if s.count == 1 then Destroys else Out)
  }

  /** The loop of the destructor over `_cores`: the results in the order of the slots. */
  function Output(results: map<Tid, Res>, cores: seq<Option<Tid>>): seq<Res>
    requires forall i :: 0 <= i < |cores| ==> cores[i].Some? && cores[i].value in results
  {
    if cores == [] then [] else
      var last := |cores| - 1;
      Output(results, cores[..last]) + [results[cores[last].value]]
  }

  /** The same loop, as far as it releases the cores. */
  function ReleaseSlots(input: map<Tid, Input>, cores: seq<Option<Tid>>): (r: map<Tid, Input>)
    requires forall i :: 0 <= i < |cores| ==> cores[i].Some? && cores[i].value in input
    ensures r.Keys == input.Keys
  {
    if cores == [] then input else
      var last := |cores| - 1;
      var r, t := ReleaseSlots(input, cores[..last]), cores[last].value;
      r[t := r[t].(released := r[t].released + 1)]
  }

  /** The destructor of the strategy. */
  ghost function Destroy(c: Config, s: Sys, t: Tid): Sys
    requires Shape(c, s) && t in s.input && (Owned(c.strategy) ==> SlotsReady(c, s))
  {
    var s1 := Go(s.(destroyed := true), t, Out);
    match c.strategy
    case AnyFirstFail => if s.promise == None && s.saved.Some? then s1.(promise := Some(Single(s.saved.value))) else s1
    case AllNone =>
      s1.(promise := Some(AllOf(SlotOutput(c, s))), input := SlotRelease(c, s, s1.input))
    case AllFirstFail =>
      s1.(promise := if s.promise == None then Some(AllOf(SlotOutput(c, s))) else s.promise,
          input := SlotRelease(c, s, s1.input))
    case _ => s1
  }

  ghost function SlotOutput(c: Config, s: Sys): seq<Res>
    requires SlotsReady(c, s)
  {
    assert forall i :: 0 <= i < |s.cores| ==> SlotReady(c, s, s.cores[i]);
    Output(c.results, s.cores)
  }

  ghost function SlotRelease(c: Config, s: Sys, input: map<Tid, Input>): map<Tid, Input>
    requires SlotsReady(c, s) && input.Keys == s.input.Keys
  {
    assert forall i :: 0 <= i < |s.cores| ==> SlotReady(c, s, s.cores[i]);
    ReleaseSlots(input, s.cores)
  }

  ghost function Apply(c: Config, s: Sys, t: Tid, a: Action): (s': Sys)
    requires Enabled(c, s, t, a) && Safe(c, s, t, a)
  {
    match a
    case RegisterOp => Register(c, s, t)
    case PublishOp => Publish(s, t)
    case LoadOp => Load(c, s, t)
    case DecideOp => Decide(c, s, t)
    case SetOp => SetPromise(c, s, t)
    case StoreOp => StoreError(c, s, t)
    case LeaveOp => Leave(s, t)
    case DestroyOp => Destroy(c, s, t)
  }
}
