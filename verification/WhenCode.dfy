/** The strategies of WhenAny and WhenAll (include/yaclib/async/when/any.hpp,
    include/yaclib/async/when/all.hpp) and the registration loop of a combinator
    (include/yaclib/async/when/when.hpp) as code that assigns its fields and fills and walks the vector of its
    inputs.  An input is ready when it is registered or completes later, in any order, but nobody interferes
    within one Consume.  WhenRuns interleaves the same accesses with everybody else's. */
module WhenCode {
  import opened Common
  import opened Census
  import opened WhenRuns

  /** The core of an input future; the combinator owns one reference. */
  class InputCore {
    const result: Res
    var refs: int

    constructor (result: Res, refs: int)
      ensures this.result == result && this.refs == refs
    {
      this.result, this.refs := result, refs;
    }

    method DecRef()
      modifies this
      ensures refs == old(refs) - 1
    {
      refs := refs - 1;
    }

    method Retire() returns (r: Res)
      modifies this
      ensures r == result && refs == old(refs) - 1
    {
      r := result;
      DecRef();
    }
  }

  function ResultsOf(inputs: seq<InputCore>): (r: seq<Res>)
    ensures |r| == |inputs| && forall i :: 0 <= i < |r| ==> r[i] == inputs[i].result
  {
    seq(|inputs|, i requires 0 <= i < |inputs| => inputs[i].result)
  }

  /** The first result from `i` on that is Ok, or not, or none. */
  function FirstFrom(results: seq<Res>, i: nat, ok: bool): (k: nat)
    requires i <= |results|
    ensures i <= k <= |results|
    ensures k < |results| ==> results[k].Ok? == ok
    ensures forall j :: i <= j < k ==> results[j].Ok? != ok
    decreases |results| - i
  {
    if i < |results| && results[i].Ok? != ok then FirstFrom(results, i + 1, ok) else i
  }

  lemma FirstSnoc(line: seq<Res>, r: Res, ok: bool)
    ensures FirstFrom(line + [r], 0, ok)
         == if FirstFrom(line, 0, ok) < |line| then FirstFrom(line, 0, ok) else |line| + if r.Ok? == ok then 0 else 1
  {
    var line' := line + [r];
    var k, k' := FirstFrom(line, 0, ok), FirstFrom(line', 0, ok);
    hide FirstFrom;
    assert line'[|line|] == r;
    if k' < |line| { assert line'[k'] == line[k']; }
    if k < |line| { assert line'[k] == line[k]; }
  }

  /** The answer, from the results in the order of the inputs and in the order in which they were consumed. */
  function Answer(st: Strategy, results: seq<Res>, line: seq<Res>): Outcome
    requires line != []
  {
    var ok, err := FirstFrom(line, 0, true), FirstFrom(line, 0, false);
    match st
    case AnyNone => Single(line[0])
    case AnyFirstFail => Single(line[if ok < |line| then ok else 0])
    case AnyLastFail => Single(line[if ok < |line| then ok else |line| - 1])
    case AllNone => AllOf(results)
    case AllFirstFail => if err < |line| then Single(line[err]) else AllOf(results)
  }

  class Combinator {
    const strategy: Strategy
    const cores: array<InputCore?>
    var count: nat
    var done: bool
    var value: bool
    var error: bool
    var word: nat
    var saved: Option<Res>
    var promise: Option<Outcome>
    var destroyed: nat

    /** Where a combinator of `n` inputs is after it consumed the results `line`. */
    ghost predicate Consumed(line: seq<Res>, n: nat)
      reads this
    {
      var i, ok, err := |line|, FirstFrom(line, 0, true), FirstFrom(line, 0, false);
      && i <= n && count == n - i && destroyed == 0
      && match strategy
         case AnyNone => done == (i > 0) && promise == if i > 0 then Some(Single(line[0])) else None
         case AnyFirstFail =>
           && value == (ok < i) && promise == (if ok < i then Some(Single(line[ok])) else None)
           && error == (err == 0 && i > 0) && saved == if err == 0 && i > 0 then Some(line[0]) else None
         case AnyLastFail =>
           && word == (if ok < i then 1 else 2 * (n - i))
           && promise == (if ok < i then Some(Single(line[ok]))
                          else if i == n > 0 then Some(Single(line[i - 1])) else None)
         case AllNone => promise == None
         case AllFirstFail => done == (err < i) && promise == if err < i then Some(Single(line[err])) else None
    }

    /** The first `i` inputs are in their slots. */
    ghost predicate Filled(inputs: seq<InputCore>, i: nat)
      reads cores
      requires i <= |inputs|
    {
      Owned(strategy) ==> cores.Length == |inputs| && forall j :: 0 <= j < i ==> cores[j] == inputs[j]
    }

    constructor (strategy: Strategy, count: nat)
      ensures Consumed([], count) && this.strategy == strategy
      ensures fresh(cores) && cores.Length == if Owned(strategy) then count else 0
    {
      this.strategy, this.count := strategy, count;
      cores := new InputCore?[if Owned(strategy) then count else 0](_ => null);
      done, value, error, word, saved, promise := false, false, false, 2 * count, None, None;
      destroyed := 0;
    }

    method Register(i: nat, core: InputCore)
      requires i < cores.Length
      modifies cores
      ensures cores[i] == core && forall j :: 0 <= j < cores.Length && j != i ==> cores[j] == old(cores[j])
    {
      cores[i] := core;
    }

    /** The strategy's Consume; a core that the strategy does not keep is retired first. */
    method Consume(core: InputCore, ghost line: seq<Res>, ghost n: nat)
      requires |line| < n && 2 * n < U64 && Consumed(line, n)
      modifies this`done, this`value, this`error, this`word, this`saved, this`promise, this`count, core
      ensures Consumed(line + [core.result], n)
      ensures core.refs == old(core.refs) - if Owned(strategy) then 0 else 1
    {
      FirstSnoc(line, core.result, true);
      FirstSnoc(line, core.result, false);
      hide FirstFrom;
      var r := core.result;
      match strategy {
        case AnyNone =>
          r := core.Retire();
          if !done {
            done := true;
            promise := Some(Single(r));
          }
        case AnyFirstFail =>
          r := core.Retire();
          if r.Ok? {
            if !value {
              value := true;
              promise := Some(Single(r));
            }
          } else if !value && !error {
            error := true;
            saved := Some(r);
          }
        case AnyLastFail =>
          r := core.Retire();
          if !Odd(word) {
            if r.Ok? {
              word := 1;
              promise := Some(Single(r));
            } else {
              var before := word;
              word := (word - 2) % U64;
              if before == 2 {
                promise := Some(Single(r));
              }
            }
          }
        case AllNone =>
        case AllFirstFail =>
          if r.Err? && !done {
            done := true;
            promise := Some(Single(r));
          }
      }
      count := count - 1;
    }

    /** The loop over `_cores`: the results in the order of the slots; every core is released once. */
    method RetireAll(ghost inputs: seq<InputCore>) returns (output: seq<Res>)
      requires Owned(strategy) && Distinct(inputs) && Filled(inputs, |inputs|)
      modifies inputs
      ensures output == ResultsOf(inputs)
      ensures forall x <- inputs :: x.refs == old(x.refs) - 1
    {
      output := [];
      var i := 0;
      while i < cores.Length
        invariant 0 <= i <= cores.Length && output == ResultsOf(inputs)[..i]
        invariant forall j :: 0 <= j < |inputs| ==> inputs[j].refs == old(inputs[j].refs) - if j < i then 1 else 0
      {
        var r := cores[i].Retire();
        output := output + [r];
        i := i + 1;
      }
    }

    /** The destructor, when the last input has released the combinator. */
    method Destroy(ghost inputs: seq<InputCore>, ghost line: seq<Res>)
      requires line != [] && Consumed(line, |line|) && Distinct(inputs) && Filled(inputs, |inputs|)
      modifies this`promise, this`destroyed, if Owned(strategy) then inputs else []
      ensures promise == Some(Answer(strategy, ResultsOf(inputs), line)) && destroyed == 1
      ensures Owned(strategy) ==> forall x <- inputs :: x.refs == old(x.refs) - 1
    {
      destroyed := destroyed + 1;
      match strategy {
        case AnyFirstFail =>
          if promise == None {
            promise := Some(Single(saved.value));
          }
        case AllNone =>
          var output := RetireAll(inputs);
          promise := Some(AllOf(output));
        case AllFirstFail =>
          var output := RetireAll(inputs);
          if promise == None {
            promise := Some(AllOf(output));
          }
        case AnyNone =>
        case AnyLastFail =>
      }
    }
  }

  /** `late` are the inputs that are not ready when they are registered, in the order in which they complete. */
  ghost predicate Completion(ready: seq<bool>, late: seq<nat>) {
    Distinct(late) && (forall i: nat :: i in late <==> i < |ready| && !ready[i])
  }

  /** The inputs in the order in which they are consumed: first those that are ready, as they are registered. */
  ghost predicate Consumption(ready: seq<bool>, late: seq<nat>, order: seq<nat>) {
    var k := |order| - |late|;
    && 0 <= k && order[k..] == late
    && (forall i :: 0 <= i < k ==> order[i] < |ready| && ready[order[i]])
    && (forall i, j :: 0 <= i < j < k ==> order[i] < order[j])
    && (forall i: nat :: i in order <==> i < |ready|)
  }

  lemma EverybodyOnce(order: seq<nat>, n: nat)
    requires Distinct(order) && forall i: nat :: i in order <==> i < n
    ensures |order| == n
  {
    var all := seq(n, i => i);
    DistinctSize(order);
    DistinctSize(all);
    forall i: nat ensures i in Elements(order) <==> i in Elements(all) {
      if i < n { assert all[i] == i; }
    }
    forall i <- Elements(all) ensures i in Elements(order) { assert i >= 0; }
    assert Elements(order) == Elements(all);
  }

  /** The results in the order in which they are consumed. */
  ghost function Line(inputs: seq<InputCore>, order: seq<nat>): (line: seq<Res>)
    requires forall k :: 0 <= k < |order| ==> order[k] < |inputs|
    ensures |line| == |order| && forall k :: 0 <= k < |line| ==> line[k] == inputs[order[k]].result
  {
    seq(|order|, k requires 0 <= k < |order| => inputs[order[k]].result)
  }

  /** Some inputs were consumed. */
  ghost predicate Running(combinator: Combinator, inputs: seq<InputCore>, order: seq<nat>)
    reads combinator, combinator.cores
  {
    && (forall k :: 0 <= k < |order| ==> order[k] < |inputs|)
    && Distinct(order)
    && combinator.Consumed(Line(inputs, order), |inputs|)
  }

  twostate predicate Released(st: Strategy, inputs: seq<InputCore>, order: seq<nat>)
    reads inputs
  {
    forall j :: 0 <= j < |inputs| ==>
      inputs[j].refs == old(inputs[j].refs) - if !Owned(st) && j in order then 1 else 0
  }

  /** Registration went through the first `i` inputs. */
  ghost predicate Registered(combinator: Combinator, inputs: seq<InputCore>, ready: seq<bool>, i: nat, order: seq<nat>)
    reads combinator, combinator.cores
    requires i <= |inputs| == |ready|
  {
    && combinator.Filled(inputs, i) && Running(combinator, inputs, order)
    && combinator.cores.Length == (if Owned(combinator.strategy) then |inputs| else 0)
    && (forall j: nat :: j in order <==> j < i && ready[j])
    && (forall j, k :: 0 <= j < k < |order| ==> order[j] < order[k])
  }

  /** SetCore: input `i` is registered, and consumed if it is ready. */
  method RegisterNext(combinator: Combinator, inputs: seq<InputCore>, ready: seq<bool>, i: nat, ghost order: seq<nat>)
    returns (ghost order': seq<nat>)
    requires 2 * |inputs| < U64 && Distinct(inputs) && i < |inputs| == |ready|
    requires Registered(combinator, inputs, ready, i, order)
    modifies combinator, combinator.cores, inputs[i]
    ensures Registered(combinator, inputs, ready, i + 1, order')
    ensures order' == order + if ready[i] then [i] else []
    ensures inputs[i].refs == old(inputs[i].refs) - if ready[i] && !Owned(combinator.strategy) then 1 else 0
  {
    hide Combinator.Consumed;
    order' := order;
    forall k | 0 <= k < |order| ensures order[k] < i { assert order[k] in order; }
    if Owned(combinator.strategy) {
      combinator.Register(i, inputs[i]);
    }
    if ready[i] {
      order' := ConsumeNext(combinator, inputs, order, i);
      assert order'[|order|] == i;
    }
    forall j: nat ensures j in order' <==> j < i + 1 && ready[j] {
      assert j in order' <==> j in order || (ready[i] && j == i);
    }
  }

  /** Set: the loop that registers every input. */
  method RegisterAll(combinator: Combinator, inputs: seq<InputCore>, ready: seq<bool>) returns (ghost order: seq<nat>)
    requires 2 * |inputs| < U64 && Distinct(inputs) && |ready| == |inputs|
    requires Registered(combinator, inputs, ready, 0, [])
    modifies combinator, combinator.cores, inputs
    ensures Registered(combinator, inputs, ready, |inputs|, order) && Released(combinator.strategy, inputs, order)
  {
    hide Registered, Running;
    order := [];
    var i := 0;
    while i < |inputs|
      invariant 0 <= i <= |inputs| && Registered(combinator, inputs, ready, i, order)
      invariant Released(combinator.strategy, inputs, order)
      invariant forall j :: i <= j < |inputs| ==> j !in order
    {
      order := RegisterNext(combinator, inputs, ready, i, order);
      i := i + 1;
    }
  }

  /** Input `i`, ready at last, is consumed. */
  method ConsumeNext(combinator: Combinator, inputs: seq<InputCore>, ghost order: seq<nat>, i: nat)
    returns (ghost order': seq<nat>)
    requires 2 * |inputs| < U64 && Distinct(inputs) && i < |inputs|
    requires Running(combinator, inputs, order) && i !in order
    modifies combinator, inputs[i]
    ensures order' == order + [i] && Running(combinator, inputs, order')
    ensures inputs[i].refs == old(inputs[i].refs) - if Owned(combinator.strategy) then 0 else 1
  {
    order' := order + [i];
    DistinctBound(order', |inputs|);
    ghost var line := Line(inputs, order);
    combinator.Consume(inputs[i], line, |inputs|);
    assert Line(inputs, order') == line + [inputs[i].result];
  }

  lemma DistinctBound(order: seq<nat>, n: nat)
    requires Distinct(order) && forall k :: 0 <= k < |order| ==> order[k] < n
    ensures |order| <= n
  {
    var all := seq(n, i => i);
    DistinctSize(order);
    DistinctSize(all);
    forall x <- Elements(order) ensures x in Elements(all) { assert all[x] == x; }
    SubsetSize(Elements(order), Elements(all));
  }

  /** The other inputs complete, in the order of `late`. */
  method CompleteAll(combinator: Combinator, inputs: seq<InputCore>, late: seq<nat>, ghost first: seq<nat>)
    returns (ghost order: seq<nat>)
    requires 2 * |inputs| < U64 && Distinct(inputs) && Running(combinator, inputs, first)
    requires Distinct(late) && forall i <- late :: i < |inputs| && i !in first
    modifies combinator, inputs
    ensures order == first + late && Running(combinator, inputs, order)
    ensures forall j :: 0 <= j < |inputs| ==>
              inputs[j].refs == old(inputs[j].refs) - if !Owned(combinator.strategy) && j in late then 1 else 0
  {
    hide Running;
    order := first;
    var l := 0;
    while l < |late|
      invariant 0 <= l <= |late| && order == first + late[..l] && Running(combinator, inputs, order)
      invariant forall j :: 0 <= j < |inputs| ==>
                  inputs[j].refs == old(inputs[j].refs) - if !Owned(combinator.strategy) && j in late[..l] then 1 else 0
    {
      assert late[l] in late && late[l] !in late[..l] && late[..l + 1] == late[..l] + [late[l]];
      order := ConsumeNext(combinator, inputs, order, late[l]);
      l := l + 1;
    }
    assert late[..l] == late;
  }

  lemma Consumed(ready: seq<bool>, late: seq<nat>, first: seq<nat>)
    requires Completion(ready, late) && forall i: nat :: i in first <==> i < |ready| && ready[i]
    requires forall i, j :: 0 <= i < j < |first| ==> first[i] < first[j]
    ensures Consumption(ready, late, first + late)
    ensures Distinct(first + late) ==> |first + late| == |ready|
  {
    var order := first + late;
    forall i: nat ensures i in order <==> i < |ready| { assert i in order <==> i in first || i in late; }
    forall i | 0 <= i < |first| ensures order[i] < |ready| && ready[order[i]] { assert order[i] in first; }
    if Distinct(order) { EverybodyOnce(order, |ready|); }
  }

  /** When: every input is registered in turn, and consumed at once if it is ready; the others are consumed when
      they complete, and the last of all destroys the combinator.  The answer is the strategy's, and every input
      is released once.  Without inputs there is no combined future. */
  method When(strategy: Strategy, inputs: seq<InputCore>, ready: seq<bool>, late: seq<nat>)
    returns (answer: Option<Outcome>, ghost order: seq<nat>)
    requires 2 * |inputs| < U64 && Distinct(inputs) && |ready| == |inputs| && Completion(ready, late)
    modifies inputs
    ensures Consumption(ready, late, order) && |order| == |inputs| && forall k :: 0 <= k < |order| ==> order[k] < |inputs|
    ensures answer == if inputs == [] then None else Some(Answer(strategy, ResultsOf(inputs), Line(inputs, order)))
    ensures forall x <- inputs :: x.refs == old(x.refs) - 1
  {
    if inputs == [] {
      Consumed(ready, late, []);
      assert [] + late == late;
      return None, late;
    }
    var combinator := new Combinator(strategy, |inputs|);
    assert Line(inputs, []) == [];
    ghost var first := RegisterAll(combinator, inputs, ready);
    Consumed(ready, late, first);
    order := CompleteAll(combinator, inputs, late, first);
    forall j | 0 <= j < |inputs| ensures inputs[j].refs == old(inputs[j].refs) - if Owned(strategy) then 0 else 1 {
      assert j in first <==> j !in late;
    }
    hide Consumption;
    combinator.Destroy(inputs, Line(inputs, order));
    answer := combinator.promise;
  }
}
