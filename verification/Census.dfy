/** Counting coroutines by the point of the program they have reached.

    Every protocol of this project keeps a map `pc` from coroutines (or threads)
    to phases.  The protocols' counters are proved equal to the number of
    coroutines in certain kinds of phases, so this module says how one step of
    one coroutine changes those numbers. */
module Census {
  import opened Common

  /** The coroutines of `pc` whose phase is of kind `f`. */
  ghost function Of<P(!new)>(pc: map<Tid, P>, f: P -> bool): set<Tid> {
    set t | t in pc && f(pc[t])
  }

  ghost function N<P(!new)>(pc: map<Tid, P>, f: P -> bool): nat {
    |Of(pc, f)|
  }

  function One(b: bool): int { if b then 1 else 0 }

  /** One coroutine moves to phase `q`. */
  lemma Moved<P(!new)>(pc: map<Tid, P>, t: Tid, q: P, f: P -> bool)
    requires t in pc
    ensures N(pc[t := q], f) == N(pc, f) - One(f(pc[t])) + One(f(q))
    ensures N(pc, f) >= One(f(pc[t]))
  {
    var others := Of(pc, f) - {t};
    assert Of(pc, f) == if f(pc[t]) then others + {t} else others;
    assert Of(pc[t := q], f) == if f(q) then others + {t} else others;
  }

  /** What becomes of a set when `t` is in it afterwards, or is not. */
  function Part(s: set<Tid>, t: Tid, before: bool, after: bool): set<Tid> {
    if before == after then s else if after then s + {t} else s - {t}
  }

  lemma OfMoved<P(!new)>(pc: map<Tid, P>, t: Tid, q: P, f: P -> bool)
    requires t in pc
    ensures Of(pc[t := q], f) == Part(Of(pc, f), t, f(pc[t]), f(q))
    ensures t in Of(pc, f) <==> f(pc[t])
  {
  }

  /** One coroutine joins in phase `q`. */
  lemma Joined<P(!new)>(pc: map<Tid, P>, t: Tid, q: P, f: P -> bool)
    requires t !in pc
    ensures N(pc[t := q], f) == N(pc, f) + One(f(q))
  {
    assert Of(pc[t := q], f) == Of(pc, f) + if f(q) then {t} else {};
  }

  /** There is always another name. */
  lemma Unused<P>(pc: map<Tid, P>) returns (t: Tid)
    ensures t !in pc
  {
    var n := Above(pc.Keys);
    t := Tid(n);
  }

  lemma Above(q: set<Tid>) returns (n: int)
    ensures forall t <- q :: t.id < n
    decreases |q|
  {
    if q == {} {
      n := 0;
    } else {
      var t :| t in q;
      var m := Above(q - {t});
      n := if t.id < m then m else t.id + 1;
    }
  }

  /** Coroutines may change without changing their kind. */
  lemma Unmoved<P(!new)>(pc: map<Tid, P>, pc': map<Tid, P>, f: P -> bool)
    requires pc'.Keys == pc.Keys && forall t :: t in pc ==> f(pc'[t]) == f(pc[t])
    ensures N(pc', f) == N(pc, f)
  {
    assert Of(pc', f) == Of(pc, f);
  }

  lemma Nobody<P(!new)>(pc: map<Tid, P>, f: P -> bool)
    requires forall t :: t in pc ==> !f(pc[t])
    ensures N(pc, f) == 0
  {
    assert Of(pc, f) == {};
  }

  lemma Present<P(!new)>(pc: map<Tid, P>, f: P -> bool, t: Tid)
    requires t in pc && f(pc[t])
    ensures N(pc, f) >= 1
  {
    assert t in Of(pc, f);
  }

  /** Two coroutines of one kind are counted twice. */
  lemma TwoPresent<P(!new)>(pc: map<Tid, P>, f: P -> bool, t: Tid, u: Tid)
    requires t in pc && u in pc && t != u && f(pc[t]) && f(pc[u])
    ensures N(pc, f) >= 2
  {
    SubsetSize({t, u}, Of(pc, f));
  }

  lemma Witness<P(!new)>(pc: map<Tid, P>, f: P -> bool) returns (t: Tid)
    requires N(pc, f) >= 1
    ensures t in pc && f(pc[t])
  {
    assert Of(pc, f) != {};
    t :| t in Of(pc, f);
  }

  lemma SubsetSize<T>(a: set<T>, b: set<T>)
    requires a <= b
    ensures |a| <= |b|
  {
    assert b == a + (b - a);
  }

  ghost function Elements<T(!new)>(q: seq<T>): set<T> {
    set x | x in q
  }

  lemma {:induction false} DistinctSize<T(!new)>(q: seq<T>)
    requires Distinct(q)
    ensures |Elements(q)| == |q|
  {
    if q != [] {
      DistinctSize(q[1..]);
      assert Elements(q) == {q[0]} + Elements(q[1..]);
    }
  }

  function Total(q: seq<nat>): nat {
    if q == [] then 0 else q[0] + Total(q[1..])
  }

  lemma {:induction false} TotalSmaller(q: seq<nat>, q': seq<nat>)
    requires |q'| == |q| && forall i :: 0 <= i < |q| ==> q'[i] <= q[i]
    ensures Total(q') <= Total(q)
    ensures (exists i :: 0 <= i < |q| && q'[i] < q[i]) ==> Total(q') < Total(q)
  {
    if q != [] {
      TotalSmaller(q[1..], q'[1..]);
      if k :| 0 <= k < |q| && q'[k] < q[k] {
        if k > 0 { assert q'[1..][k - 1] < q[1..][k - 1]; }
      }
    }
  }

  lemma {:induction false} TotalBound(q: seq<nat>, m: nat)
    requires forall i :: 0 <= i < |q| ==> q[i] <= m
    ensures Total(q) <= m * |q|
  {
    if q != [] { TotalBound(q[1..], m); }
  }

  ghost predicate Exclusive<P(!new)>(f: P -> bool, g: P -> bool) {
    forall p :: !(f(p) && g(p))
  }

  lemma ThreeBound<P(!new)>(pc: map<Tid, P>, f: P -> bool, g: P -> bool, h: P -> bool)
    requires Exclusive(f, g) && Exclusive(f, h) && Exclusive(g, h)
    ensures N(pc, f) + N(pc, g) + N(pc, h) <= |pc|
  {
    assert Of(pc, f) !! Of(pc, g) && (Of(pc, f) + Of(pc, g)) !! Of(pc, h);
    assert |Of(pc, f) + Of(pc, g) + Of(pc, h)| == N(pc, f) + N(pc, g) + N(pc, h);
    SubsetSize(Of(pc, f) + Of(pc, g) + Of(pc, h), pc.Keys);
  }

  lemma ThreeSum<P(!new)>(pc: map<Tid, P>, f: P -> bool, g: P -> bool, h: P -> bool, u: P -> bool)
    requires Exclusive(f, g) && Exclusive(f, h) && Exclusive(g, h)
    requires forall p :: u(p) <==> f(p) || g(p) || h(p)
    ensures N(pc, u) == N(pc, f) + N(pc, g) + N(pc, h)
  {
    assert Of(pc, f) !! Of(pc, g) && (Of(pc, f) + Of(pc, g)) !! Of(pc, h);
    assert Of(pc, u) == Of(pc, f) + Of(pc, g) + Of(pc, h);
  }
}
