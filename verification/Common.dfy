/** What the models share. */
module Common {

  datatype Option<T> = None | Some(value: T)

  /** A coroutine, a thread, a callback or a job. */
  datatype Tid = Tid(id: int)

  /** An executor. */
  datatype Exec = Exec(id: int)

  ghost predicate Distinct<T>(q: seq<T>) {
    forall i, j :: 0 <= i < j < |q| ==> q[i] != q[j]
  }

  function Reversed<T>(q: seq<T>): (r: seq<T>)
    ensures |r| == |q| && forall i :: 0 <= i < |q| ==> r[i] == q[|q| - 1 - i]
  {
    if q == [] then [] else Reversed(q[1..]) + [q[0]]
  }
}
