/** Any number of jobs submitted to one Strand and the activations of the strand on the executor below,
    interleaved at every access to `_jobs` and to the reference count (src/exe/strand.cpp).

    `stack` is the list behind `_jobs`, in the order of the successful pushes; StrandCode has it on a heap. */
module StrandRuns {
  import opened Common
  import opened Census

  /** `_jobs`, as a pointer: Mark(), nullptr or the job pushed last. */
  datatype Word = Mark | Null | Top(t: Tid)

  datatype JobPhase =
    | Idle
    | Pushes     // in Submit, `expected` was loaded
    | Activates  // pushed over Mark: about to take a reference for the strand
    | Submits    // about to submit the strand to the executor
    | Listed     // pushed
    | ToCall     // taken by activation `holder`
    | ToDrop

  /** History: how often the job was pushed, called and dropped. */
  datatype Job = Job(at: JobPhase, expected: Word, holder: Tid, pushes: nat, calls: nat, drops: nat)

  datatype ActPhase =
    | Pending    // in the queue of the executor
    | Calls      // in Call, with jobs left to call
    | Checks     // called them all, before the load
    | MarkCas    // the load saw nullptr, before the compare_exchange
    | Drops      // in Drop, with jobs left to drop
    | Ends       // about to release its reference
    | Over

  /** Every submission of the strand to its executor is an activation of its own. */
  datatype Act = Act(at: ActPhase, todo: seq<Tid>)

  /** `users`: the references of the strand that belong to its users. */
  datatype Sys = Sys(
    marked: bool, stack: seq<Tid>, refs: int, users: int, jobs: map<Tid, Job>, acts: map<Tid, Act>,
    // history: all pushes, all calls, the jobs of the Call activations, and all batches
    pushed: seq<Tid>, called: seq<Tid>, toCall: seq<Tid>, batches: seq<Batch>)

  datatype Batch = Batch(jobs: seq<Tid>, dropped: bool)

  ghost predicate Init(s: Sys) {
    && s.marked && s.stack == [] && s.refs == s.users >= 1
    && s.pushed == [] && s.called == [] && s.toCall == [] && s.batches == []
    && (forall j :: j in s.jobs ==>
          s.jobs[j].at == Idle && s.jobs[j].pushes == 0 && s.jobs[j].calls == 0 && s.jobs[j].drops == 0)
    && s.acts == map[]
  }

  function Jobs(s: Sys): Word {
    if s.marked then Mark else if s.stack == [] then Null else Top(s.stack[|s.stack| - 1])
  }

  datatype Action =
    | SubmitOp | PushOp(spurious: bool) | IncRefOp | ActivateOp(a: Tid)   // of job t
    | CallOp | CallOneOp | CheckOp | MarkCasOp | DropOp | DropOneOp | EndOp  // of activation t
    | ShareOp | ReleaseOp                                                 // of a user

  predicate Pushing(x: Job) { x.at == Pushes || x.at == Activates || x.at == Submits }

  /** A thread in Submit keeps its own reference to the strand until it returns. */
  ghost predicate Enabled(s: Sys, t: Tid, op: Action) {
    match op
    case SubmitOp => t in s.jobs && s.jobs[t].at == Idle && s.users > N(s.jobs, Pushing)
    case PushOp(_) => t in s.jobs && s.jobs[t].at == Pushes
    case IncRefOp => t in s.jobs && s.jobs[t].at == Activates
    case ActivateOp(a) => t in s.jobs && s.jobs[t].at == Submits && a !in s.acts
    case CallOp => t in s.acts && s.acts[t].at == Pending
    case CallOneOp => t in s.acts && s.acts[t].at == Calls
    case CheckOp => t in s.acts && s.acts[t].at == Checks
    case MarkCasOp => t in s.acts && s.acts[t].at == MarkCas
    case DropOp => t in s.acts && s.acts[t].at == Pending
    case DropOneOp => t in s.acts && s.acts[t].at == Drops
    case EndOp => t in s.acts && s.acts[t].at == Ends
    case ShareOp => s.users >= 1
    case ReleaseOp => s.users > N(s.jobs, Pushing)
  }

  /** What the code relies on without checking: the strand exists, an activation finds a list that is neither
      empty nor Mark, the jobs it follows wait for it, and the last reference goes when the strand is empty. */
  ghost predicate Safe(s: Sys, t: Tid, op: Action)
    requires Enabled(s, t, op)
  {
    && s.refs > 0
    && match op
       case CallOp => !s.marked && s.stack != [] && AllListed(s)
       case DropOp => !s.marked && s.stack != [] && AllListed(s)
       case CallOneOp => s.acts[t].todo != [] && s.acts[t].todo[0] in s.jobs && s.jobs[s.acts[t].todo[0]].at == ToCall
       case DropOneOp => s.acts[t].todo != [] && s.acts[t].todo[0] in s.jobs && s.jobs[s.acts[t].todo[0]].at == ToDrop
       case EndOp => s.refs == 1 ==> s.marked
       case ReleaseOp => s.refs == 1 ==> s.marked
       case _ => true
  }

  ghost predicate AllListed(s: Sys) {
    forall j :: j in s.stack ==> j in s.jobs && s.jobs[j].at == Listed
  }

  // ---------- Submit ----------

  function PutJob(s: Sys, t: Tid, x: Job): Sys { s.(jobs := s.jobs[t := x]) }

  function PutAct(s: Sys, a: Tid, x: Act): Sys { s.(acts := s.acts[a := x]) }

  function Load(s: Sys, t: Tid): Sys
    requires t in s.jobs
  {
    PutJob(s, t, s.jobs[t].(at := Pushes, expected := Jobs(s)))
  }

  /** Pushing over Mark starts the list anew and makes the pusher submit the strand. */
  function Push(s: Sys, t: Tid, spurious: bool): Sys
    requires t in s.jobs
  {
    var x := s.jobs[t];
    if spurious || Jobs(s) != x.expected then Load(s, t)
    else PutJob(s.(marked := false, stack := s.stack + [t], pushed := s.pushed + [t]), t,
                x.(at := if s.marked then Activates else Listed, pushes := x.pushes + 1))
  }

  function IncRef(s: Sys, t: Tid): Sys
    requires t in s.jobs
  {
    PutJob(s.(refs := s.refs + 1), t, s.jobs[t].(at := Submits))
  }

  function Activate(s: Sys, t: Tid, a: Tid): Sys
    requires t in s.jobs
  {
    PutAct(PutJob(s, t, s.jobs[t].(at := Listed)), a, Act(Pending, []))
  }

  // ---------- Call and Drop ----------

  function Taken(jobs: map<Tid, Job>, q: seq<Tid>, p: JobPhase, a: Tid): map<Tid, Job> {
    map t | t in jobs :: if t in q then jobs[t].(at := p, holder := a) else jobs[t]
  }

  /** The exchange with nullptr, and the list turned around. */
  function Call(s: Sys, a: Tid): Sys {
    PutAct(s.(stack := [], jobs := Taken(s.jobs, s.stack, ToCall, a), toCall := s.toCall + s.stack,
              batches := s.batches + [Batch(s.stack, false)]),
           a, Act(Calls, s.stack))
  }

  function CallOne(s: Sys, a: Tid): Sys
    requires a in s.acts && s.acts[a].todo != [] && s.acts[a].todo[0] in s.jobs
  {
    var j, rest := s.acts[a].todo[0], s.acts[a].todo[1..];
    var x := s.jobs[j];
    PutAct(PutJob(s.(called := s.called + [j]), j, x.(at := Idle, calls := x.calls + 1)),
           a, Act(if rest == [] then Checks else Calls, rest))
  }

  /** Nothing came meanwhile: try to put Mark back.  Otherwise the strand is submitted again. */
  function Check(s: Sys, a: Tid): Sys {
    PutAct(s, a, Act(if Jobs(s) == Null then MarkCas else Pending, []))
  }

  function CasToMark(s: Sys, a: Tid): Sys {
    if Jobs(s) == Null then PutAct(s.(marked := true), a, Act(Ends, [])) else PutAct(s, a, Act(Pending, []))
  }

  /** The exchange with Mark; the list is dropped as it is, the last pushed first. */
  function Drop(s: Sys, a: Tid): Sys {
    PutAct(s.(marked := true, stack := [], jobs := Taken(s.jobs, s.stack, ToDrop, a),
              batches := s.batches + [Batch(s.stack, true)]),
           a, Act(Drops, Reversed(s.stack)))
  }

  function DropOne(s: Sys, a: Tid): Sys
    requires a in s.acts && s.acts[a].todo != [] && s.acts[a].todo[0] in s.jobs
  {
    var j, rest := s.acts[a].todo[0], s.acts[a].todo[1..];
    var x := s.jobs[j];
    PutAct(PutJob(s, j, x.(at := Idle, drops := x.drops + 1)),
           a, Act(if rest == [] then Ends else Drops, rest))
  }

  function End(s: Sys, a: Tid): Sys {
    PutAct(s.(refs := s.refs - 1), a, Act(Over, []))
  }

  function Apply(s: Sys, t: Tid, op: Action): (s': Sys)
    requires Enabled(s, t, op) && Safe(s, t, op)
  {
    match op
    case SubmitOp => Load(s, t)
    case PushOp(spurious) => Push(s, t, spurious)
    case IncRefOp => IncRef(s, t)
    case ActivateOp(a) => Activate(s, t, a)
    case CallOp => Call(s, t)
    case CallOneOp => CallOne(s, t)
    case CheckOp => Check(s, t)
    case MarkCasOp => CasToMark(s, t)
    case DropOp => Drop(s, t)
    case DropOneOp => DropOne(s, t)
    case EndOp => End(s, t)
    case ShareOp => s.(users := s.users + 1, refs := s.refs + 1)
    case ReleaseOp => s.(users := s.users - 1, refs := s.refs - 1)
  }
}
