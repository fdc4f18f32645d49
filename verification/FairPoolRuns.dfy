/** FairThreadPool (src/runtime/fair_thread_pool.cpp): any number of workers and client threads, one step per
    critical section of the pool's mutex, per notification of its condition variable and per dropped job. */
module FairPoolRuns {
  import opened Common
  import opened Census

  const U64: nat := 0x1_0000_0000_0000_0000
  const JOB: nat := 4

  datatype JobPhase =
    | New
    | Queued
    | Running  // worker `holder` calls it
    | Doomed   // client `holder` is going to drop it
    | Done

  /** History: whether the job was ever queued, how often it was called and dropped. */
  datatype Job = Job(at: JobPhase, holder: Tid, queued: bool, calls: nat, drops: nat)

  datatype WorkerPhase =
    | Starts      // before its first critical section
    | Runs        // calls `job`, outside of the mutex
    | Waits       // in _idle.wait
    | Wakes       // woken up, before it has the mutex again
    | NotifiesAll // stopped the pool, before notify_all
    | Exited

  datatype Worker = Worker(at: WorkerPhase, job: Tid)

  datatype ClientPhase =
    | Free
    | NotifiesOne  // in Submit, after the critical section
    | TellsAll     // in a Stop, before notify_all
    | Drops        // drops the jobs of `todo`

  datatype Client = Client(at: ClientPhase, todo: seq<Tid>)

  /** `count`: `_jobs_count`, the number of jobs above two flags.
      History: `moved`, jobs that HardStop took away without counting them down. */
  datatype Sys = Sys(count: nat, queue: seq<Tid>, jobs: map<Tid, Job>, workers: map<Tid, Worker>,
                     clients: map<Tid, Client>, moved: nat)

  ghost predicate Init(s: Sys) {
    && s.count == 0 && s.queue == [] && s.moved == 0
    && |s.jobs| < U64 / JOB
    && (forall j :: j in s.jobs ==> s.jobs[j].at == New && !s.jobs[j].queued && s.jobs[j].calls == s.jobs[j].drops == 0)
    && (forall w :: w in s.workers ==> s.workers[w].at == Starts)
    && (forall t :: t in s.clients ==> s.clients[t] == Client(Free, []))
  }

  // ---------- the packed counter ----------

  predicate WasStop(count: nat) { count % 2 == 1 }

  predicate WantStop(count: nat) { count / 2 % 2 == 1 }

  predicate NoJobs(count: nat) { count / 4 == 0 }

  function SetStop(count: nat): nat { if WasStop(count) then count else count + 1 }

  function SetWant(count: nat): nat { if WantStop(count) then count else count + 2 }

  function AddJob(count: nat): nat { (count + JOB) % U64 }

  function PopJob(count: nat): nat { (count - JOB) % U64 }

  // ---------- steps ----------

  datatype Action =
    // client t
    | SubmitOp(j: Tid) | NotifyOneOp(w: Tid) | SoftStopOp | StopOp | HardStopOp | TellAllOp | DropOp
    // worker t
    | EnterOp | NotifyAllOp | SpuriousOp

  predicate Awake(x: Worker) { x.at == Starts || x.at == Runs || x.at == Wakes }

  predicate IsWaiting(x: Worker) { x.at == Waits }

  ghost predicate Enabled(s: Sys, t: Tid, a: Action) {
    match a
    case SubmitOp(j) => t in s.clients && s.clients[t].at == Free && j in s.jobs && s.jobs[j].at == New
    case NotifyOneOp(w) =>
      && t in s.clients && s.clients[t].at == NotifiesOne
      && (N(s.workers, IsWaiting) > 0 ==> w in s.workers && s.workers[w].at == Waits)
    case SoftStopOp => t in s.clients && s.clients[t].at == Free
    case StopOp => t in s.clients && s.clients[t].at == Free
    case HardStopOp => t in s.clients && s.clients[t].at == Free
    case TellAllOp => t in s.clients && s.clients[t].at == TellsAll
    case DropOp => t in s.clients && s.clients[t].at == Drops
    case EnterOp => t in s.workers && Awake(s.workers[t])
    case NotifyAllOp => t in s.workers && s.workers[t].at == NotifiesAll
    case SpuriousOp => t in s.workers && s.workers[t].at == Waits
  }

  /** The counter neither overflows nor goes below zero, and a job that is called, dropped or counted down is
      in the hands of the thread that does it. */
  ghost predicate Safe(s: Sys, t: Tid, a: Action)
    requires Enabled(s, t, a)
  {
    match a
    case SubmitOp(_) => s.count + JOB < U64
    case EnterOp =>
      && (s.workers[t].at == Runs ==> s.count >= JOB && HandsOver(s, s.workers[t].job, t, Running))
      && (s.queue != [] ==> s.queue[0] in s.jobs && s.jobs[s.queue[0]].at == Queued)
    case DropOp => s.clients[t].todo != [] && HandsOver(s, s.clients[t].todo[0], t, Doomed)
    case _ => true
  }

  ghost predicate HandsOver(s: Sys, j: Tid, t: Tid, p: JobPhase) {
    j in s.jobs && s.jobs[j].at == p && s.jobs[j].holder == t
  }

  function PutJob(s: Sys, j: Tid, x: Job): Sys { s.(jobs := s.jobs[j := x]) }

  function PutWorker(s: Sys, w: Tid, x: Worker): Sys { s.(workers := s.workers[w := x]) }

  function PutClient(s: Sys, t: Tid, x: Client): Sys { s.(clients := s.clients[t := x]) }

  function Submit(s: Sys, t: Tid, j: Tid): Sys
    requires j in s.jobs
  {
    if WasStop(s.count) then PutClient(PutJob(s, j, s.jobs[j].(at := Doomed, holder := t)), t, Client(Drops, [j]))
    else
      PutClient(PutJob(s.(count := AddJob(s.count), queue := s.queue + [j]), j, s.jobs[j].(at := Queued, queued := true)),
                t, Client(NotifiesOne, []))
  }

  function NotifyOne(s: Sys, t: Tid, w: Tid): Sys {
    var s1 := PutClient(s, t, Client(Free, []));
    if w in s.workers && s.workers[w].at == Waits then PutWorker(s1, w, s.workers[w].(at := Wakes)) else s1
  }

  function Stop(s: Sys, t: Tid): Sys {
    PutClient(s.(count := SetStop(s.count)), t, Client(TellsAll, []))
  }

  function SoftStop(s: Sys, t: Tid): Sys {
    if NoJobs(s.count) then Stop(s, t) else s.(count := SetWant(s.count))
  }

  function Doom(jobs: map<Tid, Job>, q: seq<Tid>, t: Tid): map<Tid, Job> {
    map j | j in jobs :: if j in q then jobs[j].(at := Doomed, holder := t) else jobs[j]
  }

  function HardStop(s: Sys, t: Tid): Sys {
    PutClient(s.(count := SetStop(s.count), queue := [], jobs := Doom(s.jobs, s.queue, t), moved := s.moved + |s.queue|),
              t, Client(TellsAll, s.queue))
  }

  function WakeAll(workers: map<Tid, Worker>): map<Tid, Worker> {
    map w | w in workers :: if workers[w].at == Waits then workers[w].(at := Wakes) else workers[w]
  }

  function TellAll(s: Sys, t: Tid): Sys
    requires t in s.clients
  {
    var q := s.clients[t].todo;
    PutClient(s.(workers := WakeAll(s.workers)), t, Client(if q == [] then Free else Drops, q))
  }

  function DropOne(s: Sys, t: Tid): Sys
    requires t in s.clients && s.clients[t].todo != [] && s.clients[t].todo[0] in s.jobs
  {
    var j, rest := s.clients[t].todo[0], s.clients[t].todo[1..];
    var x := s.jobs[j];
    PutClient(PutJob(s, j, x.(at := Done, drops := x.drops + 1)), t, Client(if rest == [] then Free else Drops, rest))
  }

  /** The end of a Call: the job is counted down under the mutex. */
  function Called(s: Sys, w: Tid): Sys
    requires w in s.workers && s.workers[w].job in s.jobs
  {
    var j := s.workers[w].job;
    PutWorker(PutJob(s.(count := PopJob(s.count)), j, s.jobs[j].(at := Done, calls := s.jobs[j].calls + 1)),
              w, s.workers[w].(at := Wakes))
  }

  /** Loop, until the mutex is released again. */
  function Proceed(s: Sys, w: Tid): Sys
    requires w in s.workers && (s.queue != [] ==> s.queue[0] in s.jobs)
  {
    if s.queue != [] then
      var j := s.queue[0];
      PutWorker(PutJob(s.(queue := s.queue[1..]), j, s.jobs[j].(at := Running, holder := w)), w, Worker(Runs, j))
    else if NoJobs(s.count) && WantStop(s.count) then
      PutWorker(s.(count := SetStop(s.count)), w, s.workers[w].(at := NotifiesAll))
    else if WasStop(s.count) then PutWorker(s, w, s.workers[w].(at := Exited))
    else PutWorker(s, w, s.workers[w].(at := Waits))
  }

  function Enter(s: Sys, w: Tid): Sys
    requires w in s.workers && (s.workers[w].at == Runs ==> s.workers[w].job in s.jobs)
    requires s.queue != [] ==> s.queue[0] in s.jobs
  {
    Proceed(if s.workers[w].at == Runs then Called(s, w) else s, w)
  }

  function NotifyAll(s: Sys, w: Tid): Sys
    requires w in s.workers
  {
    PutWorker(s.(workers := WakeAll(s.workers)), w, s.workers[w].(at := Exited))
  }

  function Apply(s: Sys, t: Tid, a: Action): (s': Sys)
    requires Enabled(s, t, a) && Safe(s, t, a)
  {
    match a
    case SubmitOp(j) => Submit(s, t, j)
    case NotifyOneOp(w) => NotifyOne(s, t, w)
    case SoftStopOp => SoftStop(s, t)
    case StopOp => Stop(s, t)
    case HardStopOp => HardStop(s, t)
    case TellAllOp => TellAll(s, t)
    case DropOp => DropOne(s, t)
    case EnterOp => Enter(s, t)
    case NotifyAllOp => NotifyAll(s, t)
    case SpuriousOp => PutWorker(s, t, s.workers[t].(at := Wakes))
  }
}
