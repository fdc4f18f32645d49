/** What the operations of FairThreadPool do when no other thread takes a step meanwhile: the contracts of
    FairPoolCode, for the machine. */
module FairPoolAlone {
  import opened Common
  import opened Census
  import opened FairPoolRuns
  import opened FairPoolProofs

  // ---------- the specification ----------

  datatype View = View(count: nat, queue: seq<Tid>)

  function Submitted(v: View, j: Tid): View {
    if WasStop(v.count) then v else View(AddJob(v.count), v.queue + [j])
  }

  function HardStopped(v: View): View { View(SetStop(v.count), []) }

  /** Nothing is left but the flags; a stop that was waiting for the jobs has come. */
  function Worked(v: View): View {
    var flags := v.count % JOB;
    View(if WantStop(flags) then SetStop(flags) else flags, [])
  }

  // ---------- the machine ----------

  function ViewOf(s: Sys): View { View(s.count, s.queue) }

  ghost predicate Goes(s: Sys, t: Tid, a: Action, s': Sys) {
    Enabled(s, t, a) && Safe(s, t, a) && s' == Apply(s, t, a)
  }

  /** A stretch of a run from `s` to `s'` in which only `t` takes steps. */
  ghost predicate Undisturbed(t: Tid, s: Sys, states: seq<Sys>, ops: seq<Action>, s': Sys) {
    && |states| == |ops| + 1 && states[0] == s && states[|ops|] == s'
    && forall i :: 0 <= i < |ops| ==> Goes(states[i], t, ops[i], states[i + 1])
  }

  lemma Prepend(t: Tid, s: Sys, a: Action, s1: Sys, states: seq<Sys>, ops: seq<Action>, s': Sys)
    requires Goes(s, t, a, s1) && Undisturbed(t, s1, states, ops, s')
    ensures Undisturbed(t, s, [s] + states, [a] + ops, s')
  {
    hide Goes;
    var states', ops' := [s] + states, [a] + ops;
    forall i | 0 <= i < |ops'| ensures Goes(states'[i], t, ops'[i], states'[i + 1]) {
      if i > 0 { assert states'[i] == states[i - 1] && ops'[i] == ops[i - 1] && states'[i + 1] == states[i]; }
    }
  }

  lemma Nothing(t: Tid, s: Sys)
    ensures Undisturbed(t, s, [s], [], s)
  {
  }

  lemma Takes(s: Sys, t: Tid, a: Action)
    requires Inv(s) && Enabled(s, t, a)
    ensures Safe(s, t, a) && Goes(s, t, a, Apply(s, t, a)) && Inv(Apply(s, t, a))
  {
    hide Inv, Enabled, Safe, Apply;
    StepKeeps(s, t, a);
  }

  predicate DroppedOnce(x: Job) { x.at == Done && x.drops == 1 && x.calls == 0 }

  predicate CalledOnce(x: Job) { x.at == Done && x.calls == 1 && x.drops == 0 }

  lemma JobHistory(s: Sys, j: Tid)
    requires Inv(s) && j in s.jobs
    ensures s.jobs[j].calls + s.jobs[j].drops == One(s.jobs[j].at == Done)
  {
    hide Numbers, Woken, Wanted, InQueue;
    assert JobOk(s, j);
  }

  // ---------- jobs that are dropped ----------

  lemma DropsOne(s: Sys, t: Tid)
    requires Inv(s) && t in s.clients && s.clients[t].at == Drops
    ensures Enabled(s, t, DropOp) && Safe(s, t, DropOp)
    ensures Goes(s, t, DropOp, Apply(s, t, DropOp)) && Inv(Apply(s, t, DropOp))
    ensures var s', q := Apply(s, t, DropOp), s.clients[t].todo;
      && q != [] && q[0] in s.jobs && q[0] !in q[1..] && ViewOf(s') == ViewOf(s) && s'.jobs.Keys == s.jobs.Keys
      && s'.clients.Keys == s.clients.Keys && s'.clients[t] == Client(if q[1..] == [] then Free else Drops, q[1..])
      && DroppedOnce(s'.jobs[q[0]]) && forall j :: j in s.jobs && j != q[0] ==> s'.jobs[j] == s.jobs[j]
  {
    hide HandsOver, N, Of, Numbers, Woken, Wanted, InQueue, Hands;
    Takes(s, t, DropOp);
    ClientKnows(s, t);
    JobHistory(s, s.clients[t].todo[0]);
    hide Inv;
  }

  /** `s'` differs from `s` in the jobs of `q`, which were dropped. */
  ghost predicate AllDropped(s: Sys, s': Sys, q: seq<Tid>) {
    && s'.jobs.Keys == s.jobs.Keys
    && (forall j :: j in q ==> j in s'.jobs && DroppedOnce(s'.jobs[j]))
    && forall j :: j in s.jobs && j !in q ==> s'.jobs[j] == s.jobs[j]
  }

  lemma {:induction false} DropsAll(s: Sys, t: Tid) returns (states: seq<Sys>, ops: seq<Action>, s': Sys)
    requires Inv(s) && t in s.clients && s.clients[t].at == Drops
    ensures Undisturbed(t, s, states, ops, s') && Inv(s') && t in s'.clients && s'.clients[t].at == Free
    ensures ViewOf(s') == ViewOf(s) && AllDropped(s, s', s.clients[t].todo)
    decreases |s.clients[t].todo|
  {
    hide Inv, Goes, Undisturbed, Apply, Enabled, Safe, DroppedOnce;
    DropsOne(s, t);
    var s1, q := Apply(s, t, DropOp), s.clients[t].todo;
    if q[1..] == [] {
      Nothing(t, s1);
      states, ops, s' := [s1], [], s1;
    } else {
      states, ops, s' := DropsAll(s1, t);
    }
    Prepend(t, s, DropOp, s1, states, ops, s');
    states, ops := [s] + states, [DropOp] + ops;
  }

  /** A client alone: Submit queues the job, or drops it when the pool is stopped. */
  lemma SubmitIsSteps(s: Sys, t: Tid, j: Tid) returns (states: seq<Sys>, ops: seq<Action>, s': Sys)
    requires Reachable(s) && Enabled(s, t, SubmitOp(j))
    ensures Undisturbed(t, s, states, ops, s') && ViewOf(s') == Submitted(ViewOf(s), j)
    ensures j in s'.jobs && if WasStop(s.count) then DroppedOnce(s'.jobs[j]) else s'.jobs[j].at == Queued
  {
    hide Inv, Reachable, Undisturbed, DroppedOnce;
    ReachableInv(s);
    Takes(s, t, SubmitOp(j));
    var s1 := Submit(s, t, j);
    if WasStop(s.count) {
      states, ops, s' := DropsAll(s1, t);
    } else {
      Nothing(t, s1);
      states, ops, s' := [s1], [], s1;
    }
    Prepend(t, s, SubmitOp(j), s1, states, ops, s');
    states, ops := [s] + states, [SubmitOp(j)] + ops;
  }

  /** A client alone: HardStop stops the pool and drops every queued job once. */
  lemma HardStopIsSteps(s: Sys, t: Tid) returns (states: seq<Sys>, ops: seq<Action>, s': Sys)
    requires Reachable(s) && Enabled(s, t, HardStopOp)
    ensures Undisturbed(t, s, states, ops, s') && ViewOf(s') == HardStopped(ViewOf(s))
    ensures forall j <- s.queue :: j in s'.jobs && DroppedOnce(s'.jobs[j])
  {
    hide Inv, Reachable, Undisturbed, DroppedOnce;
    ReachableInv(s);
    Takes(s, t, HardStopOp);
    var s1 := HardStop(s, t);
    Takes(s1, t, TellAllOp);
    var s2 := TellAll(s1, t);
    if s.queue == [] {
      Nothing(t, s2);
      states, ops, s' := [s2], [], s2;
    } else {
      states, ops, s' := DropsAll(s2, t);
    }
    Prepend(t, s1, TellAllOp, s2, states, ops, s');
    Prepend(t, s, HardStopOp, s1, [s1] + states, [TellAllOp] + ops, s');
    states, ops := [s] + ([s1] + states), [HardStopOp] + ([TellAllOp] + ops);
  }

  // ---------- stops ----------

  lemma StopSets(count: nat)
    ensures WasStop(SetStop(count)) && WantStop(SetStop(count)) == WantStop(count) && SetStop(count) / 4 == count / 4
    ensures WantStop(SetWant(count)) && WasStop(SetWant(count)) == WasStop(count) && SetWant(count) / 4 == count / 4
  {
    Unpacked(count);
    Unpacked(SetStop(count));
    Unpacked(SetWant(count));
  }

  /** The pool is stopped, its jobs are as before, and no worker sleeps through it. */
  ghost predicate Stopped(s: Sys, t: Tid, s': Sys) {
    && WasStop(s'.count) && WantStop(s'.count) == WantStop(s.count) && s'.count / 4 == s.count / 4
    && s'.queue == s.queue && s'.jobs == s.jobs && s'.workers.Keys == s.workers.Keys
    && (forall w :: w in s'.workers ==> s'.workers[w].at != Waits)
    && t in s'.clients && s'.clients[t].at == Free
  }

  lemma ToldAll(s: Sys, t: Tid)
    requires t in s.clients && s.clients[t] == Client(TellsAll, [])
    ensures var s' := TellAll(s, t);
      && s'.count == s.count && s'.queue == s.queue && s'.jobs == s.jobs && s'.workers.Keys == s.workers.Keys
      && (forall w :: w in s'.workers ==> s'.workers[w].at != Waits) && t in s'.clients && s'.clients[t].at == Free
  {
  }

  /** From the critical section `a` of Stop or SoftStop, which stops the pool, to the end of notify_all. */
  lemma TellsAllNow(s: Sys, t: Tid, a: Action) returns (states: seq<Sys>, ops: seq<Action>, s': Sys)
    requires Inv(s) && Enabled(s, t, a) && (a == StopOp || (a == SoftStopOp && NoJobs(s.count)))
    ensures Undisturbed(t, s, states, ops, s') && Stopped(s, t, s')
  {
    hide Inv, Undisturbed, NoJobs;
    Takes(s, t, a);
    var s1 := Stop(s, t);
    StopSets(s.count);
    hide SetStop, SetWant, WasStop, WantStop;
    Takes(s1, t, TellAllOp);
    ToldAll(s1, t);
    s' := TellAll(s1, t);
    Nothing(t, s');
    Prepend(t, s1, TellAllOp, s', [s'], [], s');
    Prepend(t, s, a, s1, [s1] + [s'], [TellAllOp] + [], s');
    states, ops := [s] + ([s1] + [s']), [a] + ([TellAllOp] + []);
  }

  /** A client alone: Stop sets the flag and wakes every worker up, and leaves the jobs and the other flag alone. */
  lemma StopIsSteps(s: Sys, t: Tid) returns (states: seq<Sys>, ops: seq<Action>, s': Sys)
    requires Reachable(s) && Enabled(s, t, StopOp)
    ensures Undisturbed(t, s, states, ops, s') && Stopped(s, t, s')
  {
    hide Inv, Undisturbed, Stopped, Reachable;
    ReachableInv(s);
    states, ops, s' := TellsAllNow(s, t, StopOp);
  }

  /** A client alone: SoftStop stops a pool without jobs like Stop; otherwise it only asks for a stop. */
  lemma SoftStopIsSteps(s: Sys, t: Tid) returns (states: seq<Sys>, ops: seq<Action>, s': Sys)
    requires Reachable(s) && Enabled(s, t, SoftStopOp)
    ensures Undisturbed(t, s, states, ops, s')
    ensures s.count / 4 == 0 ==> Stopped(s, t, s')
    ensures s.count / 4 != 0 ==>
              && WantStop(s'.count) && WasStop(s'.count) == WasStop(s.count) && s'.count / 4 == s.count / 4
              && s' == s.(count := s'.count)
  {
    hide Inv, Undisturbed, Stopped, Reachable;
    ReachableInv(s);
    if s.count / 4 == 0 {
      states, ops, s' := TellsAllNow(s, t, SoftStopOp);
    } else {
      Takes(s, t, SoftStopOp);
      StopSets(s.count);
      s' := SoftStop(s, t);
      Nothing(t, s');
      Prepend(t, s, SoftStopOp, s', [s'], [], s');
      states, ops := [s] + [s'], [SoftStopOp] + [];
    }
  }

  // ---------- jobs that are called ----------

  /** A worker that has the mutex, or comes back from a job, and all other jobs are in the queue. */
  ghost predicate AloneAtWork(s: Sys, w: Tid) {
    Inv(s) && w in s.workers && Awake(s.workers[w]) && s.count / 4 == |s.queue| + One(s.workers[w].at == Runs)
  }

  /** The jobs that a worker still has to call. */
  function ToCall(s: Sys, w: Tid): seq<Tid>
    requires w in s.workers
  {
    (if s.workers[w].at == Runs then [s.workers[w].job] else []) + s.queue
  }

  function Flags(count: nat): (bool, bool) { (WasStop(count), WantStop(count)) }

  /** One critical section: the worker takes the next job, or is done. */
  ghost predicate Worker1(s: Sys, s': Sys, w: Tid)
    requires w in s.workers
  {
    && w in s'.workers && s'.jobs.Keys == s.jobs.Keys
    && (s.workers[w].at == Runs ==> s.workers[w].job in s'.jobs && CalledOnce(s'.jobs[s.workers[w].job]))
    && (forall j :: j in s.jobs && CalledOnce(s.jobs[j]) ==> CalledOnce(s'.jobs[j]))
    && if s.queue == [] then
         && ViewOf(s') == Worked(ViewOf(s))
         && (s'.workers[w].at == Waits <==> !WasStop(s.count) && !WantStop(s.count)) && !Awake(s'.workers[w])
       else
         && s'.workers[w] == Worker(Runs, s.queue[0]) && s'.queue == s.queue[1..]
         && s'.count / 4 == |s.queue| && Flags(s'.count) == Flags(s.count)
  }

  lemma FlagsOf(count: nat)
    ensures WasStop(count % JOB) == WasStop(count) && WantStop(count % JOB) == WantStop(count)
  {
    Unpacked(count);
  }

  lemma FlagsOnly(count: nat, flags: nat)
    requires count / 4 == 0 && Flags(count) == Flags(flags)
    ensures count == flags % JOB
  {
    Unpacked(count);
    Unpacked(flags);
    FlagsOf(flags);
  }

  lemma SameFlags(a: nat, b: nat)
    requires Flags(a) == Flags(b)
    ensures a % JOB == b % JOB
  {
    FlagsOf(a);
    FlagsOf(b);
    FlagsOnly(a % JOB, b);
  }

  lemma SameWork(v: View, v': View)
    requires Flags(v.count) == Flags(v'.count)
    ensures Worked(v) == Worked(v')
  {
    SameFlags(v.count, v'.count);
  }

  lemma CountsBound(s: Sys)
    requires Inv(s)
    ensures s.count < U64
  {
    hide N, Of, Hands, InQueue, Woken, Wanted;
  }

  /** The section of a worker that comes back from a job. */
  lemma CountsDown(s: Sys, w: Tid)
    requires AloneAtWork(s, w) && s.workers[w].at == Runs && s.workers[w].job in s.jobs
    ensures var s1 := Called(s, w);
      s1.count / 4 == |s.queue| && Flags(s1.count) == Flags(s.count) && s1.queue == s.queue
  {
    CountsBound(s);
    CountDown(s.count);
    hide Inv;
  }

  lemma JobsAtWork(s: Sys, w: Tid)
    requires Inv(s) && w in s.workers
    ensures s.workers[w].at == Runs ==>
              var j := s.workers[w].job; j in s.jobs && s.jobs[j].at == Running && s.jobs[j].calls == s.jobs[j].drops == 0
    ensures s.queue != [] ==> s.queue[0] in s.jobs && s.jobs[s.queue[0]].at == Queued
  {
    hide N, Of, Numbers, Woken, Wanted;
    WorkerKnows(s, w);
    if s.workers[w].at == Runs { JobHistory(s, s.workers[w].job); }
  }

  /** From the counted state `s1`: the rest of the section. */
  lemma Proceeds(s1: Sys, w: Tid)
    requires w in s1.workers && (s1.queue != [] ==> s1.queue[0] in s1.jobs && s1.jobs[s1.queue[0]].at == Queued)
    requires s1.count / 4 == |s1.queue|
    ensures var s' := Proceed(s1, w);
      && w in s'.workers && s'.jobs.Keys == s1.jobs.Keys
      && (forall j :: j in s1.jobs && CalledOnce(s1.jobs[j]) ==> CalledOnce(s'.jobs[j]))
      && if s1.queue == [] then
           && ViewOf(s') == Worked(ViewOf(s1))
           && (s'.workers[w].at == Waits <==> !WasStop(s1.count) && !WantStop(s1.count)) && !Awake(s'.workers[w])
         else
           && s'.workers[w] == Worker(Runs, s1.queue[0]) && s'.queue == s1.queue[1..] && s'.count == s1.count
  {
    if s1.queue == [] { FlagsOnly(s1.count, s1.count); }
    hide WasStop, WantStop, SetStop;
    assert NoJobs(s1.count) <==> s1.queue == [];
    if s1.queue == [] { StopsOnce(s1.count); }
  }

  lemma StopsOnce(count: nat)
    ensures WasStop(count) ==> SetStop(count) == count
  {
  }

  /** The state in which a worker goes on when it has the mutex. */
  function Entered(s: Sys, w: Tid): Sys
    requires w in s.workers && (s.workers[w].at == Runs ==> s.workers[w].job in s.jobs)
  {
    if s.workers[w].at == Runs then Called(s, w) else s
  }

  lemma EnterIs(s: Sys, w: Tid)
    requires Inv(s) && w in s.workers && Awake(s.workers[w])
    requires (s.workers[w].at == Runs ==> s.workers[w].job in s.jobs) && (s.queue != [] ==> s.queue[0] in s.jobs)
    ensures Enabled(s, w, EnterOp) && Safe(s, w, EnterOp)
    ensures Goes(s, w, EnterOp, Apply(s, w, EnterOp)) && Inv(Apply(s, w, EnterOp))
    ensures var s1 := Entered(s, w);
      w in s1.workers && (s1.queue != [] ==> s1.queue[0] in s1.jobs) && Apply(s, w, EnterOp) == Proceed(s1, w)
  {
    hide Inv, Proceed, HandsOver, Goes;
    Takes(s, w, EnterOp);
  }

  lemma EnteredIs(s: Sys, w: Tid)
    requires AloneAtWork(s, w) && (s.workers[w].at == Runs ==> s.workers[w].job in s.jobs)
    requires s.workers[w].at == Runs ==> var x := s.jobs[s.workers[w].job]; x.at == Running && x.calls == x.drops == 0
    ensures var s1 := Entered(s, w);
      && s1.queue == s.queue && s1.count / 4 == |s.queue| && Flags(s1.count) == Flags(s.count)
      && s1.jobs.Keys == s.jobs.Keys && w in s1.workers
      && (s.workers[w].at == Runs ==> CalledOnce(s1.jobs[s.workers[w].job]))
      && (forall i :: i in s.jobs && s.jobs[i].at != Running ==> s1.jobs[i] == s.jobs[i])
      && (forall i :: i in s.jobs && CalledOnce(s.jobs[i]) ==> CalledOnce(s1.jobs[i]))
  {
    hide Inv, Called, WasStop, WantStop, CalledOnce;
    if s.workers[w].at == Runs { CountsDown(s, w); CallsIt(s, w); }
  }

  lemma Enters(s: Sys, w: Tid)
    requires AloneAtWork(s, w)
    ensures Enabled(s, w, EnterOp) && Safe(s, w, EnterOp)
    ensures Goes(s, w, EnterOp, Apply(s, w, EnterOp)) && Inv(Apply(s, w, EnterOp))
    ensures Worker1(s, Apply(s, w, EnterOp), w)
  {
    JobsAtWork(s, w);
    hide Inv, CalledOnce, Proceed, Called, Goes, Enabled, Safe, Apply, WasStop, WantStop, SetStop, Worked, Worker1;
    EnterIs(s, w);
    EnteredIs(s, w);
    hide Entered;
    EnteredWorker(s, Entered(s, w), w);
  }

  /** What the rest of the section says about the whole of it. */
  lemma EnteredWorker(s: Sys, s1: Sys, w: Tid)
    requires w in s.workers && w in s1.workers && s1.queue == s.queue && s1.count / 4 == |s.queue|
    requires Flags(s1.count) == Flags(s.count) && s1.jobs.Keys == s.jobs.Keys
    requires s.workers[w].at == Runs ==> s.workers[w].job in s.jobs && CalledOnce(s1.jobs[s.workers[w].job])
    requires forall i :: i in s.jobs && CalledOnce(s.jobs[i]) ==> CalledOnce(s1.jobs[i])
    requires s.queue != [] ==> s.queue[0] in s.jobs && s1.jobs[s.queue[0]].at == Queued
    ensures Worker1(s, Proceed(s1, w), w)
  {
    hide CalledOnce, Proceed, WasStop, WantStop, SetStop, Worked, Awake;
    Proceeds(s1, w);
    SameWork(ViewOf(s1), ViewOf(s));
  }

  lemma CallsIt(s: Sys, w: Tid)
    requires w in s.workers && s.workers[w].job in s.jobs
    requires var x := s.jobs[s.workers[w].job]; x.at == Running && x.calls == x.drops == 0
    ensures var s1, j := Called(s, w), s.workers[w].job;
      && s1.jobs.Keys == s.jobs.Keys && j in s1.jobs && CalledOnce(s1.jobs[j]) && w in s1.workers
      && (forall i :: i in s.jobs && i != j ==> s1.jobs[i] == s.jobs[i])
      && (forall i :: i in s.jobs && CalledOnce(s.jobs[i]) ==> CalledOnce(s1.jobs[i]))
  {
  }

  lemma {:induction false} WorksAll(s: Sys, w: Tid) returns (states: seq<Sys>, ops: seq<Action>, s': Sys)
    requires AloneAtWork(s, w)
    ensures Undisturbed(w, s, states, ops, s') && Inv(s') && ViewOf(s') == Worked(ViewOf(s))
    ensures w in s'.workers && !Awake(s'.workers[w])
    ensures s'.workers[w].at == Waits <==> !WasStop(s.count) && !WantStop(s.count)
    ensures s'.jobs.Keys == s.jobs.Keys && forall j :: j in s.jobs && CalledOnce(s.jobs[j]) ==> CalledOnce(s'.jobs[j])
    ensures forall j <- ToCall(s, w) :: j in s'.jobs && CalledOnce(s'.jobs[j])
    decreases |s.queue|
  {
    hide Inv, Undisturbed, Goes, CalledOnce, Enabled, Safe, Apply, WasStop, WantStop;
    Enters(s, w);
    var s1 := Apply(s, w, EnterOp);
    if s.queue == [] {
      Nothing(w, s1);
      states, ops, s' := [s1], [], s1;
    } else {
      states, ops, s' := WorksAll(s1, w);
      SameWork(ViewOf(s1), ViewOf(s));
      assert ToCall(s1, w) == s.queue;
    }
    Prepend(w, s, EnterOp, s1, states, ops, s');
    states, ops := [s] + states, [EnterOp] + ops;
  }

  /** A worker alone calls every queued job once, and then waits, or leaves if a stop was asked for. */
  lemma WorkIsSteps(s: Sys, w: Tid) returns (states: seq<Sys>, ops: seq<Action>, s': Sys)
    requires Reachable(s) && w in s.workers && (s.workers[w].at == Starts || s.workers[w].at == Wakes)
    requires s.count / 4 == |s.queue|
    ensures Undisturbed(w, s, states, ops, s') && ViewOf(s') == Worked(ViewOf(s))
    ensures w in s'.workers && if WasStop(s.count) || WantStop(s.count) then IsGone(s'.workers[w]) else IsWaiting(s'.workers[w])
    ensures forall j <- s.queue :: j in s'.jobs && CalledOnce(s'.jobs[j])
  {
    hide Inv, Reachable, Undisturbed, CalledOnce, WasStop, WantStop;
    ReachableInv(s);
    states, ops, s' := WorksAll(s, w);
    assert ToCall(s, w) == s.queue;
  }
}
