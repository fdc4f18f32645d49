/** What FairThreadPool promises, in every interleaving of FairPoolRuns. */
module FairPoolProofs {
  import opened Common
  import opened Census
  import opened FairPoolRuns

  // ---------- the packed counter ----------

  /** Counting jobs up and down leaves the flags alone, setting flags leaves the number of jobs alone. */
  lemma CountUp(count: nat)
    requires count + JOB < U64
    ensures AddJob(count) / 4 == count / 4 + 1
    ensures WasStop(AddJob(count)) == WasStop(count) && WantStop(AddJob(count)) == WantStop(count)
  {
    assert AddJob(count) == count + 4 && (count + 4) / 2 == count / 2 + 2;
  }

  lemma CountDown(count: nat)
    requires 1 <= count / 4 && count < U64
    ensures JOB <= count && PopJob(count) / 4 == count / 4 - 1
    ensures WasStop(PopJob(count)) == WasStop(count) && WantStop(PopJob(count)) == WantStop(count)
  {
    assert PopJob(count) == count - 4 && (count - 4) / 2 == count / 2 - 2;
  }

  lemma SetStopFlag(count: nat)
    ensures SetStop(count) / 4 == count / 4 && WasStop(SetStop(count)) && WantStop(SetStop(count)) == WantStop(count)
  {
    if count % 2 == 0 { assert (count + 1) / 2 == count / 2; }
  }

  lemma SetWantFlag(count: nat)
    ensures SetWant(count) / 4 == count / 4 && WantStop(SetWant(count)) && WasStop(SetWant(count)) == WasStop(count)
  {
    if count / 2 % 2 == 0 { assert (count + 2) / 2 == count / 2 + 1; }
  }

  lemma Unpacked(count: nat)
    ensures count == 4 * (count / 4) + 2 * One(WantStop(count)) + One(WasStop(count))
  {
  }

  // ---------- the invariant ----------

  predicate IsRunning(x: Worker) { x.at == Runs }
  predicate IsGone(x: Worker) { x.at == NotifiesAll || x.at == Exited }
  predicate IsNotifyingAll(x: Worker) { x.at == NotifiesAll }
  predicate IsNotifying(x: Client) { x.at == NotifiesOne }
  predicate IsTelling(x: Client) { x.at == TellsAll }
  predicate WasQueued(x: Job) { x.queued }

  /** Jobs that the counter counts. */
  ghost function Counted(s: Sys): int { |s.queue| + N(s.workers, IsRunning) + s.moved }

  ghost predicate Numbers(s: Sys) {
    && s.count / 4 == Counted(s) <= N(s.jobs, WasQueued) <= |s.jobs| < U64 / JOB
    && (s.moved > 0 ==> WasStop(s.count))
    && (N(s.workers, IsGone) >= 1 ==> s.queue == [] && WasStop(s.count))
  }

  /** Somebody is going to look at the queue, or at the stop flag. */
  ghost predicate Woken(s: Sys) {
    && (s.queue != [] && s.workers != map[] ==> N(s.workers, Awake) + N(s.clients, IsNotifying) >= 1)
    && (WasStop(s.count) ==>
          N(s.workers, IsWaiting) == 0 || N(s.clients, IsTelling) + N(s.workers, IsNotifyingAll) >= 1)
  }

  /** A soft stop that could not stop the pool yet waits for a job. */
  ghost predicate Wanted(s: Sys) {
    WantStop(s.count) && !WasStop(s.count) ==> s.count / 4 >= 1
  }

  ghost predicate InQueue(jobs: map<Tid, Job>, queue: seq<Tid>) {
    && Distinct(queue)
    && (forall i :: 0 <= i < |queue| ==> queue[i] in jobs && jobs[queue[i]].at == Queued)
    && (forall j :: j in jobs && jobs[j].at == Queued ==> j in queue)
  }

  ghost predicate JobOk(s: Sys, j: Tid)
    requires j in s.jobs
  {
    var x := s.jobs[j];
    && x.calls + x.drops == One(x.at == Done)
    && (x.at == New ==> !x.queued)
    && (x.at == Running ==> x.holder in s.workers && s.workers[x.holder] == Worker(Runs, j))
    && (x.at == Doomed ==> x.holder in s.clients && j in s.clients[x.holder].todo)
  }

  ghost predicate WorkerOk(s: Sys, w: Tid)
    requires w in s.workers
  {
    s.workers[w].at == Runs ==> HandsOver(s, s.workers[w].job, w, Running)
  }

  ghost predicate ClientOk(jobs: map<Tid, Job>, x: Client, t: Tid) {
    && Distinct(x.todo)
    && (forall i :: 0 <= i < |x.todo| ==> x.todo[i] in jobs && jobs[x.todo[i]].at == Doomed && jobs[x.todo[i]].holder == t)
    && (x.at == Free || x.at == NotifiesOne ==> x.todo == [])
    && (x.at == Drops ==> x.todo != [])
  }

  ghost predicate Hands(s: Sys) {
    && (forall j :: j in s.jobs ==> JobOk(s, j))
    && (forall w :: w in s.workers ==> WorkerOk(s, w))
    && (forall t :: t in s.clients ==> ClientOk(s.jobs, s.clients[t], t))
  }

  ghost predicate Inv(s: Sys) {
    Numbers(s) && Woken(s) && Wanted(s) && InQueue(s.jobs, s.queue) && Hands(s)
  }

  lemma InitInv(s: Sys)
    requires Init(s)
    ensures Inv(s)
  {
    Nobody(s.workers, IsRunning);
    Nobody(s.workers, IsGone);
    Nobody(s.jobs, WasQueued);
  }

  // ---------- counting ----------

  lemma WorkerMoved(s: Sys, w: Tid, x: Worker)
    requires w in s.workers
    ensures N(s.workers[w := x], IsRunning) == N(s.workers, IsRunning) - One(IsRunning(s.workers[w])) + One(IsRunning(x))
    ensures N(s.workers[w := x], IsGone) == N(s.workers, IsGone) - One(IsGone(s.workers[w])) + One(IsGone(x))
    ensures N(s.workers[w := x], Awake) == N(s.workers, Awake) - One(Awake(s.workers[w])) + One(Awake(x))
    ensures N(s.workers[w := x], IsWaiting) == N(s.workers, IsWaiting) - One(IsWaiting(s.workers[w])) + One(IsWaiting(x))
    ensures N(s.workers[w := x], IsNotifyingAll)
         == N(s.workers, IsNotifyingAll) - One(IsNotifyingAll(s.workers[w])) + One(IsNotifyingAll(x))
    ensures N(s.workers, IsRunning) >= One(IsRunning(s.workers[w])) && N(s.workers, IsGone) >= One(IsGone(s.workers[w]))
  {
    hide N, Of;
    Moved(s.workers, w, x, IsRunning);
    Moved(s.workers, w, x, IsGone);
    Moved(s.workers, w, x, Awake);
    Moved(s.workers, w, x, IsWaiting);
    Moved(s.workers, w, x, IsNotifyingAll);
  }

  lemma ClientMoved(s: Sys, t: Tid, x: Client)
    requires t in s.clients
    ensures N(s.clients[t := x], IsNotifying)
         == N(s.clients, IsNotifying) - One(IsNotifying(s.clients[t])) + One(IsNotifying(x))
    ensures N(s.clients[t := x], IsTelling) == N(s.clients, IsTelling) - One(IsTelling(s.clients[t])) + One(IsTelling(x))
  {
    hide N, Of;
    Moved(s.clients, t, x, IsNotifying);
    Moved(s.clients, t, x, IsTelling);
  }

  lemma JobMoved(s: Sys, j: Tid, x: Job)
    requires j in s.jobs
    ensures N(s.jobs[j := x], WasQueued) == N(s.jobs, WasQueued) - One(s.jobs[j].queued) + One(x.queued)
    ensures N(s.jobs, WasQueued) <= |s.jobs| && (!s.jobs[j].queued ==> N(s.jobs, WasQueued) < |s.jobs|)
    ensures |s.jobs[j := x]| == |s.jobs|
  {
    Moved(s.jobs, j, x, WasQueued);
    SubsetSize(Of(s.jobs, WasQueued), s.jobs.Keys);
    if !s.jobs[j].queued {
      SubsetSize(Of(s.jobs, WasQueued), s.jobs.Keys - {j});
    }
    assert s.jobs[j := x].Keys == s.jobs.Keys;
  }

  // ---------- Submit ----------

  lemma JobKnows(s: Sys, j: Tid)
    requires Hands(s) && j in s.jobs
    ensures JobOk(s, j)
  {
  }

  lemma ClientKnows(s: Sys, t: Tid)
    requires Hands(s) && t in s.clients
    ensures ClientOk(s.jobs, s.clients[t], t)
  {
  }

  lemma QueueOther(jobs: map<Tid, Job>, queue: seq<Tid>, j: Tid, x: Job)
    requires InQueue(jobs, queue) && j in jobs && jobs[j].at != Queued && x.at != Queued
    ensures InQueue(jobs[j := x], queue)
  {
  }

  lemma QueuePush(jobs: map<Tid, Job>, queue: seq<Tid>, j: Tid, x: Job)
    requires InQueue(jobs, queue) && j in jobs && jobs[j].at != Queued && x.at == Queued
    ensures InQueue(jobs[j := x], queue + [j])
  {
    var q := queue + [j];
    forall i | i in jobs && (jobs[i].at == Queued || i == j) ensures i in q {
      if i == j { assert q[|queue|] == j; } else { assert i in queue; }
    }
  }

  lemma QueuePop(jobs: map<Tid, Job>, queue: seq<Tid>, x: Job)
    requires InQueue(jobs, queue) && queue != [] && x.at != Queued
    ensures InQueue(jobs[queue[0] := x], queue[1..])
  {
    forall j | j in jobs && jobs[j].at == Queued && j != queue[0] ensures j in queue[1..] {
      assert j in queue;
      var i :| 0 <= i < |queue| && queue[i] == j;
      assert queue[1..][i - 1] == j;
    }
  }

  lemma AcceptHands(s: Sys, t: Tid, j: Tid)
    requires Hands(s) && t in s.clients && s.clients[t].at == Free && j in s.jobs && s.jobs[j].at == New
    ensures Hands(Submit(s, t, j))
  {
    hide InQueue, N, Of;
    ClientKnows(s, t);
    JobKnows(s, j);
    var s' := Submit(s, t, j);
    forall i | i in s'.jobs ensures JobOk(s', i) { assert JobOk(s, i); }
    forall w | w in s'.workers ensures WorkerOk(s', w) { assert WorkerOk(s, w); }
    forall u | u in s'.clients ensures ClientOk(s'.jobs, s'.clients[u], u) { ClientKnows(s, u); }
  }

  lemma SubmitKeeps(s: Sys, t: Tid, j: Tid)
    requires Inv(s) && t in s.clients && s.clients[t].at == Free && j in s.jobs && s.jobs[j].at == New
    ensures s.count + JOB < U64 && Inv(Submit(s, t, j))
  {
    hide N, Of, Hands, Distinct;
    AcceptHands(s, t, j);
    JobKnows(s, j);
    var s' := Submit(s, t, j);
    JobMoved(s, j, s'.jobs[j]);
    CountUp(s.count);
    ClientMoved(s, t, s'.clients[t]);
    if WasStop(s.count) {
      QueueOther(s.jobs, s.queue, j, s'.jobs[j]);
    } else {
      QueuePush(s.jobs, s.queue, j, s'.jobs[j]);
    }
    hide InQueue, AddJob, WasStop, WantStop;
  }

  // ---------- notifications ----------

  /** Only the phases of idle workers change. */
  lemma HandsIdle(s: Sys, s': Sys)
    requires Hands(s) && s'.jobs == s.jobs && s'.clients == s.clients && s'.workers.Keys == s.workers.Keys
    requires forall w :: w in s.workers ==> s'.workers[w] == s.workers[w] || (!IsRunning(s.workers[w]) && !IsRunning(s'.workers[w]))
    ensures Hands(s')
  {
    forall i | i in s'.jobs ensures JobOk(s', i) { assert JobOk(s, i); }
    forall w | w in s'.workers ensures WorkerOk(s', w) { assert WorkerOk(s, w); }
  }

  /** Only the phase of client `t` changes. */
  lemma HandsClient(s: Sys, t: Tid, x: Client)
    requires Hands(s) && t in s.clients && x.todo == s.clients[t].todo && ClientOk(s.jobs, x, t)
    ensures Hands(PutClient(s, t, x))
  {
    var s' := PutClient(s, t, x);
    forall i | i in s'.jobs ensures JobOk(s', i) { assert JobOk(s, i); }
    forall w | w in s'.workers ensures WorkerOk(s', w) { assert WorkerOk(s, w); }
  }

  lemma SpuriousKeeps(s: Sys, w: Tid)
    requires Inv(s) && w in s.workers && s.workers[w].at == Waits
    ensures Inv(PutWorker(s, w, s.workers[w].(at := Wakes)))
  {
    hide N, Of, Hands, InQueue, WasStop, WantStop;
    WorkerMoved(s, w, s.workers[w].(at := Wakes));
    HandsIdle(s, PutWorker(s, w, s.workers[w].(at := Wakes)));
  }

  lemma NobodyWaiting(s: Sys, w: Tid)
    requires Inv(s) && w in s.workers && N(s.workers, IsWaiting) == 0 && s.queue != []
    ensures N(s.workers, Awake) >= 1
  {
    if IsWaiting(s.workers[w]) { Present(s.workers, IsWaiting, w); }
    if IsGone(s.workers[w]) { Present(s.workers, IsGone, w); }
    Present(s.workers, Awake, w);
  }

  lemma NotifyOneKeeps(s: Sys, t: Tid, w: Tid)
    requires Inv(s) && t in s.clients && s.clients[t].at == NotifiesOne
    requires N(s.workers, IsWaiting) > 0 ==> w in s.workers && s.workers[w].at == Waits
    ensures Inv(NotifyOne(s, t, w))
  {
    hide N, Of, Hands, InQueue, WasStop, WantStop;
    ClientKnows(s, t);
    var s1 := PutClient(s, t, Client(Free, []));
    ClientMoved(s, t, Client(Free, []));
    HandsClient(s, t, Client(Free, []));
    if w in s.workers && s.workers[w].at == Waits {
      WorkerMoved(s1, w, s.workers[w].(at := Wakes));
      HandsIdle(s1, NotifyOne(s, t, w));
    } else if s.queue != [] && s.workers != map[] {
      var u :| u in s.workers;
      NobodyWaiting(s, u);
    }
  }

  lemma StopKeeps(s: Sys, t: Tid)
    requires Inv(s) && t in s.clients && s.clients[t].at == Free
    ensures Inv(Stop(s, t))
  {
    hide N, Of, Hands, InQueue, WasStop, WantStop, SetStop;
    ClientKnows(s, t);
    SetStopFlag(s.count);
    ClientMoved(s, t, Client(TellsAll, []));
    HandsClient(s, t, Client(TellsAll, []));
    HandsIdle(PutClient(s, t, Client(TellsAll, [])), Stop(s, t));
  }

  lemma SoftStopKeeps(s: Sys, t: Tid)
    requires Inv(s) && t in s.clients && s.clients[t].at == Free
    ensures Inv(SoftStop(s, t))
  {
    hide N, Of, Hands, InQueue, WasStop, WantStop, SetWant, Stop;
    if NoJobs(s.count) {
      StopKeeps(s, t);
    } else {
      SetWantFlag(s.count);
      HandsIdle(s, SoftStop(s, t));
    }
  }

  lemma DoomCounts(s: Sys, t: Tid)
    requires InQueue(s.jobs, s.queue)
    ensures N(Doom(s.jobs, s.queue, t), WasQueued) == N(s.jobs, WasQueued) && |Doom(s.jobs, s.queue, t)| == |s.jobs|
  {
    var jobs' := Doom(s.jobs, s.queue, t);
    Unmoved(s.jobs, jobs', WasQueued);
    assert jobs'.Keys == s.jobs.Keys;
  }

  lemma HardStopHands(s: Sys, t: Tid)
    requires Hands(s) && InQueue(s.jobs, s.queue) && t in s.clients && s.clients[t].at == Free
    ensures Hands(HardStop(s, t)) && InQueue(HardStop(s, t).jobs, [])
  {
    hide N, Of;
    ClientKnows(s, t);
    var s' := HardStop(s, t);
    forall i | i in s'.jobs ensures JobOk(s', i) { assert JobOk(s, i); }
    forall w | w in s'.workers ensures WorkerOk(s', w) { assert WorkerOk(s, w); }
    forall u | u in s'.clients ensures ClientOk(s'.jobs, s'.clients[u], u) { ClientKnows(s, u); }
  }

  lemma HardStopKeeps(s: Sys, t: Tid)
    requires Inv(s) && t in s.clients && s.clients[t].at == Free
    ensures Inv(HardStop(s, t))
  {
    hide N, Of, Hands, InQueue, WasStop, WantStop, SetStop, Doom;
    SetStopFlag(s.count);
    DoomCounts(s, t);
    HardStopHands(s, t);
    ClientMoved(s, t, Client(TellsAll, s.queue));
  }

  /** notify_all: nobody waits any more. */
  lemma AllWoken(workers: map<Tid, Worker>)
    ensures N(WakeAll(workers), IsWaiting) == 0 && N(WakeAll(workers), IsRunning) == N(workers, IsRunning)
    ensures N(WakeAll(workers), IsGone) == N(workers, IsGone)
    ensures N(WakeAll(workers), IsNotifyingAll) == N(workers, IsNotifyingAll)
    ensures N(WakeAll(workers), Awake) >= N(workers, Awake)
    ensures WakeAll(workers) == map[] ==> workers == map[]
  {
    var workers' := WakeAll(workers);
    Nobody(workers', IsWaiting);
    Unmoved(workers, workers', IsRunning);
    Unmoved(workers, workers', IsGone);
    Unmoved(workers, workers', IsNotifyingAll);
    SubsetSize(Of(workers, Awake), Of(workers', Awake));
    assert workers'.Keys == workers.Keys;
  }

  lemma TellAllKeeps(s: Sys, t: Tid)
    requires Inv(s) && t in s.clients && s.clients[t].at == TellsAll
    ensures Inv(TellAll(s, t))
  {
    hide N, Of, Hands, InQueue, WasStop, WantStop;
    ClientKnows(s, t);
    AllWoken(s.workers);
    var s' := TellAll(s, t);
    ClientMoved(s, t, s'.clients[t]);
    HandsClient(s, t, s'.clients[t]);
    HandsIdle(PutClient(s, t, s'.clients[t]), s');
  }

  lemma DropHands(s: Sys, t: Tid)
    requires Hands(s) && t in s.clients && s.clients[t].at == Drops
    ensures s.clients[t].todo != [] && HandsOver(s, s.clients[t].todo[0], t, Doomed)
    ensures Hands(DropOne(s, t))
  {
    hide N, Of;
    ClientKnows(s, t);
    var q, s' := s.clients[t].todo, DropOne(s, t);
    JobKnows(s, q[0]);
    forall i | i in s'.jobs ensures JobOk(s', i) {
      JobKnows(s, i);
      if i != q[0] && i in q {
        var k :| 0 <= k < |q| && q[k] == i;
        assert q[1..][k - 1] == i;
      }
    }
    forall w | w in s'.workers ensures WorkerOk(s', w) { assert WorkerOk(s, w); }
    forall u | u in s'.clients ensures ClientOk(s'.jobs, s'.clients[u], u) { ClientKnows(s, u); }
  }

  lemma DropOneKeeps(s: Sys, t: Tid)
    requires Inv(s) && t in s.clients && s.clients[t].at == Drops
    ensures s.clients[t].todo != [] && HandsOver(s, s.clients[t].todo[0], t, Doomed)
    ensures Inv(DropOne(s, t))
  {
    hide N, Of, Hands, InQueue, WasStop, WantStop;
    DropHands(s, t);
    var j, s' := s.clients[t].todo[0], DropOne(s, t);
    JobMoved(s, j, s'.jobs[j]);
    ClientMoved(s, t, s'.clients[t]);
    QueueOther(s.jobs, s.queue, j, s'.jobs[j]);
  }

  // ---------- workers ----------

  lemma WorkerKnows(s: Sys, w: Tid)
    requires Hands(s) && w in s.workers
    ensures WorkerOk(s, w)
  {
  }

  lemma NotifyAllKeeps(s: Sys, w: Tid)
    requires Inv(s) && w in s.workers && s.workers[w].at == NotifiesAll
    ensures Inv(NotifyAll(s, w))
  {
    hide N, Of, Hands, InQueue, WasStop, WantStop;
    AllWoken(s.workers);
    var s1 := s.(workers := WakeAll(s.workers));
    WorkerMoved(s1, w, s.workers[w].(at := Exited));
    HandsIdle(s, NotifyAll(s, w));
  }

  /** All but a soft stop that is due: between the count down and the look at the flags. */
  ghost predicate Section(s: Sys) {
    Numbers(s) && Woken(s) && InQueue(s.jobs, s.queue) && Hands(s)
  }

  lemma CalledHands(s: Sys, w: Tid)
    requires Hands(s) && w in s.workers && s.workers[w].at == Runs
    ensures HandsOver(s, s.workers[w].job, w, Running) && Hands(Called(s, w))
  {
    hide N, Of, Distinct;
    WorkerKnows(s, w);
    JobKnows(s, s.workers[w].job);
    var s' := Called(s, w);
    forall i | i in s'.jobs ensures JobOk(s', i) { JobKnows(s, i); }
    forall u | u in s'.workers ensures WorkerOk(s', u) { WorkerKnows(s, u); }
    forall u | u in s'.clients ensures ClientOk(s'.jobs, s'.clients[u], u) { ClientKnows(s, u); }
  }

  lemma CalledKeeps(s: Sys, w: Tid)
    requires Section(s) && w in s.workers && s.workers[w].at == Runs
    ensures s.count >= JOB && HandsOver(s, s.workers[w].job, w, Running) && Section(Called(s, w))
  {
    hide N, Of, Hands, InQueue, WasStop, WantStop, PopJob;
    CalledHands(s, w);
    var j, s' := s.workers[w].job, Called(s, w);
    JobMoved(s, j, s'.jobs[j]);
    WorkerMoved(s, w, s'.workers[w]);
    QueueOther(s.jobs, s.queue, j, s'.jobs[j]);
    CountDown(s.count);
  }

  lemma PopHands(s: Sys, w: Tid)
    requires Hands(s) && InQueue(s.jobs, s.queue) && w in s.workers && Awake(s.workers[w]) && s.workers[w].at != Runs
    requires s.queue != []
    ensures s.queue[0] in s.jobs && s.jobs[s.queue[0]].at == Queued && Hands(Proceed(s, w))
  {
    hide N, Of, Distinct;
    var s' := Proceed(s, w);
    JobKnows(s, s.queue[0]);
    forall i | i in s'.jobs ensures JobOk(s', i) { JobKnows(s, i); }
    forall u | u in s'.workers ensures WorkerOk(s', u) { WorkerKnows(s, u); }
    forall u | u in s'.clients ensures ClientOk(s'.jobs, s'.clients[u], u) { ClientKnows(s, u); }
  }

  lemma PopKeeps(s: Sys, w: Tid)
    requires Section(s) && w in s.workers && Awake(s.workers[w]) && s.workers[w].at != Runs && s.queue != []
    ensures s.queue[0] in s.jobs && s.jobs[s.queue[0]].at == Queued && Inv(Proceed(s, w))
  {
    hide N, Of, Hands, InQueue, WasStop, WantStop;
    PopHands(s, w);
    var j, s' := s.queue[0], Proceed(s, w);
    JobMoved(s, j, s'.jobs[j]);
    WorkerMoved(s, w, s'.workers[w]);
    QueuePop(s.jobs, s.queue, s'.jobs[j]);
  }

  lemma ProceedKeeps(s: Sys, w: Tid)
    requires Section(s) && w in s.workers && Awake(s.workers[w]) && s.workers[w].at != Runs
    ensures (s.queue != [] ==> s.queue[0] in s.jobs && s.jobs[s.queue[0]].at == Queued) && Inv(Proceed(s, w))
  {
    hide N, Of, Hands, InQueue, WasStop, WantStop, SetStop;
    if s.queue != [] {
      PopKeeps(s, w);
    } else {
      var s' := Proceed(s, w);
      SetStopFlag(s.count);
      WorkerMoved(s, w, s'.workers[w]);
      HandsIdle(s, s');
    }
  }

  lemma InvSection(s: Sys)
    requires Inv(s)
    ensures Section(s)
  {
    hide Numbers, Woken, Hands, InQueue;
  }

  lemma EnterKeeps(s: Sys, w: Tid)
    requires Inv(s) && w in s.workers && Awake(s.workers[w])
    ensures Safe(s, w, EnterOp) && Inv(Enter(s, w))
  {
    hide Inv, Section, N, Of;
    InvSection(s);
    if s.workers[w].at == Runs {
      CalledKeeps(s, w);
      ProceedKeeps(Called(s, w), w);
      FirstQueued(s);
    } else {
      ProceedKeeps(s, w);
    }
  }

  lemma FirstQueued(s: Sys)
    requires Section(s)
    ensures s.queue != [] ==> s.queue[0] in s.jobs && s.jobs[s.queue[0]].at == Queued
  {
    hide Numbers, Woken, Hands;
  }

  // ---------- runs ----------

  lemma StepKeeps(s: Sys, t: Tid, a: Action)
    requires Inv(s) && Enabled(s, t, a)
    ensures Safe(s, t, a) && Inv(Apply(s, t, a))
  {
    hide Inv, N, Of, HandsOver, Submit, SoftStop, HardStop, Enter;
    match a
    case SubmitOp(j) => SubmitKeeps(s, t, j);
    case NotifyOneOp(w) => NotifyOneKeeps(s, t, w);
    case SoftStopOp => SoftStopKeeps(s, t);
    case StopOp => StopKeeps(s, t);
    case HardStopOp => HardStopKeeps(s, t);
    case TellAllOp => TellAllKeeps(s, t);
    case DropOp => DropOneKeeps(s, t);
    case EnterOp => EnterKeeps(s, t);
    case NotifyAllOp => NotifyAllKeeps(s, t);
    case SpuriousOp => SpuriousKeeps(s, t);
  }

  /** A step that breaks an assumption of the code may do anything at all. */
  ghost predicate Step(s: Sys, s': Sys, t: Tid, a: Action) {
    Enabled(s, t, a) && (Safe(s, t, a) ==> s' == Apply(s, t, a))
  }

  datatype Event = Event(t: Tid, a: Action)

  ghost predicate Run(states: seq<Sys>, events: seq<Event>) {
    && |states| == |events| + 1
    && Init(states[0])
    && forall i :: 0 <= i < |events| ==> Step(states[i], states[i + 1], events[i].t, events[i].a)
  }

  /** In every run the counter stays within 64 bits and above zero, and whoever calls or drops a job has it
      to itself. */
  lemma {:induction false} RunsAreSafe(states: seq<Sys>, events: seq<Event>, n: nat)
    requires Run(states, events) && n <= |events|
    ensures Inv(states[n])
    ensures forall i :: 0 <= i < n ==> Enabled(states[i], events[i].t, events[i].a) && Safe(states[i], events[i].t, events[i].a)
  {
    hide Inv, Safe, Enabled, Apply;
    if n == 0 {
      InitInv(states[0]);
    } else {
      RunsAreSafe(states, events, n - 1);
      assert Step(states[n - 1], states[n - 1 + 1], events[n - 1].t, events[n - 1].a);
      StepKeeps(states[n - 1], events[n - 1].t, events[n - 1].a);
    }
  }

  ghost predicate Reachable(s: Sys) {
    exists states, events :: Run(states, events) && states[|states| - 1] == s
  }

  lemma ReachableInv(s: Sys)
    requires Reachable(s)
    ensures Inv(s)
  {
    hide Inv, Safe;
    var states, events :| Run(states, events) && states[|states| - 1] == s;
    RunsAreSafe(states, events, |events|);
  }

  // ---------- what the pool promises ----------

  /** The packed word is the number of queued and running jobs above the two flags; jobs that HardStop took
      away stay counted, but then the pool is stopped. */
  lemma CounterMeaning(s: Sys)
    requires Reachable(s)
    ensures s.count == 4 * (|s.queue| + N(s.workers, IsRunning) + s.moved)
                       + 2 * One(WantStop(s.count)) + One(WasStop(s.count))
    ensures !WasStop(s.count) ==> s.moved == 0
  {
    hide N, Of, Hands, InQueue;
    ReachableInv(s);
    Unpacked(s.count);
  }

  /** SoftStop, at once or when the last job is done, stops the pool only with no job queued or running. */
  lemma SoftStopOnlyIdle(s: Sys, t: Tid, a: Action)
    requires Reachable(s) && Enabled(s, t, a) && (a.SoftStopOp? || a.EnterOp?)
    ensures Safe(s, t, a)
    ensures !WasStop(s.count) && WasStop(Apply(s, t, a).count) ==>
              Apply(s, t, a).queue == [] && N(Apply(s, t, a).workers, IsRunning) == 0
  {
    hide N, Of, Inv, Reachable, HandsOver, WasStop, Counted, SoftStop, Enter;
    ReachableInv(s);
    StepKeeps(s, t, a);
    hide Safe;
    var s' := Apply(s, t, a);
    if !WasStop(s.count) && WasStop(s'.count) {
      if a.SoftStopOp? { SoftStops(s, t); } else { EnterStops(s, t); }
      CountedNow(s');
    }
  }

  lemma SoftStops(s: Sys, t: Tid)
    requires !WasStop(s.count)
    ensures WasStop(SoftStop(s, t).count) ==> SoftStop(s, t).count / 4 == 0
  {
    SetStopFlag(s.count);
    SetWantFlag(s.count);
  }

  lemma CountedNow(s: Sys)
    requires Inv(s) && s.count / 4 == 0
    ensures s.queue == [] && N(s.workers, IsRunning) == 0
  {
    hide N, Of, Hands, InQueue;
  }

  lemma EnterStops(s: Sys, w: Tid)
    requires Inv(s) && w in s.workers && Awake(s.workers[w]) && !WasStop(s.count)
    ensures Safe(s, w, EnterOp)
    ensures WasStop(Enter(s, w).count) ==> Enter(s, w).count / 4 == 0
  {
    hide N, Of, InQueue, Hands;
    EnterKeeps(s, w);
    if s.workers[w].at == Runs { CountDown(s.count); SetStopFlag(Called(s, w).count); }
    SetStopFlag(s.count);
  }

  /** No wake-up is lost: a queued job has an awake worker or a notification on its way, and after a stop
      nobody keeps waiting without one. */
  lemma NoLostWakeUp(s: Sys)
    requires Reachable(s)
    ensures s.queue != [] && s.workers != map[] ==> N(s.workers, Awake) + N(s.clients, IsNotifying) >= 1
    ensures WasStop(s.count) && N(s.workers, IsWaiting) > 0 ==>
              N(s.clients, IsTelling) + N(s.workers, IsNotifyingAll) >= 1
    ensures WantStop(s.count) && !WasStop(s.count) ==> |s.queue| + N(s.workers, IsRunning) >= 1
  {
    hide N, Of, Hands, InQueue;
    ReachableInv(s);
  }

  /** As long as a job is queued, or the pool is stopped but a worker has not exited, some thread can take a
      step that is not a new request. */
  lemma NobodyForgotten(s: Sys) returns (t: Tid, a: Action)
    requires Reachable(s) && s.workers != map[]
    requires s.queue != [] || (WasStop(s.count) && exists w :: w in s.workers && s.workers[w].at != Exited)
    ensures Enabled(s, t, a) && (a.EnterOp? || a.NotifyOneOp? || a.TellAllOp? || a.NotifyAllOp?)
  {
    hide Hands, InQueue, Of;
    ReachableInv(s);
    if N(s.workers, Awake) >= 1 {
      t := Witness(s.workers, Awake);
      a := EnterOp;
    } else if s.queue != [] {
      t := Witness(s.clients, IsNotifying);
      if N(s.workers, IsWaiting) > 0 {
        var w := Witness(s.workers, IsWaiting);
        a := NotifyOneOp(w);
      } else {
        a := NotifyOneOp(t);
      }
    } else if N(s.workers, IsNotifyingAll) >= 1 {
      t := Witness(s.workers, IsNotifyingAll);
      a := NotifyAllOp;
    } else {
      var w :| w in s.workers && s.workers[w].at != Exited;
      OnlyWaits(s, w);
      t := Witness(s.clients, IsTelling);
      a := TellAllOp;
    }
  }

  lemma OnlyWaits(s: Sys, w: Tid)
    requires w in s.workers && s.workers[w].at != Exited
    requires N(s.workers, Awake) == 0 && N(s.workers, IsNotifyingAll) == 0
    ensures N(s.workers, IsWaiting) >= 1
  {
    if Awake(s.workers[w]) { Present(s.workers, Awake, w); }
    if IsNotifyingAll(s.workers[w]) { Present(s.workers, IsNotifyingAll, w); }
    Present(s.workers, IsWaiting, w);
  }

  /** When all workers have exited, no job is queued or running: every submitted job was called or dropped
      exactly once, or a client is in the middle of dropping it. */
  lemma NothingLeftBehind(s: Sys, j: Tid)
    requires Reachable(s) && s.workers != map[] && (forall w :: w in s.workers ==> s.workers[w].at == Exited)
    requires j in s.jobs && s.jobs[j].at != New
    ensures s.jobs[j].at == Doomed || (s.jobs[j].at == Done && s.jobs[j].calls + s.jobs[j].drops == 1)
    ensures s.jobs[j].at == Doomed ==> s.jobs[j].holder in s.clients && j in s.clients[s.jobs[j].holder].todo
  {
    hide N, Of;
    ReachableInv(s);
    JobKnows(s, j);
    var w :| w in s.workers;
    Present(s.workers, IsGone, w);
  }

  /** Whatever happens, no job is called or dropped twice. */
  lemma AtMostOnce(s: Sys, j: Tid)
    requires Reachable(s) && j in s.jobs
    ensures s.jobs[j].calls + s.jobs[j].drops == if s.jobs[j].at == Done then 1 else 0
  {
    hide N, Of;
    ReachableInv(s);
    JobKnows(s, j);
  }
}
