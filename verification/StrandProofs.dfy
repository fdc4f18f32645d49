/** What a Strand promises, in every interleaving of StrandRuns. */
module StrandProofs {
  import opened Common
  import opened Census
  import opened StrandRuns

  // ---------- the invariant ----------

  predicate IsLive(x: Act) { x.at == Pending || x.at == Calls || x.at == Checks || x.at == MarkCas }
  predicate IsOutstanding(x: Act) { x.at != Over }
  predicate IsActivating(x: Job) { x.at == Activates || x.at == Submits }
  predicate IsSubmitting(x: Job) { x.at == Submits }
  predicate OnStack(x: Job) { x.at == Listed || x.at == Activates || x.at == Submits }
  predicate InFlight(x: Job) { OnStack(x) || x.at == ToCall || x.at == ToDrop }

  /** The strand is not marked exactly when one activation, or one job about to cause one, is on its way, and
      its references are those of the users and one for every activation. */
  ghost predicate Numbers(s: Sys) {
    && N(s.acts, IsLive) + N(s.jobs, IsActivating) == One(!s.marked)
    && (s.marked ==> s.stack == [])
    && s.refs == s.users + N(s.acts, IsOutstanding) + N(s.jobs, IsSubmitting)
    && s.users >= N(s.jobs, Pushing)
  }

  ghost predicate Stacked(jobs: map<Tid, Job>, stack: seq<Tid>) {
    && Distinct(stack)
    && (forall i :: 0 <= i < |stack| ==> stack[i] in jobs && OnStack(jobs[stack[i]]))
    && (forall j :: j in jobs && OnStack(jobs[j]) ==> j in stack)
  }

  /** Every job is called or dropped once for each time it was pushed, unless it is still on its way; a job
      taken from the stack is in the list of the activation that took it. */
  ghost predicate JobOk(x: Job, j: Tid, acts: map<Tid, Act>) {
    && x.pushes == x.calls + x.drops + One(InFlight(x))
    && (x.at == ToCall || x.at == ToDrop ==>
          && x.holder in acts && j in acts[x.holder].todo
          && acts[x.holder].at == if x.at == ToCall then Calls else Drops)
  }

  ghost predicate JobsOk(jobs: map<Tid, Job>, acts: map<Tid, Act>) {
    forall j :: j in jobs ==> JobOk(jobs[j], j, acts)
  }

  ghost predicate Holds(jobs: map<Tid, Job>, todo: seq<Tid>, p: JobPhase, a: Tid) {
    && todo != [] && Distinct(todo)
    && forall i :: 0 <= i < |todo| ==> todo[i] in jobs && jobs[todo[i]].at == p && jobs[todo[i]].holder == a
  }

  ghost predicate ActOk(x: Act, a: Tid, jobs: map<Tid, Job>, empty: bool, called: seq<Tid>, toCall: seq<Tid>) {
    match x.at
    case Pending => x.todo == [] && !empty && toCall == called
    case Calls => Holds(jobs, x.todo, ToCall, a) && toCall == called + x.todo
    case Checks => x.todo == [] && toCall == called
    case MarkCas => x.todo == [] && toCall == called
    case Drops => Holds(jobs, x.todo, ToDrop, a)
    case _ => x.todo == []
  }

  ghost predicate ActsOk(s: Sys) {
    && (forall a :: a in s.acts ==> ActOk(s.acts[a], a, s.jobs, s.stack == [], s.called, s.toCall))
    && (N(s.acts, IsLive) == 0 ==> s.toCall == s.called)
  }

  function Flat(b: seq<Batch>): seq<Tid> {
    if b == [] then [] else Flat(b[..|b| - 1]) + b[|b| - 1].jobs
  }

  function FlatCalled(b: seq<Batch>): seq<Tid> {
    if b == [] then []
    else FlatCalled(b[..|b| - 1]) + if b[|b| - 1].dropped then [] else b[|b| - 1].jobs
  }

  /** Whatever was pushed went into some batch, in order, or is on the stack; the batches of the Call
      activations are called in order. */
  ghost predicate History(pushed: seq<Tid>, batches: seq<Batch>, stack: seq<Tid>, toCall: seq<Tid>) {
    pushed == Flat(batches) + stack && toCall == FlatCalled(batches)
  }

  ghost predicate Inv(s: Sys) {
    && Numbers(s) && Stacked(s.jobs, s.stack) && JobsOk(s.jobs, s.acts) && ActsOk(s)
    && History(s.pushed, s.batches, s.stack, s.toCall)
  }

  lemma InitInv(s: Sys)
    requires Init(s)
    ensures Inv(s)
  {
    Nobody(s.acts, IsLive);
    Nobody(s.acts, IsOutstanding);
    Nobody(s.jobs, IsActivating);
    Nobody(s.jobs, IsSubmitting);
    Nobody(s.jobs, Pushing);
  }

  // ---------- counting ----------

  lemma JobMoved(s: Sys, t: Tid, x: Job)
    requires t in s.jobs
    ensures N(s.jobs[t := x], IsActivating) == N(s.jobs, IsActivating) - One(IsActivating(s.jobs[t])) + One(IsActivating(x))
    ensures N(s.jobs[t := x], IsSubmitting) == N(s.jobs, IsSubmitting) - One(IsSubmitting(s.jobs[t])) + One(IsSubmitting(x))
    ensures N(s.jobs[t := x], Pushing) == N(s.jobs, Pushing) - One(Pushing(s.jobs[t])) + One(Pushing(x))
    ensures N(s.jobs, IsActivating) >= One(IsActivating(s.jobs[t]))
    ensures N(s.jobs, IsSubmitting) >= One(IsSubmitting(s.jobs[t]))
    ensures N(s.jobs, Pushing) >= One(Pushing(s.jobs[t]))
  {
    hide N, Of;
    Moved(s.jobs, t, x, IsActivating);
    Moved(s.jobs, t, x, IsSubmitting);
    Moved(s.jobs, t, x, Pushing);
  }

  lemma ActMoved(s: Sys, a: Tid, x: Act)
    requires a in s.acts
    ensures N(s.acts[a := x], IsLive) == N(s.acts, IsLive) - One(IsLive(s.acts[a])) + One(IsLive(x))
    ensures N(s.acts[a := x], IsOutstanding)
         == N(s.acts, IsOutstanding) - One(IsOutstanding(s.acts[a])) + One(IsOutstanding(x))
    ensures N(s.acts, IsLive) >= One(IsLive(s.acts[a]))
    ensures N(s.acts, IsOutstanding) >= One(IsOutstanding(s.acts[a]))
  {
    hide N, Of;
    Moved(s.acts, a, x, IsLive);
    Moved(s.acts, a, x, IsOutstanding);
  }

  lemma ActJoined(s: Sys, a: Tid, x: Act)
    requires a !in s.acts
    ensures N(s.acts[a := x], IsLive) == N(s.acts, IsLive) + One(IsLive(x))
    ensures N(s.acts[a := x], IsOutstanding) == N(s.acts, IsOutstanding) + One(IsOutstanding(x))
  {
    hide N, Of;
    Joined(s.acts, a, x, IsLive);
    Joined(s.acts, a, x, IsOutstanding);
  }

  /** A live activation is the only one, and no job is about to cause another. */
  lemma LiveAlone(s: Sys, a: Tid, b: Tid)
    requires Numbers(s) && a in s.acts && IsLive(s.acts[a]) && b in s.acts
    ensures !s.marked && N(s.jobs, IsActivating) == 0 && N(s.acts, IsLive) == 1
    ensures IsLive(s.acts[b]) ==> a == b
  {
    Present(s.acts, IsLive, a);
    if IsLive(s.acts[b]) && a != b { TwoPresent(s.acts, IsLive, a, b); }
  }

  lemma NotActivating(s: Sys, j: Tid)
    requires N(s.jobs, IsActivating) == 0 && j in s.jobs
    ensures !IsActivating(s.jobs[j])
  {
    if IsActivating(s.jobs[j]) { Present(s.jobs, IsActivating, j); }
  }

  // ---------- Submit ----------

  lemma JobKnows(s: Sys, t: Tid)
    requires JobsOk(s.jobs, s.acts) && t in s.jobs
    ensures JobOk(s.jobs[t], t, s.acts)
  {
  }

  /** A job that is not taken by an activation changes; the lists of the activations do not notice. */
  lemma ActsIgnore(s: Sys, t: Tid, x: Job, stack: seq<Tid>)
    requires ActsOk(s) && t in s.jobs && s.jobs[t].at != ToCall && s.jobs[t].at != ToDrop
    requires s.stack != [] ==> stack != []
    ensures ActsOk(PutJob(s, t, x).(stack := stack))
  {
    hide N, Of;
    var s' := PutJob(s, t, x).(stack := stack);
    forall a | a in s'.acts ensures ActOk(s'.acts[a], a, s'.jobs, s'.stack == [], s'.called, s'.toCall) {
      assert ActOk(s.acts[a], a, s.jobs, s.stack == [], s.called, s.toCall);
    }
  }

  lemma LoadKeeps(s: Sys, t: Tid)
    requires Inv(s) && t in s.jobs && (s.jobs[t].at == Idle || s.jobs[t].at == Pushes)
    requires s.jobs[t].at == Idle ==> s.users > N(s.jobs, Pushing)
    ensures s.refs > 0 && Inv(Load(s, t))
  {
    hide N, Of, History, ActsOk;
    var x := Load(s, t).jobs[t];
    JobMoved(s, t, x);
    ActsIgnore(s, t, x, s.stack);
    JobKnows(s, t);
  }

  lemma StackedPush(jobs: map<Tid, Job>, stack: seq<Tid>, t: Tid, x: Job)
    requires Stacked(jobs, stack) && t in jobs && !OnStack(jobs[t]) && OnStack(x)
    ensures Stacked(jobs[t := x], stack + [t])
  {
    var q := stack + [t];
    forall j | j in jobs && (OnStack(jobs[j]) || j == t) ensures j in q {
      if j == t { assert q[|stack|] == t; } else { assert j in stack; }
    }
  }

  lemma HistoryPush(s: Sys, t: Tid)
    requires History(s.pushed, s.batches, s.stack, s.toCall)
    ensures History(s.pushed + [t], s.batches, s.stack + [t], s.toCall)
  {
    assert Flat(s.batches) + (s.stack + [t]) == (Flat(s.batches) + s.stack) + [t];
  }

  lemma PushKeeps(s: Sys, t: Tid, spurious: bool)
    requires Inv(s) && t in s.jobs && s.jobs[t].at == Pushes
    ensures s.refs > 0 && Inv(Push(s, t, spurious))
  {
    hide N, Of, History, ActsOk, Stacked;
    if spurious || Jobs(s) != s.jobs[t].expected {
      LoadKeeps(s, t);
    } else {
      var s' := Push(s, t, spurious);
      var x := s'.jobs[t];
      JobMoved(s, t, x);
      ActsIgnore(s, t, x, s.stack + [t]);
      JobKnows(s, t);
      StackedPush(s.jobs, s.stack, t, x);
      HistoryPush(s, t);
      ActsFrame(PutJob(s, t, x).(stack := s.stack + [t]), s');
    }
  }

  lemma ActsFrame(s: Sys, s': Sys)
    requires ActsOk(s) && s'.acts == s.acts && s'.jobs == s.jobs && s'.stack == s.stack
    requires s'.called == s.called && s'.toCall == s.toCall
    ensures ActsOk(s')
  {
    hide N, Of, ActOk;
  }

  lemma StackedSame(jobs: map<Tid, Job>, stack: seq<Tid>, t: Tid, x: Job)
    requires Stacked(jobs, stack) && t in jobs && (OnStack(jobs[t]) <==> OnStack(x))
    ensures Stacked(jobs[t := x], stack)
  {
  }

  lemma IncRefKeeps(s: Sys, t: Tid)
    requires Inv(s) && t in s.jobs && s.jobs[t].at == Activates
    ensures s.refs > 0 && Inv(IncRef(s, t))
  {
    hide N, Of, History, ActsOk, Stacked;
    var s' := IncRef(s, t);
    var x := s'.jobs[t];
    JobMoved(s, t, x);
    ActsIgnore(s, t, x, s.stack);
    JobKnows(s, t);
    StackedSame(s.jobs, s.stack, t, x);
    ActsFrame(PutJob(s, t, x), s');
  }

  lemma ActivateKeeps(s: Sys, t: Tid, a: Tid)
    requires Inv(s) && t in s.jobs && s.jobs[t].at == Submits && a !in s.acts
    ensures s.refs > 0 && Inv(Activate(s, t, a))
  {
    hide N, Of, History, Stacked;
    var s' := Activate(s, t, a);
    var x := s'.jobs[t];
    JobMoved(s, t, x);
    ActJoined(s, a, s'.acts[a]);
    ActsIgnore(s, t, x, s.stack);
    StackedHas(s.jobs, s.stack, t);
    StackedSame(s.jobs, s.stack, t, x);
    forall j | j in s'.jobs ensures JobOk(s'.jobs[j], j, s'.acts) { JobKnows(s, j); }
  }

  lemma StackedHas(jobs: map<Tid, Job>, stack: seq<Tid>, t: Tid)
    requires Stacked(jobs, stack) && t in jobs && OnStack(jobs[t])
    ensures t in stack
  {
  }

  // ---------- an activation changes ----------

  lemma ActKnows(s: Sys, a: Tid)
    requires ActsOk(s) && a in s.acts
    ensures ActOk(s.acts[a], a, s.jobs, s.stack == [], s.called, s.toCall)
  {
    hide N, Of;
  }

  /** An activation with nothing to do any more goes on; the jobs do not notice. */
  lemma ActPut(s: Sys, a: Tid, x: Act)
    requires JobsOk(s.jobs, s.acts) && ActsOk(s) && a in s.acts && s.acts[a].todo == []
    requires ActOk(x, a, s.jobs, s.stack == [], s.called, s.toCall) && (!IsLive(x) ==> s.toCall == s.called)
    ensures JobsOk(s.jobs, s.acts[a := x]) && ActsOk(PutAct(s, a, x))
  {
    hide N, Of;
    var s' := PutAct(s, a, x);
    forall j | j in s'.jobs ensures JobOk(s'.jobs[j], j, s'.acts) { JobKnows(s, j); }
    if IsLive(x) { Present(s'.acts, IsLive, a); }
  }

  lemma CheckKeeps(s: Sys, a: Tid)
    requires Inv(s) && a in s.acts && s.acts[a].at == Checks
    ensures s.refs > 0 && Inv(Check(s, a))
  {
    hide N, Of, History, ActsOk, Stacked, JobsOk;
    ActKnows(s, a);
    LiveAlone(s, a, a);
    ActMoved(s, a, Check(s, a).acts[a]);
    ActPut(s, a, Check(s, a).acts[a]);
  }

  lemma CasToMarkKeeps(s: Sys, a: Tid)
    requires Inv(s) && a in s.acts && s.acts[a].at == MarkCas
    ensures s.refs > 0 && Inv(CasToMark(s, a))
  {
    hide N, Of, History, ActsOk, Stacked, JobsOk;
    ActKnows(s, a);
    LiveAlone(s, a, a);
    ActMoved(s, a, CasToMark(s, a).acts[a]);
    ActPut(s, a, CasToMark(s, a).acts[a]);
    ActsFrame(PutAct(s, a, CasToMark(s, a).acts[a]), CasToMark(s, a));
  }

  lemma EndKeeps(s: Sys, a: Tid)
    requires Inv(s) && a in s.acts && s.acts[a].at == Ends
    ensures s.refs > 0 && (s.refs == 1 ==> s.marked) && Inv(End(s, a))
  {
    hide N, Of, History, ActsOk, Stacked, JobsOk;
    ActKnows(s, a);
    ActMoved(s, a, Act(Over, []));
    EndPut(s, a);
    if s.refs == 1 { LastLeaves(s, a); }
    ActsFrame(PutAct(s, a, Act(Over, [])), End(s, a));
  }

  lemma EndPut(s: Sys, a: Tid)
    requires JobsOk(s.jobs, s.acts) && ActsOk(s) && a in s.acts && s.acts[a] == Act(Ends, [])
    ensures JobsOk(s.jobs, s.acts[a := Act(Over, [])]) && ActsOk(PutAct(s, a, Act(Over, [])))
  {
    hide N, Of;
    var s' := PutAct(s, a, Act(Over, []));
    forall j | j in s'.jobs ensures JobOk(s'.jobs[j], j, s'.acts) { JobKnows(s, j); }
    ActMoved(s, a, Act(Over, []));
  }

  /** The last reference goes when no activation is live and no job is about to cause one. */
  lemma LastLeaves(s: Sys, a: Tid)
    requires Numbers(s) && s.refs == 1
    requires s.users > N(s.jobs, Pushing) || (a in s.acts && s.acts[a].at == Ends)
    ensures s.marked
  {
    hide Of;
    if !s.marked {
      if a in s.acts && s.acts[a].at == Ends { Present(s.acts, IsOutstanding, a); }
      if N(s.acts, IsLive) >= 1 {
        var b := Witness(s.acts, IsLive);
        Present(s.acts, IsOutstanding, b);
        if a in s.acts && s.acts[a].at == Ends { TwoPresent(s.acts, IsOutstanding, a, b); }
      } else {
        var j := Witness(s.jobs, IsActivating);
        Present(s.jobs, Pushing, j);
      }
    }
  }

  lemma UsersKeep(s: Sys, d: int)
    requires Inv(s) && (d == 1 || (d == -1 && s.users > N(s.jobs, Pushing))) && s.users >= 1
    ensures s.refs > 0 && (d == -1 && s.refs == 1 ==> s.marked)
    ensures Inv(s.(users := s.users + d, refs := s.refs + d))
  {
    hide N, Of, History, ActsOk, Stacked, JobsOk;
    ActsFrame(s, s.(users := s.users + d, refs := s.refs + d));
    if d == -1 && s.refs == 1 { LastLeaves(s, Tid(0)); }
  }

  // ---------- taking the list ----------

  /** The jobs of the list go to activation `a`. */
  lemma TakenCounts(jobs: map<Tid, Job>, q: seq<Tid>, p: JobPhase, a: Tid)
    requires forall j :: j in q ==> j in jobs && jobs[j].at == Listed
    requires p == ToCall || p == ToDrop
    ensures N(Taken(jobs, q, p, a), IsActivating) == N(jobs, IsActivating)
    ensures N(Taken(jobs, q, p, a), IsSubmitting) == N(jobs, IsSubmitting)
    ensures N(Taken(jobs, q, p, a), Pushing) == N(jobs, Pushing)
  {
    hide N, Of;
    Unmoved(jobs, Taken(jobs, q, p, a), IsActivating);
    Unmoved(jobs, Taken(jobs, q, p, a), IsSubmitting);
    Unmoved(jobs, Taken(jobs, q, p, a), Pushing);
  }

  lemma TakenStack(jobs: map<Tid, Job>, q: seq<Tid>, p: JobPhase, a: Tid)
    requires Stacked(jobs, q) && (p == ToCall || p == ToDrop)
    ensures Stacked(Taken(jobs, q, p, a), [])
  {
  }

  /** Everybody on the stack is just listed while an activation is live. */
  lemma StackListed(s: Sys, a: Tid)
    requires Inv(s) && a in s.acts && IsLive(s.acts[a])
    ensures AllListed(s)
  {
    hide N, Of, History, ActsOk, JobsOk;
    LiveAlone(s, a, a);
    forall j | j in s.stack ensures j in s.jobs && s.jobs[j].at == Listed {
      var i :| 0 <= i < |s.stack| && s.stack[i] == j;
      NotActivating(s, j);
    }
  }

  lemma TakenJobs(s: Sys, a: Tid, p: JobPhase, x: Act)
    requires JobsOk(s.jobs, s.acts) && AllListed(s) && a in s.acts && s.acts[a].todo == []
    requires x.at == (if p == ToCall then Calls else Drops) && (p == ToCall || p == ToDrop)
    requires forall j :: j in x.todo <==> j in s.stack
    ensures JobsOk(Taken(s.jobs, s.stack, p, a), s.acts[a := x])
  {
    var jobs', acts' := Taken(s.jobs, s.stack, p, a), s.acts[a := x];
    forall j | j in jobs' ensures JobOk(jobs'[j], j, acts') { JobKnows(s, j); }
  }

  /** The other activations keep their jobs. */
  lemma TakenActs(s: Sys, s': Sys, a: Tid, p: JobPhase)
    requires Numbers(s) && ActsOk(s) && AllListed(s) && a in s.acts && IsLive(s.acts[a])
    requires a in s'.acts && s'.acts == s.acts[a := s'.acts[a]] && s'.jobs == Taken(s.jobs, s.stack, p, a)
    requires ActOk(s'.acts[a], a, s'.jobs, s'.stack == [], s'.called, s'.toCall)
    requires !IsLive(s'.acts[a]) ==> s'.toCall == s'.called
    ensures ActsOk(s')
  {
    hide N, Of;
    forall b | b in s'.acts ensures ActOk(s'.acts[b], b, s'.jobs, s'.stack == [], s'.called, s'.toCall) {
      LiveAlone(s, a, b);
      ActKnows(s, b);
    }
    if IsLive(s'.acts[a]) { Present(s'.acts, IsLive, a); }
  }

  lemma FlatSnoc(b: seq<Batch>, x: Batch)
    ensures Flat(b + [x]) == Flat(b) + x.jobs
    ensures FlatCalled(b + [x]) == FlatCalled(b) + if x.dropped then [] else x.jobs
  {
    assert (b + [x])[..|b|] == b;
  }

  lemma CallKeeps(s: Sys, a: Tid)
    requires Inv(s) && a in s.acts && s.acts[a].at == Pending
    ensures s.refs > 0 && !s.marked && s.stack != [] && AllListed(s) && Inv(Call(s, a))
  {
    hide N, Of, Stacked, JobsOk, ActsOk;
    var s' := Call(s, a);
    ActKnows(s, a);
    LiveAlone(s, a, a);
    StackListed(s, a);
    ActMoved(s, a, s'.acts[a]);
    TakenCounts(s.jobs, s.stack, ToCall, a);
    TakenStack(s.jobs, s.stack, ToCall, a);
    TakenJobs(s, a, ToCall, s'.acts[a]);
    FlatSnoc(s.batches, Batch(s.stack, false));
    assert Holds(s'.jobs, s.stack, ToCall, a) by { TakenHolds(s, s.stack, ToCall, a); }
    TakenActs(s, s', a, ToCall);
  }

  lemma TakenHolds(s: Sys, todo: seq<Tid>, p: JobPhase, a: Tid)
    requires Stacked(s.jobs, s.stack) && AllListed(s) && s.stack != []
    requires todo == s.stack || todo == Reversed(s.stack)
    ensures Holds(Taken(s.jobs, s.stack, p, a), todo, p, a)
  {
    forall i | 0 <= i < |todo| ensures todo[i] in s.stack {
      if todo != s.stack { assert todo[i] == s.stack[|s.stack| - 1 - i]; }
    }
  }

  lemma ReversedElements(q: seq<Tid>)
    ensures forall j :: j in Reversed(q) <==> j in q
  {
    forall j | j in q ensures j in Reversed(q) {
      var i :| 0 <= i < |q| && q[i] == j;
      assert Reversed(q)[|q| - 1 - i] == j;
    }
  }

  lemma DropKeeps(s: Sys, a: Tid)
    requires Inv(s) && a in s.acts && s.acts[a].at == Pending
    ensures s.refs > 0 && !s.marked && s.stack != [] && AllListed(s) && Inv(Drop(s, a))
  {
    hide N, Of, Stacked, JobsOk, ActsOk;
    var s' := Drop(s, a);
    ActKnows(s, a);
    LiveAlone(s, a, a);
    StackListed(s, a);
    ActMoved(s, a, s'.acts[a]);
    TakenCounts(s.jobs, s.stack, ToDrop, a);
    TakenStack(s.jobs, s.stack, ToDrop, a);
    ReversedElements(s.stack);
    TakenJobs(s, a, ToDrop, s'.acts[a]);
    FlatSnoc(s.batches, Batch(s.stack, true));
    assert Holds(s'.jobs, Reversed(s.stack), ToDrop, a) by { TakenHolds(s, Reversed(s.stack), ToDrop, a); }
    TakenActs(s, s', a, ToDrop);
  }

  // ---------- one job is called or dropped ----------

  /** The first job of the list of `a` is done with. */
  ghost predicate OneDone(s: Sys, a: Tid, p: JobPhase, y: Job, x: Act)
    requires a in s.acts
  {
    && Holds(s.jobs, s.acts[a].todo, p, a)
    && y.at == Idle && x.todo == s.acts[a].todo[1..]
    && y.pushes == y.calls + y.drops
    && (x.todo != [] ==> x.at == s.acts[a].at)
    && s.acts[a].at == (if p == ToCall then Calls else Drops) && (p == ToCall || p == ToDrop)
  }

  lemma OneDoneJobs(s: Sys, a: Tid, p: JobPhase, y: Job, x: Act)
    requires JobsOk(s.jobs, s.acts) && a in s.acts && OneDone(s, a, p, y, x)
    ensures JobsOk(s.jobs[s.acts[a].todo[0] := y], s.acts[a := x])
  {
    var q := s.acts[a].todo;
    var jobs', acts' := s.jobs[q[0] := y], s.acts[a := x];
    forall j | j in jobs' ensures JobOk(jobs'[j], j, acts') {
      JobKnows(s, j);
      if j != q[0] && j in q {
        var i :| 0 <= i < |q| && q[i] == j;
        assert q[1..][i - 1] == j;
      }
    }
  }

  lemma HoldsRest(s: Sys, a: Tid, p: JobPhase, y: Job, x: Act)
    requires a in s.acts && OneDone(s, a, p, y, x)
    ensures x.todo != [] ==> Holds(s.jobs[s.acts[a].todo[0] := y], x.todo, p, a)
  {
  }

  lemma HoldsOther(jobs: map<Tid, Job>, todo: seq<Tid>, p: JobPhase, b: Tid, j: Tid, y: Job)
    requires Holds(jobs, todo, p, b) && j in jobs && jobs[j].holder != b
    ensures Holds(jobs[j := y], todo, p, b)
  {
  }

  lemma OneDoneActs(s: Sys, s': Sys, a: Tid, p: JobPhase, y: Job, x: Act)
    requires ActsOk(s) && a in s.acts && OneDone(s, a, p, y, x)
    requires s'.jobs == s.jobs[s.acts[a].todo[0] := y] && s'.acts == s.acts[a := x] && s'.stack == s.stack
    requires s'.toCall == s.toCall && ActOk(x, a, s'.jobs, s'.stack == [], s'.called, s'.toCall)
    requires p == ToDrop ==> s'.called == s.called && N(s'.acts, IsLive) == N(s.acts, IsLive)
    requires p == ToCall ==> IsLive(x) && Numbers(s)
    ensures ActsOk(s')
  {
    var j := s.acts[a].todo[0];
    hide N, Of, Holds;
    forall b | b in s'.acts ensures ActOk(s'.acts[b], b, s'.jobs, s'.stack == [], s'.called, s'.toCall) {
      ActKnows(s, b);
      if b != a {
        if p == ToCall { LiveAlone(s, a, b); }
        FirstHeld(s, a, p);
        if s.acts[b].at == Drops { HoldsOther(s.jobs, s.acts[b].todo, ToDrop, b, j, y); }
        if s.acts[b].at == Calls { HoldsOther(s.jobs, s.acts[b].todo, ToCall, b, j, y); }
      }
    }
    if p == ToCall { Present(s'.acts, IsLive, a); }
  }

  lemma FirstHeld(s: Sys, a: Tid, p: JobPhase)
    requires a in s.acts && Holds(s.jobs, s.acts[a].todo, p, a)
    ensures var j := s.acts[a].todo[0]; j in s.jobs && s.jobs[j].at == p && s.jobs[j].holder == a
  {
  }

  lemma CallOneKeeps(s: Sys, a: Tid)
    requires Inv(s) && a in s.acts && s.acts[a].at == Calls
    ensures s.refs > 0 && s.acts[a].todo != [] && s.acts[a].todo[0] in s.jobs && s.jobs[s.acts[a].todo[0]].at == ToCall
    ensures Inv(CallOne(s, a))
  {
    hide N, Of, Stacked, JobsOk, ActsOk, History;
    ActKnows(s, a);
    LiveAlone(s, a, a);
    var q, s' := s.acts[a].todo, CallOne(s, a);
    var j := q[0];
    JobKnows(s, j);
    JobMoved(s, j, s'.jobs[j]);
    ActMoved(s, a, s'.acts[a]);
    StackedSame(s.jobs, s.stack, j, s'.jobs[j]);
    OneDoneJobs(s, a, ToCall, s'.jobs[j], s'.acts[a]);
    HoldsRest(s, a, ToCall, s'.jobs[j], s'.acts[a]);
    assert s.called + q == (s.called + [j]) + q[1..];
    OneDoneActs(s, s', a, ToCall, s'.jobs[j], s'.acts[a]);
  }

  lemma DropOneKeeps(s: Sys, a: Tid)
    requires Inv(s) && a in s.acts && s.acts[a].at == Drops
    ensures s.refs > 0 && s.acts[a].todo != [] && s.acts[a].todo[0] in s.jobs && s.jobs[s.acts[a].todo[0]].at == ToDrop
    ensures Inv(DropOne(s, a))
  {
    hide N, Of, Stacked, JobsOk, ActsOk, History;
    ActKnows(s, a);
    var q, s' := s.acts[a].todo, DropOne(s, a);
    var j := q[0];
    JobKnows(s, j);
    JobMoved(s, j, s'.jobs[j]);
    ActMoved(s, a, s'.acts[a]);
    StackedSame(s.jobs, s.stack, j, s'.jobs[j]);
    OneDoneJobs(s, a, ToDrop, s'.jobs[j], s'.acts[a]);
    HoldsRest(s, a, ToDrop, s'.jobs[j], s'.acts[a]);
    OneDoneActs(s, s', a, ToDrop, s'.jobs[j], s'.acts[a]);
  }

  // ---------- runs ----------

  lemma StepKeeps(s: Sys, t: Tid, op: Action)
    requires Inv(s) && Enabled(s, t, op)
    ensures Safe(s, t, op) && Inv(Apply(s, t, op))
  {
    hide Inv, N, Of, AllListed;
    match op
    case SubmitOp => LoadKeeps(s, t);
    case PushOp(spurious) => PushKeeps(s, t, spurious);
    case IncRefOp => IncRefKeeps(s, t);
    case ActivateOp(a) => ActivateKeeps(s, t, a);
    case CallOp => CallKeeps(s, t);
    case CallOneOp => CallOneKeeps(s, t);
    case CheckOp => CheckKeeps(s, t);
    case MarkCasOp => CasToMarkKeeps(s, t);
    case DropOp => DropKeeps(s, t);
    case DropOneOp => DropOneKeeps(s, t);
    case EndOp => EndKeeps(s, t);
    case ShareOp => UsersKeep(s, 1);
    case ReleaseOp => UsersKeep(s, -1);
  }

  /** A step that breaks an assumption of the code may do anything at all. */
  ghost predicate Step(s: Sys, s': Sys, t: Tid, op: Action) {
    Enabled(s, t, op) && (Safe(s, t, op) ==> s' == Apply(s, t, op))
  }

  datatype Event = Event(t: Tid, op: Action)

  ghost predicate Run(states: seq<Sys>, events: seq<Event>) {
    && |states| == |events| + 1
    && Init(states[0])
    && forall i :: 0 <= i < |events| ==> Step(states[i], states[i + 1], events[i].t, events[i].op)
  }

  /** In every run the strand exists whenever it is touched, Call and Drop find a list that is neither empty nor
      Mark, and the strand is empty when its last reference goes. */
  lemma {:induction false} RunsAreSafe(states: seq<Sys>, events: seq<Event>, n: nat)
    requires Run(states, events) && n <= |events|
    ensures Inv(states[n])
    ensures forall i :: 0 <= i < n ==> Enabled(states[i], events[i].t, events[i].op) && Safe(states[i], events[i].t, events[i].op)
  {
    hide Inv, Safe, Enabled, Apply;
    if n == 0 {
      InitInv(states[0]);
    } else {
      RunsAreSafe(states, events, n - 1);
      assert Step(states[n - 1], states[n - 1 + 1], events[n - 1].t, events[n - 1].op);
      StepKeeps(states[n - 1], events[n - 1].t, events[n - 1].op);
    }
  }

  ghost predicate Reachable(s: Sys) {
    exists states, events :: Run(states, events) && states[|states| - 1] == s
  }

  lemma ReachableInv(s: Sys)
    requires Reachable(s)
    ensures Inv(s)
  {
    hide Inv, Safe;
    var states, events :| Run(states, events) && states[|states| - 1] == s;
    RunsAreSafe(states, events, |events|);
  }

  // ---------- what a strand promises ----------

  predicate InCall(x: Act) { x.at == Calls || x.at == Checks || x.at == MarkCas }

  /** At most one activation is in Call, and while it is, no other waits in the executor's queue. */
  lemma OneCallAtATime(s: Sys, a: Tid, b: Tid)
    requires Reachable(s) && a in s.acts && b in s.acts && InCall(s.acts[a]) && IsLive(s.acts[b])
    ensures a == b
  {
    ReachableInv(s);
    LiveAlone(s, a, b);
  }

  /** Jobs are called in the order of their successful pushes: all pushes are the batches, in order, followed
      by what is still on the stack, and all calls are a prefix of the batches that were not dropped. */
  lemma CallOrder(s: Sys)
    requires Reachable(s)
    ensures s.pushed == Flat(s.batches) + s.stack
    ensures s.called <= FlatCalled(s.batches)
    ensures (forall a :: a in s.acts ==> s.acts[a].at != Calls) ==> s.called == FlatCalled(s.batches)
  {
    ReachableInv(s);
    if N(s.acts, IsLive) >= 1 {
      var a := Witness(s.acts, IsLive);
      ActKnows(s, a);
    }
  }

  /** A job was called or dropped exactly once for each time it was pushed, unless it is on its way, and then
      once less. */
  lemma ExactlyOnce(s: Sys, j: Tid)
    requires Reachable(s) && j in s.jobs
    ensures s.jobs[j].pushes == s.jobs[j].calls + s.jobs[j].drops + One(InFlight(s.jobs[j]))
    ensures InFlight(s.jobs[j]) ==>
              j in s.stack || (s.jobs[j].holder in s.acts && j in s.acts[s.jobs[j].holder].todo)
  {
    ReachableInv(s);
    JobKnows(s, j);
    if OnStack(s.jobs[j]) { StackedHas(s.jobs, s.stack, j); }
  }

  /** The strand owns a reference to itself for every activation that was asked for and is not over. */
  lemma SelfReferences(s: Sys)
    requires Reachable(s)
    ensures s.refs - s.users == N(s.acts, IsOutstanding) + N(s.jobs, IsSubmitting)
    ensures N(s.acts, IsLive) + N(s.jobs, IsActivating) == (if s.marked then 0 else 1)
  {
    ReachableInv(s);
  }

  /** As long as a job is on its way, an activation or a submitter can take a step. */
  lemma NobodyForgotten(s: Sys, j: Tid) returns (t: Tid, op: Action)
    requires Reachable(s) && j in s.jobs && InFlight(s.jobs[j])
    ensures Enabled(s, t, op)
    ensures (t in s.acts && s.acts[t].at != Over && !op.PushOp?) || (t in s.jobs && IsActivating(s.jobs[t]))
  {
    ReachableInv(s);
    ExactlyOnce(s, j);
    if j in s.stack {
      if N(s.acts, IsLive) >= 1 {
        t := Witness(s.acts, IsLive);
        op := match s.acts[t].at case Pending => CallOp case Calls => CallOneOp case Checks => CheckOp case _ => MarkCasOp;
      } else {
        t := Witness(s.jobs, IsActivating);
        var a := Unused(s.acts);
        op := if s.jobs[t].at == Activates then IncRefOp else ActivateOp(a);
      }
    } else {
      t := s.jobs[j].holder;
      ActKnows(s, t);
      JobKnows(s, j);
      op := if s.acts[t].at == Calls then CallOneOp else DropOneOp;
    }
  }

  // ---------- one activation alone ----------

  /** What an activation changes, apart from its jobs. */
  datatype View = View(marked: bool, stack: seq<Tid>, refs: int, called: seq<Tid>)

  function ViewOf(s: Sys): View { View(s.marked, s.stack, s.refs, s.called) }

  /** Call calls the whole list, when nobody submits meanwhile, and Drop calls nothing. */
  function AfterCall(v: View): View { View(true, [], v.refs - 1, v.called + v.stack) }

  function AfterDrop(v: View): View { View(true, [], v.refs - 1, v.called) }

  /** A stretch of a run in which only activation `a` takes steps. */
  ghost predicate Alone(a: Tid, states: seq<Sys>, ops: seq<Action>) {
    && |states| == |ops| + 1
    && forall i :: 0 <= i < |ops| ==>
         Enabled(states[i], a, ops[i]) && Safe(states[i], a, ops[i]) && states[i + 1] == Apply(states[i], a, ops[i])
  }

  lemma AloneBefore(a: Tid, s: Sys, op: Action, states: seq<Sys>, ops: seq<Action>)
    requires Enabled(s, a, op) && Safe(s, a, op) && Alone(a, states, ops) && states[0] == Apply(s, a, op)
    ensures Alone(a, [s] + states, [op] + ops)
  {
    hide Enabled, Safe, Apply;
    var states', ops' := [s] + states, [op] + ops;
    forall i | 0 <= i < |ops'|
      ensures Enabled(states'[i], a, ops'[i]) && Safe(states'[i], a, ops'[i])
      ensures states'[i + 1] == Apply(states'[i], a, ops'[i])
    {
      if i > 0 { assert states'[i] == states[i - 1] && ops'[i] == ops[i - 1] && states'[i + 1] == states[i]; }
    }
  }

  /** Alone, `a` gets from `s` to its end, and leaves the strand as `v`. */
  ghost predicate Finishes(a: Tid, s: Sys, states: seq<Sys>, ops: seq<Action>, v: View) {
    && |states| > 0 && states[0] == s && Alone(a, states, ops)
    && var s' := states[|states| - 1]; ViewOf(s') == v && a in s'.acts && s'.acts[a].at == Over
  }

  lemma FinishesBefore(a: Tid, s: Sys, op: Action, states: seq<Sys>, ops: seq<Action>, v: View)
    requires Enabled(s, a, op) && Safe(s, a, op) && Finishes(a, Apply(s, a, op), states, ops, v)
    ensures Finishes(a, s, [s] + states, [op] + ops, v)
  {
    AloneBefore(a, s, op, states, ops);
    hide Enabled, Safe, Apply, Alone;
    assert ([s] + states)[|states|] == states[|states| - 1];
  }

  lemma FinishesNow(a: Tid, s: Sys, v: View)
    requires ViewOf(s) == v && a in s.acts && s.acts[a].at == Over
    ensures Finishes(a, s, [s], [], v)
  {
  }

  function NextOp(p: ActPhase): Action {
    match p case Calls => CallOneOp case Checks => CheckOp case MarkCas => MarkCasOp case Drops => DropOneOp case _ => EndOp
  }

  function Rank(x: Act): nat { match x.at case Calls => 3 case Checks => 2 case MarkCas => 1 case Drops => 1 case _ => 0 }

  /** `a` has taken its list from a strand to which nobody submits. */
  ghost predicate Busy(s: Sys, a: Tid) {
    && Inv(s) && s.stack == [] && a in s.acts && s.acts[a].at != Pending && s.acts[a].at != Over
    && (s.marked <==> s.acts[a].at == Drops || s.acts[a].at == Ends)
  }

  ghost function ViewAtEnd(s: Sys, a: Tid): View
    requires a in s.acts
  {
    View(true, [], s.refs - 1, s.called + if s.acts[a].at == Calls then s.acts[a].todo else [])
  }

  lemma BusyStep(s: Sys, a: Tid)
    requires Busy(s, a)
    ensures var op := NextOp(s.acts[a].at);
      && Enabled(s, a, op) && Safe(s, a, op)
      && var s' := Apply(s, a, op);
      && a in s'.acts
      && if s.acts[a].at == Ends then s'.acts[a].at == Over && ViewOf(s') == ViewAtEnd(s, a)
         else Busy(s', a) && ViewAtEnd(s', a) == ViewAtEnd(s, a)
              && (|s'.acts[a].todo| < |s.acts[a].todo|
                  || (|s'.acts[a].todo| == |s.acts[a].todo| && Rank(s'.acts[a]) < Rank(s.acts[a])))
  {
    hide Inv;
    StepKeeps(s, a, NextOp(s.acts[a].at));
  }

  lemma {:induction false} BusyEnds(s: Sys, a: Tid) returns (states: seq<Sys>, ops: seq<Action>)
    requires Busy(s, a)
    ensures Finishes(a, s, states, ops, ViewAtEnd(s, a))
    decreases |s.acts[a].todo|, Rank(s.acts[a])
  {
    BusyStep(s, a);
    hide Inv, Safe, Enabled, Apply, Busy, Finishes, ViewAtEnd, ViewOf;
    var op := NextOp(s.acts[a].at);
    var s' := Apply(s, a, op);
    if s.acts[a].at == Ends {
      FinishesNow(a, s', ViewOf(s'));
      states, ops := [s'], [];
    } else {
      states, ops := BusyEnds(s', a);
    }
    FinishesBefore(a, s, op, states, ops, ViewAtEnd(s, a));
    states, ops := [s] + states, [op] + ops;
  }

  lemma CallIsBusy(s: Sys, a: Tid)
    requires Inv(s) && a in s.acts && s.acts[a].at == Pending
    ensures Safe(s, a, CallOp) && Apply(s, a, CallOp) == Call(s, a)
    ensures Busy(Call(s, a), a) && ViewAtEnd(Call(s, a), a) == AfterCall(ViewOf(s))
  {
    hide Inv, Taken;
    StepKeeps(s, a, CallOp);
  }

  lemma DropIsBusy(s: Sys, a: Tid)
    requires Inv(s) && a in s.acts && s.acts[a].at == Pending
    ensures Safe(s, a, DropOp) && Apply(s, a, DropOp) == Drop(s, a)
    ensures Busy(Drop(s, a), a) && ViewAtEnd(Drop(s, a), a) == AfterDrop(ViewOf(s))
  {
    hide Inv, Taken;
    StepKeeps(s, a, DropOp);
  }

  /** An activation that is called and finishes before anybody submits again: every job of the list is called,
      in order, the strand is marked and its reference to itself is gone. */
  lemma CallIsSteps(s: Sys, a: Tid) returns (states: seq<Sys>, ops: seq<Action>)
    requires Reachable(s) && a in s.acts && s.acts[a].at == Pending
    ensures Finishes(a, s, states, ops, AfterCall(ViewOf(s)))
  {
    ReachableInv(s);
    CallIsBusy(s, a);
    hide Reachable, Inv, Safe, Call, Apply, Busy, Finishes;
    states, ops := BusyEnds(Call(s, a), a);
    FinishesBefore(a, s, CallOp, states, ops, AfterCall(ViewOf(s)));
    states, ops := [s] + states, [CallOp] + ops;
  }

  lemma DropIsSteps(s: Sys, a: Tid) returns (states: seq<Sys>, ops: seq<Action>)
    requires Reachable(s) && a in s.acts && s.acts[a].at == Pending
    ensures Finishes(a, s, states, ops, AfterDrop(ViewOf(s)))
  {
    ReachableInv(s);
    DropIsBusy(s, a);
    hide Reachable, Inv, Safe, Drop, Apply, Busy, Finishes;
    states, ops := BusyEnds(Drop(s, a), a);
    FinishesBefore(a, s, DropOp, states, ops, AfterDrop(ViewOf(s)));
    states, ops := [s] + states, [DropOp] + ops;
  }

  // ---------- one submission alone ----------

  /** The job is pushed, and over Mark the strand has another reference. */
  function AfterSubmit(v: View, t: Tid): View {
    View(false, v.stack + [t], v.refs + if v.marked then 1 else 0, v.called)
  }

  lemma LoadsNow(s: Sys, t: Tid)
    requires t in s.jobs
    ensures var s1 := Load(s, t);
      && s1.marked == s.marked && s1.stack == s.stack && s1.pushed == s.pushed && s1.refs == s.refs
      && s1.called == s.called && s1.acts == s.acts && s1.jobs.Keys == s.jobs.Keys
      && s1.jobs[t] == s.jobs[t].(at := Pushes, expected := Jobs(s1))
      && forall j :: j in s.jobs && j != t ==> s1.jobs[j] == s.jobs[j]
  {
  }

  lemma PushesOne(s: Sys, t: Tid)
    requires t in s.jobs && s.jobs[t].expected == Jobs(s)
    ensures var s2 := Push(s, t, false);
      && s2.marked == false && s2.stack == s.stack + [t] && s2.pushed == s.pushed + [t] && s2.refs == s.refs
      && s2.called == s.called && s2.acts == s.acts && s2.jobs.Keys == s.jobs.Keys
      && s2.jobs[t].at == (if s.marked then Activates else Listed) && s2.jobs[t].pushes == s.jobs[t].pushes + 1
      && forall j :: j in s.jobs && j != t ==> s2.jobs[j] == s.jobs[j]
  {
  }

  /** `s2` is `s` after `t` has pushed its job. */
  ghost predicate Pushed(s: Sys, t: Tid, s2: Sys) {
    && s2.marked == false && s2.stack == s.stack + [t] && s2.pushed == s.pushed + [t] && s2.refs == s.refs
    && s2.called == s.called && s2.acts == s.acts && t in s.jobs && s2.jobs.Keys == s.jobs.Keys
    && s2.jobs[t].at == (if s.marked then Activates else Listed) && s2.jobs[t].pushes == s.jobs[t].pushes + 1
    && forall j :: j in s.jobs && j != t ==> s2.jobs[j] == s.jobs[j]
  }

  /** `s'` is `s` after `t` has submitted the strand as the activation `a`. */
  ghost predicate Activated(s: Sys, t: Tid, a: Tid, s': Sys) {
    && s'.marked == s.marked && s'.stack == s.stack && s'.pushed == s.pushed && s'.refs == s.refs + 1
    && s'.called == s.called && s'.acts == s.acts[a := Act(Pending, [])] && t in s.jobs && s'.jobs.Keys == s.jobs.Keys
    && s'.jobs[t].at == Listed && s'.jobs[t].pushes == s.jobs[t].pushes
    && forall j :: j in s.jobs && j != t ==> s'.jobs[j] == s.jobs[j]
  }

  lemma PushesNow(s: Sys, t: Tid)
    requires Inv(s) && Enabled(s, t, SubmitOp)
    ensures var s1, s2 := Load(s, t), Push(Load(s, t), t, false);
      && Safe(s, t, SubmitOp) && Enabled(s1, t, PushOp(false)) && Safe(s1, t, PushOp(false)) && Inv(s2)
      && Apply(s, t, SubmitOp) == s1 && Apply(s1, t, PushOp(false)) == s2 && Pushed(s, t, s2)
  {
    hide Inv, N, Of, Load, Push;
    StepKeeps(s, t, SubmitOp);
    LoadsNow(s, t);
    var s1 := Load(s, t);
    StepKeeps(s1, t, PushOp(false));
    PushesOne(s1, t);
  }

  /** A job that is submitted and not disturbed is pushed once, behind the others; over Mark its thread takes a
      reference for the strand and submits it, as the activation `a`, and only then. */
  lemma SubmitIsSteps(s: Sys, t: Tid, a: Tid) returns (states: seq<Sys>, ops: seq<Action>, s': Sys)
    requires Reachable(s) && Enabled(s, t, SubmitOp) && a !in s.acts
    ensures Alone(t, states, ops) && states[0] == s && states[|ops|] == s'
    ensures ViewOf(s') == AfterSubmit(ViewOf(s), t) && s'.pushed == s.pushed + [t]
    ensures t in s'.jobs && s'.jobs[t].at == Listed && s'.jobs[t].pushes == s.jobs[t].pushes + 1
    ensures s'.acts == if s.marked then s.acts[a := Act(Pending, [])] else s.acts
    ensures s'.jobs.Keys == s.jobs.Keys && forall j :: j in s.jobs && j != t ==> s'.jobs[j] == s.jobs[j]
  {
    ReachableInv(s);
    hide Reachable, Inv, Alone, Load, Push, Safe, Enabled, Apply, Pushed, Activated, ViewOf, AfterSubmit;
    PushesNow(s, t);
    var s1 := Load(s, t);
    var s2 := Push(s1, t, false);
    PushedAt(s, t, s2);
    if s.marked {
      states, ops, s' := ActivatesNow(s2, t, a);
    } else {
      s' := s2;
      AloneStays(t, s');
      states, ops := [s'], [];
    }
    SubmittedIs(s, t, a, s2, s');
    states, ops := BothBefore(t, s, SubmitOp, s1, PushOp(false), states, ops);
  }

  lemma PushedAt(s: Sys, t: Tid, s2: Sys)
    requires Pushed(s, t, s2)
    ensures t in s2.jobs && s2.jobs[t].at == (if s.marked then Activates else Listed) && s2.acts == s.acts
  {
  }

  lemma SubmittedIs(s: Sys, t: Tid, a: Tid, s2: Sys, s': Sys)
    requires Pushed(s, t, s2) && if s.marked then Activated(s2, t, a, s') else s' == s2
    ensures ViewOf(s') == AfterSubmit(ViewOf(s), t) && s'.pushed == s.pushed + [t]
    ensures t in s.jobs && t in s'.jobs && s'.jobs[t].at == Listed && s'.jobs[t].pushes == s.jobs[t].pushes + 1
    ensures s'.acts == if s.marked then s.acts[a := Act(Pending, [])] else s.acts
    ensures s'.jobs.Keys == s.jobs.Keys && forall j :: j in s.jobs && j != t ==> s'.jobs[j] == s.jobs[j]
  {
  }

  lemma AloneStays(t: Tid, s: Sys)
    ensures Alone(t, [s], [])
  {
  }

  lemma BothBefore(t: Tid, s: Sys, op: Action, s1: Sys, op1: Action, states: seq<Sys>, ops: seq<Action>)
    returns (states': seq<Sys>, ops': seq<Action>)
    requires Enabled(s, t, op) && Safe(s, t, op) && Apply(s, t, op) == s1 && Alone(t, states, ops)
    requires Enabled(s1, t, op1) && Safe(s1, t, op1) && states[0] == Apply(s1, t, op1)
    ensures Alone(t, states', ops') && states'[0] == s && states'[|ops'|] == states[|ops|]
  {
    hide Enabled, Safe, Apply;
    AloneBefore(t, s1, op1, states, ops);
    AloneBefore(t, s, op, [s1] + states, [op1] + ops);
    states', ops' := [s] + ([s1] + states), [op] + ([op1] + ops);
  }

  lemma ActivatesNow(s: Sys, t: Tid, a: Tid) returns (states: seq<Sys>, ops: seq<Action>, s': Sys)
    requires Inv(s) && t in s.jobs && s.jobs[t].at == Activates && a !in s.acts
    ensures Alone(t, states, ops) && states[0] == s && states[|ops|] == s' && Activated(s, t, a, s')
  {
    hide Inv, Alone;
    StepKeeps(s, t, IncRefOp);
    var s1 := IncRef(s, t);
    StepKeeps(s1, t, ActivateOp(a));
    s' := Activate(s1, t, a);
    AloneStays(t, s');
    states, ops := BothBefore(t, s, IncRefOp, s1, ActivateOp(a), [s'], []);
  }

  lemma TakenOther(s: Sys, t: Tid, p: JobPhase, u: Tid)
    requires AllListed(s) && t in s.jobs && s.jobs[t].at == Pushes
    ensures t in Taken(s.jobs, s.stack, p, u) && Taken(s.jobs, s.stack, p, u)[t] == s.jobs[t]
  {
  }

  lemma PushMoves(s: Sys, t: Tid, u: Tid, spurious: bool)
    requires t in s.jobs && u in s.jobs && s.jobs[t].at == Pushes
    ensures var s' := Push(s, u, spurious);
      && t in s'.jobs
      && (s'.jobs[t].at != Pushes ==>
            && u == t && !spurious && s.jobs[t].expected == Jobs(s)
            && s'.stack == s.stack + [t] && s'.pushed == s.pushed + [t] && s'.jobs[t].pushes == s.jobs[t].pushes + 1)
  {
  }

  /** A submission goes on from its load only when its job is pushed: any step of anybody after which it does is its
      own compare_exchange, with the job on the stack. */
  lemma PushedWhenLeft(s: Sys, t: Tid, u: Tid, op: Action)
    requires Reachable(s) && Enabled(s, u, op) && t in s.jobs && s.jobs[t].at == Pushes
    ensures Safe(s, u, op) && t in Apply(s, u, op).jobs
    ensures Apply(s, u, op).jobs[t].at != Pushes ==>
              && u == t && op == PushOp(false) && s.jobs[t].expected == Jobs(s)
              && Apply(s, u, op).stack == s.stack + [t] && Apply(s, u, op).pushed == s.pushed + [t]
              && Apply(s, u, op).jobs[t].pushes == s.jobs[t].pushes + 1
  {
    ReachableInv(s);
    StepKeeps(s, u, op);
    hide Reachable, Inv, Enabled, Safe, Apply, Jobs;
    OthersStay(s, t, u, op);
  }

  lemma OthersStay(s: Sys, t: Tid, u: Tid, op: Action)
    requires Enabled(s, u, op) && Safe(s, u, op) && t in s.jobs && s.jobs[t].at == Pushes
    ensures t in Apply(s, u, op).jobs
    ensures Apply(s, u, op).jobs[t].at != Pushes ==>
              && u == t && op == PushOp(false) && s.jobs[t].expected == Jobs(s)
              && Apply(s, u, op).stack == s.stack + [t] && Apply(s, u, op).pushed == s.pushed + [t]
              && Apply(s, u, op).jobs[t].pushes == s.jobs[t].pushes + 1
  {
    hide N, Of, Push, Taken, AllListed, Jobs;
    match op
    case PushOp(spurious) => PushMoves(s, t, u, spurious);
    case CallOp => TakenOther(s, t, ToCall, u);
    case DropOp => TakenOther(s, t, ToDrop, u);
    case _ =>
  }
}
