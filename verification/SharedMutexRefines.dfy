/** SharedMutex refines an abstract reader/writer lock with two queues. */
module SharedMutexRefines {
  import opened Common
  import opened Census
  import opened SharedMutexCode
  import opened SharedMutexRuns
  import opened SharedMutexInvariant
  import opened SharedMutexSteps
  import opened SharedMutexHandOff
  import opened SharedMutexTheorems

  // ---------- the abstract lock ----------

  /** `owner`: the writer that has the lock; `chosen`: the writer that gets it when the readers are gone;
      `deciding`: the writer that gave it up and has not said who is next; `admitted`: the readers that have it;
      `readers`, `writers`: the queues; `first`: with FIFO, how many of the writers queued up before any of the
      readers that are queued now. */
  datatype Lock = Lock(owner: set<Tid>, chosen: set<Tid>, deciding: set<Tid>, admitted: set<Tid>,
                       readers: seq<Tid>, writers: seq<Tid>, first: nat)

  predicate IsChosen(p: Phase) { IsFirst(p) || IsWaiting(p) }

  ghost function Abstract(s: Sys): Lock {
    Lock(Of(s.pc, IsOwner), Of(s.pc, IsChosen), Of(s.pc, IsLeaver), Of(s.pc, IsAdmitted), s.m.readers, s.m.writers,
         s.m.writersPrio)
  }

  /** Nobody has, is about to get, or is about to pass on the lock for writing. */
  ghost predicate Unclaimed(l: Lock) { l.owner == {} && l.chosen == {} && l.deciding == {} }

  function Readers(l: Lock): set<Tid> { l.admitted + set r | r in l.readers }

  /** A reader `t` gets in, unless a writer has the lock. */
  ghost predicate Admits(l: Lock, l': Lock, t: Tid) {
    l.owner == {} && t !in l.admitted && l' == l.(admitted := l.admitted + {t})
  }

  ghost predicate Leaves(l: Lock, l': Lock, t: Tid) {
    t in l.admitted && l' == l.(admitted := l.admitted - {t})
  }

  /** Only behind a writer do coroutines queue up. */
  ghost predicate QueuesReader(c: Config, l: Lock, l': Lock, t: Tid) {
    !Unclaimed(l) && l' == l.(readers := PushReader(c, l.readers, t))
  }

  function Joined(c: Config, l: Lock): nat { l.first + if c.fifo && l.readers == [] then 1 else 0 }

  ghost predicate QueuesWriter(c: Config, l: Lock, l': Lock, t: Tid) {
    !Unclaimed(l) && l' == l.(writers := l.writers + [t], first := Joined(c, l))
  }

  /** A writer `t` takes a lock that nobody has or wants, or is chosen to have it when the readers are gone. */
  ghost predicate Takes(l: Lock, l': Lock, t: Tid) {
    && Unclaimed(l) && l.readers == [] && l.writers == []
    && ((l.admitted == {} && l' == l.(owner := {t})) || l' == l.(chosen := {t}))
  }

  /** The chosen writer gets the lock when no reader has it; it takes it itself or the last reader gives it. */
  ghost predicate Owns(l: Lock, l': Lock) {
    l.owner == {} && l.admitted == {} && l.chosen != {} && l' == l.(owner := l.chosen, chosen := {})
  }

  /** The owner `t` frees a lock that nobody waits for, or is going to say who is next. */
  ghost predicate Unlocks(l: Lock, l': Lock, t: Tid) {
    && l.owner == {t}
    && ((l.readers == [] && l.writers == [] && l' == l.(owner := {})) || l' == l.(owner := {}, deciding := {t}))
  }

  /** The first writer is next: with FIFO when it queued up before all readers, otherwise when there are none. */
  predicate WriterNext(c: Config, l: Lock) {
    l.writers != [] && if c.fifo then l.first != 0 else l.readers == []
  }

  /** Who is next: the first writer, or all readers and after them the first writer if there is one, or nobody.
      The writers that are left when all readers go are before every reader to come. */
  function Decided(c: Config, l: Lock): Lock {
    var l1 := l.(deciding := {});
    if WriterNext(c, l) then
      l1.(owner := {l.writers[0]}, writers := l.writers[1..], first := if c.fifo then l.first - 1 else l.first)
    else if l.readers == [] then l1
    else if l.writers == [] then l1.(admitted := Readers(l), readers := [])
    else l1.(admitted := Readers(l), readers := [], chosen := {l.writers[0]}, writers := l.writers[1..],
             first := if c.fifo then |l.writers| - 1 else l.first)
  }

  /** `t` says who is next; if that is a writer no reader has the lock, and if it is nobody then nobody waits. */
  ghost predicate Decides(c: Config, l: Lock, l': Lock, t: Tid) {
    && l.deciding == {t} && l.owner == {} && l.chosen == {} && l' == Decided(c, l)
    && (WriterNext(c, l) ==> l.admitted == {})
    && (l.readers == [] && !WriterNext(c, l) ==> l.writers == [])
  }

  ghost predicate LockStep(c: Config, l: Lock, l': Lock, t: Tid) {
    || l' == l || Admits(l, l', t) || Leaves(l, l', t) || QueuesReader(c, l, l', t) || QueuesWriter(c, l, l', t)
    || Takes(l, l', t) || Owns(l, l') || Unlocks(l, l', t) || Decides(c, l, l', t)
  }

  // ---------- what the abstract lock keeps ----------

  ghost function Claims(l: Lock): set<Tid> { l.owner + l.chosen + l.deciding }

  /** At most one writer has a claim, an owner excludes readers, and nobody waits unless a writer has a claim. */
  ghost predicate Sound(l: Lock) {
    && (forall t, u :: t in Claims(l) && u in Claims(l) ==> t == u)
    && (forall t :: t in l.owner ==> t !in l.chosen && t !in l.deciding)
    && (forall t :: t in l.chosen ==> t !in l.deciding)
    && (l.owner != {} ==> l.admitted == {})
    && (l.readers != [] || l.writers != [] ==> Claims(l) != {})
  }

  /** Without readers every writer comes before them; without FIFO nobody counts. */
  predicate Ordered(c: Config, l: Lock) {
    l.first <= |l.writers| && (c.fifo && l.readers == [] ==> l.first == |l.writers|) && (!c.fifo ==> l.first == 0)
  }

  lemma AbstractSound(c: Config, s: Sys)
    requires Inv(c, s)
    ensures Sound(Abstract(s)) && Ordered(c, Abstract(s))
  {
    hide Inv, Ordered;
    AbstractOrdered(c, s);
    var l := Abstract(s);
    forall t, u | t in Claims(l) && u in Claims(l) ensures t == u { TokenUnique(c, s, t, u); }
    if t :| t in l.owner {
      forall u ensures u !in l.admitted {
        if u in l.admitted { OwnerAlone(c, s, t, u); }
      }
    }
    if l.readers != [] || l.writers != [] {
      var h := SomebodyClaims(c, s);
      assert h in Claims(l);
    }
  }

  lemma AbstractOrdered(c: Config, s: Sys)
    requires Inv(c, s)
    ensures Ordered(c, Abstract(s))
  {
    hide N, Of, Hands, Queues, Locking, Locals, TallyOf;
  }

  lemma SomebodyClaims(c: Config, s: Sys) returns (h: Tid)
    requires Inv(c, s) && (s.m.readers != [] || s.m.writers != [])
    ensures h in s.pc && IsToken(s.pc[h])
  {
    var u := if s.m.readers != [] then s.m.readers[0] else s.m.writers[0];
    assert u in Of(s.pc, IsQueued) || u in Of(s.pc, IsWriterQueued);
    hide Inv;
    h := TokenHolder(c, s, u);
  }

  lemma OnlyOne(l: Lock)
    requires Sound(l)
    ensures forall t :: t in l.owner ==> l.owner == {t} && l.chosen == {} && l.deciding == {}
    ensures forall t :: t in l.chosen ==> l.chosen == {t} && l.owner == {} && l.deciding == {}
    ensures forall t :: t in l.deciding ==> l.deciding == {t} && l.owner == {} && l.chosen == {}
  {
    assert forall t :: t in l.owner || t in l.chosen || t in l.deciding <==> t in Claims(l);
  }

  // ---------- one coroutine changes ----------

  /** `t` goes from phase `p` to phase `q`, and the queues are as given. */
  ghost function MovesTo(l: Lock, t: Tid, p: Phase, q: Phase, readers: seq<Tid>, writers: seq<Tid>, first: nat): Lock {
    Lock(Part(l.owner, t, IsOwner(p), IsOwner(q)), Part(l.chosen, t, IsChosen(p), IsChosen(q)),
         Part(l.deciding, t, IsLeaver(p), IsLeaver(q)), Part(l.admitted, t, IsAdmitted(p), IsAdmitted(q)),
         readers, writers, first)
  }

  ghost function Moves(l: Lock, t: Tid, p: Phase, q: Phase): Lock {
    MovesTo(l, t, p, q, l.readers, l.writers, l.first)
  }

  ghost predicate Roles(l: Lock, t: Tid, p: Phase) {
    && (t in l.owner <==> IsOwner(p)) && (t in l.chosen <==> IsChosen(p))
    && (t in l.deciding <==> IsLeaver(p)) && (t in l.admitted <==> IsAdmitted(p))
  }

  lemma AbstractMoves(s: Sys, s': Sys, t: Tid, q: Phase)
    requires t in s.pc && s'.pc == s.pc[t := q]
    ensures Abstract(s') == MovesTo(Abstract(s), t, s.pc[t], q, s'.m.readers, s'.m.writers, s'.m.writersPrio)
    ensures Roles(Abstract(s), t, s.pc[t])
  {
    hide Of, Part;
    OfMoved(s.pc, t, q, IsOwner);
    OfMoved(s.pc, t, q, IsChosen);
    OfMoved(s.pc, t, q, IsLeaver);
    OfMoved(s.pc, t, q, IsAdmitted);
  }

  ghost predicate SameQueues(m: Fields, m': Fields) {
    m'.readers == m.readers && m'.writers == m.writers && m'.writersPrio == m.writersPrio
  }

  /** A coroutine whose part does not change. */
  ghost predicate SamePart(p: Phase, q: Phase) {
    && IsOwner(q) == IsOwner(p) && IsChosen(q) == IsChosen(p)
    && IsLeaver(q) == IsLeaver(p) && IsAdmitted(q) == IsAdmitted(p)
  }

  lemma Stutters(s: Sys, s': Sys, t: Tid, q: Phase)
    requires t in s.pc && s'.pc == s.pc[t := q] && SameQueues(s.m, s'.m)
    requires SamePart(s.pc[t], q)
    ensures Abstract(s') == Abstract(s)
  {
    hide Abstract;
    AbstractMoves(s, s', t, q);
    AbstractQueues(s);
    MovesSame(Abstract(s), t, s.pc[t], q, s.m.readers, s.m.writers, s.m.writersPrio);
  }

  lemma AbstractQueues(s: Sys)
    ensures Abstract(s).readers == s.m.readers && Abstract(s).writers == s.m.writers && Abstract(s).first == s.m.writersPrio
  {
  }

  /** Somebody with no part, so far. */
  predicate Outsider(p: Phase) { !IsOwner(p) && !IsChosen(p) && !IsLeaver(p) && !IsAdmitted(p) }

  /** What a coroutine can do without touching the queues. */
  ghost predicate Alone(p: Phase, q: Phase) {
    || SamePart(p, q)
    || (Outsider(p) && (IsAdmitted(q) || IsOwner(q) || IsChosen(q)))
    || (IsAdmitted(p) && Outsider(q))
    || (IsChosen(p) && IsOwner(q))
    || (IsOwner(p) && (IsLeaver(q) || Outsider(q)))
  }

  lemma MovesAlone(l: Lock, t: Tid, p: Phase, q: Phase)
    requires Sound(l) && Sound(Moves(l, t, p, q)) && Roles(l, t, p) && Alone(p, q)
    ensures var l' := Moves(l, t, p, q);
      l' == l || Admits(l, l', t) || Leaves(l, l', t) || Takes(l, l', t) || Owns(l, l') || Unlocks(l, l', t)
  {
    hide Sound, Roles, MovesTo, SamePart, Admits, Leaves, Takes, Owns, Unlocks;
    PartsApart(p, q);
    if SamePart(p, q) { MovesSame(l, t, p, q, l.readers, l.writers, l.first); }
    else if IsAdmitted(q) { MovesIn(l, t, p, q); }
    else if IsAdmitted(p) { MovesOut(l, t, p, q); }
    else if IsOwner(p) { MovesUnlock(l, t, p, q); }
    else if IsChosen(p) { MovesOwn(l, t, p, q); }
    else { MovesTake(l, t, p, q); }
  }

  /** No phase has two parts. */
  lemma OnePart(p: Phase)
    ensures IsAdmitted(p) ==> !IsOwner(p) && !IsChosen(p) && !IsLeaver(p)
    ensures IsOwner(p) ==> !IsChosen(p) && !IsLeaver(p)
    ensures IsChosen(p) ==> !IsLeaver(p)
  {
  }

  lemma PartsApart(p: Phase, q: Phase)
    ensures IsAdmitted(p) ==> !IsOwner(p) && !IsChosen(p) && !IsLeaver(p)
    ensures IsOwner(p) ==> !IsChosen(p) && !IsLeaver(p)
    ensures IsChosen(p) ==> !IsLeaver(p)
    ensures Outsider(p) && Outsider(q) ==> SamePart(p, q)
    ensures (IsAdmitted(p) && IsAdmitted(q)) || (IsOwner(p) && IsOwner(q)) || (IsChosen(p) && IsChosen(q)) ==> SamePart(p, q)
  {
    hide IsAdmitted, IsOwner, IsChosen, IsLeaver;
    OnePart(p);
    OnePart(q);
  }

  lemma MovesSame(l: Lock, t: Tid, p: Phase, q: Phase, readers: seq<Tid>, writers: seq<Tid>, first: nat)
    requires SamePart(p, q)
    ensures MovesTo(l, t, p, q, readers, writers, first) == l.(readers := readers, writers := writers, first := first)
  {
  }

  lemma MovesIn(l: Lock, t: Tid, p: Phase, q: Phase)
    requires Sound(Moves(l, t, p, q)) && Roles(l, t, p) && Outsider(p) && IsAdmitted(q)
    ensures Admits(l, Moves(l, t, p, q), t)
  {
    assert t in Moves(l, t, p, q).admitted;
  }

  lemma MovesOut(l: Lock, t: Tid, p: Phase, q: Phase)
    requires Roles(l, t, p) && Outsider(q) && IsAdmitted(p)
    ensures Leaves(l, Moves(l, t, p, q), t)
  {
  }

  lemma MovesUnlock(l: Lock, t: Tid, p: Phase, q: Phase)
    requires Sound(l) && Sound(Moves(l, t, p, q)) && Roles(l, t, p) && IsOwner(p) && (IsLeaver(q) || Outsider(q))
    ensures Unlocks(l, Moves(l, t, p, q), t)
  {
    var l' := Moves(l, t, p, q);
    OnlyOne(l);
    assert l.owner == {t} && l'.owner == {};
    if IsLeaver(q) { assert l'.deciding == {t}; } else { assert Claims(l') == {}; }
  }

  lemma MovesOwn(l: Lock, t: Tid, p: Phase, q: Phase)
    requires Sound(l) && Sound(Moves(l, t, p, q)) && Roles(l, t, p) && IsChosen(p) && IsOwner(q)
    ensures Owns(l, Moves(l, t, p, q))
  {
    var l' := Moves(l, t, p, q);
    OnlyOne(l);
    assert l.chosen == {t} && l'.chosen == {} && l'.owner == {t};
  }

  lemma MovesTake(l: Lock, t: Tid, p: Phase, q: Phase)
    requires Sound(l) && Sound(Moves(l, t, p, q)) && Roles(l, t, p) && Outsider(p) && (IsOwner(q) || IsChosen(q))
    ensures Takes(l, Moves(l, t, p, q), t)
  {
    var l' := Moves(l, t, p, q);
    assert t in Claims(l');
    forall u ensures u !in Claims(l) { assert u in Claims(l) ==> u in Claims(l'); }
    assert Claims(l) == {};
    assert l.owner == {} && l.chosen == {} && l.deciding == {};
    if IsOwner(q) { assert l'.owner == {t}; } else { assert l'.chosen == {t}; }
  }

  /** Coroutines queue up where a writer has a claim. */
  lemma MovesQueue(l: Lock, l': Lock)
    requires Sound(l') && Claims(l') == Claims(l) && (l'.readers != [] || l'.writers != [])
    ensures !Unclaimed(l)
  {
  }

  lemma StepAlone(c: Config, s: Sys, s': Sys, t: Tid, q: Phase)
    requires t in s.pc && s'.pc == s.pc[t := q] && Sound(Abstract(s)) && Sound(Abstract(s'))
    requires SameQueues(s.m, s'.m) && Alone(s.pc[t], q)
    ensures LockStep(c, Abstract(s), Abstract(s'), t)
  {
    hide Abstract, Sound, Alone, MovesTo, Roles, Admits, Leaves, Takes, Owns, Unlocks, QueuesReader, QueuesWriter, Decides;
    AbstractMoves(s, s', t, q);
    AbstractQueues(s);
    MovesAlone(Abstract(s), t, s.pc[t], q);
  }

  /** A reader or a writer joins its queue. */
  ghost predicate QueuesUp(c: Config, m: Fields, m': Fields, t: Tid) {
    || (m'.readers == PushReader(c, m.readers, t) && m'.writers == m.writers && m'.writersPrio == m.writersPrio)
    || (m'.readers == m.readers && m'.writers == m.writers + [t]
        && m'.writersPrio == m.writersPrio + if c.fifo && m.readers == [] then 1 else 0)
  }

  lemma StepQueues(c: Config, s: Sys, s': Sys, t: Tid, q: Phase)
    requires t in s.pc && s'.pc == s.pc[t := q] && Sound(Abstract(s')) && Outsider(s.pc[t]) && Outsider(q)
    requires QueuesUp(c, s.m, s'.m, t)
    ensures LockStep(c, Abstract(s), Abstract(s'), t)
  {
    hide Abstract, Sound, Roles, MovesTo, Admits, Leaves, Takes, Owns, Unlocks, Decides;
    PartsApart(s.pc[t], q);
    AbstractMoves(s, s', t, q);
    AbstractQueues(s);
    AbstractQueues(s');
    MovesSame(Abstract(s), t, s.pc[t], q, s'.m.readers, s'.m.writers, s'.m.writersPrio);
    MovesQueue(Abstract(s), Abstract(s'));
  }

  // ---------- two coroutines change ----------

  /** `t` goes where it has no part, then `w` gets the lock that it was chosen for. */
  lemma WakeFirstRefines(s: Sys, t: Tid)
    requires t in s.pc && s.pc[t] == SharedWakes && WakeFirstSafe(s)
    requires Sound(Abstract(s)) && Sound(Abstract(WakeFirst(s, t)))
    ensures Owns(Abstract(s), Abstract(WakeFirst(s, t)))
  {
    hide Abstract, Sound, MovesTo, Roles, Owns;
    var w, s1, s' := s.m.writersFirst.value, Goto(s, t, Idle), WakeFirst(s, t);
    Stutters(s, s1, t, Idle);
    AbstractMoves(s1, s', w, ExclHeld);
    AbstractQueues(s1);
    MovesOwn(Abstract(s1), w, ExclWaits, ExclHeld);
  }

  lemma WakeWriterRefines(s: Sys, t: Tid)
    requires Shape(s) && t in s.pc && s.pc[t] == ExclWakes && WakeWriterSafe(s, t)
    ensures Abstract(WakeWriter(s, t)) == Abstract(s)
  {
    hide Abstract;
    var w, s1 := s.drain[t][0], Goto(s, t, Idle);
    Stutters(s, s1, t, Idle);
    Stutters(s1, WakeWriter(s, t), w, ExclHeld);
  }

  lemma DrainOneMoves(s: Sys, t: Tid)
    requires Shape(s) && t in s.pc && s.pc[t] == Drains && DrainSafe(s, t)
    ensures var r, s', q := s.drain[t][0], DrainOne(s, t), if s.drain[t][1..] == [] then Idle else Drains;
      && r in s.pc && r != t && s.pc[r] == SharedHanded && s'.pc == s.pc[t := q][r := SharedHeld] && s'.m == s.m
      && SamePart(Drains, q) && SamePart(SharedHanded, SharedHeld)
  {
  }

  lemma DrainOneRefines(s: Sys, t: Tid)
    requires Shape(s) && t in s.pc && s.pc[t] == Drains && DrainSafe(s, t)
    ensures Abstract(DrainOne(s, t)) == Abstract(s)
  {
    DrainOneMoves(s, t);
    hide Abstract, DrainOne, DrainSafe, SamePart, Shape;
    var r, q := s.drain[t][0], if s.drain[t][1..] == [] then Idle else Drains;
    Stutters(s, Goto(s, t, q), t, q);
    Stutters(Goto(s, t, q), DrainOne(s, t), r, SharedHeld);
  }

  /** The writer at the head of the queue becomes the owner instead of `t`. */
  lemma MovesPass(c: Config, l: Lock, l1: Lock, l': Lock, t: Tid, w: Tid)
    requires Sound(l) && Sound(l') && Roles(l, t, ExclLeft) && Roles(l1, w, ExclQueued) && WriterNext(c, l)
    requires l1 == Moves(l, t, ExclLeft, ExclWakes) && w == l.writers[0]
    requires l' == MovesTo(l1, w, ExclQueued, ExclHanded, l.readers, l.writers[1..], if c.fifo then l.first - 1 else l.first)
    ensures Decides(c, l, l', t)
  {
    OnlyOne(l);
    assert l1.deciding == {} && l1.owner == {};
    assert l'.owner == {w};
  }

  lemma HandWriterMoves(c: Config, s: Sys, t: Tid)
    requires Shape(s) && t in s.pc && s.pc[t] == ExclLeft && WriterSuspended(s) && s.m.writersPrio < U32
    requires c.fifo ==> s.m.writersPrio != 0
    ensures var w, s' := s.m.writers[0], HandWriter(c, s, t);
      && w in s.pc && w != t && s.pc[w] == ExclQueued && s'.pc == s.pc[t := ExclWakes][w := ExclHanded]
      && s'.m.readers == s.m.readers && s'.m.writers == s.m.writers[1..]
      && s'.m.writersPrio == if c.fifo then s.m.writersPrio - 1 else s.m.writersPrio
  {
  }

  /** `t` stops deciding, then `w` gets the lock. */
  lemma TwoMoves(s: Sys, s': Sys, t: Tid, w: Tid)
    requires t in s.pc && w in s.pc && w != t && s.pc[t] == ExclLeft && s.pc[w] == ExclQueued
    requires s'.pc == s.pc[t := ExclWakes][w := ExclHanded]
    ensures var l, l1 := Abstract(s), Moves(Abstract(s), t, ExclLeft, ExclWakes);
      && Roles(l, t, ExclLeft) && Roles(l1, w, ExclQueued)
      && Abstract(s') == MovesTo(l1, w, ExclQueued, ExclHanded, s'.m.readers, s'.m.writers, s'.m.writersPrio)
  {
    hide Abstract, MovesTo, Roles;
    var s1 := Goto(s, t, ExclWakes);
    AbstractMoves(s, s1, t, ExclWakes);
    AbstractQueues(s);
    AbstractMoves(s1, s', w, ExclHanded);
  }

  lemma HandWriterRefines(c: Config, s: Sys, t: Tid)
    requires Shape(s) && t in s.pc && s.pc[t] == ExclLeft && WriterSuspended(s) && s.m.writersPrio < U32
    requires Sound(Abstract(s)) && Sound(Abstract(HandWriter(c, s, t))) && WriterNext(c, Abstract(s))
    ensures Decides(c, Abstract(s), Abstract(HandWriter(c, s, t)), t)
  {
    AbstractQueues(s);
    HandWriterMoves(c, s, t);
    hide Abstract, Sound, MovesTo, Moves, Roles, Decides, Shape, WriterNext, HandWriter, WriterSuspended;
    var w, s', l := s.m.writers[0], HandWriter(c, s, t), Abstract(s);
    TwoMoves(s, s', t, w);
    MovesPass(c, l, Moves(l, t, ExclLeft, ExclWakes), Abstract(s'), t, w);
  }

  /** Nobody but `t` and the readers `q` changes its part. */
  lemma HandOverOf(pc: map<Tid, Phase>, q: seq<Tid>, t: Tid, f: Phase -> bool)
    requires t in pc && (forall r :: r in q ==> r in pc && pc[r] == SharedQueued) && t !in q
    requires !f(SharedQueued) && !f(SharedHanded) && !f(Drains)
    ensures Of(HandOver(pc, q)[t := Drains], f) == Of(pc, f) - {t}
  {
  }

  lemma HandOverAdmits(pc: map<Tid, Phase>, q: seq<Tid>, t: Tid)
    requires t in pc && (forall r :: r in q ==> r in pc && pc[r] == SharedQueued) && t !in q && !IsAdmitted(pc[t])
    ensures Of(HandOver(pc, q)[t := Drains], IsAdmitted) == Of(pc, IsAdmitted) + set r | r in q
  {
  }

  lemma HandReadersIs(s: Sys, t: Tid)
    requires Shape(s) && t in s.pc && IsLeaver(s.pc[t]) && ReadersSuspended(s)
    ensures var s' := HandReaders(s, t);
      s'.pc == HandOver(s.pc, s.m.readers)[t := Drains] && s'.m.readers == [] && s'.m.writers == s.m.writers
      && s'.m.writersPrio == s.m.writersPrio
    ensures (forall r :: r in s.m.readers ==> r in s.pc && s.pc[r] == SharedQueued) && t !in s.m.readers
  {
    assert forall r :: r in s.m.readers ==> In(s, r, SharedQueued);
  }

  lemma HandReadersParts(s: Sys, t: Tid)
    requires Shape(s) && t in s.pc && IsLeaver(s.pc[t]) && ReadersSuspended(s)
    ensures var pc' := HandReaders(s, t).pc;
      && Of(pc', IsLeaver) == Of(s.pc, IsLeaver) - {t} && Of(pc', IsOwner) == Of(s.pc, IsOwner) - {t}
      && Of(pc', IsChosen) == Of(s.pc, IsChosen) - {t}
      && Of(pc', IsAdmitted) == Of(s.pc, IsAdmitted) + (set r | r in s.m.readers)
  {
    HandReadersIs(s, t);
    var q := s.m.readers;
    assert HandReaders(s, t).pc == HandOver(s.pc, q)[t := Drains];
    hide Of, HandOver, HandReaders, ReadersSuspended, Shape;
    PartsOf(s.pc, q, t);
  }

  lemma PartsOf(pc: map<Tid, Phase>, q: seq<Tid>, t: Tid)
    requires t in pc && (forall r :: r in q ==> r in pc && pc[r] == SharedQueued) && t !in q && IsLeaver(pc[t])
    ensures var pc' := HandOver(pc, q)[t := Drains];
      && Of(pc', IsLeaver) == Of(pc, IsLeaver) - {t} && Of(pc', IsOwner) == Of(pc, IsOwner) - {t}
      && Of(pc', IsChosen) == Of(pc, IsChosen) - {t}
      && Of(pc', IsAdmitted) == Of(pc, IsAdmitted) + (set r | r in q)
  {
    hide Of, HandOver;
    HandOverOf(pc, q, t, IsOwner);
    HandOverOf(pc, q, t, IsChosen);
    HandOverOf(pc, q, t, IsLeaver);
    HandOverAdmits(pc, q, t);
  }

  /** The readers of a queue are admitted and the one who takes them out has no part any more. */
  lemma HandReadersMoves(s: Sys, t: Tid)
    requires Shape(s) && t in s.pc && IsLeaver(s.pc[t]) && ReadersSuspended(s)
    ensures var l, l' := Abstract(s), Abstract(HandReaders(s, t));
      && l'.deciding == l.deciding - {t} && l'.admitted == Readers(l) && l'.readers == [] && l'.writers == l.writers
      && l'.first == l.first && l'.owner == l.owner - {t} && l'.chosen == l.chosen - {t}
    ensures Roles(Abstract(s), t, s.pc[t])
  {
    HandReadersParts(s, t);
    HandReadersIs(s, t);
    hide Of, HandReaders, ReadersSuspended, Shape, MovesTo;
    AbstractMoves(s, s.(pc := s.pc[t := Idle]), t, Idle);
  }

  /** The readers go first; after them the chosen writer, if there is one. */
  lemma MovesReaders(c: Config, l: Lock, l1: Lock, l': Lock, t: Tid)
    requires Sound(l) && Sound(l') && t in l.deciding && l.readers != [] && !WriterNext(c, l)
    requires || (l1 == l && Claims(l') == {})
             || (l.writers != [] && l1 == l.(chosen := {l.writers[0]}, writers := l.writers[1..],
                                             first := if c.fifo then |l.writers| - 1 else l.first))
    requires t !in l1.chosen
    requires l'.deciding == l1.deciding - {t} && l'.admitted == Readers(l1) && l'.readers == [] && l'.writers == l1.writers
    requires l'.first == l1.first && l'.owner == l1.owner - {t} && l'.chosen == l1.chosen - {t}
    ensures Decides(c, l, l', t)
  {
    OnlyOne(l);
    assert l'.deciding == {} && l'.owner == {} && l'.chosen == l1.chosen;
    assert Readers(l1) == Readers(l);
  }

  lemma LastWriterRefines(c: Config, s: Sys, t: Tid, m: Fields)
    requires Shape(s) && t in s.pc && IsLeaver(s.pc[t]) && ReadersSuspended(s) && s.m.readers != [] && SameQueues(s.m, m)
    requires Sound(Abstract(s)) && Sound(Abstract(HandReaders(s.(m := m), t))) && !WriterNext(c, Abstract(s))
    ensures Decides(c, Abstract(s), Abstract(HandReaders(s.(m := m), t)), t)
  {
    var s1 := s.(m := m);
    assert Abstract(s1) == Abstract(s);
    AbstractQueues(s);
    hide Abstract, HandReaders, Decides, Shape;
    HandReadersMoves(s1, t);
    OnlyOne(Abstract(s));
    var l' := Abstract(HandReaders(s1, t));
    assert Claims(l') == {};
    MovesReaders(c, Abstract(s), Abstract(s), l', t);
  }

  /** The numbers that a decision rests on. */
  ghost predicate Known(c: Config, s: Sys, t: Tid)
    requires Shape(s) && t in s.pc
  {
    && |s.m.writers| < U32 && s.m.writersPrio < U32 && (s.pc[t] == ExclEnqueues ==> s.m.writersPrio + 1 < U32)
    && (s.pc[t] == ExclLeft || s.pc[t] == ExclMoves ==> SharedMutexCode.Writers(s.saved[t]) == |s.m.writers| + 1)
    && (s.pc[t] == ExclMoves && c.fifo ==> s.m.writersPrio == 0)
  }

  lemma FirstChosenMeans(c: Config, s: Sys, t: Tid)
    requires Shape(s) && t in s.pc && s.pc[t] == ExclMoves && MoveSafe(s) && Known(c, s, t)
    ensures var s1, w := FirstChosen(c, s, t), s.m.writers[0];
      && s1.pc == s.pc[w := ExclWaits] && s1.m.readers == s.m.readers && s1.m.writers == s.m.writers[1..]
      && s1.m.writersPrio == (if c.fifo then |s.m.writers| - 1 else s.m.writersPrio)
      && w in s.pc && s.pc[w] == ExclQueued && Shape(s1) && t in s1.pc && s1.pc[t] == ExclMoves && ReadersSuspended(s1)
      && SlowMove(c, s, t) == HandReaders(s1, t)
    ensures !WriterNext(c, Abstract(s))
  {
    AbstractQueues(s);
    hide Abstract, HandReaders;
    var s1 := FirstChosen(c, s, t);
    forall r | r in s1.m.readers ensures In(s1, r, SharedQueued) { assert In(s, r, SharedQueued); }
  }

  lemma SlowMoveRefines(c: Config, s: Sys, t: Tid)
    requires Shape(s) && t in s.pc && s.pc[t] == ExclMoves && MoveSafe(s) && Known(c, s, t)
    requires Sound(Abstract(s)) && Sound(Abstract(SlowMove(c, s, t)))
    ensures Decides(c, Abstract(s), Abstract(SlowMove(c, s, t)), t)
  {
    FirstChosenMeans(c, s, t);
    hide Abstract, HandReaders, Decides, Sound, WriterNext, FirstChosen, SlowMove, ReadersSuspended, Shape, Known, MovesTo;
    var w, s1 := s.m.writers[0], FirstChosen(c, s, t);
    AbstractMoves(s, s1, w, ExclWaits);
    AbstractQueues(s);
    AbstractQueues(s1);
    HandReadersMoves(s1, t);
    MoverAlone(s, s1, t, w);
    MovesReaders(c, Abstract(s), Abstract(s1), Abstract(HandReaders(s1, t)), t);
  }

  /** While `t` is deciding nobody else is chosen, and it decides on another one. */
  lemma MoverAlone(s: Sys, s1: Sys, t: Tid, w: Tid)
    requires t in s.pc && s.pc[t] == ExclMoves && w in s.pc && s.pc[w] == ExclQueued && Sound(Abstract(s))
    requires Abstract(s1) == MovesTo(Abstract(s), w, ExclQueued, ExclWaits, s1.m.readers, s1.m.writers, s1.m.writersPrio)
    ensures t in Abstract(s).deciding && t !in Abstract(s1).chosen
    ensures Abstract(s1) == Abstract(s).(chosen := {w}, readers := s1.m.readers, writers := s1.m.writers, first := s1.m.writersPrio)
  {
    assert t in Abstract(s).deciding;
    OnlyOne(Abstract(s));
    assert Abstract(s).chosen == {};
    hide Abstract;
  }

  lemma InvKnown(c: Config, s: Sys, t: Tid)
    requires Inv(c, s) && t in s.pc
    ensures Shape(s) && Known(c, s, t)
  {
    hide Inv, TallyOf, Numbers;
    InvShape(c, s);
    TallyPresent(s.pc, t);
    InvNumbers(c, s);
    QueuesFit(c, TallyOf(s.pc), s.m);
    if s.pc[t] == ExclLeft || s.pc[t] == ExclMoves { LeaverKnown(c, s, t); }
  }

  lemma InvNumbers(c: Config, s: Sys)
    requires Inv(c, s)
    ensures Numbers(c, TallyOf(s.pc), s.m)
  {
  }

  lemma QueuesFit(c: Config, k: Tally, m: Fields)
    requires Numbers(c, k, m) && Natural(k)
    ensures |m.writers| < U32 && m.writersPrio < U32 && (k.enqueues >= 1 ==> m.writersPrio + 1 < U32)
  {
  }

  lemma LeaverKnown(c: Config, s: Sys, t: Tid)
    requires Inv(c, s) && t in s.pc && (s.pc[t] == ExclLeft || s.pc[t] == ExclMoves)
    ensures Shape(s) && SharedMutexCode.Writers(s.saved[t]) == |s.m.writers| + 1
    ensures s.pc[t] == ExclMoves && c.fifo ==> s.m.writersPrio == 0
  {
    hide N, Of, Hands, Queues, Locking, TallyOf;
    assert LocalsOk(c, TallyOf(s.pc), s, t);
  }

  /** The choice of the code is the choice of the abstract lock. */
  lemma ChoiceIs(c: Config, s: Sys, t: Tid)
    requires Shape(s) && t in s.pc && s.pc[t] == ExclLeft && Known(c, s, t) && Ordered(c, Abstract(s))
    ensures Choose(c, s.m, s.saved[t]) == ChooseWriter <==> WriterNext(c, Abstract(s))
    ensures Choose(c, s.m, s.saved[t]) == ChooseNobody ==> s.m.readers == [] && s.m.writers == []
  {
    AbstractQueues(s);
    hide Abstract;
  }

  lemma SlowChooseRefines(c: Config, s: Sys, t: Tid)
    requires Shape(s) && t in s.pc && s.pc[t] == ExclLeft && ChooseSafe(c, s, t) && Known(c, s, t)
    requires Sound(Abstract(s)) && Sound(Abstract(SlowChoose(c, s, t))) && Ordered(c, Abstract(s))
    ensures LockStep(c, Abstract(s), Abstract(SlowChoose(c, s, t)), t)
  {
    hide Abstract, Sound, Ordered, HandWriter, HandReaders, Admits, Leaves, QueuesReader, QueuesWriter, Takes, Owns, Unlocks,
      WriterNext;
    ChoiceIs(c, s, t);
    match Choose(c, s.m, s.saved[t])
    case ChooseWriter => HandWriterRefines(c, s, t);
    case ChooseReaders =>
      if SharedMutexCode.Writers(s.saved[t]) != 1 { Stutters(s, SlowChoose(c, s, t), t, ExclMoves); }
      else { LastWriterRefines(c, s, t, SharedMutexCode.PassReaders(s.m, s.saved[t])); }
    case ChooseNobody => NobodyRefines(c, s, SlowChoose(c, s, t), t);
  }

  lemma MovesNobody(c: Config, l: Lock, t: Tid, p: Phase)
    requires Sound(l) && Sound(Moves(l, t, p, Idle)) && Roles(l, t, p) && IsLeaver(p)
    requires l.readers == [] && l.writers == []
    ensures Decides(c, l, Moves(l, t, p, Idle), t)
  {
    OnlyOne(l);
    assert Moves(l, t, p, Idle).deciding == {};
    assert Claims(Moves(l, t, p, Idle)) == {};
  }

  lemma NobodyRefines(c: Config, s: Sys, s': Sys, t: Tid)
    requires t in s.pc && IsLeaver(s.pc[t]) && s'.pc == s.pc[t := Idle]
    requires SameQueues(s.m, s'.m) && s.m.readers == [] && s.m.writers == []
    requires Sound(Abstract(s)) && Sound(Abstract(s'))
    ensures Decides(c, Abstract(s), Abstract(s'), t)
  {
    hide Abstract, Sound, MovesTo, Roles, Decides;
    AbstractMoves(s, s', t, Idle);
    AbstractQueues(s);
    MovesNobody(c, Abstract(s), t, s.pc[t]);
  }

  lemma HandsOver(c: Config, s: Sys, t: Tid, a: Action)
    requires Between(c, s, t, a)
    requires a.WakeFirstOp? || a.SlowMoveOp? || a.WakeWriterOp? || a.DrainOneOp? || a.SlowChooseOp?
    ensures LockStep(c, Abstract(s), Abstract(Apply(c, s, t, a)), t)
  {
    hide Abstract, Sound, SlowChoose, SlowMove, WakeFirst, WakeWriter, DrainOne, ChooseSafe, MoveSafe, WakeFirstSafe,
      DrainSafe, WakeWriterSafe, Owns, Decides, Admits, Leaves, QueuesReader, QueuesWriter, Takes, Unlocks;
    match a
    case WakeFirstOp => WakeFirstRefines(s, t);
    case SlowMoveOp => SlowMoveRefines(c, s, t);
    case WakeWriterOp => WakeWriterRefines(s, t);
    case DrainOneOp => DrainOneRefines(s, t);
    case SlowChooseOp => hide LockStep; SlowChooseRefines(c, s, t);
  }

  // ---------- every step ----------

  lemma EnabledIn(s: Sys, t: Tid, a: Action)
    requires Enabled(s, t, a)
    ensures t in s.pc
  {
  }

  /** Every step of SharedMutex is a step of the abstract lock, taken by the same coroutine; in FIFO order and
      without it. */
  lemma Refines(c: Config, s: Sys, t: Tid, a: Action)
    requires Inv(c, s) && Enabled(s, t, a)
    ensures Safe(c, s, t, a) && LockStep(c, Abstract(s), Abstract(Apply(c, s, t, a)), t)
  {
    hide Inv, Abstract, Sound, Ordered, Known, LockStep, Alone, Outsider, Safe, Enabled, Apply;
    StepKeeps(c, s, t, a);
    AbstractSound(c, s);
    AbstractSound(c, Apply(c, s, t, a));
    EnabledIn(s, t, a);
    InvKnown(c, s, t);
    if a.WakeFirstOp? || a.SlowMoveOp? || a.WakeWriterOp? || a.DrainOneOp? || a.SlowChooseOp? {
      HandsOver(c, s, t, a);
    } else if ReaderAction(a) {
      ReaderRefines(c, s, t, a);
    } else {
      WriterRefines(c, s, t, a);
    }
  }

  ghost predicate Unlocking(a: Action) { a.UnlockOp? || a.SlowSpinOp? || a.SlowSubOp? }

  ghost predicate Queueing(a: Action) { a.CountOp? || a.PlaceFirstOp? || a.PlaceQueuedOp? || a.AddReadersOp? }

  ghost predicate Trying(a: Action) { a.LockLoadOp? || a.TryLockLoadOp? || a.LockCasOp? || a.SpinOp? }

  ghost predicate TryingShared(a: Action) { a.TryLockSharedLoadOp? || a.TryLockSharedCasOp? || a.LockSharedOp? }

  ghost predicate Refined(c: Config, s: Sys, t: Tid, a: Action)
    requires Safe(c, s, t, a)
  {
    LockStep(c, Abstract(s), Abstract(Apply(c, s, t, a)), t)
  }

  ghost predicate Between(c: Config, s: Sys, t: Tid, a: Action) {
    && Safe(c, s, t, a) && Enabled(s, t, a)
    && Sound(Abstract(s)) && Sound(Abstract(Apply(c, s, t, a))) && Ordered(c, Abstract(s)) && Known(c, s, t)
  }

  lemma ReaderRefines(c: Config, s: Sys, t: Tid, a: Action)
    requires Between(c, s, t, a) && ReaderAction(a) && !a.WakeFirstOp? && !a.DrainOneOp?
    ensures Refined(c, s, t, a)
  {
    if TryingShared(a) { hide Between, Refined; TryLockSharedRefines(c, s, t, a); }
    else { hide Between, Refined; SharedRefines(c, s, t, a); }
  }

  /** The phases that a reader goes through while it tries to get the lock. */
  lemma TryingSharedPhases()
    ensures Outsider(Idle) && Outsider(SharedTrying) && Outsider(SharedInFlight) && IsAdmitted(SharedHeld)
    ensures SamePart(Idle, SharedTrying) && SamePart(SharedTrying, Idle) && SamePart(Idle, SharedInFlight)
    ensures forall p :: SamePart(p, p)
  {
  }

  /** The phases that a writer goes through while it tries to get the lock. */
  lemma TryingPhases()
    ensures Outsider(Idle) && Outsider(ExclTrying) && Outsider(ExclTryingAwait) && IsOwner(ExclHeld)
    ensures SamePart(Idle, ExclTrying) && SamePart(Idle, ExclTryingAwait) && SamePart(Idle, ExclWants)
    ensures SamePart(ExclTrying, Idle) && SamePart(ExclTryingAwait, ExclWants) && SamePart(ExclWants, ExclHasLock)
    ensures forall p :: SamePart(p, p)
  {
  }

  lemma TryingSharedAlone(c: Config, s: Sys, t: Tid, a: Action)
    requires Safe(c, s, t, a) && Enabled(s, t, a) && TryingShared(a)
    ensures var s' := Apply(c, s, t, a);
      t in s'.pc && s'.pc == s.pc[t := s'.pc[t]] && SameQueues(s.m, s'.m) && Alone(s.pc[t], s'.pc[t])
  {
    TryingSharedPhases();
    hide Safe, Shape, Outsider, SamePart, IsAdmitted, IsOwner, IsChosen, IsLeaver;
  }

  lemma TryLockSharedRefines(c: Config, s: Sys, t: Tid, a: Action)
    requires Between(c, s, t, a) && TryingShared(a)
    ensures Refined(c, s, t, a)
  {
    TryingSharedAlone(c, s, t, a);
    hide Abstract, Sound, LockStep, Alone, Apply, Known, Ordered, Safe, Enabled, SameQueues;
    var s' := Apply(c, s, t, a);
    StepAlone(c, s, s', t, s'.pc[t]);
  }

  lemma SharedAlone(c: Config, s: Sys, t: Tid, a: Action)
    requires Safe(c, s, t, a) && Enabled(s, t, a)
    requires a.SharedSpinOp? || a.SharedBodyOp? || a.UnlockSharedOp? || a.UnlockSharedDecOp? || a.ReleaseOp?
    ensures var s' := Apply(c, s, t, a);
      && t in s'.pc && s'.pc == s.pc[t := s'.pc[t]]
      && if a.SharedBodyOp? && s.m.readersPass == 0 then
           QueuesUp(c, s.m, s'.m, t) && Outsider(s.pc[t]) && Outsider(s'.pc[t])
         else SameQueues(s.m, s'.m) && Alone(s.pc[t], s'.pc[t])
  {
    SharedPhases();
    hide Safe, Shape, Outsider, SamePart, IsAdmitted, IsOwner, IsChosen, IsLeaver, PushReader;
  }

  lemma SharedPhases()
    ensures Outsider(Idle) && Outsider(SharedInFlight) && Outsider(SharedHasLock) && Outsider(SharedQueued)
    ensures Outsider(SharedLeaving) && Outsider(SharedWakes) && IsAdmitted(SharedHeld)
    ensures forall p :: SamePart(p, p)
    ensures SamePart(SharedInFlight, SharedHasLock) && SamePart(SharedLeaving, SharedWakes) && SamePart(SharedLeaving, Idle)
  {
  }

  lemma SharedRefines(c: Config, s: Sys, t: Tid, a: Action)
    requires Between(c, s, t, a) && ReaderAction(a) && !TryingShared(a) && !a.WakeFirstOp? && !a.DrainOneOp?
    ensures Refined(c, s, t, a)
  {
    SharedAlone(c, s, t, a);
    hide Abstract, Sound, LockStep, Alone, Outsider, Apply, Known, Ordered, Safe, Enabled, SameQueues, QueuesUp;
    var s' := Apply(c, s, t, a);
    if a.SharedBodyOp? && s.m.readersPass == 0 { StepQueues(c, s, s', t, s'.pc[t]); }
    else { StepAlone(c, s, s', t, s'.pc[t]); }
  }

  lemma WriterRefines(c: Config, s: Sys, t: Tid, a: Action)
    requires Between(c, s, t, a) && !ReaderAction(a) && !a.SlowMoveOp? && !a.WakeWriterOp? && !a.SlowChooseOp?
    ensures Refined(c, s, t, a)
  {
    hide Between, Refined;
    if Unlocking(a) { UnlockRefines(c, s, t, a); }
    else if Queueing(a) { QueueRefines(c, s, t, a); }
    else { TryRefines(c, s, t, a); }
  }

  lemma UnlockingPhases()
    ensures IsOwner(ExclHeld) && IsOwner(ExclSlowLocked) && IsLeaver(ExclLeft) && Outsider(Idle)
    ensures SamePart(ExclHeld, ExclSlow) && SamePart(ExclSlow, ExclSlowLocked)
  {
  }

  lemma UnlockingAlone(c: Config, s: Sys, t: Tid, a: Action)
    requires Safe(c, s, t, a) && Enabled(s, t, a) && Unlocking(a)
    ensures var s' := Apply(c, s, t, a);
      t in s'.pc && s'.pc == s.pc[t := s'.pc[t]] && SameQueues(s.m, s'.m) && Alone(s.pc[t], s'.pc[t])
  {
    UnlockingPhases();
    hide Safe, Shape, Outsider, SamePart, IsAdmitted, IsOwner, IsChosen, IsLeaver;
  }

  lemma UnlockRefines(c: Config, s: Sys, t: Tid, a: Action)
    requires Between(c, s, t, a) && Unlocking(a)
    ensures Refined(c, s, t, a)
  {
    UnlockingAlone(c, s, t, a);
    hide Abstract, Sound, LockStep, Alone, Apply, Known, Ordered, Safe, Enabled, SameQueues;
    var s' := Apply(c, s, t, a);
    StepAlone(c, s, s', t, s'.pc[t]);
  }

  lemma TryingAlone(c: Config, s: Sys, t: Tid, a: Action)
    requires Safe(c, s, t, a) && Enabled(s, t, a) && Trying(a)
    ensures var s' := Apply(c, s, t, a);
      t in s'.pc && s'.pc == s.pc[t := s'.pc[t]] && SameQueues(s.m, s'.m) && Alone(s.pc[t], s'.pc[t])
  {
    TryingPhases();
    hide Safe, Shape, Outsider, SamePart, IsAdmitted, IsOwner, IsChosen, IsLeaver;
  }

  lemma TryRefines(c: Config, s: Sys, t: Tid, a: Action)
    requires Between(c, s, t, a) && Trying(a)
    ensures Refined(c, s, t, a)
  {
    TryingAlone(c, s, t, a);
    hide Abstract, Sound, LockStep, Alone, Apply, Known, Ordered, Safe, Enabled, SameQueues;
    var s' := Apply(c, s, t, a);
    StepAlone(c, s, s', t, s'.pc[t]);
  }

  lemma QueueRefines(c: Config, s: Sys, t: Tid, a: Action)
    requires Between(c, s, t, a) && Queueing(a)
    ensures Refined(c, s, t, a)
  {
    hide Abstract, Sound, LockStep, Count, PlaceFirst, PlaceQueued, AddReaders, Alone, Outsider;
    match a
    case CountOp => StepAlone(c, s, Count(s, t), t, Counted(s, t));
    case PlaceFirstOp => StepAlone(c, s, PlaceFirst(s, t), t, Placed(s, t));
    case PlaceQueuedOp => QueueWriterIs(c, s, t); StepQueues(c, s, PlaceQueued(c, s, t), t, ExclQueued);
    case AddReadersOp => StepAlone(c, s, AddReaders(s, t), t, Added(s, t));
  }

  lemma QueueWriterIs(c: Config, s: Sys, t: Tid)
    requires t in s.pc && s.pc[t] == ExclEnqueues && s.m.writersPrio + 1 < U32
    ensures var s' := PlaceQueued(c, s, t);
      s'.pc == s.pc[t := ExclQueued] && QueuesUp(c, s.m, s'.m, t)
    ensures Outsider(ExclEnqueues) && Outsider(ExclQueued)
  {
  }

  /** The phases of AwaitLock. */
  ghost function Counted(s: Sys, t: Tid): (q: Phase)
    requires Shape(s) && t in s.pc && s.pc[t] == ExclHasLock
    ensures Alone(s.pc[t], q) && Count(s, t).pc == s.pc[t := q]
    ensures SameQueues(s.m, Count(s, t).m)
  {
    if SharedMutexCode.Writers(s.m.state) == 0 then ExclFirst else ExclEnqueues
  }

  ghost function Placed(s: Sys, t: Tid): (q: Phase)
    requires Shape(s) && t in s.pc && s.pc[t] == ExclFirst
    ensures Alone(s.pc[t], q) && PlaceFirst(s, t).pc == s.pc[t := q]
    ensures SameQueues(s.m, PlaceFirst(s, t).m)
  {
    if s.saved[t] == 0 then ExclHeld else ExclAdds
  }

  ghost function Added(s: Sys, t: Tid): (q: Phase)
    requires Shape(s) && t in s.pc && s.pc[t] == ExclAdds
    ensures Alone(s.pc[t], q) && AddReaders(s, t).pc == s.pc[t := q]
    ensures SameQueues(s.m, AddReaders(s, t).m)
  {
    if AwaitReaders(s.m, s.saved[t]).1 then ExclWaits else ExclHeld
  }
}
