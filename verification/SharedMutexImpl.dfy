/** SharedMutexImpl (include/yaclib/coro/shared_mutex.hpp) as code on a heap: the packed word, the counters and
    the intrusive lists of readers and writers.  Other threads do not interfere here, so a method is the
    composition of its atomic fragments; SharedMutexRuns interleaves the same fragments with everybody else's. */
module SharedMutexImpl {
  import opened Common
  import opened Census
  import opened IntrusiveLists
  import opened SharedMutexCode
  import opened SharedMutexRuns
  import opened SharedMutexInvariant
  import opened SharedMutexSteps
  import opened SharedMutexHandOff
  import opened SharedMutexTheorems

  /** SlowUnlock without interference: the data afterwards and whom it resumed, in order. */
  function SlowUnlocked(c: Config, f: Fields): (Fields, seq<Tid>)
    requires CanSlowUnlock(c, f)
  {
    var (m, before) := UncountWriter(f);
    match Choose(c, m, before)
    case ChooseWriter => var (m1, w) := PopWriter(c, m); (m1, [w])
    case ChooseReaders =>
      if Writers(before) != 1 then TakeReaders(NextFirst(c, SetReadersWait(m), before))
      else TakeReaders(PassReaders(m, before))
    case ChooseNobody => (PassReaders(m, before), [])
  }

  /** The assertions of RunWriter, PassReaders and RunReaders. */
  predicate CanSlowUnlock(c: Config, f: Fields) {
    var (m, before) := UncountWriter(f);
    match Choose(c, m, before)
    case ChooseWriter => f.writers != [] && (c.fifo ==> Writers(before) > 1)
    case ChooseReaders => if Writers(before) != 1 then f.writers != [] else Readers(before) >= f.readersSize
    case ChooseNobody => Writers(before) == 1 && Readers(before) >= f.readersSize
  }

  /** co_await of the shared lock without interference: the data afterwards, and whether the reader suspends. */
  function LockedShared(c: Config, f: Fields, t: Tid): (Fields, bool) {
    var (m, ok) := CountReader(f);
    if ok then (m, false) else TakePassOrQueue(c, m, t)
  }

  /** AwaitLock without interference. */
  function Awaited(c: Config, f: Fields, t: Tid): (Fields, bool) {
    var (m, before) := CountWriter(f);
    if Writers(before) != 0 then (QueueWriter(c, m, t), true)
    else if Readers(before) == 0 then (BecomeFirst(m, t), false)
    else AwaitReaders(BecomeFirst(m, t), Readers(before))
  }

  /** co_await of the lock without interference. */
  function Locked(c: Config, f: Fields, t: Tid): (Fields, bool) {
    if f.state == 0 then (f.(state := WRITER), false) else Awaited(c, f, t)
  }

  /** UnlockHereShared without interference: the data afterwards and whom it resumed. */
  function UnlockedShared(f: Fields): (Fields, seq<Tid>) {
    var (m, waits) := UncountReader(f);
    if !waits then (m, [])
    else
      var (m1, last) := ReaderGone(m);
      (m1, if last && m1.writersFirst.Some? then [m1.writersFirst.value] else [])
  }

  /** The first writer, by its name. */
  function IdOf(node: Node?): Option<Tid> { if node == null then None else Some(node.id) }

  lemma IdsAppend(p: seq<Node>, q: seq<Node>)
    ensures Ids(p + q) == Ids(p) + Ids(q)
  {
  }

  lemma IdsRest(q: seq<Node>)
    requires q != []
    ensures Ids(q)[0] == q[0].id && Ids(q[1..]) == Ids(q)[1..]
  {
  }

  lemma LastCounted(before: nat, r: nat)
    ensures before < U32 && 0 < r < U32 ==> (before != Neg32(r) <==> Add32(before, r) != 0)
  {
  }

  lemma IdsNext(q: seq<Node>, k: nat)
    requires k < |q|
    ensures q[k..] != [] && q[k..][0] == q[k] && q[k..][1..] == q[k + 1..]
    ensures Ids(q[..k + 1]) == Ids(q[..k]) + [q[k].id]
  {
    assert q[..k + 1] == q[..k] + [q[k]];
    IdsAppend(q[..k], [q[k]]);
  }

  twostate lemma Untouched(q: seq<Node>)
    requires old(List(q)) && forall x <- q :: x.next == old(x.next)
    ensures List(q)
  {
    forall i | 0 <= i < |q| ensures q[i].next == After(q, i) {
      assert q[i] in q;
      assert old(q[i].next == After(q, i));
    }
  }

  /** `readers` is a List or, when they are resumed in the opposite order, a Stack, which is pushed at its front;
      the source writes the list of writers out. */
  class SharedMutex {
    const config: Config
    const readers: LinkedList
    const writers: LinkedList
    var state: nat
    var writersFirst: Node?
    var writersPrio: nat
    var readersWait: nat
    var readersSize: nat
    var readersPass: nat
    var resumed: seq<Tid>

    /** Two lists on the heap that share no node. */
    ghost predicate Valid()
      reads this, readers, readers.head, readers.elems, writers, writers.head, writers.elems
    {
      && readers != writers && readers.head != writers.head && readers.Valid() && writers.Valid()
      && readers.head !in writers.elems && writers.head !in readers.elems
      && forall x <- readers.elems :: x !in writers.elems
    }

    ghost predicate Apart(node: Node)
      reads readers, writers
    {
      node != readers.head && node != writers.head && node !in readers.elems && node !in writers.elems
    }

    ghost function Data(): Fields
      reads this, readers, writers
    {
      Fields(state, Ids(readers.elems), IdOf(writersFirst), Ids(writers.elems), writersPrio, readersWait, readersSize, readersPass)
    }

    constructor (config: Config)
      ensures Valid() && Data() == INITIAL && resumed == [] && this.config == config
      ensures fresh(readers) && fresh(readers.head) && fresh(writers) && fresh(writers.head)
    {
      this.config := config;
      readers := new LinkedList();
      writers := new LinkedList();
      state, writersFirst := 0, null;
      writersPrio, readersWait, readersSize, readersPass, resumed := 0, 0, 0, 0, [];
    }

    method TryLockSharedAwait() returns (ok: bool)
      modifies this`state
      ensures (Data(), ok) == CountReader(old(Data()))
    {
      var s := state;
      state := Add64(state, READER);
      ok := s / WRITER == 0;
    }

    method TryLockAwait() returns (ok: bool)
      modifies this`state
      ensures (Data(), ok) == CasState(old(Data()), 0, WRITER)
    {
      ok := state == 0;
      if ok {
        state := WRITER;
      }
    }

    method LinkReader(curr: Node)
      requires Valid() && Apart(curr)
      modifies readers, readers.head, readers.elems, curr
      ensures Valid() && writers.elems == old(writers.elems)
      ensures readers.elems == if config.readersFifo then old(readers.elems) + [curr] else [curr] + old(readers.elems)
      ensures Ids(readers.elems) == PushReader(config, Ids(old(readers.elems)), curr.id)
    {
      IdsAppend(readers.elems, [curr]);
      IdsAppend([curr], readers.elems);
      assert Ids([curr]) == [curr.id];
      ghost var q := writers.elems;
      assert forall x <- q :: x !in readers.elems && x != curr && x != readers.head;
      if config.readersFifo {
        readers.PushBack(curr);
      } else {
        readers.PushFront(curr);
      }
      Untouched(q);
    }

    method LinkWriter(curr: Node)
      requires Valid() && Apart(curr)
      modifies writers, writers.head, writers.elems, curr
      ensures Valid() && readers.elems == old(readers.elems) && writers.elems == old(writers.elems) + [curr]
    {
      ghost var q := readers.elems;
      assert forall x <- q :: x !in writers.elems && x != curr && x != writers.head;
      writers.PushBack(curr);
      Untouched(q);
    }

    method UnlinkWriter() returns (node: Node)
      requires Valid() && writers.elems != []
      modifies writers, writers.head
      ensures Valid() && readers.elems == old(readers.elems)
      ensures node == old(writers.elems[0]) && writers.elems == old(writers.elems[1..])
    {
      assert forall x <- readers.elems :: x !in writers.elems && x != writers.head;
      node := writers.PopFront();
    }

    /** The move out of `_readers`. */
    method MoveReaders() returns (q: LinkedList)
      requires Valid()
      modifies readers, readers.head
      ensures Valid() && readers.elems == [] && writers.elems == old(writers.elems)
      ensures fresh(q) && fresh(q.head) && q.Valid() && q.elems == old(readers.elems)
    {
      assert forall x <- writers.elems :: x !in readers.elems && x != readers.head;
      q := new LinkedList.Moved(readers);
    }

    /** The reader spends a pass, or is linked into the queue on the side that its order asks for. */
    method AwaitLockShared(curr: Node) returns (suspends: bool)
      requires Valid() && Apart(curr) && (readersPass != 0 || Writers(state) != 0)
      modifies this`readersPass, this`readersSize, readers, readers.head, readers.elems, curr
      ensures Valid() && (Data(), suspends) == TakePassOrQueue(config, old(Data()), curr.id)
      ensures writers.elems == old(writers.elems)
      ensures if !suspends then readers.elems == old(readers.elems)
              else if config.readersFifo then readers.elems == old(readers.elems) + [curr]
              else readers.elems == [curr] + old(readers.elems)
    {
      hide Ids, PushReader;
      if readersPass != 0 {
        readersPass := readersPass - 1;
        return false;
      }
      LinkReader(curr);
      readersSize := Add32(readersSize, 1);
      return true;
    }

    /** The writer owns the lock, or is the first one and waits for readers, or is linked to the end of the queue. */
    method AwaitLock(curr: Node) returns (suspends: bool)
      requires Valid() && Apart(curr)
      modifies this`state, this`writersFirst, this`readersWait, this`writersPrio, writers, writers.head, writers.elems, curr
      ensures Valid() && readers.elems == old(readers.elems)
      ensures (Data(), suspends) == Awaited(config, old(Data()), curr.id)
      ensures writers.elems == old(writers.elems) + if Writers(old(state)) != 0 then [curr] else []
      ensures Writers(old(state)) == 0 && old(readersWait) < U32 ==>
                writersFirst == curr && (suspends <==> Readers(old(state)) != 0 && readersWait != 0)
    {
      var s := state;
      state := Add64(state, WRITER);
      if s / WRITER == 0 {
        var r := s % WRITER;
        writersFirst := curr;
        if r == 0 {
          return false;
        }
        var before := readersWait;
        LastCounted(before, r);
        readersWait := Add32(readersWait, r);
        return before != Neg32(r);
      }
      Enqueue(curr);
      return true;
    }

    /** The end of AwaitLock behind another writer. */
    method Enqueue(curr: Node)
      requires Valid() && Apart(curr)
      modifies this`writersPrio, writers, writers.head, writers.elems, curr
      ensures Valid() && readers.elems == old(readers.elems) && writers.elems == old(writers.elems) + [curr]
      ensures Data() == QueueWriter(config, old(Data()), curr.id)
    {
      IdsAppend(writers.elems, [curr]);
      LinkWriter(curr);
      if config.fifo {
        var empty := readers.Empty();
        writersPrio := Add32(writersPrio, if empty then 1 else 0);
      }
    }

    /** co_await of the shared lock (include/yaclib/coro/detail/mutex_awaiter.hpp). */
    method CoLockShared(curr: Node) returns (suspends: bool)
      requires Valid() && Apart(curr) && state + READER < U64 && Readers(state) + 1 < U32
      modifies this`state, this`readersPass, this`readersSize, readers, readers.head, readers.elems, curr
      ensures Valid() && (Data(), suspends) == LockedShared(config, old(Data()), curr.id)
      ensures suspends <==> Writers(old(state)) != 0 && old(readersPass) == 0
      ensures curr in readers.elems <==> suspends
    {
      var ok := TryLockSharedAwait();
      if ok {
        return false;
      }
      suspends := AwaitLockShared(curr);
    }

    /** co_await of the lock. */
    method CoLock(curr: Node) returns (suspends: bool)
      requires Valid() && Apart(curr)
      modifies this`state, this`writersFirst, this`readersWait, this`writersPrio, writers, writers.head, writers.elems, curr
      ensures Valid() && (Data(), suspends) == Locked(config, old(Data()), curr.id)
      ensures curr in writers.elems <==> Writers(old(state)) != 0
    {
      var ok := TryLockAwait();
      if ok {
        return false;
      }
      suspends := AwaitLock(curr);
    }

    /** The compare_exchange fails `spurious` times for no reason. */
    method TryLockShared(spurious: nat) returns (ok: bool)
      modifies this`state
      ensures ok <==> Writers(old(state)) == 0
      ensures Data() == if ok then CountReader(old(Data())).0 else old(Data())
    {
      var s := state;
      var failures := spurious;
      while true
        invariant s == state == old(state)
        decreases failures
      {
        if s / WRITER != 0 {
          return false;
        }
        if failures == 0 {
          state := Add64(s, READER);
          return true;
        }
        failures := failures - 1;
      }
    }

    /** Run: the coroutine is submitted to its executor. */
    method Run(node: Node)
      modifies this`resumed
      ensures resumed == old(resumed) + [node.id]
    {
      resumed := resumed + [node.id];
    }

    /** The last reader that a counted writer waits for runs it; any other one only counts itself out. */
    method UnlockHereShared()
      requires state >= WRITER && readersWait == 1 ==> writersFirst != null
      modifies this`state, this`readersWait, this`resumed
      ensures (Data(), resumed) == var (m, q) := UnlockedShared(old(Data())); (m, old(resumed) + q)
      ensures state == (old(state) - 1) % U64
      ensures readersWait == if old(state) >= WRITER then (old(readersWait) - 1) % U32 else old(readersWait)
      ensures resumed == old(resumed) + if old(state) >= WRITER && old(readersWait) == 1 then [writersFirst.id] else []
    {
      var s := state;
      state := Sub64(state, READER);
      if s >= WRITER {
        var before := readersWait;
        readersWait := Sub32(readersWait, 1);
        if before == 1 {
          Run(writersFirst);
        }
      }
      assert old(resumed) + [] == old(resumed);
    }

    method UnlockHere()
      requires Valid() && (state != WRITER ==> CanSlowUnlock(config, Data()))
      modifies this, readers, readers.head, readers.elems, writers, writers.head
      ensures Valid()
      ensures old(state) == WRITER ==> Data() == old(Data()).(state := 0) && resumed == old(resumed)
      ensures old(state) != WRITER ==>
                (Data(), resumed) == var (m, q) := SlowUnlocked(config, old(Data())); (m, old(resumed) + q)
    {
      if state == WRITER {
        state := 0;
      } else {
        SlowUnlock();
      }
    }

    /** The first node of the writers' list is unlinked and run. */
    method RunWriter()
      requires Valid() && writers.elems != []
      modifies this`writersPrio, this`resumed, writers, writers.head
      ensures Valid() && Data() == PopWriter(config, old(Data())).0 && readers.elems == old(readers.elems)
      ensures resumed == old(resumed) + [PopWriter(config, old(Data())).1]
    {
      if config.fifo {
        writersPrio := Sub32(writersPrio, 1);
      }
      IdsRest(writers.elems);
      var node := UnlinkWriter();
      Run(node);
    }

    method PassReaders(s: nat)
      requires Writers(s) == 1 && Readers(s) >= readersSize
      modifies this`readersPass
      ensures Data() == SharedMutexCode.PassReaders(old(Data()), s)
    {
      var r := s % WRITER;
      readersPass := Add32(readersPass, Sub32(r, readersSize));
    }

    /** The loop that takes the readers off their list and runs them. */
    method RunAll(q: LinkedList)
      requires q.Valid() && q.elems != []
      modifies this`resumed, q, q.head
      ensures resumed == old(resumed) + Ids(old(q.elems))
    {
      ghost var all := q.elems;
      ghost var k := 0;
      var more := true;
      while more
        invariant 0 <= k <= |all| && q.Valid() && q.elems == all[k..] && (more <==> q.elems != [])
        invariant resumed == old(resumed) + Ids(all[..k])
        decreases |all| - k
      {
        IdsNext(all, k);
        var node := q.PopFront();
        Run(node);
        var empty := q.Empty();
        more := !empty;
        k := k + 1;
      }
      assert all[..k] == all;
    }

    /** The start of RunReaders when writers are left: the first of their list is unlinked. */
    method ChooseFirst(w: nat)
      requires Valid() && writers.elems != []
      modifies this`readersWait, this`writersFirst, this`writersPrio, writers, writers.head
      ensures Valid() && readers.elems == old(readers.elems)
      ensures writers.elems == old(writers.elems[1..]) && writersFirst == old(writers.elems[0])
      ensures forall s: nat :: Writers(s) == w ==> Data() == NextFirst(config, SetReadersWait(old(Data())), s)
    {
      readersWait := readersSize;
      IdsRest(writers.elems);
      var node := UnlinkWriter();
      writersFirst := node;
      if config.fifo {
        writersPrio := (w - 2) % U32;
      }
    }

    /** Every reader is taken off the list and run, in the order of the list. */
    method RunReaders(s: nat)
      requires Valid() && readers.elems != []
      requires if Writers(s) != 1 then writers.elems != [] else Readers(s) >= readersSize
      modifies this, readers, readers.head, readers.elems, writers, writers.head
      ensures Valid() && readers.elems == []
      ensures var m := if Writers(s) != 1 then NextFirst(config, SetReadersWait(old(Data())), s)
                       else SharedMutexCode.PassReaders(old(Data()), s);
        (Data(), resumed) == (TakeReaders(m).0, old(resumed) + TakeReaders(m).1)
      ensures resumed == old(resumed) + Ids(old(readers.elems))
      ensures if Writers(s) == 1 then writers.elems == old(writers.elems)
              else writers.elems == old(writers.elems[1..]) && writersFirst == old(writers.elems[0])
    {
      var w := s / WRITER;
      if w != 1 {
        ChooseFirst(w);
      } else {
        PassReaders(s);
      }
      RunQueue();
    }

    /** The end of RunReaders: every reader is taken off the list and run, in the order of the list. */
    method RunQueue()
      requires Valid() && readers.elems != []
      modifies this`readersSize, this`resumed, readers, readers.head, readers.elems
      ensures Valid() && readers.elems == [] && writers.elems == old(writers.elems)
      ensures (Data(), resumed) == (TakeReaders(old(Data())).0, old(resumed) + TakeReaders(old(Data())).1)
    {
      var q := MoveReaders();
      readersSize := 0;
      RunAll(q);
    }

    /** Everybody who was queued is resumed, or is the new first writer, or stays queued. */
    method SlowUnlock()
      requires Valid() && CanSlowUnlock(config, Data())
      modifies this, readers, readers.head, readers.elems, writers, writers.head
      ensures Valid() && old(resumed) <= resumed
      ensures Served(config, old(Data()), Data(), resumed[|old(resumed)|..])
      ensures (Data(), resumed) == var (m, q) := SlowUnlocked(config, old(Data())); (m, old(resumed) + q)
    {
      hide Served, LinkedList.Valid, List;
      Conserved(config, Data());
      var s := state;
      state := Sub64(state, WRITER);
      var empty := readers.Empty();
      if config.fifo && writersPrio != 0 {
        RunWriter();
      } else if !empty {
        RunReaders(s);
      } else if !config.fifo && s / WRITER != 1 {
        RunWriter();
      } else {
        PassReaders(s);
        assert resumed + [] == resumed;
      }
    }
  }

  /** The steps of the unlocking writer, one after the other, find what they need. */
  ghost predicate CanRunThrough(c: Config, s: Sys, t: Tid) {
    var s1 := SlowSub(s, t);
    && Shape(s1) && t in s1.pc && ChooseSafe(c, s1, t)
    && var s2 := SlowChoose(c, s1, t);
    && Shape(s2) && t in s2.pc && (s2.pc[t] == ExclMoves ==> MoveSafe(s2))
  }

  /** The steps of the unlocking writer when nobody steps in between. */
  ghost function RunThrough(c: Config, s: Sys, t: Tid): Sys
    requires CanRunThrough(c, s, t)
  {
    var s2 := SlowChoose(c, SlowSub(s, t), t);
    if s2.pc[t] == ExclMoves then SlowMove(c, s2, t) else s2
  }

  lemma RunsThrough(c: Config, s: Sys, t: Tid)
    requires Inv(c, s) && t in s.pc && s.pc[t] == ExclSlowLocked
    ensures CanRunThrough(c, s, t)
  {
    hide Inv, ChooseSafe, MoveSafe, SlowChoose;
    SlowSubKeeps(c, s, t);
    InvShape(c, SlowSub(s, t));
    SlowChooseKeeps(c, SlowSub(s, t), t);
    var s2 := SlowChoose(c, SlowSub(s, t), t);
    InvShape(c, s2);
    ChooserStays(c, SlowSub(s, t), t);
    if s2.pc[t] == ExclMoves { SlowMoveKeeps(c, s2, t); }
  }

  lemma ChooserStays(c: Config, s: Sys, t: Tid)
    requires Shape(s) && t in s.pc && ChooseSafe(c, s, t)
    ensures t in SlowChoose(c, s, t).pc
  {
  }

  lemma HandWriterData(c: Config, s: Sys, t: Tid)
    requires Shape(s) && t in s.pc && s.m.writers != [] && s.m.writers[0] in s.pc && s.m.writers[0] != t
    ensures var s' := HandWriter(c, s, t);
      s'.m == PopWriter(c, s.m).0 && s'.pc[t] == ExclWakes && t in s'.drain && s'.drain[t] == [PopWriter(c, s.m).1]
  {
  }

  lemma HandReadersData(s: Sys, t: Tid)
    requires Shape(s) && t in s.pc
    ensures var s' := HandReaders(s, t);
      s'.m == TakeReaders(s.m).0 && s'.pc[t] == Drains && t in s'.drain && s'.drain[t] == TakeReaders(s.m).1
  {
  }

  lemma SlowMoveData(c: Config, s: Sys, t: Tid)
    requires Shape(s) && t in s.pc && MoveSafe(s)
    ensures var s', m := SlowMove(c, s, t), NextFirst(c, s.m, s.saved[t]);
      s'.m == TakeReaders(m).0 && t in s'.drain && s'.drain[t] == TakeReaders(m).1
  {
    HandReadersData(Goto(s.(m := NextFirst(c, s.m, s.saved[t])), s.m.writers[0], ExclWaits), t);
    hide HandReaders;
  }

  /** `t` is in phase `p` with the coroutines `q` in its hands. */
  ghost predicate Hands(s: Sys, t: Tid, p: Phase, m: Fields, q: seq<Tid>) {
    In(s, t, p) && s.m == m && t in s.drain && s.drain[t] == q
  }

  /** What SlowChoose leaves behind, from the data that the subtraction left. */
  lemma ChooseData(c: Config, s: Sys, t: Tid)
    requires Shape(s) && t in s.pc && s.pc[t] == ExclLeft && ChooseSafe(c, s, t)
    ensures var s', before := SlowChoose(c, s, t), s.saved[t];
      match Choose(c, s.m, before)
      case ChooseWriter => Hands(s', t, ExclWakes, PopWriter(c, s.m).0, [PopWriter(c, s.m).1])
      case ChooseReaders =>
        var (m, q) := TakeReaders(PassReaders(s.m, before));
        if Writers(before) == 1 then Hands(s', t, Drains, m, q)
        else s'.pc[t] == ExclMoves && s'.m == SetReadersWait(s.m) && s'.saved == s.saved
      case ChooseNobody => s'.pc[t] == Idle && s'.m == PassReaders(s.m, before)
  {
    hide HandWriter, HandReaders;
    match Choose(c, s.m, s.saved[t])
    case ChooseWriter => HandWriterData(c, s, t);
    case ChooseReaders => HandReadersData(s.(m := PassReaders(s.m, s.saved[t])), t);
    case ChooseNobody =>
  }

  lemma RunThroughData(c: Config, s: Sys, t: Tid)
    requires t in s.pc && s.pc[t] == ExclSlowLocked && CanRunThrough(c, s, t)
    ensures CanSlowUnlock(c, s.m)
    ensures RunThrough(c, s, t).m == SlowUnlocked(c, s.m).0
    ensures SlowUnlocked(c, s.m).1 != [] ==>
              t in RunThrough(c, s, t).drain && RunThrough(c, s, t).drain[t] == SlowUnlocked(c, s.m).1
  {
    hide SlowChoose, SlowMove, HandWriter, HandReaders, ReadersSuspended;
    var s1 := SlowSub(s, t);
    ChooseData(c, s1, t);
    var s2 := SlowChoose(c, s1, t);
    if s2.pc[t] == ExclMoves { SlowMoveData(c, s2, t); }
  }

  /** SlowUnlock is what the unlocking writer does in SharedMutexRuns when nobody steps in between, and in no
      reachable state does one of its assertions fail. */
  lemma SlowUnlockIsSteps(c: Config, s: Sys, t: Tid)
    requires Reachable(c, s) && t in s.pc && s.pc[t] == ExclSlowLocked
    ensures CanRunThrough(c, s, t) && CanSlowUnlock(c, s.m)
    ensures RunThrough(c, s, t).m == SlowUnlocked(c, s.m).0
    ensures SlowUnlocked(c, s.m).1 != [] ==>
              t in RunThrough(c, s, t).drain && RunThrough(c, s, t).drain[t] == SlowUnlocked(c, s.m).1
  {
    hide Inv, CanRunThrough, RunThrough, CanSlowUnlock, SlowUnlocked;
    ReachableInv(c, s);
    RunsThrough(c, s, t);
    RunThroughData(c, s, t);
  }

  /** The writer that leaves its queue without being resumed, because the readers go first. */
  function NewFirst(c: Config, f: Fields): seq<Tid>
    requires CanSlowUnlock(c, f)
  {
    var (m, before) := UncountWriter(f);
    if Choose(c, m, before) == ChooseReaders && Writers(before) != 1 then [f.writers[0]] else []
  }

  lemma QueuesOf(c: Config, s: Sys, u: Tid)
    requires Inv(c, s)
    ensures u in s.m.readers ==> In(s, u, SharedQueued)
    ensures u in s.m.writers ==> In(s, u, ExclQueued)
  {
    if u in s.m.readers { assert u in Of(s.pc, IsQueued); }
    if u in s.m.writers { assert u in Of(s.pc, IsWriterQueued); }
  }

  /** The decision to resume nobody is made only when nobody is queued. */
  lemma NobodyQueued(c: Config, s: Sys, t: Tid)
    requires Inv(c, s) && t in s.pc && s.pc[t] == ExclSlowLocked
    ensures var (m, before) := UncountWriter(s.m);
      Choose(c, m, before) == ChooseNobody ==> s.m.readers == [] && s.m.writers == []
  {
    hide N, Of, Hands, Queues, Locking, Locals, TallyOf;
    TallyPresent(s.pc, t);
    Unpack(s.m.state, CountedWriters(K(s)), CountedReaders(K(s)));
  }

  /** Whoever was queued in `f` is resumed, in `q`, or is the new first writer, or stays queued in `m`. */
  ghost predicate Served(c: Config, f: Fields, m: Fields, q: seq<Tid>)
    requires CanSlowUnlock(c, f)
  {
    && multiset(f.readers) + multiset(f.writers)
    == multiset(q) + multiset(NewFirst(c, f)) + multiset(m.readers) + multiset(m.writers)
    && (forall u <- q :: u in f.readers || u in f.writers)
    && (NewFirst(c, f) != [] ==> m.writersFirst == Some(NewFirst(c, f)[0]))
  }

  lemma Conserved(c: Config, f: Fields)
    requires CanSlowUnlock(c, f)
    ensures Served(c, f, SlowUnlocked(c, f).0, SlowUnlocked(c, f).1)
  {
    if f.writers != [] { assert f.writers == [f.writers[0]] + f.writers[1..]; }
  }

  /** In every reachable state, SlowUnlock resumes somebody if anybody is queued, only coroutines that were queued,
      and everybody who was queued is resumed, or is the new first writer, or stays queued: nobody is lost and
      nobody is served twice. */
  lemma SlowUnlockServes(c: Config, s: Sys, t: Tid)
    requires Reachable(c, s) && t in s.pc && s.pc[t] == ExclSlowLocked
    ensures CanSlowUnlock(c, s.m)
    ensures var (m, q) := SlowUnlocked(c, s.m);
      && (q == [] <==> s.m.readers == [] && s.m.writers == [])
      && (forall u <- q :: In(s, u, SharedQueued) || In(s, u, ExclQueued))
      && multiset(s.m.readers) + multiset(s.m.writers)
      == multiset(q) + multiset(NewFirst(c, s.m)) + multiset(m.readers) + multiset(m.writers)
  {
    hide Inv, Reachable;
    ReachableInv(c, s);
    SlowUnlockIsSteps(c, s, t);
    NobodyQueued(c, s, t);
    Conserved(c, s.m);
    var (m, q) := SlowUnlocked(c, s.m);
    forall u <- q ensures In(s, u, SharedQueued) || In(s, u, ExclQueued) { QueuesOf(c, s, u); }
  }
}
