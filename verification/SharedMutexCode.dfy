/** The data of the coroutine reader/writer lock (include/yaclib/coro/shared_mutex.hpp)
    and what each of its atomic fragments does to that data.

    A fragment is the code between two accesses to an atomic variable.  The
    functions are the specification that SharedMutexRuns interleaves; the class of
    SharedMutexImpl is the code, field by field and assignment by assignment. */
module SharedMutexCode {
  import opened Common
  import opened Census

  const U32: nat := 0x1_0000_0000
  const U64: nat := 0x1_0000_0000_0000_0000
  const READER: nat := 1
  const WRITER: nat := U32

  /** `fifo`: readers and writers in a single queue; `readersFifo`: the resume order of the readers. */
  datatype Config = Config(fifo: bool, readersFifo: bool)

  datatype Fields = Fields(
    state: nat,
    readers: seq<Tid>,
    writersFirst: Option<Tid>,
    writers: seq<Tid>,
    writersPrio: nat,
    readersWait: nat,
    readersSize: nat,
    readersPass: nat)

  const INITIAL := Fields(0, [], None, [], 0, 0, 0, 0)

  /** The packed word `_state`: 32 bits of writers above 32 bits of readers. */
  function Writers(state: nat): nat { state / WRITER }

  function Readers(state: nat): nat { state % WRITER }

  function Add64(x: nat, d: nat): nat { (x + d) % U64 }

  function Sub64(x: nat, d: nat): nat { (x - d) % U64 }

  function Add32(x: nat, d: nat): nat { (x + d) % U32 }

  function Sub32(x: nat, d: nat): nat { (x - d) % U32 }

  /** Negation of an unsigned 32-bit number. */
  function Neg32(x: nat): nat { (U32 - x % U32) % U32 }

  function PushReader(c: Config, q: seq<Tid>, t: Tid): seq<Tid> {
    if c.readersFifo then q + [t] else [t] + q
  }

  // ---------- fragments ----------

  /** TryLockSharedAwait: count the reader first, then see whether it is admitted. */
  function CountReader(f: Fields): (Fields, bool) {
    (f.(state := Add64(f.state, READER)), Writers(f.state) == 0)
  }

  /** AwaitLockShared, under the spinlock: true when the coroutine suspends. */
  function TakePassOrQueue(c: Config, f: Fields, t: Tid): (Fields, bool) {
    if f.readersPass != 0 then
      (f.(readersPass := f.readersPass - 1), false)
    else
      (f.(readers := PushReader(c, f.readers, t), readersSize := Add32(f.readersSize, 1)), true)
  }

  /** A strong compare_exchange of `_state`. */
  function CasState(f: Fields, expected: nat, desired: nat): (Fields, bool) {
    if f.state == expected then (f.(state := desired), true) else (f, false)
  }

  /** AwaitLock: the fetch_add(kWriter). */
  function CountWriter(f: Fields): (Fields, nat) {
    (f.(state := Add64(f.state, WRITER)), f.state)
  }

  /** AwaitLock: no other writer, this one becomes the first. */
  function BecomeFirst(f: Fields, t: Tid): Fields {
    f.(writersFirst := Some(t))
  }

  /** AwaitLock: `_readers_wait.fetch_add(r) != -r`, true when the writer must wait for readers. */
  function AwaitReaders(f: Fields, r: nat): (Fields, bool) {
    (f.(readersWait := Add32(f.readersWait, r)), f.readersWait != Neg32(r))
  }

  /** AwaitLock: another writer owns or awaits the lock, join the queue. */
  function QueueWriter(c: Config, f: Fields, t: Tid): Fields {
    f.(writers := f.writers + [t],
       writersPrio := if c.fifo then Add32(f.writersPrio, if f.readers == [] then 1 else 0) else f.writersPrio)
  }

  /** UnlockHereShared: the fetch_sub(kReader); true when a writer waits. */
  function UncountReader(f: Fields): (Fields, bool) {
    (f.(state := Sub64(f.state, READER)), f.state >= WRITER)
  }

  /** UnlockHereShared: `_readers_wait.fetch_sub(1) == 1`; true for the last active reader. */
  function ReaderGone(f: Fields): (Fields, bool) {
    (f.(readersWait := Sub32(f.readersWait, 1)), f.readersWait == 1)
  }

  /** SlowUnlock: the fetch_sub(kWriter). */
  function UncountWriter(f: Fields): (Fields, nat) {
    (f.(state := Sub64(f.state, WRITER)), f.state)
  }

  datatype Choice = ChooseWriter | ChooseReaders | ChooseNobody

  /** SlowUnlock: who runs next, from the value `s` the word had before the fetch_sub. */
  function Choose(c: Config, f: Fields, s: nat): Choice {
    if c.fifo && f.writersPrio != 0 then ChooseWriter
    else if f.readers != [] then ChooseReaders
    else if !c.fifo && Writers(s) != 1 then ChooseWriter
    else ChooseNobody
  }

  /** RunWriter, up to the release of the spinlock: the writer to run. */
  function PopWriter(c: Config, f: Fields): (Fields, Tid)
    requires f.writers != []
  {
    (f.(writers := f.writers[1..],
        writersPrio := if c.fifo then Sub32(f.writersPrio, 1) else f.writersPrio),
     f.writers[0])
  }

  /** PassReaders: one anonymous token for each reader that is counted but not queued. */
  function PassReaders(f: Fields, s: nat): Fields {
    f.(readersPass := Add32(f.readersPass, Sub32(Readers(s), f.readersSize)))
  }

  /** RunReaders with writers left: the store to `_readers_wait`. */
  function SetReadersWait(f: Fields): Fields {
    f.(readersWait := f.readersSize)
  }

  /** RunReaders with writers left: choose the next first writer. */
  function NextFirst(c: Config, f: Fields, s: nat): Fields
    requires f.writers != []
  {
    f.(writers := f.writers[1..],
       writersFirst := Some(f.writers[0]),
       writersPrio := if c.fifo then (Writers(s) - 2) % U32 else f.writersPrio)
  }

  /** RunReaders: take the whole queue of readers. */
  function TakeReaders(f: Fields): (Fields, seq<Tid>) {
    (f.(readers := [], readersSize := 0), f.readers)
  }
}
