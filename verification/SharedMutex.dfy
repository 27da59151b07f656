/** The reader/writer lock for any number of threads. Each stretch of a method that runs with the
    internal mutex held, up to its return or to a wait on a gate, is one step. */
module SharedMutex {
  type Tid = nat

  const WORD: nat := 0x1_0000_0000
  /** `write_entered_` and `n_readers_`. */
  const WRITE_ENTERED: nat := 0x8000_0000
  const MAX_READERS: nat := 0x7FFF_FFFF

  /** `state_`, a 32-bit word. */
  type Word = n: nat | n < WORD

  /** A thread that sleeps on a gate is in that gate's set and not in `notified`. */
  datatype Lock = Lock(
    state: Word,
    gate1Writers: set<Tid>, gate1Readers: set<Tid>, // inside wait on gate1_
    gate2: set<Tid>,                                // inside wait on gate2_
    notified: set<Tid>,                             // of these, the notified ones
    writers: set<Tid>, readers: set<Tid>)           // past lock() and lock_shared()

  /** `state_ & write_entered_` and `state_ & n_readers_` on a 32-bit word. */
  function WriterBit(state: Word): Word { if state >= WRITE_ENTERED then WRITE_ENTERED else 0 }

  function Readers(state: Word): nat { state - WriterBit(state) }

  predicate NoWriter(l: Lock) { WriterBit(l.state) == 0 }

  predicate NoReaders(l: Lock) { Readers(l.state) == 0 }

  predicate NoWriterNoMaxReaders(l: Lock) { WriterBit(l.state) == 0 && Readers(l.state) != MAX_READERS }

  /** `state_ &= ~n_readers_; state_ |= n` */
  function WithReaders(state: Word, n: nat): Word
    requires n <= MAX_READERS
  {
    WriterBit(state) + n
  }

  predicate Busy(l: Lock, t: Tid) {
    t in l.gate1Writers || t in l.gate1Readers || t in l.gate2 || t in l.writers || t in l.readers
  }

  datatype Action =
    | CallLock(t: Tid)
    | CallLockShared(t: Tid)
    | TryLock(t: Tid)
    | TryLockShared(t: Tid)
    | Unlock(t: Tid)
    | UnlockShared(t: Tid, woken: Tid)
    | Resume(t: Tid)        // a notified or spuriously woken thread tests its gate again

  /** Threads call as the C++ library demands: a thread inside or past a lock operation does
      not start another, and only an owner unlocks. Any thread inside a wait may wake up. */
  predicate Enabled(l: Lock, a: Action) {
    match a
    case CallLock(t) => !Busy(l, t)
    case CallLockShared(t) => !Busy(l, t)
    case TryLock(t) => !Busy(l, t)
    case TryLockShared(t) => !Busy(l, t)
    case Unlock(t) => t in l.writers
    case UnlockShared(t, _) => t in l.readers
    case Resume(t) => t in l.gate1Writers || t in l.gate1Readers || t in l.gate2
  }

  /** The assertions of `unlock` and `unlock_shared`. */
  predicate Asserts(l: Lock, a: Action) {
    match a
    case Unlock(_) => WriterBit(l.state) != 0 && Readers(l.state) == 0
    case UnlockShared(_, _) => Readers(l.state) > 0
    case _ => true
  }

  /** From the test of gate1 in `lock`. */
  function EnterWriter(l: Lock, t: Tid): Lock {
    if NoWriter(l) then
      EnterGate2(l.(state := WRITE_ENTERED + Readers(l.state), gate1Writers := l.gate1Writers - {t},
                    notified := l.notified - {t}), t)
    else l.(gate1Writers := l.gate1Writers + {t}, notified := l.notified - {t})
  }

  /** From the test of gate2 in `lock`. */
  function EnterGate2(l: Lock, t: Tid): Lock {
    if NoReaders(l) then l.(gate2 := l.gate2 - {t}, notified := l.notified - {t}, writers := l.writers + {t})
    else l.(gate2 := l.gate2 + {t}, notified := l.notified - {t})
  }

  /** From the test of gate1 in `lock_shared`. */
  function EnterReader(l: Lock, t: Tid): Lock {
    if NoWriterNoMaxReaders(l) then
      l.(state := WithReaders(l.state, Readers(l.state) + 1), readers := l.readers + {t},
         gate1Readers := l.gate1Readers - {t}, notified := l.notified - {t})
    else l.(gate1Readers := l.gate1Readers + {t}, notified := l.notified - {t})
  }

  function Gate1(l: Lock): set<Tid> { l.gate1Writers + l.gate1Readers }

  /** `notify_one` wakes the given thread if it sleeps on the gate, and otherwise none; which one
      is woken is the library's choice. */
  function NotifyOne(l: Lock, gate: set<Tid>, woken: Tid): Lock {
    if woken in gate then l.(notified := l.notified + {woken}) else l
  }

  /** The library's choice is a sleeper, if there is one. */
  predicate FairChoice(l: Lock, gate: set<Tid>, woken: Tid) {
    gate - l.notified != {} ==> woken in gate - l.notified
  }

  function Step(l: Lock, a: Action): Lock
    requires Enabled(l, a) && Asserts(l, a)
  {
    match a
    case CallLock(t) => EnterWriter(l, t)
    case CallLockShared(t) => EnterReader(l, t)
    case TryLock(t) => if l.state == 0 then l.(state := WRITE_ENTERED, writers := l.writers + {t}) else l
    case TryLockShared(t) => if NoWriterNoMaxReaders(l) then EnterReader(l, t) else l
    case Unlock(t) => l.(state := 0, writers := l.writers - {t}, notified := l.notified + Gate1(l))
    case UnlockShared(t, woken) =>
      var n := Readers(l.state) - 1;
      var l' := l.(state := WithReaders(l.state, n), readers := l.readers - {t});
      if NoWriter(l') then (if n == MAX_READERS - 1 then NotifyOne(l', Gate1(l'), woken) else l')
      else if n == 0 then NotifyOne(l', l'.gate2, woken)
      else l'
    case Resume(t) =>
      if t in l.gate1Writers then EnterWriter(l, t)
      else if t in l.gate1Readers then EnterReader(l, t)
      else EnterGate2(l, t)
  }

  /** `notify_one` calls of the step wake a sleeper if there is one. */
  predicate FairStep(l: Lock, a: Action)
    requires Enabled(l, a) && Asserts(l, a)
  {
    a.UnlockShared? ==>
      var n := Readers(l.state) - 1;
      var l' := l.(state := WithReaders(l.state, n), readers := l.readers - {a.t});
      && (NoWriter(l') && n == MAX_READERS - 1 ==> FairChoice(l', Gate1(l'), a.woken))
      && (!NoWriter(l') && n == 0 ==> FairChoice(l', l'.gate2, a.woken))
  }

  // ------------------------------------------------------------ exclusion

  /** At most one thread is past gate1 as a writer; the word is its bit plus the exact number of
      readers; a writer owns the lock only without readers. */
  predicate Exclusive(l: Lock) {
    && |l.gate2 + l.writers| <= 1
    && l.state == (if l.gate2 + l.writers != {} then WRITE_ENTERED else 0) + |l.readers|
    && |l.readers| <= MAX_READERS
    && (l.writers != {} ==> l.readers == {})
    && l.gate2 !! l.writers
    && l.readers !! l.gate2 + l.writers
    && Gate1(l) !! l.gate2 + l.writers + l.readers
    && l.gate1Writers !! l.gate1Readers
    && l.notified <= Gate1(l) + l.gate2
  }

  const UNLOCKED := Lock(0, {}, {}, {}, {}, {}, {})

  lemma WordOfExclusive(l: Lock)
    requires Exclusive(l)
    ensures WriterBit(l.state) == (if l.gate2 + l.writers != {} then WRITE_ENTERED else 0)
    ensures Readers(l.state) == |l.readers|
  {
  }

  lemma AssertsHold(l: Lock, a: Action)
    requires Exclusive(l) && Enabled(l, a)
    ensures Asserts(l, a)
  {
    WordOfExclusive(l);
  }

  lemma OnlyMember(s: set<Tid>, t: Tid)
    requires |s| <= 1 && t in s
    ensures s == {t}
  {
    assert |s - {t}| == 0;
  }

  /** Every step keeps exclusion, and its assertions hold. */
  lemma StepExclusive(l: Lock, a: Action)
    requires Exclusive(l) && Enabled(l, a)
    ensures Asserts(l, a) && Exclusive(Step(l, a))
  {
    AssertsHold(l, a);
    match a
    case CallLock(t) => WriterEnters(l, t);
    case CallLockShared(t) => ReaderEnters(l, t);
    case TryLock(t) => TryLockKeeps(l, t);
    case TryLockShared(t) => ReaderEnters(l, t);
    case Unlock(t) => UnlockKeeps(l, t);
    case UnlockShared(t, woken) => UnlockSharedKeeps(l, t, woken);
    case Resume(t) =>
      if t in l.gate1Writers { WriterEnters(l, t); }
      else if t in l.gate1Readers { ReaderEnters(l, t); }
      else { Gate2Enters(l, t); }
  }

  lemma ReaderEnters(l: Lock, t: Tid)
    requires Exclusive(l) && (t in l.gate1Readers || !Busy(l, t))
    ensures Exclusive(EnterReader(l, t))
  {
    WordOfExclusive(l);
  }

  lemma TryLockKeeps(l: Lock, t: Tid)
    requires Exclusive(l) && !Busy(l, t)
    ensures Exclusive(Step(l, TryLock(t)))
  {
    assert l.gate2 + (l.writers + {t}) == (l.gate2 + l.writers) + {t};
  }

  lemma UnlockKeeps(l: Lock, t: Tid)
    requires Exclusive(l) && t in l.writers && Asserts(l, Unlock(t))
    ensures Exclusive(Step(l, Unlock(t)))
  {
    OnlyMember(l.gate2 + l.writers, t);
    assert l.gate2 == {} && l.writers == {t};
  }

  lemma UnlockSharedKeeps(l: Lock, t: Tid, woken: Tid)
    requires Exclusive(l) && t in l.readers && Asserts(l, UnlockShared(t, woken))
    ensures Exclusive(Step(l, UnlockShared(t, woken)))
  {
    WordOfExclusive(l);
  }

  lemma WriterEnters(l: Lock, t: Tid)
    requires Exclusive(l) && (t in l.gate1Writers || !Busy(l, t))
    ensures Exclusive(EnterWriter(l, t))
  {
    WordOfExclusive(l);
    if NoWriter(l) { TakesBit(l, t); }
  }

  /** The writer bit is free, so nobody is past gate1 as a writer, and t is now the one. */
  lemma TakesBit(l: Lock, t: Tid)
    requires Exclusive(l) && (t in l.gate1Writers || !Busy(l, t)) && NoWriter(l)
    ensures l.gate2 == {} && l.writers == {} && Exclusive(EnterWriter(l, t))
  {
    WordOfExclusive(l);
    assert l.gate2 == {} && l.writers == {};
    assert |{t}| == 1;
  }

  lemma Gate2Enters(l: Lock, t: Tid)
    requires Exclusive(l) && t in l.gate2
    ensures Exclusive(EnterGate2(l, t))
  {
    WordOfExclusive(l);
    OnlyMember(l.gate2 + l.writers, t);
  }

  // ------------------------------------------------------------ wake-ups

  /** A thread that sleeps on a gate without having been notified has a reason to: the writer
      bit or the maximum of readers for gate1, a reader for gate2. */
  predicate NoLostWakeUp(l: Lock) {
    && (l.gate1Writers <= l.notified || WriterBit(l.state) != 0)
    && (l.gate1Readers <= l.notified || WriterBit(l.state) != 0 || |l.readers| == MAX_READERS)
    && (l.gate2 <= l.notified || l.readers != {})
  }

  /** Leaving the maximum wakes one sleeper of gate1, however many there are. */
  predicate LosesWakeUp(l: Lock, a: Action) {
    a.UnlockShared? && |l.readers| == MAX_READERS && WriterBit(l.state) == 0 && |Gate1(l) - l.notified| >= 2
  }

  /** A step loses a wake-up exactly when a reader leaves the maximum with two or more sleeping. */
  lemma StepWakes(l: Lock, a: Action)
    requires Exclusive(l) && NoLostWakeUp(l) && Enabled(l, a) && Asserts(l, a) && FairStep(l, a)
    ensures NoLostWakeUp(Step(l, a)) <==> !LosesWakeUp(l, a)
  {
    match a
    case UnlockShared(t, woken) => UnlockSharedWakes(l, t, woken);
    case Resume(t) =>
      if t in l.gate1Writers { WriterWakes(l, t); }
      else if t in l.gate1Readers { ReaderWakes(l, t); }
      else { Gate2Wakes(l, t); }
    case CallLock(t) => WriterWakes(l, t);
    case CallLockShared(t) => ReaderWakes(l, t);
    case TryLockShared(t) => ReaderWakes(l, t);
    case Unlock(t) => OnlyMember(l.gate2 + l.writers, t);
    case TryLock(t) => WordOfExclusive(l);
  }

  lemma WriterWakes(l: Lock, t: Tid)
    requires Exclusive(l) && NoLostWakeUp(l) && (t in l.gate1Writers || !Busy(l, t))
    ensures NoLostWakeUp(EnterWriter(l, t))
  {
    WordOfExclusive(l);
  }

  lemma ReaderWakes(l: Lock, t: Tid)
    requires Exclusive(l) && NoLostWakeUp(l) && (t in l.gate1Readers || !Busy(l, t))
    ensures NoLostWakeUp(EnterReader(l, t))
  {
    WordOfExclusive(l);
  }

  lemma Gate2Wakes(l: Lock, t: Tid)
    requires Exclusive(l) && NoLostWakeUp(l) && t in l.gate2
    ensures NoLostWakeUp(EnterGate2(l, t))
  {
    WordOfExclusive(l);
    OnlyMember(l.gate2 + l.writers, t);
  }

  lemma UnlockSharedWakes(l: Lock, t: Tid, woken: Tid)
    requires Exclusive(l) && NoLostWakeUp(l) && t in l.readers
    requires Asserts(l, UnlockShared(t, woken)) && FairStep(l, UnlockShared(t, woken))
    ensures NoLostWakeUp(Step(l, UnlockShared(t, woken))) <==> !LosesWakeUp(l, UnlockShared(t, woken))
  {
    WordOfExclusive(l);
    var n := |l.readers| - 1;
    var l0 := l.(state := WithReaders(l.state, n), readers := l.readers - {t});
    assert |l0.readers| == n;
    assert Step(l, UnlockShared(t, woken)) ==
      if NoWriter(l0) then (if n == MAX_READERS - 1 then NotifyOne(l0, Gate1(l0), woken) else l0)
      else if n == 0 then NotifyOne(l0, l0.gate2, woken) else l0;
    if WriterBit(l.state) != 0 {
      if n == 0 { Gate2Woken(l0, woken); }
    } else if n == MAX_READERS - 1 {
      LeavesMaximum(l0, woken);
    }
  }

  lemma AllNotified(gate: set<Tid>, notified: set<Tid>)
    requires gate - notified == {}
    ensures gate <= notified
  {
    forall t | t in gate ensures t in notified {
      assert t !in gate - notified;
    }
  }

  /** The only thread that can wait on gate2 is the one woken. */
  lemma Gate2Woken(l: Lock, woken: Tid)
    requires |l.gate2 + l.writers| <= 1 && FairChoice(l, l.gate2, woken) && WriterBit(l.state) != 0
    ensures NoLostWakeUp(NotifyOne(l, l.gate2, woken))
  {
    if woken in l.gate2 { OnlyMember(l.gate2 + l.writers, woken); }
    else { AllNotified(l.gate2, l.notified); }
  }

  /** With one sleeper all are woken, with more one stays asleep for no reason. */
  lemma LeavesMaximum(l: Lock, woken: Tid)
    requires WriterBit(l.state) == 0 && |l.readers| == MAX_READERS - 1 && l.gate1Writers <= l.notified
    requires FairChoice(l, Gate1(l), woken) && l.gate2 == {}
    ensures NoLostWakeUp(NotifyOne(l, Gate1(l), woken)) <==> |Gate1(l) - l.notified| < 2
  {
    var sleepers := Gate1(l) - l.notified;
    var l' := NotifyOne(l, Gate1(l), woken);
    if sleepers == {} {
      AllNotified(Gate1(l), l.notified);
    } else {
      assert |sleepers - {woken}| == |sleepers| - 1;
      assert l'.gate1Readers - l'.notified == sleepers - {woken};
      if |sleepers| < 2 { assert sleepers - {woken} == {}; }
    }
  }

  // ------------------------------------------------------------ runs

  predicate CanRun(l: Lock, acts: seq<Action>)
    decreases |acts|
  {
    acts == [] || (Enabled(l, acts[0])
                   && (Asserts(l, acts[0]) ==> FairStep(l, acts[0]) && CanRun(Step(l, acts[0]), acts[1..])))
  }

  /** Every state of the run is exclusive and no assertion fails. */
  predicate SafeRun(l: Lock, acts: seq<Action>)
    requires CanRun(l, acts)
    decreases |acts|
  {
    && Exclusive(l)
    && (acts == [] || (Asserts(l, acts[0]) && SafeRun(Step(l, acts[0]), acts[1..])))
  }

  predicate BelowMaximum(l: Lock, acts: seq<Action>)
    requires CanRun(l, acts)
    decreases |acts|
  {
    && |l.readers| < MAX_READERS
    && (acts == [] || (Asserts(l, acts[0]) ==> BelowMaximum(Step(l, acts[0]), acts[1..])))
  }

  /** In every state of the run sleepers have a reason; in particular none sleeps on a free lock. */
  predicate AwakeRun(l: Lock, acts: seq<Action>)
    requires CanRun(l, acts)
    decreases |acts|
  {
    && NoLostWakeUp(l)
    && (l.state == 0 ==> Gate1(l) + l.gate2 <= l.notified)
    && (acts == [] || (Asserts(l, acts[0]) && AwakeRun(Step(l, acts[0]), acts[1..])))
  }

  lemma {:induction false} RunIsSafe(l: Lock, acts: seq<Action>)
    requires Exclusive(l) && CanRun(l, acts)
    ensures SafeRun(l, acts)
    decreases |acts|
  {
    if acts != [] {
      StepExclusive(l, acts[0]);
      RunIsSafe(Step(l, acts[0]), acts[1..]);
    }
  }

  /** As long as the reader count stays below its maximum, no wake-up is lost. */
  lemma {:induction false} RunIsAwake(l: Lock, acts: seq<Action>)
    requires Exclusive(l) && NoLostWakeUp(l) && CanRun(l, acts) && BelowMaximum(l, acts)
    ensures AwakeRun(l, acts)
    decreases |acts|
  {
    WordOfExclusive(l);
    if acts != [] {
      StepExclusive(l, acts[0]);
      StepWakes(l, acts[0]);
      RunIsAwake(Step(l, acts[0]), acts[1..]);
    }
  }

  /** The same for every run from the unlocked lock. */
  lemma LockIsSafe(acts: seq<Action>)
    requires CanRun(UNLOCKED, acts)
    ensures SafeRun(UNLOCKED, acts)
    ensures BelowMaximum(UNLOCKED, acts) ==> AwakeRun(UNLOCKED, acts)
  {
    RunIsSafe(UNLOCKED, acts);
    if BelowMaximum(UNLOCKED, acts) { RunIsAwake(UNLOCKED, acts); }
  }

  // ------------------------------------------------------------ who gets the lock

  /** No thread is past gate1 as a writer. */
  predicate NoWriterPast(l: Lock) { l.writers == {} && l.gate2 == {} }

  predicate Free(l: Lock) { NoWriterPast(l) && l.readers == {} }

  predicate RoomForReader(l: Lock) { NoWriterPast(l) && |l.readers| < MAX_READERS }

  /** Only the thread that acts changes its place, but for who is woken. */
  predicate OthersStay(l: Lock, l': Lock, t: Tid) {
    && l'.gate1Writers - {t} == l.gate1Writers - {t} && l'.gate1Readers - {t} == l.gate1Readers - {t}
    && l'.gate2 - {t} == l.gate2 - {t} && l'.writers - {t} == l.writers - {t} && l'.readers - {t} == l.readers - {t}
  }

  /** A writer gets the lock at once exactly if it is free; with readers only it waits on gate2, else on gate1. */
  predicate WriterPlaced(l: Lock, l': Lock, t: Tid) {
    && (t in l'.writers <==> Free(l))
    && (t in l'.gate2 <==> NoWriterPast(l) && !Free(l))
    && (t in l'.gate1Writers <==> !NoWriterPast(l))
  }

  predicate ReaderPlaced(l: Lock, l': Lock, t: Tid) {
    && (t in l'.readers <==> RoomForReader(l))
    && (t in l'.gate1Readers <==> !RoomForReader(l))
  }

  lemma TestsMean(l: Lock)
    requires Exclusive(l)
    ensures NoWriter(l) <==> NoWriterPast(l)
    ensures NoReaders(l) <==> l.readers == {}
    ensures NoWriterNoMaxReaders(l) <==> RoomForReader(l)
    ensures l.state == 0 <==> Free(l)
  {
    WordOfExclusive(l);
  }

  lemma WriterGets(l: Lock, t: Tid)
    requires Exclusive(l) && (t in l.gate1Writers || !Busy(l, t))
    ensures OthersStay(l, EnterWriter(l, t), t) && WriterPlaced(l, EnterWriter(l, t), t)
  {
    TestsMean(l);
    WordOfExclusive(l);
  }

  lemma ReaderGets(l: Lock, t: Tid)
    requires Exclusive(l) && (t in l.gate1Readers || !Busy(l, t))
    ensures OthersStay(l, EnterReader(l, t), t) && ReaderPlaced(l, EnterReader(l, t), t)
  {
    TestsMean(l);
  }

  lemma Gate2Gets(l: Lock, t: Tid)
    requires Exclusive(l) && t in l.gate2
    ensures var l' := EnterGate2(l, t);
      && OthersStay(l, l', t) && (t in l'.writers <==> l.readers == {}) && (t in l'.gate2 <==> l.readers != {})
  {
    TestsMean(l);
  }

  predicate Acquires(l: Lock, a: Action, l': Lock) {
    match a
    case CallLock(t) => WriterPlaced(l, l', t)
    case CallLockShared(t) => ReaderPlaced(l, l', t)
    case TryLock(t) => if Free(l) then t in l'.writers else l' == l
    case TryLockShared(t) => if RoomForReader(l) then t in l'.readers else l' == l
    case Unlock(t) => t !in l'.writers && Gate1(l) <= l'.notified
    case UnlockShared(t, _) => t !in l'.readers
    case Resume(t) =>
      if t in l.gate1Writers then WriterPlaced(l, l', t)
      else if t in l.gate1Readers then ReaderPlaced(l, l', t)
      else (t in l'.writers <==> l.readers == {}) && (t in l'.gate2 <==> l.readers != {})
  }

  /** Who gets the lock, in terms of the threads that have it: `try_lock` succeeds exactly if no thread has it
      and no writer waits for the readers to leave, `try_lock_shared` exactly if no writer is past gate1 and
      there is room, and both change nothing otherwise; the waiting forms get it under the same conditions. */
  lemma AcquiresExactly(l: Lock, a: Action)
    requires Exclusive(l) && Enabled(l, a) && Asserts(l, a)
    ensures OthersStay(l, Step(l, a), a.t) && Acquires(l, a, Step(l, a))
  {
    match a
    case CallLock(t) => WriterGets(l, t);
    case CallLockShared(t) => ReaderGets(l, t);
    case TryLock(t) => TestsMean(l);
    case TryLockShared(t) => TestsMean(l); ReaderGets(l, t);
    case Unlock(t) =>
    case UnlockShared(t, woken) => LeavesOnly(l, t, woken);
    case Resume(t) =>
      if t in l.gate1Writers { WriterGets(l, t); }
      else if t in l.gate1Readers { ReaderGets(l, t); }
      else { Gate2Gets(l, t); }
  }

  lemma LeavesOnly(l: Lock, t: Tid, woken: Tid)
    requires Enabled(l, UnlockShared(t, woken)) && Asserts(l, UnlockShared(t, woken))
    ensures var l' := Step(l, UnlockShared(t, woken)); OthersStay(l, l', t) && t !in l'.readers
  {
  }

  // ------------------------------------------------------------ writer preference

  lemma WriterBitKeepsReadersOut(l: Lock, a: Action)
    requires Exclusive(l) && Enabled(l, a) && Asserts(l, a) && WriterBit(l.state) != 0 && !a.Unlock?
    ensures Step(l, a).readers <= l.readers && WriterBit(Step(l, a).state) != 0
    ensures Readers(Step(l, a).state) <= Readers(l.state)
  {
    WordOfExclusive(l);
  }

  function Exec(l: Lock, acts: seq<Action>): Lock
    requires CanRun(l, acts) && SafeRun(l, acts)
    decreases |acts|
  {
    if acts == [] then l else Exec(Step(l, acts[0]), acts[1..])
  }

  /** From the moment a writer sets its bit until a writer unlocks, the reader count never rises. */
  lemma {:induction false} WriterPreference(l: Lock, acts: seq<Action>)
    requires CanRun(l, acts) && SafeRun(l, acts) && WriterBit(l.state) != 0
    requires forall i :: 0 <= i < |acts| ==> !acts[i].Unlock?
    ensures Readers(Exec(l, acts).state) <= Readers(l.state) && WriterBit(Exec(l, acts).state) != 0
    decreases |acts|
  {
    if acts != [] {
      WriterBitKeepsReadersOut(l, acts[0]);
      forall i | 0 <= i < |acts[1..]| ensures !acts[1..][i].Unlock? { assert !acts[i + 1].Unlock?; }
      WriterPreference(Step(l, acts[0]), acts[1..]);
    }
  }

  // ------------------------------------------------------------ the lost wake-up

  /** The threads below k read, and nothing else goes on. */
  ghost predicate Plain(z: Lock, k: nat) {
    && z.state == k <= MAX_READERS && |z.readers| == k
    && (forall t: Tid :: t in z.readers <==> t < k)
    && z.gate1Writers == {} && z.gate1Readers == {} && z.gate2 == {} && z.notified == {} && z.writers == {}
  }

  /** The run `acts` leads from l to z, every state exclusive and no assertion failing. */
  ghost predicate Reaches(l: Lock, acts: seq<Action>, z: Lock) {
    CanRun(l, acts) && SafeRun(l, acts) && Exec(l, acts) == z
  }

  lemma {:induction false} Extend(l: Lock, acts: seq<Action>, z: Lock, a: Action, z': Lock)
    requires Reaches(l, acts, z) && Reaches(z, [a], z')
    ensures Reaches(l, acts + [a], z')
    decreases |acts|
  {
    if acts == [] {
      assert acts + [a] == [a];
    } else {
      Extend(Step(l, acts[0]), acts[1..], z, a, z');
      RunThen(l, acts[0], acts[1..] + [a]);
      assert [acts[0]] + (acts[1..] + [a]) == acts + [a];
    }
  }

  lemma RunThen(l: Lock, a: Action, rest: seq<Action>)
    requires Exclusive(l) && Enabled(l, a) && Asserts(l, a) && FairStep(l, a)
    requires CanRun(Step(l, a), rest) && SafeRun(Step(l, a), rest)
    ensures CanRun(l, [a] + rest) && SafeRun(l, [a] + rest) && Exec(l, [a] + rest) == Exec(Step(l, a), rest)
  {
    assert ([a] + rest)[1..] == rest;
  }

  predicate Fires(l: Lock, a: Action) { Enabled(l, a) && Asserts(l, a) && FairStep(l, a) && Exclusive(Step(l, a)) }

  lemma RunOne(l: Lock, a: Action)
    requires Exclusive(l) && Fires(l, a)
    ensures Reaches(l, [a], Step(l, a))
  {
    assert [a][1..] == [];
  }

  /** One step more. */
  lemma Then(start: Lock, acts: seq<Action>, z: Lock, a: Action)
    requires Reaches(start, acts, z) && Exclusive(z) && Fires(z, a)
    ensures Reaches(start, acts + [a], Step(z, a))
  {
    RunOne(z, a);
    Extend(start, acts, z, a, Step(z, a));
  }

  lemma PlainStep(z: Lock, k: nat)
    requires Plain(z, k) && Exclusive(z) && k < MAX_READERS
    ensures Fires(z, CallLockShared(k)) && Plain(Step(z, CallLockShared(k)), k + 1)
  {
    WordOfExclusive(z);
    StepExclusive(z, CallLockShared(k));
  }

  lemma OneMoreReads(start: Lock, acts: seq<Action>, z: Lock, k: nat) returns (acts': seq<Action>, z': Lock)
    requires Reaches(start, acts, z) && Exclusive(z) && Plain(z, k) && k < MAX_READERS
    ensures Reaches(start, acts', z') && Exclusive(z') && Plain(z', k + 1)
  {
    PlainStep(z, k);
    Then(start, acts, z, CallLockShared(k));
    acts', z' := acts + [CallLockShared(k)], Step(z, CallLockShared(k));
  }

  lemma NoStep(start: Lock)
    requires Exclusive(start)
    ensures Reaches(start, [], start)
  {
  }

  lemma {:induction false} ReachPlain(start: Lock, k: nat) returns (acts: seq<Action>, z: Lock)
    requires k <= MAX_READERS && Exclusive(start) && Plain(start, 0)
    ensures Reaches(start, acts, z) && Exclusive(z) && Plain(z, k)
  {
    if k == 0 {
      NoStep(start);
      acts, z := [], start;
    } else {
      acts, z := ReachPlain(start, k - 1);
      acts, z := OneMoreReads(start, acts, z, k - 1);
    }
  }

  /** The maximum of readers, two more asleep, one reader leaves: one sleeper is left asleep
      although the lock has no writer and room for a reader. */
  lemma WakeUpCanBeLost() returns (acts: seq<Action>)
    ensures CanRun(UNLOCKED, acts) && SafeRun(UNLOCKED, acts)
    ensures var l := Exec(UNLOCKED, acts);
      WriterBit(l.state) == 0 && |l.readers| < MAX_READERS && !(l.gate1Readers <= l.notified)
  {
    var z: Lock;
    acts, z := LostAt(UNLOCKED, MAX_READERS);
  }

  lemma LostAt(start: Lock, m: nat) returns (acts: seq<Action>, z: Lock)
    requires m == MAX_READERS && Exclusive(start) && Plain(start, 0)
    ensures Reaches(start, acts, z)
    ensures WriterBit(z.state) == 0 && |z.readers| < MAX_READERS && !(z.gate1Readers <= z.notified)
  {
    acts, z := ReachPlain(start, m);
    acts, z := FallsAsleep(start, acts, z, m);
    acts, z := FallsAsleep(start, acts, z, m + 1);
    OneLeaves(z, m, m + 1);
    Then(start, acts, z, UnlockShared(0, m));
    acts, z := acts + [UnlockShared(0, m)], Step(z, UnlockShared(0, m));
  }

  /** At the maximum of readers one more goes to sleep. */
  lemma FallsAsleep(start: Lock, acts: seq<Action>, z: Lock, t: Tid) returns (acts': seq<Action>, z': Lock)
    requires Reaches(start, acts, z) && Exclusive(z) && !Busy(z, t)
    requires |z.readers| == MAX_READERS && WriterBit(z.state) == 0 && z.notified == {}
    ensures Reaches(start, acts', z') && Exclusive(z') && z' == z.(gate1Readers := z.gate1Readers + {t})
  {
    SleepsAtMaximum(z, t);
    Then(start, acts, z, CallLockShared(t));
    acts', z' := acts + [CallLockShared(t)], Step(z, CallLockShared(t));
  }

  lemma OneLeaves(l: Lock, woken: Tid, other: Tid)
    requires Exclusive(l) && |l.readers| == MAX_READERS && 0 in l.readers && WriterBit(l.state) == 0
    requires woken in l.gate1Readers && other in l.gate1Readers && woken != other && l.notified == {}
    ensures var a := UnlockShared(0, woken);
      && Fires(l, a)
      && WriterBit(Step(l, a).state) == 0 && |Step(l, a).readers| < MAX_READERS
      && !(Step(l, a).gate1Readers <= Step(l, a).notified)
  {
    WordOfExclusive(l);
    assert |l.readers - {0}| == |l.readers| - 1;
    var l' := Step(l, UnlockShared(0, woken));
    assert l'.notified <= {woken};
    assert other in l'.gate1Readers && other !in l'.notified;
    StepExclusive(l, UnlockShared(0, woken));
  }

  /** At the maximum of readers one more goes to sleep. */
  lemma SleepsAtMaximum(l: Lock, t: Tid)
    requires Exclusive(l) && |l.readers| == MAX_READERS && WriterBit(l.state) == 0 && !Busy(l, t) && l.notified == {}
    ensures Fires(l, CallLockShared(t))
    ensures Step(l, CallLockShared(t)) == l.(gate1Readers := l.gate1Readers + {t})
  {
    WordOfExclusive(l);
    assert l.notified - {t} == l.notified;
    StepExclusive(l, CallLockShared(t));
  }
}
