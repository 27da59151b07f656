/** The blocking queue: the lock-free queue behind the semaphore. The producer signals after
    each successful enqueue; the consumer removes an element only with a permit. */
module BlockingQueue {
  import opened Options
  import opened Spsc
  import opened SpscInvariant
  import opened SpscRefinement
  import SpscTheorems
  import opened Semaphore

  datatype ProducerPhase = PFree | PEnqueuing | PSignalling | PPosting

  datatype ConsumerPhase = CFree | CWaiting(op: Op) | CGranted(op: Op) | CRemoving | CPeeking

  datatype Blocking<T> = Blocking(q: Queue<T>, sema: Sema, p: ProducerPhase, c: ConsumerPhase)

  datatype Move<T> =
    | StartPut(x: T, alloc: bool)
    | Put(allocOk: bool)
    | SignalOne
    | PostToken
    | StartTry(op: Op)
    | StartWait(op: Op, timeout: int)
    | Wait
    | WaitGivesUp
    | StartPeek
    | StartRemove
    | Remove

  predicate CanMove<T>(b: Blocking<T>, m: Move<T>) {
    match m
    case StartPut(x, alloc) => b.p.PFree? && Spsc.Enabled(b.q, CallEnqueue(x, alloc))
    case Put(ok) => b.p.PEnqueuing? && Spsc.Enabled(b.q, Produce(ok))
    case SignalOne => b.p.PSignalling? && Semaphore.Enabled(b.sema, Signal(1))
    case PostToken => b.p.PPosting? && Semaphore.Enabled(b.sema, Post)
    case StartTry(op) => b.c.CFree? && !op.Peek? && Semaphore.Enabled(b.sema, CallTryWait)
    case StartWait(op, t) => b.c.CFree? && !op.Peek? && Semaphore.Enabled(b.sema, CallWait(t))
    case Wait => b.c.CWaiting? && Semaphore.Enabled(b.sema, Waits)
    case WaitGivesUp => b.c.CWaiting? && Semaphore.Enabled(b.sema, GivesUp)
    case StartPeek => b.c.CFree? && Spsc.Enabled(b.q, CallConsume(Peek))
    case StartRemove => b.c.CGranted? && Spsc.Enabled(b.q, CallConsume(b.c.op))
    case Remove => (b.c.CRemoving? || b.c.CPeeking?) && Spsc.Enabled(b.q, Consume)
  }

  /** One step; the flag says that an assertion of the queue, of the semaphore's `signal` or of the
      blocking queue fails. */
  function MoveStep<T>(b: Blocking<T>, m: Move<T>): (Blocking<T>, bool)
    requires CanMove(b, m)
  {
    match m
    case StartPut(x, alloc) =>
      var o := Spsc.Step(b.q, CallEnqueue(x, alloc));
      (b.(q := o.next, p := PEnqueuing), o.event.Fault?)
    case Put(ok) =>
      var o := Spsc.Step(b.q, Produce(ok));
      (b.(q := o.next,
          p := if o.event.Enqueued? then PSignalling else if o.event.NotEnqueued? then PFree else PEnqueuing),
       o.event.Fault?)
    case SignalOne =>
      var s' := Semaphore.Step(b.sema, Signal(1)).0;
      (b.(sema := s', p := if s'.sig.SPost? then PPosting else PFree), b.sema.count < -1)
    case PostToken => (b.(sema := Semaphore.Step(b.sema, Post).0, p := PFree), false)
    case StartTry(op) => (b.(sema := Semaphore.Step(b.sema, CallTryWait).0, c := CWaiting(op)), false)
    case StartWait(op, t) => (b.(sema := Semaphore.Step(b.sema, CallWait(t)).0, c := CWaiting(op)), false)
    case Wait =>
      var (s', r) := Semaphore.Step(b.sema, Waits);
      (b.(sema := s', c := if r.Granted? then CGranted(b.c.op) else if r.Refused? then CFree else b.c), false)
    case WaitGivesUp => (b.(sema := Semaphore.Step(b.sema, GivesUp).0), false)
    case StartPeek =>
      var o := Spsc.Step(b.q, CallConsume(Peek));
      (b.(q := o.next, c := CPeeking), o.event.Fault?)
    case StartRemove =>
      var o := Spsc.Step(b.q, CallConsume(b.c.op));
      (b.(q := o.next, c := CRemoving), o.event.Fault?)
    case Remove =>
      var o := Spsc.Step(b.q, Consume);
      (b.(q := o.next, c := if o.next.cons.CIdle? then CFree else b.c),
       o.event.Fault? || (b.c.CRemoving? && o.event.FoundEmpty?))
  }

  // ------------------------------------------------------------ the invariant

  /** Ghost accounts: elements put and taken, permits signalled and granted. */
  datatype Account = Account(put: nat, taken: nat, signalled: nat, granted: nat)

  ghost predicate Accounts<T>(b: Blocking<T>, w: Layout<T>, a: Account) {
    && |Elements(w)| == a.put - a.taken
    && a.put == a.signalled + (if b.p.PSignalling? then 1 else 0)
    && a.granted == a.taken + (if b.c.CGranted? || b.c.CRemoving? then 1 else 0)
    && Books(b.sema, a.signalled, a.granted)
  }

  ghost predicate Phases<T>(b: Blocking<T>) {
    && (b.p.PEnqueuing? <==> !b.q.prod.PIdle?)
    && (b.p.PPosting? <==> b.sema.sig.SPost?)
    && (b.c.CWaiting? <==> !b.sema.wait.WIdle?)
    && (b.c.CRemoving? || b.c.CPeeking? <==> !b.q.cons.CIdle?)
    && (b.c.CRemoving? ==> !b.q.cons.op.Peek?)
    && (b.c.CPeeking? ==> b.q.cons.op.Peek?)
    && (b.c.CWaiting? || b.c.CGranted? ==> !b.c.op.Peek?)
  }

  ghost predicate Fine<T>(b: Blocking<T>, w: Layout<T>, a: Account) {
    && Inv(b.q, w)
    && Phases(b)
    && Accounts(b, w, a)
    && (b.c.CRemoving? && b.q.cons.CLoadTailBlock? ==> w.t > 0)
  }

  function NextAccount<T>(b: Blocking<T>, m: Move<T>, a: Account): Account
    requires CanMove(b, m)
  {
    match m
    case Put(ok) => if Spsc.Step(b.q, Produce(ok)).event.Enqueued? then a.(put := a.put + 1) else a
    case SignalOne => a.(signalled := a.signalled + 1)
    case Wait => if Semaphore.Step(b.sema, Waits).1.Granted? then a.(granted := a.granted + 1) else a
    case Remove => if Removing(Spsc.Step(b.q, Consume).event) then a.(taken := a.taken + 1) else a
    case _ => a
  }

  predicate Removing<T>(e: Label<T>) { e.Dequeued? || e.Popped? }

  function QueueAction<T>(b: Blocking<T>, m: Move<T>): Option<Action<T>>
    requires CanMove(b, m)
  {
    match m
    case StartPut(x, alloc) => Some(CallEnqueue(x, alloc))
    case Put(ok) => Some(Produce(ok))
    case StartPeek => Some(CallConsume(Peek))
    case StartRemove => Some(CallConsume(b.c.op))
    case Remove => Some(Consume)
    case _ => None
  }

  function MoveLayout<T>(b: Blocking<T>, w: Layout<T>, m: Move<T>): Layout<T>
    requires CanMove(b, m) && RingOk(b.q, w)
  {
    match QueueAction(b, m) case Some(a) => NextLayout(b.q, w, a) case None => w
  }

  /** A step on the semaphore alone. */
  lemma SemaMove<T>(b: Blocking<T>, w: Layout<T>, a: Account, m: Move<T>)
    requires Fine(b, w, a) && CanMove(b, m) && QueueAction(b, m).None?
    ensures Fine(MoveStep(b, m).0, w, NextAccount(b, m, a)) && !MoveStep(b, m).1
  {
    match m
    case SignalOne => StepKeepsBooks(b.sema, Signal(1), a.signalled, a.granted);
    case PostToken => StepKeepsBooks(b.sema, Post, a.signalled, a.granted);
    case StartTry(_) => StepKeepsBooks(b.sema, CallTryWait, a.signalled, a.granted);
    case StartWait(_, t) => StepKeepsBooks(b.sema, CallWait(t), a.signalled, a.granted);
    case Wait => StepKeepsBooks(b.sema, Waits, a.signalled, a.granted);
    case WaitGivesUp => StepKeepsBooks(b.sema, GivesUp, a.signalled, a.granted);
  }

  /** Steps of the producer on the queue. */
  lemma ProduceMove<T>(b: Blocking<T>, w: Layout<T>, a: Account, ok: bool)
    requires Fine(b, w, a) && CanMove(b, Put(ok))
    ensures Fine(MoveStep(b, Put(ok)).0, MoveLayout(b, w, Put(ok)), NextAccount(b, Put(ok), a))
    ensures !MoveStep(b, Put(ok)).1
  {
    var act: Action<T> := Produce(ok);
    StepGood(b.q, w, act);
    SpscTheorems.ProducerCall(b.q, w, act);
    TailNeverFallsBack(b.q, w, act);
  }

  lemma StartPutMove<T>(b: Blocking<T>, w: Layout<T>, a: Account, x: T, alloc: bool)
    requires Fine(b, w, a) && CanMove(b, StartPut(x, alloc))
    ensures Fine(MoveStep(b, StartPut(x, alloc)).0, MoveLayout(b, w, StartPut(x, alloc)), a)
    ensures !MoveStep(b, StartPut(x, alloc)).1
  {
    var act: Action<T> := CallEnqueue(x, alloc);
    StepGood(b.q, w, act);
    TailNeverFallsBack(b.q, w, act);
  }

  lemma TailNeverFallsBack<T>(q: Queue<T>, w: Layout<T>, act: Action<T>)
    requires Inv(q, w) && Spsc.Enabled(q, act) && !act.Consume?
    ensures w.t <= NextLayout(q, w, act).t
    ensures act.CallConsume? || Spsc.Step(q, act).next.cons == q.cons
  {
  }

  /** With a permit in hand the queue holds an element. */
  lemma PermitMeansElement<T>(b: Blocking<T>, w: Layout<T>, a: Account)
    requires Fine(b, w, a) && (b.c.CGranted? || b.c.CRemoving?)
    ensures |Elements(w)| >= 1
  {
  }

  /** Steps of the consumer on the queue. */
  lemma StartMove<T>(b: Blocking<T>, w: Layout<T>, a: Account, m: Move<T>)
    requires Fine(b, w, a) && CanMove(b, m) && (m.StartPeek? || m.StartRemove?)
    ensures Fine(MoveStep(b, m).0, MoveLayout(b, w, m), a) && !MoveStep(b, m).1
  {
    var act := QueueAction(b, m).value;
    StepGood(b.q, w, act);
    StartConsumeKeeps(b.q, w, act.op);
  }

  lemma ConsumeMove<T>(b: Blocking<T>, w: Layout<T>, a: Account)
    requires Fine(b, w, a) && CanMove(b, Remove)
    ensures Fine(MoveStep(b, Remove).0, MoveLayout(b, w, Remove), NextAccount(b, Remove, a)) && !MoveStep(b, Remove).1
  {
    if b.c.CRemoving? { RemoveMove(b, w, a); } else { PeekMove(b, w, a); }
  }

  lemma RemoveMove<T>(b: Blocking<T>, w: Layout<T>, a: Account)
    requires Fine(b, w, a) && CanMove(b, Remove) && b.c.CRemoving?
    ensures Fine(MoveStep(b, Remove).0, MoveLayout(b, w, Remove), NextAccount(b, Remove, a)) && !MoveStep(b, Remove).1
  {
    StepGood(b.q, w, Consume);
    SpscTheorems.ConsumerCall(b.q, w, Consume);
    PermitMeansElement(b, w, a);
    NotFoundEmpty(b.q, w);
  }

  lemma PeekMove<T>(b: Blocking<T>, w: Layout<T>, a: Account)
    requires Fine(b, w, a) && CanMove(b, Remove) && !b.c.CRemoving?
    ensures Fine(MoveStep(b, Remove).0, MoveLayout(b, w, Remove), NextAccount(b, Remove, a)) && !MoveStep(b, Remove).1
  {
    StepGood(b.q, w, Consume);
    SpscTheorems.ConsumerCall(b.q, w, Consume);
  }

  /** While there are elements, the consumer's step neither answers "empty" nor comes to look
      at the tail block without a block ahead. */
  lemma NotFoundEmpty<T>(q: Queue<T>, w: Layout<T>)
    requires Inv(q, w) && !q.cons.CIdle? && Elements(w) != [] && (q.cons.CLoadTailBlock? ==> w.t > 0)
    ensures var o := Spsc.Step(q, Consume);
      && !o.event.FoundEmpty?
      && (o.next.cons.CLoadTailBlock? ==> NextLayout(q, w, Consume).t > 0)
  {
    ConsumerGood(q, w, Consume);
    Distinct(q, w);
    At(q, w, 0);
    if w.t == 0 && w.content[0] == [] { EmptyBehind(q, w); FlatEmpty(w.content); }
  }

  // ------------------------------------------------------------ runs

  ghost predicate CanRunMoves<T>(b: Blocking<T>, ms: seq<Move<T>>)
    decreases |ms|
  {
    ms == [] || (CanMove(b, ms[0]) && CanRunMoves(MoveStep(b, ms[0]).0, ms[1..]))
  }

  /** No step of the run fails an assertion. */
  ghost predicate NoFailure<T>(b: Blocking<T>, ms: seq<Move<T>>)
    requires CanRunMoves(b, ms)
    decreases |ms|
  {
    ms == [] || (!MoveStep(b, ms[0]).1 && NoFailure(MoveStep(b, ms[0]).0, ms[1..]))
  }

  ghost function ExecMoves<T>(b: Blocking<T>, ms: seq<Move<T>>): Blocking<T>
    requires CanRunMoves(b, ms)
    decreases |ms|
  {
    if ms == [] then b else ExecMoves(MoveStep(b, ms[0]).0, ms[1..])
  }

  // ------------------------------------------------------------ the parts of a run

  /** What a run of the blocking queue does to the queue inside. */
  ghost function QueuePart<T>(b: Blocking<T>, ms: seq<Move<T>>): seq<Action<T>>
    requires CanRunMoves(b, ms)
    decreases |ms|
  {
    if ms == [] then []
    else (match QueueAction(b, ms[0]) case Some(a) => [a] case None => []) + QueuePart(MoveStep(b, ms[0]).0, ms[1..])
  }

  function SemaActs<T>(m: Move<T>): seq<Act> {
    match m
    case SignalOne => [Signal(1)]
    case PostToken => [Post]
    case StartTry(_) => [CallTryWait]
    case StartWait(_, t) => [CallWait(t)]
    case Wait => [Waits]
    case WaitGivesUp => [GivesUp]
    case _ => []
  }

  /** What it does to the semaphore. */
  function SemaPart<T>(ms: seq<Move<T>>): seq<Act> {
    if ms == [] then [] else SemaActs(ms[0]) + SemaPart(ms[1..])
  }

  lemma {:induction false} QueueRuns<T>(b: Blocking<T>, ms: seq<Move<T>>)
    requires CanRunMoves(b, ms)
    ensures SpscRefinement.CanRun(b.q, QueuePart(b, ms))
    ensures SpscRefinement.Exec(b.q, QueuePart(b, ms)) == ExecMoves(b, ms).q
    decreases |ms|
  {
    if ms != [] {
      QueueRuns(MoveStep(b, ms[0]).0, ms[1..]);
      var rest := QueuePart(MoveStep(b, ms[0]).0, ms[1..]);
      match QueueAction(b, ms[0])
      case Some(a) => assert ([a] + rest)[1..] == rest;
      case None => assert [] + rest == rest;
    }
  }

  lemma {:induction false} SemaRuns<T>(b: Blocking<T>, ms: seq<Move<T>>)
    requires CanRunMoves(b, ms)
    ensures Semaphore.CanRun(b.sema, SemaPart(ms))
    ensures Semaphore.Exec(b.sema, SemaPart(ms)) == ExecMoves(b, ms).sema
    decreases |ms|
  {
    if ms != [] {
      SemaRuns(MoveStep(b, ms[0]).0, ms[1..]);
      var rest := SemaPart(ms[1..]);
      if SemaActs(ms[0]) == [] { assert SemaPart(ms) == rest; }
      else {
        var a := SemaActs(ms[0])[0];
        assert SemaPart(ms) == [a] + rest && ([a] + rest)[1..] == rest;
      }
    }
  }

  lemma MoveFine<T>(b: Blocking<T>, w: Layout<T>, a: Account, m: Move<T>)
    requires Fine(b, w, a) && CanMove(b, m)
    ensures Fine(MoveStep(b, m).0, MoveLayout(b, w, m), NextAccount(b, m, a)) && !MoveStep(b, m).1
  {
    if QueueAction(b, m).None? { SemaMove(b, w, a, m); }
    else if m.Put? { ProduceMove(b, w, a, m.allocOk); }
    else if m.StartPut? { StartPutMove(b, w, a, m.x, m.alloc); }
    else if m.Remove? { ConsumeMove(b, w, a); }
    else { StartMove(b, w, a, m); }
  }

  /** What a move answers to its caller. */
  datatype Reply<T> = NoReply | Accepted | NotAccepted | NoPermit | Took(x: T) | Dropped | Saw(x: T) | NothingThere

  function ReplyOf<T>(b: Blocking<T>, m: Move<T>): Reply<T>
    requires CanMove(b, m)
  {
    match m
    case Put(ok) =>
      (match Spsc.Step(b.q, Produce(ok)).event
       case Enqueued(_) => Accepted
       case NotEnqueued => NotAccepted
       case _ => NoReply)
    case Wait => if Semaphore.Step(b.sema, Waits).1.Refused? then NoPermit else NoReply
    case Remove =>
      (match Spsc.Step(b.q, Consume).event
       case Dequeued(x) => Took(x)
       case Popped => Dropped
       case Peeked(x) => Saw(x)
       case FoundEmpty => NothingThere
       case _ => NoReply)
    case _ => NoReply
  }

  ghost function Replies<T>(b: Blocking<T>, ms: seq<Move<T>>): (r: seq<Reply<T>>)
    requires CanRunMoves(b, ms)
    ensures |r| == |ms|
    decreases |ms|
  {
    if ms == [] then [] else [ReplyOf(b, ms[0])] + Replies(MoveStep(b, ms[0]).0, ms[1..])
  }

  function SignalsIn<T>(ms: seq<Move<T>>): nat {
    if ms == [] then 0 else (if ms[0].SignalOne? then 1 else 0) + SignalsIn(ms[1..])
  }

  function AcceptedIn<T>(rs: seq<Reply<T>>): nat {
    if rs == [] then 0 else (if rs[0].Accepted? then 1 else 0) + AcceptedIn(rs[1..])
  }

  function RemovedIn<T>(rs: seq<Reply<T>>): nat {
    if rs == [] then 0 else (if rs[0].Took? || rs[0].Dropped? then 1 else 0) + RemovedIn(rs[1..])
  }

  ghost function AccountAfter<T>(b: Blocking<T>, ms: seq<Move<T>>, a: Account): Account
    requires CanRunMoves(b, ms)
    decreases |ms|
  {
    if ms == [] then a else AccountAfter(MoveStep(b, ms[0]).0, ms[1..], NextAccount(b, ms[0], a))
  }

  lemma {:induction false} RunIsFine<T>(b: Blocking<T>, w: Layout<T>, a: Account, ms: seq<Move<T>>)
    returns (w': Layout<T>)
    requires Fine(b, w, a) && CanRunMoves(b, ms)
    ensures NoFailure(b, ms) && Fine(ExecMoves(b, ms), w', AccountAfter(b, ms, a))
    decreases |ms|
  {
    w' := w;
    if ms != [] {
      MoveFine(b, w, a, ms[0]);
      w' := RunIsFine(MoveStep(b, ms[0]).0, MoveLayout(b, w, ms[0]), NextAccount(b, ms[0], a), ms[1..]);
    }
  }

  /** The accounts count what callers see. */
  lemma {:induction false} AccountsCount<T>(b: Blocking<T>, ms: seq<Move<T>>, a: Account)
    requires CanRunMoves(b, ms)
    ensures var z, rs := AccountAfter(b, ms, a), Replies(b, ms);
      && z.put == a.put + AcceptedIn(rs) && z.taken == a.taken + RemovedIn(rs)
      && z.signalled == a.signalled + SignalsIn(ms)
    decreases |ms|
  {
    if ms != [] {
      AccountsCount(MoveStep(b, ms[0]).0, ms[1..], NextAccount(b, ms[0], a));
      assert Replies(b, ms)[1..] == Replies(MoveStep(b, ms[0]).0, ms[1..]);
    }
  }

  ghost function Fresh<T>(size: nat, maxBlockSize: nat): Blocking<T>
    requires size > 0 && maxBlockSize >= 2
  {
    Blocking(SpscTheorems.Initial(size, maxBlockSize), START, PFree, CFree)
  }

  lemma FreshIsFine<T>(size: nat, maxBlockSize: nat)
    requires size > 0 && maxBlockSize >= 2
    ensures Fine(Fresh<T>(size, maxBlockSize),
                 SpscTheorems.InitialLayout(SpscTheorems.BlockCount(size, maxBlockSize)), NONE)
  {
    SpscTheorems.InitialInv<T>(size, maxBlockSize);
  }

  /** In every run of the blocking queue no assertion fails, so a granted wait is followed by a successful
      removal; and what happens to the queue inside is one of its runs, with all that is proved of them. */
  lemma RemovalSucceeds<T>(size: nat, maxBlockSize: nat, ms: seq<Move<T>>)
    requires size > 0 && maxBlockSize >= 2 && CanRunMoves(Fresh(size, maxBlockSize), ms)
    ensures NoFailure(Fresh(size, maxBlockSize), ms)
    ensures var part := QueuePart(Fresh(size, maxBlockSize), ms);
      && SpscRefinement.CanRun(SpscTheorems.Initial(size, maxBlockSize), part)
      && FifoRun([], Events(SpscTheorems.Initial(size, maxBlockSize), part))
    ensures Semaphore.CanRun(START, SemaPart(ms))
  {
    var b := Fresh<T>(size, maxBlockSize);
    FreshIsFine<T>(size, maxBlockSize);
    var _ := RunIsFine(b, SpscTheorems.InitialLayout(SpscTheorems.BlockCount(size, maxBlockSize)),
                       NONE, ms);
    QueueRuns(b, ms);
    SemaRuns(b, ms);
    SpscTheorems.RefinesFifo(size, maxBlockSize, QueuePart(b, ms));
  }

  lemma {:induction false} ReplyAt<T>(b: Blocking<T>, ms: seq<Move<T>>, j: nat)
    requires CanRunMoves(b, ms) && j < |ms|
    ensures CanRunMoves(b, ms[..j]) && CanMove(ExecMoves(b, ms[..j]), ms[j])
    ensures Replies(b, ms)[j] == ReplyOf(ExecMoves(b, ms[..j]), ms[j])
    decreases |ms|
  {
    if j > 0 {
      ReplyAt(MoveStep(b, ms[0]).0, ms[1..], j - 1);
      assert ms[..j][1..] == ms[1..][..j - 1];
    }
  }

  /** A removal that is refused, with or without waiting, is refused at an instant at which every element
      whose enqueue has signalled has been removed, so that at most the one enqueued last is there. */
  lemma RefusedOnlyWithout<T>(size: nat, maxBlockSize: nat, ms: seq<Move<T>>, j: nat)
    requires size > 0 && maxBlockSize >= 2 && CanRunMoves(Fresh(size, maxBlockSize), ms) && j < |ms|
    requires Replies(Fresh(size, maxBlockSize), ms)[j].NoPermit?
    ensures CanRunMoves(Fresh(size, maxBlockSize), ms[..j])
    ensures var rs := Replies(Fresh(size, maxBlockSize), ms[..j]);
      SignalsIn(ms[..j]) == RemovedIn(rs) && AcceptedIn(rs) <= RemovedIn(rs) + 1
  {
    var b := Fresh<T>(size, maxBlockSize);
    ReplyAt(b, ms, j);
    RefusedAccount<T>(size, maxBlockSize, ms[..j], ms[j]);
    AccountsCount(b, ms[..j], NONE);
  }

  const NONE := Account(0, 0, 0, 0)

  lemma RefusedAccount<T>(size: nat, maxBlockSize: nat, ms: seq<Move<T>>, m: Move<T>)
    requires size > 0 && maxBlockSize >= 2 && CanRunMoves(Fresh(size, maxBlockSize), ms)
    requires var b := ExecMoves(Fresh(size, maxBlockSize), ms); CanMove(b, m) && ReplyOf(b, m).NoPermit?
    ensures var a := AccountAfter(Fresh(size, maxBlockSize), ms, NONE);
      a.signalled == a.taken && a.put <= a.taken + 1
  {
    FreshIsFine<T>(size, maxBlockSize);
    RefusedRun(Fresh(size, maxBlockSize), SpscTheorems.InitialLayout(SpscTheorems.BlockCount(size, maxBlockSize)),
               NONE, ms, m);
  }

  lemma {:induction false} RefusedRun<T>(b: Blocking<T>, w: Layout<T>, a: Account, ms: seq<Move<T>>, m: Move<T>)
    requires Fine(b, w, a) && CanRunMoves(b, ms)
    requires CanMove(ExecMoves(b, ms), m) && ReplyOf(ExecMoves(b, ms), m).NoPermit?
    ensures var z := AccountAfter(b, ms, a); z.signalled == z.taken && z.put <= z.taken + 1
    decreases |ms|
  {
    if ms == [] {
      RefusedState(b, w, a, m);
    } else {
      MoveFine(b, w, a, ms[0]);
      RefusedRun(MoveStep(b, ms[0]).0, MoveLayout(b, w, ms[0]), NextAccount(b, ms[0], a), ms[1..], m);
    }
  }

  lemma RefusedState<T>(b: Blocking<T>, w: Layout<T>, a: Account, m: Move<T>)
    requires Fine(b, w, a) && CanMove(b, m) && ReplyOf(b, m).NoPermit?
    ensures a.signalled == a.taken && a.put <= a.taken + 1
  {
  }
}
