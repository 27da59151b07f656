/** What holds over all runs of the queue, from its construction on. */
module SpscTheorems {
  import opened Bits
  import opened Spsc
  import opened SpscInvariant
  import opened SpscRefinement

  // ------------------------------------------------------------ construction

  function BlockCount(size: nat, maxBlockSize: nat): nat
    requires size > 0 && maxBlockSize >= 2
  {
    if CeilToPow2(size + 1) > maxBlockSize * 2 then (size + maxBlockSize * 2 - 3) / (maxBlockSize - 1) else 1
  }

  function FirstBlockSize(size: nat, maxBlockSize: nat): nat
    requires size > 0 && maxBlockSize >= 2
  {
    if CeilToPow2(size + 1) > maxBlockSize * 2 then maxBlockSize else CeilToPow2(size + 1)
  }

  /** A ring of empty blocks, each linked to the next. */
  function Ring<T>(count: nat, size: nat): seq<Block<T>>
    requires count > 0
  {
    seq(count, i requires 0 <= i < count => NewBlock(size, Next(i, count)))
  }

  function Initial<T>(size: nat, maxBlockSize: nat): Queue<T>
    requires size > 0 && maxBlockSize >= 2
  {
    CountPositive(size, maxBlockSize);
    Queue(Ring(BlockCount(size, maxBlockSize), FirstBlockSize(size, maxBlockSize)), 0, 0,
          FirstBlockSize(size, maxBlockSize), maxBlockSize, PIdle, CIdle)
  }

  lemma CountPositive(size: nat, maxBlockSize: nat)
    requires size > 0 && maxBlockSize >= 2
    ensures BlockCount(size, maxBlockSize) > 0
  {
    var m := maxBlockSize - 1;
    DivAtLeast(size + 2 * m - 1, m, 1);
  }

  lemma DivAtLeast(x: int, m: int, k: int)
    requires m > 0 && x >= m * k
    ensures x / m >= k
  {
    var d := x / m;
    assert x == m * d + x % m;
    if d < k { MulMonotone(m, d + 1, k); }
  }

  lemma MulMonotone(m: int, a: int, b: int)
    requires m >= 0 && a <= b
    ensures m * a <= m * b
  {
  }

  /** The constructor: blocks are made one by one, each closing the ring to the first. For a size whose
      power of two does not fit the word it makes one block without slots, and no call can be served. */
  method Create<T>(size: nat, maxBlockSize: nat) returns (s: Queue<T>)
    requires 0 < size < WORD && 2 <= maxBlockSize < WORD / 2
    ensures size < WORD / 2 ==> s == Initial(size, maxBlockSize)
    ensures size >= WORD / 2 ==> |s.blocks| == 1 && Size(s.blocks[0]) == 0 && s.prod.PIdle? && s.cons.CIdle?
    ensures size >= WORD / 2 ==> !ProducerSafe(s) && !ConsumerSafe(s)
  {
    CountPositive(size, maxBlockSize);
    var largest := SlotsFor(size);
    var blocks;
    if largest > maxBlockSize * 2 {
      var initialBlockCount := (size + maxBlockSize * 2 - 3) / (maxBlockSize - 1);
      largest := maxBlockSize;
      blocks := MakeBlocks(initialBlockCount, largest);
    } else {
      blocks := [NewBlock<T>(largest, 0)];
    }
    s := Queue(blocks, 0, 0, largest, maxBlockSize, PIdle, CIdle);
    if size < WORD / 2 { assert s.blocks == Ring(BlockCount(size, maxBlockSize), FirstBlockSize(size, maxBlockSize)); }
  }

  /** With a spare slot. */
  method SlotsFor(size: nat) returns (largest: nat)
    requires 0 < size < WORD
    ensures largest == if size < WORD / 2 then CeilToPow2(size + 1) else 0
  {
    largest := CeilToPow2Word(if size + 1 == WORD then 0 else size + 1);
  }

  method MakeBlocks<T>(count: nat, size: nat) returns (blocks: seq<Block<T>>)
    requires count > 0
    ensures blocks == Ring(count, size)
  {
    blocks := [];
    var i := 0;
    while i != count
      invariant 0 <= i <= count && i == |blocks|
      invariant i > 0 ==> blocks == Ring(i, size)
    {
      if i > 0 {
        blocks := blocks[i - 1 := blocks[i - 1].(next := i)];
      }
      blocks := blocks + [NewBlock(size, 0)];
      i := i + 1;
    }
  }

  ghost function InitialLayout<T>(n: nat): Layout<T>
  {
    Layout(seq(n, i requires 0 <= i < n => i), 0, seq(n, _ => []))
  }

  lemma InitialInv<T>(size: nat, maxBlockSize: nat)
    requires size > 0 && maxBlockSize >= 2
    ensures var n := BlockCount(size, maxBlockSize);
      n > 0 && Inv(Initial<T>(size, maxBlockSize), InitialLayout(n)) && Elements(InitialLayout<T>(n)) == []
  {
    CountPositive(size, maxBlockSize);
    var n := BlockCount(size, maxBlockSize);
    var s := Initial<T>(size, maxBlockSize);
    var w := InitialLayout<T>(n);
    forall i | 0 <= i < n ensures LinkAt(s.blocks, w.ring, i) && BlockAt(s.blocks, w, false, Nothing, i) {
    }
    FlatEmpty(w.content);
  }

  // ------------------------------------------------------------ all runs

  /** Along every run the ring invariant holds and the elements follow the events. */
  lemma {:induction false} RunGood<T>(s: Queue<T>, w: Layout<T>, acts: seq<Action<T>>) returns (w': Layout<T>)
    requires Inv(s, w) && CanRun(s, acts)
    ensures Inv(Exec(s, acts), w')
    ensures FifoRun(Elements(w), Events(s, acts))
    ensures Elements(w') == FifoEnd(Elements(w), Events(s, acts))
    decreases |acts|
  {
    w' := w;
    if acts != [] {
      StepGood(s, w, acts[0]);
      w' := RunGood(Step(s, acts[0]).next, NextLayout(s, w, acts[0]), acts[1..]);
    }
  }

  /** Every reachable state has the ring invariant. */
  lemma ReachableRing<T>(size: nat, maxBlockSize: nat, acts: seq<Action<T>>) returns (w: Layout<T>)
    requires size > 0 && maxBlockSize >= 2 && CanRun(Initial(size, maxBlockSize), acts)
    ensures Inv(Exec(Initial(size, maxBlockSize), acts), w)
  {
    InitialInv<T>(size, maxBlockSize);
    w := RunGood(Initial(size, maxBlockSize), InitialLayout(BlockCount(size, maxBlockSize)), acts);
  }

  /** The ring by the blocks' own fields: one cycle from the front block over the tail block, full
      blocks strictly between them, empty ones behind the tail save the one being handed over, and
      both stale shadows in the live cyclic range of their block. */
  ghost predicate Shape<T>(s: Queue<T>, ring: seq<nat>, t: nat) {
    && t < |ring| && ring[0] == s.frontBlock < |s.blocks| && ring[t] == s.tailBlock < |s.blocks|
    && (forall i :: 0 <= i < |ring| ==> LinkAt(s.blocks, ring, i))
    && (forall i, j :: 0 <= i < |ring| && 0 <= j < |ring| && i != j ==> Apart(ring, i, j))
    && (forall i {:trigger ring[i]} :: 0 < i < t ==> ring[i] < |s.blocks| && IsFull(s.blocks[ring[i]]))
    && (forall i {:trigger ring[i]} :: t < i < |ring| && !(s.prod.PStoreTailBlock? && i == t + 1) ==>
          ring[i] < |s.blocks| && s.blocks[ring[i]].front == s.blocks[ring[i]].tail)
    && LocalTailOk(s.blocks[s.frontBlock]) && LocalFrontOk(s.blocks[s.tailBlock])
  }

  predicate IsFull<T>(b: Block<T>) { Next(b.tail, Size(b)) == b.front }

  lemma InvShape<T>(s: Queue<T>, w: Layout<T>)
    requires Inv(s, w)
    ensures Shape(s, w.ring, w.t)
  {
    forall i | 0 < i < w.t ensures w.ring[i] < |s.blocks| && IsFull(s.blocks[w.ring[i]]) { At(s, w, i); }
    forall i | w.t < i < |w.ring| && !(s.prod.PStoreTailBlock? && i == w.t + 1)
      ensures w.ring[i] < |s.blocks| && s.blocks[w.ring[i]].front == s.blocks[w.ring[i]].tail
    {
      At(s, w, i);
    }
  }

  /** In every reachable state the ring has its shape, and no step of either thread can fail an
      assertion or touch a slot it must not. */
  lemma RingShape<T>(size: nat, maxBlockSize: nat, acts: seq<Action<T>>, a: Action<T>) returns (ring: seq<nat>, t: nat)
    requires size > 0 && maxBlockSize >= 2 && CanRun(Initial(size, maxBlockSize), acts)
    ensures Shape(Exec(Initial(size, maxBlockSize), acts), ring, t)
    ensures Enabled(Exec(Initial(size, maxBlockSize), acts), a) ==>
      !Step(Exec(Initial(size, maxBlockSize), acts), a).event.Fault?
  {
    var w := ReachableRing(size, maxBlockSize, acts);
    var s := Exec(Initial(size, maxBlockSize), acts);
    InvShape(s, w);
    ring, t := w.ring, w.t;
    if Enabled(s, a) { StepGood(s, w, a); }
  }

  // ------------------------------------------------------------ what a FIFO run means

  function Put<T>(es: seq<Label<T>>): seq<T> {
    if es == [] then [] else (if es[0].Enqueued? then [es[0].x] else []) + Put(es[1..])
  }

  /** The elements removed, in order; a `Popped` event removes the head without naming it. */
  function Removed<T>(q: seq<T>, es: seq<Label<T>>): seq<T>
    decreases |es|
  {
    if es == [] then []
    else (if es[0].Dequeued? then [es[0].x] else if es[0].Popped? && q != [] then [q[0]] else [])
         + Removed(After(q, es[0]), es[1..])
  }

  ghost predicate Removes<T>(e: Label<T>) { e.Dequeued? || e.Popped? }

  /** Nothing is lost, duplicated or reordered. */
  lemma {:induction false} FifoConserves<T>(q: seq<T>, es: seq<Label<T>>)
    requires FifoRun(q, es)
    ensures q + Put(es) == Removed(q, es) + FifoEnd(q, es)
    decreases |es|
  {
    if es != [] {
      var e, q', rest := es[0], After(q, es[0]), es[1..];
      FifoConserves(q', rest);
      if Removes(e) {
        HeadMoves(q, Put(rest), Removed(q', rest), FifoEnd(q', rest));
        assert Put(es) == Put(rest);
      } else {
        TailMoves(q, if e.Enqueued? then [e.x] else [], Put(rest));
        assert Removed(q, es) == Removed(q', rest);
      }
    }
  }

  lemma HeadMoves<T>(q: seq<T>, put: seq<T>, removed: seq<T>, end: seq<T>)
    requires q != [] && q[1..] + put == removed + end
    ensures q + put == [q[0]] + removed + end
  {
    assert q == [q[0]] + q[1..];
    assert q + put == [q[0]] + (q[1..] + put);
    assert [q[0]] + removed + end == [q[0]] + (removed + end);
  }

  lemma TailMoves<T>(q: seq<T>, x: seq<T>, put: seq<T>)
    ensures q + (x + put) == q + x + put
    ensures x == [] ==> q + x == q
  {
  }

  /** What `peek` showed is what the next removal takes. */
  lemma {:induction false} PeekIsNext<T>(q: seq<T>, x: T, es: seq<Label<T>>)
    requires q != [] && q[0] == x
    requires FifoRun(q, es) && es != [] && es[|es| - 1].Dequeued?
    requires forall i :: 0 <= i < |es| - 1 ==> !Removes(es[i])
    ensures es[|es| - 1].x == x
    decreases |es|
  {
    if |es| > 1 {
      var es' := es[1..];
      forall i | 0 <= i < |es'| - 1 ensures !Removes(es'[i]) { assert !Removes(es[i + 1]); }
      assert !Removes(es[0]);
      PeekIsNext(After(q, es[0]), x, es');
    }
  }

  // ------------------------------------------------------------ one event per call

  /** A producer call ends with exactly one event, which carries the argument of the call. */
  lemma ProducerCall<T>(s: Queue<T>, w: Layout<T>, a: Action<T>)
    requires Inv(s, w) && Enabled(s, a) && a.Produce?
    ensures var o := Step(s, a);
      && (o.next.prod.PIdle? <==> o.event.Enqueued? || o.event.NotEnqueued?)
      && (o.event.Enqueued? ==> o.event.x == s.prod.x)
      && (!o.next.prod.PIdle? ==> o.next.prod.x == s.prod.x)
  {
    StepGood(s, w, a);
  }

  /** A consumer call ends with exactly one event, of the kind of the call. */
  lemma ConsumerCall<T>(s: Queue<T>, w: Layout<T>, a: Action<T>)
    requires Inv(s, w) && Enabled(s, a) && a.Consume?
    ensures var o := Step(s, a);
      && (o.next.cons.CIdle? <==> !o.event.Tau?)
      && (o.event.FoundEmpty? || o.event.Tau?
          || (match s.cons.op
              case Dequeue => o.event.Dequeued?
              case Pop => o.event.Popped?
              case Peek => o.event.Peeked?))
      && (!o.next.cons.CIdle? ==> o.next.cons.op == s.cons.op)
  {
    StepGood(s, w, a);
  }

  // ------------------------------------------------------------ "empty" was true

  /** The consumer is inside one call throughout, the last action included. */
  ghost predicate InConsumerCall<T>(s: Queue<T>, acts: seq<Action<T>>)
    requires CanRun(s, acts)
    decreases |acts|
  {
    acts == [] || (!s.cons.CIdle? && InConsumerCall(Step(s, acts[0]).next, acts[1..]))
  }

  /** The consumer knows that there is a block ahead. */
  ghost predicate KnowsAhead<T>(s: Queue<T>, w: Layout<T>) {
    match s.cons
    case CIdle => false
    case CLoadTail(_, _, _) => false
    case CLoadTailBlock(_, _) => w.t > 0
    case _ => true
  }

  /** Once there is a block ahead, the call cannot answer "empty": the producer never brings
      the tail back to the front block. */
  lemma {:induction false} AheadIsNotEmpty<T>(s: Queue<T>, w: Layout<T>, acts: seq<Action<T>>)
    requires Inv(s, w) && CanRun(s, acts) && InConsumerCall(s, acts) && KnowsAhead(s, w)
    ensures FoundEmpty !in Events(s, acts)
    decreases |acts|
  {
    if acts != [] {
      var a := acts[0];
      var s', w' := Step(s, a).next, NextLayout(s, w, a);
      StepGood(s, w, a);
      AheadStep(s, w, a);
      if KnowsAhead(s', w') {
        AheadIsNotEmpty(s', w', acts[1..]);
      } else {
        assert acts[1..] == [];
      }
    }
  }

  lemma AheadStep<T>(s: Queue<T>, w: Layout<T>, a: Action<T>)
    requires Inv(s, w) && Enabled(s, a) && KnowsAhead(s, w)
    ensures var o := Step(s, a);
      !o.event.FoundEmpty? && (KnowsAhead(o.next, NextLayout(s, w, a)) || o.next.cons.CIdle?)
  {
    Distinct(s, w);
    if a.Consume? { ConsumerGood(s, w, a); }
    else if a.Produce? { ProducerGood(s, w, a); }
    else if a.CallEnqueue? { StartEnqueueKeeps(s, w, a.x, a.alloc); }
  }

  /** When a dequeue, pop or peek answers "empty", the queue was empty at an instant of that call. */
  lemma EmptyAnswer<T>(s: Queue<T>, w: Layout<T>, op: Op, acts: seq<Action<T>>) returns (k: nat)
    requires Inv(s, w) && Enabled(s, CallConsume(op))
    requires var s' := Step(s, CallConsume(op)).next;
      CanRun(s', acts) && InConsumerCall(s', acts) && FoundEmpty in Events(s', acts)
    ensures var s' := Step(s, CallConsume(op)).next;
      k < |acts| && CanRun(s', acts[..k]) && FifoEnd(Elements(w), Events(s', acts[..k])) == []
  {
    StartConsumeKeeps(s, w, op);
    var s' := Step(s, CallConsume(op)).next;
    if s'.cons.CLoadTail? {
      k := EmptyWasTrue(s', w, acts);
    } else {
      AheadIsNotEmpty(s', w, acts);
    }
  }

  lemma {:induction false} EmptyWasTrue<T>(s: Queue<T>, w: Layout<T>, acts: seq<Action<T>>) returns (k: nat)
    requires Inv(s, w) && CanRun(s, acts) && s.cons.CLoadTail? && InConsumerCall(s, acts)
    requires FoundEmpty in Events(s, acts)
    ensures k < |acts| && CanRun(s, acts[..k]) && FifoEnd(Elements(w), Events(s, acts[..k])) == []
    decreases |acts|
  {
    var a := acts[0];
    var s', w' := Step(s, a).next, NextLayout(s, w, a);
    StepGood(s, w, a);
    if Elements(w) == [] {
      k := 0;
      assert acts[..0] == [];
    } else if s'.cons.CLoadTail? {
      k := EmptyWasTrue(s', w', acts[1..]);
      PrefixRun(s, acts, k + 1);
      k := k + 1;
    } else {
      NotEmptyKnowsAhead(s, w, a);
      AheadIsNotEmpty(s', w', acts[1..]);
    }
  }

  lemma NotEmptyKnowsAhead<T>(s: Queue<T>, w: Layout<T>, a: Action<T>)
    requires Inv(s, w) && Enabled(s, a) && s.cons.CLoadTail? && Elements(w) != []
    ensures var o := Step(s, a);
      !o.event.FoundEmpty? && (o.next.cons.CLoadTail? || KnowsAhead(o.next, NextLayout(s, w, a)))
  {
    At(s, w, 0);
    if a.Consume? {
      ConsumerGood(s, w, a);
      if w.t == 0 && w.content[0] == [] { EmptyBehind(s, w); FlatEmpty(w.content); }
    }
    else if a.Produce? { ProducerGood(s, w, a); }
    else if a.CallEnqueue? { StartEnqueueKeeps(s, w, a.x, a.alloc); }
  }

  lemma PrefixRun<T>(s: Queue<T>, acts: seq<Action<T>>, k: nat)
    requires CanRun(s, acts) && 0 < k <= |acts|
    requires CanRun(Step(s, acts[0]).next, acts[1..][..k - 1])
    ensures CanRun(s, acts[..k])
    ensures Events(s, acts[..k]) == [Step(s, acts[0]).event] + Events(Step(s, acts[0]).next, acts[1..][..k - 1])
  {
    assert acts[..k][1..] == acts[1..][..k - 1];
  }

  // ------------------------------------------------------------ from the constructor on

  lemma {:induction false} RunSplit<T>(s: Queue<T>, a: seq<Action<T>>, b: seq<Action<T>>)
    requires CanRun(s, a + b)
    ensures CanRun(s, a) && CanRun(Exec(s, a), b) && Exec(s, a + b) == Exec(Exec(s, a), b)
    ensures Events(s, a + b) == Events(s, a) + Events(Exec(s, a), b)
    decreases |a|
  {
    if a == [] {
      assert a + b == b;
    } else {
      assert (a + b)[1..] == a[1..] + b;
      RunSplit(Step(s, a[0]).next, a[1..], b);
    }
  }

  lemma {:induction false} EndOfBoth<T>(q: seq<T>, a: seq<Label<T>>, b: seq<Label<T>>)
    ensures FifoEnd(q, a + b) == FifoEnd(FifoEnd(q, a), b)
    decreases |a|
  {
    if a == [] {
      assert a + b == b;
    } else {
      assert (a + b)[1..] == a[1..] + b;
      EndOfBoth(After(q, a[0]), a[1..], b);
    }
  }

  lemma {:induction false} EventsCount<T>(s: Queue<T>, acts: seq<Action<T>>)
    requires CanRun(s, acts)
    ensures |Events(s, acts)| == |acts|
    decreases |acts|
  {
    if acts != [] { EventsCount(Step(s, acts[0]).next, acts[1..]); }
  }

  lemma RunCons<T>(s: Queue<T>, a: Action<T>, acts: seq<Action<T>>)
    requires CanRun(s, [a] + acts)
    ensures Enabled(s, a) && CanRun(Step(s, a).next, acts) && Exec(s, [a] + acts) == Exec(Step(s, a).next, acts)
    ensures Events(s, [a] + acts) == [Step(s, a).event] + Events(Step(s, a).next, acts)
  {
    assert ([a] + acts)[1..] == acts;
  }

  /** After the actions `before` a consumer call begins, and all of `rest` happens inside it. */
  ghost predicate CallSince<T>(s: Queue<T>, before: seq<Action<T>>, op: Op, rest: seq<Action<T>>) {
    && CanRun(s, before) && Exec(s, before).cons.CIdle?
    && var s' := Step(Exec(s, before), CallConsume(op)).next;
       CanRun(s', rest) && InConsumerCall(s', rest)
  }

  lemma {:induction false} CallGoesOn<T>(s: Queue<T>, acts: seq<Action<T>>, a: Action<T>)
    requires CanRun(s, acts + [a]) && CanRun(s, acts) && InConsumerCall(s, acts) && !Exec(s, acts).cons.CIdle?
    ensures InConsumerCall(s, acts + [a])
    decreases |acts|
  {
    if acts == [] {
      assert (acts + [a])[1..] == [];
    } else {
      assert (acts + [a])[1..] == acts[1..] + [a];
      CallGoesOn(Step(s, acts[0]).next, acts[1..], a);
    }
  }

  /** The parts of a run with a call in it. */
  lemma CallSplit<T>(s: Queue<T>, before: seq<Action<T>>, op: Op, rest: seq<Action<T>>)
    requires CanRun(s, before + ([CallConsume(op)] + rest))
    ensures CanRun(s, before) && Exec(s, before).cons.CIdle?
    ensures var s' := Step(Exec(s, before), CallConsume(op)).next;
      CanRun(s', rest) && Exec(s, before + ([CallConsume(op)] + rest)) == Exec(s', rest)
  {
    RunSplit(s, before, [CallConsume(op)] + rest);
    RunCons(Exec(s, before), CallConsume(op), rest);
  }

  /** A consumer that is not idle is inside a call that has begun. */
  lemma {:induction false} CallHasBegun<T>(s: Queue<T>, acts: seq<Action<T>>)
    returns (before: seq<Action<T>>, op: Op, rest: seq<Action<T>>)
    requires CanRun(s, acts) && s.cons.CIdle? && !Exec(s, acts).cons.CIdle?
    ensures acts == before + ([CallConsume(op)] + rest) && CallSince(s, before, op, rest)
    decreases |acts|
  {
    var init, a := acts[..|acts| - 1], acts[|acts| - 1];
    assert acts == init + [a];
    RunSplit(s, init, [a]);
    if Exec(s, init).cons.CIdle? {
      LastIsCall(Exec(s, init), a);
      before, op, rest := init, a.op, [];
      assert [CallConsume(op)] + rest == [a];
    } else {
      before, op, rest := CallHasBegun(s, init);
      CallSplit(s, before, op, rest);
      assert acts == before + ([CallConsume(op)] + (rest + [a]));
      CallSplit(s, before, op, rest + [a]);
      CallGoesOn(Step(Exec(s, before), CallConsume(op)).next, rest, a);
      rest := rest + [a];
    }
  }

  lemma LastIsCall<T>(s: Queue<T>, a: Action<T>)
    requires CanRun(s, [a]) && s.cons.CIdle? && !Exec(s, [a]).cons.CIdle?
    ensures a.CallConsume?
  {
    assert [a][1..] == [];
  }

  /** At action j a call answers "empty" that has begun with action i, and the queue was empty just
      before action k of that call. */
  ghost predicate EmptyInside<T>(s: Queue<T>, acts: seq<Action<T>>, i: nat, j: nat, k: nat)
    requires CanRun(s, acts)
  {
    && i < k <= j < |acts| && acts[i].CallConsume? && (forall n :: i < n <= j ==> !acts[n].CallConsume?)
    && CanRun(s, acts[..k]) && FifoEnd([], Events(s, acts[..k])) == []
  }

  lemma {:induction false} NoCallInside<T>(s: Queue<T>, acts: seq<Action<T>>, n: nat)
    requires CanRun(s, acts) && InConsumerCall(s, acts) && n < |acts|
    ensures !acts[n].CallConsume?
    decreases |acts|
  {
    if n > 0 { NoCallInside(Step(s, acts[0]).next, acts[1..], n - 1); }
  }

  /** A call that has begun behind `before` and ends with "empty" found the queue empty. */
  lemma EmptyInCall<T>(s: Queue<T>, w: Layout<T>, before: seq<Action<T>>, op: Op, rest: seq<Action<T>>) returns (k: nat)
    requires Inv(s, w) && Elements(w) == [] && CallSince(s, before, op, rest)
    requires CanRun(s, before + ([CallConsume(op)] + rest))
    requires FoundEmpty in Events(Step(Exec(s, before), CallConsume(op)).next, rest)
    ensures var done := before + ([CallConsume(op)] + rest);
      |before| < k < |done| && CanRun(s, done[..k]) && FifoEnd([], Events(s, done[..k])) == []
  {
    var n := EmptyAfter(s, w, before, op, rest);
    k := |before| + 1 + n;
    var done := before + ([CallConsume(op)] + rest);
    assert done[..k] == before + ([CallConsume(op)] + rest[..n]);
    assert done == done[..k] + done[k..];
    RunSplit(s, done[..k], done[k..]);
    EndInCall(s, before, op, rest[..n]);
  }

  lemma EmptyAfter<T>(s: Queue<T>, w: Layout<T>, before: seq<Action<T>>, op: Op, rest: seq<Action<T>>) returns (n: nat)
    requires Inv(s, w) && Elements(w) == [] && CallSince(s, before, op, rest)
    requires FoundEmpty in Events(Step(Exec(s, before), CallConsume(op)).next, rest)
    ensures var o := Step(Exec(s, before), CallConsume(op));
      && n < |rest| && o.event.Tau? && CanRun(o.next, rest[..n])
      && FifoEnd(FifoEnd([], Events(s, before)), Events(o.next, rest[..n])) == []
  {
    var w' := RunGood(s, w, before);
    n := EmptyAnswer(Exec(s, before), w', op, rest);
  }

  /** The elements after a part of a call. */
  lemma EndInCall<T>(s: Queue<T>, before: seq<Action<T>>, op: Op, part: seq<Action<T>>)
    requires CanRun(s, before + ([CallConsume(op)] + part)) && CanRun(s, before)
    requires Exec(s, before).cons.CIdle? && Step(Exec(s, before), CallConsume(op)).event.Tau?
    ensures CanRun(Step(Exec(s, before), CallConsume(op)).next, part)
    ensures FifoEnd([], Events(s, before + ([CallConsume(op)] + part))) ==
            FifoEnd(FifoEnd([], Events(s, before)), Events(Step(Exec(s, before), CallConsume(op)).next, part))
  {
    var m, a: Action<T> := Exec(s, before), CallConsume(op);
    RunSplit(s, before, [a] + part);
    RunCons(m, a, part);
    var q := FifoEnd([], Events(s, before));
    EndOfBoth([], Events(s, before), Events(m, [a] + part));
    EndOfBoth(q, [Step(m, a).event], Events(Step(m, a).next, part));
    assert FifoEnd(q, [Step(m, a).event]) == q;
  }

  lemma EventAt<T>(s: Queue<T>, acts: seq<Action<T>>, j: nat)
    requires CanRun(s, acts) && j < |acts|
    ensures |Events(s, acts)| == |acts| && CanRun(s, acts[..j]) && CanRun(s, acts[..j + 1])
    ensures Enabled(Exec(s, acts[..j]), acts[j])
    ensures Events(s, acts)[j] == Step(Exec(s, acts[..j]), acts[j]).event
  {
    EventsCount(s, acts);
    assert acts == acts[..j + 1] + acts[j + 1..];
    RunSplit(s, acts[..j + 1], acts[j + 1..]);
    assert acts[..j + 1] == acts[..j] + [acts[j]];
    RunSplit(s, acts[..j], [acts[j]]);
    EventsCount(s, acts[..j]);
    assert [acts[j]][1..] == [];
  }

  /** The call that answers "empty" at action j. */
  lemma EmptyCall<T>(s: Queue<T>, acts: seq<Action<T>>, j: nat)
    returns (before: seq<Action<T>>, op: Op, calls: seq<Action<T>>)
    requires s.cons.CIdle? && CanRun(s, acts) && j < |acts|
    requires |Events(s, acts)| == |acts| && Events(s, acts)[j].FoundEmpty?
    ensures acts[..j + 1] == before + ([CallConsume(op)] + calls)
    ensures CanRun(s, acts[..j + 1]) && CallSince(s, before, op, calls)
    ensures FoundEmpty in Events(Step(Exec(s, before), CallConsume(op)).next, calls)
  {
    EventAt(s, acts, j);
    var init, a := acts[..j], acts[j];
    var rest;
    before, op, rest := CallHasBegun(s, init);
    calls := rest + [a];
    assert acts[..j + 1] == init + [a];
    assert init + [a] == before + ([CallConsume(op)] + calls);
    CallEndsEmpty(s, before, op, rest, a);
  }

  lemma EmptyAt<T>(s: Queue<T>, w: Layout<T>, acts: seq<Action<T>>, j: nat) returns (i: nat, k: nat)
    requires Inv(s, w) && Elements(w) == [] && s.cons.CIdle? && CanRun(s, acts) && j < |acts|
    requires |Events(s, acts)| == |acts| && Events(s, acts)[j].FoundEmpty?
    ensures EmptyInside(s, acts, i, j, k)
  {
    var before, op, calls := EmptyCall(s, acts, j);
    k := EmptyInCall(s, w, before, op, calls);
    i := |before|;
    var s' := Step(Exec(s, before), CallConsume(op)).next;
    forall n: nat | n < |calls| ensures !calls[n].CallConsume? { NoCallInside(s', calls, n); }
    Positions(acts, j, before, op, calls, k);
  }

  lemma Positions<T>(acts: seq<Action<T>>, j: nat, before: seq<Action<T>>, op: Op, calls: seq<Action<T>>, k: nat)
    requires j < |acts| && acts[..j + 1] == before + ([CallConsume(op)] + calls) && k <= j + 1
    requires forall n: nat :: n < |calls| ==> !calls[n].CallConsume?
    ensures |before| <= j && acts[|before|].CallConsume?
    ensures forall n :: |before| < n <= j ==> !acts[n].CallConsume?
    ensures (before + ([CallConsume(op)] + calls))[..k] == acts[..k]
  {
    var done := before + ([CallConsume(op)] + calls);
    assert acts[|before|] == done[|before|];
    forall n | |before| < n <= j ensures !acts[n].CallConsume? {
      assert acts[n] == done[n] == calls[n - |before| - 1];
    }
  }

  lemma CallEndsEmpty<T>(s: Queue<T>, before: seq<Action<T>>, op: Op, rest: seq<Action<T>>, a: Action<T>)
    requires CanRun(s, before + ([CallConsume(op)] + rest)) && CallSince(s, before, op, rest)
    requires CanRun(s, before + ([CallConsume(op)] + (rest + [a])))
    requires var m := Exec(s, before + ([CallConsume(op)] + rest));
      !m.cons.CIdle? && Enabled(m, a) && Step(m, a).event.FoundEmpty?
    ensures CallSince(s, before, op, rest + [a])
    ensures FoundEmpty in Events(Step(Exec(s, before), CallConsume(op)).next, rest + [a])
  {
    CallSplit(s, before, op, rest);
    CallSplit(s, before, op, rest + [a]);
    var s' := Step(Exec(s, before), CallConsume(op)).next;
    CallGoesOn(s', rest, a);
    RunSplit(s', rest, [a]);
    assert [a][1..] == [];
    assert Events(Exec(s', rest), [a]) == [Step(Exec(s', rest), a).event];
  }

  /** Every interleaving of one producer and one consumer, from the constructor on, answers as a FIFO
      sequence: no assertion or slot access fails, and whenever a call answers "empty" the queue was
      empty at an instant inside that call. */
  lemma RefinesFifo<T>(size: nat, maxBlockSize: nat, acts: seq<Action<T>>)
    requires size > 0 && maxBlockSize >= 2 && CanRun(Initial(size, maxBlockSize), acts)
    ensures var s, events := Initial<T>(size, maxBlockSize), Events(Initial(size, maxBlockSize), acts);
      && FifoRun([], events) && |events| == |acts|
      && forall j :: 0 <= j < |acts| && events[j].FoundEmpty? ==> exists i, k :: EmptyInside(s, acts, i, j, k)
  {
    var s := Initial<T>(size, maxBlockSize);
    var w := InitialLayout<T>(BlockCount(size, maxBlockSize));
    InitialInv<T>(size, maxBlockSize);
    var _ := RunGood(s, w, acts);
    EventsCount(s, acts);
    forall j | 0 <= j < |acts| && Events(s, acts)[j].FoundEmpty? ensures exists i, k :: EmptyInside(s, acts, i, j, k) {
      var i, k := EmptyAt(s, w, acts, j);
    }
  }

  // ------------------------------------------------------------ the reserved capacity

  /** Any `count` - 1 blocks have room for `size` elements, as has a single one when `count` is 1. */
  ghost predicate Reserved<T>(s: Queue<T>, w: Layout<T>, size: nat, m: nat, count: nat) {
    && m > 0 && count <= |w.ring|
    && m * (count - 1) >= (if count == 1 then 0 else size) && (count == 1 ==> m >= size)
    && count >= 1
    && m < s.largestBlockSize
    && (forall b :: 0 <= b < |s.blocks| ==> m < Size(s.blocks[b]))
  }

  lemma InitialReserved<T>(size: nat, maxBlockSize: nat) returns (m: nat, count: nat)
    requires size > 0 && maxBlockSize >= 2
    ensures Reserved(Initial<T>(size, maxBlockSize), InitialLayout(BlockCount(size, maxBlockSize)), size, m, count)
  {
    count := BlockCount(size, maxBlockSize);
    m := FirstBlockSize(size, maxBlockSize) - 1;
    CountPositive(size, maxBlockSize);
    if CeilToPow2(size + 1) > maxBlockSize * 2 {
      var x := size + 2 * m - 1;
      assert x == m * (x / m) + x % m;
      assert count == x / m && m * count > size + m - 1;
      assert m * (count - 1) == m * count - m;
    }
  }

  /** Blocks never change size, and a new one is no smaller than those before. */
  lemma StepSizes<T>(s: Queue<T>, a: Action<T>)
    requires Enabled(s, a)
    ensures SizesKept(s, Step(s, a).next)
  {
    match a
    case CallEnqueue(_, _) =>
    case Produce(ok) => if ProducerSafe(s) { ProducerSizes(s, ok); }
    case CallConsume(_) =>
    case Consume => if ConsumerSafe(s) { ConsumerSizes(s); }
  }

  lemma ProducerSizes<T>(s: Queue<T>, ok: bool)
    requires !s.prod.PIdle? && ProducerSafe(s)
    ensures SizesKept(s, ProducerStep(s, ok).next)
  {
  }

  lemma ConsumerSizes<T>(s: Queue<T>)
    requires !s.cons.CIdle? && ConsumerSafe(s)
    ensures SizesKept(s, ConsumerStep(s).next)
  {
  }

  ghost predicate SizesKept<T>(s: Queue<T>, s': Queue<T>) {
    && |s.blocks| <= |s'.blocks|
    && (s'.largestBlockSize == s.largestBlockSize || s'.largestBlockSize == s.largestBlockSize * 2)
    && (forall b :: 0 <= b < |s.blocks| ==> Size(s'.blocks[b]) == Size(s.blocks[b]))
    && (forall b :: |s.blocks| <= b < |s'.blocks| ==> Size(s'.blocks[b]) == s'.largestBlockSize)
  }

  lemma StepReserved<T>(s: Queue<T>, w: Layout<T>, a: Action<T>, size: nat, m: nat, count: nat)
    requires Inv(s, w) && Enabled(s, a) && Reserved(s, w, size, m, count)
    ensures Reserved(Step(s, a).next, NextLayout(s, w, a), size, m, count)
  {
    StepSizes(s, a);
  }

  /** The producer is about to allocate, or to give up when it must not. */
  ghost predicate OutOfRoom<T>(s: Queue<T>) {
    s.prod.PLoadFrontBlock? && s.prod.tb < |s.blocks| && s.blocks[s.prod.tb].next == s.frontBlock
  }

  lemma {:induction false} FlatAtLeast<T>(c: seq<seq<T>>, m: nat)
    requires forall i :: 0 <= i < |c| ==> |c[i]| >= m
    ensures |Flat(c)| >= m * |c|
  {
    if c != [] {
      FlatAtLeast(c[1..], m);
      assert m * |c| == m * |c[1..]| + m;
    }
  }

  /** With more than one block, running out of room means at that instant that all blocks but
      the front block are full. */
  lemma OutOfRoomIsFull<T>(s: Queue<T>, w: Layout<T>, size: nat, m: nat, count: nat)
    requires Inv(s, w) && Reserved(s, w, size, m, count) && OutOfRoom(s) && |w.ring| > 1
    ensures |Elements(w)| >= size
  {
    assert w.t == |w.ring| - 1 by {
      At(s, w, w.t);
      Distinct(s, w);
    }
    var c := w.content;
    forall i | 1 <= i < |c| ensures |c[i]| >= m { At(s, w, i); }
    FlatAtLeast(c[1..], m);
    assert |Flat(c)| >= m * |c[1..]|;
    MulMonotone(m, if count == 1 then 1 else count - 1, |c[1..]|);
  }

  ghost predicate InProducerCall<T>(s: Queue<T>, acts: seq<Action<T>>)
    requires CanRun(s, acts)
    decreases |acts|
  {
    acts == [] || (!s.prod.PIdle? && InProducerCall(Step(s, acts[0]).next, acts[1..]))
  }

  lemma {:induction false} RunReserved<T>(s: Queue<T>, w: Layout<T>, acts: seq<Action<T>>, size: nat, m: nat,
                                          count: nat)
    returns (w': Layout<T>)
    requires Inv(s, w) && CanRun(s, acts) && Reserved(s, w, size, m, count)
    ensures Inv(Exec(s, acts), w') && Reserved(Exec(s, acts), w', size, m, count) && |w.ring| <= |w'.ring|
    ensures Elements(w') == FifoEnd(Elements(w), Events(s, acts))
    decreases |acts|
  {
    w' := w;
    if acts != [] {
      StepGood(s, w, acts[0]);
      StepReserved(s, w, acts[0], size, m, count);
      w' := RunReserved(Step(s, acts[0]).next, NextLayout(s, w, acts[0]), acts[1..], size, m, count);
    }
  }

  /** A call that has found room in the tail block never runs out of it. */
  lemma {:induction false} RoomFound<T>(s: Queue<T>, w: Layout<T>, acts: seq<Action<T>>)
    requires Inv(s, w) && CanRun(s, acts) && InProducerCall(s, acts) && (s.prod.PConstruct? || s.prod.PStoreTail?)
    ensures !OutOfRoom(Exec(s, acts))
    decreases |acts|
  {
    if acts != [] {
      var s' := Step(s, acts[0]).next;
      StepGood(s, w, acts[0]);
      if s'.prod.PIdle? { assert acts[1..] == []; }
      else { RoomFound(s', NextLayout(s, w, acts[0]), acts[1..]); }
    }
  }

  /** When an enqueue finds no room and has to allocate or to give up, the queue held at least
      the reserved number of elements at an instant of that call. */
  lemma {:induction false} RunsOutOnlyWhenFull<T>(s: Queue<T>, w: Layout<T>, acts: seq<Action<T>>, size: nat, m: nat,
                                                  count: nat)
    returns (k: nat)
    requires Inv(s, w) && Reserved(s, w, size, m, count)
    requires s.prod.PLoadFront? && CanRun(s, acts) && InProducerCall(s, acts) && OutOfRoom(Exec(s, acts))
    ensures k <= |acts| && CanRun(s, acts[..k]) && |FifoEnd(Elements(w), Events(s, acts[..k]))| >= size
    decreases |acts|
  {
    if |w.ring| > 1 {
      var w' := RunReserved(s, w, acts, size, m, count);
      OutOfRoomIsFull(Exec(s, acts), w', size, m, count);
      k := |acts|;
      assert acts[..k] == acts;
    } else {
      var a := acts[0];
      var s', w' := Step(s, a).next, NextLayout(s, w, a);
      StepGood(s, w, a);
      StepReserved(s, w, a, size, m, count);
      if s'.prod.PLoadFront? {
        k := RunsOutOnlyWhenFull(s', w', acts[1..], size, m, count);
        PrefixRun(s, acts, k + 1);
        k := k + 1;
      } else if s'.prod.PConstruct? {
        RoomFound(s', w', acts[1..]);
      } else {
        OnlyBlockIsFull(s, w, size, m, count);
        k := 0;
        assert acts[..0] == [];
      }
    }
  }

  /** The only block is found full. */
  lemma OnlyBlockIsFull<T>(s: Queue<T>, w: Layout<T>, size: nat, m: nat, count: nat)
    requires Inv(s, w) && Reserved(s, w, size, m, count) && |w.ring| <= 1 && s.prod.PLoadFront?
    requires var s' := ProducerStep(s, true).next; !s'.prod.PLoadFront? && !s'.prod.PConstruct?
    ensures |Elements(w)| >= size
  {
    At(s, w, 0);
    assert Flat(w.content[1..]) == [];
  }

  /** The same from the call on: it is true of every enqueue on a queue made for `size` elements. */
  lemma ReservationKept<T>(size: nat, maxBlockSize: nat, before: seq<Action<T>>, x: T, alloc: bool,
                           acts: seq<Action<T>>)
    returns (k: nat)
    requires size > 0 && maxBlockSize >= 2 && CanRun(Initial(size, maxBlockSize), before)
    requires var s := Exec(Initial(size, maxBlockSize), before);
      && Enabled(s, CallEnqueue(x, alloc))
      && CanRun(Step(s, CallEnqueue(x, alloc)).next, acts)
      && InProducerCall(Step(s, CallEnqueue(x, alloc)).next, acts)
      && OutOfRoom(Exec(Step(s, CallEnqueue(x, alloc)).next, acts))
    ensures var s' := Step(Exec(Initial(size, maxBlockSize), before), CallEnqueue(x, alloc)).next;
      && k <= |acts| && CanRun(s', acts[..k])
      && |FifoEnd(FifoEnd([], Events(Initial(size, maxBlockSize), before)), Events(s', acts[..k]))| >= size
  {
    var s0 := Initial<T>(size, maxBlockSize);
    var w0 := InitialLayout<T>(BlockCount(size, maxBlockSize));
    InitialInv<T>(size, maxBlockSize);
    var m, count := InitialReserved<T>(size, maxBlockSize);
    var w := RunReserved(s0, w0, before, size, m, count);
    var s := Exec(s0, before);
    var a: Action<T> := CallEnqueue(x, alloc);
    StartEnqueueKeeps(s, w, x, alloc);
    StepReserved(s, w, a, size, m, count);
    var s' := Step(s, a).next;
    if s'.prod.PConstruct? {
      RoomFound(s', w, acts);
    } else {
      k := RunsOutOnlyWhenFull(s', w, acts, size, m, count);
    }
  }

  // ------------------------------------------------------------ when an enqueue is refused

  /** After the actions `before` an enqueue begins, and all of `rest` happens inside it. */
  ghost predicate EnqueueSince<T>(s: Queue<T>, before: seq<Action<T>>, x: T, alloc: bool, rest: seq<Action<T>>) {
    && CanRun(s, before) && Exec(s, before).prod.PIdle?
    && var s' := Step(Exec(s, before), CallEnqueue(x, alloc)).next;
       CanRun(s', rest) && InProducerCall(s', rest)
  }

  lemma {:induction false} EnqueueGoesOn<T>(s: Queue<T>, acts: seq<Action<T>>, a: Action<T>)
    requires CanRun(s, acts + [a]) && CanRun(s, acts) && InProducerCall(s, acts) && !Exec(s, acts).prod.PIdle?
    ensures InProducerCall(s, acts + [a])
    decreases |acts|
  {
    if acts == [] {
      assert (acts + [a])[1..] == [];
    } else {
      assert (acts + [a])[1..] == acts[1..] + [a];
      EnqueueGoesOn(Step(s, acts[0]).next, acts[1..], a);
    }
  }

  lemma EnqueueSplit<T>(s: Queue<T>, before: seq<Action<T>>, x: T, alloc: bool, rest: seq<Action<T>>)
    requires CanRun(s, before + ([CallEnqueue(x, alloc)] + rest))
    ensures CanRun(s, before) && Exec(s, before).prod.PIdle?
    ensures var s' := Step(Exec(s, before), CallEnqueue(x, alloc)).next;
      CanRun(s', rest) && Exec(s, before + ([CallEnqueue(x, alloc)] + rest)) == Exec(s', rest)
  {
    RunSplit(s, before, [CallEnqueue(x, alloc)] + rest);
    RunCons(Exec(s, before), CallEnqueue(x, alloc), rest);
  }

  /** A producer that is not idle is inside an enqueue that has begun. */
  lemma {:induction false} EnqueueHasBegun<T>(s: Queue<T>, acts: seq<Action<T>>)
    returns (before: seq<Action<T>>, x: T, alloc: bool, rest: seq<Action<T>>)
    requires CanRun(s, acts) && s.prod.PIdle? && !Exec(s, acts).prod.PIdle?
    ensures acts == before + ([CallEnqueue(x, alloc)] + rest) && EnqueueSince(s, before, x, alloc, rest)
    decreases |acts|
  {
    var init, a := acts[..|acts| - 1], acts[|acts| - 1];
    assert acts == init + [a];
    RunSplit(s, init, [a]);
    if Exec(s, init).prod.PIdle? {
      LastIsEnqueue(Exec(s, init), a);
      before, x, alloc, rest := init, a.x, a.alloc, [];
      assert [CallEnqueue(x, alloc)] + rest == [a];
    } else {
      before, x, alloc, rest := EnqueueHasBegun(s, init);
      EnqueueSplit(s, before, x, alloc, rest);
      assert acts == before + ([CallEnqueue(x, alloc)] + (rest + [a]));
      EnqueueSplit(s, before, x, alloc, rest + [a]);
      EnqueueGoesOn(Step(Exec(s, before), CallEnqueue(x, alloc)).next, rest, a);
      rest := rest + [a];
    }
  }

  lemma LastIsEnqueue<T>(s: Queue<T>, a: Action<T>)
    requires CanRun(s, [a]) && s.prod.PIdle? && !Exec(s, [a]).prod.PIdle?
    ensures a.CallEnqueue?
  {
    assert [a][1..] == [];
  }

  lemma {:induction false} NoEnqueueInside<T>(s: Queue<T>, acts: seq<Action<T>>, n: nat)
    requires CanRun(s, acts) && InProducerCall(s, acts) && n < |acts|
    ensures !acts[n].CallEnqueue?
    decreases |acts|
  {
    if n > 0 { NoEnqueueInside(Step(s, acts[0]).next, acts[1..], n - 1); }
  }

  /** The producer remembers whether the call it is in may allocate. */
  ghost predicate MayAllocate<T>(s: Queue<T>, alloc: bool) {
    match s.prod
    case PLoadFront(_, al, _, _, _) => al == alloc
    case PLoadFrontBlock(_, al, _) => al == alloc
    case PAlloc(_, _) => alloc
    case _ => true
  }

  lemma {:induction false} Remembered<T>(s: Queue<T>, acts: seq<Action<T>>, alloc: bool)
    requires CanRun(s, acts) && InProducerCall(s, acts) && MayAllocate(s, alloc)
    ensures MayAllocate(Exec(s, acts), alloc)
    decreases |acts|
  {
    if acts != [] {
      var s' := Step(s, acts[0]).next;
      if s'.prod.PIdle? { assert acts[1..] == []; }
      Remembered(s', acts[1..], alloc);
    }
  }

  /** A producer that allocates has run out of room before. */
  lemma {:induction false} AllocatesOutOfRoom<T>(s: Queue<T>, acts: seq<Action<T>>) returns (n: nat)
    requires CanRun(s, acts) && InProducerCall(s, acts) && !s.prod.PAlloc? && Exec(s, acts).prod.PAlloc?
    ensures n <= |acts| && CanRun(s, acts[..n]) && InProducerCall(s, acts[..n]) && OutOfRoom(Exec(s, acts[..n]))
    decreases |acts|
  {
    var s' := Step(s, acts[0]).next;
    if s'.prod.PAlloc? {
      n := 0;
      assert acts[..0] == [];
    } else {
      n := AllocatesOutOfRoom(s', acts[1..]);
      assert acts[..n + 1][1..] == acts[1..][..n];
      n := n + 1;
    }
  }

  /** An enqueue that may or may not allocate is asked for more than there is room for: at an instant of the
      call the queue holds at least `size` elements. */
  lemma FullInCall<T>(size: nat, maxBlockSize: nat, before: seq<Action<T>>, x: T, alloc: bool, rest: seq<Action<T>>)
    returns (k: nat)
    requires size > 0 && maxBlockSize >= 2
    requires CanRun(Initial(size, maxBlockSize), before + ([CallEnqueue(x, alloc)] + rest))
    requires EnqueueSince(Initial(size, maxBlockSize), before, x, alloc, rest)
    requires var m := Exec(Initial(size, maxBlockSize), before + ([CallEnqueue(x, alloc)] + rest));
      OutOfRoom(m) || m.prod.PAlloc?
    ensures var s, done := Initial<T>(size, maxBlockSize), before + ([CallEnqueue(x, alloc)] + rest);
      |before| < k <= |done| && CanRun(s, done[..k]) && |FifoEnd([], Events(s, done[..k]))| >= size
  {
    var s := Initial<T>(size, maxBlockSize);
    EnqueueSplit(s, before, x, alloc, rest);
    var s' := Step(Exec(s, before), CallEnqueue(x, alloc)).next;
    var part := rest;
    if Exec(s', rest).prod.PAlloc? {
      var p := AllocatesOutOfRoom(s', rest);
      part := rest[..p];
    }
    var n := ReservationKept(size, maxBlockSize, before, x, alloc, part);
    assert part[..n] == rest[..n];
    k := |before| + 1 + n;
    PartOfCall(s, before, x, alloc, rest, n);
  }

  lemma PartOfCall<T>(s: Queue<T>, before: seq<Action<T>>, x: T, alloc: bool, rest: seq<Action<T>>, n: nat)
    requires CanRun(s, before + ([CallEnqueue(x, alloc)] + rest)) && n <= |rest|
    requires CanRun(s, before) && Exec(s, before).prod.PIdle?
    requires CanRun(Step(Exec(s, before), CallEnqueue(x, alloc)).next, rest[..n])
    ensures var done := before + ([CallEnqueue(x, alloc)] + rest);
      && CanRun(s, done[..|before| + 1 + n])
      && FifoEnd([], Events(s, done[..|before| + 1 + n])) ==
         FifoEnd(FifoEnd([], Events(s, before)), Events(Step(Exec(s, before), CallEnqueue(x, alloc)).next, rest[..n]))
  {
    var k, done := |before| + 1 + n, before + ([CallEnqueue(x, alloc)] + rest);
    assert done[..k] == before + ([CallEnqueue(x, alloc)] + rest[..n]);
    assert done == done[..k] + done[k..];
    RunSplit(s, done[..k], done[k..]);
    EndInEnqueue(s, before, x, alloc, rest[..n]);
  }

  lemma EndInEnqueue<T>(s: Queue<T>, before: seq<Action<T>>, x: T, alloc: bool, part: seq<Action<T>>)
    requires CanRun(s, before + ([CallEnqueue(x, alloc)] + part)) && CanRun(s, before)
    requires Exec(s, before).prod.PIdle?
    ensures CanRun(Step(Exec(s, before), CallEnqueue(x, alloc)).next, part)
    ensures FifoEnd([], Events(s, before + ([CallEnqueue(x, alloc)] + part))) ==
            FifoEnd(FifoEnd([], Events(s, before)), Events(Step(Exec(s, before), CallEnqueue(x, alloc)).next, part))
  {
    var m, a: Action<T> := Exec(s, before), CallEnqueue(x, alloc);
    RunSplit(s, before, [a] + part);
    RunCons(m, a, part);
    var q := FifoEnd([], Events(s, before));
    EndOfBoth([], Events(s, before), Events(m, [a] + part));
    EndOfBoth(q, [Step(m, a).event], Events(Step(m, a).next, part));
    assert FifoEnd(q, [Step(m, a).event]) == q;
  }

  /** Inside the enqueue that has begun with action i and is still under way at action j, the queue held
      at least `size` elements just before action k. */
  ghost predicate FullInside<T>(s: Queue<T>, acts: seq<Action<T>>, size: nat, i: nat, j: nat, k: nat)
    requires CanRun(s, acts)
  {
    && i < k <= j < |acts| && acts[i].CallEnqueue? && (forall n :: i < n <= j ==> !acts[n].CallEnqueue?)
    && CanRun(s, acts[..k]) && |FifoEnd([], Events(s, acts[..k]))| >= size
  }

  /** The step with which an enqueue is refused, or allocates. */
  lemma RefusalOrAllocation<T>(s: Queue<T>, a: Action<T>)
    requires Enabled(s, a) && (Step(s, a).event.NotEnqueued? || |Step(s, a).next.blocks| > |s.blocks|)
    ensures a.Produce? && (OutOfRoom(s) || s.prod.PAlloc?)
    ensures s.prod.PAlloc? ==> (a.allocOk <==> !Step(s, a).event.NotEnqueued?)
    ensures OutOfRoom(s) ==> MayAllocate(s, false)
  {
  }

  lemma FullAt<T>(size: nat, maxBlockSize: nat, acts: seq<Action<T>>, j: nat) returns (i: nat, k: nat)
    requires size > 0 && maxBlockSize >= 2 && CanRun(Initial(size, maxBlockSize), acts) && j < |acts|
    requires CanRun(Initial(size, maxBlockSize), acts[..j])
    requires Enabled(Exec(Initial(size, maxBlockSize), acts[..j]), acts[j])
    requires var m := Exec(Initial(size, maxBlockSize), acts[..j]);
      Step(m, acts[j]).event.NotEnqueued? || |Step(m, acts[j]).next.blocks| > |m.blocks|
    ensures FullInside(Initial(size, maxBlockSize), acts, size, i, j, k)
    ensures Exec(Initial(size, maxBlockSize), acts[..j]).prod.PAlloc? ==> acts[i].alloc
    ensures !Exec(Initial(size, maxBlockSize), acts[..j]).prod.PAlloc? ==> !acts[i].alloc
  {
    var s := Initial<T>(size, maxBlockSize);
    var m := Exec(s, acts[..j]);
    RefusalOrAllocation(m, acts[j]);
    var before, x, alloc, rest := EnqueueHasBegun(s, acts[..j]);
    EnqueueSplit(s, before, x, alloc, rest);
    k := FullInCall(size, maxBlockSize, before, x, alloc, rest);
    i := |before|;
    var s' := Step(Exec(s, before), CallEnqueue(x, alloc)).next;
    Remembered(s', rest, alloc);
    forall n: nat | n < |rest| ensures !rest[n].CallEnqueue? { NoEnqueueInside(s', rest, n); }
    EnqueuePositions(acts, j, before, x, alloc, rest, k);
  }

  lemma EnqueuePositions<T>(acts: seq<Action<T>>, j: nat, before: seq<Action<T>>, x: T, alloc: bool,
                            rest: seq<Action<T>>, k: nat)
    requires j < |acts| && acts[..j] == before + ([CallEnqueue(x, alloc)] + rest) && k <= j && !acts[j].CallEnqueue?
    requires forall n: nat :: n < |rest| ==> !rest[n].CallEnqueue?
    ensures |before| < j && acts[|before|] == CallEnqueue(x, alloc)
    ensures forall n :: |before| < n <= j ==> !acts[n].CallEnqueue?
    ensures (before + ([CallEnqueue(x, alloc)] + rest))[..k] == acts[..k]
  {
    var done := before + ([CallEnqueue(x, alloc)] + rest);
    assert acts[|before|] == done[|before|];
    forall n | |before| < n < j ensures !acts[n].CallEnqueue? {
      assert acts[n] == done[n] == rest[n - |before| - 1];
    }
  }

  /** On every run from the constructor an enqueue is refused only if at an instant inside that call the queue
      held at least `size` elements; one that may allocate is refused only when the allocation is. */
  lemma RefusedOnlyWhenFull<T>(size: nat, maxBlockSize: nat, acts: seq<Action<T>>, j: nat)
    requires size > 0 && maxBlockSize >= 2 && CanRun(Initial(size, maxBlockSize), acts) && j < |acts|
    requires |Events(Initial(size, maxBlockSize), acts)| == |acts|
    requires Events(Initial(size, maxBlockSize), acts)[j].NotEnqueued?
    ensures exists i: nat, k: nat ::
      FullInside(Initial(size, maxBlockSize), acts, size, i, j, k)
      && (acts[i].alloc ==> acts[j] == Produce(false))
  {
    var s := Initial<T>(size, maxBlockSize);
    EventAt(s, acts, j);
    var i, k := FullAt(size, maxBlockSize, acts, j);
    RefusalOrAllocation(Exec(s, acts[..j]), acts[j]);
    assert FullInside(s, acts, size, i, j, k);
  }

  /** And a block is allocated only in a call that may, and only if at an instant inside it the queue held at
      least `size` elements. */
  lemma AllocatesOnlyWhenFull<T>(size: nat, maxBlockSize: nat, acts: seq<Action<T>>, j: nat)
    requires size > 0 && maxBlockSize >= 2 && CanRun(Initial(size, maxBlockSize), acts) && j < |acts|
    requires CanRun(Initial(size, maxBlockSize), acts[..j]) && CanRun(Initial(size, maxBlockSize), acts[..j + 1])
    requires |Exec(Initial(size, maxBlockSize), acts[..j + 1]).blocks|
             > |Exec(Initial(size, maxBlockSize), acts[..j]).blocks|
    ensures exists i: nat, k: nat ::
      FullInside(Initial(size, maxBlockSize), acts, size, i, j, k) && acts[i].alloc
  {
    var s := Initial<T>(size, maxBlockSize);
    EventAt(s, acts, j);
    assert acts[..j + 1] == acts[..j] + [acts[j]] && [acts[j]][1..] == [];
    RunSplit(s, acts[..j], [acts[j]]);
    var i, k := FullAt(size, maxBlockSize, acts, j);
    RefusalOrAllocation(Exec(s, acts[..j]), acts[j]);
    assert FullInside(s, acts, size, i, j, k);
  }

  // ------------------------------------------------------------ calls are wait-free

  /** Steps that a call needs at most from where it stands. */
  function ProducerRank<T>(p: Producer<T>): nat {
    match p
    case PIdle => 0
    case PLoadFront(_, _, _, _, _) => 7
    case PConstruct(_, _, _, _) => 2
    case PStoreTail(_, _, _) => 1
    case PLoadFrontBlock(_, _, _) => 6
    case PNextFront(_, _) => 5
    case PNextTail(_, _, _) => 4
    case PNextConstruct(_, _, _) => 3
    case PNextStoreTail(_, _, _) => 2
    case PStoreTailBlock(_, _) => 1
    case PAlloc(_, _) => 3
    case PLink(_, _, _) => 2
  }

  function ConsumerRank<T>(c: Consumer<T>): nat {
    match c
    case CIdle => 0
    case CLoadTail(_, _, _) => 8
    case CLoadTailBlock(_, _) => 7
    case CReload(_) => 6
    case CLoadNext(_, _) => 5
    case CNextTail(_, _, _) => 4
    case CStoreFrontBlock(_, _, _) => 3
    case CTake(_, _, _) => 2
    case CStoreFront(_, _, _, _) => 1
  }

  function ProducesIn<T>(acts: seq<Action<T>>): nat {
    if acts == [] then 0 else (if acts[0].Produce? then 1 else 0) + ProducesIn(acts[1..])
  }

  function ConsumesIn<T>(acts: seq<Action<T>>): nat {
    if acts == [] then 0 else (if acts[0].Consume? then 1 else 0) + ConsumesIn(acts[1..])
  }

  predicate EnqueueAnswers<T>(a: Action<T>, e: Label<T>) { a.Produce? && (e.Enqueued? || e.NotEnqueued?) }

  predicate ConsumeAnswers<T>(a: Action<T>, e: Label<T>) { a.Consume? && !e.Tau? && !e.Fault? }

  lemma ProducerRanks<T>(s: Queue<T>, ok: bool)
    requires ProducerSafe(s) && !s.prod.PIdle?
    ensures var o := ProducerStep(s, ok);
      && (o.event.Enqueued? || o.event.NotEnqueued? || ProducerRank(o.next.prod) < ProducerRank(s.prod))
      && o.next.cons == s.cons
  {
  }

  lemma ConsumerRanks<T>(s: Queue<T>)
    requires ConsumerSafe(s) && !s.cons.CIdle?
    ensures var o := ConsumerStep(s);
      && ((!o.event.Tau? && !o.event.Fault?) || ConsumerRank(o.next.cons) < ConsumerRank(s.cons))
      && o.next.prod == s.prod
  {
  }

  /** Every step of a call but its last brings it nearer to its answer, whatever the other thread does. */
  lemma StepRanks<T>(s: Queue<T>, w: Layout<T>, a: Action<T>)
    requires Inv(s, w) && Enabled(s, a)
    ensures var o := Step(s, a);
      && (a.Produce? ==> EnqueueAnswers(a, o.event) || ProducerRank(o.next.prod) < ProducerRank(s.prod))
      && (!a.Produce? && !s.prod.PIdle? ==> o.next.prod == s.prod)
      && (a.Consume? ==> ConsumeAnswers(a, o.event) || ConsumerRank(o.next.cons) < ConsumerRank(s.cons))
      && (!a.Consume? && !s.cons.CIdle? ==> o.next.cons == s.cons)
  {
    NeverFaults(s, w, a);
    match a
    case CallEnqueue(_, _) =>
    case Produce(ok) => ProducerRanks(s, ok);
    case CallConsume(_) =>
    case Consume => ConsumerRanks(s);
  }

  lemma NeverFaults<T>(s: Queue<T>, w: Layout<T>, a: Action<T>)
    requires Inv(s, w) && Enabled(s, a)
    ensures a.Produce? || a.CallEnqueue? ==> ProducerSafe(s)
    ensures a.Consume? || a.CallConsume? ==> ConsumerSafe(s)
  {
    StepGood(s, w, a);
  }

  lemma {:induction false} EnqueueEnds<T>(s: Queue<T>, w: Layout<T>, acts: seq<Action<T>>) returns (n: nat)
    requires Inv(s, w) && CanRun(s, acts) && !s.prod.PIdle? && ProducesIn(acts) >= ProducerRank(s.prod)
    ensures |Events(s, acts)| == |acts| && n < |acts| && EnqueueAnswers(acts[n], Events(s, acts)[n])
    decreases |acts|
  {
    EventsCount(s, acts);
    StepRanks(s, w, acts[0]);
    var o := Step(s, acts[0]);
    if EnqueueAnswers(acts[0], o.event) {
      n := 0;
    } else {
      StepGood(s, w, acts[0]);
      n := EnqueueEnds(o.next, NextLayout(s, w, acts[0]), acts[1..]);
      n := n + 1;
    }
  }

  lemma {:induction false} ConsumeEnds<T>(s: Queue<T>, w: Layout<T>, acts: seq<Action<T>>) returns (n: nat)
    requires Inv(s, w) && CanRun(s, acts) && !s.cons.CIdle? && ConsumesIn(acts) >= ConsumerRank(s.cons)
    ensures |Events(s, acts)| == |acts| && n < |acts| && ConsumeAnswers(acts[n], Events(s, acts)[n])
    decreases |acts|
  {
    EventsCount(s, acts);
    StepRanks(s, w, acts[0]);
    var o := Step(s, acts[0]);
    if ConsumeAnswers(acts[0], o.event) {
      n := 0;
    } else {
      StepGood(s, w, acts[0]);
      n := ConsumeEnds(o.next, NextLayout(s, w, acts[0]), acts[1..]);
      n := n + 1;
    }
  }

  /** Wait-freedom: on every run from the constructor an enqueue answers within 7 steps of its thread, and a
      dequeue, pop or peek within 8, however the other thread is scheduled. */
  lemma WaitFree<T>(size: nat, maxBlockSize: nat, before: seq<Action<T>>, call: Action<T>, acts: seq<Action<T>>)
    requires size > 0 && maxBlockSize >= 2 && CanRun(Initial(size, maxBlockSize), before)
    requires Enabled(Exec(Initial(size, maxBlockSize), before), call)
    requires CanRun(Step(Exec(Initial(size, maxBlockSize), before), call).next, acts)
    ensures var s := Step(Exec(Initial(size, maxBlockSize), before), call).next;
      && |Events(s, acts)| == |acts|
      && (call.CallEnqueue? && ProducesIn(acts) >= 7 ==>
            exists n :: 0 <= n < |acts| && EnqueueAnswers(acts[n], Events(s, acts)[n]))
      && (call.CallConsume? && ConsumesIn(acts) >= 8 ==>
            exists n :: 0 <= n < |acts| && ConsumeAnswers(acts[n], Events(s, acts)[n]))
  {
    var w0 := ReachableRing(size, maxBlockSize, before);
    var s0 := Exec(Initial<T>(size, maxBlockSize), before);
    StepGood(s0, w0, call);
    AfterCall(s0, w0, call, acts);
  }

  lemma AfterCall<T>(s0: Queue<T>, w0: Layout<T>, call: Action<T>, acts: seq<Action<T>>)
    requires Inv(s0, w0) && Enabled(s0, call) && Inv(Step(s0, call).next, NextLayout(s0, w0, call))
    requires CanRun(Step(s0, call).next, acts)
    ensures var s := Step(s0, call).next;
      && |Events(s, acts)| == |acts|
      && (call.CallEnqueue? && ProducesIn(acts) >= 7 ==>
            exists n :: 0 <= n < |acts| && EnqueueAnswers(acts[n], Events(s, acts)[n]))
      && (call.CallConsume? && ConsumesIn(acts) >= 8 ==>
            exists n :: 0 <= n < |acts| && ConsumeAnswers(acts[n], Events(s, acts)[n]))
  {
    var s, w := Step(s0, call).next, NextLayout(s0, w0, call);
    EventsCount(s, acts);
    if call.CallEnqueue? && ProducesIn(acts) >= 7 { var n := EnqueueEnds(s, w, acts); }
    if call.CallConsume? && ConsumesIn(acts) >= 8 { var n := ConsumeEnds(s, w, acts); }
  }

  // ------------------------------------------------------------ block sizes

  /** The blocks from the n-th on were allocated: each has twice the slots of the largest before it, until that
      has reached the maximum. */
  ghost predicate Doubling<T>(s: Queue<T>, n: nat) {
    && 0 < n <= |s.blocks| && s.largestBlockSize == Size(s.blocks[|s.blocks| - 1])
    && forall b :: n <= b < |s.blocks| ==> Grown(Size(s.blocks[b - 1]), s.maxBlockSize, Size(s.blocks[b]))
  }

  predicate Grown(before: nat, maximum: nat, after: nat) {
    after == if before >= maximum then before else before + before
  }

  lemma LargestIsLast<T>(s: Queue<T>, a: Action<T>)
    requires Enabled(s, a)
    ensures var s' := Step(s, a).next;
      && s'.maxBlockSize == s.maxBlockSize && |s.blocks| <= |s'.blocks| <= |s.blocks| + 1
      && (|s'.blocks| == |s.blocks| ==> s'.largestBlockSize == s.largestBlockSize)
      && (|s'.blocks| > |s.blocks| ==>
            && Grown(s.largestBlockSize, s.maxBlockSize, s'.largestBlockSize)
            && Size(s'.blocks[|s.blocks|]) == s'.largestBlockSize)
  {
  }

  lemma StepDoubling<T>(s: Queue<T>, a: Action<T>, n: nat)
    requires Enabled(s, a) && Doubling(s, n)
    ensures Doubling(Step(s, a).next, n) && Step(s, a).next.maxBlockSize == s.maxBlockSize
  {
    StepSizes(s, a);
    LargestIsLast(s, a);
    var s' := Step(s, a).next;
    forall b | n <= b < |s'.blocks| ensures Grown(Size(s'.blocks[b - 1]), s'.maxBlockSize, Size(s'.blocks[b])) {
      if b < |s.blocks| { assert Grown(Size(s.blocks[b - 1]), s.maxBlockSize, Size(s.blocks[b])); }
    }
  }

  lemma {:induction false} RunDoubling<T>(s: Queue<T>, acts: seq<Action<T>>, n: nat)
    requires CanRun(s, acts) && Doubling(s, n)
    ensures Doubling(Exec(s, acts), n) && Exec(s, acts).maxBlockSize == s.maxBlockSize
    decreases |acts|
  {
    if acts != [] {
      StepDoubling(s, acts[0], n);
      RunDoubling(Step(s, acts[0]).next, acts[1..], n);
    }
  }

  /** On every run each block allocated has twice the size of the one made before it, or the same once that
      has reached the largest block size. */
  lemma AllocationsDouble<T>(size: nat, maxBlockSize: nat, acts: seq<Action<T>>)
    requires size > 0 && maxBlockSize >= 2 && CanRun(Initial(size, maxBlockSize), acts)
    ensures var s := Initial<T>(size, maxBlockSize);
      Doubling(Exec(s, acts), |s.blocks|) && Exec(s, acts).maxBlockSize == maxBlockSize
  {
    CountPositive(size, maxBlockSize);
    RunDoubling(Initial(size, maxBlockSize), acts, BlockCount(size, maxBlockSize));
  }

  ghost predicate Powers<T>(s: Queue<T>) {
    IsPow2(s.largestBlockSize) && forall b :: 0 <= b < |s.blocks| ==> IsPow2(Size(s.blocks[b]))
  }

  lemma StepPowers<T>(s: Queue<T>, a: Action<T>)
    requires Enabled(s, a) && Powers(s)
    ensures Powers(Step(s, a).next)
  {
    StepSizes(s, a);
    var s' := Step(s, a).next;
    assert IsPow2(s'.largestBlockSize);
    forall b | 0 <= b < |s'.blocks| ensures IsPow2(Size(s'.blocks[b])) {
      if b < |s.blocks| { assert IsPow2(Size(s.blocks[b])); }
    }
  }

  /** All block sizes are powers of two in every reachable state, so that the wrap of every
      slot index is the source's masking. */
  lemma {:induction false} SizesArePowers<T>(s: Queue<T>, acts: seq<Action<T>>)
    requires CanRun(s, acts) && Powers(s)
    ensures Powers(Exec(s, acts))
    ensures forall b, i :: 0 <= b < |Exec(s, acts).blocks| && 0 <= i < Size(Exec(s, acts).blocks[b])
              ==> Next(i, Size(Exec(s, acts).blocks[b])) == And(i + 1, Size(Exec(s, acts).blocks[b]) - 1)
    decreases |acts|
  {
    if acts != [] {
      StepPowers(s, acts[0]);
      SizesArePowers(Step(s, acts[0]).next, acts[1..]);
    } else {
      forall b, i | 0 <= b < |s.blocks| && 0 <= i < Size(s.blocks[b])
        ensures Next(i, Size(s.blocks[b])) == And(i + 1, Size(s.blocks[b]) - 1)
      {
        MaskIsWrap(i, Size(s.blocks[b]));
      }
    }
  }

  lemma InitialPowers<T>(size: nat, maxBlockSize: nat)
    requires size > 0 && maxBlockSize >= 2 && IsPow2(maxBlockSize)
    ensures Powers(Initial<T>(size, maxBlockSize))
  {
  }
}
