/** The lock-free single-producer/single-consumer queue as a transition system.
    Every load or store of a variable that the other thread may access is a step of
    its own; reads of variables that only the running thread writes are folded into
    the neighbouring step. */
module Spsc {
  import opened Options

  /** One ring buffer. `next` is a block number, and a slot is `Some` while an object
      is constructed in it. */
  datatype Block<T> = Block(front: nat, localTail: nat, tail: nat, localFront: nat, next: nat, data: seq<Option<T>>)

  datatype Op = Dequeue | Pop | Peek

  /** Program counter and captured locals of the thread inside `inner_enqueue`. */
  datatype Producer<T> =
    | PIdle
    | PLoadFront(x: T, alloc: bool, tb: nat, bt: nat, nt: nat)
    | PConstruct(x: T, tb: nat, bt: nat, nt: nat)
    | PStoreTail(x: T, tb: nat, nt: nat)
    | PLoadFrontBlock(x: T, alloc: bool, tb: nat)
    | PNextFront(x: T, tb: nat)
    | PNextTail(x: T, nb: nat, nf: nat)
    | PNextConstruct(x: T, nb: nat, bt: nat)
    | PNextStoreTail(x: T, nb: nat, bt: nat)
    | PStoreTailBlock(x: T, nb: nat)
    | PAlloc(x: T, tb: nat)
    | PLink(x: T, tb: nat, nb: nat)

  /** Program counter and captured locals of the thread inside `try_dequeue`, `pop` or `peek`. */
  datatype Consumer<T> =
    | CIdle
    | CLoadTail(op: Op, fb: nat, bf: nat)
    | CLoadTailBlock(op: Op, fb: nat)
    | CReload(op: Op)
    | CLoadNext(op: Op, fb: nat)
    | CNextTail(op: Op, nb: nat, nf: nat)
    | CStoreFrontBlock(op: Op, nb: nat, nf: nat)
    | CTake(op: Op, b: nat, f: nat)
    | CStoreFront(op: Op, b: nat, f: nat, got: T)

  datatype Queue<T> = Queue(blocks: seq<Block<T>>, frontBlock: nat, tailBlock: nat,
                            largestBlockSize: nat, maxBlockSize: nat,
                            prod: Producer<T>, cons: Consumer<T>)

  /** What a step shows to the callers. */
  datatype Label<T> =
    | Tau
    | Enqueued(x: T)
    | NotEnqueued
    | Dequeued(x: T)
    | Popped
    | Peeked(x: T)
    | FoundEmpty
    | Fault

  datatype Action<T> =
    | CallEnqueue(x: T, alloc: bool)
    | Produce(allocOk: bool)
    | CallConsume(op: Op)
    | Consume

  datatype Outcome<T> = Outcome(next: Queue<T>, event: Label<T>)

  // ---------------------------------------------------------------- the program

  function Size<T>(b: Block<T>): nat { |b.data| }

  /** The slot after slot i; `Bits.MaskIsWrap` shows that it is `(i + 1) & sizeMask`. */
  function Next(i: nat, size: nat): nat { if i + 1 == size then 0 else i + 1 }

  function NewBlock<T>(size: nat, next: nat): Block<T>
  {
    Block(0, 0, 0, 0, next, seq(size, _ => None))
  }

  function Set<T>(s: Queue<T>, i: nat, b: Block<T>): Queue<T>
    requires i < |s.blocks|
  {
    s.(blocks := s.blocks[i := b])
  }

  predicate ValidPtr<T>(s: Queue<T>, b: nat) { b < |s.blocks| && Size(s.blocks[b]) > 0 }

  predicate Enabled<T>(s: Queue<T>, a: Action<T>) {
    match a
    case CallEnqueue(_, _) => s.prod.PIdle?
    case Produce(_) => !s.prod.PIdle?
    case CallConsume(_) => s.cons.CIdle?
    case Consume => !s.cons.CIdle?
  }

  /** The producer's step dereferences only blocks that exist, constructs only in raw slots
      of the block, and meets the assertion on the block it moves to. */
  predicate ProducerSafe<T>(s: Queue<T>) {
    match s.prod
    case PIdle => ValidPtr(s, s.tailBlock)
    case PLoadFront(_, _, tb, _, _) => ValidPtr(s, tb)
    case PConstruct(_, tb, bt, _) => ValidPtr(s, tb) && bt < Size(s.blocks[tb]) && s.blocks[tb].data[bt].None?
    case PStoreTail(_, tb, _) => ValidPtr(s, tb)
    case PLoadFrontBlock(_, _, tb) => ValidPtr(s, tb)
    case PNextFront(_, tb) => ValidPtr(s, tb) && ValidPtr(s, s.blocks[tb].next)
    case PNextTail(_, nb, nf) => ValidPtr(s, nb) && s.blocks[nb].tail == nf
    case PNextConstruct(_, nb, bt) => ValidPtr(s, nb) && bt < Size(s.blocks[nb]) && s.blocks[nb].data[bt].None?
    case PNextStoreTail(_, nb, _) => ValidPtr(s, nb)
    case PStoreTailBlock(_, nb) => ValidPtr(s, nb)
    case PAlloc(_, tb) => ValidPtr(s, tb) && s.largestBlockSize > 0
    case PLink(_, tb, nb) => ValidPtr(s, tb) && ValidPtr(s, nb)
  }

  /** The consumer's step dereferences only blocks that exist, reads and destroys only
      constructed slots, and meets the assertion on the block it moves to. */
  predicate ConsumerSafe<T>(s: Queue<T>) {
    match s.cons
    case CIdle => ValidPtr(s, s.frontBlock)
    case CLoadTail(_, fb, _) => ValidPtr(s, fb)
    case CLoadTailBlock(_, _) => true
    case CReload(_) => ValidPtr(s, s.frontBlock)
    case CLoadNext(_, fb) => ValidPtr(s, fb) && ValidPtr(s, s.blocks[fb].next)
    case CNextTail(op, nb, nf) => ValidPtr(s, nb) && s.blocks[nb].tail != nf
                                  && (op.Peek? ==> nf < Size(s.blocks[nb]) && s.blocks[nb].data[nf].Some?)
    case CStoreFrontBlock(_, nb, _) => ValidPtr(s, nb)
    case CTake(_, b, f) => ValidPtr(s, b) && f < Size(s.blocks[b]) && s.blocks[b].data[f].Some?
    case CStoreFront(_, b, _, _) => ValidPtr(s, b)
  }

  function StartEnqueue<T>(s: Queue<T>, x: T, alloc: bool): Outcome<T>
    requires ProducerSafe(s) && s.prod.PIdle?
  {
    var tb := s.tailBlock;
    var b := s.blocks[tb];
    var nt := Next(b.tail, Size(b));
    Outcome(s.(prod := if nt != b.localFront then PConstruct(x, tb, b.tail, nt)
                       else PLoadFront(x, alloc, tb, b.tail, nt)), Tau)
  }

  function ProducerStep<T>(s: Queue<T>, allocOk: bool): Outcome<T>
    requires ProducerSafe(s) && !s.prod.PIdle?
  {
    match s.prod
    case PLoadFront(x, alloc, tb, bt, nt) =>
      var f := s.blocks[tb].front;
      Outcome(Set(s, tb, s.blocks[tb].(localFront := f))
              .(prod := if nt != f then PConstruct(x, tb, bt, nt) else PLoadFrontBlock(x, alloc, tb)), Tau)
    case PConstruct(x, tb, bt, nt) =>
      var b := s.blocks[tb];
      Outcome(Set(s, tb, b.(data := b.data[bt := Some(x)])).(prod := PStoreTail(x, tb, nt)), Tau)
    case PStoreTail(x, tb, nt) =>
      Outcome(Set(s, tb, s.blocks[tb].(tail := nt)).(prod := PIdle), Enqueued(x))
    case PLoadFrontBlock(x, alloc, tb) =>
      if s.blocks[tb].next != s.frontBlock then Outcome(s.(prod := PNextFront(x, tb)), Tau)
      else if alloc then Outcome(s.(prod := PAlloc(x, tb)), Tau)
      else Outcome(s.(prod := PIdle), NotEnqueued)
    case PNextFront(x, tb) =>
      var nb := s.blocks[tb].next;
      var f := s.blocks[nb].front;
      Outcome(Set(s, nb, s.blocks[nb].(localFront := f)).(prod := PNextTail(x, nb, f)), Tau)
    case PNextTail(x, nb, nf) =>
      var t := s.blocks[nb].tail;
      Outcome(Set(s, nb, s.blocks[nb].(localFront := nf)).(prod := PNextConstruct(x, nb, t)), Tau)
    case PNextConstruct(x, nb, bt) =>
      var b := s.blocks[nb];
      Outcome(Set(s, nb, b.(data := b.data[bt := Some(x)])).(prod := PNextStoreTail(x, nb, bt)), Tau)
    case PNextStoreTail(x, nb, bt) =>
      var b := s.blocks[nb];
      Outcome(Set(s, nb, b.(tail := Next(bt, Size(b)))).(prod := PStoreTailBlock(x, nb)), Tau)
    case PStoreTailBlock(x, nb) =>
      Outcome(s.(tailBlock := nb, prod := PIdle), Enqueued(x))
    case PAlloc(x, tb) =>
      if !allocOk then Outcome(s.(prod := PIdle), NotEnqueued)
      else
        var size := if s.largestBlockSize >= s.maxBlockSize then s.largestBlockSize else s.largestBlockSize * 2;
        var made := NewBlock<T>(size, s.blocks[tb].next);
        var b := made.(data := made.data[0 := Some(x)], tail := 1, localTail := 1);
        Outcome(s.(blocks := s.blocks + [b], largestBlockSize := size, prod := PLink(x, tb, |s.blocks|)), Tau)
    case PLink(x, tb, nb) =>
      Outcome(Set(s, tb, s.blocks[tb].(next := nb)).(prod := PStoreTailBlock(x, nb)), Tau)
  }

  function StartConsume<T>(s: Queue<T>, op: Op): Outcome<T>
    requires ConsumerSafe(s) && s.cons.CIdle?
  {
    var fb := s.frontBlock;
    var b := s.blocks[fb];
    Outcome(s.(cons := if b.front != b.localTail then CTake(op, fb, b.front) else CLoadTail(op, fb, b.front)), Tau)
  }

  function ConsumerStep<T>(s: Queue<T>): Outcome<T>
    requires ConsumerSafe(s) && !s.cons.CIdle?
  {
    match s.cons
    case CLoadTail(op, fb, bf) =>
      var t := s.blocks[fb].tail;
      Outcome(Set(s, fb, s.blocks[fb].(localTail := t))
              .(cons := if bf != t then CTake(op, fb, bf) else CLoadTailBlock(op, fb)), Tau)
    case CLoadTailBlock(op, fb) =>
      if fb != s.tailBlock then Outcome(s.(cons := CReload(op)), Tau)
      else Outcome(s.(cons := CIdle), FoundEmpty)
    case CReload(op) =>
      var fb := s.frontBlock;
      var b := s.blocks[fb];
      Outcome(Set(s, fb, b.(localTail := b.tail))
              .(cons := if b.front != b.tail then CTake(op, fb, b.front) else CLoadNext(op, fb)), Tau)
    case CLoadNext(op, fb) =>
      var nb := s.blocks[fb].next;
      Outcome(s.(cons := CNextTail(op, nb, s.blocks[nb].front)), Tau)
    case CNextTail(op, nb, nf) =>
      if op.Peek? then Outcome(s.(cons := CIdle), Peeked(s.blocks[nb].data[nf].value))
      else
        var b := s.blocks[nb];
        Outcome(Set(s, nb, b.(localTail := b.tail)).(cons := CStoreFrontBlock(op, nb, nf)), Tau)
    case CStoreFrontBlock(op, nb, nf) =>
      Outcome(s.(frontBlock := nb, cons := CTake(op, nb, nf)), Tau)
    case CTake(op, b, f) =>
      var blk := s.blocks[b];
      var x := blk.data[f].value;
      if op.Peek? then Outcome(s.(cons := CIdle), Peeked(x))
      else Outcome(Set(s, b, blk.(data := blk.data[f := None])).(cons := CStoreFront(op, b, f, x)), Tau)
    case CStoreFront(op, b, f, x) =>
      var blk := s.blocks[b];
      Outcome(Set(s, b, blk.(front := Next(f, Size(blk)))).(cons := CIdle),
              if op.Dequeue? then Dequeued(x) else Popped)
  }

  /** One atomic step. A step whose assertion or dereference would fail is a `Fault`. */
  function Step<T>(s: Queue<T>, a: Action<T>): Outcome<T>
    requires Enabled(s, a)
  {
    match a
    case CallEnqueue(x, alloc) => if ProducerSafe(s) then StartEnqueue(s, x, alloc) else Outcome(s, Fault)
    case Produce(ok) => if ProducerSafe(s) then ProducerStep(s, ok) else Outcome(s, Fault)
    case CallConsume(op) => if ConsumerSafe(s) then StartConsume(s, op) else Outcome(s, Fault)
    case Consume => if ConsumerSafe(s) then ConsumerStep(s) else Outcome(s, Fault)
  }
}
