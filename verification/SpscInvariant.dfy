/** The ring invariant of the queue, kept by every step of either thread, and the
    refinement of a FIFO sequence that follows from it. */
module SpscInvariant {
  import opened Options
  import opened Spsc

  /** Where the blocks stand: the ring in `next` order starting at the front block, the
      place of the tail block in it, and the elements published in each block. */
  datatype Layout<T> = Layout(ring: seq<nat>, t: nat, content: seq<seq<T>>)

  /** Cyclic distance from one slot to another. */
  function Dist(from: nat, to: nat, n: nat): int { if from <= to then to - from else to + n - from }

  function Slot(from: nat, k: nat, n: nat): int { if from + k < n then from + k else from + k - n }

  /** Slot p of a block holding `c` from `front` on. `hole` says that the first element has been
      moved out already, `extra` is an element constructed behind the tail. */
  function Expect<T>(front: nat, n: nat, c: seq<T>, hole: bool, extra: Option<T>, p: nat): Option<T>
    requires front < n && p < n
  {
    var d := Dist(front, p, n);
    if d < |c| then (if hole && d == 0 then None else Some(c[d]))
    else if d == |c| then extra
    else None
  }

  ghost predicate Holds<T>(b: Block<T>, c: seq<T>, hole: bool, extra: Option<T>) {
    && 2 <= Size(b)
    && |c| < Size(b)
    && b.front < Size(b)
    && b.tail == Slot(b.front, |c|, Size(b))
    && (forall p :: 0 <= p < Size(b) ==> b.data[p] == Expect(b.front, Size(b), c, hole, extra, p))
  }

  ghost predicate RingOk<T>(s: Queue<T>, w: Layout<T>) {
    && Linked(s.blocks, w)
    && w.ring[0] == s.frontBlock < |s.blocks|
    && w.ring[w.t] == s.tailBlock < |s.blocks|
  }

  /** The ring is one cycle of distinct blocks, linked by `next`. The conditions on one place
      are predicates of their own, so that proofs look only at the places they name. */
  ghost predicate Linked<T>(blocks: seq<Block<T>>, w: Layout<T>) {
    && |w.ring| == |w.content| && w.t < |w.ring|
    && (forall i :: 0 <= i < |w.ring| ==> LinkAt(blocks, w.ring, i))
    && (forall i, j :: 0 <= i < |w.ring| && 0 <= j < |w.ring| && i != j ==> Apart(w.ring, i, j))
  }

  ghost predicate LinkAt<T>(blocks: seq<Block<T>>, ring: seq<nat>, i: nat) {
    i < |ring| && ring[i] < |blocks| && blocks[ring[i]].next == ring[Next(i, |ring|)]
  }

  ghost predicate Apart(ring: seq<nat>, i: nat, j: nat) {
    i < |ring| && j < |ring| && ring[i] != ring[j]
  }

  /** An element the producer has constructed and not yet published: behind the tail of the
      tail block, or in the block after it with that block's tail still to store or stored. */
  datatype Pending<T> = Nothing | BehindTail(x: T) | InNext(x: T) | NextFilled(x: T)

  function PendingOf<T>(p: Producer<T>): Pending<T> {
    match p
    case PStoreTail(x, _, _) => BehindTail(x)
    case PNextStoreTail(x, _, _) => InNext(x)
    case PStoreTailBlock(x, _) => NextFilled(x)
    case _ => Nothing
  }

  function StoredAt<T>(w: Layout<T>, pend: Pending<T>, i: nat): seq<T>
    requires i < |w.content|
  {
    if pend.NextFilled? && i == w.t + 1 then [pend.x] else w.content[i]
  }

  function ExtraAt<T>(t: nat, pend: Pending<T>, i: nat): Option<T> {
    if (pend.BehindTail? && i == t) || (pend.InNext? && i == t + 1) then Some(pend.x) else None
  }

  ghost predicate Full<T>(blocks: seq<Block<T>>, w: Layout<T>, i: nat) {
    i < |w.ring| && i < |w.content| && w.ring[i] < |blocks| && |w.content[i]| + 1 == Size(blocks[w.ring[i]])
  }

  /** The i-th block of the ring. Blocks behind the tail are empty, blocks strictly between
      front and tail are full, and the tail block is not empty unless it is the front block. */
  ghost predicate BlockAt<T>(blocks: seq<Block<T>>, w: Layout<T>, hole: bool, pend: Pending<T>, i: nat) {
    && i < |w.ring| && i < |w.content| && w.ring[i] < |blocks|
    && (w.t < i ==> w.content[i] == [])
    && (0 < i <= w.t ==> w.content[i] != [])
    && (0 < i < w.t ==> Full(blocks, w, i))
    && Holds(blocks[w.ring[i]], StoredAt(w, pend, i), hole && i == 0, ExtraAt(w.t, pend, i))
  }

  ghost predicate ContentOk<T>(blocks: seq<Block<T>>, w: Layout<T>, hole: bool, pend: Pending<T>) {
    forall i :: 0 <= i < |w.ring| ==> BlockAt(blocks, w, hole, pend, i)
  }

  ghost predicate LocalTailOk<T>(b: Block<T>) {
    b.localTail < Size(b) && Dist(b.front, b.localTail, Size(b)) <= Dist(b.front, b.tail, Size(b))
  }

  ghost predicate LocalFrontOk<T>(b: Block<T>) {
    b.localFront < Size(b) && Dist(b.front, b.tail, Size(b)) <= Dist(b.localFront, b.tail, Size(b))
  }

  /** Both stale shadows lie in the live cyclic range of their block. */
  ghost predicate ShadowsOk<T>(s: Queue<T>, w: Layout<T>)
    requires RingOk(s, w)
  {
    LocalTailOk(s.blocks[s.frontBlock]) && LocalFrontOk(s.blocks[s.tailBlock])
  }

  ghost predicate TailFull<T>(s: Queue<T>, w: Layout<T>)
    requires RingOk(s, w)
  {
    w.t > 0 ==> Full(s.blocks, w, w.t)
  }

  ghost predicate ProducerOk<T>(s: Queue<T>, w: Layout<T>)
    requires RingOk(s, w)
  {
    var tb := s.tailBlock;
    var n := Size(s.blocks[tb]);
    match s.prod
    case PIdle => true
    case PLoadFront(_, _, b, bt, nt) => b == tb && bt == s.blocks[tb].tail && nt == Next(bt, n)
    case PConstruct(_, b, bt, nt) =>
      && b == tb && bt == s.blocks[tb].tail && nt == Next(bt, n)
      && nt != s.blocks[tb].localFront && |w.content[w.t]| + 1 < n
    case PStoreTail(_, b, nt) =>
      b == tb && nt == Next(s.blocks[tb].tail, n) && nt != s.blocks[tb].localFront && |w.content[w.t]| + 1 < n
    case PLoadFrontBlock(_, _, b) => b == tb && TailFull(s, w)
    case PNextFront(_, b) => b == tb && TailFull(s, w) && w.t + 1 < |w.ring|
    case PNextTail(_, nb, nf) => TailFull(s, w) && NextIs(s, w, nb) && nf == s.blocks[nb].front
    case PNextConstruct(_, nb, bt) =>
      TailFull(s, w) && NextIs(s, w, nb) && bt == s.blocks[nb].tail && LocalFrontOk(s.blocks[nb])
                                      && s.blocks[nb].localFront == s.blocks[nb].front
    case PNextStoreTail(_, nb, bt) => TailFull(s, w) && NextIs(s, w, nb) && bt == s.blocks[nb].tail
                                      && s.blocks[nb].localFront == s.blocks[nb].front
    case PStoreTailBlock(_, nb) => TailFull(s, w) && NextIs(s, w, nb) && s.blocks[nb].localFront == s.blocks[nb].front
    case PAlloc(_, b) => b == tb && TailFull(s, w)
    case PLink(x, b, nb) =>
      && b == tb && TailFull(s, w)
      && nb < |s.blocks| && nb !in w.ring
      && s.blocks[nb].next == s.blocks[tb].next
      && Holds(s.blocks[nb], [x], false, None)
      && s.blocks[nb].localFront == s.blocks[nb].front
  }

  ghost predicate NextIs<T>(s: Queue<T>, w: Layout<T>, nb: nat)
    requires RingOk(s, w)
  {
    w.t + 1 < |w.ring| && w.ring[w.t + 1] == nb < |s.blocks|
  }

  ghost predicate ConsumerOk<T>(s: Queue<T>, w: Layout<T>)
    requires RingOk(s, w)
  {
    var fb := s.frontBlock;
    match s.cons
    case CIdle => true
    case CLoadTail(_, b, bf) => b == fb && bf == s.blocks[fb].front
    case CLoadTailBlock(_, b) => b == fb
    case CReload(_) => w.t > 0
    case CLoadNext(_, b) => b == fb && w.t > 0 && w.content[0] == []
    case CNextTail(_, nb, nf) =>
      w.t > 0 && w.content[0] == [] && nb == w.ring[1] < |s.blocks| && nf == s.blocks[nb].front
    case CStoreFrontBlock(op, nb, nf) =>
      !op.Peek? && w.t > 0 && w.content[0] == [] && nb == w.ring[1] < |s.blocks| && nf == s.blocks[nb].front
                                        && LocalTailOk(s.blocks[nb]) && nf != s.blocks[nb].localTail
    case CTake(_, b, f) => b == fb && f == s.blocks[fb].front && f != s.blocks[fb].localTail && w.content[0] != []
    case CStoreFront(op, b, f, got) =>
      && !op.Peek? && b == fb && f == s.blocks[fb].front && f != s.blocks[fb].localTail
      && w.content[0] != [] && got == w.content[0][0]
  }

  ghost predicate SizesOk<T>(s: Queue<T>) {
    2 <= s.largestBlockSize
  }

  ghost predicate Inv<T>(s: Queue<T>, w: Layout<T>) {
    && RingOk(s, w)
    && ContentOk(s.blocks, w, s.cons.CStoreFront?, PendingOf(s.prod))
    && ShadowsOk(s, w)
    && ProducerOk(s, w)
    && ConsumerOk(s, w)
    && SizesOk(s)
  }

  // ------------------------------------------------------------ the layout's moves

  function NextLayout<T>(s: Queue<T>, w: Layout<T>, a: Action<T>): Layout<T>
    requires RingOk(s, w)
  {
    match a
    case Produce(_) =>
      (match s.prod
       case PStoreTail(x, _, _) => w.(content := w.content[w.t := w.content[w.t] + [x]])
       case PStoreTailBlock(x, _) =>
         if w.t + 1 < |w.ring| then w.(t := w.t + 1, content := w.content[w.t + 1 := [x]]) else w
       case PLink(x, _, nb) =>
         Inserted(w, nb)
       case _ => w)
    case Consume =>
      (match s.cons
       case CStoreFrontBlock(_, _, _) =>
         if w.t > 0 then Turned(w) else w
       case CStoreFront(_, _, _, _) =>
         if w.content[0] != [] then w.(content := w.content[0 := w.content[0][1..]]) else w
       case _ => w)
    case _ => w
  }

  // ------------------------------------------------------------ one block

  /** Constructing behind the tail. */
  lemma HoldsConstruct<T>(b: Block<T>, c: seq<T>, hole: bool, x: T)
    requires Holds(b, c, hole, None) && (hole ==> c != [])
    ensures b.data[b.tail] == None
    ensures Holds(b.(data := b.data[b.tail := Some(x)]), c, hole, Some(x))
  {
  }

  /** Storing the tail publishes the element constructed behind it. */
  lemma HoldsPublish<T>(b: Block<T>, c: seq<T>, hole: bool, x: T)
    requires Holds(b, c, hole, Some(x)) && |c| + 1 < Size(b) && (hole ==> c != [])
    ensures Holds(b.(tail := Next(b.tail, Size(b))), c + [x], hole, None)
  {
  }

  /** Moving out and destroying the first element. */
  lemma HoldsTake<T>(b: Block<T>, c: seq<T>, extra: Option<T>)
    requires Holds(b, c, false, extra) && c != []
    ensures b.data[b.front] == Some(c[0])
    ensures Holds(b.(data := b.data[b.front := None]), c, true, extra)
  {
  }

  /** Storing the front gives the slot of the first element back. */
  lemma HoldsRelease<T>(b: Block<T>, c: seq<T>, extra: Option<T>)
    requires Holds(b, c, true, extra) && c != []
    requires extra.Some? ==> |c| + 1 < Size(b)
    ensures Holds(b.(front := Next(b.front, Size(b))), c[1..], false, extra)
  {
  }

  // ------------------------------------------------------------ the ring around it

  /** Replacing the j-th block by one that holds what the new layout asks of it. */
  lemma UpdateBlock<T>(blocks: seq<Block<T>>, w: Layout<T>, hole: bool, pend: Pending<T>,
                       j: nat, b: Block<T>, c: seq<T>, hole': bool, pend': Pending<T>)
    requires Linked(blocks, w) && ContentOk(blocks, w, hole, pend) && j < |w.ring|
    requires w.ring[j] < |blocks| && b.next == blocks[w.ring[j]].next && Size(b) == Size(blocks[w.ring[j]])
    requires hole == hole' || j == 0
    requires var w' := w.(content := w.content[j := c]);
      && Holds(b, StoredAt(w', pend', j), hole' && j == 0, ExtraAt(w.t, pend', j))
      && (forall i :: 0 <= i < |w.ring| && i != j ==> StoredAt(w', pend', i) == StoredAt(w, pend, i))
      && (forall i :: 0 <= i < |w.ring| && i != j ==> ExtraAt(w.t, pend', i) == ExtraAt(w.t, pend, i))
    requires w.t < j ==> c == []
    requires 0 < j <= w.t ==> c != []
    requires 0 < j < w.t ==> |c| == |w.content[j]|
    ensures Linked(blocks[w.ring[j] := b], w.(content := w.content[j := c]))
    ensures ContentOk(blocks[w.ring[j] := b], w.(content := w.content[j := c]), hole', pend')
  {
    var blocks' := blocks[w.ring[j] := b];
    var w' := w.(content := w.content[j := c]);
    forall i | 0 <= i < |w.ring|
      ensures LinkAt(blocks', w'.ring, i) && BlockAt(blocks', w', hole', pend', i)
    {
      assert LinkAt(blocks, w.ring, i) && BlockAt(blocks, w, hole, pend, i);
      if i != j { assert Apart(w.ring, i, j); }
    }
  }

  function Inserted<T>(w: Layout<T>, nb: nat): Layout<T>
    requires w.t < |w.ring| == |w.content|
  {
    var n := |w.ring| + 1;
    w.(ring := seq(n, i requires 0 <= i < n =>
         if i <= w.t then w.ring[i] else if i == w.t + 1 then nb else w.ring[i - 1]),
       content := seq(n, i requires 0 <= i < n =>
         if i <= w.t then w.content[i] else if i == w.t + 1 then [] else w.content[i - 1]))
  }

  /** A new block is outside the ring. */
  lemma AddBlock<T>(blocks: seq<Block<T>>, w: Layout<T>, hole: bool, b: Block<T>)
    requires Linked(blocks, w) && ContentOk(blocks, w, hole, Nothing)
    ensures Linked(blocks + [b], w) && ContentOk(blocks + [b], w, hole, Nothing)
    ensures |blocks| !in w.ring
  {
    forall i | 0 <= i < |w.ring|
      ensures w.ring[i] < |blocks|
      ensures LinkAt(blocks + [b], w.ring, i) && BlockAt(blocks + [b], w, hole, Nothing, i)
    {
      assert LinkAt(blocks, w.ring, i) && BlockAt(blocks, w, hole, Nothing, i);
    }
  }

  /** Linking a filled block in behind the tail block. */
  lemma InsertBlock<T>(blocks: seq<Block<T>>, w: Layout<T>, hole: bool, nb: nat, x: T)
    requires Linked(blocks, w) && ContentOk(blocks, w, hole, Nothing) && w.ring[w.t] < |blocks|
    requires nb < |blocks| && nb !in w.ring
    requires blocks[nb].next == blocks[w.ring[w.t]].next && Holds(blocks[nb], [x], false, None)
    ensures var tb := w.ring[w.t];
      var blocks' := blocks[tb := blocks[tb].(next := nb)];
      Linked(blocks', Inserted(w, nb)) && ContentOk(blocks', Inserted(w, nb), hole, NextFilled(x))
  {
    var tb := w.ring[w.t];
    var blocks' := blocks[tb := blocks[tb].(next := nb)];
    var w' := Inserted(w, nb);
    assert LinkAt(blocks, w.ring, w.t);
    forall i | 0 <= i < |w'.ring|
      ensures LinkAt(blocks', w'.ring, i) && BlockAt(blocks', w', hole, NextFilled(x), i)
    {
      if i != w.t + 1 {
        var k := if i <= w.t then i else i - 1;
        assert LinkAt(blocks, w.ring, k) && BlockAt(blocks, w, hole, Nothing, k);
        if k != w.t { assert Apart(w.ring, k, w.t); }
      }
    }
    InsertApart(blocks, w, nb);
  }

  lemma InsertApart<T>(blocks: seq<Block<T>>, w: Layout<T>, nb: nat)
    requires Linked(blocks, w) && nb !in w.ring
    ensures var r := Inserted(w, nb).ring; forall i, j :: 0 <= i < |r| && 0 <= j < |r| && i != j ==> Apart(r, i, j)
  {
    var r := Inserted(w, nb).ring;
    forall i, j | 0 <= i < |r| && 0 <= j < |r| && i != j ensures Apart(r, i, j) {
      if i != w.t + 1 && j != w.t + 1 {
        assert Apart(w.ring, if i <= w.t then i else i - 1, if j <= w.t then j else j - 1);
      }
    }
  }

  function Turned<T>(w: Layout<T>): Layout<T>
    requires 0 < w.t < |w.ring| == |w.content|
  {
    Layout(w.ring[1..] + [w.ring[0]], w.t - 1, w.content[1..] + [w.content[0]])
  }

  /** Moving the front on from an empty block turns the ring by one. */
  lemma TurnRing<T>(blocks: seq<Block<T>>, w: Layout<T>, pend: Pending<T>)
    requires Linked(blocks, w) && ContentOk(blocks, w, false, pend) && w.t > 0 && w.content[0] == []
    requires pend.InNext? || pend.NextFilled? ==> w.t + 1 < |w.ring|
    ensures Linked(blocks, Turned(w)) && ContentOk(blocks, Turned(w), false, pend)
  {
    var w' := Turned(w);
    forall i | 0 <= i < |w.ring|
      ensures LinkAt(blocks, w'.ring, i) && BlockAt(blocks, w', false, pend, i)
    {
      var k := Next(i, |w.ring|);
      assert LinkAt(blocks, w.ring, k) && BlockAt(blocks, w, false, pend, k);
    }
    forall i, j | 0 <= i < |w'.ring| && 0 <= j < |w'.ring| && i != j ensures Apart(w'.ring, i, j) {
      assert Apart(w.ring, Next(i, |w.ring|), Next(j, |w.ring|));
    }
  }

  lemma At<T>(s: Queue<T>, w: Layout<T>, i: nat)
    requires RingOk(s, w) && ContentOk(s.blocks, w, s.cons.CStoreFront?, PendingOf(s.prod)) && i < |w.ring|
    ensures BlockAt(s.blocks, w, s.cons.CStoreFront?, PendingOf(s.prod), i)
    ensures LinkAt(s.blocks, w.ring, i)
  {
  }

  /** The blocks either thread may be at are distinct. */
  lemma Distinct<T>(s: Queue<T>, w: Layout<T>)
    requires RingOk(s, w)
    ensures w.t > 0 ==> w.ring[0] != w.ring[w.t]
    ensures w.t + 1 < |w.ring| ==> w.ring[w.t + 1] != w.ring[0] && w.ring[w.t + 1] != w.ring[w.t]
    ensures w.t > 0 && w.t + 1 < |w.ring| ==> w.ring[w.t + 1] != w.ring[1]
    ensures w.t > 1 ==> w.ring[1] != w.ring[w.t]
    ensures 1 < |w.ring| ==> w.ring[1] != w.ring[0]
  {
    if w.t > 0 { assert Apart(w.ring, 0, w.t); }
    if w.t > 1 { assert Apart(w.ring, 1, w.t); }
    if 1 < |w.ring| { assert Apart(w.ring, 1, 0); }
    if w.t + 1 < |w.ring| {
      assert Apart(w.ring, w.t + 1, 0) && Apart(w.ring, w.t + 1, w.t);
      if w.t > 0 { assert Apart(w.ring, w.t + 1, 1); }
    }
  }

  // ------------------------------------------------------------ producer steps

  lemma StartEnqueueKeeps<T>(s: Queue<T>, w: Layout<T>, x: T, alloc: bool)
    requires Inv(s, w) && s.prod.PIdle?
    ensures ProducerSafe(s) && Inv(StartEnqueue(s, x, alloc).next, w)
  {
    Distinct(s, w);
    At(s, w, w.t);
  }

  lemma LoadFrontKeeps<T>(s: Queue<T>, w: Layout<T>, ok: bool)
    requires Inv(s, w) && s.prod.PLoadFront?
    ensures ProducerSafe(s) && Inv(ProducerStep(s, ok).next, w)
  {
    Distinct(s, w);
    At(s, w, w.t);
    var b := s.blocks[s.tailBlock];
    UpdateBlock(s.blocks, w, s.cons.CStoreFront?, Nothing, w.t, b.(localFront := b.front), w.content[w.t],
                s.cons.CStoreFront?, Nothing);
    assert w.content == w.content[w.t := w.content[w.t]];
  }

  lemma ConstructKeeps<T>(s: Queue<T>, w: Layout<T>, ok: bool)
    requires Inv(s, w) && s.prod.PConstruct?
    ensures ProducerSafe(s) && Inv(ProducerStep(s, ok).next, w)
  {
    Distinct(s, w);
    At(s, w, w.t);
    var b := s.blocks[s.tailBlock];
    HoldsConstruct(b, w.content[w.t], s.cons.CStoreFront? && w.t == 0, s.prod.x);
    UpdateBlock(s.blocks, w, s.cons.CStoreFront?, Nothing, w.t, b.(data := b.data[b.tail := Some(s.prod.x)]),
                w.content[w.t], s.cons.CStoreFront?, BehindTail(s.prod.x));
    assert w.content == w.content[w.t := w.content[w.t]];
  }

  lemma StoreTailKeeps<T>(s: Queue<T>, w: Layout<T>, ok: bool)
    requires Inv(s, w) && s.prod.PStoreTail?
    ensures ProducerSafe(s) && Inv(ProducerStep(s, ok).next, NextLayout(s, w, Produce(ok)))
  {
    Distinct(s, w);
    At(s, w, w.t);
    TailStored(s, w);
  }

  lemma TailStored<T>(s: Queue<T>, w: Layout<T>)
    requires Inv(s, w) && s.prod.PStoreTail?
    ensures var blocks' := s.blocks[s.tailBlock := s.blocks[s.tailBlock].(tail := s.prod.nt)];
      var w' := w.(content := w.content[w.t := w.content[w.t] + [s.prod.x]]);
      Linked(blocks', w') && ContentOk(blocks', w', s.cons.CStoreFront?, Nothing)
  {
    At(s, w, w.t);
    var b := s.blocks[s.tailBlock];
    HoldsPublish(b, w.content[w.t], s.cons.CStoreFront? && w.t == 0, s.prod.x);
    UpdateBlock(s.blocks, w, s.cons.CStoreFront?, BehindTail(s.prod.x), w.t, b.(tail := s.prod.nt),
                w.content[w.t] + [s.prod.x], s.cons.CStoreFront?, Nothing);
  }

  lemma LoadFrontBlockKeeps<T>(s: Queue<T>, w: Layout<T>, ok: bool)
    requires Inv(s, w) && s.prod.PLoadFrontBlock?
    ensures ProducerSafe(s) && Inv(ProducerStep(s, ok).next, w)
  {
    Distinct(s, w);
    At(s, w, w.t);
  }

  lemma NextFrontKeeps<T>(s: Queue<T>, w: Layout<T>, ok: bool)
    requires Inv(s, w) && s.prod.PNextFront?
    ensures ProducerSafe(s) && Inv(ProducerStep(s, ok).next, w)
  {
    Distinct(s, w);
    At(s, w, w.t);
    At(s, w, w.t + 1);
    var b := s.blocks[w.ring[w.t + 1]];
    UpdateBlock(s.blocks, w, s.cons.CStoreFront?, Nothing, w.t + 1, b.(localFront := b.front), [], s.cons.CStoreFront?,
                Nothing);
    assert w.content == w.content[w.t + 1 := []];
  }

  lemma NextTailKeeps<T>(s: Queue<T>, w: Layout<T>, ok: bool)
    requires Inv(s, w) && s.prod.PNextTail?
    ensures ProducerSafe(s) && Inv(ProducerStep(s, ok).next, w)
  {
    Distinct(s, w);
    At(s, w, w.t + 1);
    var b := s.blocks[w.ring[w.t + 1]];
    UpdateBlock(s.blocks, w, s.cons.CStoreFront?, Nothing, w.t + 1, b.(localFront := b.front), [], s.cons.CStoreFront?,
                Nothing);
    assert w.content == w.content[w.t + 1 := []];
  }

  lemma NextConstructKeeps<T>(s: Queue<T>, w: Layout<T>, ok: bool)
    requires Inv(s, w) && s.prod.PNextConstruct?
    ensures ProducerSafe(s) && Inv(ProducerStep(s, ok).next, w)
  {
    Distinct(s, w);
    At(s, w, w.t + 1);
    var b := s.blocks[w.ring[w.t + 1]];
    HoldsConstruct(b, [], false, s.prod.x);
    UpdateBlock(s.blocks, w, s.cons.CStoreFront?, Nothing, w.t + 1, b.(data := b.data[b.tail := Some(s.prod.x)]), [],
                s.cons.CStoreFront?, InNext(s.prod.x));
    assert w.content == w.content[w.t + 1 := []];
  }

  lemma NextStoreTailKeeps<T>(s: Queue<T>, w: Layout<T>, ok: bool)
    requires Inv(s, w) && s.prod.PNextStoreTail?
    ensures ProducerSafe(s) && Inv(ProducerStep(s, ok).next, w)
  {
    Distinct(s, w);
    At(s, w, w.t + 1);
    var b := s.blocks[w.ring[w.t + 1]];
    HoldsPublish(b, [], false, s.prod.x);
    assert [] + [s.prod.x] == [s.prod.x];
    UpdateBlock(s.blocks, w, s.cons.CStoreFront?, InNext(s.prod.x), w.t + 1, b.(tail := Next(b.tail, Size(b))), [],
                s.cons.CStoreFront?, NextFilled(s.prod.x));
    assert w.content == w.content[w.t + 1 := []];
  }

  lemma StoreTailBlockKeeps<T>(s: Queue<T>, w: Layout<T>, ok: bool)
    requires Inv(s, w) && s.prod.PStoreTailBlock?
    ensures ProducerSafe(s) && Inv(ProducerStep(s, ok).next, NextLayout(s, w, Produce(ok)))
  {
    Distinct(s, w);
    At(s, w, w.t + 1);
    var w' := NextLayout(s, w, Produce(ok));
    assert Linked(s.blocks, w');
    forall i | 0 <= i < |w.ring| ensures BlockAt(s.blocks, w', s.cons.CStoreFront?, Nothing, i) {
      assert BlockAt(s.blocks, w, s.cons.CStoreFront?, PendingOf(s.prod), i);
    }
  }

  lemma AllocKeeps<T>(s: Queue<T>, w: Layout<T>, ok: bool)
    requires Inv(s, w) && s.prod.PAlloc?
    ensures ProducerSafe(s) && Inv(ProducerStep(s, ok).next, w)
  {
    Distinct(s, w);
    At(s, w, w.t);
    if ok {
      var s' := ProducerStep(s, ok).next;
      AddBlock(s.blocks, w, s.cons.CStoreFront?, s'.blocks[|s.blocks|]);
    }
  }

  lemma LinkKeeps<T>(s: Queue<T>, w: Layout<T>, ok: bool)
    requires Inv(s, w) && s.prod.PLink?
    ensures ProducerSafe(s) && Inv(ProducerStep(s, ok).next, NextLayout(s, w, Produce(ok)))
  {
    Distinct(s, w);
    At(s, w, w.t);
    InsertBlock(s.blocks, w, s.cons.CStoreFront?, s.prod.nb, s.prod.x);
  }

  // ------------------------------------------------------------ consumer steps

  lemma StartConsumeKeeps<T>(s: Queue<T>, w: Layout<T>, op: Op)
    requires Inv(s, w) && s.cons.CIdle?
    ensures ConsumerSafe(s) && Inv(StartConsume(s, op).next, w)
  {
    Distinct(s, w);
    At(s, w, 0);
  }

  lemma LoadTailKeeps<T>(s: Queue<T>, w: Layout<T>)
    requires Inv(s, w) && s.cons.CLoadTail?
    ensures ConsumerSafe(s) && Inv(ConsumerStep(s).next, w)
  {
    Distinct(s, w);
    At(s, w, 0);
    var b := s.blocks[s.frontBlock];
    UpdateBlock(s.blocks, w, false, PendingOf(s.prod), 0, b.(localTail := b.tail), w.content[0], false,
                PendingOf(s.prod));
    assert w.content == w.content[0 := w.content[0]];
  }

  lemma LoadTailBlockKeeps<T>(s: Queue<T>, w: Layout<T>)
    requires Inv(s, w) && s.cons.CLoadTailBlock?
    ensures ConsumerSafe(s) && Inv(ConsumerStep(s).next, w)
  {
    Distinct(s, w);
  }

  lemma ReloadKeeps<T>(s: Queue<T>, w: Layout<T>)
    requires Inv(s, w) && s.cons.CReload?
    ensures ConsumerSafe(s) && Inv(ConsumerStep(s).next, w)
  {
    Distinct(s, w);
    At(s, w, 0);
    var b := s.blocks[s.frontBlock];
    UpdateBlock(s.blocks, w, false, PendingOf(s.prod), 0, b.(localTail := b.tail), w.content[0], false,
                PendingOf(s.prod));
    assert w.content == w.content[0 := w.content[0]];
  }

  lemma LoadNextKeeps<T>(s: Queue<T>, w: Layout<T>)
    requires Inv(s, w) && s.cons.CLoadNext?
    ensures ConsumerSafe(s) && Inv(ConsumerStep(s).next, w)
  {
    Distinct(s, w);
    At(s, w, 0);
    At(s, w, 1);
  }

  lemma NextTailReadKeeps<T>(s: Queue<T>, w: Layout<T>)
    requires Inv(s, w) && s.cons.CNextTail?
    ensures ConsumerSafe(s) && Inv(ConsumerStep(s).next, w)
    ensures s.cons.op.Peek? ==> w.content[1] != [] && ConsumerStep(s).event == Peeked(w.content[1][0])
  {
    Distinct(s, w);
    At(s, w, 1);
    var b := s.blocks[w.ring[1]];
    UpdateBlock(s.blocks, w, false, PendingOf(s.prod), 1, b.(localTail := b.tail), w.content[1], false,
                PendingOf(s.prod));
    assert w.content == w.content[1 := w.content[1]];
  }

  lemma StoreFrontBlockKeeps<T>(s: Queue<T>, w: Layout<T>)
    requires Inv(s, w) && s.cons.CStoreFrontBlock?
    ensures ConsumerSafe(s) && Inv(ConsumerStep(s).next, NextLayout(s, w, Consume))
  {
    Distinct(s, w);
    At(s, w, 1);
    TurnRing(s.blocks, w, PendingOf(s.prod));
  }

  lemma TakeKeeps<T>(s: Queue<T>, w: Layout<T>)
    requires Inv(s, w) && s.cons.CTake?
    ensures ConsumerSafe(s) && Inv(ConsumerStep(s).next, w)
    ensures s.cons.op.Peek? ==> w.content[0] != [] && ConsumerStep(s).event == Peeked(w.content[0][0])
  {
    Distinct(s, w);
    At(s, w, 0);
    var b := s.blocks[s.frontBlock];
    HoldsTake(b, w.content[0], ExtraAt(w.t, PendingOf(s.prod), 0));
    UpdateBlock(s.blocks, w, false, PendingOf(s.prod), 0, b.(data := b.data[b.front := None]), w.content[0], true,
                PendingOf(s.prod));
    assert w.content == w.content[0 := w.content[0]];
  }

  lemma StoreFrontKeeps<T>(s: Queue<T>, w: Layout<T>)
    requires Inv(s, w) && s.cons.CStoreFront?
    ensures ConsumerSafe(s) && Inv(ConsumerStep(s).next, NextLayout(s, w, Consume))
  {
    Distinct(s, w);
    At(s, w, 0);
    FrontStored(s, w);
  }

  lemma FrontStored<T>(s: Queue<T>, w: Layout<T>)
    requires Inv(s, w) && s.cons.CStoreFront?
    ensures var b := s.blocks[s.frontBlock];
      var blocks' := s.blocks[s.frontBlock := b.(front := Next(b.front, Size(b)))];
      var w' := w.(content := w.content[0 := w.content[0][1..]]);
      Linked(blocks', w') && ContentOk(blocks', w', false, PendingOf(s.prod))
  {
    At(s, w, 0);
    var b := s.blocks[s.frontBlock];
    HoldsRelease(b, w.content[0], ExtraAt(w.t, PendingOf(s.prod), 0));
    UpdateBlock(s.blocks, w, true, PendingOf(s.prod), 0, b.(front := Next(b.front, Size(b))), w.content[0][1..], false,
                PendingOf(s.prod));
  }
}
