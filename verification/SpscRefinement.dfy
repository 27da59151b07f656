/** Every interleaving of one producer and one consumer refines a FIFO sequence. */
module SpscRefinement {
  import opened Spsc
  import opened SpscInvariant
  import opened Sequences

  // ------------------------------------------------------------ the specification

  /** The answers that a FIFO sequence with elements q allows. */
  ghost predicate Allowed<T>(q: seq<T>, e: Label<T>) {
    match e
    case Dequeued(x) => q != [] && q[0] == x
    case Popped => q != []
    case Peeked(x) => q != [] && q[0] == x
    case Fault => false
    case _ => true
  }

  /** The elements after an event. */
  function After<T>(q: seq<T>, e: Label<T>): seq<T> {
    match e
    case Enqueued(x) => q + [x]
    case Dequeued(_) => if q == [] then q else q[1..]
    case Popped => if q == [] then q else q[1..]
    case _ => q
  }

  ghost predicate FifoRun<T>(q: seq<T>, es: seq<Label<T>>)
    decreases |es|
  {
    es == [] || (Allowed(q, es[0]) && FifoRun(After(q, es[0]), es[1..]))
  }

  function FifoEnd<T>(q: seq<T>, es: seq<Label<T>>): seq<T>
    decreases |es|
  {
    if es == [] then q else FifoEnd(After(q, es[0]), es[1..])
  }

  // ------------------------------------------------------------ runs

  ghost predicate CanRun<T>(s: Queue<T>, acts: seq<Action<T>>)
    decreases |acts|
  {
    acts == [] || (Enabled(s, acts[0]) && CanRun(Step(s, acts[0]).next, acts[1..]))
  }

  ghost function Exec<T>(s: Queue<T>, acts: seq<Action<T>>): Queue<T>
    requires CanRun(s, acts)
    decreases |acts|
  {
    if acts == [] then s else Exec(Step(s, acts[0]).next, acts[1..])
  }

  ghost function Events<T>(s: Queue<T>, acts: seq<Action<T>>): seq<Label<T>>
    requires CanRun(s, acts)
    decreases |acts|
  {
    if acts == [] then [] else [Step(s, acts[0]).event] + Events(Step(s, acts[0]).next, acts[1..])
  }

  // ------------------------------------------------------------ the elements of a layout

  ghost function Flat<T>(c: seq<seq<T>>): seq<T> { if c == [] then [] else c[0] + Flat(c[1..]) }

  lemma {:induction false} FlatAppend<T>(a: seq<seq<T>>, b: seq<seq<T>>)
    ensures Flat(a + b) == Flat(a) + Flat(b)
  {
    if a == [] {
      assert a + b == b;
    } else {
      FlatAppend(a[1..], b);
      assert (a + b)[1..] == a[1..] + b;
      Associative(a[0], Flat(a[1..]), Flat(b));
    }
  }

  lemma {:induction false} FlatEmpty<T>(c: seq<seq<T>>)
    requires forall i :: 0 <= i < |c| ==> c[i] == []
    ensures Flat(c) == []
  {
    if c != [] { FlatEmpty(c[1..]); }
  }

  lemma FlatPush<T>(c: seq<seq<T>>, t: nat, x: T)
    requires t < |c| && forall i :: t < i < |c| ==> c[i] == []
    ensures Flat(c[t := c[t] + [x]]) == Flat(c) + [x]
  {
    var c' := c[t := c[t] + [x]];
    assert c == c[..t] + ([c[t]] + c[t + 1..]) && c' == c[..t] + ([c[t] + [x]] + c[t + 1..]);
    FlatAppend(c[..t], [c[t]] + c[t + 1..]);
    FlatAppend(c[..t], [c[t] + [x]] + c[t + 1..]);
    FlatEmpty(c[t + 1..]);
    assert ([c[t]] + c[t + 1..])[1..] == c[t + 1..] && ([c[t] + [x]] + c[t + 1..])[1..] == c[t + 1..];
  }

  lemma FlatTurn<T>(c: seq<seq<T>>)
    requires c != [] && c[0] == []
    ensures Flat(c[1..] + [c[0]]) == Flat(c)
  {
    FlatAppend(c[1..], [c[0]]);
    assert [c[0]][1..] == [];
  }

  lemma FlatInsert<T>(a: seq<seq<T>>, e: seq<T>, b: seq<seq<T>>)
    requires e == []
    ensures Flat(a + ([e] + b)) == Flat(a + b)
  {
    FlatAppend(a, [e] + b);
    FlatAppend(a, b);
    assert ([e] + b)[1..] == b;
  }

  // ------------------------------------------------------------ one step

  /** The elements in the queue: those of all blocks, front block first. */
  ghost function Elements<T>(w: Layout<T>): seq<T> { Flat(w.content) }

  /** A step neither fails an assertion nor touches a wrong slot, keeps the ring invariant,
      and does to the elements what its event says. */
  ghost predicate Good<T>(s: Queue<T>, w: Layout<T>, a: Action<T>)
    requires RingOk(s, w) && Enabled(s, a)
  {
    var o := Step(s, a);
    var w' := NextLayout(s, w, a);
    Inv(o.next, w') && Allowed(Elements(w), o.event) && Elements(w') == After(Elements(w), o.event)
  }

  lemma ProducerGood<T>(s: Queue<T>, w: Layout<T>, a: Action<T>)
    requires Inv(s, w) && a.Produce? && Enabled(s, a)
    ensures Good(s, w, a)
  {
    var ok := a.allocOk;
    match s.prod
    case PLoadFront(_, _, _, _, _) => LoadFrontKeeps(s, w, ok);
    case PConstruct(_, _, _, _) => ConstructKeeps(s, w, ok);
    case PStoreTail(_, _, _) => StoreTailGood(s, w, a);
    case PLoadFrontBlock(_, _, _) => LoadFrontBlockKeeps(s, w, ok);
    case PNextFront(_, _) => NextFrontKeeps(s, w, ok);
    case PNextTail(_, _, _) => NextTailKeeps(s, w, ok);
    case PNextConstruct(_, _, _) => NextConstructKeeps(s, w, ok);
    case PNextStoreTail(_, _, _) => NextStoreTailKeeps(s, w, ok);
    case PStoreTailBlock(_, _) => StoreTailBlockGood(s, w, a);
    case PAlloc(_, _) => AllocKeeps(s, w, ok);
    case PLink(_, _, _) => LinkGood(s, w, a);
  }

  lemma StoreTailGood<T>(s: Queue<T>, w: Layout<T>, a: Action<T>)
    requires Inv(s, w) && a.Produce? && s.prod.PStoreTail?
    ensures Good(s, w, a)
  {
    StoreTailKeeps(s, w, a.allocOk);
    EmptyBehind(s, w);
    FlatPush(w.content, w.t, s.prod.x);
  }

  lemma StoreTailBlockGood<T>(s: Queue<T>, w: Layout<T>, a: Action<T>)
    requires Inv(s, w) && a.Produce? && s.prod.PStoreTailBlock?
    ensures Good(s, w, a)
  {
    StoreTailBlockKeeps(s, w, a.allocOk);
    EmptyBehind(s, w);
    FlatPush(w.content, w.t + 1, s.prod.x);
    assert w.content[w.t + 1] + [s.prod.x] == [s.prod.x];
  }

  lemma LinkGood<T>(s: Queue<T>, w: Layout<T>, a: Action<T>)
    requires Inv(s, w) && a.Produce? && s.prod.PLink?
    ensures Good(s, w, a)
  {
    LinkKeeps(s, w, a.allocOk);
    InsertedFlat(w, s.prod.nb);
  }

  lemma InsertedFlat<T>(w: Layout<T>, nb: nat)
    requires w.t < |w.ring| == |w.content|
    ensures Flat(Inserted(w, nb).content) == Flat(w.content)
  {
    var a, b := w.content[..w.t + 1], w.content[w.t + 1..];
    FlatInsert(a, [], b);
    assert w.content == a + b;
    assert Inserted(w, nb).content == a + ([[]] + b);
  }

  lemma EmptyBehind<T>(s: Queue<T>, w: Layout<T>)
    requires Inv(s, w)
    ensures forall i :: w.t < i < |w.ring| ==> w.content[i] == []
  {
    forall i | w.t < i < |w.ring| ensures w.content[i] == [] { At(s, w, i); }
  }

  lemma ConsumerGood<T>(s: Queue<T>, w: Layout<T>, a: Action<T>)
    requires Inv(s, w) && a.Consume? && Enabled(s, a)
    ensures Good(s, w, a)
  {
    match s.cons
    case CLoadTail(_, _, _) => LoadTailKeeps(s, w);
    case CLoadTailBlock(_, _) => LoadTailBlockKeeps(s, w);
    case CReload(_) => ReloadKeeps(s, w);
    case CLoadNext(_, _) => LoadNextKeeps(s, w);
    case CNextTail(_, _, _) => NextTailReadKeeps(s, w); HeadOfSecond(w.content);
    case CStoreFrontBlock(_, _, _) => StoreFrontBlockKeeps(s, w); FlatTurn(w.content);
    case CTake(_, _, _) => TakeKeeps(s, w);
    case CStoreFront(_, _, _, _) => StoreFrontKeeps(s, w);
      var c' := w.content[0 := w.content[0][1..]];
      assert c'[1..] == w.content[1..];
  }

  lemma HeadOfSecond<T>(c: seq<seq<T>>)
    requires |c| > 1 && c[0] == []
    ensures c[1] != [] ==> Flat(c) != [] && Flat(c)[0] == c[1][0]
  {
    assert Flat(c) == Flat(c[1..]);
  }

  lemma StepGood<T>(s: Queue<T>, w: Layout<T>, a: Action<T>)
    requires Inv(s, w) && Enabled(s, a)
    ensures Good(s, w, a)
  {
    match a
    case CallEnqueue(x, alloc) => StartEnqueueKeeps(s, w, x, alloc);
    case Produce(_) => ProducerGood(s, w, a);
    case CallConsume(op) => StartConsumeKeeps(s, w, op);
    case Consume => ConsumerGood(s, w, a);
  }
}
