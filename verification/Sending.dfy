/** The sending side of a transport: a queue of partly sent buffers, one write attempt a turn. */
module Sending {
  import opened Bytes
  import opened Sequences

  /** A queued buffer: which write it belongs to and how much of it was sent. */
  datatype Op = Op(id: nat, data: Text, sent: nat)

  /** A call of a completion handler with its error and byte count. */
  datatype Completion = Completion(id: nat, error: int, bytes: nat)

  /** What the kernel answers to one send: bytes taken, a full buffer, an interruption, or an error. */
  datatype Kernel = Accepts(n: nat) | WouldBlock | NoBuffers | Interrupted | Fails(error: int)

  /** `registered` is the transport's flag for write interest; `wire` is what the kernel took. */
  datatype Tx = Tx(queue: seq<Op>, completed: seq<Completion>, wire: Text, registered: bool)

  /** What a turn asks of the watcher about the write interest in the transport's socket. */
  datatype Interest = Keep | AddWrite | DropWrite

  function Watched(i: Interest, before: bool): bool {
    match i case Keep => before case AddWrite => true case DropWrite => false
  }

  const QUIET := Tx([], [], [], false)

  predicate OpOk(o: Op) { o.sent < |o.data| }

  predicate TxOk(t: Tx) { forall i :: 0 <= i < |t.queue| ==> OpOk(t.queue[i]) }

  /** `io_service::write` queues a buffer only if it is not empty. */
  function Write(t: Tx, id: nat, data: Text): Tx {
    if data == [] then t else t.(queue := t.queue + [Op(id, data, 0)])
  }

  /** The kernel takes no more than it is offered. */
  predicate Possible(t: Tx, k: Kernel) {
    t.queue != [] && k.Accepts? ==> k.n <= |t.queue[0].data| - t.queue[0].sent
  }

  /** The kernel's answer when it takes no more than it is offered. */
  function Clip(k: Kernel, t: Tx): (r: Kernel)
    requires TxOk(t)
    ensures Possible(t, r) && r.Fails? == k.Fails?
  {
    if k.Accepts? && t.queue != [] && k.n > |t.queue[0].data| - t.queue[0].sent then
      assert OpOk(t.queue[0]);
      Accepts(|t.queue[0].data| - t.queue[0].sent)
    else k
  }

  /** `call_write` on the head of the queue: the new state and whether the transport fails. */
  function CallWrite(t: Tx, k: Kernel, udp: bool): (Tx, bool)
    requires TxOk(t) && Possible(t, k) && t.queue != []
  {
    var o := t.queue[0];
    match k
    case Accepts(n) =>
      var sent := o.sent + n;
      var t' := t.(wire := t.wire + o.data[o.sent..sent]);
      if sent == |o.data| && n > 0 then
        (t'.(queue := t.queue[1..], completed := t.completed + [Completion(o.id, 0, sent)]), false)
      else (t'.(queue := [o.(sent := sent)] + t.queue[1..]), false)
    case Fails(e) =>
      if udp then (t.(queue := t.queue[1..], completed := t.completed + [Completion(o.id, e, o.sent)]), false)
      else (t, true)
    case _ => (t, false)
  }

  /** A write turn: the new state, whether the transport goes on, whether the next turn must not
      wait, and what is asked of the watcher. */
  datatype Turn = Turn(tx: Tx, ok: bool, again: bool, interest: Interest)

  /** `do_write`. */
  function DoWrite(t: Tx, k: Kernel, udp: bool): Turn
    requires TxOk(t) && Possible(t, k)
  {
    var (t1, failed) := if t.queue != [] then CallWrite(t, k, udp) else (t, false);
    if failed then Turn(t1, false, false, Keep)
    else if t1.queue != [] && t.queue != [] && (k.WouldBlock? || k.NoBuffers?) then
      Turn(t1.(registered := true), true, false, if t1.registered then Keep else AddWrite)
    else Turn(t1.(registered := false), true, t1.queue != [], if t1.registered then DropWrite else Keep)
  }

  /** After a write turn that goes on, a queue that is not empty has its flag set or forbids waiting,
      and an empty one has neither; waiting is forbidden exactly if the kernel has room. The flag mirrors
      the watcher's interest exactly if it did before or the turn told the watcher: with a flag that is
      set already nothing is registered. */
  lemma NoWorkIsSleptOn(t: Tx, k: Kernel, udp: bool, watched: bool)
    requires TxOk(t) && Possible(t, k)
    ensures var r := DoWrite(t, k, udp);
      && TxOk(r.tx)
      && (r.ok && r.tx.queue != [] ==> r.tx.registered || r.again)
      && (r.ok && r.tx.queue == [] ==> !r.tx.registered && !r.again)
      && (r.ok && r.tx.queue != [] ==> (r.again <==> !k.WouldBlock? && !k.NoBuffers?))
      && (r.tx.registered == Watched(r.interest, watched) <==> t.registered == watched || r.interest != Keep)
  {
    if t.queue != [] { assert OpOk(t.queue[0]); }
  }

  // ------------------------------------------------------------ what was written

  /** The bytes still to send. */
  function Unsent(q: seq<Op>): Text {
    if q == [] then [] else (if q[0].sent <= |q[0].data| then q[0].data[q[0].sent..] else []) + Unsent(q[1..])
  }

  lemma {:induction false} UnsentAppend(q: seq<Op>, o: Op)
    requires OpOk(o)
    ensures Unsent(q + [o]) == Unsent(q) + o.data[o.sent..]
  {
    if q == [] {
      assert (q + [o])[1..] == [];
    } else {
      UnsentAppend(q[1..], o);
      assert (q + [o])[1..] == q[1..] + [o];
      assert Unsent(q + [o]) ==
        (if q[0].sent <= |q[0].data| then q[0].data[q[0].sent..] else []) + (Unsent(q[1..]) + o.data[o.sent..]);
    }
  }

  lemma UnsentHead(o: Op, rest: seq<Op>, n: nat)
    requires o.sent + n <= |o.data|
    ensures Unsent([o] + rest) == o.data[o.sent..o.sent + n] + Unsent([o.(sent := o.sent + n)] + rest)
    ensures o.sent + n == |o.data| ==> Unsent([o] + rest) == o.data[o.sent..o.sent + n] + Unsent(rest)
  {
    assert ([o] + rest)[1..] == rest && ([o.(sent := o.sent + n)] + rest)[1..] == rest;
    assert o.data[o.sent..] == o.data[o.sent..o.sent + n] + o.data[o.sent + n..];
  }

  /** A stream transport passes the bytes on in order: those taken and those queued are what was written. */
  lemma SendConserves(t: Tx, k: Kernel)
    requires TxOk(t) && Possible(t, k)
    ensures DoWrite(t, k, false).tx.wire + Unsent(DoWrite(t, k, false).tx.queue) == t.wire + Unsent(t.queue)
  {
    if t.queue != [] {
      if k.Accepts? { AcceptConserves(t, k.n); }
      assert DoWrite(t, k, false).tx.wire == CallWrite(t, k, false).0.wire;
      assert DoWrite(t, k, false).tx.queue == CallWrite(t, k, false).0.queue;
    }
  }

  lemma AcceptConserves(t: Tx, n: nat)
    requires TxOk(t) && t.queue != [] && Possible(t, Accepts(n))
    ensures var t' := CallWrite(t, Accepts(n), false).0; t'.wire + Unsent(t'.queue) == t.wire + Unsent(t.queue)
  {
    var o, rest := t.queue[0], t.queue[1..];
    assert OpOk(o) && t.queue == [o] + rest;
    UnsentHead(o, rest, n);
    Associative(t.wire, o.data[o.sent..o.sent + n], Unsent(CallWrite(t, Accepts(n), false).0.queue));
  }

  // ------------------------------------------------------------ completion handlers

  /** The writes made so far, in order. */
  function Ids(q: seq<Op>): (r: seq<nat>)
    ensures |r| == |q| && forall i :: 0 <= i < |q| ==> r[i] == q[i].id
  {
    seq(|q|, i requires 0 <= i < |q| => q[i].id)
  }

  function DoneIds(c: seq<Completion>): (r: seq<nat>)
    ensures |r| == |c| && forall i :: 0 <= i < |c| ==> r[i] == c[i].id
  {
    seq(|c|, i requires 0 <= i < |c| => c[i].id)
  }

  /** Handlers called and buffers queued are the writes in order; so each handler is called at
      most once and in queue order. */
  lemma CompletionsInOrder(t: Tx, k: Kernel, udp: bool)
    requires TxOk(t) && Possible(t, k)
    ensures var t' := DoWrite(t, k, udp).tx;
      && DoneIds(t'.completed) + Ids(t'.queue) == DoneIds(t.completed) + Ids(t.queue)
      && t.completed <= t'.completed && |t'.completed| <= |t.completed| + 1
  {
    if t.queue != [] {
      CallInOrder(t, k, udp);
      var t' := CallWrite(t, k, udp).0;
      assert DoWrite(t, k, udp).tx.completed == t'.completed && DoWrite(t, k, udp).tx.queue == t'.queue;
    }
  }

  lemma CallInOrder(t: Tx, k: Kernel, udp: bool)
    requires TxOk(t) && Possible(t, k) && t.queue != []
    ensures var t' := CallWrite(t, k, udp).0;
      && DoneIds(t'.completed) + Ids(t'.queue) == DoneIds(t.completed) + Ids(t.queue)
      && t.completed <= t'.completed && |t'.completed| <= |t.completed| + 1
  {
  }

  /** On a stream transport a handler is called without error and with the full size. */
  lemma CompletesInFull(t: Tx, k: Kernel)
    requires TxOk(t) && Possible(t, k) && |DoWrite(t, k, false).tx.completed| > |t.completed|
    ensures t.queue != []
    ensures DoWrite(t, k, false).tx.completed == t.completed + [Completion(t.queue[0].id, 0, |t.queue[0].data|)]
    ensures k.Accepts? && t.queue[0].sent + k.n == |t.queue[0].data|
  {
  }

  /** A handler is called exactly when its buffer has been taken whole, or dropped: on a datagram transport
      a send that fails. */
  lemma HandlerCalledExactly(t: Tx, k: Kernel, udp: bool)
    requires TxOk(t) && Possible(t, k)
    ensures |DoWrite(t, k, udp).tx.completed| > |t.completed| <==>
      && t.queue != []
      && ((k.Accepts? && t.queue[0].sent + k.n == |t.queue[0].data|) || (udp && k.Fails?))
  {
    if t.queue != [] { assert OpOk(t.queue[0]); }
  }

  /** A send that fails ends a stream transport, with nothing changed; on a datagram transport the buffer is
      dropped, its handler gets the kernel's error and what was sent before, and the transport goes on. */
  lemma FailureTold(t: Tx, error: int, udp: bool)
    requires TxOk(t) && t.queue != []
    ensures var r, o := DoWrite(t, Fails(error), udp), t.queue[0];
      if udp then
        && r.ok && r.tx.queue == t.queue[1..] && r.tx.wire == t.wire
        && r.tx.completed == t.completed + [Completion(o.id, error, o.sent)]
      else !r.ok && r.tx == t && r.interest == Keep
  {
  }
}
