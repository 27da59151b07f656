/** A transport: receive buffer, packet under construction, and send queue, updated in place. */
module Transport {
  import opened Bytes
  import opened Framing
  import opened Sending

  /** What the kernel answers to one receive. */
  datatype Recv = NotReady | Received(bytes: Text) | Broken(error: int)

  const EOF_ERROR: int := -20
  const INVALID_PACKET: int := -27

  /** The kernel delivers no more than there is room for behind the bytes left over. */
  function Heard(r: Recv, pending: nat): (h: Recv)
    ensures h.Received? ==> pending <= RECEIVE_BUFFER ==> |h.bytes| <= RECEIVE_BUFFER - pending
    ensures h.Broken? <==> r.Broken?
  {
    var room := if pending <= RECEIVE_BUFFER then RECEIVE_BUFFER - pending else 0;
    if r.Received? && |r.bytes| > room then Received(r.bytes[..room]) else r
  }

  class IoTransport {
    const slot: nat               // the memory it lives in
    const id: nat
    const channel: nat
    const socket: nat
    const params: Params
    const tcp: bool
    const buffer: array<Byte>
    var offset: nat
    var expectedSize: int
    var expectedPacket: Text
    ghost var head: Text          // what was stripped of the packet under construction
    var delivered: seq<Text>      // packets handed to the event queue
    var sendQueue: seq<Op>
    var completed: seq<Completion>
    ghost var wire: Text          // bytes the kernel took
    var polloutRegistered: bool
    var closeMask: bool
    var error: int

    ghost function RxState(): Rx
      requires offset <= buffer.Length
      reads this, buffer
    {
      Rx(buffer[..offset], expectedSize, expectedPacket, head, delivered, false)
    }

    ghost function TxState(): Tx
      reads this
    {
      Tx(sendQueue, completed, wire, polloutRegistered)
    }

    ghost predicate Valid()
      reads this, buffer
    {
      && ValidParams(params) && buffer.Length == RECEIVE_BUFFER
      && offset <= buffer.Length
      && RxOk(params, RxState())
      && TxOk(TxState())
    }

    constructor (slot: nat, id: nat, channel: nat, socket: nat, params: Params, tcp: bool)
      requires ValidParams(params)
      ensures Valid() && RxState() == IDLE && TxState() == QUIET && !closeMask && error == 0
      ensures this.slot == slot && this.id == id && this.channel == channel && this.socket == socket
      ensures this.params == params && this.tcp == tcp && fresh(buffer)
    {
      this.slot, this.id, this.channel, this.socket := slot, id, channel, socket;
      this.params, this.tcp := params, tcp;
      buffer := new Byte[RECEIVE_BUFFER](_ => 0);
      offset, expectedSize, expectedPacket, head, delivered := 0, -1, [], [], [];
      sendQueue, completed, wire, polloutRegistered, closeMask, error := [], [], [], false, false, 0;
    }

    /** The receive: the kernel puts the bytes behind the leftover ones. */
    method Fill(bytes: Text)
      requires offset + |bytes| <= buffer.Length
      modifies buffer
      ensures buffer[..offset] == old(buffer[..offset])
      ensures buffer[..offset + |bytes|] == old(buffer[..offset]) + bytes
    {
      forall i | 0 <= i < |bytes| { buffer[offset + i] := bytes[i]; }
    }

    /** Move bytes to the head of the buffer; the ranges may overlap. */
    method MoveDown(from: nat, count: nat)
      requires from + count <= buffer.Length
      modifies buffer
      ensures buffer[..count] == old(buffer[from..from + count])
    {
      forall i | 0 <= i < count { buffer[i] := buffer[from + i]; }
    }

    /** `unpack` with `n` new bytes behind the leftover ones; the result says that bytes are
        left and the next turn must not wait. */
    method Unpack(want: nat, n: nat, strip: nat) returns (again: bool)
      requires offset + n <= buffer.Length && strip <= Min(want, offset + n)
      modifies this`offset, this`expectedSize, this`expectedPacket, this`head, this`delivered, buffer
      ensures offset <= buffer.Length
      ensures RxState() == Take(old(RxState()), old(buffer[..offset + n]), want, strip)
      ensures again <==> old(offset) + n > want
    {
      var available := offset + n;
      ghost var was := buffer[..available];
      assert buffer[strip..Min(want, available)] == was[strip..Min(want, available)];
      expectedPacket := expectedPacket + buffer[strip..Min(want, available)];
      again := false;
      if available >= want {
        offset := available - want;
        assert buffer[want..want + offset] == was[want..];
        if offset > 0 {
          MoveDown(want, offset);
          again := true;
        }
        delivered := delivered + [expectedPacket];
        expectedSize, expectedPacket, head := -1, [], [];
      } else {
        offset := 0;
        head := head + was[..strip];
      }
    }

    /** The part of `do_read` after the receive, with `n` new bytes in the buffer. */
    method Process(n: nat, ghost was: Rx) returns (ok: bool, again: bool)
      requires ValidParams(params) && buffer.Length == RECEIVE_BUFFER && offset + n <= buffer.Length
      requires RxState() == was && RxOk(params, was)
      modifies this`offset, this`expectedSize, this`expectedPacket, this`head, this`delivered, this`error, buffer
      ensures offset <= buffer.Length
      ensures var r := Read(params, was, old(buffer[offset..offset + n]));
        && ok == !r.failed
        && (if ok then RxState() == r && error == old(error) else RxState() == was && error == INVALID_PACKET)
        && (ok ==> |r.delivered| >= |was.delivered| && (again <==> |r.delivered| > |was.delivered| && r.pending != []))
    {
      ok, again := true, false;
      ghost var fresh_ := buffer[offset..offset + n];
      assert buffer[..offset + n] == was.pending + fresh_;
      if expectedSize == -1 {
        var length := DecodeLen(params, buffer[..offset + n]);
        if length > 0 {
          if length < params.strip {
            error := INVALID_PACKET;
            return false, false;
          }
          expectedSize := length;
          again := Unpack(length, n, params.strip);
        } else if length == 0 { // header insufficient
          offset := offset + n;
        } else {
          error := INVALID_PACKET;
          return false, false;
        }
      } else { // process incomplete pdu
        again := Unpack(expectedSize - (|expectedPacket| + params.strip), n, 0);
      }
    }

    /** `do_read` with an answer of the kernel: the transport goes on, or fails. It asks for another
        turn at once exactly if it leaves bytes behind a packet; else its buffer holds no complete frame. */
    method DoRead(r: Recv) returns (ok: bool, again: bool)
      requires Valid()
      modifies this`offset, this`expectedSize, this`expectedPacket, this`head, this`delivered, this`error, buffer
      ensures Valid()
      ensures var h, rx := Heard(r, old(offset)), old(RxState());
        && (ok <==> !h.Broken? && !(tcp && h == Received([])) && !Read(params, rx, Chunk(h)).failed)
        && RxState() == (if ok then Read(params, rx, Chunk(h)) else rx)
        && error == (if ok then old(error) else if h.Broken? then h.error
                     else if tcp && h == Received([]) then EOF_ERROR else INVALID_PACKET)
      ensures |delivered| >= |old(delivered)|
      ensures ok ==> (again <==> |delivered| > |old(delivered)| && offset > 0)
      ensures ok ==> again || Drained(params, RxState())
    {
      var h := Heard(r, offset);
      if h.Broken? {
        error := h.error;
        return false, false;
      }
      if tcp && h == Received([]) {
        error := EOF_ERROR;
        return false, false;
      }
      ok, again := Accept(Chunk(h));
    }

    /** A receive that did not fail. */
    method Accept(bytes: Text) returns (ok: bool, again: bool)
      requires Valid() && |bytes| <= buffer.Length - offset
      modifies this`offset, this`expectedSize, this`expectedPacket, this`head, this`delivered, this`error, buffer
      ensures Valid() && ok == !Read(params, old(RxState()), bytes).failed
      ensures ok ==> RxState() == Read(params, old(RxState()), bytes) && error == old(error)
      ensures |delivered| >= |old(delivered)|
      ensures ok ==> (again <==> |delivered| > |old(delivered)| && offset > 0)
      ensures ok ==> again || Drained(params, RxState())
      ensures !ok ==> RxState() == old(RxState()) && error == INVALID_PACKET
    {
      ghost var rx := RxState();
      ReadKeepsOk(params, rx, bytes);
      Fill(bytes);
      assert buffer[offset..offset + |bytes|] == bytes;
      ok, again := Process(|bytes|, rx);
      if ok && !again { NothingLeft(params, rx, bytes); }
    }

    /** `write`: a buffer is queued only if it is not empty. */
    method Write(id: nat, data: Text)
      requires Valid()
      modifies this`sendQueue
      ensures Valid() && TxState() == Sending.Write(old(TxState()), id, data)
      ensures DoneIds(completed) + Ids(sendQueue) ==
        old(DoneIds(completed) + Ids(sendQueue)) + (if data == [] then [] else [id])
    {
      if data != [] { sendQueue := sendQueue + [Op(id, data, 0)]; }
    }

    /** `do_write` with an answer of the kernel, and what it asks of the watcher. What is left to send
        has write interest or forbids waiting, if the flag was right about the watcher. */
    method DoWrite(k: Kernel) returns (ok: bool, again: bool, interest: Interest)
      requires Valid()
      modifies this`sendQueue, this`completed, this`wire, this`polloutRegistered, this`error
      ensures Valid() && RxState() == old(RxState())
      ensures Turn(TxState(), ok, again, interest) == old(Sending.DoWrite(TxState(), Clip(k, TxState()), !tcp))
      ensures error == (if ok then old(error) else k.error) && (!ok ==> k.Fails?)
      ensures ok && sendQueue != [] ==> Watched(interest, old(polloutRegistered)) || again
    {
      var answer := Clip(k, Tx(sendQueue, completed, [], polloutRegistered));
      NoWorkIsSleptOn(TxState(), answer, !tcp, polloutRegistered);
      again, interest := false, Keep;
      var full := false;
      if sendQueue != [] {
        ok := CallWrite(answer);
        if !ok { return false, false, Keep; }
        full := answer.WouldBlock? || answer.NoBuffers?;
      }
      var noWriteEvent := sendQueue == [];
      if !noWriteEvent {
        noWriteEvent := !full;
        if !noWriteEvent {
          if !polloutRegistered {
            interest := AddWrite;
            polloutRegistered := true;
          }
        } else {
          again := true;
        }
      }
      if noWriteEvent && polloutRegistered {
        interest := DropWrite;
        polloutRegistered := false;
      }
      ok := true;
    }

    /** `call_write` on the head of the queue. */
    method CallWrite(k: Kernel) returns (ok: bool)
      requires TxOk(TxState()) && Possible(TxState(), k) && sendQueue != []
      modifies this`sendQueue, this`completed, this`wire, this`error
      ensures (TxState(), !ok) == old(Sending.CallWrite(TxState(), k, !tcp))
      ensures error == (if ok then old(error) else k.error) && (!ok ==> k.Fails?)
    {
      ok := true;
      var op := sendQueue[0];
      match k {
        case Accepts(n) =>
          wire := wire + op.data[op.sent..op.sent + n];
          op := op.(sent := op.sent + n);
          if n > 0 && op.sent == |op.data| {
            CompleteOp(op, 0);
          } else {
            sendQueue := [op] + sendQueue[1..];
          }
        case Fails(e) =>
          if !tcp {
            CompleteOp(op, e);
          } else {
            error := e;
            ok := false;
          }
        case _ =>
      }
    }

    /** `complete_op`: call the handler and drop the buffer; handlers called and buffers queued stay
        the writes in order. */
    method CompleteOp(op: Op, e: int)
      requires sendQueue != [] && op.id == sendQueue[0].id
      modifies this`sendQueue, this`completed
      ensures DoneIds(completed) + Ids(sendQueue) == old(DoneIds(completed) + Ids(sendQueue))
      ensures sendQueue == old(sendQueue[1..]) && completed == old(completed) + [Completion(op.id, e, op.sent)]
    {
      completed := completed + [Completion(op.id, e, op.sent)];
      sendQueue := sendQueue[1..];
    }
  }

  function Chunk(r: Recv): Text { if r.Received? then r.bytes else [] }

  /** A read that leaves no bytes behind a delivered packet leaves a drained receiver. */
  lemma NothingLeft(p: Params, r: Rx, chunk: Text)
    requires ValidParams(p) && RxOk(p, r) && !Read(p, r, chunk).failed
    requires |Read(p, r, chunk).delivered| > |r.delivered| ==> Read(p, r, chunk).pending == []
    ensures RxOk(p, Read(p, r, chunk)) && Drained(p, Read(p, r, chunk))
  {
    var r' := Read(p, r, chunk);
    assert r'.pending + [] == r'.pending && r'.packet + [] == r'.packet && r'.head + [] == r'.head;
  }
}
