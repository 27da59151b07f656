/** A sender's queue, a reliable byte channel and a receiver's unpacker, end to end. */
module Delivery {
  import opened Bytes
  import opened Framing
  import opened Sending
  import opened Sequences

  /** `written` are the messages written, `received` the bytes given to the receiver. */
  datatype Link = Link(written: seq<Text>, tx: Tx, inFlight: Text, rx: Rx, received: Text)

  datatype Event =
    | Submit(message: Text)
    | TurnSender(k: Kernel)
    | TurnReceiver(n: nat)     // the kernel delivers n bytes, none when n is 0

  predicate CanHappen(p: Params, l: Link, e: Event)
    requires ValidParams(p)
  {
    match e
    case Submit(_) => true
    case TurnSender(k) => TxOk(l.tx) && Possible(l.tx, k) && !k.Fails?
    case TurnReceiver(n) => RxOk(p, l.rx) && n <= |l.inFlight|
  }

  function Happen(p: Params, l: Link, e: Event): Link
    requires ValidParams(p) && CanHappen(p, l, e)
  {
    match e
    case Submit(m) => l.(written := l.written + [m], tx := Write(l.tx, |l.written|, m))
    case TurnSender(k) =>
      var t := DoWrite(l.tx, k, false).tx;
      l.(tx := t.(wire := []), inFlight := l.inFlight + t.wire)
    case TurnReceiver(n) =>
      l.(inFlight := l.inFlight[n..], rx := Read(p, l.rx, l.inFlight[..n]), received := l.received + l.inFlight[..n])
  }

  /** Bytes written are the bytes received, in flight and unsent, in this order. */
  ghost predicate Conserved(p: Params, l: Link)
    requires ValidParams(p) && p.offset >= 0
  {
    && TxOk(l.tx) && l.tx.wire == []
    && Concat(l.written) == l.received + l.inFlight + Unsent(l.tx.queue)
    && exists done, lost :: Tracks(p, l.received, l.rx, done, lost)
  }

  lemma StepConserves(p: Params, l: Link, e: Event)
    requires ValidParams(p) && p.offset >= 0 && Conserved(p, l) && CanHappen(p, l, e)
    ensures Conserved(p, Happen(p, l, e))
  {
    match e
    case Submit(m) => SubmitConserves(p, l, m);
    case TurnSender(k) => SenderConserves(p, l, k);
    case TurnReceiver(n) => ReceiverConserves(p, l, n);
  }

  lemma SenderConserves(p: Params, l: Link, k: Kernel)
    requires ValidParams(p) && p.offset >= 0 && Conserved(p, l) && CanHappen(p, l, TurnSender(k))
    ensures Conserved(p, Happen(p, l, TurnSender(k)))
  {
    SendConserves(l.tx, k);
    NoWorkIsSleptOn(l.tx, k, false, l.tx.registered);
    var t := DoWrite(l.tx, k, false).tx;
    Moved(l.received, l.inFlight, t.wire, Unsent(t.queue), Unsent(l.tx.queue));
  }

  lemma Moved(a: Text, b: Text, c: Text, d: Text, e: Text)
    requires c + d == [] + e
    ensures a + b + e == a + (b + c) + d
  {
    assert a + (b + c) + d == a + b + (c + d);
  }

  lemma ReceiverConserves(p: Params, l: Link, n: nat)
    requires ValidParams(p) && p.offset >= 0 && Conserved(p, l) && CanHappen(p, l, TurnReceiver(n))
    ensures Conserved(p, Happen(p, l, TurnReceiver(n)))
  {
    var done, lost :| Tracks(p, l.received, l.rx, done, lost);
    var done', lost' := ReadTracks(p, l.received, l.rx, done, lost, l.inFlight[..n]);
    Received(l.received, l.inFlight, n, Unsent(l.tx.queue));
  }

  lemma Received(a: Text, b: Text, n: nat, c: Text)
    requires n <= |b|
    ensures a + b[..n] + b[n..] + c == a + b + c
  {
    assert b == b[..n] + b[n..];
    Associative(a, b[..n], b[n..]);
  }

  lemma SubmitConserves(p: Params, l: Link, m: Text)
    requires ValidParams(p) && p.offset >= 0 && Conserved(p, l)
    ensures Conserved(p, Happen(p, l, Submit(m)))
  {
    ConcatAppend(l.written, [m]);
    assert Concat([m]) == m;
    if m != [] {
      var o := Op(|l.written|, m, 0);
      UnsentAppend(l.tx.queue, o);
      assert m[0..] == m;
    }
    Associative(l.received + l.inFlight, Unsent(l.tx.queue), m);
  }

  predicate CanRun(p: Params, l: Link, es: seq<Event>)
    requires ValidParams(p)
    decreases |es|
  {
    es == [] || (CanHappen(p, l, es[0]) && CanRun(p, Happen(p, l, es[0]), es[1..]))
  }

  function Run(p: Params, l: Link, es: seq<Event>): Link
    requires ValidParams(p) && CanRun(p, l, es)
    decreases |es|
  {
    if es == [] then l else Run(p, Happen(p, l, es[0]), es[1..])
  }

  lemma {:induction false} RunConserves(p: Params, l: Link, es: seq<Event>)
    requires ValidParams(p) && p.offset >= 0 && Conserved(p, l) && CanRun(p, l, es)
    ensures Conserved(p, Run(p, l, es))
    decreases |es|
  {
    if es != [] {
      StepConserves(p, l, es[0]);
      RunConserves(p, Happen(p, l, es[0]), es[1..]);
    }
  }

  // ------------------------------------------------------------ messages that frame themselves

  /** The length field of the message is the length of the message. */
  predicate WellFormed(p: Params, m: Text)
    requires ValidParams(p)
  {
    HeaderComplete(p, m) && DecodeLen(p, m) == |m| > 0 && p.strip <= |m|
  }

  /** The parser cuts a prefix of the joined messages into the first messages, and all of them
      when it has everything. */
  lemma {:induction false} ParseMessages(p: Params, ms: seq<Text>, s: Text, more: Text)
    requires ValidParams(p) && p.offset >= 0 && Concat(ms) == s + more
    requires forall i :: 0 <= i < |ms| ==> WellFormed(p, ms[i])
    ensures Parse(p, s).frames <= ms && !Parse(p, s).bad
    ensures more == [] ==> Parse(p, s) == Parsed(ms, [], false)
    decreases |ms|
  {
    if ms == [] {
      assert s == [];
    } else {
      var m, rest := ms[0], ms[1..];
      assert WellFormed(p, m);
      if |s| >= |m| {
        assert s == m + s[|m|..] && Concat(rest) == s[|m|..] + more by {
          assert (s + more)[..|m|] == s[..|m|] && (s + more)[|m|..] == s[|m|..] + more;
          assert (m + Concat(rest))[..|m|] == m && (m + Concat(rest))[|m|..] == Concat(rest);
        }
        DecodeLenPrefix(p, m, s[|m|..]);
        forall i | 0 <= i < |rest| ensures WellFormed(p, rest[i]) { assert WellFormed(p, ms[i + 1]); }
        ParseMessages(p, rest, s[|m|..], more);
        assert ms == [m] + rest;
      } else {
        ShortPrefix(p, m, s, Concat(rest), more);
      }
    }
  }

  lemma ShortPrefix(p: Params, m: Text, s: Text, rest: Text, more: Text)
    requires ValidParams(p) && p.offset >= 0 && WellFormed(p, m) && |s| < |m| && m + rest == s + more
    ensures Parse(p, s) == Parsed([], s, false) && more != []
  {
    assert s == m[..|s|] by { assert (m + rest)[..|s|] == m[..|s|] && (s + more)[..|s|] == s; }
    if HeaderComplete(p, s) {
      DecodeLenPrefix(p, s, m[|s|..]);
      assert m == s + m[|s|..];
    }
  }

  const OPEN := Link([], QUIET, [], IDLE, [])

  /** For every pattern of partial sends and receives the packets delivered are at every moment
      a prefix of the stripped messages written: in order, none lost, doubled or merged. */
  lemma DeliveredIsPrefix(p: Params, es: seq<Event>)
    requires ValidParams(p) && p.offset >= 0 && CanRun(p, OPEN, es)
    requires forall i :: 0 <= i < |Run(p, OPEN, es).written| ==> WellFormed(p, Run(p, OPEN, es).written[i])
    ensures var l := Run(p, OPEN, es);
      l.rx.delivered <= StripAll(p, l.written) && !l.rx.failed
  {
    OpenConserved(p);
    RunConserves(p, OPEN, es);
    PrefixOfWritten(p, Run(p, OPEN, es));
  }

  lemma OpenConserved(p: Params)
    requires ValidParams(p) && p.offset >= 0
    ensures Conserved(p, OPEN)
  {
    assert Tracks(p, [], IDLE, [], []);
  }

  lemma PrefixOfWritten(p: Params, l: Link)
    requires ValidParams(p) && p.offset >= 0 && Conserved(p, l)
    requires forall i :: 0 <= i < |l.written| ==> WellFormed(p, l.written[i])
    ensures l.rx.delivered <= StripAll(p, l.written) && !l.rx.failed
    ensures RxOk(p, l.rx)
    ensures Drained(p, l.rx) && l.inFlight == [] && l.tx.queue == [] ==> l.rx.delivered == StripAll(p, l.written)
  {
    var done, lost :| Tracks(p, l.received, l.rx, done, lost);
    var more := l.inFlight + Unsent(l.tx.queue);
    Associative(l.received, l.inFlight, Unsent(l.tx.queue));
    TracksAgrees(p, l.received, l.rx, done, lost);
    ParseMessages(p, l.written, l.received, more);
    StripPrefix(p, Parse(p, l.received).frames, l.written);
  }

  lemma StripPrefix(p: Params, a: seq<Text>, b: seq<Text>)
    requires a <= b
    ensures StripAll(p, a) <= StripAll(p, b)
  {
  }

  /** When everything was sent, received and drained, every message has been delivered. */
  lemma DrainedIsAll(p: Params, es: seq<Event>)
    requires ValidParams(p) && p.offset >= 0 && CanRun(p, OPEN, es)
    requires forall i :: 0 <= i < |Run(p, OPEN, es).written| ==> WellFormed(p, Run(p, OPEN, es).written[i])
    requires var l := Run(p, OPEN, es);
      RxOk(p, l.rx) && Drained(p, l.rx) && l.inFlight == [] && l.tx.queue == []
    ensures var l := Run(p, OPEN, es); l.rx.delivered == StripAll(p, l.written)
  {
    OpenConserved(p);
    RunConserves(p, OPEN, es);
    PrefixOfWritten(p, Run(p, OPEN, es));
  }

  // ------------------------------------------------------------ completion handlers

  ghost predicate Increasing(ids: seq<nat>) { forall i, j :: 0 <= i < j < |ids| ==> ids[i] < ids[j] }

  /** The handlers called belong to the first writes, in order, each without error and with the
      whole size; the buffers queued belong to the next ones. */
  ghost predicate HandlersOk(l: Link) {
    && TxOk(l.tx)
    && Increasing(DoneIds(l.tx.completed) + Ids(l.tx.queue))
    && (forall c :: c in l.tx.completed ==> c.id < |l.written| && c.error == 0 && c.bytes == |l.written[c.id]|)
    && (forall o :: o in l.tx.queue ==> o.id < |l.written| && o.data == l.written[o.id])
  }

  lemma StepHandlers(p: Params, l: Link, e: Event)
    requires ValidParams(p) && HandlersOk(l) && CanHappen(p, l, e)
    ensures HandlersOk(Happen(p, l, e))
  {
    match e
    case Submit(m) => SubmitHandlers(l, m);
    case TurnSender(k) => SenderHandlers(l, k);
    case TurnReceiver(_) =>
  }

  lemma SubmitHandlers(l: Link, m: Text)
    requires HandlersOk(l)
    ensures HandlersOk(l.(written := l.written + [m], tx := Write(l.tx, |l.written|, m)))
  {
    var l' := l.(written := l.written + [m], tx := Write(l.tx, |l.written|, m));
    var old_, new_ := DoneIds(l.tx.completed) + Ids(l.tx.queue), DoneIds(l'.tx.completed) + Ids(l'.tx.queue);
    if m != [] {
      assert new_ == old_ + [|l.written|];
      forall i | 0 <= i < |old_| ensures old_[i] < |l.written| {
        if i < |l.tx.completed| { assert l.tx.completed[i] in l.tx.completed; }
        else { assert l.tx.queue[i - |l.tx.completed|] in l.tx.queue; }
      }
    }
  }

  lemma SenderHandlers(l: Link, k: Kernel)
    requires HandlersOk(l) && Possible(l.tx, k)
    ensures HandlersOk(l.(tx := DoWrite(l.tx, k, false).tx.(wire := [])))
  {
    NoWorkIsSleptOn(l.tx, k, false, l.tx.registered);
    CompletionsInOrder(l.tx, k, false);
    var t := DoWrite(l.tx, k, false).tx;
    if l.tx.queue != [] {
      var o := l.tx.queue[0];
      assert o in l.tx.queue;
      if |t.completed| > |l.tx.completed| { CompletesInFull(l.tx, k); }
      forall o' | o' in t.queue ensures o'.id < |l.written| && o'.data == l.written[o'.id] {
        assert o' in l.tx.queue || (o'.id == o.id && o'.data == o.data);
      }
    }
  }

  lemma {:induction false} RunHandlers(p: Params, l: Link, es: seq<Event>)
    requires ValidParams(p) && HandlersOk(l) && CanRun(p, l, es)
    ensures HandlersOk(Run(p, l, es))
    decreases |es|
  {
    if es != [] {
      StepHandlers(p, l, es[0]);
      RunHandlers(p, Happen(p, l, es[0]), es[1..]);
    }
  }

  /** On every run completion handlers are called in the order of the writes, each at most once,
      without error and with the full size. */
  lemma HandlersInOrder(p: Params, es: seq<Event>)
    requires ValidParams(p) && CanRun(p, OPEN, es)
    ensures var l := Run(p, OPEN, es);
      && (forall i, j :: 0 <= i < j < |l.tx.completed| ==> l.tx.completed[i].id < l.tx.completed[j].id)
      && (forall c :: c in l.tx.completed ==> c.id < |l.written| && c.error == 0 && c.bytes == |l.written[c.id]|)
  {
    RunHandlers(p, OPEN, es);
    var l := Run(p, OPEN, es);
    var ids := DoneIds(l.tx.completed) + Ids(l.tx.queue);
    assert forall i :: 0 <= i < |l.tx.completed| ==> ids[i] == l.tx.completed[i].id;
  }
}
