/** What goes through the transports over all runs of the loop: bytes written and bytes heard. */
module Traffic {
  import opened Bytes
  import opened Sequences
  import opened Framing
  import opened Sending
  import opened Transport
  import opened EventLoop
  import opened LoopRuns
  import opened LifeCycles
  import Closing

  // ------------------------------------------------------------ what was written and heard

  /** The buffers that writes gave to one transport in a run. */
  ghost function WrittenTo(l: Loop, es: seq<Step>, id: nat): seq<Op>
    requires Sound(l.s) && CanRun(l, es)
    decreases |es|
  {
    if es == [] then []
    else
      StepSound(l, es[0]);
      Buffered(l.s, es[0], id) + WrittenTo(After(l, es[0]), es[1..], id)
  }

  /** A write counts if the socket is open and there is something to send. */
  function Buffered(s: Service, e: Step, id: nat): (r: seq<Op>)
    ensures forall o :: o in r ==> o.data != [] && o.sent == 0
  {
    if e.WriteRequest? && e.at < |s.live| && s.live[e.at].id == id && s.live[e.at].socket < |s.sockets|
       && s.sockets[s.live[e.at].socket].open && e.data != []
    then [Op(e.id, e.data, 0)] else []
  }

  /** The chunks that one transport heard in a run, one for each of its turns. */
  ghost function HeardBy(l: Loop, es: seq<Step>, id: nat): seq<Text>
    requires Sound(l.s) && CanRun(l, es)
    decreases |es|
  {
    if es == [] then []
    else
      StepSound(l, es[0]);
      (if es[0].ServeTransports? then HeardFrom(l.s, 0, es[0].answers, id) else [])
      + HeardBy(After(l, es[0]), es[1..], id)
  }

  function HeardAt(s: Service, at: nat, a: Answer, id: nat): seq<Text>
    requires at < |s.live|
  {
    if s.live[at].id == id then [Chunk(Heard(a.r, |s.live[at].rx.pending|))] else []
  }

  function HeardFrom(s: Service, at: nat, answers: seq<Answer>, id: nat): seq<Text>
    requires Sound(s) && at + |answers| == |s.live|
    decreases |answers|
  {
    if answers == [] then []
    else
      ServeSound(s, at, answers[0]);
      var (s1, kept) := Serve(s, at, answers[0]);
      HeardAt(s, at, answers[0], id) + HeardFrom(s1, if kept then at + 1 else at, answers[1..], id)
  }

  // ------------------------------------------------------------ what a live transport has made of it

  /** The receiver is where the chunks lead it; handlers called and buffers queued are the writes in
      order; and on a stream transport the bytes sent and queued are the bytes written. */
  ghost predicate Made(c: Channel, t: Live, w: seq<Op>, h: seq<Text>) {
    && ValidParams(c.params) && t.rx == Feed(c.params, IDLE, h)
    && DoneIds(t.tx.completed) + Ids(t.tx.queue) == Ids(w)
    && (c.tcp ==> t.tx.wire + Unsent(t.tx.queue) == Unsent(w))
  }

  ghost predicate Carries(s: Service, id: nat, w: seq<Op>, h: seq<Text>) {
    && (id >= s.nextId ==> w == [] && h == [])
    && forall i :: 0 <= i < |s.live| && s.live[i].id == id ==>
         s.live[i].channel < |s.channels| && Made(s.channels[s.live[i].channel], s.live[i], w, h)
  }

  lemma {:induction false} FeedOneMore(p: Params, r: Rx, chunks: seq<Text>, chunk: Text)
    requires ValidParams(p) && RxOk(p, r)
    ensures Feed(p, r, chunks + [chunk]) == Read(p, Feed(p, r, chunks), chunk)
    decreases |chunks|
  {
    if chunks == [] {
      assert Feed(p, Read(p, r, chunk), []) == Read(p, r, chunk) by { ReadKeepsOk(p, r, chunk); }
      assert ([] + [chunk])[1..] == [];
    } else {
      ReadKeepsOk(p, r, chunks[0]);
      FeedOneMore(p, Read(p, r, chunks[0]), chunks[1..], chunk);
      assert (chunks + [chunk])[1..] == chunks[1..] + [chunk];
    }
  }

  lemma ServedMakes(s: Service, t: Live, a: Answer, w: seq<Op>, h: seq<Text>)
    requires LiveOk(s, t) && Made(s.channels[t.channel], t, w, h)
    ensures Made(s.channels[t.channel], Closing.Served(s, t, a), w, h + [Chunk(Heard(a.r, |t.rx.pending|))])
  {
    var c := s.channels[t.channel];
    FeedOneMore(c.params, IDLE, h, Chunk(Heard(a.r, |t.rx.pending|)));
    CompletionsInOrder(t.tx, Clip(a.k, t.tx), !c.tcp);
    if c.tcp { SendConserves(t.tx, Clip(a.k, t.tx)); }
  }

  /** A buffer more. */
  lemma WriteMakes(c: Channel, t: Live, id: nat, data: Text, w: seq<Op>, h: seq<Text>)
    requires Made(c, t, w, h) && data != []
    ensures Made(c, t.(tx := Sending.Write(t.tx, id, data)), w + [Op(id, data, 0)], h)
  {
    var o := Op(id, data, 0);
    UnsentAppend(t.tx.queue, o);
    UnsentAppend(w, o);
    assert data[0..] == data;
    Associative(t.tx.wire, Unsent(t.tx.queue), data);
    assert Ids(w + [o]) == Ids(w) + [id] && Ids(t.tx.queue + [o]) == Ids(t.tx.queue) + [id];
  }

  // ------------------------------------------------------------ what every step keeps

  lemma TurnCarries(s: Service, at: nat, a: Answer, id: nat, w: seq<Op>, h: seq<Text>)
    requires Sound(s) && at < |s.live| && Closing.DistinctIds(s.live) && Carries(s, id, w, h)
    requires s.live[at].id < s.nextId
    ensures Carries(Serve(s, at, a).0, id, w, h + HeardAt(s, at, a, id))
  {
    Closing.ServeDecides(s, at, a);
    ServeSound(s, at, a);
    var s', t := Serve(s, at, a).0, s.live[at];
    assert HeardAt(s, at, a, id) == [] ==> h + HeardAt(s, at, a, id) == h;
    forall i | 0 <= i < |s'.live| && s'.live[i].id == id
      ensures s'.live[i].channel < |s'.channels|
      ensures Made(s'.channels[s'.live[i].channel], s'.live[i], w, h + HeardAt(s, at, a, id))
    {
      if i == at && Closing.Stays(s, t, a) {
        ServedMakes(s, t, a, w, h);
        MadeAlike(s.channels[t.channel], s'.channels[t.channel], s'.live[i], w, h + HeardAt(s, at, a, id));
      } else {
        var j := if Closing.Stays(s, t, a) || i < at then i else i + 1;
        assert s'.live[i] == s.live[j] && j != at;
        assert LiveOk(s, s.live[j]);
        MadeAlike(s.channels[s.live[j].channel], s'.channels[s.live[j].channel], s'.live[i], w, h);
      }
    }
  }

  lemma MadeAlike(c: Channel, c': Channel, t: Live, w: seq<Op>, h: seq<Text>)
    requires Made(c, t, w, h) && SameMake(c, c')
    ensures Made(c', t, w, h)
  {
  }

  /** Identities are all given out. */
  ghost predicate AllGiven(s: Service) { forall i :: 0 <= i < |s.live| ==> s.live[i].id < s.nextId }

  lemma TurnGives(s: Service, at: nat, a: Answer)
    requires Sound(s) && at < |s.live| && AllGiven(s)
    ensures AllGiven(Serve(s, at, a).0)
  {
    Closing.ServeDecides(s, at, a);
    var s' := Serve(s, at, a).0;
    forall i | 0 <= i < |s'.live| ensures s'.live[i].id < s'.nextId {
      assert s.live[at].id < s.nextId;
      assert i != at && !Closing.Stays(s, s.live[at], a) ==> s'.live[i] == s.live[if i < at then i else i + 1];
    }
  }

  lemma {:induction false} PassCarries(s: Service, at: nat, answers: seq<Answer>, id: nat, w: seq<Op>, h: seq<Text>)
    requires Sound(s) && at + |answers| == |s.live| && Closing.DistinctIds(s.live) && AllGiven(s)
    requires Carries(s, id, w, h)
    ensures Carries(ServeFrom(s, at, answers), id, w, h + HeardFrom(s, at, answers, id))
    decreases |answers|
  {
    if answers == [] {
      assert h + [] == h;
    } else {
      ServeSound(s, at, answers[0]);
      Closing.TurnFewer(s, at, answers[0]);
      TurnGives(s, at, answers[0]);
      TurnCarries(s, at, answers[0], id, w, h);
      var (s1, kept) := Serve(s, at, answers[0]);
      var next := if kept then at + 1 else at;
      PassCarries(s1, next, answers[1..], id, w, h + HeardAt(s, at, answers[0], id));
      Associative(h, HeardAt(s, at, answers[0], id), HeardFrom(s1, next, answers[1..], id));
    }
  }

  lemma ChannelsCarry(s: Service, s': Service, id: nat, w: seq<Op>, h: seq<Text>)
    requires Sound(s') && Carries(s, id, w, h) && Closing.OnlyNew(s, s') && Extends(s, s')
    ensures Carries(s', id, w, h)
  {
    forall i | 0 <= i < |s'.live| && s'.live[i].id == id
      ensures s'.live[i].channel < |s'.channels| && Made(s'.channels[s'.live[i].channel], s'.live[i], w, h)
    {
      assert LiveOk(s', s'.live[i]);
      if i < |s.live| {
        assert s.live[i] == s'.live[i];
        MadeAlike(s.channels[s.live[i].channel], s'.channels[s.live[i].channel], s'.live[i], w, h);
      }
    }
  }

  /** A step that leaves the transports' traffic alone. */
  lemma QuietCarries(s: Service, s': Service, id: nat, w: seq<Op>, h: seq<Text>)
    requires Sound(s) && Carries(s, id, w, h) && Extends(s, s') && s'.nextId == s.nextId && |s'.live| == |s.live|
    requires forall i :: 0 <= i < |s.live| ==> SameTraffic(s.live[i], s'.live[i])
    ensures Carries(s', id, w, h)
  {
    forall i | 0 <= i < |s'.live| && s'.live[i].id == id
      ensures s'.live[i].channel < |s'.channels| && Made(s'.channels[s'.live[i].channel], s'.live[i], w, h)
    {
      assert SameTraffic(s.live[i], s'.live[i]) && LiveOk(s, s.live[i]);
      MadeAlike(s.channels[s.live[i].channel], s'.channels[s.live[i].channel], s.live[i], w, h);
    }
  }

  predicate SameTraffic(a: Live, b: Live) { a.id == b.id && a.channel == b.channel && a.rx == b.rx && a.tx == b.tx }

  lemma WriteCarries(s: Service, e: Step, id: nat, w: seq<Op>, h: seq<Text>)
    requires Sound(s) && e.WriteRequest? && e.at < |s.live| && Carries(s, id, w, h)
    requires Closing.DistinctIds(s.live) && AllGiven(s)
    ensures Carries(Handled(s, e), id, w + Buffered(s, e, id), h)
  {
    var s', t := Handled(s, e), s.live[e.at];
    assert LiveOk(s, t);
    assert t.id < s.nextId;
    assert Buffered(s, e, id) == [] ==> w + Buffered(s, e, id) == w;
    if t.id == id && s'.live != s.live { WriteMakes(s.channels[t.channel], t, e.id, e.data, w, h); }
  }

  /** What a request leaves of the transports: the write adds its buffer. */
  lemma RequestCarries(s: Service, e: Step, id: nat, w: seq<Op>, h: seq<Text>)
    requires Sound(s) && IsRequest(e) && Carries(s, id, w, h) && Closing.DistinctIds(s.live) && AllGiven(s)
    requires e.OpenRequest? || e.CloseRequest? || e.ConnectTimerFires? ==> e.channel < |s.channels|
    requires e.CloseTransportRequest? || e.WriteRequest? ==> e.at < |s.live|
    ensures Carries(Handled(s, e), id, w + Buffered(s, e, id), h)
  {
    if e.WriteRequest? {
      WriteCarries(s, e, id, w, h);
    } else {
      RequestSound(s, e);
      QuietCarries(s, Handled(s, e), id, w, h);
      assert w + [] == w;
    }
  }

  lemma IdsAreGiven(s: Service)
    requires LivesOk(s)
    ensures AllGiven(s) && Closing.DistinctIds(s.live)
  {
    NotYetLive(s);
    Closing.IdsAreDistinct(s);
  }

  lemma StepCarries(l: Loop, e: Step, id: nat, w: seq<Op>, h: seq<Text>)
    requires Sound(l.s) && LivesOk(l.s) && CanStep(l, e) && Carries(l.s, id, w, h)
    ensures Carries(After(l, e).s, id, w + Buffered(l.s, e, id),
                    h + (if e.ServeTransports? then HeardFrom(l.s, 0, e.answers, id) else []))
  {
    IdsAreGiven(l.s);
    StepSound(l, e);
    assert w + [] == w && h + [] == h;
    if e.ServeTransports? {
      PassCarries(l.s, 0, e.answers, id, w, h);
    } else if e.ServeChannels? {
      Closing.ChannelsOnlyNew(l.s, 0, e.replies);
      ChannelsCarry(l.s, After(l, e).s, id, w, h);
    } else if IsRequest(e) {
      RequestCarries(l.s, e, id, w, h);
    } else {
      QuietCarries(l.s, After(l, e).s, id, w, h);
    }
  }

  lemma {:induction false} RunCarries(l: Loop, es: seq<Step>, id: nat, w: seq<Op>, h: seq<Text>)
    requires Sound(l.s) && Kept(l.s) && CanRun(l, es) && Carries(l.s, id, w, h)
    ensures Carries(Run(l, es).s, id, w + WrittenTo(l, es, id), h + HeardBy(l, es, id))
    decreases |es|
  {
    if es == [] {
      assert w + [] == w && h + [] == h;
    } else {
      var e := es[0];
      StepSound(l, e);
      StepKeeps(l, e);
      StepCarries(l, e, id, w, h);
      var g := if e.ServeTransports? then HeardFrom(l.s, 0, e.answers, id) else [];
      RunCarries(After(l, e), es[1..], id, w + Buffered(l.s, e, id), h + g);
      Associative(h, g, HeardBy(After(l, e), es[1..], id));
      OpsAssociate(w, Buffered(l.s, e, id), WrittenTo(After(l, e), es[1..], id));
    }
  }

  lemma OpsAssociate(a: seq<Op>, b: seq<Op>, c: seq<Op>)
    ensures a + b + c == a + (b + c)
  {
  }

  /** On every run a live transport has passed on what was written to it, in order and nothing else:
      on a stream transport the bytes sent and those queued are the bytes of all its writes, and on any
      the handlers called and the buffers queued are these writes. And what it told are the packets of
      what it heard: its receiver is where the chunks of its turns lead it, in whatever way they came. */
  lemma LiveCarries(l: Loop, es: seq<Step>, i: nat)
    requires Starts(l) && Sound(l.s) && CanRun(l, es) && i < |Run(l, es).s.live|
    ensures LiveOk(Run(l, es).s, Run(l, es).s.live[i])
    ensures var z, t := Run(l, es).s, Run(l, es).s.live[i];
      var c, w, h := z.channels[t.channel], WrittenTo(l, es, t.id), HeardBy(l, es, t.id);
      && (c.tcp ==> t.tx.wire + Unsent(t.tx.queue) == Unsent(w))
      && DoneIds(t.tx.completed) + Ids(t.tx.queue) == Ids(w)
      && t.rx == Feed(c.params, IDLE, h)
      && PacketsOf(z.trace, t.id) == t.rx.delivered
      && (c.params.offset >= 0 ==> Agrees(c.params, t.rx, Parse(c.params, Concat(h))))
  {
    var z, t := Run(l, es).s, Run(l, es).s.live[i];
    LiveMade(l, es, i);
    LifeCycle(l, es, t.id);
    var c, h := z.channels[t.channel], HeardBy(l, es, t.id);
    if c.params.offset >= 0 { UnpackRefinesParse(c.params, h); }
  }

  lemma LiveMade(l: Loop, es: seq<Step>, i: nat)
    requires Starts(l) && Sound(l.s) && CanRun(l, es) && i < |Run(l, es).s.live|
    ensures var z, t := Run(l, es).s, Run(l, es).s.live[i];
      LiveOk(z, t) && Made(z.channels[t.channel], t, WrittenTo(l, es, t.id), HeardBy(l, es, t.id))
  {
    InitialKept(l.s);
    var z, t := Run(l, es).s, Run(l, es).s.live[i];
    assert LiveOk(z, t);
    RunCarries(l, es, t.id, [], []);
    assert [] + WrittenTo(l, es, t.id) == WrittenTo(l, es, t.id);
    assert [] + HeardBy(l, es, t.id) == HeardBy(l, es, t.id);
  }
}
