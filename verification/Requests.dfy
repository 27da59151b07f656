/** What becomes of requests: none is slept on, and what is asked of a channel is done. */
module Requests {
  import opened Transport
  import opened EventLoop
  import opened LoopRuns
  import opened LifeCycles
  import opened Stopping
  import Closing

  // ------------------------------------------------------------ no request is slept on

  /** A request that the loop sees in this turn, or in the next without sleeping. */
  predicate Soon(l: Loop) { l.s.woken || l.phase == AtTransports }

  /** Something is asked of the channel that its operation does. */
  predicate Asks(c: Channel) { c.openMask || (!c.client && c.closeMask) }

  /** A channel that asks for something, or listens, has an operation; a server listens exactly on an
      open socket, and is asked to close only while it does. */
  ghost predicate Attended(s: Service, i: nat)
    requires i < |s.channels|
  {
    var c := s.channels[i];
    && (c.openMask ==> i in s.ops)
    && (!c.client ==>
          && c.socket < |s.sockets| && (c.state == OPENED <==> s.sockets[c.socket].open)
          && (c.state == OPENED ==> i in s.ops) && (c.closeMask ==> c.state == OPENED))
  }

  ghost predicate AllAttended(s: Service) { forall i :: 0 <= i < |s.channels| ==> Attended(s, i) }

  predicate NoneAsked(live: seq<Live>) { forall i :: 0 <= i < |live| ==> !live[i].closeMask }

  predicate NoneAsks(cs: seq<Channel>) { forall i :: 0 <= i < |cs| ==> !Asks(cs[i]) }

  ghost predicate Heeded(l: Loop) {
    && AllAttended(l.s)
    && (Soon(l) || NoneAsked(l.s.live))
    && (Soon(l) || l.phase == AtChannels || NoneAsks(l.s.channels))
  }

  lemma {:induction false} PassUnasked(s: Service, at: nat, answers: seq<Answer>)
    requires Sound(s) && at + |answers| == |s.live| && NoneAsked(s.live[..at])
    ensures NoneAsked(ServeFrom(s, at, answers).live)
    decreases |answers|
  {
    if answers == [] {
      assert s.live[..at] == s.live;
    } else {
      ServeSound(s, at, answers[0]);
      TurnUnasked(s, at, answers[0]);
      var (s1, kept) := Serve(s, at, answers[0]);
      PassUnasked(s1, if kept then at + 1 else at, answers[1..]);
    }
  }

  lemma TurnUnasked(s: Service, at: nat, a: Answer)
    requires Sound(s) && at < |s.live| && NoneAsked(s.live[..at])
    ensures var (s', kept) := Serve(s, at, a);
      (if kept then at + 1 else at) <= |s'.live| && NoneAsked(s'.live[..if kept then at + 1 else at])
  {
    Closing.ServeDecides(s, at, a);
    ServeSound(s, at, a);
    var (s', kept) := Serve(s, at, a);
    forall i | 0 <= i < at ensures s'.live[i] == s.live[..at][i] {}
  }

  lemma TurnAttended(s: Service, at: nat, a: Answer)
    requires Sound(s) && Orderly(s) && at < |s.live| && AllAttended(s)
    ensures AllAttended(Serve(s, at, a).0)
  {
    Closing.TurnReleases(s, at, a);
    Closing.ServeDecides(s, at, a);
    ServeSound(s, at, a);
    var s', t := Serve(s, at, a).0, s.live[at];
    assert LiveOk(s, t) && OwnPlace(s, t);
    forall i | 0 <= i < |s'.channels| ensures Attended(s', i) {
      assert Attended(s, i) && ChannelOk(s, s.channels[i]);
    }
  }

  lemma {:induction false} PassAttended(s: Service, at: nat, answers: seq<Answer>)
    requires Sound(s) && Orderly(s) && at + |answers| == |s.live| && AllAttended(s)
    ensures AllAttended(ServeFrom(s, at, answers))
    decreases |answers|
  {
    if answers != [] {
      ServeSound(s, at, answers[0]);
      ServeOrderly(s, at, answers[0]);
      TurnAttended(s, at, answers[0]);
      var (s1, kept) := Serve(s, at, answers[0]);
      PassAttended(s1, if kept then at + 1 else at, answers[1..]);
    }
  }

  /** What a channel's turn leaves: nothing asked, and an operation that a listening server keeps. */
  lemma ChannelHeeds(c: Channel, k: Socket, a: ChannelAnswer)
    requires !c.client ==> (c.state == OPENED <==> k.open) && (c.closeMask ==> c.state == OPENED)
    ensures var o := ServeChannel(c, k, a);
      && !Asks(o.c)
      && (!c.client ==> (o.c.state == OPENED <==> o.k.open) && (o.c.state == OPENED ==> !o.finished))
  {
  }

  lemma OpsLess(ops: seq<nat>, at: nat, i: nat)
    requires at < |ops| && i in ops && i != ops[at]
    ensures i in ops[..at] + ops[at + 1..]
  {
    var j :| 0 <= j < |ops| && ops[j] == i;
    assert (ops[..at] + ops[at + 1..])[if j < at then j else j - 1] == i;
  }

  lemma OperateAttended(s: Service, at: nat, a: ChannelAnswer)
    requires Sound(s) && Orderly(s) && at < |s.ops| && AllAttended(s)
    ensures AllAttended(Operate(s, at, a).0)
    ensures var s', i := Operate(s, at, a).0, s.ops[at];
      !Asks(s'.channels[i]) && forall j :: 0 <= j < |s.channels| && j != i ==> s'.channels[j] == s.channels[j]
  {
    OperateSound(s, at, a);
    var s', i := Operate(s, at, a).0, s.ops[at];
    var c := s.channels[i];
    assert ChannelOk(s, c) && Attended(s, i);
    ChannelHeeds(c, s.sockets[c.socket], a);
    ChannelKept(c, s.sockets[c.socket], a);
    forall j | 0 <= j < |s'.channels| ensures Attended(s', j) {
      assert Attended(s, j) && ChannelOk(s, s.channels[j]);
      if j != i {
        assert s.channels[j].socket != c.socket;
        StillAttended(s, at, s', j);
      }
    }
  }

  lemma StillAttended(s: Service, at: nat, s': Service, j: nat)
    requires at < |s.ops| && j < |s.channels| == |s'.channels| && Attended(s, j) && s'.channels[j] == s.channels[j]
    requires s.ops[at] != j && (s'.ops == s.ops || s'.ops == s.ops[..at] + s.ops[at + 1..])
    requires s.channels[j].socket < |s.sockets| <= |s'.sockets|
    requires s'.sockets[s.channels[j].socket] == s.sockets[s.channels[j].socket]
    ensures Attended(s', j)
  {
    if j in s.ops { OpsLess(s.ops, at, j); }
  }

  /** What asks for something is still ahead in the pass. */
  ghost predicate AskersAhead(s: Service, at: nat) {
    at <= |s.ops| && forall i :: 0 <= i < |s.channels| && Asks(s.channels[i]) ==> i in s.ops[at..]
  }

  lemma StillAhead(a: seq<Channel>, b: seq<Channel>, i: nat, ahead: seq<nat>)
    requires |a| == |b| && i < |a| && !Asks(b[i]) && forall j :: 0 <= j < |a| && j != i ==> b[j] == a[j]
    requires forall j :: 0 <= j < |a| && Asks(a[j]) ==> j in [i] + ahead
    ensures forall j :: 0 <= j < |b| && Asks(b[j]) ==> j in ahead
  {
  }

  lemma OpsAhead(s: Service, at: nat, a: ChannelAnswer)
    requires Sound(s) && at < |s.ops|
    ensures var (s', kept) := Operate(s, at, a);
      var next: nat := if kept then at + 1 else at;
      next <= |s'.ops| && s'.ops[next..] == s.ops[at + 1..] && s'.woken == s.woken
  {
    OperateSound(s, at, a);
    assert ChannelOk(s, s.channels[s.ops[at]]);
  }

  lemma AskersStayAhead(s: Service, at: nat, a: ChannelAnswer)
    requires Sound(s) && Orderly(s) && at < |s.ops| && AllAttended(s) && AskersAhead(s, at)
    ensures var (s', kept) := Operate(s, at, a); AskersAhead(s', if kept then at + 1 else at) && s'.woken == s.woken
  {
    OperateSound(s, at, a);
    OperateAttended(s, at, a);
    OpsAhead(s, at, a);
    assert s.ops[at..] == [s.ops[at]] + s.ops[at + 1..];
    StillAhead(s.channels, Operate(s, at, a).0.channels, s.ops[at], s.ops[at + 1..]);
  }

  lemma {:induction false} ChannelsHeed(s: Service, at: nat, replies: seq<ChannelAnswer>)
    requires Sound(s) && Orderly(s) && at + |replies| == |s.ops| && AllAttended(s) && AskersAhead(s, at)
    ensures var z := OperateFrom(s, at, replies); AllAttended(z) && NoneAsks(z.channels) && z.woken == s.woken
    decreases |replies|
  {
    if replies != [] {
      OperateSound(s, at, replies[0]);
      OperateOrderly(s, at, replies[0]);
      OperateAttended(s, at, replies[0]);
      AskersStayAhead(s, at, replies[0]);
      var (s1, kept) := Operate(s, at, replies[0]);
      ChannelsHeed(s1, if kept then at + 1 else at, replies[1..]);
    }
  }

  /** A request that asks for something wakes the loop. */
  lemma RequestWakes(s: Service, e: Step)
    requires Sound(s) && Orderly(s) && AllAttended(s) && IsRequest(e)
    requires e.OpenRequest? || e.CloseRequest? || e.ConnectTimerFires? ==> e.channel < |s.channels|
    requires e.CloseTransportRequest? || e.WriteRequest? ==> e.at < |s.live|
    ensures var s' := Handled(s, e);
      && AllAttended(s') && |s'.channels| == |s.channels| && |s'.live| == |s.live| && (s.woken ==> s'.woken)
      && (s'.woken || forall i :: 0 <= i < |s.channels| && Asks(s'.channels[i]) ==> Asks(s.channels[i]))
      && (s'.woken || forall i :: 0 <= i < |s.live| && s'.live[i].closeMask ==> s.live[i].closeMask)
  {
    var s' := Handled(s, e);
    forall i | 0 <= i < |s'.channels| ensures Attended(s', i) {
      assert Attended(s, i) && ChannelOk(s, s.channels[i]) && MasksOk(s, s.channels[i]);
      assert e.ConnectTimerFires? && e.channel != i ==> s.channels[i].socket != s.channels[e.channel].socket;
    }
  }

  lemma StepHeeded(l: Loop, e: Step)
    requires Sound(l.s) && Orderly(l.s) && CanStep(l, e) && Heeded(l)
    ensures Heeded(After(l, e))
  {
    if e.ServeTransports? {
      PassAttended(l.s, 0, e.answers);
      PassUnasked(l.s, 0, e.answers);
    } else if e.ServeChannels? {
      forall i | 0 <= i < |l.s.channels| && Asks(l.s.channels[i]) ensures i in l.s.ops[0..] { assert Attended(l.s, i); }
      ChannelsHeed(l.s, 0, e.replies);
      Closing.ChannelsOnlyNew(l.s, 0, e.replies);
    } else if IsRequest(e) {
      RequestWakes(l.s, e);
    } else {
      forall i | 0 <= i < |l.s.channels| ensures Attended(After(l, e).s, i) { assert Attended(l.s, i); }
    }
  }

  lemma {:induction false} RunHeeded(l: Loop, es: seq<Step>)
    requires Sound(l.s) && Orderly(l.s) && CanRun(l, es) && Heeded(l)
    ensures Heeded(Run(l, es))
    decreases |es|
  {
    if es != [] {
      StepSound(l, es[0]);
      StepOrderly(l, es[0]);
      StepHeeded(l, es[0]);
      RunHeeded(After(l, es[0]), es[1..]);
    }
  }

  lemma StartHeeded(l: Loop)
    requires Starts(l)
    ensures Sound(l.s) && Orderly(l.s) && Heeded(l)
  {
    InitialOrderly(l.s);
    forall i | 0 <= i < |l.s.channels| ensures Attended(l.s, i) && !Asks(l.s.channels[i]) {
      assert FreshChannel(l.s, l.s.channels[i]);
    }
  }

  /** No request is slept on: on every run, while the loop waits in its poll and no wake-up is pending, no
      transport is asked to close, no channel to open, and no server to close; and whatever channel is to
      open, or server listens, has an operation that each turn serves. */
  lemma RequestsNotSleptOn(l: Loop, es: seq<Step>)
    requires Starts(l) && Sound(l.s) && CanRun(l, es)
    ensures var z := Run(l, es);
      && (z.phase.Waiting? && !z.s.woken ==>
            && (forall i :: 0 <= i < |z.s.live| ==> !z.s.live[i].closeMask)
            && (forall i :: 0 <= i < |z.s.channels| ==>
                  !z.s.channels[i].openMask && (z.s.channels[i].closeMask ==> z.s.channels[i].client)))
      && (forall i :: 0 <= i < |z.s.channels| ==>
            (z.s.channels[i].openMask || (!z.s.channels[i].client && z.s.channels[i].state == OPENED) ==> i in z.s.ops))
  {
    StartHeeded(l);
    RunHeeded(l, es);
    var z := Run(l, es);
    forall i | 0 <= i < |z.s.channels|
      ensures z.s.channels[i].openMask || (!z.s.channels[i].client && z.s.channels[i].state == OPENED) ==> i in z.s.ops
    {
      assert Attended(z.s, i);
    }
  }

  // ------------------------------------------------------------ a close of a channel is observed

  /** The channel is on its way to close: nothing opens it, and its transports are told so by its mask or,
      a client's, by the closed socket. */
  ghost predicate Off(s: Service, i: nat)
    requires i < |s.channels| && s.channels[i].socket < |s.sockets|
  {
    var c := s.channels[i];
    && !c.openMask && (c.client ==> c.state != RESOLVING)
    && (c.closeMask || (c.client && !s.sockets[c.socket].open))
  }

  lemma TurnOff(s: Service, at: nat, a: Answer, i: nat)
    requires Sound(s) && Orderly(s) && at < |s.live|
    requires i < |s.channels| && s.channels[i].socket < |s.sockets| && Off(s, i)
    ensures var s', t := Serve(s, at, a).0, s.live[at];
      && i < |s'.channels| && s'.channels[i].socket < |s'.sockets| && Off(s', i)
      && LiveOk(s, t) && (t.channel == i ==> !Closing.Stays(s, t, a))
  {
    Closing.TurnReleases(s, at, a);
    ServeSound(s, at, a);
    assert LiveOk(s, s.live[at]) && OwnPlace(s, s.live[at]);
  }

  predicate NoneOf(live: seq<Live>, i: nat) { forall j :: 0 <= j < |live| ==> live[j].channel != i }

  lemma {:induction false} PassOff(s: Service, at: nat, answers: seq<Answer>, i: nat)
    requires Sound(s) && Orderly(s) && at + |answers| == |s.live| && NoneOf(s.live[..at], i)
    requires i < |s.channels| && s.channels[i].socket < |s.sockets| && Off(s, i)
    ensures NoneOf(ServeFrom(s, at, answers).live, i)
    decreases |answers|
  {
    if answers == [] {
      assert s.live[..at] == s.live;
    } else {
      ServeSound(s, at, answers[0]);
      ServeOrderly(s, at, answers[0]);
      TurnOff(s, at, answers[0], i);
      TurnNoneOf(s, at, answers[0], i);
      var (s1, kept) := Serve(s, at, answers[0]);
      PassOff(s1, if kept then at + 1 else at, answers[1..], i);
    }
  }

  lemma TurnNoneOf(s: Service, at: nat, a: Answer, i: nat)
    requires Sound(s) && at < |s.live| && NoneOf(s.live[..at], i) && LiveOk(s, s.live[at])
    requires s.live[at].channel == i ==> !Closing.Stays(s, s.live[at], a)
    ensures var (s', kept) := Serve(s, at, a);
      (if kept then at + 1 else at) <= |s'.live| && NoneOf(s'.live[..if kept then at + 1 else at], i)
  {
    Closing.ServeDecides(s, at, a);
    ServeSound(s, at, a);
    var (s', kept) := Serve(s, at, a);
    forall j | 0 <= j < at ensures s'.live[j] == s.live[..at][j] {}
  }

  lemma ClientOff(c: Channel, k: Socket, o: Outcome)
    requires c.client && !c.openMask && c.state != RESOLVING && (c.closeMask || !k.open)
    ensures var r := ServeClient(c, k, o);
      !r.c.openMask && r.c.state != RESOLVING && (r.c.closeMask || !r.k.open)
  {
  }

  lemma OperateOff(s: Service, at: nat, a: ChannelAnswer, i: nat)
    requires Sound(s) && Orderly(s) && at < |s.ops|
    requires i < |s.channels| && s.channels[i].socket < |s.sockets| && s.channels[i].client && Off(s, i)
    ensures var s' := Operate(s, at, a).0;
      i < |s'.channels| && s'.channels[i].socket < |s'.sockets| && s'.channels[i].client && Off(s', i)
  {
    OperateSound(s, at, a);
    var j := s.ops[at];
    assert ChannelOk(s, s.channels[j]);
    ChannelKept(s.channels[j], s.sockets[s.channels[j].socket], a);
    if j == i {
      ClientOff(s.channels[i], s.sockets[s.channels[i].socket], a.outcome);
    } else {
      assert s.channels[i].socket != s.channels[j].socket;
    }
  }

  lemma {:induction false} ChannelsOff(s: Service, at: nat, replies: seq<ChannelAnswer>, i: nat)
    requires Sound(s) && Orderly(s) && at + |replies| == |s.ops|
    requires i < |s.channels| && s.channels[i].socket < |s.sockets| && s.channels[i].client && Off(s, i)
    ensures var s' := OperateFrom(s, at, replies);
      i < |s'.channels| && s'.channels[i].socket < |s'.sockets| && s'.channels[i].client && Off(s', i)
    decreases |replies|
  {
    if replies != [] {
      OperateSound(s, at, replies[0]);
      OperateOrderly(s, at, replies[0]);
      OperateOff(s, at, replies[0], i);
      var (s1, kept) := Operate(s, at, replies[0]);
      ChannelsOff(s1, if kept then at + 1 else at, replies[1..], i);
    }
  }

  /** A step that leaves a close of the channel to the next pass over the transports: it does not open the
      channel anew, and a server's own operation, which takes the request back, does not come before. */
  predicate LeavesClose(e: Step, i: nat, client: bool) {
    !e.ServeTransports? && e != OpenRequest(i) && (e.ServeChannels? ==> client)
  }

  lemma StepOff(l: Loop, e: Step, i: nat)
    requires Sound(l.s) && Orderly(l.s) && CanStep(l, e)
    requires i < |l.s.channels| && LeavesClose(e, i, l.s.channels[i].client)
    requires l.s.channels[i].socket < |l.s.sockets| && Off(l.s, i) && Heeded(l)
    ensures var s' := After(l, e).s;
      && i < |s'.channels| && s'.channels[i].socket < |s'.sockets|
      && s'.channels[i].client == l.s.channels[i].client && Off(s', i)
  {
    StepSound(l, e);
    assert SameMake(l.s.channels[i], After(l, e).s.channels[i]) && Attended(l.s, i) && ChannelOk(l.s, l.s.channels[i]);
    if e.ServeChannels? {
      ChannelsOff(l.s, 0, e.replies, i);
    } else if e.ConnectTimerFires? {
      assert e.channel != i ==> l.s.channels[e.channel].socket != l.s.channels[i].socket;
    }
  }

  lemma {:induction false} RunOff(l: Loop, es: seq<Step>, i: nat)
    requires Sound(l.s) && Orderly(l.s) && CanRun(l, es) && i < |l.s.channels| && l.s.channels[i].socket < |l.s.sockets|
    requires forall k :: 0 <= k < |es| ==> LeavesClose(es[k], i, l.s.channels[i].client)
    requires Off(l.s, i) && Heeded(l)
    ensures var s' := Run(l, es).s;
      i < |s'.channels| && s'.channels[i].socket < |s'.sockets| && Off(s', i) && Orderly(s')
    decreases |es|
  {
    if es != [] {
      StepSound(l, es[0]);
      StepOrderly(l, es[0]);
      StepHeeded(l, es[0]);
      StepOff(l, es[0], i);
      RunOff(After(l, es[0]), es[1..], i);
    }
  }

  /** A channel with an open socket that is not resolving. */
  predicate CanBeClosed(s: Service, i: nat) {
    && i < |s.channels| && s.channels[i].socket < |s.sockets| && s.sockets[s.channels[i].socket].open
    && (s.channels[i].client ==> s.channels[i].state != RESOLVING)
  }

  /** A channel asked to close loses all its transports in the next pass over the transports, unless it is
      opened anew or, a server, has its own turn before. */
  lemma ChannelCloseIsObserved(l: Loop, before: seq<Step>, i: nat, between: seq<Step>, answers: seq<Answer>)
    requires Starts(l) && Sound(l.s) && CanRun(l, before) && CanBeClosed(Run(l, before).s, i)
    requires CanRun(After(Run(l, before), CloseRequest(i)), between)
    requires CanStep(Run(After(Run(l, before), CloseRequest(i)), between), ServeTransports(answers))
    requires forall k :: 0 <= k < |between| ==> LeavesClose(between[k], i, Run(l, before).s.channels[i].client)
    ensures NoneOf(After(Run(After(Run(l, before), CloseRequest(i)), between), ServeTransports(answers)).s.live, i)
  {
    StartHeeded(l);
    RunOrderly(l, before);
    RunHeeded(l, before);
    CloseIsOff(Run(l, before), i);
    RunOff(After(Run(l, before), CloseRequest(i)), between, i);
    PassOff(Run(After(Run(l, before), CloseRequest(i)), between).s, 0, answers, i);
  }

  lemma CloseIsOff(l: Loop, i: nat)
    requires Sound(l.s) && Orderly(l.s) && Heeded(l) && CanBeClosed(l.s, i)
    ensures var m := After(l, CloseRequest(i));
      && Sound(m.s) && Orderly(m.s) && Heeded(m) && i < |m.s.channels| && m.s.channels[i].socket < |m.s.sockets|
      && m.s.channels[i].client == l.s.channels[i].client && Off(m.s, i)
  {
    assert MasksOk(l.s, l.s.channels[i]);
    StepOrderly(l, CloseRequest(i));
    StepHeeded(l, CloseRequest(i));
  }

  // ------------------------------------------------------------ a server's turn takes its close back

  /** A server on its way to close, or closed. */
  ghost predicate Shutting(s: Service, i: nat) {
    && i < |s.channels| && !s.channels[i].client && !s.channels[i].openMask
    && (s.channels[i].closeMask || s.channels[i].state == CLOSED)
  }

  lemma {:induction false} ChannelsShut(s: Service, at: nat, replies: seq<ChannelAnswer>, i: nat)
    requires Sound(s) && at + |replies| == |s.ops| && Shutting(s, i)
    ensures Shutting(OperateFrom(s, at, replies), i)
    decreases |replies|
  {
    if replies != [] {
      OperateSound(s, at, replies[0]);
      OperateShuts(s, at, replies[0], i);
      var (s1, kept) := Operate(s, at, replies[0]);
      ChannelsShut(s1, if kept then at + 1 else at, replies[1..], i);
    }
  }

  lemma OperateShuts(s: Service, at: nat, a: ChannelAnswer, i: nat)
    requires Sound(s) && at < |s.ops| && Shutting(s, i)
    ensures Shutting(Operate(s, at, a).0, i)
  {
    var c := s.channels[s.ops[at]];
    assert ChannelOk(s, c);
    if s.ops[at] == i { ServerShuts(c, s.sockets[c.socket], a); }
  }

  lemma ServerShuts(c: Channel, k: Socket, a: ChannelAnswer)
    requires !c.client && !c.openMask && (c.closeMask || c.state == CLOSED)
    ensures var o := ServeChannel(c, k, a).c; !o.client && !o.openMask && (o.closeMask || o.state == CLOSED)
  {
  }

  /** A server that is asked to close between the two passes closes in the second, and its request is gone
      before the first sees it: the transports it accepted stay. */
  lemma ServerCloseTakenBack(l: Loop, before: seq<Step>, i: nat, replies: seq<ChannelAnswer>)
    requires Starts(l) && Sound(l.s) && CanRun(l, before) && CanBeClosed(Run(l, before).s, i)
    requires !Run(l, before).s.channels[i].client && Run(l, before).phase == AtChannels
    requires CanStep(After(Run(l, before), CloseRequest(i)), ServeChannels(replies))
    ensures Sound(After(Run(l, before), CloseRequest(i)).s)
    ensures var s, z := Run(l, before).s, After(After(Run(l, before), CloseRequest(i)), ServeChannels(replies)).s;
      && s.live <= z.live && i < |z.channels|
      && z.channels[i].state == CLOSED && !z.channels[i].openMask && !z.channels[i].closeMask
  {
    StartHeeded(l);
    RunOrderly(l, before);
    RunHeeded(l, before);
    var b := Run(l, before);
    CloseIsOff(b, i);
    var m := After(b, CloseRequest(i));
    forall j | 0 <= j < |m.s.channels| && Asks(m.s.channels[j]) ensures j in m.s.ops[0..] { assert Attended(m.s, j); }
    ChannelsHeed(m.s, 0, replies);
    ChannelsShut(m.s, 0, replies, i);
    Closing.ChannelsOnlyNew(m.s, 0, replies);
  }

  /** How far a close of a server has come: with the request still there if it came outside the channels'
      pass, or that pass is still to come; and with the server closed and nothing asked otherwise. */
  ghost predicate CloseStands(l: Loop, i: nat, late: bool) {
    && i < |l.s.channels| && !l.s.channels[i].client && !l.s.channels[i].openMask
    && (if l.s.channels[i].closeMask then late <==> l.phase == AtChannels
        else late && l.s.channels[i].state != OPENED && l.phase != AtChannels)
  }

  lemma StepStands(l: Loop, e: Step, i: nat, late: bool)
    requires Sound(l.s) && Orderly(l.s) && Heeded(l) && CanStep(l, e) && CloseStands(l, i, late)
    requires !e.ServeTransports? && e != OpenRequest(i)
    ensures CloseStands(After(l, e), i, late)
  {
    assert Attended(l.s, i) && ChannelOk(l.s, l.s.channels[i]);
    if e.ServeChannels? {
      forall j | 0 <= j < |l.s.channels| && Asks(l.s.channels[j]) ensures j in l.s.ops[0..] { assert Attended(l.s, j); }
      ChannelsHeed(l.s, 0, e.replies);
      ChannelsShut(l.s, 0, e.replies, i);
      StepSound(l, e);
      assert SameMake(l.s.channels[i], After(l, e).s.channels[i]);
    }
  }

  lemma {:induction false} RunStands(l: Loop, es: seq<Step>, i: nat, late: bool)
    requires Sound(l.s) && Orderly(l.s) && Heeded(l) && CanRun(l, es) && CloseStands(l, i, late)
    requires forall k :: 0 <= k < |es| ==> !es[k].ServeTransports? && es[k] != OpenRequest(i)
    ensures CloseStands(Run(l, es), i, late)
    decreases |es|
  {
    if es != [] {
      StepSound(l, es[0]);
      StepOrderly(l, es[0]);
      StepHeeded(l, es[0]);
      StepStands(l, es[0], i, late);
      RunStands(After(l, es[0]), es[1..], i, late);
    }
  }

  lemma TurnKeepsServer(s: Service, at: nat, a: Answer, i: nat)
    requires Sound(s) && at < |s.live| && i < |s.channels| && !s.channels[i].client
    ensures var s' := Serve(s, at, a).0; i < |s'.channels| && s'.channels[i] == s.channels[i]
  {
    Closing.TurnReleases(s, at, a);
  }

  /** A pass over the transports leaves a server as it is. */
  lemma {:induction false} ServerAtTurn(s: Service, at: nat, answers: seq<Answer>, n: nat, i: nat)
    requires Sound(s) && at + |answers| == |s.live| && n < |answers| && i < |s.channels| && !s.channels[i].client
    ensures var m := Closing.AtTurn(s, at, answers, n).0; i < |m.channels| && m.channels[i] == s.channels[i]
    decreases n
  {
    if n > 0 {
      TurnKeepsServer(s, at, answers[0], i);
      ServeSound(s, at, answers[0]);
      var (s1, kept) := Serve(s, at, answers[0]);
      ServerAtTurn(s1, if kept then at + 1 else at, answers[1..], n - 1, i);
    }
  }

  /** Nothing but a request to its channel could close it. */
  predicate WouldStay(s: Service, t: Live, a: Answer) {
    && LiveOk(s, t) && s.sockets[t.socket].open && !t.closeMask && !s.stop
    && Closing.ReadGoesOn(s, t, a) && Closing.WriteGoesOn(s, t, a)
  }

  lemma ServerDecides(s: Service, at: nat, answers: seq<Answer>, n: nat, i: nat, late: bool, m: Service, t: Live)
    requires Sound(s) && at + |answers| == |s.live| && n < |answers| && Closing.DistinctIds(s.live)
    requires i < |s.channels| && !s.channels[i].client && !s.channels[i].openMask && s.channels[i].closeMask == !late
    requires m == Closing.AtTurn(s, at, answers, n).0 && t == s.live[at + n] && t.channel == i
    ensures HasId(ServeFrom(s, at, answers).live, t.id) <==> late && WouldStay(m, t, answers[n])
  {
    Closing.PassDecides(s, at, answers, n);
    ServerAtTurn(s, at, answers, n, i);
    StaysIff(m, t, answers[n]);
  }

  lemma StaysIff(s: Service, t: Live, a: Answer)
    requires LiveOk(s, t)
    ensures var c := s.channels[t.channel];
      Closing.Stays(s, t, a) <==> WouldStay(s, t, a) && !c.openMask && !c.closeMask
  {
  }

  /** Exactly when a server's transports survive its close. z is where a run comes to after the request,
      at the first pass over the transports, and m the service at the turn of t in that pass: t stays if and
      only if the request came between the two passes and nothing but the request would have closed it. */
  lemma ServerCloseExactly(l: Loop, before: seq<Step>, i: nat, between: seq<Step>, answers: seq<Answer>, n: nat,
                           z: Loop, m: Service, t: Live)
    requires Starts(l) && Sound(l.s) && CanRun(l, before) && CanBeClosed(Run(l, before).s, i)
    requires !Run(l, before).s.channels[i].client && CanRun(After(Run(l, before), CloseRequest(i)), between)
    requires forall k :: 0 <= k < |between| ==> !between[k].ServeTransports? && between[k] != OpenRequest(i)
    requires z == Run(After(Run(l, before), CloseRequest(i)), between)
    requires CanStep(z, ServeTransports(answers)) && n < |answers|
    requires m == Closing.AtTurn(z.s, 0, answers, n).0 && t == z.s.live[n] && t.channel == i
    ensures HasId(ServeFrom(z.s, 0, answers).live, t.id) <==>
      Run(l, before).phase == AtChannels && WouldStay(m, t, answers[n])
  {
    CloseComes(l, before, i, between);
    // n - n is the first place; a literal 0 would hide that n - n + n is n
    ServerDecides(z.s, n - n, answers, n, i, Run(l, before).phase == AtChannels, m, t);
  }

  lemma CloseComes(l: Loop, before: seq<Step>, i: nat, between: seq<Step>)
    requires Starts(l) && Sound(l.s) && CanRun(l, before) && CanBeClosed(Run(l, before).s, i)
    requires !Run(l, before).s.channels[i].client && CanRun(After(Run(l, before), CloseRequest(i)), between)
    requires forall k :: 0 <= k < |between| ==> !between[k].ServeTransports? && between[k] != OpenRequest(i)
    ensures var z := Run(After(Run(l, before), CloseRequest(i)), between);
      Closing.DistinctIds(z.s.live) && CloseStands(z, i, Run(l, before).phase == AtChannels)
  {
    StartHeeded(l);
    RunOrderly(l, before);
    RunHeeded(l, before);
    var b := Run(l, before);
    CloseIsOff(b, i);
    RunStands(After(b, CloseRequest(i)), between, i, b.phase == AtChannels);
    InitialKept(l.s);
    RunKeeps(l, before);
    StepKeeps(b, CloseRequest(i));
    RunKeeps(After(b, CloseRequest(i)), between);
    Closing.IdsAreDistinct(Run(After(b, CloseRequest(i)), between).s);
  }

  // ------------------------------------------------------------ no transport comes uninvited

  /** The channel is not to open, nor opening, nor a listening server. */
  predicate Rests(s: Service, i: nat) {
    && i < |s.channels| && !s.channels[i].openMask
    && (if s.channels[i].client then s.channels[i].state != RESOLVING && s.channels[i].state != CONNECTING
        else s.channels[i].state != OPENED)
  }

  /** Its transports are all from before. */
  predicate AllOlder(live: seq<Live>, i: nat, id: nat) {
    forall j :: 0 <= j < |live| && live[j].channel == i ==> live[j].id < id
  }

  lemma TurnRests(s: Service, at: nat, a: Answer, i: nat, id: nat)
    requires Sound(s) && at < |s.live| && Rests(s, i) && AllOlder(s.live, i, id)
    ensures Rests(Serve(s, at, a).0, i) && AllOlder(Serve(s, at, a).0.live, i, id)
  {
    Closing.TurnReleases(s, at, a);
    Closing.ServeDecides(s, at, a);
    var s', t := Serve(s, at, a).0, s.live[at];
    forall j | 0 <= j < |s'.live| && s'.live[j].channel == i ensures s'.live[j].id < id {
      var k := if Closing.Stays(s, t, a) || j < at then j else j + 1;
      assert s'.live[j].channel == s.live[k].channel && s'.live[j].id == s.live[k].id;
    }
  }

  lemma {:induction false} PassRests(s: Service, at: nat, answers: seq<Answer>, i: nat, id: nat)
    requires Sound(s) && at + |answers| == |s.live| && Rests(s, i) && AllOlder(s.live, i, id)
    ensures Rests(ServeFrom(s, at, answers), i) && AllOlder(ServeFrom(s, at, answers).live, i, id)
    decreases |answers|
  {
    if answers != [] {
      ServeSound(s, at, answers[0]);
      TurnRests(s, at, answers[0], i, id);
      var (s1, kept) := Serve(s, at, answers[0]);
      PassRests(s1, if kept then at + 1 else at, answers[1..], i, id);
    }
  }

  lemma StillRests(c: Channel, k: Socket, a: ChannelAnswer)
    requires !c.openMask && (if c.client then c.state != RESOLVING && c.state != CONNECTING else c.state != OPENED)
    ensures var o := ServeChannel(c, k, a);
      && !o.connected && !o.c.openMask
      && (if c.client then o.c.state != RESOLVING && o.c.state != CONNECTING else o.c.state != OPENED)
  {
  }

  lemma OperateRests(s: Service, at: nat, a: ChannelAnswer, i: nat, id: nat)
    requires Sound(s) && at < |s.ops| && Rests(s, i) && AllOlder(s.live, i, id)
    ensures Rests(Operate(s, at, a).0, i) && AllOlder(Operate(s, at, a).0.live, i, id)
  {
    var j := s.ops[at];
    var c := s.channels[j];
    assert ChannelOk(s, c);
    ChannelKept(c, s.sockets[c.socket], a);
    if j == i { StillRests(c, s.sockets[c.socket], a); }
  }

  lemma {:induction false} ChannelsRest(s: Service, at: nat, replies: seq<ChannelAnswer>, i: nat, id: nat)
    requires Sound(s) && at + |replies| == |s.ops| && Rests(s, i) && AllOlder(s.live, i, id)
    ensures Rests(OperateFrom(s, at, replies), i) && AllOlder(OperateFrom(s, at, replies).live, i, id)
    decreases |replies|
  {
    if replies != [] {
      OperateSound(s, at, replies[0]);
      OperateRests(s, at, replies[0], i, id);
      var (s1, kept) := Operate(s, at, replies[0]);
      ChannelsRest(s1, if kept then at + 1 else at, replies[1..], i, id);
    }
  }

  lemma StepRests(l: Loop, e: Step, i: nat, id: nat)
    requires Sound(l.s) && CanStep(l, e) && e != OpenRequest(i) && Rests(l.s, i) && AllOlder(l.s.live, i, id)
    ensures Rests(After(l, e).s, i) && AllOlder(After(l, e).s.live, i, id)
  {
    StepSound(l, e);
    if e.ServeTransports? {
      PassRests(l.s, 0, e.answers, i, id);
    } else if e.ServeChannels? {
      ChannelsRest(l.s, 0, e.replies, i, id);
    }
  }

  /** A channel that rests gets no transport until it is asked to open. */
  lemma {:induction false} NoneUninvited(l: Loop, es: seq<Step>, i: nat, id: nat)
    requires Sound(l.s) && CanRun(l, es) && OpenRequest(i) !in es && Rests(l.s, i) && AllOlder(l.s.live, i, id)
    ensures Rests(Run(l, es).s, i) && AllOlder(Run(l, es).s.live, i, id)
    decreases |es|
  {
    if es != [] {
      StepSound(l, es[0]);
      StepRests(l, es[0], i, id);
      NoneUninvited(After(l, es[0]), es[1..], i, id);
    }
  }

  /** A connect timer that fires before the connection is there ends the attempt: the socket is closed, and
      until the channel is asked to open again no transport comes. */
  lemma TimeoutIsObserved(l: Loop, before: seq<Step>, i: nat, later: seq<Step>)
    requires Starts(l) && Sound(l.s) && CanRun(l, before) && CanStep(Run(l, before), ConnectTimerFires(i))
    requires Run(l, before).s.channels[i].state != OPENED && Sound(After(Run(l, before), ConnectTimerFires(i)).s)
    requires CanRun(After(Run(l, before), ConnectTimerFires(i)), later) && OpenRequest(i) !in later
    ensures var m := After(Run(l, before), ConnectTimerFires(i)).s;
      m.channels[i].socket < |m.sockets| && !m.sockets[m.channels[i].socket].open
    ensures AllOlder(Run(After(Run(l, before), ConnectTimerFires(i)), later).s.live, i, Run(l, before).s.nextId)
  {
    InitialKept(l.s);
    RunKeeps(l, before);
    var b := Run(l, before);
    NotYetLive(b.s);
    assert ChannelOk(b.s, b.s.channels[i]);
    NoneUninvited(After(b, ConnectTimerFires(i)), later, i, b.s.nextId);
  }
}
