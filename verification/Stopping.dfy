/** The end of the loop after a stop. */
module Stopping {
  import Sending
  import opened Transport
  import opened EventLoop
  import opened LoopRuns

  /** The channels that could still bring a new transport once stop is set. */
  function Busy(cs: seq<Channel>): nat {
    if cs == [] then 0 else Busy(cs[..|cs| - 1]) + (if Connects(cs[|cs| - 1]) then 1 else 0)
  }

  predicate Connects(c: Channel) { c.client && (c.state == RESOLVING || c.state == CONNECTING) }

  /** What a stop asks of a channel: no open request, and a server is closed or about to be. */
  predicate Closing(c: Channel) { !c.openMask && (!c.client && c.state == OPENED ==> c.closeMask) }

  ghost predicate Quiet(s: Service) {
    s.stop && forall i :: 0 <= i < |s.channels| ==> Closing(s.channels[i])
  }

  lemma {:induction false} BusyUpdate(cs: seq<Channel>, i: nat, c: Channel)
    requires i < |cs|
    ensures Busy(cs[i := c]) == Busy(cs) - (if Connects(cs[i]) then 1 else 0) + (if Connects(c) then 1 else 0)
    decreases |cs|
  {
    var n := |cs| - 1;
    if i == n {
      assert cs[i := c][..n] == cs[..n];
    } else {
      BusyUpdate(cs[..n], i, c);
      assert cs[i := c][..n] == cs[..n][i := c];
    }
  }

  lemma {:induction false} BusyPointwise(cs: seq<Channel>, ds: seq<Channel>)
    requires |cs| == |ds| && forall i :: 0 <= i < |cs| ==> Connects(ds[i]) ==> Connects(cs[i])
    ensures Busy(ds) <= Busy(cs)
  {
    if cs != [] { BusyPointwise(cs[..|cs| - 1], ds[..|ds| - 1]); }
  }

  // ------------------------------------------------------------ transports

  lemma CloseQuiet(s: Service, at: nat, t: Live)
    requires Quiet(s) && at < |s.live| && PlacedIn(s, t)
    ensures var s' := Close(s, at, t); Quiet(s') && Busy(s'.channels) <= Busy(s.channels)
  {
    var c := s.channels[t.channel];
    assert Closing(c);
    BusyUpdate(s.channels, t.channel, c.(closeMask := false, state := CLOSED));
  }

  lemma SettleQuiet(s: Service, at: nat, t: Live, ok: bool, error: int)
    requires Quiet(s) && at < |s.live| && PlacedIn(s, t)
    ensures var (s', kept) := Settle(s, at, t, ok, error);
      !kept && Quiet(s') && Busy(s'.channels) <= Busy(s.channels)
  {
    var u := if !ok then t.(error := error) else if t.error == 0 then t.(error := SHUTDOWN_BY_LOCALHOST) else t;
    CloseQuiet(s, at, u);
  }

  /** With stop set no transport stays. */
  lemma ServeQuiet(s: Service, at: nat, a: Answer)
    requires Sound(s) && Quiet(s) && at < |s.live|
    ensures var (s', kept) := Serve(s, at, a); !kept && Quiet(s') && Busy(s'.channels) <= Busy(s.channels)
  {
    var t := s.live[at];
    assert LiveOk(s, t);
    if !s.sockets[t.socket].open {
      CloseQuiet(s, at, t);
    } else {
      var g := DoRead(s.channels[t.channel], t, a.r);
      ReadingOk(s, t, a.r);
      if !g.ok { CloseQuiet(s, at, g.t); } else { AfterReadQuiet(s, at, g, a.k); }
    }
  }

  lemma AfterReadQuiet(s: Service, at: nat, g: Reading, k: Sending.Kernel)
    requires Quiet(s) && at < |s.live| && LiveOk(s, g.t)
    ensures var (s', kept) := AfterRead(s, at, g, k); !kept && Quiet(s') && Busy(s'.channels) <= Busy(s.channels)
  {
    var kk := Sending.Clip(k, g.t.tx);
    var w := Sending.DoWrite(g.t.tx, kk, !s.channels[g.t.channel].tcp);
    var s1 := Asked(Told(s, g, w.again), g.t, w.interest);
    assert Quiet(s1);
    SettleQuiet(s1, at, g.t.(tx := w.tx), w.ok, WriteError(kk));
  }

  /** With stop set one pass over the transports closes every one of them from the given place on. */
  lemma {:induction false} ServeFromQuiet(s: Service, at: nat, answers: seq<Answer>)
    requires Sound(s) && Quiet(s) && at + |answers| == |s.live|
    ensures var s' := ServeFrom(s, at, answers);
      Quiet(s') && Busy(s'.channels) <= Busy(s.channels) && |s'.live| == at
    decreases |answers|
  {
    if answers != [] {
      ServeQuiet(s, at, answers[0]);
      ServeSound(s, at, answers[0]);
      ServeFromQuiet(Serve(s, at, answers[0]).0, at, answers[1..]);
    }
  }

  // ------------------------------------------------------------ channels

  /** Only a client still resolving or connecting brings a transport, and is then busy no more. */
  lemma ChannelQuiet(c: Channel, k: Socket, a: ChannelAnswer)
    requires Closing(c)
    ensures var o := ServeChannel(c, k, a);
      && Closing(o.c)
      && (Connects(o.c) ==> Connects(c))
      && (o.connected ==> Connects(c) && !Connects(o.c))
  {
  }

  lemma OperateQuiet(s: Service, at: nat, a: ChannelAnswer)
    requires Sound(s) && Quiet(s) && at < |s.ops|
    ensures var s' := Operate(s, at, a).0;
      Quiet(s') && |s'.live| + Busy(s'.channels) <= |s.live| + Busy(s.channels) && |s'.live| >= |s.live|
  {
    var i := s.ops[at];
    var c := s.channels[i];
    assert Closing(c) && ChannelOk(s, c);
    ChannelQuiet(c, s.sockets[c.socket], a);
    ChannelKept(c, s.sockets[c.socket], a);
    BusyUpdate(s.channels, i, ServeChannel(c, s.sockets[c.socket], a).c);
  }

  lemma {:induction false} OperateFromQuiet(s: Service, at: nat, replies: seq<ChannelAnswer>)
    requires Sound(s) && Quiet(s) && at + |replies| == |s.ops|
    ensures var s' := OperateFrom(s, at, replies);
      Quiet(s') && |s'.live| + Busy(s'.channels) <= |s.live| + Busy(s.channels) && |s'.live| >= |s.live|
    decreases |replies|
  {
    if replies != [] {
      OperateQuiet(s, at, replies[0]);
      OperateSound(s, at, replies[0]);
      var (s1, kept) := Operate(s, at, replies[0]);
      OperateFromQuiet(s1, if kept then at + 1 else at, replies[1..]);
    }
  }

  // ------------------------------------------------------------ turns

  /** How many more turns the loop can complete once it is quiet. */
  function TurnsLeft(l: Loop): nat {
    match l.phase
    case Exited => 0
    case AtChannels => Busy(l.s.channels) + 1 + (if l.s.live != [] then 1 else 0)
    case AtTimers => if l.s.live == [] then 1 else Busy(l.s.channels) + 2
    case _ => Busy(l.s.channels) + 1
  }

  lemma HandledQuiet(s: Service, e: Step)
    requires Sound(s) && Quiet(s) && IsRequest(e) && !e.OpenRequest?
    requires e.CloseRequest? || e.ConnectTimerFires? ==> e.channel < |s.channels|
    requires e.CloseTransportRequest? || e.WriteRequest? ==> e.at < |s.live|
    ensures var s' := Handled(s, e);
      Quiet(s') && Busy(s'.channels) <= Busy(s.channels) && |s'.live| == |s.live|
  {
    var s' := Handled(s, e);
    assert forall i :: 0 <= i < |s.channels| ==> Closing(s.channels[i]);
    BusyPointwise(s.channels, s'.channels);
  }

  lemma TransportsQuiet(l: Loop, e: Step)
    requires Sound(l.s) && Quiet(l.s) && e.ServeTransports? && CanStep(l, e)
    ensures Quiet(After(l, e).s) && TurnsLeft(After(l, e)) <= TurnsLeft(l)
  {
    ServeFromQuiet(l.s, 0, e.answers);
  }

  lemma ChannelsQuiet(l: Loop, e: Step)
    requires Sound(l.s) && Quiet(l.s) && e.ServeChannels? && CanStep(l, e)
    ensures Quiet(After(l, e).s) && TurnsLeft(After(l, e)) <= TurnsLeft(l)
  {
    OperateFromQuiet(l.s, 0, e.replies);
  }

  lemma RequestQuiet(l: Loop, e: Step)
    requires Sound(l.s) && Quiet(l.s) && IsRequest(e) && CanStep(l, e) && !e.OpenRequest?
    ensures Quiet(After(l, e).s) && TurnsLeft(After(l, e)) <= TurnsLeft(l)
  {
    HandledQuiet(l.s, e);
  }

  /** Only the flags, the clock and the phase change. */
  lemma PhaseQuiet(l: Loop, e: Step)
    requires Sound(l.s) && Quiet(l.s) && CanStep(l, e)
    requires e.Sleep? || e.PollReturns? || e.ServeTimers? || e.TimerRequest?
    ensures Quiet(After(l, e).s)
    ensures TurnsLeft(After(l, e)) + (if e.ServeTimers? then 1 else 0) <= TurnsLeft(l)
  {
    var s' := After(l, e).s;
    assert s'.stop && s'.channels == l.s.channels && s'.live == l.s.live;
    forall i | 0 <= i < |s'.channels| ensures Closing(s'.channels[i]) { assert Closing(l.s.channels[i]); }
  }

  lemma StepQuiet(l: Loop, e: Step)
    requires Sound(l.s) && Quiet(l.s) && CanStep(l, e) && !e.OpenRequest?
    ensures Quiet(After(l, e).s)
    ensures TurnsLeft(After(l, e)) + (if e.ServeTimers? then 1 else 0) <= TurnsLeft(l)
  {
    match e
    case ServeTransports(_) => TransportsQuiet(l, e);
    case ServeChannels(_) => ChannelsQuiet(l, e);
    case Sleep(_, _) => PhaseQuiet(l, e);
    case PollReturns => PhaseQuiet(l, e);
    case ServeTimers(_, _, _, _) => PhaseQuiet(l, e);
    case TimerRequest(_, _) => PhaseQuiet(l, e);
    case _ => RequestQuiet(l, e);
  }

  ghost predicate NoOpen(es: seq<Step>) { forall i :: 0 <= i < |es| ==> !es[i].OpenRequest? }

  /** A run without open requests leaves a quiet loop quiet, and uses its turns up. */
  lemma {:induction false} RunQuiet(l: Loop, es: seq<Step>)
    requires Sound(l.s) && Quiet(l.s) && CanRun(l, es) && NoOpen(es)
    ensures Quiet(Run(l, es).s) && TurnsLeft(Run(l, es)) + TurnsIn(es) <= TurnsLeft(l)
    decreases |es|
  {
    if es != [] {
      StepQuiet(l, es[0]);
      StepSound(l, es[0]);
      forall i | 0 <= i < |es[1..]| ensures !es[1..][i].OpenRequest? { assert es[1..][i] == es[i + 1]; }
      RunQuiet(After(l, es[0]), es[1..]);
    }
  }

  /** Stop ends the loop: once it is set and no open request comes, the loop completes at most two turns
      more than there are clients resolving or connecting. */
  lemma StopEnds(l: Loop, es: seq<Step>)
    requires Sound(l.s) && Quiet(l.s) && CanRun(l, es) && NoOpen(es)
    ensures TurnsIn(es) <= TurnsLeft(l) <= Busy(l.s.channels) + 2
  {
    RunQuiet(l, es);
  }

  // ------------------------------------------------------------ a stop is observed

  /** A client's transport has its channel's socket, an accepted one none of a channel's. */
  ghost predicate OwnPlace(s: Service, t: Live)
    requires PlacedIn(s, t)
  {
    if s.channels[t.channel].client then t.socket == s.channels[t.channel].socket
    else forall i :: 0 <= i < |s.channels| ==> s.channels[i].socket != t.socket
  }

  /** A channel never holds both requests, and an open server has an open socket. */
  predicate MasksOk(s: Service, c: Channel)
    requires c.socket < |s.sockets|
  {
    !(c.openMask && c.closeMask) && (!c.client && c.state == OPENED ==> s.sockets[c.socket].open)
  }

  ghost predicate Orderly(s: Service)
    requires Sound(s)
  {
    && (forall i :: 0 <= i < |s.channels| ==> ChannelOk(s, s.channels[i]) && MasksOk(s, s.channels[i]))
    && (forall i, j :: 0 <= i < j < |s.channels| ==> s.channels[i].socket != s.channels[j].socket)
    && (forall i :: 0 <= i < |s.live| ==> LiveOk(s, s.live[i]) && OwnPlace(s, s.live[i]))
  }

  predicate SamePlace(t: Live, u: Live) { u.channel == t.channel && u.socket == t.socket }

  lemma PlaceKept(s: Service, s': Service, t: Live, u: Live)
    requires PlacedIn(s, t) && OwnPlace(s, t) && Extends(s, s') && SamePlace(t, u) && PlacedIn(s', u)
    ensures OwnPlace(s', u)
  {
    forall i | 0 <= i < |s.channels| ensures s'.channels[i].socket == s.channels[i].socket {
      assert SameMake(s.channels[i], s'.channels[i]);
    }
    assert SameMake(s.channels[t.channel], s'.channels[t.channel]);
  }

  /** Transports in their places, and channels of the same make with their masks in order. */
  lemma OrderlyAgain(s: Service, s': Service)
    requires Sound(s) && Orderly(s) && Sound(s') && Extends(s, s')
    requires forall i :: 0 <= i < |s'.live| ==> LiveOk(s', s'.live[i]) && OwnPlace(s', s'.live[i])
    requires forall i :: 0 <= i < |s'.channels| ==> ChannelOk(s', s'.channels[i]) && MasksOk(s', s'.channels[i])
    ensures Orderly(s')
  {
    forall i | 0 <= i < |s.channels| ensures s'.channels[i].socket == s.channels[i].socket {
      assert SameMake(s.channels[i], s'.channels[i]);
    }
  }

  /** The same transports, but for what they carry. */
  lemma PlacesKept(s: Service, s': Service)
    requires Sound(s) && Orderly(s) && Sound(s') && Extends(s, s') && |s'.live| == |s.live|
    requires forall i :: 0 <= i < |s.live| ==> SamePlace(s.live[i], s'.live[i])
    ensures forall i :: 0 <= i < |s'.live| ==> LiveOk(s', s'.live[i]) && OwnPlace(s', s'.live[i])
  {
    forall i | 0 <= i < |s'.live| ensures LiveOk(s', s'.live[i]) && OwnPlace(s', s'.live[i]) {
      assert LiveOk(s, s.live[i]) && OwnPlace(s, s.live[i]) && LiveOk(s', s'.live[i]);
      PlaceKept(s, s', s.live[i], s'.live[i]);
    }
  }

  lemma CloseOrderly(s: Service, at: nat, t: Live)
    requires Sound(s) && Orderly(s) && at < |s.live| && PlacedIn(s, t) && SamePlace(s.live[at], t)
    ensures Sound(Close(s, at, t)) && Orderly(Close(s, at, t))
  {
    CloseSound(s, at, t);
    var s' := Close(s, at, t);
    forall i | 0 <= i < |s'.live| ensures LiveOk(s', s'.live[i]) && OwnPlace(s', s'.live[i]) {
      var j := if i < at then i else i + 1;
      assert LiveOk(s, s.live[j]) && OwnPlace(s, s.live[j]) && LiveOk(s', s'.live[i]);
      PlaceKept(s, s', s.live[j], s'.live[i]);
    }
    CloseMasks(s, at, t);
    OrderlyAgain(s, s');
  }

  lemma CloseMasks(s: Service, at: nat, t: Live)
    requires Sound(s) && Orderly(s) && at < |s.live| && PlacedIn(s, t) && SamePlace(s.live[at], t)
    ensures var s' := Close(s, at, t);
      forall i :: 0 <= i < |s'.channels| ==> ChannelOk(s', s'.channels[i]) && MasksOk(s', s'.channels[i])
  {
    var s' := Close(s, at, t);
    assert LiveOk(s, s.live[at]) && OwnPlace(s, s.live[at]);
    forall i | 0 <= i < |s'.channels| ensures ChannelOk(s', s'.channels[i]) && MasksOk(s', s'.channels[i]) {
      assert ChannelOk(s, s.channels[i]) && MasksOk(s, s.channels[i]);
      assert i != t.channel ==> s.channels[i].socket != s.channels[t.channel].socket;
    }
  }

  lemma SettleOrderly(s: Service, at: nat, t: Live, ok: bool, error: int)
    requires Sound(s) && Orderly(s) && at < |s.live| && LiveOk(s, t) && SamePlace(s.live[at], t)
    ensures Sound(Settle(s, at, t, ok, error).0) && Orderly(Settle(s, at, t, ok, error).0)
  {
    if !ok {
      CloseOrderly(s, at, t.(error := error));
    } else if !Requested(s, t) {
      SetLiveSound(s, at, t);
      ReplaceOrderly(s, s.(live := s.live[at := t]));
    } else {
      CloseOrderly(s, at, if t.error == 0 then t.(error := SHUTDOWN_BY_LOCALHOST) else t);
    }
  }

  /** The same channels, transports in the same places, and sockets open as before. */
  lemma ReplaceOrderly(s: Service, s': Service)
    requires Sound(s) && Orderly(s) && Sound(s') && s'.channels == s.channels && |s'.live| == |s.live|
    requires |s'.sockets| == |s.sockets| && forall i :: 0 <= i < |s.sockets| ==> s'.sockets[i].open == s.sockets[i].open
    requires forall i :: 0 <= i < |s.live| ==> SamePlace(s.live[i], s'.live[i])
    ensures Orderly(s')
  {
    PlacesKept(s, s');
    forall i | 0 <= i < |s'.channels| ensures ChannelOk(s', s'.channels[i]) && MasksOk(s', s'.channels[i]) {
      assert ChannelOk(s, s.channels[i]) && MasksOk(s, s.channels[i]);
    }
    OrderlyAgain(s, s');
  }

  lemma AskedOrderly(s: Service, g: Reading, again: bool, i: Sending.Interest)
    requires Sound(s) && Orderly(s) && LiveOk(s, g.t)
    ensures var s1 := Asked(Told(s, g, again), g.t, i); Sound(s1) && Orderly(s1) && LiveOk(s1, g.t)
  {
    var s1 := Asked(Told(s, g, again), g.t, i);
    SoundAgain(s, s1);
    ReplaceOrderly(s, s1);
  }

  lemma AfterReadOrderly(s: Service, at: nat, g: Reading, k: Sending.Kernel)
    requires Sound(s) && Orderly(s) && at < |s.live| && LiveOk(s, g.t) && SamePlace(s.live[at], g.t)
    ensures Sound(AfterRead(s, at, g, k).0) && Orderly(AfterRead(s, at, g, k).0)
  {
    var kk := Sending.Clip(k, g.t.tx);
    Sending.NoWorkIsSleptOn(g.t.tx, kk, !s.channels[g.t.channel].tcp, false);
    var w := Sending.DoWrite(g.t.tx, kk, !s.channels[g.t.channel].tcp);
    AskedOrderly(s, g, w.again, w.interest);
    SettleOrderly(Asked(Told(s, g, w.again), g.t, w.interest), at, g.t.(tx := w.tx), w.ok, WriteError(kk));
  }

  lemma ServeOrderly(s: Service, at: nat, a: Answer)
    requires Sound(s) && Orderly(s) && at < |s.live|
    ensures Sound(Serve(s, at, a).0) && Orderly(Serve(s, at, a).0)
  {
    var t := s.live[at];
    assert LiveOk(s, t);
    if !s.sockets[t.socket].open {
      CloseOrderly(s, at, t);
    } else {
      var g := DoRead(s.channels[t.channel], t, a.r);
      ReadingOk(s, t, a.r);
      if !g.ok { CloseOrderly(s, at, g.t); } else { AfterReadOrderly(s, at, g, a.k); }
    }
  }

  lemma {:induction false} ServeFromOrderly(s: Service, at: nat, answers: seq<Answer>)
    requires Sound(s) && Orderly(s) && at + |answers| == |s.live|
    ensures Orderly(ServeFrom(s, at, answers))
    decreases |answers|
  {
    if answers != [] {
      ServeOrderly(s, at, answers[0]);
      ServeSound(s, at, answers[0]);
      var (s1, kept) := Serve(s, at, answers[0]);
      ServeFromOrderly(s1, if kept then at + 1 else at, answers[1..]);
    }
  }

  lemma ChannelMasks(c: Channel, k: Socket, a: ChannelAnswer)
    requires !(c.openMask && c.closeMask) && (!c.client && c.state == OPENED ==> k.open)
    ensures var o := ServeChannel(c, k, a);
      !(o.c.openMask && o.c.closeMask) && (!o.c.client && o.c.state == OPENED ==> o.k.open)
  {
  }

  lemma SetChannelOrderly(s: Service, i: nat, c: Channel, k: Socket)
    requires Sound(s) && Orderly(s) && i < |s.channels| && SameMake(s.channels[i], c)
    requires !(c.openMask && c.closeMask) && (!c.client && c.state == OPENED ==> k.open)
    ensures c.socket < |s.sockets| && Sound(SetChannel(s, i, c, k)) && Orderly(SetChannel(s, i, c, k))
  {
    SetChannelSound(s, i, c, k);
    var s' := SetChannel(s, i, c, k);
    PlacesKept(s, s');
    forall j | 0 <= j < |s'.channels| ensures ChannelOk(s', s'.channels[j]) && MasksOk(s', s'.channels[j]) {
      assert ChannelOk(s, s.channels[j]) && MasksOk(s, s.channels[j]) && ChannelOk(s', s'.channels[j]);
      assert j != i ==> s.channels[j].socket != c.socket;
    }
    OrderlyAgain(s, s');
  }

  lemma AdmitOrderly(s: Service, i: nat)
    requires Sound(s) && Orderly(s) && i < |s.channels|
    ensures Sound(Admit(s, i)) && Orderly(Admit(s, i))
  {
    AdmitSound(s, i);
    var s' := Admit(s, i);
    forall j | 0 <= j < |s'.channels|
      ensures ChannelOk(s', s'.channels[j]) && MasksOk(s', s'.channels[j]) && s'.channels[j].socket < |s.sockets|
    {
      assert ChannelOk(s, s.channels[j]) && MasksOk(s, s.channels[j]) && ChannelOk(s', s'.channels[j]);
    }
    forall j | 0 <= j < |s'.live| ensures LiveOk(s', s'.live[j]) && OwnPlace(s', s'.live[j]) {
      assert LiveOk(s', s'.live[j]);
      if j < |s.live| { assert s'.live[j] == s.live[j] && LiveOk(s, s.live[j]) && OwnPlace(s, s.live[j]); }
    }
  }

  lemma OperateOrderly(s: Service, at: nat, a: ChannelAnswer)
    requires Sound(s) && Orderly(s) && at < |s.ops|
    ensures Sound(Operate(s, at, a).0) && Orderly(Operate(s, at, a).0)
  {
    OperateSound(s, at, a);
    var i := s.ops[at];
    var c := s.channels[i];
    assert ChannelOk(s, c) && MasksOk(s, c);
    var o := ServeChannel(c, s.sockets[c.socket], a);
    ChannelMasks(c, s.sockets[c.socket], a);
    ChannelKept(c, s.sockets[c.socket], a);
    SetChannelOrderly(s, i, o.c, o.k);
    var s1 := SetChannel(s, i, o.c, o.k);
    if o.connected { AdmitOrderly(s1, i); }
    var s2 := if o.connected then Admit(s1, i) else s1;
    OpsOrderly(s2, Operate(s, at, a).0);
  }

  lemma OpsOrderly(s: Service, s': Service)
    requires Sound(s) && Orderly(s) && Sound(s') && s'.live == s.live && s'.channels == s.channels
    requires s'.sockets == s.sockets
    ensures Orderly(s')
  {
    forall i | 0 <= i < |s'.live| ensures LiveOk(s', s'.live[i]) && OwnPlace(s', s'.live[i]) {
      assert LiveOk(s, s.live[i]) && OwnPlace(s, s.live[i]);
    }
    forall i | 0 <= i < |s'.channels| ensures ChannelOk(s', s'.channels[i]) && MasksOk(s', s'.channels[i]) {
      assert ChannelOk(s, s.channels[i]) && MasksOk(s, s.channels[i]);
    }
  }

  lemma {:induction false} OperateFromOrderly(s: Service, at: nat, replies: seq<ChannelAnswer>)
    requires Sound(s) && Orderly(s) && at + |replies| == |s.ops|
    ensures Orderly(OperateFrom(s, at, replies))
    decreases |replies|
  {
    if replies != [] {
      OperateOrderly(s, at, replies[0]);
      OperateSound(s, at, replies[0]);
      var (s1, kept) := Operate(s, at, replies[0]);
      OperateFromOrderly(s1, if kept then at + 1 else at, replies[1..]);
    }
  }

  lemma HandledOrderly(s: Service, e: Step)
    requires Sound(s) && Orderly(s) && IsRequest(e)
    requires e.OpenRequest? || e.CloseRequest? || e.ConnectTimerFires? ==> e.channel < |s.channels|
    requires e.CloseTransportRequest? || e.WriteRequest? ==> e.at < |s.live|
    ensures Sound(Handled(s, e)) && Orderly(Handled(s, e))
  {
    RequestSound(s, e);
    if e.ConnectTimerFires? {
      assert ChannelOk(s, s.channels[e.channel]);
      if s.channels[e.channel].state != OPENED {
        SetChannelOrderly(s, e.channel, Cleaned(s.channels[e.channel]), CLOSED_SOCKET);
      }
    } else {
      var s' := Handled(s, e);
      HandledPlaces(s, e);
      forall i | 0 <= i < |s'.channels| ensures ChannelOk(s', s'.channels[i]) && MasksOk(s', s'.channels[i]) {
        assert ChannelOk(s, s.channels[i]) && MasksOk(s, s.channels[i]) && ChannelOk(s', s'.channels[i]);
        assert MasksKept(s.channels[i], s'.channels[i]);
      }
      PlacesKept(s, s');
      OrderlyAgain(s, s');
    }
  }

  predicate MasksKept(c: Channel, d: Channel) {
    d.state == c.state && (!(c.openMask && c.closeMask) ==> !(d.openMask && d.closeMask))
  }

  lemma HandledPlaces(s: Service, e: Step)
    requires Sound(s) && IsRequest(e) && !e.ConnectTimerFires?
    requires e.OpenRequest? || e.CloseRequest? ==> e.channel < |s.channels|
    requires e.CloseTransportRequest? || e.WriteRequest? ==> e.at < |s.live|
    ensures var s' := Handled(s, e);
      && s'.sockets == s.sockets && |s'.live| == |s.live| && |s'.channels| == |s.channels|
      && (forall i :: 0 <= i < |s.live| ==> SamePlace(s.live[i], s'.live[i]))
      && (forall i :: 0 <= i < |s.channels| ==> MasksKept(s.channels[i], s'.channels[i]))
  {
  }

  lemma StepOrderly(l: Loop, e: Step)
    requires Sound(l.s) && Orderly(l.s) && CanStep(l, e)
    ensures Sound(After(l, e).s) && Orderly(After(l, e).s)
  {
    StepSound(l, e);
    if e.ServeTransports? {
      ServeFromOrderly(l.s, 0, e.answers);
    } else if e.ServeChannels? {
      OperateFromOrderly(l.s, 0, e.replies);
    } else if IsRequest(e) {
      HandledOrderly(l.s, e);
    } else {
      OpsOrderly(l.s, After(l, e).s);
    }
  }

  lemma {:induction false} RunOrderly(l: Loop, es: seq<Step>)
    requires Sound(l.s) && Orderly(l.s) && CanRun(l, es)
    ensures Orderly(Run(l, es).s)
    decreases |es|
  {
    if es != [] {
      StepOrderly(l, es[0]);
      RunOrderly(After(l, es[0]), es[1..]);
    }
  }

  lemma InitialOrderly(s: Service)
    requires Initial(s)
    ensures Sound(s) && Orderly(s)
  {
    InitialSound(s);
    forall i | 0 <= i < |s.channels| ensures ChannelOk(s, s.channels[i]) && MasksOk(s, s.channels[i]) {
      assert FreshChannel(s, s.channels[i]);
    }
  }

  /** A stop leaves an orderly service quiet. */
  lemma StopQuiets(s: Service)
    requires Sound(s) && Orderly(s) && !s.stop
    ensures Quiet(Stop(s)) && Busy(Stop(s).channels) <= Busy(s.channels)
  {
    var z := Stop(s);
    forall i | 0 <= i < |z.channels| ensures Closing(z.channels[i]) {
      assert ChannelOk(s, s.channels[i]) && MasksOk(s, s.channels[i]);
    }
    BusyPointwise(s.channels, z.channels);
  }

  /** On every run, whatever came before, a first stop that no open request follows ends the loop within
      two turns more than there are clients resolving or connecting. */
  lemma StopIsObserved(l: Loop, before: seq<Step>, after: seq<Step>)
    requires Starts(l) && Sound(l.s) && CanRun(l, before) && !Run(l, before).s.stop
    requires CanStep(Run(l, before), StopRequest) && Sound(After(Run(l, before), StopRequest).s)
    requires CanRun(After(Run(l, before), StopRequest), after) && NoOpen(after)
    ensures TurnsIn(after) <= Busy(Run(l, before).s.channels) + 2
  {
    InitialOrderly(l.s);
    RunOrderly(l, before);
    StopQuiets(Run(l, before).s);
    StopEnds(After(Run(l, before), StopRequest), after);
  }
}
