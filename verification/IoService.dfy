/** The service: its lists, transports and timers, updated in place by the loop and by requests. */
module ServiceLoop {
  import opened Bytes
  import opened Framing
  import Sending
  import Timers
  import opened Transport
  import opened EventLoop
  import opened LoopRuns
  import Ownership
  import Requests
  import Stopping

  // ------------------------------------------------------------ the list of transports

  ghost predicate Mirrors(t: IoTransport, u: Live)
    requires t.offset <= t.buffer.Length
    reads t, t.buffer
  {
    u == Live(t.slot, t.id, t.channel, t.socket, t.RxState(), t.TxState(), t.closeMask, t.error)
  }

  /** A transport made for its channel, with its value. */
  ghost predicate Fits(t: IoTransport, u: Live, cs: seq<Channel>)
    reads t, t.buffer
  {
    && t.Valid() && Mirrors(t, u)
    && t.channel < |cs| && t.params == cs[t.channel].params && t.tcp == cs[t.channel].tcp
  }

  ghost predicate AllFit(ts: seq<IoTransport>, us: seq<Live>, cs: seq<Channel>)
    reads ts, Buffers(ts)
  {
    |ts| == |us| && forall i :: 0 <= i < |ts| ==> Fits(ts[i], us[i], cs)
  }

  ghost function Buffers(ts: seq<IoTransport>): set<object> { set t | t in ts :: t.buffer }

  /** No two share memory. */
  ghost predicate Apart(ts: seq<IoTransport>) {
    forall i, j :: 0 <= i < j < |ts| ==> ts[i] != ts[j] && ts[i].buffer != ts[j].buffer
  }

  ghost predicate Among(ts: seq<IoTransport>, us: seq<IoTransport>) { forall t :: t in ts ==> t in us }

  lemma InList(ts: seq<IoTransport>, us: seq<IoTransport>, at: nat)
    requires Among(ts, us) && at < |ts|
    ensures ts[at] in us && ts[at].buffer in Buffers(us)
  {
    assert ts[at] in ts;
  }

  // ------------------------------------------------------------ the steps of a turn

  function Head(now: int, timeout: int): seq<Step> {
    if timeout > 0 then [Sleep(now, timeout), PollReturns] else [Sleep(now, timeout)]
  }

  function Late(late: seq<nat>): (r: seq<Step>)
    ensures |r| == |late| && forall i :: 0 <= i < |r| ==> r[i] == ConnectTimerFires(late[i])
  {
    seq(|late|, i requires 0 <= i < |late| => ConnectTimerFires(late[i]))
  }

  function TurnSteps(now: int, timeout: int, answers: seq<Answer>, replies: seq<ChannelAnswer>, late: seq<nat>,
                     last: Step)
    : seq<Step>
  {
    Head(now, timeout) + [ServeTransports(answers)] + [ServeChannels(replies)] + Late(late) + [last]
  }

  lemma TurnQuiet(l: Loop, now: int, timeout: int, answers: seq<Answer>, replies: seq<ChannelAnswer>, late: seq<nat>,
                  last: Step)
    requires Sound(l.s) && Stopping.Quiet(l.s) && last.ServeTimers?
    requires CanRun(l, TurnSteps(now, timeout, answers, replies, late, last))
    ensures var z := Run(l, TurnSteps(now, timeout, answers, replies, late, last));
      Stopping.Quiet(z.s) && Stopping.TurnsLeft(z) < Stopping.TurnsLeft(l)
  {
    var es := TurnSteps(now, timeout, answers, replies, late, last);
    Stopping.RunQuiet(l, es);
    OneTurn(es);
  }

  lemma {:induction false} OneTurn(es: seq<Step>)
    requires es != [] && es[|es| - 1].ServeTimers?
    ensures TurnsIn(es) > 0
  {
    if |es| > 1 { OneTurn(es[1..]); }
  }

  /** What the turns of a run meet: the clock, the kernel for each transport, resolver and kernel for
      each channel, the connect timers that fire, and the timers' callbacks. */
  datatype World = World(now: nat -> int, answer: (nat, nat) -> Answer, reply: (nat, nat) -> ChannelAnswer,
                         late: nat -> seq<nat>, respond: nat -> (Timers.Entry -> Timers.Answer))

  /** The clock does not go back, and callbacks schedule ahead of it. */
  ghost predicate Proper(w: World, channels: nat) {
    && (forall n: nat :: w.now(n) <= w.now(n + 1) && Timers.AllPolite(w.respond(n), w.now(n)))
    && (forall n: nat, i: nat :: i < |w.late(n)| ==> w.late(n)[i] < channels)
  }

  /** What a channel's turn does to the service. */
  function Took(s: Service, i: nat, r: Operated): Service
    requires i < |s.channels| && r.c.socket < |s.sockets|
  {
    var s1 := SetChannel(s, i, r.c, r.k);
    if r.connected then Admit(s1, i) else s1
  }

  class IoService {
    const timers: Timers.TimerQueue
    var sockets: seq<Socket>
    var channels: seq<Channel>
    var channelOps: seq<nat>
    var transports: seq<IoTransport>
    var tpool: seq<nat>
    var slotsMade: nat            // operator new
    var nextId: nat
    var waitDuration: int
    var schedFreq: int
    var stopFlag: bool
    var woken: bool
    var events: seq<Event>
    ghost var live: seq<Live>     // the transports' values
    ghost var start: Loop         // the run so far: where it started, its steps, and where it stands
    ghost var steps: seq<Step>
    ghost var phase: Phase

    ghost function State(): Service
      reads this
    {
      Service(sockets, channels, channelOps, live, tpool, slotsMade, nextId, waitDuration, schedFreq, stopFlag, woken,
              events)
    }

    ghost predicate Fitted()
      reads this, transports, Buffers(transports)
    {
      AllFit(transports, live, channels) && Apart(transports)
    }

    ghost predicate Consistent()
      reads this, transports, Buffers(transports)
    {
      Fitted() && Sound(State())
    }

    lemma Combine(s: Service)
      requires Fitted() && State() == s && Sound(s)
      ensures Consistent()
    {
    }

    ghost function Now(): Loop
      reads this, timers
    {
      Loop(State(), Timers.Clock(timers.All(), timers.currentTime), phase)
    }

    /** The service is where its run has led it. */
    ghost predicate Valid()
      reads this, timers, transports, Buffers(transports)
    {
      && Consistent() && timers.Valid() && Timers.Positive(timers.All())
      && Starts(start) && Sound(start.s) && CanRun(start, steps) && Run(start, steps) == Now()
    }

    /** A new service, its channels closed and each with a socket object of its own. */
    constructor (channels: seq<Channel>, schedFreq: int)
      requires forall i :: 0 <= i < |channels| ==>
        ValidParams(channels[i].params) && channels[i] == Cleaned(channels[i]) && channels[i].socket == i
      ensures Valid() && steps == [] && phase == AtPoll && this.channels == channels && transports == []
      ensures this.schedFreq == schedFreq && !stopFlag && fresh(timers)
    {
      timers := new Timers.TimerQueue();
      this.channels, this.schedFreq, waitDuration := channels, schedFreq, schedFreq;
      sockets := seq(|channels|, _ => CLOSED_SOCKET);
      channelOps, transports, tpool, slotsMade, nextId, stopFlag, woken, events := [], [], [], 0, 0, false, false, [];
      live, steps, phase := [], [], AtPoll;
      new;
      forall i | 0 <= i < |channels| ensures FreshChannel(State(), channels[i]) { }
      start := Now();
      InitialSound(State());
    }

    // ---------------------------------------------------------- one transport

    /** `handle_close`, and the erasure from the list. */
    method HandleClose(at: nat)
      requires Consistent() && at < |transports|
      modifies this`events, this`tpool, this`sockets, this`channels, this`transports, this`live
      ensures transports == old(transports[..at] + transports[at + 1..])
      ensures Consistent() && State() == Close(old(State()), at, old(live[at]))
    {
      ghost var s, u := State(), live[at];
      assert LiveOk(s, s.live[at]) && Fits(transports[at], u, channels);
      CloseSound(s, at, u);
      var t := transports[at];
      var c := channels[t.channel];
      Release(t);
      CleanupIo(t.socket);
      if c.client {
        CleanupIo(c.socket);
        c := c.(closeMask := false, state := CLOSED);
      }
      Erase(at, t.channel, c);
      Combine(Close(s, at, u));
    }

    /** The close event, and `deallocate_transport`. */
    method Release(t: IoTransport)
      requires Fitted()
      modifies this`events, this`tpool
      ensures Fitted() && events == old(events) + [OnClose(t.id, t.error)] && tpool == old(tpool) + [t.slot]
    {
      events := events + [OnClose(t.id, t.error)];
      tpool := tpool + [t.slot];
    }

    /** `cleanup_io`: no interest in the socket any more, and it is closed. */
    method CleanupIo(i: nat)
      requires Fitted() && i < |sockets|
      modifies this`sockets
      ensures Fitted() && sockets == old(sockets)[i := CLOSED_SOCKET]
    {
      sockets := sockets[i := CLOSED_SOCKET];
    }

    method Erase(at: nat, i: nat, c: Channel)
      requires Fitted() && at < |transports| && i < |channels| && SameMake(channels[i], c)
      modifies this`channels, this`transports, this`live
      ensures Fitted() && channels == old(channels)[i := c]
      ensures transports == old(transports[..at] + transports[at + 1..])
      ensures live == old(live[..at] + live[at + 1..])
    {
      Erased(transports, live, channels, channels[i := c], at);
      channels := channels[i := c];
      transports, live := transports[..at] + transports[at + 1..], live[..at] + live[at + 1..];
    }

    /** `do_read`: packets are told, and bytes left behind one forbid waiting. */
    method ReadTurn(at: nat, r: Recv) returns (ok: bool)
      requires Fitted() && at < |transports| && LiveOk(State(), live[at])
      modifies this`live, this`events, this`waitDuration, transports[at], transports[at].buffer
      ensures Fitted()
      ensures var g := DoRead(channels[old(live[at]).channel], old(live[at]), r);
        ok == g.ok && State() == Heeded(old(State()), at, g)
    {
      var again, packets;
      ok, again, packets := ReadAt(at, r);
      if ok { Tell(transports[at].id, packets, again); }
    }

    method Tell(id: nat, packets: seq<Text>, again: bool)
      requires Fitted()
      modifies this`events, this`waitDuration
      ensures Fitted()
      ensures events == old(events) + Packets(id, packets) && waitDuration == if again then 0 else old(waitDuration)
    {
      events := events + Packets(id, packets);
      if again { waitDuration := 0; }
    }

    /** A transport's receive does with its value what is specified, and the others stay. */
    method ReadAt(at: nat, r: Recv) returns (ok: bool, again: bool, packets: seq<Text>)
      requires Fitted() && at < |transports|
      requires ValidParams(channels[live[at].channel].params) && RxOk(channels[live[at].channel].params, live[at].rx)
      modifies this`live, transports[at], transports[at].buffer
      ensures Fitted()
      ensures var g := DoRead(channels[old(live[at]).channel], old(live[at]), r);
        && live == old(live)[at := g.t] && g.t.id == transports[at].id
        && ok == g.ok && (ok ==> again == g.again && packets == g.packets)
    {
      ok, again, packets := ReadOne(transports, live, channels, at, r);
      live := live[at := DoRead(channels[live[at].channel], live[at], r).t];
    }

    /** `do_write`, and what it asks of the watcher. */
    method WriteTurn(at: nat, k: Sending.Kernel) returns (ok: bool)
      requires Consistent() && at < |transports|
      modifies this`live, this`sockets, this`waitDuration, transports[at]
      ensures Consistent()
      ensures LiveOk(old(State()), old(live[at])) && (State(), ok) == Wrote(old(State()), at, k)
    {
      ghost var s := State();
      assert LiveOk(s, s.live[at]);
      WroteSound(s, at, k);
      var again, interest;
      ok, again, interest := WriteAt(at, k);
      AskWatcher(transports[at].socket, interest, again);
      Combine(Wrote(s, at, k).0);
    }

    method AskWatcher(i: nat, interest: Sending.Interest, again: bool)
      requires Fitted() && i < |sockets|
      modifies this`sockets, this`waitDuration
      ensures Fitted()
      ensures sockets ==
        old(sockets)[i := old(sockets)[i].(watched := Sending.Watched(interest, old(sockets)[i].watched))]
      ensures waitDuration == if again then 0 else old(waitDuration)
    {
      if again { waitDuration := 0; }
      sockets := sockets[i := sockets[i].(watched := Sending.Watched(interest, sockets[i].watched))];
    }

    method WriteAt(at: nat, k: Sending.Kernel) returns (ok: bool, again: bool, interest: Sending.Interest)
      requires Fitted() && at < |transports| && Sending.TxOk(live[at].tx)
      modifies this`live, transports[at]
      ensures Fitted()
      ensures var t := old(live[at]);
        var kk := Sending.Clip(k, t.tx);
        var w := Sending.DoWrite(t.tx, kk, !channels[t.channel].tcp);
        && live == old(live)[at := t.(tx := w.tx, error := if w.ok then t.error else WriteError(kk))]
        && ok == w.ok && again == w.again && interest == w.interest && t.socket == transports[at].socket
    {
      ghost var t := live[at];
      ghost var kk := Sending.Clip(k, t.tx);
      ghost var w := Sending.DoWrite(t.tx, kk, !channels[t.channel].tcp);
      ok, again, interest := WriteOne(transports, live, channels, at, k);
      live := live[at := t.(tx := w.tx, error := if w.ok then t.error else WriteError(kk))];
    }

    /** The end of a transport's turn: it stays, or it is closed with an error. */
    method SettleTransport(at: nat, ok: bool) returns (kept: bool)
      requires Consistent() && at < |transports|
      modifies this`live, this`events, this`tpool, this`sockets, this`channels, this`transports, transports[at]
      ensures Consistent() && LiveOk(old(State()), old(live[at]))
      ensures (State(), kept) == Settle(old(State()), at, old(live[at]), ok, old(live[at]).error)
      ensures transports == if kept then old(transports) else old(transports[..at] + transports[at + 1..])
    {
      ghost var s, u := State(), live[at];
      assert LiveOk(s, s.live[at]) && Fits(transports[at], u, channels);
      SettleForgets(s, at, u, u, ok, u.error);
      var t := transports[at];
      if ok {
        var c := channels[t.channel];
        if !t.closeMask && !c.openMask && !c.closeMask && !stopFlag {
          assert live[at := u] == live;
          return true;
        }
        if t.error == 0 { ShutDown(at); }
      }
      CloseForgets(s, at, live[at], live[at]);
      HandleClose(at);
      kept := false;
    }

    method ShutDown(at: nat)
      requires Consistent() && at < |transports|
      modifies this`live, transports[at]
      ensures Consistent()
      ensures State() == old(State()).(live := old(live)[at := old(live[at]).(error := SHUTDOWN_BY_LOCALHOST)])
    {
      ghost var s, u := State(), live[at].(error := SHUTDOWN_BY_LOCALHOST);
      assert LiveOk(s, s.live[at]);
      SetLiveSound(s, at, u);
      MarkOne(transports, live, channels, at, transports[at].closeMask, SHUTDOWN_BY_LOCALHOST);
      live := live[at := u];
      Combine(s.(live := s.live[at := u]));
    }

    /** One transport's turn. */
    method ServeTransport(at: nat, a: Answer) returns (kept: bool)
      requires Consistent() && at < |transports|
      modifies this`live, this`events, this`tpool, this`sockets, this`channels, this`transports, this`waitDuration
      modifies transports[at], transports[at].buffer
      ensures Consistent() && (State(), kept) == Serve(old(State()), at, a)
      ensures Among(transports, old(transports))
    {
      ServeInParts(State(), at, a);
      var ok := ReadAndWrite(at, a);
      kept := SettleTransport(at, ok);
    }

    /** `do_read`, which fails if the socket has been closed under the transport, and then `do_write`. */
    method ReadAndWrite(at: nat, a: Answer) returns (ok: bool)
      requires Consistent() && at < |transports|
      modifies this`live, this`events, this`sockets, this`waitDuration, transports[at], transports[at].buffer
      ensures Consistent() && (State(), ok) == Turned(old(State()), at, a)
    {
      ghost var s, t := State(), live[at];
      assert LiveOk(s, s.live[at]) && Fits(transports[at], t, channels);
      ok := false;
      if sockets[transports[at].socket].open {
        ghost var g := DoRead(channels[t.channel], t, a.r);
        ReadingOk(s, t, a.r);
        HeededSound(s, at, g);
        ok := ReadTurn(at, a.r);
        Combine(Heeded(s, at, g));
        if ok { ok := WriteTurn(at, a.k); }
      }
    }

    /** `process_transports`: an iterator over a list that shrinks under it. */
    method ProcessTransports(answers: seq<Answer>)
      requires Consistent() && |answers| == |transports|
      modifies this`live, this`events, this`tpool, this`sockets, this`channels, this`transports, this`waitDuration
      modifies transports, Buffers(transports)
      ensures Consistent() && State() == ServeFrom(old(State()), 0, answers)
      ensures Among(transports, old(transports))
    {
      var at, todo := 0, answers;
      ghost var end := ServeFrom(State(), 0, answers);
      while at < |transports|
        invariant 0 <= at && at + |todo| == |transports|
        invariant Among(transports, old(transports))
        invariant Consistent() && ServeFrom(State(), at, todo) == end
        decreases |todo|
      {
        InList(transports, old(transports), at);
        at := ServeNext(at, todo);
        todo := todo[1..];
      }
    }

    /** The body of the loop of `process_transports`, and the place of the next transport. */
    method ServeNext(at: nat, todo: seq<Answer>) returns (next: nat)
      requires Consistent() && at < |transports| && at + |todo| == |transports|
      modifies this`live, this`events, this`tpool, this`sockets, this`channels, this`transports, this`waitDuration
      modifies transports[at], transports[at].buffer
      ensures Consistent() && next + |todo| - 1 == |transports| && Among(transports, old(transports))
      ensures ServeFrom(State(), next, todo[1..]) == ServeFrom(old(State()), at, todo)
    {
      ServeStep(State(), at, todo);
      var kept := ServeTransport(at, todo[0]);
      next := if kept then at + 1 else at;
    }

    // ---------------------------------------------------------- one channel

    /** `allocate_transport`: the last free slot, or a new one. */
    method AllocateTransport() returns (slot: nat)
      requires Fitted()
      modifies this`tpool, this`slotsMade
      ensures Fitted()
      ensures if old(tpool) != [] then old(tpool) == tpool + [slot] && slotsMade == old(slotsMade)
              else tpool == [] && slot == old(slotsMade) && slotsMade == slot + 1
      ensures var s := old(State());
        State() == s.(pool := if s.pool != [] then s.pool[..|s.pool| - 1] else s.pool, nextSlot := slotsMade)
    {
      if tpool != [] {
        slot := tpool[|tpool| - 1];
        tpool := tpool[..|tpool| - 1];
      } else {
        slot := slotsMade;
        slotsMade := slotsMade + 1;
      }
    }

    /** `handle_connect_succeed` and `active_transport`: a client's transport has the socket of its
        channel, an accepted one a new socket. */
    method HandleConnectSucceed(i: nat)
      requires Consistent() && i < |channels|
      modifies this`live, this`events, this`tpool, this`slotsMade, this`nextId, this`sockets, this`transports
      ensures Consistent() && State() == Admit(old(State()), i)
      ensures |transports| > 0 && transports == old(transports) + [transports[|transports| - 1]]
      ensures fresh(transports[|transports| - 1]) && fresh(transports[|transports| - 1].buffer)
    {
      ghost var s := State();
      AdmitSound(s, i);
      var c := channels[i];
      assert ChannelOk(s, c);
      if c.client {
        ActivateTransport(i, c.socket);
      } else {
        var socket := OpenSocket();
        ActivateTransport(i, socket);
      }
      Combine(Admit(s, i));
    }

    method ActivateTransport(i: nat, socket: nat)
      requires Fitted() && i < |channels| && ValidParams(channels[i].params)
      modifies this`live, this`events, this`tpool, this`slotsMade, this`nextId, this`transports
      ensures Fitted() && State() == Activate(old(State()), i, socket)
      ensures |transports| > 0 && transports == old(transports) + [transports[|transports| - 1]]
      ensures fresh(transports[|transports| - 1]) && fresh(transports[|transports| - 1].buffer)
    {
      ghost var s := State();
      var slot := AllocateTransport();
      Activated(slot, i, socket);
    }

    method OpenSocket() returns (socket: nat)
      requires Fitted()
      modifies this`sockets
      ensures Fitted() && socket == |old(sockets)| && sockets == old(sockets) + [Socket(true, false)]
    {
      socket := |sockets|;
      sockets := sockets + [Socket(true, false)];
    }

    method Activated(slot: nat, i: nat, socket: nat)
      requires Fitted() && i < |channels| && ValidParams(channels[i].params)
      modifies this`live, this`events, this`nextId, this`transports
      ensures Fitted()
      ensures var s := old(State());
        State() == s.(nextId := s.nextId + 1, trace := s.trace + [OnOpen(s.nextId)],
                      live := s.live + [Live(slot, s.nextId, i, socket, IDLE, Sending.QUIET, false, 0)])
      ensures |transports| > 0 && transports == old(transports) + [transports[|transports| - 1]]
      ensures fresh(transports[|transports| - 1]) && fresh(transports[|transports| - 1].buffer)
    {
      NewTransport(slot, i, socket);
      Announce();
    }

    method NewTransport(slot: nat, i: nat, socket: nat)
      requires Fitted() && i < |channels| && ValidParams(channels[i].params)
      modifies this`live, this`transports
      ensures Fitted() && live == old(live) + [Live(slot, nextId, i, socket, IDLE, Sending.QUIET, false, 0)]
      ensures |transports| > 0 && transports == old(transports) + [transports[|transports| - 1]]
      ensures fresh(transports[|transports| - 1]) && fresh(transports[|transports| - 1].buffer)
    {
      var t := new IoTransport(slot, nextId, i, socket, channels[i].params, channels[i].tcp);
      ghost var u := Live(slot, nextId, i, socket, IDLE, Sending.QUIET, false, 0);
      forall j | 0 <= j < |transports| ensures Fits(transports[j], live[j], channels) {
        assert old(Fits(transports[j], live[j], channels));
      }
      transports, live := transports + [t], live + [u];
    }

    /** The open event of the transport with the next id. */
    method Announce()
      requires Fitted()
      modifies this`events, this`nextId
      ensures Fitted() && nextId == old(nextId) + 1 && events == old(events) + [OnOpen(old(nextId))]
    {
      events, nextId := events + [OnOpen(nextId)], nextId + 1;
    }

    // ---------------------------------------------------------- channels in operation

    method SetChannelAt(i: nat, c: Channel, k: Socket)
      requires Consistent() && i < |channels| && SameMake(channels[i], c)
      modifies this`channels, this`sockets
      ensures c.socket < |old(sockets)| && Consistent() && State() == SetChannel(old(State()), i, c, k)
    {
      ghost var s := State();
      SetChannelSound(s, i, c, k);
      StillFit(transports, live, channels, channels[i := c]);
      Renewed(i, c, k);
      Combine(SetChannel(s, i, c, k));
    }

    method Renewed(i: nat, c: Channel, k: Socket)
      requires i < |channels| && c.socket < |sockets| && AllFit(transports, live, channels[i := c]) && Apart(transports)
      modifies this`channels, this`sockets
      ensures Fitted() && channels == old(channels)[i := c] && sockets == old(sockets)[c.socket := k]
    {
      channels := channels[i := c];
      sockets := sockets[c.socket := k];
    }

    /** What a channel and its socket have become, and its connection if there is one. */
    method Take(i: nat, c: Channel, k: Socket, connected: bool)
      requires Consistent() && i < |channels| && SameMake(channels[i], c)
      modifies this`live, this`events, this`tpool, this`slotsMade, this`nextId, this`sockets, this`channels
      modifies this`transports
      ensures Consistent() && c.socket < |old(sockets)|
      ensures State() == Took(old(State()), i, Operated(c, k, false, connected))
      ensures forall t :: t in transports ==> t in old(transports) || (fresh(t) && fresh(t.buffer))
    {
      SetChannelAt(i, c, k);
      if connected { HandleConnectSucceed(i); }
    }

    /** The body of the loop of `process_channels`. */
    method OperateChannel(at: nat, a: ChannelAnswer) returns (kept: bool)
      requires Consistent() && at < |channelOps|
      modifies this`live, this`events, this`tpool, this`slotsMade, this`nextId, this`sockets, this`channels
      modifies this`transports
      modifies this`channelOps
      ensures Consistent() && (State(), kept) == Operate(old(State()), at, a)
      ensures forall t :: t in transports ==> t in old(transports) || (fresh(t) && fresh(t.buffer))
    {
      ghost var s := State();
      OperateSound(s, at, a);
      var i := channelOps[at];
      assert ChannelOk(s, channels[i]);
      ChannelKept(channels[i], sockets[channels[i].socket], a);
      var c, k, finished, connected := ChannelTurn(channels[i], sockets[channels[i].socket], a);
      Take(i, c, k, connected);
      if finished { EraseOp(at); }
      kept := !finished;
      Combine(Operate(s, at, a).0);
    }

    method EraseOp(at: nat)
      requires Fitted() && at < |channelOps|
      modifies this`channelOps
      ensures Fitted() && channelOps == old(channelOps)[..at] + old(channelOps)[at + 1..]
    {
      channelOps := channelOps[..at] + channelOps[at + 1..];
    }

    /** `process_channels`. */
    method ProcessChannels(replies: seq<ChannelAnswer>)
      requires Consistent() && |replies| == |channelOps|
      modifies this`live, this`events, this`tpool, this`slotsMade, this`nextId, this`sockets, this`channels
      modifies this`transports
      modifies this`channelOps
      ensures Consistent() && State() == OperateFrom(old(State()), 0, replies)
      ensures forall t :: t in transports ==> t in old(transports) || (fresh(t) && fresh(t.buffer))
    {
      var at, todo := 0, replies;
      ghost var end := OperateFrom(State(), 0, replies);
      while at < |channelOps|
        invariant 0 <= at && at + |todo| == |channelOps|
        invariant forall t :: t in transports ==> t in old(transports) || (fresh(t) && fresh(t.buffer))
        invariant Consistent() && OperateFrom(State(), at, todo) == end
        decreases |todo|
      {
        at := OperateNext(at, todo);
        todo := todo[1..];
      }
    }

    method OperateNext(at: nat, todo: seq<ChannelAnswer>) returns (next: nat)
      requires Consistent() && at < |channelOps| && at + |todo| == |channelOps|
      modifies this`live, this`events, this`tpool, this`slotsMade, this`nextId, this`sockets, this`channels
      modifies this`transports
      modifies this`channelOps
      ensures Consistent() && next + |todo| - 1 == |channelOps|
      ensures OperateFrom(State(), next, todo[1..]) == OperateFrom(old(State()), at, todo)
      ensures forall t :: t in transports ==> t in old(transports) || (fresh(t) && fresh(t.buffer))
    {
      OperateStep(State(), at, todo);
      var kept := OperateChannel(at, todo[0]);
      next := if kept then at + 1 else at;
    }

    // ---------------------------------------------------------- the phases of a turn

    /** The run goes on by a step. */
    ghost method Record(before: Loop, e: Step)
      requires Consistent() && timers.Valid() && Timers.Positive(timers.All())
      requires Starts(start) && Sound(start.s) && CanRun(start, steps) && Run(start, steps) == before
      requires CanStep(before, e) && Now().(phase := After(before, e).phase) == After(before, e)
      modifies this`steps, this`phase
      ensures Valid() && steps == old(steps) + [e] && phase == After(before, e).phase
    {
      OneMore(start, steps, e);
      Advance(e, After(before, e).phase);
    }

    ghost method Advance(e: Step, to: Phase)
      requires Consistent() && timers.Valid()
      modifies this`steps, this`phase
      ensures Consistent() && timers.Valid() && steps == old(steps) + [e] && phase == to
    {
      steps, phase := steps + [e], to;
      Combine(State());
    }

    /** The head of a turn: the clock, and `get_timeout`. */
    method BeginPoll(now: int) returns (timeout: int)
      requires Valid() && phase == AtPoll && now >= timers.currentTime
      modifies this`waitDuration, this`phase, this`steps, timers`currentTime
      ensures Valid() && steps == old(steps) + [Sleep(now, timeout)]
      ensures phase == (if timeout > 0 then Waiting(timeout) else AtTransports) && timers.currentTime == now
    {
      ghost var before := Now();
      timeout := GetTimeout(now);
      Record(before, Sleep(now, timeout));
    }

    /** `get_timeout`: the wait asked for is taken and reset, and no timer has to wait for less. */
    method GetTimeout(now: int) returns (timeout: int)
      requires Consistent() && timers.Valid()
      modifies this`waitDuration, timers`currentTime
      ensures Consistent() && timers.Valid() && timers.currentTime == now && State() == BeginTurn(old(State()))
      ensures Timers.IsTimeout(timers.All(), now, old(waitDuration), timeout)
      ensures Timers.InTime(timers.All(), now, old(waitDuration), timeout)
    {
      ghost var s := State();
      timers.currentTime := now;
      timeout := timers.GetTimeout(waitDuration);
      waitDuration := schedFreq;
      SoundAgain(s, BeginTurn(s));
      Combine(BeginTurn(s));
    }

    /** While the poll waits nothing is left to do, if no client was opened again on an open socket, and
        nothing is asked that the loop would do. */
    lemma NothingLeftToDo()
      requires Valid() && phase.Waiting? && !woken && Ownership.NoReopen(start, steps)
      ensures forall i :: 0 <= i < |live| ==> Ownership.Served(State(), live[i]) && !live[i].closeMask
      ensures forall i :: 0 <= i < |channels| ==> Ownership.ConnectWatched(State(), channels[i])
      ensures forall i :: 0 <= i < |channels| ==>
        !channels[i].openMask && (channels[i].closeMask ==> channels[i].client)
      ensures forall e :: e in timers.All() ==> timers.currentTime + 1000 * phase.timeout <= e.expire
    {
      Ownership.NothingSleptOn(start, steps);
      Requests.RequestsNotSleptOn(start, steps);
    }

    /** The poll returns. */
    method PollIo()
      requires Valid() && phase.Waiting?
      modifies this`woken, this`phase, this`steps
      ensures Valid() && steps == old(steps) + [PollReturns] && phase == AtTransports
    {
      ghost var before := Now();
      woken := false;
      SoundAgain(before.s, State());
      Record(before, PollReturns);
    }

    method TransportsPhase(answers: seq<Answer>)
      requires Valid() && phase == AtTransports && |answers| == |transports|
      modifies this`live, this`events, this`tpool, this`sockets, this`channels, this`transports, this`waitDuration
      modifies this`phase, this`steps, transports, Buffers(transports)
      ensures Valid() && steps == old(steps) + [ServeTransports(answers)] && phase == AtChannels
      ensures Among(transports, old(transports)) && channelOps == old(channelOps) && |channels| == |old(channels)|
    {
      ghost var before := Now();
      ProcessTransports(answers);
      Record(before, ServeTransports(answers));
    }

    method ChannelsPhase(replies: seq<ChannelAnswer>)
      requires Valid() && phase == AtChannels && |replies| == |channelOps|
      modifies this`live, this`events, this`tpool, this`slotsMade, this`nextId, this`sockets, this`channels
      modifies this`transports
      modifies this`channelOps, this`phase, this`steps
      ensures Valid() && steps == old(steps) + [ServeChannels(replies)] && phase == AtTimers
      ensures |channels| == |old(channels)|
      ensures forall t :: t in transports ==> t in old(transports) || (fresh(t) && fresh(t.buffer))
    {
      ghost var before := Now();
      ProcessChannels(replies);
      Record(before, ServeChannels(replies));
    }

    /** The callback of a connect timer. */
    method ConnectTimer(i: nat)
      requires Valid() && phase == AtTimers && i < |channels|
      modifies this`channels, this`sockets, this`steps, this`phase
      ensures Valid() && steps == old(steps) + [ConnectTimerFires(i)] && phase == AtTimers
      ensures |channels| == |old(channels)|
    {
      ghost var before := Now();
      assert ChannelOk(State(), State().channels[i]);
      if channels[i].state != OPENED { SetChannelAt(i, Cleaned(channels[i]), CLOSED_SOCKET); }
      Record(before, ConnectTimerFires(i));
    }

    /** `process_timers`, and the end of the turn: the loop goes on until it is stopped and has no
        transport left. */
    method TimersPhase(respond: Timers.Entry -> Timers.Answer)
      returns (ghost fired: seq<Timers.Entry>, ghost wake: bool)
      requires Valid() && phase == AtTimers && Timers.AllPolite(respond, timers.currentTime)
      modifies this`woken, this`phase, this`steps, timers`queue
      ensures Valid() && steps == old(steps) + [ServeTimers(respond, fired, timers.All(), wake)]
      ensures phase == (if stopFlag && transports == [] then Exited else AtPoll)
    {
      ghost var before := Now();
      fired, wake := ProcessTimers(respond);
      Record(before, ServeTimers(respond, fired, timers.All(), wake));
    }

    method ProcessTimers(respond: Timers.Entry -> Timers.Answer)
      returns (ghost fired: seq<Timers.Entry>, ghost wake: bool)
      requires Consistent() && timers.Valid() && Timers.Positive(timers.All())
      requires Timers.AllPolite(respond, timers.currentTime)
      modifies this`woken, timers`queue
      ensures Consistent() && timers.Valid() && Timers.Positive(timers.All())
      ensures State() == old(State()).(woken := old(woken) || wake)
      ensures Timers.Pass(old(timers.All()), timers.currentTime, respond, fired, timers.All())
    {
      var done, wakeup := timers.ProcessTimers(respond);
      Wake(wakeup);
      fired, wake := done, wakeup;
    }

    /** A turn of `run`: the wait, transports, channels, and timers with the connect timers `late` among
        them. The service has taken exactly these steps, and is where they lead. */
    method Turn(now: int, answers: seq<Answer>, replies: seq<ChannelAnswer>, late: seq<nat>,
                respond: Timers.Entry -> Timers.Answer)
      returns (timeout: int, ghost fired: seq<Timers.Entry>, ghost wake: bool)
      requires Valid() && phase == AtPoll && now >= timers.currentTime
      requires |answers| == |transports| && |replies| == |channelOps| && Timers.AllPolite(respond, now)
      requires forall i :: 0 <= i < |late| ==> late[i] < |channels|
      modifies this`live, this`events, this`tpool, this`slotsMade, this`nextId, this`sockets, this`channels
      modifies this`transports
      modifies this`channelOps, this`waitDuration, this`woken, this`phase, this`steps, timers, transports
      modifies Buffers(transports)
      ensures Valid() && phase == (if stopFlag && transports == [] then Exited else AtPoll)
      ensures timers.currentTime == now && |channels| == |old(channels)|
      ensures forall t :: t in transports ==> t in old(transports) || (fresh(t) && fresh(t.buffer))
      ensures var es := TurnSteps(now, timeout, answers, replies, late,
                                  ServeTimers(respond, fired, timers.All(), wake));
        && steps == old(steps) + es
        && CanRun(old(Now()), es) && Run(old(Now()), es) == Now()
    {
      timeout, fired, wake := TakeTurn(now, answers, replies, late, respond);
      Composed(start, old(steps), TurnSteps(now, timeout, answers, replies, late,
                                            ServeTimers(respond, fired, timers.All(), wake)));
    }

    method TakeTurn(now: int, answers: seq<Answer>, replies: seq<ChannelAnswer>, late: seq<nat>,
                    respond: Timers.Entry -> Timers.Answer)
      returns (timeout: int, ghost fired: seq<Timers.Entry>, ghost wake: bool)
      requires Valid() && phase == AtPoll && now >= timers.currentTime
      requires |answers| == |transports| && |replies| == |channelOps| && Timers.AllPolite(respond, now)
      requires forall i :: 0 <= i < |late| ==> late[i] < |channels|
      modifies this`live, this`events, this`tpool, this`slotsMade, this`nextId, this`sockets, this`channels
      modifies this`transports
      modifies this`channelOps, this`waitDuration, this`woken, this`phase, this`steps, timers, transports
      modifies Buffers(transports)
      ensures Valid() && phase == (if stopFlag && transports == [] then Exited else AtPoll)
      ensures timers.currentTime == now && |channels| == |old(channels)|
      ensures forall t :: t in transports ==> t in old(transports) || (fresh(t) && fresh(t.buffer))
      ensures steps == old(steps) +
        TurnSteps(now, timeout, answers, replies, late, ServeTimers(respond, fired, timers.All(), wake))
    {
      ghost var was := steps;
      timeout := WaitForEvents(now);
      fired, wake := Process(answers, replies, late, respond);
      TurnParts(was, Head(now, timeout), [ServeTransports(answers)], [ServeChannels(replies)], Late(late),
                [ServeTimers(respond, fired, timers.All(), wake)]);
    }

    method WaitForEvents(now: int) returns (timeout: int)
      requires Valid() && phase == AtPoll && now >= timers.currentTime
      modifies this`waitDuration, this`woken, this`phase, this`steps, timers`currentTime
      ensures Valid() && phase == AtTransports && timers.currentTime == now && steps == old(steps) + Head(now, timeout)
    {
      ghost var was := steps;
      timeout := BeginPoll(now);
      if timeout > 0 {
        PollIo();
        TwoMore(was, Sleep(now, timeout), PollReturns);
      }
    }

    method Process(answers: seq<Answer>, replies: seq<ChannelAnswer>, late: seq<nat>,
                   respond: Timers.Entry -> Timers.Answer)
      returns (ghost fired: seq<Timers.Entry>, ghost wake: bool)
      requires Valid() && phase == AtTransports && |answers| == |transports| && |replies| == |channelOps|
      requires Timers.AllPolite(respond, timers.currentTime) && forall i :: 0 <= i < |late| ==> late[i] < |channels|
      modifies this`live, this`events, this`tpool, this`slotsMade, this`nextId, this`sockets, this`channels
      modifies this`transports
      modifies this`channelOps, this`waitDuration, this`woken, this`phase, this`steps
      modifies timers`queue, transports, Buffers(transports)
      ensures Valid() && phase == (if stopFlag && transports == [] then Exited else AtPoll)
      ensures |channels| == |old(channels)|
      ensures forall t :: t in transports ==> t in old(transports) || (fresh(t) && fresh(t.buffer))
      ensures steps == old(steps) + [ServeTransports(answers)] + [ServeChannels(replies)] + Late(late) +
                       [ServeTimers(respond, fired, timers.All(), wake)]
    {
      TransportsAndChannels(answers, replies);
      fired, wake := FireTimers(late, respond);
    }

    method TransportsAndChannels(answers: seq<Answer>, replies: seq<ChannelAnswer>)
      requires Valid() && phase == AtTransports && |answers| == |transports| && |replies| == |channelOps|
      modifies this`live, this`events, this`tpool, this`slotsMade, this`nextId, this`sockets, this`channels
      modifies this`transports
      modifies this`channelOps, this`waitDuration, this`woken, this`phase, this`steps, transports, Buffers(transports)
      ensures Valid() && phase == AtTimers && |channels| == |old(channels)|
      ensures steps == old(steps) + [ServeTransports(answers)] + [ServeChannels(replies)]
      ensures forall t :: t in transports ==> t in old(transports) || (fresh(t) && fresh(t.buffer))
    {
      ghost var ts := transports;
      TransportsPhase(answers);
      ghost var ts1 := transports;
      ChannelsPhase(replies);
      forall t | t in transports ensures t in ts || (fresh(t) && fresh(t.buffer)) {
        assert t in ts1 ==> t in ts;
      }
    }

    method FireTimers(late: seq<nat>, respond: Timers.Entry -> Timers.Answer)
      returns (ghost fired: seq<Timers.Entry>, ghost wake: bool)
      requires Valid() && phase == AtTimers && forall i :: 0 <= i < |late| ==> late[i] < |channels|
      requires Timers.AllPolite(respond, timers.currentTime)
      modifies this`channels, this`sockets, this`woken, this`steps, this`phase, timers`queue
      ensures Valid() && phase == (if stopFlag && transports == [] then Exited else AtPoll)
      ensures |channels| == |old(channels)|
      ensures steps == old(steps) + Late(late) + [ServeTimers(respond, fired, timers.All(), wake)]
    {
      ConnectTimers(late);
      fired, wake := TimersPhase(respond);
    }

    method ConnectTimers(late: seq<nat>)
      requires Valid() && phase == AtTimers && forall i :: 0 <= i < |late| ==> late[i] < |channels|
      modifies this`channels, this`sockets, this`steps, this`phase
      ensures Valid() && phase == AtTimers && steps == old(steps) + Late(late) && |channels| == |old(channels)|
    {
      ghost var was, n := steps, |channels|;
      for i := 0 to |late|
        invariant Valid() && phase == AtTimers && |channels| == n
        invariant steps == was + Late(late[..i])
      {
        ConnectTimer(late[i]);
        LateMore(was, late, i);
      }
      assert late[..|late|] == late;
    }

    /** `run` from a stop on, with what each turn meets: it ends, with no transport left, after at most
        one turn more than there are clients resolving or connecting. */
    method RunToEnd(w: World) returns (turns: nat)
      requires Valid() && phase == AtPoll && Stopping.Quiet(State())
      requires Proper(w, |channels|) && timers.currentTime <= w.now(0)
      modifies this`live, this`events, this`tpool, this`slotsMade, this`nextId, this`sockets, this`channels
      modifies this`transports
      modifies this`channelOps, this`waitDuration, this`woken, this`phase, this`steps, timers, transports
      modifies Buffers(transports)
      ensures Valid() && phase == Exited && transports == []
      ensures turns <= old(Stopping.Busy(channels)) + 1
    {
      ghost var n := |channels|;
      turns := 0;
      var going := true;
      while going
        invariant Valid() && phase == (if going then AtPoll else Exited) && (going ==> Stopping.Quiet(State()))
        invariant timers.currentTime <= w.now(turns) && |channels| == n && (!going ==> transports == [])
        invariant turns + Stopping.TurnsLeft(Now()) <= old(Stopping.Busy(channels)) + 1
        invariant forall t :: t in transports ==> t in old(transports) || (fresh(t) && fresh(t.buffer))
        decreases going, Stopping.TurnsLeft(Now())
      {
        going := NextTurn(w, turns);
        turns := turns + 1;
      }
    }

    method NextTurn(w: World, turn: nat) returns (going: bool)
      requires Valid() && phase == AtPoll && Stopping.Quiet(State()) && timers.currentTime <= w.now(turn)
      requires Proper(w, |channels|)
      modifies this`live, this`events, this`tpool, this`slotsMade, this`nextId, this`sockets, this`channels
      modifies this`transports
      modifies this`channelOps, this`waitDuration, this`woken, this`phase, this`steps, timers, transports
      modifies Buffers(transports)
      ensures Valid() && phase == (if going then AtPoll else Exited) && (!going ==> transports == [])
      ensures Stopping.Quiet(State()) && Stopping.TurnsLeft(Now()) < Stopping.TurnsLeft(old(Now()))
      ensures timers.currentTime <= w.now(turn + 1) && |channels| == |old(channels)|
      ensures forall t :: t in transports ==> t in old(transports) || (fresh(t) && fresh(t.buffer))
    {
      var ts, n := transports, |channelOps|;
      var answers := seq(|ts|, i requires 0 <= i < |ts| => w.answer(turn, ts[i].id));
      var ops := channelOps;
      var replies := seq(|ops|, i requires 0 <= i < |ops| => w.reply(turn, ops[i]));
      ghost var before := Now();
      var timeout, fired, wake := Turn(w.now(turn), answers, replies, w.late(turn), w.respond(turn));
      going := !stopFlag || transports != [];
      TurnQuiet(before, w.now(turn), timeout, answers, replies, w.late(turn),
                ServeTimers(w.respond(turn), fired, timers.All(), wake));
    }

    // ---------------------------------------------------------- requests

    /** `open_internal`. */
    method OpenInternal(i: nat) returns (ok: bool)
      requires Valid() && i < |channels|
      modifies this`channels, this`channelOps, this`woken, this`steps, this`phase
      ensures Valid() && steps == old(steps) + [OpenRequest(i)] && phase == old(phase)
      ensures ok <==> old(channels)[i].state != CONNECTING && old(channels)[i].state != RESOLVING
    {
      ghost var before := Now();
      RequestSound(before.s, OpenRequest(i));
      ok := channels[i].state != CONNECTING && channels[i].state != RESOLVING;
      if ok { QueueOpen(i); }
      Combine(Open(before.s, i));
      Record(before, OpenRequest(i));
    }

    method QueueOpen(i: nat)
      requires Fitted() && i < |channels| && channels[i].state != CONNECTING && channels[i].state != RESOLVING
      modifies this`channels, this`channelOps, this`woken
      ensures Fitted() && State() == Open(old(State()), i)
    {
      var c := channels[i];
      c := c.(closeMask := false);
      c := c.(openMask := true);
      StillFit(transports, live, channels, channels[i := c]);
      channels := channels[i := c];
      if i !in channelOps { channelOps := channelOps + [i]; }
      woken := true;
    }

    /** `close(index)`. */
    method CloseIndex(i: nat)
      requires Valid() && i < |channels|
      modifies this`channels, this`woken, this`steps, this`phase
      ensures Valid() && steps == old(steps) + [CloseRequest(i)] && phase == old(phase)
    {
      ghost var before := Now();
      assert ChannelOk(before.s, before.s.channels[i]);
      RequestSound(before.s, CloseRequest(i));
      AskClose(i);
      Combine(CloseChannel(before.s, i));
      Record(before, CloseRequest(i));
    }

    method AskClose(i: nat)
      requires Fitted() && i < |channels| && channels[i].socket < |sockets|
      modifies this`channels, this`woken
      ensures Fitted() && State() == CloseChannel(old(State()), i)
    {
      var c := channels[i];
      if !c.closeMask {
        c := c.(openMask := false);
        if sockets[c.socket].open {
          c := c.(closeMask := true);
          woken := true;
        }
      }
      StillFit(transports, live, channels, channels[i := c]);
      channels := channels[i := c];
    }

    /** `close(transport)`. */
    method CloseTransport(at: nat)
      requires Valid() && at < |transports|
      modifies this`live, this`woken, this`steps, this`phase, transports[at]
      ensures Valid() && steps == old(steps) + [CloseTransportRequest(at)] && phase == old(phase)
    {
      ghost var before := Now();
      RequestSound(before.s, CloseTransportRequest(at));
      assert Fits(transports[at], live[at], channels);
      if !transports[at].closeMask { MarkClose(at); }
      Combine(EventLoop.CloseTransport(before.s, at));
      Record(before, CloseTransportRequest(at));
    }

    method MarkClose(at: nat)
      requires Fitted() && at < |transports| && !live[at].closeMask
      modifies this`live, this`woken, transports[at]
      ensures Fitted() && State() == EventLoop.CloseTransport(old(State()), at)
    {
      ghost var u := live[at].(closeMask := true);
      assert Fits(transports[at], live[at], channels);
      MarkOne(transports, live, channels, at, true, transports[at].error);
      live := live[at := u];
      woken := true;
    }

    /** `write` on a live transport. */
    method Write(at: nat, id: nat, data: Text) returns (n: int)
      requires Valid() && at < |transports|
      modifies this`live, this`woken, this`steps, this`phase, transports[at]
      ensures Valid() && steps == old(steps) + [WriteRequest(at, id, data)] && phase == old(phase)
      ensures live[at].socket < |sockets| && n == if sockets[live[at].socket].open then |data| else -1
    {
      ghost var before := Now();
      RequestSound(before.s, WriteRequest(at, id, data));
      assert Fits(transports[at], live[at], channels) && LiveOk(before.s, before.s.live[at]);
      if sockets[transports[at].socket].open {
        n := |data|;
        if data != [] { Enqueue(at, id, data); }
      } else {
        n := -1;
      }
      Combine(EventLoop.Write(before.s, at, id, data));
      Record(before, WriteRequest(at, id, data));
    }

    method Enqueue(at: nat, id: nat, data: Text)
      requires Fitted() && at < |transports| && data != [] && live[at].socket < |sockets|
      requires sockets[live[at].socket].open
      modifies this`live, this`woken, transports[at]
      ensures Fitted() && State() == EventLoop.Write(old(State()), at, id, data)
    {
      ghost var u := live[at].(tx := Sending.Write(live[at].tx, id, data));
      EnqueueOne(transports, live, channels, at, id, data);
      live := live[at := u];
      woken := true;
    }

    /** `do_stop` on a running service. */
    method DoStop()
      requires Valid()
      modifies this`channels, this`woken, this`stopFlag, this`steps, this`phase
      ensures Valid() && steps == old(steps) + [StopRequest] && phase == old(phase) && stopFlag
      ensures !old(stopFlag) ==> Stopping.Quiet(State()) && Stopping.Busy(channels) <= old(Stopping.Busy(channels))
    {
      ghost var before := Now();
      if !stopFlag { QuietAfterStop(start, steps); }
      RequestSound(before.s, StopRequest);
      if !stopFlag { CloseAll(); }
      Combine(Stop(before.s));
      Record(before, StopRequest);
    }

    method CloseAll()
      requires Consistent() && !stopFlag
      modifies this`channels, this`woken, this`stopFlag
      ensures Fitted() && State() == Stop(old(State()))
    {
      stopFlag := true;
      ghost var s := State();
      forall i | 0 <= i < |channels| ensures channels[i].socket < |sockets| { assert ChannelOk(s, s.channels[i]); }
      for i := 0 to |channels|
        invariant Fitted() && |channels| == |s.channels|
        invariant State() == s.(channels := channels, woken := woken)
        invariant forall j :: 0 <= j < |channels| ==> s.channels[j].socket < |sockets|
        invariant forall j :: i <= j < |channels| ==> channels[j] == s.channels[j]
        invariant forall j :: 0 <= j < i ==>
          channels[j] == ClosedByRequest(s.channels[j], sockets[s.channels[j].socket].open)
      {
        AskClose(i);
      }
      woken := true;
    }

    method Wake(wakeup: bool)
      requires Consistent()
      modifies this`woken
      ensures Consistent() && State() == old(State()).(woken := old(woken) || wakeup)
    {
      ghost var s := State();
      woken := woken || wakeup;
      SoundAgain(s, State());
      Combine(State());
    }

    /** `schedule_timer` from elsewhere, with an expiry at least a microsecond ahead. */
    method ScheduleTimer(e: Timers.Entry)
      requires Valid() && Timers.Ahead(Timers.Schedule(e), timers.currentTime)
      modifies this`woken, this`steps, this`phase, timers`queue
      ensures Valid() && phase == old(phase)
      ensures exists wake :: steps == old(steps) + [TimerRequest(Timers.Schedule(e), wake)]
    {
      ghost var before := Now();
      var wakeup := timers.ScheduleTimer(e);
      Wake(wakeup);
      Record(before, TimerRequest(Timers.Schedule(e), wakeup));
    }

    /** `cancel` from elsewhere. */
    method CancelTimer(timer: nat)
      requires Valid()
      modifies this`woken, this`steps, this`phase, timers`queue
      ensures Valid() && phase == old(phase)
      ensures exists wake :: steps == old(steps) + [TimerRequest(Timers.Cancel(timer), wake)]
    {
      ghost var before := Now();
      var wakeup := timers.CancelTimer(timer);
      Wake(wakeup);
      Record(before, TimerRequest(Timers.Cancel(timer), wakeup));
    }
  }

  /** The client branch of `process_channels`. */
  method ClientTurn(ctx: Channel, socket: Socket, o: Outcome)
    returns (c: Channel, k: Socket, finished: bool, connected: bool)
    ensures Operated(c, k, finished, connected) == ServeClient(ctx, socket, o)
  {
    c, k, finished, connected := ctx, socket, false, false;
    if c.openMask { c := c.(openMask := false, state := RESOLVING); }
    if c.state == RESOLVING {
      if o.Failing? { // handle_connect_failed
        c, k, finished := Cleaned(c), CLOSED_SOCKET, true;
      } else if !o.Pending? { // do_connect
        if k.open { c := Cleaned(c); }
        c, k := c.(state := CONNECTING), Socket(true, false);
        if o.Connected? {
          c, connected, finished := c.(state := OPENED), true, true;
        } else {
          k := k.(watched := true);
        }
      }
    } else if c.state == CONNECTING { // do_connect_completion
      if k.open {
        if o.Failing? { c, k, finished := Cleaned(c), CLOSED_SOCKET, true; }
        if o.Connected? { c, k, connected, finished := c.(state := OPENED), k.(watched := false), true, true; }
      }
    } else {
      finished := true;
    }
  }

  /** The server branch of `process_channels`. */
  method ServerTurn(ctx: Channel, socket: Socket, a: ChannelAnswer)
    returns (c: Channel, k: Socket, finished: bool, connected: bool)
    ensures Operated(c, k, finished, connected) == ServeServer(ctx, socket, a)
  {
    c, k := ctx, socket;
    if c.openMask { // do_accept
      c, k := Cleaned(c), CLOSED_SOCKET;
      if a.listens { c, k := c.(state := OPENED), Socket(true, false); }
    } else if c.closeMask { // cleanup_channel
      c, k := Cleaned(c), CLOSED_SOCKET;
    }
    finished := c.state != OPENED;
    connected := !finished && a.accepts && c.tcp;
  }

  /** One channel of `process_channels`. */
  method ChannelTurn(ctx: Channel, socket: Socket, a: ChannelAnswer)
    returns (c: Channel, k: Socket, finished: bool, connected: bool)
    ensures Operated(c, k, finished, connected) == ServeChannel(ctx, socket, a)
  {
    if ctx.client {
      c, k, finished, connected := ClientTurn(ctx, socket, a.outcome);
    } else {
      c, k, finished, connected := ServerTurn(ctx, socket, a);
    }
  }

  /** A transport's receive does with its value what is specified, and the others stay. */
  method ReadOne(ts: seq<IoTransport>, ghost us: seq<Live>, cs: seq<Channel>, at: nat, r: Recv)
    returns (ok: bool, again: bool, packets: seq<Text>)
    requires AllFit(ts, us, cs) && Apart(ts) && at < |ts|
    requires ValidParams(cs[us[at].channel].params) && RxOk(cs[us[at].channel].params, us[at].rx)
    modifies ts[at], ts[at].buffer
    ensures var g := DoRead(cs[us[at].channel], us[at], r);
      && AllFit(ts, us[at := g.t], cs) && g.t.id == ts[at].id
      && ok == g.ok && (ok ==> again == g.again && packets == g.packets)
  {
    var t := ts[at];
    assert Fits(t, us[at], cs);
    ok, again, packets := Receive(t, us[at], cs[t.channel], r);
    forall i | 0 <= i < |ts| && i != at ensures Fits(ts[i], us[i], cs) { assert old(Fits(ts[i], us[i], cs)); }
  }

  method WriteOne(ts: seq<IoTransport>, ghost us: seq<Live>, cs: seq<Channel>, at: nat, k: Sending.Kernel)
    returns (ok: bool, again: bool, interest: Sending.Interest)
    requires AllFit(ts, us, cs) && Apart(ts) && at < |ts| && Sending.TxOk(us[at].tx)
    modifies ts[at]
    ensures var t, kk := us[at], Sending.Clip(k, us[at].tx);
      var w := Sending.DoWrite(t.tx, kk, !cs[t.channel].tcp);
      && AllFit(ts, us[at := t.(tx := w.tx, error := if w.ok then t.error else WriteError(kk))], cs)
      && ok == w.ok && again == w.again && interest == w.interest && t.socket == ts[at].socket
  {
    var t := ts[at];
    assert Fits(t, us[at], cs);
    ok, again, interest := t.DoWrite(k);
    forall i | 0 <= i < |ts| && i != at ensures Fits(ts[i], us[i], cs) { assert old(Fits(ts[i], us[i], cs)); }
  }

  method Receive(t: IoTransport, ghost u: Live, c: Channel, r: Recv) returns (ok: bool, again: bool, packets: seq<Text>)
    requires t.Valid() && Mirrors(t, u) && t.params == c.params && t.tcp == c.tcp
    modifies t, t.buffer
    ensures t.Valid()
    ensures var g := DoRead(c, u, r);
      Mirrors(t, g.t) && ok == g.ok && (ok ==> again == g.again && packets == g.packets)
  {
    var n := |t.delivered|;
    packets := [];
    ok, again := t.DoRead(r);
    if ok { packets := t.delivered[n..]; }
  }

  /** Mark a transport for its close. */
  method MarkOne(ts: seq<IoTransport>, ghost us: seq<Live>, cs: seq<Channel>, at: nat, closeMask: bool, error: int)
    requires AllFit(ts, us, cs) && Apart(ts) && at < |ts|
    modifies ts[at]
    ensures AllFit(ts, us[at := us[at].(closeMask := closeMask, error := error)], cs)
  {
    assert Fits(ts[at], us[at], cs);
    ts[at].closeMask, ts[at].error := closeMask, error;
    forall i | 0 <= i < |ts| && i != at ensures Fits(ts[i], us[i], cs) { assert old(Fits(ts[i], us[i], cs)); }
  }

  method EnqueueOne(ts: seq<IoTransport>, ghost us: seq<Live>, cs: seq<Channel>, at: nat, id: nat, data: Text)
    requires AllFit(ts, us, cs) && Apart(ts) && at < |ts| && data != []
    modifies ts[at]
    ensures AllFit(ts, us[at := us[at].(tx := Sending.Write(us[at].tx, id, data))], cs)
  {
    assert Fits(ts[at], us[at], cs);
    ts[at].Write(id, data);
    forall i | 0 <= i < |ts| && i != at ensures Fits(ts[i], us[i], cs) { assert old(Fits(ts[i], us[i], cs)); }
  }

  /** What a reading does to the service. */
  function Heeded(s: Service, at: nat, g: Reading): Service
    requires at < |s.live|
  {
    var s1 := s.(live := s.live[at := g.t]);
    if g.ok then Told(s1, g, false) else s1
  }

  lemma HeededSound(s: Service, at: nat, g: Reading)
    requires Sound(s) && at < |s.live| && LiveOk(s, g.t)
    ensures Sound(Heeded(s, at, g))
  {
    SoundAgain(s, Heeded(s, at, g));
  }

  /** What a write turn does to the service. */
  function Wrote(s: Service, at: nat, k: Sending.Kernel): (Service, bool)
    requires at < |s.live| && LiveOk(s, s.live[at])
  {
    var t := s.live[at];
    var kk := Sending.Clip(k, t.tx);
    var w := Sending.DoWrite(t.tx, kk, !s.channels[t.channel].tcp);
    var s1 := Asked(s.(wait := if w.again then 0 else s.wait), t, w.interest);
    (s1.(live := s1.live[at := t.(tx := w.tx, error := if w.ok then t.error else WriteError(kk))]), w.ok)
  }

  lemma WroteSound(s: Service, at: nat, k: Sending.Kernel)
    requires Sound(s) && at < |s.live| && LiveOk(s, s.live[at])
    ensures Sound(Wrote(s, at, k).0)
  {
    var t := s.live[at];
    var kk := Sending.Clip(k, t.tx);
    Sending.NoWorkIsSleptOn(t.tx, kk, !s.channels[t.channel].tcp, false);
    var s' := Wrote(s, at, k).0;
    assert LiveOk(s, s'.live[at]);
    SoundAgain(s, s');
  }

  /** A transport's read, and its write if the read goes on. */
  function Turned(s: Service, at: nat, a: Answer): (Service, bool)
    requires Sound(s) && at < |s.live|
  {
    var t := s.live[at];
    assert LiveOk(s, t);
    if !s.sockets[t.socket].open then (s, false)
    else
      var g := DoRead(s.channels[t.channel], t, a.r);
      ReadingOk(s, t, a.r);
      if g.ok then Wrote(Heeded(s, at, g), at, a.k) else (Heeded(s, at, g), false)
  }

  /** A transport's turn is its read and its write, and the end of both. */
  lemma ServeInParts(s: Service, at: nat, a: Answer)
    requires Sound(s) && at < |s.live|
    ensures var (z, ok) := Turned(s, at, a);
      && |z.live| == |s.live| && PlacedIn(z, z.live[at])
      && Serve(s, at, a) == Settle(z, at, z.live[at], ok, z.live[at].error)
  {
    var t := s.live[at];
    assert LiveOk(s, t);
    if s.sockets[t.socket].open {
      var g := DoRead(s.channels[t.channel], t, a.r);
      ReadingOk(s, t, a.r);
      if !g.ok { SettleForgets(s, at, g.t, g.t, false, g.t.error); } else { WriteInParts(s, at, g, a.k); }
    }
  }

  lemma WriteInParts(s: Service, at: nat, g: Reading, k: Sending.Kernel)
    requires Sound(s) && at < |s.live| && LiveOk(s, g.t) && g.ok
    ensures var s1 := Heeded(s, at, g);
      && LiveOk(s1, s1.live[at])
      && var (s2, ok) := Wrote(s1, at, k);
         PlacedIn(s2, s2.live[at]) && AfterRead(s, at, g, k) == Settle(s2, at, s2.live[at], ok, s2.live[at].error)
  {
    var s1 := Heeded(s, at, g);
    var (s2, ok) := Wrote(s1, at, k);
    var kk := Sending.Clip(k, g.t.tx);
    var w := Sending.DoWrite(g.t.tx, kk, !s.channels[g.t.channel].tcp);
    var s3 := Asked(Told(s, g, w.again), g.t, w.interest);
    assert s2 == s3.(live := s3.live[at := s2.live[at]]);
    SettleForgets(s3, at, s2.live[at], s2.live[at], ok, s2.live[at].error);
  }

  lemma ServeStep(s: Service, at: nat, todo: seq<Answer>)
    requires Sound(s) && todo != [] && at + |todo| == |s.live|
    ensures var (s1, kept) := Serve(s, at, todo[0]);
      Sound(s1) && |s1.live| == (if kept then |s.live| else |s.live| - 1)
      && ServeFrom(s, at, todo) == ServeFrom(s1, if kept then at + 1 else at, todo[1..])
  {
    ServeSound(s, at, todo[0]);
  }

  lemma OperateStep(s: Service, at: nat, todo: seq<ChannelAnswer>)
    requires Sound(s) && todo != [] && at + |todo| == |s.ops|
    ensures var (s1, kept) := Operate(s, at, todo[0]);
      Sound(s1) && |s1.ops| == (if kept then |s.ops| else |s.ops| - 1)
      && OperateFrom(s, at, todo) == OperateFrom(s1, if kept then at + 1 else at, todo[1..])
  {
    OperateSound(s, at, todo[0]);
  }

  lemma StillFit(ts: seq<IoTransport>, us: seq<Live>, cs: seq<Channel>, cs': seq<Channel>)
    requires AllFit(ts, us, cs) && |cs| == |cs'| && forall i :: 0 <= i < |cs| ==> SameMake(cs[i], cs'[i])
    ensures AllFit(ts, us, cs')
  {
    forall i | 0 <= i < |ts| ensures Fits(ts[i], us[i], cs') {
      assert Fits(ts[i], us[i], cs) && SameMake(cs[ts[i].channel], cs'[ts[i].channel]);
    }
  }

  /** A first stop leaves the loop quiet, wherever its run has led it. */
  lemma QuietAfterStop(l: Loop, es: seq<Step>)
    requires Starts(l) && Sound(l.s) && CanRun(l, es) && !Run(l, es).s.stop
    ensures var s := Run(l, es).s;
      Stopping.Quiet(Stop(s)) && Stopping.Busy(Stop(s).channels) <= Stopping.Busy(s.channels)
  {
    Stopping.InitialOrderly(l.s);
    Stopping.RunOrderly(l, es);
    Stopping.StopQuiets(Run(l, es).s);
  }

  lemma TwoMore(was: seq<Step>, a: Step, b: Step)
    ensures was + [a] + [b] == was + [a, b]
  {
  }

  lemma LateMore(was: seq<Step>, late: seq<nat>, i: nat)
    requires i < |late|
    ensures was + Late(late[..i]) + [ConnectTimerFires(late[i])] == was + Late(late[..i + 1])
  {
  }

  lemma TurnParts(was: seq<Step>, h: seq<Step>, a: seq<Step>, b: seq<Step>, c: seq<Step>, d: seq<Step>)
    ensures was + h + a + b + c + d == was + (h + a + b + c + d)
  {
  }

  /** The later part of a run is a run from where the earlier part has led. */
  lemma Composed(l: Loop, a: seq<Step>, b: seq<Step>)
    requires Sound(l.s) && CanRun(l, a) && CanRun(l, a + b)
    ensures CanRun(Run(l, a), b) && Run(Run(l, a), b) == Run(l, a + b)
  {
    RunAppend(l, a, b);
  }

  lemma OneMore(l: Loop, es: seq<Step>, e: Step)
    requires Sound(l.s) && CanRun(l, es) && CanStep(Run(l, es), e)
    ensures CanRun(l, es + [e]) && Run(l, es + [e]) == After(Run(l, es), e)
  {
    RunAppend(l, es, [e]);
    RunAfter(Run(l, es), e, []);
    assert [e] + [] == [e];
  }

  lemma Erased(ts: seq<IoTransport>, us: seq<Live>, cs: seq<Channel>, cs': seq<Channel>, at: nat)
    requires at < |ts| && AllFit(ts, us, cs) && Apart(ts)
    requires |cs| == |cs'| && forall i :: 0 <= i < |cs| ==> SameMake(cs[i], cs'[i])
    ensures AllFit(ts[..at] + ts[at + 1..], us[..at] + us[at + 1..], cs') && Apart(ts[..at] + ts[at + 1..])
  {
    var ts', us' := ts[..at] + ts[at + 1..], us[..at] + us[at + 1..];
    forall i | 0 <= i < |ts'| ensures Fits(ts'[i], us'[i], cs') {
      var j := if i < at then i else i + 1;
      assert ts'[i] == ts[j] && us'[i] == us[j] && Fits(ts[j], us[j], cs);
      assert SameMake(cs[ts[j].channel], cs'[ts[j].channel]);
    }
  }
}
