/** A run on which the loop waits with unsent data and no write interest: a client channel is opened
    again while its transport is alive. */
module Reopening {
  import opened Framing
  import Sending
  import Timers
  import opened Transport
  import opened EventLoop
  import opened LoopRuns

  /** A client that delivers what it receives. */
  const PLAIN := Params(1024, -1, 1, 0, 0, false)

  function Client(state: ChannelState, openMask: bool): Channel {
    Channel(true, false, PLAIN, 0, state, openMask, false)
  }

  const LONGEST: int := 1

  /** A service with one client channel of a datagram kind. */
  function Services(k: Socket, c: Channel, ops: seq<nat>, live: seq<Live>, woken: bool, trace: seq<Event>): Service {
    Service([k], [c], ops, live, [], |live|, |live|, LONGEST, LONGEST, false, woken, trace)
  }

  const IDLE_CLOCK := Timers.Clock({}, 0)

  function Stand(s: Service, phase: Phase): Loop { Loop(s, IDLE_CLOCK, phase) }

  const BEFORE := Services(CLOSED_SOCKET, Client(CLOSED, false), [], [], false, [])

  function Mute(e: Timers.Entry): Timers.Answer { Timers.Answer([], true, 0) }

  const NO_TIMERS := ServeTimers(Mute, [], {}, false)

  const REFUSED := Answer(NotReady, Sending.WouldBlock)

  const CONNECTS := ChannelAnswer(Connected, false, false)

  function Transports(unsent: bool, registered: bool): Live {
    Live(0, 0, 0, 0, IDLE, Sending.Tx(if unsent then [Sending.Op(0, [7], 0)] else [], [], [], registered), false, 0)
  }

  const SECOND := Live(1, 1, 0, 0, IDLE, Sending.QUIET, false, 0)

  // ------------------------------------------------------------ runs end to end

  ghost predicate Leads(l: Loop, es: seq<Step>, z: Loop) {
    Sound(l.s) && CanRun(l, es) && Run(l, es) == z
  }

  lemma Joined(l: Loop, a: seq<Step>, m: Loop, b: seq<Step>, z: Loop)
    requires Leads(l, a, m) && Leads(m, b, z)
    ensures Leads(l, a + b, z)
  {
    RunAppend(l, a, b);
  }

  lemma One(l: Loop, e: Step, z: Loop)
    requires Sound(l.s) && CanStep(l, e) && After(l, e) == z
    ensures Leads(l, [e], z)
  {
    RunAfter(l, e, []);
    assert [e] + [] == [e];
  }

  lemma Then(l: Loop, es: seq<Step>, m: Loop, e: Step, z: Loop)
    requires Leads(l, es, m) && CanStep(m, e) && Sound(m.s) && After(m, e) == z
    ensures Leads(l, es + [e], z)
  {
    One(m, e, z);
    Joined(l, es, m, [e], z);
  }

  // ------------------------------------------------------------ the parts of a turn

  predicate Simple(s: Service) { s.wait == LONGEST == s.longest && !s.stop }

  /** Waiting and waking up. */
  lemma WaitAndWake(s: Service)
    requires Sound(s) && Simple(s)
    ensures Leads(Stand(s, AtPoll), [Sleep(0, LONGEST), PollReturns], Stand(s.(woken := false), AtTransports))
  {
    var l := Stand(s, AtPoll);
    One(l, Sleep(0, LONGEST), Stand(s, Waiting(LONGEST)));
    Then(l, [Sleep(0, LONGEST)], Stand(s, Waiting(LONGEST)), PollReturns, Stand(s.(woken := false), AtTransports));
    assert [Sleep(0, LONGEST)] + [PollReturns] == [Sleep(0, LONGEST), PollReturns];
  }

  /** A pass over no timers. */
  lemma NoTimers(s: Service)
    requires Sound(s) && Simple(s)
    ensures Leads(Stand(s, AtTimers), [NO_TIMERS], Stand(s, AtPoll))
  {
    assert Timers.AllPolite(Mute, 0);
    assert Timers.Pass({}, 0, Mute, [], {});
    One(Stand(s, AtTimers), NO_TIMERS, Stand(s, AtPoll));
  }

  /** A turn: the wait, the transports, a request in between, the channels, no timers. */
  function TurnOf(answers: seq<Answer>, between: seq<Step>, replies: seq<ChannelAnswer>): seq<Step> {
    [Sleep(0, LONGEST), PollReturns] + [ServeTransports(answers)] + between + [ServeChannels(replies)] + [NO_TIMERS]
  }

  lemma Turn(s: Service, answers: seq<Answer>, s1: Service, between: seq<Step>, s2: Service,
             replies: seq<ChannelAnswer>, s3: Service)
    requires Sound(s) && Simple(s) && |answers| == |s.live| && Sound(s.(woken := false))
    requires ServeFrom(s.(woken := false), 0, answers) == s1 && Sound(s1)
    requires Leads(Stand(s1, AtChannels), between, Stand(s2, AtChannels))
    requires Sound(s2) && |replies| == |s2.ops| && OperateFrom(s2, 0, replies) == s3 && Sound(s3) && Simple(s3)
    ensures Leads(Stand(s, AtPoll), TurnOf(answers, between, replies), Stand(s3, AtPoll))
  {
    var l, m := Stand(s, AtPoll), Stand(s.(woken := false), AtTransports);
    var wait := [Sleep(0, LONGEST), PollReturns];
    WaitAndWake(s);
    Then(l, wait, m, ServeTransports(answers), Stand(s1, AtChannels));
    var es := wait + [ServeTransports(answers)];
    Joined(l, es, Stand(s1, AtChannels), between, Stand(s2, AtChannels));
    Then(l, es + between, Stand(s2, AtChannels), ServeChannels(replies), Stand(s3, AtTimers));
    NoTimers(s3);
    Joined(l, es + between + [ServeChannels(replies)], Stand(s3, AtTimers), [NO_TIMERS], Stand(s3, AtPoll));
  }

  // ------------------------------------------------------------ the states

  lemma PlainSound(s: Service, unsent: bool, registered: bool)
    requires |s.sockets| == 1 && |s.channels| == 1 && s.channels[0].params == PLAIN && s.channels[0].socket == 0
    requires s.ops == [] || s.ops == [0]
    requires s.live in [[], [Transports(unsent, registered)], [Transports(unsent, registered), SECOND]]
    ensures Sound(s)
  {
  }

  /** A transport with nothing received, whose send is refused if it has something to send. */
  lemma RefusedTurn(s: Service, at: nat)
    requires Sound(s) && at < |s.live| && s.live[at].rx == IDLE && !s.live[at].closeMask && !s.stop
    requires LiveOk(s, s.live[at]) && s.sockets[s.live[at].socket].open
    requires var c := s.channels[s.live[at].channel]; c.params == PLAIN && !c.openMask && !c.closeMask
    ensures var t := s.live[at];
      var w := Sending.DoWrite(t.tx, Sending.WouldBlock, !s.channels[t.channel].tcp);
      Serve(s, at, REFUSED) == (Asked(s, t, w.interest).(live := s.live[at := t.(tx := w.tx)]), true)
  {
    var t := s.live[at];
    var g := DoRead(s.channels[t.channel], t, NotReady);
    ReadNothing();
    assert g == Reading(t, true, [], false);
    assert s.trace + Packets(t.id, []) == s.trace;
  }

  lemma ReadNothing()
    ensures RxOk(PLAIN, IDLE) && Read(PLAIN, IDLE, []) == IDLE
  {
  }

  const UP := Socket(true, false)

  const FIRST := Services(UP, Client(OPENED, false), [], [Transports(false, false)], false, [OnOpen(0)])

  const WAITING := Services(Socket(true, true), Client(OPENED, false), [], [Transports(true, true)], false, [OnOpen(0)])

  const TWICE := Services(UP, Client(OPENED, false), [], [Transports(true, true), SECOND], true, [OnOpen(0), OnOpen(1)])

  /** Opened and connected. */
  lemma FirstTurn()
    ensures Leads(Stand(BEFORE, AtPoll), [OpenRequest(0)] + TurnOf([], [], [CONNECTS]), Stand(FIRST, AtPoll))
  {
    PlainSound(BEFORE, false, false);
    var s := Open(BEFORE, 0);
    PlainSound(s, false, false);
    PlainSound(s.(woken := false), false, false);
    PlainSound(FIRST, false, false);
    One(Stand(BEFORE, AtPoll), OpenRequest(0), Stand(s, AtPoll));
    var s1 := s.(woken := false);
    Connects(s1, FIRST);
    NoSteps(Stand(s1, AtChannels));
    Turn(s, [], s1, [], s1, [CONNECTS], FIRST);
    Joined(Stand(BEFORE, AtPoll), [OpenRequest(0)], Stand(s, AtPoll), TurnOf([], [], [CONNECTS]), Stand(FIRST, AtPoll));
  }

  lemma NoSteps(l: Loop)
    requires Sound(l.s)
    ensures Leads(l, [], l)
  {
  }

  /** One channel that has been asked to open connects at once. */
  lemma Connects(s: Service, z: Service)
    requires Sound(s) && s.ops == [0] && |s.channels| == 1 && |s.sockets| == 1 && s.pool == []
    requires s.channels[0] == Client(s.channels[0].state, true)
    requires z == s.(sockets := [UP], channels := [Client(OPENED, false)], ops := [], nextSlot := s.nextSlot + 1,
                     nextId := s.nextId + 1, trace := s.trace + [OnOpen(s.nextId)],
                     live := s.live + [Live(s.nextSlot, s.nextId, 0, 0, IDLE, Sending.QUIET, false, 0)])
    ensures OperateFrom(s, 0, [CONNECTS]) == z
  {
    var (s1, kept) := Operate(s, 0, CONNECTS);
    assert s1.channels == [Client(OPENED, false)] && s1.sockets == [UP];
    assert s.ops[..0] + s.ops[1..] == [];
    OperateSound(s, 0, CONNECTS);
    assert [CONNECTS][1..] == [];
  }

  const UNSENT := Services(UP, Client(OPENED, false), [], [Transports(true, false)], true, [OnOpen(0)])

  lemma FirstWrite()
    ensures Leads(Stand(FIRST, AtPoll), [WriteRequest(0, 0, [7])], Stand(UNSENT, AtPoll))
  {
    PlainSound(FIRST, false, false);
    assert [] + [Sending.Op(0, [7], 0)] == [Sending.Op(0, [7], 0)];
    assert Write(FIRST, 0, 0, [7]).live == UNSENT.live;
    One(Stand(FIRST, AtPoll), WriteRequest(0, 0, [7]), Stand(UNSENT, AtPoll));
  }

  /** A refused send, and an open request before the channels' turn. */
  /** The transports' part of the second turn: the send is refused and the flag set. */
  lemma SecondServe()
    ensures Sound(UNSENT) && Sound(UNSENT.(woken := false)) && Sound(WAITING)
    ensures ServeFrom(UNSENT.(woken := false), 0, [REFUSED]) == WAITING
  {
    PlainSound(UNSENT, true, false);
    var s := UNSENT.(woken := false);
    PlainSound(s, true, false);
    PlainSound(WAITING, true, true);
    assert LiveOk(s, s.live[0]);
    RefusedTurn(s, 0);
    assert Serve(s, 0, REFUSED).0 == WAITING;
    ServeOne(s, REFUSED, WAITING);
  }

  /** An open request, and the channels' part: connected at once. */
  lemma SecondConnect()
    ensures Sound(WAITING) && Sound(Open(WAITING, 0)) && Sound(TWICE) && |Open(WAITING, 0).ops| == 1
    ensures Leads(Stand(WAITING, AtChannels), [OpenRequest(0)], Stand(Open(WAITING, 0), AtChannels))
    ensures OperateFrom(Open(WAITING, 0), 0, [CONNECTS]) == TWICE
  {
    PlainSound(WAITING, true, true);
    var s := Open(WAITING, 0);
    PlainSound(s, true, true);
    One(Stand(WAITING, AtChannels), OpenRequest(0), Stand(s, AtChannels));
    Connects(s, TWICE);
    PlainSound(TWICE, true, true);
  }

  lemma SecondTurn()
    ensures Leads(Stand(FIRST, AtPoll), [WriteRequest(0, 0, [7])] + TurnOf([REFUSED], [OpenRequest(0)], [CONNECTS]),
                  Stand(TWICE, AtPoll))
  {
    FirstWrite();
    SecondServe();
    SecondConnect();
    Turn(UNSENT, [REFUSED], WAITING, [OpenRequest(0)], Open(WAITING, 0), [CONNECTS], TWICE);
    Joined(Stand(FIRST, AtPoll), [WriteRequest(0, 0, [7])], Stand(UNSENT, AtPoll),
           TurnOf([REFUSED], [OpenRequest(0)], [CONNECTS]), Stand(TWICE, AtPoll));
  }

  lemma ServeOne(s: Service, a: Answer, z: Service)
    requires Sound(s) && |s.live| == 1 && Sound(z) && Serve(s, 0, a) == (z, true)
    ensures ServeFrom(s, 0, [a]) == z
  {
    ServeSound(s, 0, a);
    assert [a][1..] == [];
  }

  /** The sends are refused again, and nothing is registered. */
  lemma ThirdTurn()
    ensures Leads(Stand(TWICE, AtPoll), TurnOf([REFUSED, REFUSED], [], []), Stand(TWICE.(woken := false), AtPoll))
  {
    var s := TWICE.(woken := false);
    PlainSound(TWICE, true, true);
    PlainSound(s, true, true);
    assert LiveOk(s, s.live[0]) && LiveOk(s, s.live[1]);
    RefusedTurn(s, 0);
    assert Serve(s, 0, REFUSED).0 == s;
    RefusedTurn(s, 1);
    assert Serve(s, 1, REFUSED).0 == s;
    ServeSound(s, 0, REFUSED);
    var two := [REFUSED, REFUSED];
    assert two[1..] == [REFUSED] && [REFUSED][1..] == [];
    assert ServeFrom(s, 1, [REFUSED]) == s;
    assert ServeFrom(s, 0, two) == s;
    NoSteps(Stand(s, AtChannels));
    Turn(TWICE, two, s, [], s, [], s);
  }

  /** The loop waits without a wake-up pending. Transport 0 has a byte to send on an open socket and
      believes its write interest registered, but the watcher has none. */
  lemma InterestLost() returns (l: Loop, es: seq<Step>)
    ensures Starts(l) && Sound(l.s) && CanRun(l, es)
    ensures var z := Run(l, es);
      && z.phase.Waiting? && !z.s.woken && |z.s.live| == 2
      && var t := z.s.live[0];
      t.tx.queue != [] && t.tx.registered && t.socket < |z.s.sockets|
      && z.s.sockets[t.socket].open && !z.s.sockets[t.socket].watched
  {
    l := Stand(BEFORE, AtPoll);
    FirstTurn();
    SecondTurn();
    ThirdTurn();
    var a := [OpenRequest(0)] + TurnOf([], [], [CONNECTS]);
    var b := [WriteRequest(0, 0, [7])] + TurnOf([REFUSED], [OpenRequest(0)], [CONNECTS]);
    var c := TurnOf([REFUSED, REFUSED], [], []);
    var s := TWICE.(woken := false);
    PlainSound(BEFORE, false, false);
    PlainSound(s, true, true);
    Joined(l, a, Stand(FIRST, AtPoll), b, Stand(TWICE, AtPoll));
    Joined(l, a + b, Stand(TWICE, AtPoll), c, Stand(s, AtPoll));
    Then(l, a + b + c, Stand(s, AtPoll), Sleep(0, LONGEST), Stand(s, Waiting(LONGEST)));
    es := a + b + c + [Sleep(0, LONGEST)];
  }
}
