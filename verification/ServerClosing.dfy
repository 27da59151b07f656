/** A run on which a server is closed and a transport that it accepted stays. */
module ServerClosing {
  import opened Framing
  import Sending
  import opened Transport
  import opened EventLoop
  import opened LoopRuns
  import opened Reopening
  import Closing
  import Requests

  function Server(state: ChannelState, openMask: bool, closeMask: bool): Channel {
    Channel(false, true, PLAIN, 0, state, openMask, closeMask)
  }

  const ACCEPTED := Live(0, 0, 0, 1, IDLE, Sending.QUIET, false, 0)

  const ACCEPTS := ChannelAnswer(Pending, true, true)

  const NOTHING := ChannelAnswer(Pending, false, false)

  const DOWN := Service([CLOSED_SOCKET], [Server(CLOSED, false, false)], [], [], [], 0, 0, LONGEST, LONGEST, false,
                        false, [])

  /** Listening, with one connection accepted. */
  function Serving(k: Socket, c: Channel, ops: seq<nat>, woken: bool): Service {
    Service([k, UP], [c], ops, [ACCEPTED], [], 1, 1, LONGEST, LONGEST, false, woken, [OnOpen(0)])
  }

  const LISTENS := Serving(UP, Server(OPENED, false, false), [0], false)

  const ASKED := Serving(UP, Server(OPENED, false, true), [0], true)

  const SHUT := Serving(CLOSED_SOCKET, Server(CLOSED, false, false), [], true)

  const AWAKE := Serving(CLOSED_SOCKET, Server(CLOSED, false, false), [], false)

  lemma ServerSound(s: Service)
    requires |s.channels| == 1 && s.channels[0].params == PLAIN && s.channels[0].socket == 0
    requires s.ops == [] || s.ops == [0]
    requires (s.live == [] && |s.sockets| == 1) || (s.live == [ACCEPTED] && |s.sockets| == 2)
    ensures Sound(s)
  {
  }

  /** The server listens, and accepts at once. */
  lemma FirstTurnOfServer()
    ensures Leads(Stand(DOWN, AtPoll), [OpenRequest(0)] + TurnOf([], [], [ACCEPTS]), Stand(LISTENS, AtPoll))
  {
    ServerSound(DOWN);
    var s := Open(DOWN, 0);
    ServerSound(s);
    var s1 := s.(woken := false);
    ServerSound(s1);
    ServerSound(LISTENS);
    One(Stand(DOWN, AtPoll), OpenRequest(0), Stand(s, AtPoll));
    var o := Operate(s1, 0, ACCEPTS).0;
    assert o.sockets == LISTENS.sockets && o.channels == LISTENS.channels && o.ops == LISTENS.ops;
    assert o.live == LISTENS.live && o.trace == LISTENS.trace;
    OperateOne(s1, ACCEPTS, LISTENS, true);
    NoSteps(Stand(s1, AtChannels));
    Turn(s, [], s1, [], s1, [ACCEPTS], LISTENS);
    Joined(Stand(DOWN, AtPoll), [OpenRequest(0)], Stand(s, AtPoll), TurnOf([], [], [ACCEPTS]), Stand(LISTENS, AtPoll));
  }

  lemma OperateOne(s: Service, a: ChannelAnswer, z: Service, kept: bool)
    requires Sound(s) && |s.ops| == 1 && Operate(s, 0, a) == (z, kept)
    ensures OperateFrom(s, 0, [a]) == z
  {
    OperateSound(s, 0, a);
    assert [a][1..] == [];
  }

  /** The accepted transport has nothing to do. */
  lemma QuietServe(s: Service)
    requires s == LISTENS || s == AWAKE
    ensures Sound(s) && ServeFrom(s, 0, [REFUSED]) == s
  {
    ServerSound(s);
    assert LiveOk(s, s.live[0]);
    RefusedTurn(s, 0);
    assert Serve(s, 0, REFUSED).0 == s;
    ServeOne(s, REFUSED, s);
  }

  const BEFORE_CLOSE: seq<Step> :=
    [OpenRequest(0)] + TurnOf([], [], [ACCEPTS]) + [Sleep(0, LONGEST), PollReturns] + [ServeTransports([REFUSED])]

  const AFTER_CLOSE: seq<Step> :=
    [ServeChannels([NOTHING])] + [NO_TIMERS] + [Sleep(0, LONGEST), PollReturns] + [ServeTransports([REFUSED])]

  lemma UntilClose()
    ensures Leads(Stand(DOWN, AtPoll), BEFORE_CLOSE, Stand(LISTENS, AtChannels))
  {
    var a := [OpenRequest(0)] + TurnOf([], [], [ACCEPTS]);
    FirstTurnOfServer();
    QuietServe(LISTENS);
    WaitAndWake(LISTENS);
    Joined(Stand(DOWN, AtPoll), a, Stand(LISTENS, AtPoll), [Sleep(0, LONGEST), PollReturns],
           Stand(LISTENS, AtTransports));
    Then(Stand(DOWN, AtPoll), a + [Sleep(0, LONGEST), PollReturns], Stand(LISTENS, AtTransports),
         ServeTransports([REFUSED]), Stand(LISTENS, AtChannels));
  }

  lemma FromClose()
    ensures Leads(Stand(LISTENS, AtChannels), [CloseRequest(0)], Stand(ASKED, AtChannels))
    ensures Leads(Stand(ASKED, AtChannels), AFTER_CLOSE, Stand(AWAKE, AtChannels))
  {
    ServerSound(LISTENS);
    ServerSound(ASKED);
    ServerSound(SHUT);
    One(Stand(LISTENS, AtChannels), CloseRequest(0), Stand(ASKED, AtChannels));
    var o := Operate(ASKED, 0, NOTHING).0;
    assert o.sockets == SHUT.sockets && o.channels == SHUT.channels && o.ops == SHUT.ops;
    OperateOne(ASKED, NOTHING, SHUT, false);
    One(Stand(ASKED, AtChannels), ServeChannels([NOTHING]), Stand(SHUT, AtTimers));
    NoTimers(SHUT);
    Joined(Stand(ASKED, AtChannels), [ServeChannels([NOTHING])], Stand(SHUT, AtTimers), [NO_TIMERS],
           Stand(SHUT, AtPoll));
    WaitAndWake(SHUT);
    var b := [ServeChannels([NOTHING])] + [NO_TIMERS];
    Joined(Stand(ASKED, AtChannels), b, Stand(SHUT, AtPoll), [Sleep(0, LONGEST), PollReturns],
           Stand(AWAKE, AtTransports));
    QuietServe(AWAKE);
    Then(Stand(ASKED, AtChannels), b + [Sleep(0, LONGEST), PollReturns], Stand(AWAKE, AtTransports),
         ServeTransports([REFUSED]), Stand(AWAKE, AtChannels));
  }

  /** A server with a transport is closed between the passes over transports and channels; a whole turn
      later the server is closed, nothing is asked of it any more, and its transport is still live. */
  lemma TransportOutlivesServer() returns (l: Loop, before: seq<Step>, after: seq<Step>)
    ensures Starts(l) && Sound(l.s) && CanRun(l, before) && Requests.CanBeClosed(Run(l, before).s, 0)
    ensures CanRun(Run(l, before), [CloseRequest(0)] + after) && Closing.Passes(after)
    ensures var z := Run(Run(l, before), [CloseRequest(0)] + after).s;
      && |z.live| == 1 && z.live[0].channel == 0 && z.live[0] == ACCEPTED
      && z.channels[0].state == CLOSED && !z.channels[0].client && !z.channels[0].closeMask
  {
    l, before, after := Stand(DOWN, AtPoll), BEFORE_CLOSE, AFTER_CLOSE;
    ServerSound(DOWN);
    UntilClose();
    FromClose();
    Joined(Stand(LISTENS, AtChannels), [CloseRequest(0)], Stand(ASKED, AtChannels), AFTER_CLOSE,
           Stand(AWAKE, AtChannels));
    assert AFTER_CLOSE[0].ServeChannels? && AFTER_CLOSE[4].ServeTransports?;
  }
}
