/** Runs of the service's loop: the phases of its turns, and requests that come in between. */
module LoopRuns {
  import opened Bytes
  import Timers
  import opened EventLoop

  /** `Waiting` is inside the poll, for at most `timeout` microseconds. */
  datatype Phase = AtPoll | Waiting(timeout: int) | AtTransports | AtChannels | AtTimers | Exited

  datatype Loop = Loop(s: Service, clock: Timers.Clock, phase: Phase)

  /** A phase of the loop, or a request from elsewhere, which may come between any two phases and
      while the loop waits. A connect timer is one of those that `process_timers` fires. */
  datatype Step =
    | Sleep(now: int, timeout: int)
    | PollReturns
    | ServeTransports(answers: seq<Answer>)
    | ServeChannels(replies: seq<ChannelAnswer>)
    | ConnectTimerFires(channel: nat)
    | ServeTimers(respond: Timers.Entry -> Timers.Answer, fired: seq<Timers.Entry>, next: set<Timers.Entry>, wake: bool)
    | OpenRequest(channel: nat)
    | CloseRequest(channel: nat)
    | CloseTransportRequest(at: nat)
    | WriteRequest(at: nat, id: nat, data: Text)
    | StopRequest
    | TimerRequest(op: Timers.Op, wake: bool)

  ghost predicate CanStep(l: Loop, e: Step) {
    match e
    case Sleep(now, timeout) =>
      l.phase == AtPoll && now >= l.clock.current && Timers.IsTimeout(l.clock.es, now, l.s.wait, timeout)
    case PollReturns => l.phase.Waiting?
    case ServeTransports(answers) => l.phase == AtTransports && |answers| == |l.s.live|
    case ServeChannels(replies) => l.phase == AtChannels && |replies| == |l.s.ops|
    case ConnectTimerFires(i) => l.phase == AtTimers && i < |l.s.channels|
    case ServeTimers(respond, fired, next, _) =>
      l.phase == AtTimers && Timers.CanHappen(l.clock, Timers.FirePass(respond, fired, next))
    case OpenRequest(i) => i < |l.s.channels|
    case CloseRequest(i) => i < |l.s.channels|
    case CloseTransportRequest(at) => at < |l.s.live|
    case WriteRequest(at, _, _) => at < |l.s.live|
    case StopRequest => true
    case TimerRequest(op, wake) =>
      && Timers.CanHappen(l.clock, Timers.Request(op))
      && (op.Schedule? ==> Timers.WakesFor(Timers.Scheduled(l.clock.es, op.e), op.e, wake))
  }

  /** The timers' part of a step. */
  function Ticking(e: Step): seq<Timers.Happening> {
    match e
    case Sleep(now, _) => [Timers.Tick(now)]
    case ServeTimers(respond, fired, next, _) => [Timers.FirePass(respond, fired, next)]
    case TimerRequest(op, _) => [Timers.Request(op)]
    case _ => []
  }

  /** The head of a turn: the wait is taken and reset. */
  function BeginTurn(s: Service): Service { s.(wait := s.longest) }

  function AfterTurn(s: Service): Phase { if s.stop && s.live == [] then Exited else AtPoll }

  ghost function After(l: Loop, e: Step): Loop
    requires Sound(l.s) && CanStep(l, e)
  {
    var clock := if Ticking(e) == [] then l.clock else Timers.Happen(l.clock, Ticking(e)[0]);
    match e
    case Sleep(_, timeout) => Loop(BeginTurn(l.s), clock, if timeout > 0 then Waiting(timeout) else AtTransports)
    case PollReturns => Loop(l.s.(woken := false), clock, AtTransports)
    case ServeTransports(answers) => Loop(ServeFrom(l.s, 0, answers), clock, AtChannels)
    case ServeChannels(replies) => Loop(OperateFrom(l.s, 0, replies), clock, AtTimers)
    case ServeTimers(_, _, _, wake) => Loop(l.s.(woken := l.s.woken || wake), clock, AfterTurn(l.s))
    case TimerRequest(_, wake) => Loop(l.s.(woken := l.s.woken || wake), clock, l.phase)
    case _ => Loop(Handled(l.s, e), clock, l.phase)
  }

  predicate IsRequest(e: Step) {
    || e.OpenRequest? || e.CloseRequest? || e.CloseTransportRequest?
    || e.WriteRequest? || e.StopRequest? || e.ConnectTimerFires?
  }

  /** A request to the service, and the connect timer. */
  function Handled(s: Service, e: Step): Service
    requires Sound(s) && IsRequest(e)
    requires e.OpenRequest? || e.CloseRequest? || e.ConnectTimerFires? ==> e.channel < |s.channels|
    requires e.CloseTransportRequest? || e.WriteRequest? ==> e.at < |s.live|
  {
    match e
    case OpenRequest(i) => Open(s, i)
    case CloseRequest(i) => assert ChannelOk(s, s.channels[i]); CloseChannel(s, i)
    case CloseTransportRequest(at) => CloseTransport(s, at)
    case WriteRequest(at, id, data) => assert LiveOk(s, s.live[at]); Write(s, at, id, data)
    case StopRequest => Stop(s)
    case ConnectTimerFires(i) => assert ChannelOk(s, s.channels[i]); ConnectTimeout(s, i)
  }

  lemma RequestSound(s: Service, e: Step)
    requires Sound(s) && IsRequest(e)
    requires e.OpenRequest? || e.CloseRequest? || e.ConnectTimerFires? ==> e.channel < |s.channels|
    requires e.CloseTransportRequest? || e.WriteRequest? ==> e.at < |s.live|
    ensures Sound(Handled(s, e)) && Extends(s, Handled(s, e)) && |Handled(s, e).live| == |s.live|
  {
    var s' := Handled(s, e);
    if e.CloseTransportRequest? || e.WriteRequest? { assert LiveOk(s, s.live[e.at]); }
    SoundAgain(s, s');
  }

  lemma StepSound(l: Loop, e: Step)
    requires Sound(l.s) && CanStep(l, e)
    ensures Sound(After(l, e).s) && Extends(l.s, After(l, e).s)
  {
    if IsRequest(e) {
      RequestSound(l.s, e);
    } else if !e.ServeTransports? && !e.ServeChannels? {
      SoundAgain(l.s, After(l, e).s);
    }
  }

  ghost predicate CanRun(l: Loop, es: seq<Step>)
    requires Sound(l.s)
    decreases |es|
  {
    es == [] || (CanStep(l, es[0]) && (StepSound(l, es[0]); CanRun(After(l, es[0]), es[1..])))
  }

  ghost function Run(l: Loop, es: seq<Step>): (r: Loop)
    requires Sound(l.s) && CanRun(l, es)
    ensures Sound(r.s)
    decreases |es|
  {
    if es == [] then l else
      StepSound(l, es[0]);
      Run(After(l, es[0]), es[1..])
  }

  /** One step, then a run. */
  lemma RunAfter(l: Loop, e: Step, es: seq<Step>)
    requires Sound(l.s) && CanStep(l, e)
    ensures Sound(After(l, e).s)
    ensures CanRun(l, [e] + es) <==> CanRun(After(l, e), es)
    ensures CanRun(After(l, e), es) ==> Run(l, [e] + es) == Run(After(l, e), es)
  {
    StepSound(l, e);
    assert ([e] + es)[1..] == es;
  }

  /** A run, then another. */
  lemma {:induction false} RunAppend(l: Loop, a: seq<Step>, b: seq<Step>)
    requires Sound(l.s)
    ensures CanRun(l, a + b) <==> CanRun(l, a) && CanRun(Run(l, a), b)
    ensures CanRun(l, a + b) ==> Run(l, a + b) == Run(Run(l, a), b)
    decreases |a|
  {
    if a == [] {
      assert a + b == b;
    } else if CanStep(l, a[0]) {
      RunAfter(l, a[0], a[1..]);
      RunAppend(After(l, a[0]), a[1..], b);
      RunAfter(l, a[0], a[1..] + b);
      assert [a[0]] + (a[1..] + b) == a + b && [a[0]] + a[1..] == a;
    } else {
      assert (a + b)[0] == a[0];
    }
  }

  /** A service before its loop starts: channels closed, each with a socket object of its own. */
  ghost predicate Initial(s: Service) {
    && s.ops == [] && s.live == [] && s.pool == [] && s.trace == [] && s.nextSlot == s.nextId == 0
    && s.wait == s.longest && !s.stop && !s.woken
    && (forall i :: 0 <= i < |s.channels| ==> FreshChannel(s, s.channels[i]))
    && (forall i, j :: 0 <= i < j < |s.channels| ==> s.channels[i].socket != s.channels[j].socket)
  }

  predicate FreshChannel(s: Service, c: Channel) {
    ChannelOk(s, c) && c == Cleaned(c) && s.sockets[c.socket] == CLOSED_SOCKET
  }

  ghost predicate Starts(l: Loop) { Initial(l.s) && l.clock.es == {} && l.phase == AtPoll }

  lemma InitialSound(s: Service)
    requires Initial(s)
    ensures Sound(s)
  {
    forall i | 0 <= i < |s.channels| ensures ChannelOk(s, s.channels[i]) { assert FreshChannel(s, s.channels[i]); }
  }

  // ------------------------------------------------------------ timers over turns

  function TimerView(es: seq<Step>): seq<Timers.Happening> {
    if es == [] then [] else Ticking(es[0]) + TimerView(es[1..])
  }

  /** Turns completed, each with one pass over the timers. */
  function TurnsIn(es: seq<Step>): nat {
    if es == [] then 0 else (if es[0].ServeTimers? then 1 else 0) + TurnsIn(es[1..])
  }

  lemma {:induction false} TimersRun(l: Loop, es: seq<Step>)
    requires Sound(l.s) && CanRun(l, es)
    ensures Timers.CanRun(l.clock, TimerView(es)) && Timers.Passes(TimerView(es)) == TurnsIn(es)
    decreases |es|
  {
    if es != [] {
      StepSound(l, es[0]);
      TimersRun(After(l, es[0]), es[1..]);
      if Ticking(es[0]) != [] {
        assert TimerView(es)[1..] == TimerView(es[1..]);
      } else {
        assert TimerView(es) == TimerView(es[1..]);
      }
    }
  }

  /** An expired timer with k others due no later is fired within k + 1 turns of the loop, unless
      somebody schedules it anew. */
  lemma FiredWithinTurns(l: Loop, es: seq<Step>, x: Timers.Entry)
    requires Sound(l.s) && CanRun(l, es) && Timers.Positive(l.clock.es)
    requires Timers.LeftAlone(TimerView(es), x.timer)
    requires x in l.clock.es && Timers.Expired(x, l.clock.current)
    requires TurnsIn(es) > |Timers.Due(l.clock.es, x)|
    ensures Timers.Fires(TimerView(es), x)
  {
    TimersRun(l, es);
    Timers.BoundedWaiting(l.clock, TimerView(es), x);
  }
}
