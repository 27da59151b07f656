/** What the loop leaves undone when it waits: complete frames, unsent buffers, and timers. */
module Sleeping {
  import opened Framing
  import Sending
  import Timers
  import opened Transport
  import opened EventLoop
  import opened LoopRuns

  // ------------------------------------------------------------ flags, on every run

  /** What may be left to do for a transport when the loop polls: a complete frame in its buffer
      only if the poll does not wait, and unsent buffers only if its flag for write interest is set,
      the poll does not wait, or a wake-up is pending. */
  predicate Rested(s: Service, t: Live, wait: int)
    requires LiveOk(s, t)
  {
    && (Drained(s.channels[t.channel].params, t.rx) || wait <= 0)
    && (t.tx.queue == [] || t.tx.registered || wait <= 0 || s.woken)
  }

  ghost predicate RestedUpTo(s: Service, n: nat, wait: int)
    requires Sound(s) && n <= |s.live|
  {
    forall i :: 0 <= i < n ==> LiveOk(s, s.live[i]) && Rested(s, s.live[i], wait)
  }

  /** The first n transports of s' are those of s, with no less reason to rest. */
  lemma StillRests(s: Service, s': Service, n: nat)
    requires Sound(s) && Sound(s') && Extends(s, s') && n <= |s.live| && n <= |s'.live|
    requires RestedUpTo(s, n, s.wait) && (s'.wait == s.wait || s'.wait <= 0) && (s.woken ==> s'.woken)
    requires forall i :: 0 <= i < n ==> s'.live[i].rx == s.live[i].rx && s'.live[i].channel == s.live[i].channel
    requires forall i :: 0 <= i < n ==>
      s'.live[i].tx.registered == s.live[i].tx.registered
           && (s'.live[i].tx.queue == s.live[i].tx.queue || s'.woken)
    ensures RestedUpTo(s', n, s'.wait)
  {
    forall i | 0 <= i < n ensures LiveOk(s', s'.live[i]) && Rested(s', s'.live[i], s'.wait) {
      assert LiveOk(s, s.live[i]) && Rested(s, s.live[i], s.wait) && LiveOk(s', s'.live[i]);
      assert SameMake(s.channels[s.live[i].channel], s'.channels[s.live[i].channel]);
    }
  }

  lemma CloseRests(s: Service, at: nat, t: Live)
    requires Sound(s) && at < |s.live| && PlacedIn(s, t) && RestedUpTo(s, at, s.wait)
    ensures var s' := Close(s, at, t); Sound(s') && RestedUpTo(s', at, s'.wait)
  {
    CloseSound(s, at, t);
    StillRests(s, Close(s, at, t), at);
  }

  lemma SettleRests(s: Service, at: nat, t: Live, ok: bool, error: int)
    requires Sound(s) && at < |s.live| && LiveOk(s, t) && RestedUpTo(s, at, s.wait) && (ok ==> Rested(s, t, s.wait))
    ensures var (s', kept) := Settle(s, at, t, ok, error);
      Sound(s') && RestedUpTo(s', if kept then at + 1 else at, s'.wait)
  {
    SettleSound(s, at, t, ok, error);
    if !ok {
      CloseRests(s, at, t.(error := error));
    } else if !Requested(s, t) {
      var s' := s.(live := s.live[at := t]);
      StillRests(s, s', at);
      assert LiveOk(s', t) && Rested(s', t, s'.wait);
    } else {
      CloseRests(s, at, if t.error == 0 then t.(error := SHUTDOWN_BY_LOCALHOST) else t);
    }
  }

  lemma AfterReadRests(s: Service, at: nat, g: Reading, k: Sending.Kernel)
    requires Sound(s) && at < |s.live| && RestedUpTo(s, at, s.wait) && LiveOk(s, g.t)
    requires g.again || Drained(s.channels[g.t.channel].params, g.t.rx)
    ensures var (s', kept) := AfterRead(s, at, g, k);
      Sound(s') && RestedUpTo(s', if kept then at + 1 else at, s'.wait)
  {
    var kk := Sending.Clip(k, g.t.tx);
    Sending.NoWorkIsSleptOn(g.t.tx, kk, !s.channels[g.t.channel].tcp, false);
    var w := Sending.DoWrite(g.t.tx, kk, !s.channels[g.t.channel].tcp);
    var s1 := Asked(Told(s, g, w.again), g.t, w.interest);
    SoundAgain(s, s1);
    StillRests(s, s1, at);
    SettleRests(s1, at, g.t.(tx := w.tx), w.ok, WriteError(kk));
  }

  lemma ServeRests(s: Service, at: nat, a: Answer)
    requires Sound(s) && at < |s.live| && RestedUpTo(s, at, s.wait)
    ensures var (s', kept) := Serve(s, at, a);
      Sound(s') && RestedUpTo(s', if kept then at + 1 else at, s'.wait)
  {
    var t := s.live[at];
    assert LiveOk(s, t);
    var c := s.channels[t.channel];
    if !s.sockets[t.socket].open {
      CloseRests(s, at, t);
    } else {
      var g := DoRead(c, t, a.r);
      ReadingOk(s, t, a.r);
      if !g.ok {
        CloseRests(s, at, g.t);
      } else {
        if !g.again { NothingLeft(c.params, t.rx, Chunk(Heard(a.r, |t.rx.pending|))); }
        AfterReadRests(s, at, g, a.k);
      }
    }
  }

  lemma {:induction false} ServeFromRests(s: Service, at: nat, answers: seq<Answer>)
    requires Sound(s) && at + |answers| == |s.live| && RestedUpTo(s, at, s.wait)
    ensures var s' := ServeFrom(s, at, answers); RestedUpTo(s', |s'.live|, s'.wait)
    decreases |answers|
  {
    if answers != [] {
      ServeRests(s, at, answers[0]);
      ServeSound(s, at, answers[0]);
      var (s1, kept) := Serve(s, at, answers[0]);
      ServeFromRests(s1, if kept then at + 1 else at, answers[1..]);
    }
  }

  lemma IdleDrained(p: Params)
    requires ValidParams(p)
    ensures RxOk(p, IDLE) && Drained(p, IDLE)
  {
  }

  lemma OperateRests(s: Service, at: nat, a: ChannelAnswer)
    requires Sound(s) && at < |s.ops| && RestedUpTo(s, |s.live|, s.wait)
    ensures var s' := Operate(s, at, a).0; Sound(s') && RestedUpTo(s', |s'.live|, s'.wait)
  {
    OperateSound(s, at, a);
    OperateAdds(s, at, a);
    var s' := Operate(s, at, a).0;
    StillRests(s, s', |s.live|);
    if |s'.live| > |s.live| {
      var t := s'.live[|s.live|];
      assert LiveOk(s', t);
      IdleDrained(s'.channels[t.channel].params);
    }
  }

  /** A channel's turn adds at most one idle transport and leaves the others alone. */
  lemma OperateAdds(s: Service, at: nat, a: ChannelAnswer)
    requires Sound(s) && at < |s.ops|
    ensures var s' := Operate(s, at, a).0;
      && s'.wait == s.wait && s'.woken == s.woken && |s.live| <= |s'.live| <= |s.live| + 1
      && (forall i :: 0 <= i < |s.live| ==> s'.live[i] == s.live[i])
      && (|s'.live| > |s.live| ==> s'.live[|s.live|].rx == IDLE && s'.live[|s.live|].tx == Sending.QUIET)
  {
  }

  lemma {:induction false} OperateFromRests(s: Service, at: nat, replies: seq<ChannelAnswer>)
    requires Sound(s) && at + |replies| == |s.ops| && RestedUpTo(s, |s.live|, s.wait)
    ensures var s' := OperateFrom(s, at, replies); RestedUpTo(s', |s'.live|, s'.wait)
    decreases |replies|
  {
    if replies != [] {
      OperateRests(s, at, replies[0]);
      OperateSound(s, at, replies[0]);
      var (s1, kept) := Operate(s, at, replies[0]);
      OperateFromRests(s1, if kept then at + 1 else at, replies[1..]);
    }
  }

  /** The poll outlasts no timer, unless a wake-up is pending. Times are in nanoseconds. */
  ghost predicate TimersRest(l: Loop, timeout: int) {
    l.s.woken || forall e :: e in l.clock.es ==> l.clock.current + 1000 * timeout <= e.expire
  }

  /** From the transports' turn to the end of the wait everything is rested. */
  ghost predicate LoopRests(l: Loop)
    requires Sound(l.s)
  {
    match l.phase
    case AtTransports => true
    case Waiting(timeout) => timeout > 0 && RestedUpTo(l.s, |l.s.live|, timeout) && TimersRest(l, timeout)
    case _ => RestedUpTo(l.s, |l.s.live|, l.s.wait)
  }

  lemma HandledRests(l: Loop, e: Step)
    requires Sound(l.s) && LoopRests(l) && IsRequest(e) && CanStep(l, e)
    ensures Sound(After(l, e).s) && LoopRests(After(l, e))
  {
    StepSound(l, e);
    var s, s' := l.s, After(l, e).s;
    HandledLightly(s, e);
    if l.phase.Waiting? {
      var w := l.phase.timeout;
      SoundAgain(s, s.(wait := w));
      SoundAgain(s', s'.(wait := w));
      assert RestedUpTo(s.(wait := w), |s.live|, w) by { RestAgain(s, s.(wait := w), |s.live|, w); }
      StillRests(s.(wait := w), s'.(wait := w), |s.live|);
      RestAgain(s'.(wait := w), s', |s'.live|, w);
    } else if l.phase != AtTransports {
      StillRests(s, s', |s.live|);
    }
  }

  /** A rest depends on transports, channels and the wake-up only. */
  lemma RestAgain(s: Service, s': Service, n: nat, wait: int)
    requires Sound(s) && Sound(s') && n <= |s.live| && s'.live == s.live && s'.channels == s.channels
    requires s'.woken == s.woken
    requires RestedUpTo(s, n, wait)
    ensures RestedUpTo(s', n, wait)
  {
    forall i | 0 <= i < n ensures LiveOk(s', s'.live[i]) && Rested(s', s'.live[i], wait) {
      assert LiveOk(s, s.live[i]) && Rested(s, s.live[i], wait) && LiveOk(s', s'.live[i]);
    }
  }

  lemma HandledLightly(s: Service, e: Step)
    requires Sound(s) && IsRequest(e)
    requires e.OpenRequest? || e.CloseRequest? || e.ConnectTimerFires? ==> e.channel < |s.channels|
    requires e.CloseTransportRequest? || e.WriteRequest? ==> e.at < |s.live|
    ensures var s' := Handled(s, e);
      && Extends(s, s') && |s'.live| == |s.live| && s'.wait == s.wait && (s.woken ==> s'.woken)
      && (forall i :: 0 <= i < |s.live| ==> s'.live[i].rx == s.live[i].rx && s'.live[i].channel == s.live[i].channel)
      && forall i :: 0 <= i < |s.live| ==>
           s'.live[i].tx.registered == s.live[i].tx.registered
           && (s'.live[i].tx.queue == s.live[i].tx.queue || s'.woken)
  {
    RequestSound(s, e);
  }

  /** A timer scheduled before all others wakes the loop, so the others bound its wait. */
  lemma TimerRequestRests(l: Loop, op: Timers.Op, wake: bool)
    requires Sound(l.s) && CanStep(l, TimerRequest(op, wake)) && l.phase.Waiting? && TimersRest(l, l.phase.timeout)
    ensures TimersRest(After(l, TimerRequest(op, wake)), l.phase.timeout)
  {
    var es, current, timeout := l.clock.es, l.clock.current, l.phase.timeout;
    var next := Timers.After(es, op, current);
    if !l.s.woken && !wake {
      forall e | e in next ensures current + 1000 * timeout <= e.expire {
        if e !in es {
          var x :| x in next && x != e && x.expire <= e.expire;
          assert x in es;
        }
      }
    }
  }

  lemma StepRests(l: Loop, e: Step)
    requires Sound(l.s) && LoopRests(l) && CanStep(l, e)
    ensures Sound(After(l, e).s) && LoopRests(After(l, e))
  {
    StepSound(l, e);
    var l' := After(l, e);
    match e
    case Sleep(now, timeout) => if timeout > 0 { SleepRests(l, now, timeout); }
    case PollReturns =>
    case ServeTransports(answers) => ServeFromRests(l.s, 0, answers);
    case ServeChannels(replies) => OperateFromRests(l.s, 0, replies);
    case ServeTimers(_, _, _, _) => StillRests(l.s, l'.s, |l.s.live|);
    case TimerRequest(op, wake) => TimersRequestRests(l, op, wake);
    case _ => HandledRests(l, e);
  }

  lemma SleepRests(l: Loop, now: int, timeout: int)
    requires Sound(l.s) && LoopRests(l) && CanStep(l, Sleep(now, timeout)) && timeout > 0
    ensures Sound(After(l, Sleep(now, timeout)).s) && LoopRests(After(l, Sleep(now, timeout)))
  {
    StepSound(l, Sleep(now, timeout));
    Timers.TimeoutInTime(l.clock.es, now, l.s.wait, timeout);
    forall i | 0 <= i < |l.s.live|
      ensures LiveOk(BeginTurn(l.s), l.s.live[i]) && Rested(BeginTurn(l.s), l.s.live[i], timeout)
    {
      assert LiveOk(l.s, l.s.live[i]) && Rested(l.s, l.s.live[i], l.s.wait);
    }
  }

  lemma TimersRequestRests(l: Loop, op: Timers.Op, wake: bool)
    requires Sound(l.s) && LoopRests(l) && CanStep(l, TimerRequest(op, wake))
    ensures Sound(After(l, TimerRequest(op, wake)).s) && LoopRests(After(l, TimerRequest(op, wake)))
  {
    var e := TimerRequest(op, wake);
    StepSound(l, e);
    var s, s' := l.s, After(l, e).s;
    if l.phase.Waiting? {
      forall i | 0 <= i < |s.live| ensures LiveOk(s', s'.live[i]) && Rested(s', s'.live[i], l.phase.timeout) {
        assert LiveOk(s, s.live[i]) && Rested(s, s.live[i], l.phase.timeout);
      }
      TimerRequestRests(l, op, wake);
    } else if l.phase != AtTransports {
      StillRests(s, s', |s.live|);
    }
  }

  lemma {:induction false} RunRests(l: Loop, es: seq<Step>)
    requires Sound(l.s) && LoopRests(l) && CanRun(l, es)
    ensures LoopRests(Run(l, es))
    decreases |es|
  {
    if es != [] {
      StepRests(l, es[0]);
      RunRests(After(l, es[0]), es[1..]);
    }
  }
}
