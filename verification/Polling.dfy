/** How long the loop sleeps: as long as it may, unless a transport has something left to do. */
module Polling {
  import Sending
  import Timers
  import opened Transport
  import opened EventLoop
  import opened LoopRuns
  import Closing

  /** A turn leaves work that need not be waited for: bytes behind a packet, or a buffer to send
      where the kernel has room. */
  predicate LeavesWork(s: Service, t: Live, a: Answer)
    requires LiveOk(s, t)
  {
    var r := Closing.Served(s, t, a);
    && s.sockets[t.socket].open && Closing.ReadGoesOn(s, t, a)
    && ((|r.rx.delivered| > |t.rx.delivered| && r.rx.pending != [])
        || (Closing.WriteGoesOn(s, t, a) && r.tx.queue != [] && !a.k.WouldBlock? && !a.k.NoBuffers?))
  }

  /** Some turn of the pass does. */
  predicate PassLeavesWork(s: Service, at: nat, answers: seq<Answer>)
    requires Sound(s) && at + |answers| == |s.live|
    decreases |answers|
  {
    answers != [] &&
    (assert LiveOk(s, s.live[at]); LeavesWork(s, s.live[at], answers[0])
     || (ServeSound(s, at, answers[0]);
         var (s1, kept) := Serve(s, at, answers[0]);
         PassLeavesWork(s1, if kept then at + 1 else at, answers[1..])))
  }

  lemma AfterReadWaits(s: Service, at: nat, g: Reading, k: Sending.Kernel)
    requires at < |s.live| && LiveOk(s, g.t)
    ensures var s', w := AfterRead(s, at, g, k).0,
                         Sending.DoWrite(g.t.tx, Sending.Clip(k, g.t.tx), !s.channels[g.t.channel].tcp);
      s'.wait == (if g.again || w.again then 0 else s.wait) && s'.longest == s.longest
  {
  }

  lemma WriteAgain(s: Service, t: Live, a: Answer)
    requires LiveOk(s, t)
    ensures var w := Sending.DoWrite(t.tx, Sending.Clip(a.k, t.tx), !s.channels[t.channel].tcp);
      w.again <==> Closing.WriteGoesOn(s, t, a) && w.tx.queue != [] && !a.k.WouldBlock? && !a.k.NoBuffers?
  {
    Closing.WriteAnswer(s, t, a);
    Sending.NoWorkIsSleptOn(t.tx, Sending.Clip(a.k, t.tx), !s.channels[t.channel].tcp, false);
  }

  lemma TurnWaits(s: Service, at: nat, a: Answer)
    requires Sound(s) && at < |s.live|
    ensures LiveOk(s, s.live[at])
    ensures var s' := Serve(s, at, a).0;
      s'.wait == (if LeavesWork(s, s.live[at], a) then 0 else s.wait) && s'.longest == s.longest
  {
    var t := s.live[at];
    assert LiveOk(s, t);
    var g := DoRead(s.channels[t.channel], t, a.r);
    ReadingOk(s, t, a.r);
    if s.sockets[t.socket].open && g.ok {
      WriteAgain(s, t, a);
      AfterReadWaits(s, at, g, a.k);
    }
  }

  lemma {:induction false} PassWaits(s: Service, at: nat, answers: seq<Answer>)
    requires Sound(s) && at + |answers| == |s.live|
    ensures var z := ServeFrom(s, at, answers);
      z.wait == (if PassLeavesWork(s, at, answers) then 0 else s.wait) && z.longest == s.longest
    decreases |answers|
  {
    if answers != [] {
      ServeSound(s, at, answers[0]);
      TurnWaits(s, at, answers[0]);
      var (s1, kept) := Serve(s, at, answers[0]);
      PassWaits(s1, if kept then at + 1 else at, answers[1..]);
    }
  }

  // ------------------------------------------------------------ over runs

  lemma {:induction false} ChannelsWait(s: Service, at: nat, replies: seq<ChannelAnswer>)
    requires Sound(s) && at + |replies| == |s.ops|
    ensures var z := OperateFrom(s, at, replies); z.wait == s.wait && z.longest == s.longest
    decreases |replies|
  {
    if replies != [] {
      OperateSound(s, at, replies[0]);
      OperateWaits(s, at, replies[0]);
      var (s1, kept) := Operate(s, at, replies[0]);
      ChannelsWait(s1, if kept then at + 1 else at, replies[1..]);
    }
  }

  lemma OperateWaits(s: Service, at: nat, a: ChannelAnswer)
    requires Sound(s) && at < |s.ops|
    ensures var z := Operate(s, at, a).0; z.wait == s.wait && z.longest == s.longest
  {
    assert ChannelOk(s, s.channels[s.ops[at]]);
  }

  /** How long the next poll may wait after a step. */
  function NextWait(l: Loop, e: Step): int
    requires Sound(l.s) && (e.ServeTransports? ==> |e.answers| == |l.s.live|)
  {
    if e.ServeTransports? && PassLeavesWork(l.s, 0, e.answers) then 0 else if e.Sleep? then l.s.longest else l.s.wait
  }

  lemma StepWaits(l: Loop, e: Step)
    requires Sound(l.s) && CanStep(l, e)
    ensures After(l, e).s.wait == NextWait(l, e) && After(l, e).s.longest == l.s.longest
  {
    if e.ServeTransports? { PassWaits(l.s, 0, e.answers); }
    else if e.ServeChannels? { ChannelsWait(l.s, 0, e.replies); }
  }

  /** The wait is reset when a turn begins. */
  predicate Reset(l: Loop, longest: int) {
    l.s.longest == longest && (l.phase.Waiting? || l.phase == AtTransports ==> l.s.wait == longest)
  }

  lemma {:induction false} RunResets(l: Loop, es: seq<Step>, longest: int)
    requires Sound(l.s) && CanRun(l, es) && Reset(l, longest)
    ensures Reset(Run(l, es), longest)
    decreases |es|
  {
    if es != [] {
      StepSound(l, es[0]);
      StepWaits(l, es[0]);
      RunResets(After(l, es[0]), es[1..], longest);
    }
  }

  lemma {:induction false} WaitStays(l: Loop, es: seq<Step>)
    requires Sound(l.s) && CanRun(l, es) && forall k :: 0 <= k < |es| ==> !es[k].ServeTransports? && !es[k].Sleep?
    ensures Run(l, es).s.wait == l.s.wait
    decreases |es|
  {
    if es != [] {
      StepSound(l, es[0]);
      StepWaits(l, es[0]);
      WaitStays(After(l, es[0]), es[1..]);
    }
  }

  /** The loop polls without waiting if the last pass left work that need not be waited for; otherwise it
      sleeps as long as it ever does, or for a timer as long as its time allows. */
  lemma SleepsExactly(l: Loop, before: seq<Step>, answers: seq<Answer>, between: seq<Step>, now: int, timeout: int)
    requires Starts(l) && Sound(l.s) && CanRun(l, before) && CanStep(Run(l, before), ServeTransports(answers))
    requires Sound(After(Run(l, before), ServeTransports(answers)).s)
    requires CanRun(After(Run(l, before), ServeTransports(answers)), between)
    requires forall k :: 0 <= k < |between| ==> !between[k].ServeTransports? && !between[k].Sleep?
    requires CanStep(Run(After(Run(l, before), ServeTransports(answers)), between), Sleep(now, timeout))
    ensures var z := Run(After(Run(l, before), ServeTransports(answers)), between);
      if PassLeavesWork(Run(l, before).s, 0, answers) then timeout <= 0
      else
        && timeout <= l.s.longest
        && (timeout < l.s.longest ==> exists e :: e in z.clock.es && e.expire < now + 1000 * timeout + 1000)
        && (timeout > 0 ==> forall e :: e in z.clock.es ==> now + 1000 * timeout <= e.expire)
  {
    var b := Run(l, before);
    RunResets(l, before, l.s.longest);
    StepWaits(b, ServeTransports(answers));
    var m := After(b, ServeTransports(answers));
    WaitStays(m, between);
    var z := Run(m, between);
    Timers.TimeoutInTime(z.clock.es, now, z.s.wait, timeout);
  }
}
