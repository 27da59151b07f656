/** When a transport is closed, and with which error. */
module Closing {
  import opened Framing
  import Sending
  import opened Transport
  import opened EventLoop
  import opened LoopRuns
  import opened LifeCycles

  // ------------------------------------------------------------ one turn

  /** The receive neither fails nor ends the connection, and the bytes are not refused. */
  predicate ReadGoesOn(s: Service, t: Live, a: Answer)
    requires LiveOk(s, t)
  {
    var h, c := Heard(a.r, |t.rx.pending|), s.channels[t.channel];
    !h.Broken? && !(c.tcp && h == Received([])) && !Read(c.params, t.rx, Chunk(h)).failed
  }

  /** Nothing is sent, or the send does not fail on a stream transport. */
  predicate WriteGoesOn(s: Service, t: Live, a: Answer)
    requires LiveOk(s, t)
  {
    t.tx.queue == [] || !a.k.Fails? || !s.channels[t.channel].tcp
  }

  /** A transport stays if its socket is open, its read and its write go on, and nothing asks it to close:
      neither a close of its own, nor an open or a close of its channel, nor a stop. */
  predicate Stays(s: Service, t: Live, a: Answer)
    requires LiveOk(s, t)
  {
    && s.sockets[t.socket].open && ReadGoesOn(s, t, a) && WriteGoesOn(s, t, a)
    && !t.closeMask && !s.channels[t.channel].openMask && !s.channels[t.channel].closeMask && !s.stop
  }

  /** The error it is told to be closed with otherwise. */
  function CloseError(s: Service, t: Live, a: Answer): int
    requires LiveOk(s, t)
  {
    var h := Heard(a.r, |t.rx.pending|);
    if !s.sockets[t.socket].open then t.error
    else if h.Broken? then h.error
    else if s.channels[t.channel].tcp && h == Received([]) then EOF_ERROR
    else if !ReadGoesOn(s, t, a) then INVALID_PACKET
    else if !WriteGoesOn(s, t, a) && a.k.Fails? then a.k.error
    else if t.error == 0 then SHUTDOWN_BY_LOCALHOST else t.error
  }

  /** A transport that stays has read and written. */
  function Served(s: Service, t: Live, a: Answer): Live
    requires LiveOk(s, t)
  {
    var c := s.channels[t.channel];
    t.(rx := Read(c.params, t.rx, Chunk(Heard(a.r, |t.rx.pending|))),
       tx := Sending.DoWrite(t.tx, Sending.Clip(a.k, t.tx), !c.tcp).tx)
  }

  /** A turn leaves the others alone; the transport stays in its place, or its close is told. */
  ghost predicate Decided(s: Service, at: nat, a: Answer, s': Service)
    requires at < |s.live| && LiveOk(s, s.live[at])
  {
    var t := s.live[at];
    if Stays(s, t, a) then
      && s'.live == s.live[at := Served(s, t, a)]
      && (exists ps :: s'.trace == s.trace + Packets(t.id, ps))
    else
      && s'.live == s.live[..at] + s.live[at + 1..]
      && (exists ps :: s'.trace == s.trace + Packets(t.id, ps) + [OnClose(t.id, CloseError(s, t, a))])
  }

  lemma NoPackets(trace: seq<Event>, id: nat, e: seq<Event>)
    ensures trace + e == trace + Packets(id, []) + e
  {
  }

  lemma ServeDecides(s: Service, at: nat, a: Answer)
    requires Sound(s) && at < |s.live|
    ensures LiveOk(s, s.live[at]) && Decided(s, at, a, Serve(s, at, a).0) && Serve(s, at, a).0.nextId == s.nextId
  {
    var t := s.live[at];
    assert LiveOk(s, t);
    var g := DoRead(s.channels[t.channel], t, a.r);
    ReadingOk(s, t, a.r);
    assert g.ok <==> ReadGoesOn(s, t, a);
    if !s.sockets[t.socket].open {
      NoPackets(s.trace, t.id, [OnClose(t.id, t.error)]);
    } else if !g.ok {
      NoPackets(s.trace, t.id, [OnClose(t.id, g.t.error)]);
    } else {
      AfterReadDecides(s, at, a, g);
    }
  }

  lemma AfterReadDecides(s: Service, at: nat, a: Answer, g: Reading)
    requires Sound(s) && at < |s.live| && LiveOk(s, s.live[at]) && LiveOk(s, g.t)
    requires g == DoRead(s.channels[s.live[at].channel], s.live[at], a.r) && g.ok && s.sockets[g.t.socket].open
    requires g.t == s.live[at].(rx := g.t.rx) && ReadGoesOn(s, s.live[at], a)
    ensures Decided(s, at, a, AfterRead(s, at, g, a.k).0) && AfterRead(s, at, g, a.k).0.nextId == s.nextId
  {
    var t := s.live[at];
    var kk := Sending.Clip(a.k, g.t.tx);
    var w := Sending.DoWrite(g.t.tx, kk, !s.channels[g.t.channel].tcp);
    WriteAnswer(s, t, a);
    var s1 := Asked(Told(s, g, w.again), g.t, w.interest);
    assert s1.trace == s.trace + Packets(t.id, g.packets) && s1.live == s.live && s1.channels == s.channels;
    SettleDecides(s, s1, at, g.t.(tx := w.tx), w.ok, WriteError(kk));
  }

  lemma WriteAnswer(s: Service, t: Live, a: Answer)
    requires LiveOk(s, t)
    ensures var w := Sending.DoWrite(t.tx, Sending.Clip(a.k, t.tx), !s.channels[t.channel].tcp);
      && (w.ok <==> WriteGoesOn(s, t, a))
      && (!w.ok ==> a.k.Fails? && WriteError(Sending.Clip(a.k, t.tx)) == a.k.error)
  {
  }

  lemma SettleDecides(s: Service, s1: Service, at: nat, t: Live, ok: bool, error: int)
    requires at < |s.live| && PlacedIn(s1, t) && s1.live == s.live && s1.channels == s.channels && s1.stop == s.stop
    ensures var (s', _), c := Settle(s1, at, t, ok, error), s.channels[t.channel];
      if ok && !t.closeMask && !c.openMask && !c.closeMask && !s.stop then
        s'.live == s.live[at := t] && s'.trace == s1.trace && s'.nextId == s1.nextId
      else
        && s'.live == s.live[..at] + s.live[at + 1..] && s'.nextId == s1.nextId
        && s'.trace == s1.trace +
                       [OnClose(t.id, if !ok then error else if t.error == 0 then SHUTDOWN_BY_LOCALHOST else t.error)]
  {
  }

  /** What a close gives back: the slot, the socket, and a client's channel, which can be opened anew. */
  ghost predicate Released(s: Service, t: Live, s': Service)
    requires PlacedIn(s, t)
  {
    var c := s.channels[t.channel];
    && s'.pool == s.pool + [t.slot] && |s'.sockets| == |s.sockets| && |s'.channels| == |s.channels|
    && (forall k :: 0 <= k < |s.sockets| ==>
          s'.sockets[k] == if k == t.socket || (c.client && k == c.socket) then Socket(false, false) else s.sockets[k])
    && (forall i :: 0 <= i < |s.channels| ==>
          s'.channels[i] ==
          if c.client && i == t.channel then c.(state := CLOSED, closeMask := false) else s.channels[i])
  }

  lemma CloseReleases(s: Service, at: nat, t: Live)
    requires at < |s.live| && PlacedIn(s, t)
    ensures Released(s, t, Close(s, at, t))
  {
  }

  lemma ReleasedAnyway(s: Service, s1: Service, t: Live, u: Live, s': Service)
    requires PlacedIn(s, t) && PlacedIn(s1, u) && Released(s1, u, s')
    requires t.socket == u.socket && t.channel == u.channel && t.slot == u.slot
    requires s1.channels == s.channels && s1.pool == s.pool && s1.sockets == s.sockets[t.socket := s1.sockets[t.socket]]
    ensures Released(s, t, s')
  {
  }

  /** A turn that ends with a close gives back what the transport had; another changes no channel,
      and of the sockets only the watcher's interest in its own. */
  lemma TurnReleases(s: Service, at: nat, a: Answer)
    requires Sound(s) && at < |s.live|
    ensures LiveOk(s, s.live[at])
    ensures var s', t := Serve(s, at, a).0, s.live[at];
      if Stays(s, t, a) then
        && s'.channels == s.channels && s'.pool == s.pool && t.socket < |s'.sockets| && s'.sockets[t.socket].open
        && s'.sockets == s.sockets[t.socket := s'.sockets[t.socket]]
      else Released(s, t, s')
  {
    var t := s.live[at];
    assert LiveOk(s, t);
    ServeDecides(s, at, a);
    var g := DoRead(s.channels[t.channel], t, a.r);
    ReadingOk(s, t, a.r);
    if !s.sockets[t.socket].open {
      CloseReleases(s, at, t);
    } else if !g.ok {
      CloseReleases(s, at, g.t);
      ReleasedAnyway(s, s, t, g.t, Close(s, at, g.t));
    } else {
      assert g.t == t.(rx := g.t.rx);
      WriteAnswer(s, t, a);
      var kk := Sending.Clip(a.k, g.t.tx);
      var w := Sending.DoWrite(g.t.tx, kk, !s.channels[g.t.channel].tcp);
      var s1 := Asked(Told(s, g, w.again), g.t, w.interest);
      SettleReleases(s, s1, at, t, g.t.(tx := w.tx), w.ok, WriteError(kk));
    }
  }

  lemma SettleReleases(s: Service, s1: Service, at: nat, t: Live, u: Live, ok: bool, error: int)
    requires at < |s1.live| && PlacedIn(s, t) && PlacedIn(s1, u)
    requires t.socket == u.socket && t.channel == u.channel && t.slot == u.slot
    requires s1.channels == s.channels && s1.pool == s.pool && s1.sockets == s.sockets[t.socket := s1.sockets[t.socket]]
    ensures var (s', kept) := Settle(s1, at, u, ok, error);
      if kept then s'.channels == s.channels && s'.pool == s.pool && s'.sockets == s1.sockets else Released(s, t, s')
  {
    var u' := if !ok then u.(error := error) else if u.error == 0 then u.(error := SHUTDOWN_BY_LOCALHOST) else u;
    CloseReleases(s1, at, u');
    ReleasedAnyway(s, s1, t, u', Close(s1, at, u'));
  }

  // ------------------------------------------------------------ a pass

  /** The service at the turn of the n-th transport from the place `at` on, and the place it then has. */
  function AtTurn(s: Service, at: nat, answers: seq<Answer>, n: nat): (r: (Service, nat))
    requires Sound(s) && at + |answers| == |s.live| && n < |answers|
    ensures Sound(r.0) && r.0.stop == s.stop
    decreases n
  {
    if n == 0 then (s, at)
    else
      ServeSound(s, at, answers[0]);
      var (s1, kept) := Serve(s, at, answers[0]);
      AtTurn(s1, if kept then at + 1 else at, answers[1..], n - 1)
  }

  ghost predicate DistinctIds(live: seq<Live>) { forall i, j :: 0 <= i < j < |live| ==> live[i].id != live[j].id }

  /** The close of a transport is told in the later part of the trace. */
  ghost predicate ClosedIn(before: seq<Event>, after: seq<Event>, id: nat, error: int) {
    before <= after && OnClose(id, error) in after[|before|..]
  }

  lemma ClosedEarlier(a: seq<Event>, b: seq<Event>, c: seq<Event>, id: nat, error: int)
    requires a <= b <= c
    ensures a <= c && (ClosedIn(a, b, id, error) || ClosedIn(b, c, id, error) ==> ClosedIn(a, c, id, error))
  {
    assert c[|a|..][..|b| - |a|] == b[|a|..];
    assert c[|a|..][|b| - |a|..] == c[|b|..];
    if ClosedIn(a, b, id, error) {
      var i :| 0 <= i < |b[|a|..]| && b[|a|..][i] == OnClose(id, error);
      assert c[|a|..][i] == OnClose(id, error);
    }
    if ClosedIn(b, c, id, error) {
      var i :| 0 <= i < |c[|b|..]| && c[|b|..][i] == OnClose(id, error);
      assert c[|a|..][i + |b| - |a|] == OnClose(id, error);
    }
  }

  /** No transport comes, the first `at` stay as they are, and events are only added. */
  ghost predicate Fewer(s: Service, at: nat, s': Service)
    requires at <= |s.live|
  {
    && DistinctIds(s'.live) && s.trace <= s'.trace && s'.nextId == s.nextId
    && at <= |s'.live| && s'.live[..at] == s.live[..at]
    && forall id: nat :: HasId(s'.live, id) ==> HasId(s.live, id)
  }

  lemma FewerOn(a: Service, at: nat, b: Service, at': nat, c: Service)
    requires at <= |a.live| && at <= at' <= |b.live| && Fewer(a, at, b) && Fewer(b, at', c)
    ensures Fewer(a, at, c)
  {
    assert c.live[..at] == c.live[..at'][..at] && b.live[..at] == b.live[..at'][..at];
  }

  lemma Replaced(a: seq<Live>, at: nat, t: Live)
    requires DistinctIds(a) && at < |a| && t.id == a[at].id
    ensures DistinctIds(a[at := t]) && HasId(a[at := t], t.id)
    ensures forall id: nat :: HasId(a[at := t], id) ==> HasId(a, id)
  {
    var b := a[at := t];
    assert b[at].id == t.id;
    forall id: nat | HasId(b, id) ensures HasId(a, id) {
      var i :| 0 <= i < |b| && b[i].id == id;
      assert a[i].id == id;
    }
  }

  lemma Removed(a: seq<Live>, at: nat)
    requires DistinctIds(a) && at < |a|
    ensures DistinctIds(a[..at] + a[at + 1..]) && !HasId(a[..at] + a[at + 1..], a[at].id)
    ensures forall id: nat :: HasId(a[..at] + a[at + 1..], id) ==> HasId(a, id)
  {
    var b := a[..at] + a[at + 1..];
    assert forall i :: 0 <= i < |b| ==> b[i] == a[if i < at then i else i + 1];
    forall id: nat | HasId(b, id) ensures HasId(a, id) {
      var i :| 0 <= i < |b| && b[i].id == id;
      assert a[if i < at then i else i + 1].id == id;
    }
  }

  lemma TurnFewer(s: Service, at: nat, a: Answer)
    requires Sound(s) && at < |s.live| && DistinctIds(s.live)
    ensures Fewer(s, at, Serve(s, at, a).0)
  {
    ServeDecides(s, at, a);
    var s', t := Serve(s, at, a).0, s.live[at];
    if Stays(s, t, a) {
      Replaced(s.live, at, Served(s, t, a));
    } else {
      Removed(s.live, at);
    }
  }

  /** The turn of one transport, seen from the list. */
  lemma TurnFate(s: Service, at: nat, a: Answer)
    requires Sound(s) && at < |s.live| && DistinctIds(s.live)
    ensures LiveOk(s, s.live[at])
    ensures var (s', kept), t := Serve(s, at, a), s.live[at];
      && (kept <==> Stays(s, t, a))
      && (if kept then at < |s'.live| && s'.live[at].id == t.id
          else !HasId(s'.live, t.id) && ClosedIn(s.trace, s'.trace, t.id, CloseError(s, t, a)))
  {
    ServeDecides(s, at, a);
    ServeSound(s, at, a);
    var s', t := Serve(s, at, a).0, s.live[at];
    if !Stays(s, t, a) {
      Removed(s.live, at);
      var ps :| s'.trace == s.trace + Packets(t.id, ps) + [OnClose(t.id, CloseError(s, t, a))];
      assert s'.trace[|s.trace|..][|ps|] == OnClose(t.id, CloseError(s, t, a));
    }
  }

  /** Those behind stay in order. */
  lemma TurnKeepsRest(s: Service, at: nat, a: Answer)
    requires Sound(s) && at < |s.live|
    ensures var (s', kept) := Serve(s, at, a);
      var next: nat := if kept then at + 1 else at;
      next <= |s'.live| && s'.live[next..] == s.live[at + 1..]
  {
    ServeDecides(s, at, a);
    ServeSound(s, at, a);
  }

  /** A pass brings no transport, keeps those before its place, and only adds to the trace. */
  lemma {:induction false} PassKeeps(s: Service, at: nat, answers: seq<Answer>)
    requires Sound(s) && at + |answers| == |s.live| && DistinctIds(s.live)
    ensures Fewer(s, at, ServeFrom(s, at, answers))
    decreases |answers|
  {
    if answers != [] {
      TurnFewer(s, at, answers[0]);
      ServeSound(s, at, answers[0]);
      var (s1, kept) := Serve(s, at, answers[0]);
      var next := if kept then at + 1 else at;
      PassKeeps(s1, next, answers[1..]);
      FewerOn(s, at, s1, next, ServeFrom(s, at, answers));
    }
  }

  lemma FirstDecided(s: Service, at: nat, answers: seq<Answer>)
    requires Sound(s) && at + |answers| == |s.live| && DistinctIds(s.live) && answers != []
    ensures var t, z := s.live[at], ServeFrom(s, at, answers);
      && LiveOk(s, t)
      && (HasId(z.live, t.id) <==> Stays(s, t, answers[0]))
      && (!Stays(s, t, answers[0]) ==> ClosedIn(s.trace, z.trace, t.id, CloseError(s, t, answers[0])))
  {
    var t := s.live[at];
    TurnFewer(s, at, answers[0]);
    TurnFate(s, at, answers[0]);
    ServeSound(s, at, answers[0]);
    var (s1, kept) := Serve(s, at, answers[0]);
    var next := if kept then at + 1 else at;
    PassKeeps(s1, next, answers[1..]);
    var z := ServeFrom(s1, next, answers[1..]);
    if kept { assert z.live[..next][at].id == t.id; }
    ClosedEarlier(s.trace, s1.trace, z.trace, t.id, CloseError(s, t, answers[0]));
  }

  /** The pass after its first turn. */
  lemma FirstTurn(s: Service, at: nat, answers: seq<Answer>) returns (s1: Service, next: nat)
    requires Sound(s) && at + |answers| == |s.live| && DistinctIds(s.live) && answers != []
    ensures Sound(s1) && next + |answers[1..]| == |s1.live| && DistinctIds(s1.live) && s.trace <= s1.trace
    ensures s1.live[next..] == s.live[at + 1..]
    ensures forall n: nat :: 0 < n < |answers| ==> AtTurn(s, at, answers, n) == AtTurn(s1, next, answers[1..], n - 1)
    ensures ServeFrom(s, at, answers) == ServeFrom(s1, next, answers[1..])
  {
    TurnFewer(s, at, answers[0]);
    TurnKeepsRest(s, at, answers[0]);
    ServeSound(s, at, answers[0]);
    var r := Serve(s, at, answers[0]);
    s1 := r.0;
    next := if r.1 then at + 1 else at;
  }

  /** The pass goes through the turn of its n-th transport. */
  lemma {:induction false} PassComesTo(s: Service, at: nat, answers: seq<Answer>, n: nat)
    requires Sound(s) && at + |answers| == |s.live| && DistinctIds(s.live) && n < |answers|
    ensures var (m, p) := AtTurn(s, at, answers, n);
      && p + |answers[n..]| == |m.live| && m.live[p..] == s.live[at + n..]
      && DistinctIds(m.live) && s.trace <= m.trace
      && ServeFrom(s, at, answers) == ServeFrom(m, p, answers[n..])
    decreases |answers|
  {
    if n == 0 {
      assert answers[0..] == answers;
    } else {
      var s1, next := FirstTurn(s, at, answers);
      PassComesTo(s1, next, answers[1..], n - 1);
      assert answers[1..][n - 1..] == answers[n..];
      assert s1.live[next + (n - 1)..] == s1.live[next..][n - 1..];
      assert s.live[at + 1..][n - 1..] == s.live[at + n..];
    }
  }

  /** In a pass a transport stays exactly if it does at its turn, and else its close is told. */
  lemma PassDecides(s: Service, at: nat, answers: seq<Answer>, n: nat)
    requires Sound(s) && at + |answers| == |s.live| && DistinctIds(s.live) && n < |answers|
    ensures var (m, p), t, z := AtTurn(s, at, answers, n), s.live[at + n], ServeFrom(s, at, answers);
      && p < |m.live| && m.live[p] == t && m.stop == s.stop && LiveOk(m, t)
      && (HasId(z.live, t.id) <==> Stays(m, t, answers[n]))
      && (!Stays(m, t, answers[n]) ==> ClosedIn(s.trace, z.trace, t.id, CloseError(m, t, answers[n])))
    ensures s.live[at + n].closeMask ==> !HasId(ServeFrom(s, at, answers).live, s.live[at + n].id)
  {
    PassComesTo(s, at, answers, n);
    var (m, p) := AtTurn(s, at, answers, n);
    var t, z := s.live[at + n], ServeFrom(s, at, answers);
    assert m.live[p..][0] == s.live[at + n..][0];
    FirstDecided(m, p, answers[n..]);
    PassKeeps(m, p, answers[n..]);
    ClosedEarlier(s.trace, m.trace, z.trace, t.id, CloseError(m, t, answers[n]));
  }

  // ------------------------------------------------------------ over runs

  lemma IdsAreDistinct(s: Service)
    requires LivesOk(s)
    ensures DistinctIds(s.live)
  {
    forall i, j | 0 <= i < j < |s.live| ensures s.live[i].id != s.live[j].id { IdsDiffer(s, i, j); }
  }

  lemma RunDistinct(l: Loop, es: seq<Step>)
    requires Starts(l) && Sound(l.s) && CanRun(l, es)
    ensures DistinctIds(Run(l, es).s.live)
  {
    InitialKept(l.s);
    RunKeeps(l, es);
    IdsAreDistinct(Run(l, es).s);
  }

  /** On every run a pass leaves a transport live exactly if at its turn its socket is open, its read
      and its write go on, and neither itself nor its channel nor the service is asked to close;
      otherwise its close is told, with SHUTDOWN_BY_LOCALHOST if nothing else was wrong. */
  lemma ClosedExactly(l: Loop, es: seq<Step>, answers: seq<Answer>, n: nat)
    requires Starts(l) && Sound(l.s) && CanRun(l, es)
    requires CanStep(Run(l, es), ServeTransports(answers)) && n < |answers|
    ensures var s, z := Run(l, es).s, After(Run(l, es), ServeTransports(answers)).s;
      var (m, p) := AtTurn(s, 0, answers, n);
      && p < |m.live| && m.live[p] == s.live[n] && m.stop == s.stop && LiveOk(m, s.live[n])
      && (IsLive(z, s.live[n].id) <==> Stays(m, s.live[n], answers[n]))
      && (!Stays(m, s.live[n], answers[n]) ==>
            ClosedIn(s.trace, z.trace, s.live[n].id, CloseError(m, s.live[n], answers[n])))
  {
    RunDistinct(l, es);
    PassDecides(Run(l, es).s, n - n, answers, n);
  }

  // ------------------------------------------------------------ a close of a transport is observed

  /** A transport that has come and, if it is still live, is asked to close. */
  ghost predicate Doomed(s: Service, id: nat) {
    id < s.nextId && forall i :: 0 <= i < |s.live| && s.live[i].id == id ==> s.live[i].closeMask
  }

  /** It has come and gone. */
  ghost predicate Gone(s: Service, id: nat) { id < s.nextId && !HasId(s.live, id) }

  lemma PassDooms(s: Service, answers: seq<Answer>, id: nat)
    requires Sound(s) && |answers| == |s.live| && DistinctIds(s.live) && Doomed(s, id)
    ensures Gone(ServeFrom(s, 0, answers), id)
  {
    PassKeeps(s, 0, answers);
    forall n | 0 <= n < |s.live| && s.live[n].id == id ensures !HasId(ServeFrom(s, 0, answers).live, id) {
      PassDecides(s, 0, answers, n);
    }
  }

  /** Channels only add transports, which are new and idle. */
  ghost predicate OnlyNew(s: Service, s': Service) {
    && s.live <= s'.live && s.nextId <= s'.nextId
    && forall i :: |s.live| <= i < |s'.live| ==>
         s'.live[i].id >= s.nextId && s'.live[i].rx == IDLE && s'.live[i].tx == Sending.QUIET && !s'.live[i].closeMask
  }

  lemma OperateOnlyNew(s: Service, at: nat, a: ChannelAnswer)
    requires Sound(s) && at < |s.ops|
    ensures OnlyNew(s, Operate(s, at, a).0)
  {
  }

  lemma {:induction false} ChannelsOnlyNew(s: Service, at: nat, replies: seq<ChannelAnswer>)
    requires Sound(s) && at + |replies| == |s.ops|
    ensures OnlyNew(s, OperateFrom(s, at, replies))
    decreases |replies|
  {
    if replies != [] {
      OperateOnlyNew(s, at, replies[0]);
      OperateSound(s, at, replies[0]);
      var (s1, kept) := Operate(s, at, replies[0]);
      ChannelsOnlyNew(s1, if kept then at + 1 else at, replies[1..]);
    }
  }

  lemma NewIsNotDoomed(s: Service, s': Service, id: nat)
    requires OnlyNew(s, s')
    ensures Doomed(s, id) ==> Doomed(s', id)
    ensures Gone(s, id) ==> Gone(s', id)
  {
    forall i | 0 <= i < |s'.live| && s'.live[i].id == id && id < s.nextId
      ensures i < |s.live| && s'.live[i] == s.live[i]
    {
    }
  }

  lemma QuietDooms(s: Service, s': Service, id: nat)
    requires s'.nextId == s.nextId && |s'.live| == |s.live|
    requires forall i :: 0 <= i < |s.live| ==>
      s'.live[i].id == s.live[i].id && (s.live[i].closeMask ==> s'.live[i].closeMask)
    ensures Doomed(s, id) ==> Doomed(s', id)
    ensures Gone(s, id) ==> Gone(s', id)
  {
    if HasId(s'.live, id) {
      var i :| 0 <= i < |s'.live| && s'.live[i].id == id;
      assert s.live[i].id == id;
    }
  }

  lemma RequestKeepsMasks(s: Service, e: Step)
    requires Sound(s) && IsRequest(e)
    requires e.OpenRequest? || e.CloseRequest? || e.ConnectTimerFires? ==> e.channel < |s.channels|
    requires e.CloseTransportRequest? || e.WriteRequest? ==> e.at < |s.live|
    ensures var s' := Handled(s, e);
      && s'.nextId == s.nextId && |s'.live| == |s.live|
      && forall i :: 0 <= i < |s.live| ==>
        s'.live[i].id == s.live[i].id && (s.live[i].closeMask ==> s'.live[i].closeMask)
  {
  }

  /** No step takes a request to close back; a pass over the transports meets it. */
  lemma StepDooms(l: Loop, e: Step, id: nat)
    requires Sound(l.s) && LivesOk(l.s) && CanStep(l, e) && Doomed(l.s, id)
    ensures Doomed(After(l, e).s, id)
    ensures Gone(l.s, id) || e.ServeTransports? ==> Gone(After(l, e).s, id)
  {
    if e.ServeTransports? {
      IdsAreDistinct(l.s);
      PassDooms(l.s, e.answers, id);
      GoneIsDoomed(After(l, e).s, id);
    } else if e.ServeChannels? {
      ChannelsOnlyNew(l.s, 0, e.replies);
      NewIsNotDoomed(l.s, After(l, e).s, id);
    } else {
      if IsRequest(e) { RequestKeepsMasks(l.s, e); }
      QuietDooms(l.s, After(l, e).s, id);
    }
  }

  lemma GoneIsDoomed(s: Service, id: nat)
    requires Gone(s, id)
    ensures Doomed(s, id)
  {
    forall i | 0 <= i < |s.live| ensures s.live[i].id != id {
      if s.live[i].id == id { assert HasId(s.live, id); }
    }
  }

  predicate Passes(es: seq<Step>) { exists i :: 0 <= i < |es| && es[i].ServeTransports? }

  lemma {:induction false} RunDooms(l: Loop, es: seq<Step>, id: nat)
    requires Sound(l.s) && Kept(l.s) && CanRun(l, es) && Doomed(l.s, id)
    ensures Gone(l.s, id) || Passes(es) ==> Gone(Run(l, es).s, id)
    decreases |es|
  {
    if es != [] {
      StepSound(l, es[0]);
      StepKeeps(l, es[0]);
      StepDooms(l, es[0], id);
      RunDooms(After(l, es[0]), es[1..], id);
      if Passes(es) && !es[0].ServeTransports? {
        var i :| 0 <= i < |es| && es[i].ServeTransports?;
        assert es[1..][i - 1].ServeTransports?;
      }
    }
  }

  lemma CloseDooms(s: Service, at: nat)
    requires LivesOk(s) && at < |s.live|
    ensures Doomed(CloseTransport(s, at), s.live[at].id)
  {
    assert OneLife(s, at);
    forall i | 0 <= i < |s.live| && i != at ensures s.live[i].id != s.live[at].id { IdsDiffer(s, i, at); }
  }

  lemma DeadWhenGone(s: Service, id: nat)
    requires LivesOk(s) && Gone(s, id)
    ensures Life(s.trace, id) == Dead
  {
    assert LifeAt(s, id);
  }

  lemma GoesLater(l: Loop, at: nat, later: seq<Step>)
    requires Sound(l.s) && Kept(l.s) && at < |l.s.live|
    requires CanRun(l, [CloseTransportRequest(at)] + later) && Passes(later)
    ensures Life(Run(l, [CloseTransportRequest(at)] + later).s.trace, l.s.live[at].id) == Dead
  {
    var e, id := CloseTransportRequest(at), l.s.live[at].id;
    RunAfter(l, e, later);
    StepKeeps(l, e);
    CloseDooms(l.s, at);
    RunDooms(After(l, e), later, id);
    RunKeeps(After(l, e), later);
    DeadWhenGone(Run(After(l, e), later).s, id);
  }

  /** A transport asked to close is closed: whatever was done before, and whatever comes then,
      it is dead, its close told, once the loop has served the transports again. */
  lemma CloseIsObserved(l: Loop, before: seq<Step>, at: nat, later: seq<Step>)
    requires Starts(l) && Sound(l.s) && CanRun(l, before) && at < |Run(l, before).s.live|
    requires CanRun(Run(l, before), [CloseTransportRequest(at)] + later) && Passes(later)
    ensures Life(Run(Run(l, before), [CloseTransportRequest(at)] + later).s.trace, Run(l, before).s.live[at].id) == Dead
  {
    InitialKept(l.s);
    RunKeeps(l, before);
    GoesLater(Run(l, before), at, later);
  }

  // ------------------------------------------------------------ when a transport comes

  /** A client is connected: resolving or opened anew, or connecting on a socket that is still open. */
  predicate Connects(c: Channel, k: Socket, o: Outcome) { o == Connected && Attempts(c, k) }

  predicate Attempts(c: Channel, k: Socket) {
    c.openMask || c.state == RESOLVING || (c.state == CONNECTING && k.open)
  }

  /** A stream server accepts, when it listens now or did before and is not asked to close. */
  predicate Accepts(c: Channel, a: ChannelAnswer) {
    c.tcp && a.accepts && if c.openMask then a.listens else c.state == OPENED && !c.closeMask
  }

  predicate Comes(c: Channel, k: Socket, a: ChannelAnswer) {
    if c.client then Connects(c, k, a.outcome) else Accepts(c, a)
  }

  lemma ChannelComes(c: Channel, k: Socket, a: ChannelAnswer)
    ensures var o := ServeChannel(c, k, a);
      && (o.connected <==> Comes(c, k, a))
      && (o.connected ==> o.c.state == OPENED && (c.client ==> o.k.open))
      && (!o.finished <==>
            if c.client then o.c.state == RESOLVING || o.c.state == CONNECTING else o.c.state == OPENED)
      && SameMake(c, o.c)
  {
  }

  /** A new transport: nothing received or queued, on an open socket. */
  predicate Fresh(s: Service, t: Live, id: nat, channel: nat, socket: nat) {
    && t.id == id && t.channel == channel && t.socket == socket && socket < |s.sockets| && s.sockets[socket].open
    && t.rx == IDLE && t.tx == Sending.QUIET && !t.closeMask && t.error == 0
  }

  lemma AdmitsFresh(s: Service, i: nat)
    requires i < |s.channels| && ChannelOk(s, s.channels[i])
    requires s.channels[i].client ==> s.sockets[s.channels[i].socket].open
    ensures var s', c := Admit(s, i), s.channels[i];
      && |s'.live| == |s.live| + 1 && s'.live[..|s.live|] == s.live && s'.trace == s.trace + [OnOpen(s.nextId)]
      && Fresh(s', s'.live[|s.live|], s.nextId, i, if c.client then c.socket else |s.sockets|)
      && s'.channels == s.channels && s'.nextId == s.nextId + 1
  {
  }

  /** A transport comes exactly with a connection, on an open socket: the client's own, or a new one
      for the server; the operation goes on exactly while a client connects or a server listens. */
  lemma OpensExactly(s: Service, at: nat, a: ChannelAnswer)
    requires Sound(s) && at < |s.ops|
    ensures ChannelOk(s, s.channels[s.ops[at]])
    ensures var (s', kept), i := Operate(s, at, a), s.ops[at];
      var c, c' := s.channels[i], s'.channels[i];
      && (if Comes(c, s.sockets[c.socket], a) then
            && |s'.live| == |s.live| + 1 && s'.live[..|s.live|] == s.live && s'.trace == s.trace + [OnOpen(s.nextId)]
            && Fresh(s', s'.live[|s.live|], s.nextId, i, if c.client then c.socket else |s.sockets|)
            && c'.state == OPENED && s'.nextId == s.nextId + 1
          else s'.live == s.live && s'.trace == s.trace && s'.nextId == s.nextId)
      && (kept <==> if c.client then c'.state == RESOLVING || c'.state == CONNECTING else c'.state == OPENED)
  {
    var i := s.ops[at];
    var c := s.channels[i];
    assert ChannelOk(s, c);
    ChannelComes(c, s.sockets[c.socket], a);
    var o := ServeChannel(c, s.sockets[c.socket], a);
    if o.connected { AdmitsFresh(SetChannel(s, i, o.c, o.k), i); }
  }

  predicate Ends(c: Channel, k: Socket, a: ChannelAnswer) {
    if c.client then Attempts(c, k) && a.outcome == Failing else if c.openMask then !a.listens else c.closeMask
  }

  /** An attempt that fails, and a server that cannot listen or is to close, leave the channel closed, with
      nothing asked and its socket closed; one that takes time leaves it connecting on a watched socket. */
  lemma FailsExactly(s: Service, at: nat, a: ChannelAnswer)
    requires Sound(s) && at < |s.ops|
    ensures ChannelOk(s, s.channels[s.ops[at]])
    ensures var s', c := Operate(s, at, a).0, s.channels[s.ops[at]];
      var k, c', k' := s.sockets[c.socket], s'.channels[s.ops[at]], s'.sockets[c.socket];
      && (Ends(c, k, a) ==> c'.state == CLOSED && !c'.openMask && !c'.closeMask && !k'.open)
      && (c.client && (c.openMask || c.state == RESOLVING) && a.outcome == InProgress ==>
            c'.state == CONNECTING && !c'.openMask && k'.open && k'.watched)
  {
    assert ChannelOk(s, s.channels[s.ops[at]]);
  }
}
