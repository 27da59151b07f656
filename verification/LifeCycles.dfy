/** The life cycle of transports over all runs of the loop. */
module LifeCycles {
  import opened Bytes
  import opened Framing
  import Sending
  import opened Transport
  import opened EventLoop
  import opened LoopRuns

  // ------------------------------------------------------------ the life of a transport

  datatype Stage = Unborn | Alive | Dead | OutOfOrder

  function LifeStep(g: Stage, e: Event, id: nat): Stage {
    match e
    case OnOpen(i) => if i != id then g else if g == Unborn then Alive else OutOfOrder
    case OnPacket(i, _) => if i != id then g else if g == Alive then Alive else OutOfOrder
    case OnClose(i, _) => if i != id then g else if g == Alive then Dead else OutOfOrder
  }

  /** What the events say of one transport: one open, then packets, then at most one close. */
  function Life(trace: seq<Event>, id: nat): Stage {
    if trace == [] then Unborn else LifeStep(Life(trace[..|trace| - 1], id), trace[|trace| - 1], id)
  }

  /** The packets told for one transport. */
  function PacketsOf(trace: seq<Event>, id: nat): seq<Text> {
    if trace == [] then []
    else
      var e := trace[|trace| - 1];
      PacketsOf(trace[..|trace| - 1], id) + (if e.OnPacket? && e.id == id then [e.packet] else [])
  }

  lemma Snoc(trace: seq<Event>, e: Event, id: nat)
    ensures Life(trace + [e], id) == LifeStep(Life(trace, id), e, id)
    ensures PacketsOf(trace + [e], id) == PacketsOf(trace, id) + (if e.OnPacket? && e.id == id then [e.packet] else [])
  {
    assert (trace + [e])[..|trace|] == trace;
  }

  lemma LastPacket(trace: seq<Event>, of: nat, ps: seq<Text>)
    requires ps != []
    ensures trace + Packets(of, ps) == trace + Packets(of, ps[..|ps| - 1]) + [OnPacket(of, ps[|ps| - 1])]
  {
  }

  lemma {:induction false} TellLife(trace: seq<Event>, of: nat, ps: seq<Text>, id: nat)
    ensures Life(trace + Packets(of, ps), id) ==
            if of != id || ps == [] then Life(trace, id) else if Life(trace, id) == Alive then Alive else OutOfOrder
    decreases |ps|
  {
    if ps == [] {
      assert trace + Packets(of, ps) == trace;
    } else {
      var n := |ps| - 1;
      TellLife(trace, of, ps[..n], id);
      LastPacket(trace, of, ps);
      Snoc(trace + Packets(of, ps[..n]), OnPacket(of, ps[n]), id);
    }
  }

  lemma {:induction false} TellPackets(trace: seq<Event>, of: nat, ps: seq<Text>, id: nat)
    ensures PacketsOf(trace + Packets(of, ps), id) == PacketsOf(trace, id) + (if of == id then ps else [])
    decreases |ps|
  {
    if ps == [] {
      assert trace + Packets(of, ps) == trace;
    } else {
      var n := |ps| - 1;
      TellPackets(trace, of, ps[..n], id);
      LastPacket(trace, of, ps);
      Snoc(trace + Packets(of, ps[..n]), OnPacket(of, ps[n]), id);
      assert PacketsOf(trace, id) + ps[..n] + [ps[n]] == PacketsOf(trace, id) + ps;
    }
  }

  predicate HasId(live: seq<Live>, id: nat) { exists i :: 0 <= i < |live| && live[i].id == id }

  predicate IsLive(s: Service, id: nat) { HasId(s.live, id) }

  ghost predicate LifeAt(s: Service, id: nat) {
    Life(s.trace, id) == if id >= s.nextId then Unborn else if IsLive(s, id) then Alive else Dead
  }

  /** A live transport has an identity of its own, and its packets were told as it unpacked them. */
  ghost predicate OneLife(s: Service, i: nat)
    requires i < |s.live|
  {
    && s.live[i].id < s.nextId
    && PacketsOf(s.trace, s.live[i].id) == s.live[i].rx.delivered
    && forall j :: 0 <= j < i ==> s.live[j].id != s.live[i].id
  }

  ghost predicate LivesOk(s: Service) {
    && (forall id: nat :: LifeAt(s, id))
    && (forall i :: 0 <= i < |s.live| ==> OneLife(s, i))
    && (forall id: nat :: id >= s.nextId ==> PacketsOf(s.trace, id) == [])
  }

  /** Every slot handed out is either live or free, and never both or twice. */
  function Slots(s: Service): (r: seq<nat>)
    ensures |r| == |s.live| + |s.pool|
  {
    seq(|s.live|, i requires 0 <= i < |s.live| => s.live[i].slot) + s.pool
  }

  ghost predicate SlotsOk(s: Service) {
    var r := Slots(s);
    && |r| == s.nextSlot
    && (forall i :: 0 <= i < |r| ==> r[i] < s.nextSlot)
    && forall i, j :: 0 <= i < j < |r| ==> r[i] != r[j]
  }

  lemma IdsDiffer(s: Service, i: nat, j: nat)
    requires LivesOk(s) && i < |s.live| && j < |s.live| && i != j
    ensures s.live[i].id != s.live[j].id
  {
    assert OneLife(s, if i < j then j else i);
  }

  lemma CloseLives(s: Service, at: nat, t: Live)
    requires LivesOk(s) && at < |s.live| && PlacedIn(s, t) && t.id == s.live[at].id
    ensures LivesOk(Close(s, at, t))
  {
    var s' := Close(s, at, t);
    var e := OnClose(t.id, t.error);
    assert OneLife(s, at);
    forall id: nat ensures LifeAt(s', id) && PacketsOf(s'.trace, id) == PacketsOf(s.trace, id) {
      Snoc(s.trace, e, id);
      assert LifeAt(s, id);
      StillLive(s, s', at, id);
    }
    forall i | 0 <= i < |s'.live| ensures OneLife(s', i) {
      var k := if i < at then i else i + 1;
      assert OneLife(s, k) && s'.live[i] == s.live[k];
      forall j | 0 <= j < i ensures s'.live[j].id != s'.live[i].id {
        IdsDiffer(s, if j < at then j else j + 1, k);
      }
    }
  }

  lemma StillLive(s: Service, s': Service, at: nat, id: nat)
    requires LivesOk(s) && at < |s.live| && s'.live == s.live[..at] + s.live[at + 1..]
    ensures IsLive(s', id) <==> IsLive(s, id) && id != s.live[at].id
  {
    if IsLive(s', id) {
      var i :| 0 <= i < |s'.live| && s'.live[i].id == id;
      var k := if i < at then i else i + 1;
      assert s.live[k] == s'.live[i];
      IdsDiffer(s, k, at);
    }
    if IsLive(s, id) && id != s.live[at].id {
      var k :| 0 <= k < |s.live| && s.live[k].id == id;
      assert s'.live[if k < at then k else k - 1] == s.live[k];
    }
  }

  /** Packets of a live transport are told. */
  lemma ToldLives(s: Service, at: nat, g: Reading, again: bool)
    requires LivesOk(s) && at < |s.live| && g.t.id == s.live[at].id
    requires g.t.rx.delivered == s.live[at].rx.delivered + g.packets
    ensures LivesOk(Told(s, g, again).(live := s.live[at := g.t]))
  {
    var s' := Told(s, g, again).(live := s.live[at := g.t]);
    assert OneLife(s, at);
    forall id: nat
      ensures LifeAt(s', id)
      ensures PacketsOf(s'.trace, id) == PacketsOf(s.trace, id) + (if id == g.t.id then g.packets else [])
    {
      TellLife(s.trace, g.t.id, g.packets, id);
      TellPackets(s.trace, g.t.id, g.packets, id);
      assert LifeAt(s, id);
      assert IsLive(s', id) <==> IsLive(s, id) by { SameIds(s, s', at); }
    }
    forall i | 0 <= i < |s'.live| ensures OneLife(s', i) {
      assert OneLife(s, i);
      if i != at { IdsDiffer(s, i, at); }
    }
  }

  lemma SameIds(s: Service, s': Service, at: nat)
    requires at < |s.live| && |s'.live| == |s.live| && forall i :: 0 <= i < |s.live| ==> s'.live[i].id == s.live[i].id
    ensures forall id :: IsLive(s', id) <==> IsLive(s, id)
  {
    forall id ensures IsLive(s', id) <==> IsLive(s, id) {
      if IsLive(s, id) {
        var i :| 0 <= i < |s.live| && s.live[i].id == id;
        assert s'.live[i].id == id;
      }
    }
  }

  /** Nothing that tells no event and keeps identities and receivers changes a life. */
  lemma QuietLives(s: Service, s': Service)
    requires LivesOk(s) && s'.trace == s.trace && s'.nextId == s.nextId && |s'.live| == |s.live|
    requires forall i :: 0 <= i < |s.live| ==> s'.live[i].id == s.live[i].id && s'.live[i].rx == s.live[i].rx
    ensures LivesOk(s')
  {
    if |s.live| > 0 { SameIds(s, s', 0); }
    forall id: nat ensures LifeAt(s', id) { assert LifeAt(s, id); }
    forall i | 0 <= i < |s'.live| ensures OneLife(s', i) { assert OneLife(s, i); }
  }

  lemma OneMoreLive(s: Service, s': Service, t: Live, id: nat)
    requires s'.live == s.live + [t]
    ensures IsLive(s', id) <==> IsLive(s, id) || id == t.id
  {
    if IsLive(s, id) {
      var i :| 0 <= i < |s.live| && s.live[i].id == id;
      assert s'.live[i].id == id;
    }
    assert s'.live[|s.live|] == t;
  }

  lemma NotYetLive(s: Service)
    requires LivesOk(s)
    ensures !IsLive(s, s.nextId) && forall i :: 0 <= i < |s.live| ==> s.live[i].id < s.nextId
  {
    forall i | 0 <= i < |s.live| ensures s.live[i].id < s.nextId { assert OneLife(s, i); }
  }

  lemma ActivateLives(s: Service, c: nat, k: nat)
    requires LivesOk(s)
    ensures LivesOk(Activate(s, c, k))
  {
    var s' := Activate(s, c, k);
    NotYetLive(s);
    forall id: nat ensures LifeAt(s', id) && PacketsOf(s'.trace, id) == PacketsOf(s.trace, id) {
      Snoc(s.trace, OnOpen(s.nextId), id);
      assert LifeAt(s, id);
      OneMoreLive(s, s', s'.live[|s.live|], id);
    }
    forall i | 0 <= i < |s'.live| ensures OneLife(s', i) {
      if i < |s.live| { assert OneLife(s, i); }
      else { assert PacketsOf(s.trace, s.nextId) == []; }
    }
  }

  // ------------------------------------------------------------ slots

  lemma CloseSlots(s: Service, at: nat, t: Live)
    requires SlotsOk(s) && at < |s.live| && PlacedIn(s, t) && t.slot == s.live[at].slot
    ensures SlotsOk(Close(s, at, t))
  {
    var s' := Close(s, at, t);
    var r, r' := Slots(s), Slots(s');
    forall i | 0 <= i < |r'| ensures r'[i] == r[MovedFrom(i, at, |s.live|, |r|)] {
    }
  }

  /** Where a slot was before the one at `at` moved to the end of the pool. */
  function MovedFrom(i: nat, at: nat, live: nat, all: nat): (k: nat)
    requires at < live <= all && i < all
    ensures k < all
  {
    if i < at then i else if i == all - 1 then at else i + 1
  }

  lemma ActivateSlots(s: Service, c: nat, k: nat)
    requires SlotsOk(s)
    ensures SlotsOk(Activate(s, c, k))
  {
    var s' := Activate(s, c, k);
    var r, r', n := Slots(s), Slots(s'), |s.live|;
    if s.pool != [] {
      forall i | 0 <= i < |r'| ensures r'[i] == r[if i < n then i else if i == n then |r| - 1 else i - 1] {
      }
    } else {
      assert r' == r + [s.nextSlot];
    }
  }

  lemma SameSlots(s: Service, s': Service)
    requires SlotsOk(s) && |s'.live| == |s.live| && s'.pool == s.pool && s'.nextSlot == s.nextSlot
    requires forall i :: 0 <= i < |s.live| ==> s'.live[i].slot == s.live[i].slot
    ensures SlotsOk(s')
  {
    assert Slots(s') == Slots(s);
  }

  // ------------------------------------------------------------ what every step keeps

  ghost predicate Kept(s: Service) { LivesOk(s) && SlotsOk(s) }

  lemma CloseKeeps(s: Service, at: nat, t: Live)
    requires Kept(s) && at < |s.live| && PlacedIn(s, t) && t.id == s.live[at].id && t.slot == s.live[at].slot
    ensures Kept(Close(s, at, t))
  {
    CloseLives(s, at, t);
    CloseSlots(s, at, t);
  }

  lemma SettleKeeps(s: Service, at: nat, t: Live, ok: bool, error: int)
    requires Kept(s) && at < |s.live| && PlacedIn(s, t)
    requires t.id == s.live[at].id && t.slot == s.live[at].slot && t.rx == s.live[at].rx
    ensures Kept(Settle(s, at, t, ok, error).0)
  {
    if !ok {
      CloseKeeps(s, at, t.(error := error));
    } else if !Requested(s, t) {
      var s' := s.(live := s.live[at := t]);
      QuietLives(s, s');
      SameSlots(s, s');
    } else {
      CloseKeeps(s, at, if t.error == 0 then t.(error := SHUTDOWN_BY_LOCALHOST) else t);
    }
  }

  lemma DeliveredGrows(p: Params, r: Rx, chunk: Text)
    requires ValidParams(p) && RxOk(p, r)
    ensures r.delivered <= Read(p, r, chunk).delivered
  {
  }

  lemma ReadingTells(c: Channel, t: Live, r: Recv)
    requires ValidParams(c.params) && RxOk(c.params, t.rx)
    ensures var g := DoRead(c, t, r);
      && g.t.id == t.id && g.t.slot == t.slot && g.t.channel == t.channel
      && g.t.tx == t.tx && g.t.closeMask == t.closeMask
      && g.t.rx.delivered == t.rx.delivered + g.packets
      && (!g.ok ==> g.t.rx == t.rx && g.packets == [])
  {
    DeliveredGrows(c.params, t.rx, Chunk(Heard(r, |t.rx.pending|)));
  }

  lemma ServeKeeps(s: Service, at: nat, a: Answer)
    requires Sound(s) && Kept(s) && at < |s.live|
    ensures Kept(Serve(s, at, a).0)
  {
    var t := s.live[at];
    assert LiveOk(s, t);
    if !s.sockets[t.socket].open {
      CloseKeeps(s, at, t);
    } else {
      var g := DoRead(s.channels[t.channel], t, a.r);
      ReadingTells(s.channels[t.channel], t, a.r);
      ReadingOk(s, t, a.r);
      if !g.ok { CloseKeeps(s, at, g.t); } else { AfterReadKeeps(s, at, g, a.k); }
    }
  }

  lemma AfterReadKeeps(s: Service, at: nat, g: Reading, k: Sending.Kernel)
    requires Kept(s) && at < |s.live| && LiveOk(s, g.t) && g.t.id == s.live[at].id && g.t.slot == s.live[at].slot
    requires g.t.rx.delivered == s.live[at].rx.delivered + g.packets
    ensures Kept(AfterRead(s, at, g, k).0)
  {
    var kk := Sending.Clip(k, g.t.tx);
    var w := Sending.DoWrite(g.t.tx, kk, !s.channels[g.t.channel].tcp);
    var s1 := Told(s, g, w.again);
    var s2 := s1.(live := s1.live[at := g.t]);
    ToldLives(s, at, g, w.again);
    SameSlots(s, s2);
    var s3 := Asked(s2, g.t, w.interest);
    QuietLives(s2, s3);
    SameSlots(s2, s3);
    SettleKeeps(s3, at, g.t.(tx := w.tx), w.ok, WriteError(kk));
    SettleForgets(Asked(s1, g.t, w.interest), at, g.t, g.t.(tx := w.tx), w.ok, WriteError(kk));
  }

  lemma {:induction false} ServeFromKeeps(s: Service, at: nat, answers: seq<Answer>)
    requires Sound(s) && Kept(s) && at + |answers| == |s.live|
    ensures Kept(ServeFrom(s, at, answers))
    decreases |answers|
  {
    if answers != [] {
      ServeKeeps(s, at, answers[0]);
      ServeSound(s, at, answers[0]);
      var (s1, kept) := Serve(s, at, answers[0]);
      ServeFromKeeps(s1, if kept then at + 1 else at, answers[1..]);
    }
  }

  lemma OperateKeeps(s: Service, at: nat, a: ChannelAnswer)
    requires Sound(s) && Kept(s) && at < |s.ops|
    ensures Kept(Operate(s, at, a).0)
  {
    var i := s.ops[at];
    assert ChannelOk(s, s.channels[i]);
    var o := ServeChannel(s.channels[i], s.sockets[s.channels[i].socket], a);
    ChannelKept(s.channels[i], s.sockets[s.channels[i].socket], a);
    var s1 := SetChannel(s, i, o.c, o.k);
    QuietLives(s, s1);
    SameSlots(s, s1);
    if o.connected { AdmitKeeps(s1, i); }
    var s2 := if o.connected then Admit(s1, i) else s1;
    var s3 := Operate(s, at, a).0;
    QuietLives(s2, s3);
    SameSlots(s2, s3);
  }

  lemma AdmitKeeps(s: Service, i: nat)
    requires Kept(s) && i < |s.channels|
    ensures Kept(Admit(s, i))
  {
    var s1 := s.(sockets := s.sockets + [Socket(true, false)]);
    QuietLives(s, s1);
    SameSlots(s, s1);
    if s.channels[i].client {
      ActivateLives(s, i, s.channels[i].socket);
      ActivateSlots(s, i, s.channels[i].socket);
    } else {
      ActivateLives(s1, i, |s.sockets|);
      ActivateSlots(s1, i, |s.sockets|);
    }
  }

  lemma {:induction false} OperateFromKeeps(s: Service, at: nat, replies: seq<ChannelAnswer>)
    requires Sound(s) && Kept(s) && at + |replies| == |s.ops|
    ensures Kept(OperateFrom(s, at, replies))
    decreases |replies|
  {
    if replies != [] {
      OperateKeeps(s, at, replies[0]);
      OperateSound(s, at, replies[0]);
      var (s1, kept) := Operate(s, at, replies[0]);
      OperateFromKeeps(s1, if kept then at + 1 else at, replies[1..]);
    }
  }

  /** What a request leaves of the live transports. */
  lemma HandledQuietly(s: Service, e: Step)
    requires Sound(s) && IsRequest(e)
    requires e.OpenRequest? || e.CloseRequest? || e.ConnectTimerFires? ==> e.channel < |s.channels|
    requires e.CloseTransportRequest? || e.WriteRequest? ==> e.at < |s.live|
    ensures var s' := Handled(s, e);
      && s'.trace == s.trace && s'.nextId == s.nextId && s'.pool == s.pool && s'.nextSlot == s.nextSlot
      && |s'.live| == |s.live| && forall i :: 0 <= i < |s.live| ==>
        s'.live[i].id == s.live[i].id && s'.live[i].rx == s.live[i].rx && s'.live[i].slot == s.live[i].slot
  {
  }

  lemma StepKeeps(l: Loop, e: Step)
    requires Sound(l.s) && Kept(l.s) && CanStep(l, e)
    ensures Kept(After(l, e).s)
  {
    if e.ServeTransports? {
      ServeFromKeeps(l.s, 0, e.answers);
    } else if e.ServeChannels? {
      OperateFromKeeps(l.s, 0, e.replies);
    } else {
      if IsRequest(e) { HandledQuietly(l.s, e); }
      QuietLives(l.s, After(l, e).s);
      SameSlots(l.s, After(l, e).s);
    }
  }

  lemma {:induction false} RunKeeps(l: Loop, es: seq<Step>)
    requires Sound(l.s) && Kept(l.s) && CanRun(l, es)
    ensures Kept(Run(l, es).s)
    decreases |es|
  {
    if es != [] {
      StepSound(l, es[0]);
      StepKeeps(l, es[0]);
      RunKeeps(After(l, es[0]), es[1..]);
    }
  }

  lemma InitialKept(s: Service)
    requires Initial(s)
    ensures Sound(s) && Kept(s)
  {
    InitialSound(s);
    forall id: nat ensures LifeAt(s, id) {}
  }

  /** Life cycle: on every run the events of a transport are one open, then packets, then at most
      one close and nothing after it; the packets of a live one are those it unpacked, in order;
      and the slots handed out are the live and the free ones, each exactly once. */
  lemma LifeCycle(l: Loop, es: seq<Step>, id: nat)
    requires Starts(l) && Sound(l.s) && CanRun(l, es)
    ensures var z := Run(l, es).s;
      && Life(z.trace, id) == (if id >= z.nextId then Unborn else if IsLive(z, id) then Alive else Dead)
      && (forall i :: 0 <= i < |z.live| && z.live[i].id == id ==> PacketsOf(z.trace, id) == z.live[i].rx.delivered)
      && SlotsOk(z)
  {
    InitialKept(l.s);
    RunKeeps(l, es);
    var z := Run(l, es).s;
    assert LifeAt(z, id);
    forall i | 0 <= i < |z.live| && z.live[i].id == id ensures PacketsOf(z.trace, id) == z.live[i].rx.delivered {
      assert OneLife(z, i);
    }
  }
}
