/** The service's loop over transports and channels, on values: what each operation does. */
module EventLoop {
  import opened Bytes
  import opened Framing
  import Sending
  import opened Transport

  datatype ChannelState = CLOSED | RESOLVING | CONNECTING | OPENED

  /** A socket object and the watcher's write interest in it. A client's transport has the socket of
      its channel; an accepted one has a socket of its own. */
  datatype Socket = Socket(open: bool, watched: bool)

  const CLOSED_SOCKET := Socket(false, false)

  /** A channel; the masks are the requests still to be seen by the loop. */
  datatype Channel = Channel(client: bool, tcp: bool, params: Params, socket: nat, state: ChannelState,
                             openMask: bool, closeMask: bool)

  /** A live transport in the memory slot `slot`. */
  datatype Live = Live(slot: nat, id: nat, channel: nat, socket: nat, rx: Rx, tx: Sending.Tx,
                       closeMask: bool, error: int)

  datatype Event = OnOpen(id: nat) | OnPacket(id: nat, packet: Text) | OnClose(id: nat, error: int)

  /** What the kernel answers to one transport in one turn. */
  datatype Answer = Answer(r: Recv, k: Sending.Kernel)

  /** What resolver and kernel answer to one channel in one turn. */
  datatype ChannelAnswer = ChannelAnswer(outcome: Outcome, listens: bool, accepts: bool)

  datatype Outcome = Pending | Failing | InProgress | Connected

  /** `ops` are the channels with an operation in progress, `pool` the free slots. `wait` is the
      next poll's longest wait, `woken` the sticky wake-up. */
  datatype Service = Service(sockets: seq<Socket>, channels: seq<Channel>, ops: seq<nat>, live: seq<Live>,
                             pool: seq<nat>, nextSlot: nat, nextId: nat, wait: int, longest: int,
                             stop: bool, woken: bool, trace: seq<Event>)

  const SHUTDOWN_BY_LOCALHOST: int := -24

  predicate PlacedIn(s: Service, t: Live) {
    t.channel < |s.channels| && t.socket < |s.sockets| && s.channels[t.channel].socket < |s.sockets|
  }

  predicate LiveOk(s: Service, t: Live) {
    && PlacedIn(s, t) && ValidParams(s.channels[t.channel].params)
    && RxOk(s.channels[t.channel].params, t.rx) && !t.rx.failed && Sending.TxOk(t.tx)
  }

  predicate ChannelOk(s: Service, c: Channel) { ValidParams(c.params) && c.socket < |s.sockets| }

  predicate Sound(s: Service) {
    && (forall i :: 0 <= i < |s.live| ==> LiveOk(s, s.live[i]))
    && (forall i :: 0 <= i < |s.channels| ==> ChannelOk(s, s.channels[i]))
    && (forall i :: 0 <= i < |s.ops| ==> s.ops[i] < |s.channels|)
  }

  /** The channels keep what they were created with, and no socket goes away. */
  predicate Extends(a: Service, b: Service) {
    && |a.sockets| <= |b.sockets| && |a.channels| == |b.channels|
    && forall i :: 0 <= i < |a.channels| ==> SameMake(a.channels[i], b.channels[i])
  }

  predicate SameMake(a: Channel, b: Channel) {
    a.params == b.params && a.client == b.client && a.tcp == b.tcp && a.socket == b.socket
  }

  // ------------------------------------------------------------ one transport

  /** How a transport's receive went: the transport, whether it goes on, the packets delivered,
      and whether bytes are left behind them. */
  datatype Reading = Reading(t: Live, ok: bool, packets: seq<Text>, again: bool)

  function DoRead(c: Channel, t: Live, k: Recv): Reading
    requires ValidParams(c.params) && RxOk(c.params, t.rx)
  {
    var r := Heard(k, |t.rx.pending|);
    if r.Broken? then Reading(t.(error := r.error), false, [], false)
    else if c.tcp && r == Received([]) then Reading(t.(error := EOF_ERROR), false, [], false)
    else
      var rx := Read(c.params, t.rx, Chunk(r));
      if rx.failed then Reading(t.(error := INVALID_PACKET), false, [], false)
      else
        var n := |t.rx.delivered|;
        Reading(t.(rx := rx), true, if n <= |rx.delivered| then rx.delivered[n..] else [],
                |rx.delivered| > n && rx.pending != [])
  }

  function Packets(id: nat, ps: seq<Text>): (r: seq<Event>)
    ensures |r| == |ps| && forall i :: 0 <= i < |ps| ==> r[i] == OnPacket(id, ps[i])
  {
    seq(|ps|, i requires 0 <= i < |ps| => OnPacket(id, ps[i]))
  }

  /** `handle_close` and the erasure from the live list. */
  function Close(s: Service, at: nat, t: Live): Service
    requires at < |s.live| && PlacedIn(s, t)
  {
    var c := s.channels[t.channel];
    var sockets := s.sockets[t.socket := CLOSED_SOCKET];
    s.(live := s.live[..at] + s.live[at + 1..],
       pool := s.pool + [t.slot],
       trace := s.trace + [OnClose(t.id, t.error)],
       sockets := if c.client then sockets[c.socket := CLOSED_SOCKET] else sockets,
       channels := if c.client then s.channels[t.channel := c.(closeMask := false, state := CLOSED)] else s.channels)
  }

  function Requested(s: Service, t: Live): bool
    requires t.channel < |s.channels|
  {
    t.closeMask || s.channels[t.channel].openMask || s.channels[t.channel].closeMask || s.stop
  }

  /** The packets are told; bytes left to read or to send forbid waiting. */
  function Told(s: Service, g: Reading, again: bool): Service {
    s.(trace := s.trace + Packets(g.t.id, g.packets), wait := if g.again || again then 0 else s.wait)
  }

  /** What a write turn asks of the watcher about the transport's socket. */
  function Asked(s: Service, t: Live, i: Sending.Interest): Service
    requires t.socket < |s.sockets|
  {
    var k := s.sockets[t.socket];
    s.(sockets := s.sockets[t.socket := k.(watched := Sending.Watched(i, k.watched))])
  }

  /** The end of a transport's turn: it stays, or is closed with an error. */
  function Settle(s: Service, at: nat, t: Live, ok: bool, error: int): (Service, bool)
    requires at < |s.live| && PlacedIn(s, t)
  {
    if !ok then (Close(s, at, t.(error := error)), false)
    else if !Requested(s, t) then (s.(live := s.live[at := t]), true)
    else (Close(s, at, if t.error == 0 then t.(error := SHUTDOWN_BY_LOCALHOST) else t), false)
  }

  /** A close does not depend on what is in the list at its place, nor does the end of a turn. */
  lemma CloseForgets(s: Service, at: nat, u: Live, t: Live)
    requires at < |s.live| && PlacedIn(s, t)
    ensures Close(s.(live := s.live[at := u]), at, t) == Close(s, at, t)
  {
  }

  lemma SettleForgets(s: Service, at: nat, u: Live, t: Live, ok: bool, error: int)
    requires at < |s.live| && PlacedIn(s, t)
    ensures Settle(s.(live := s.live[at := u]), at, t, ok, error) == Settle(s, at, t, ok, error)
  {
    CloseForgets(s, at, u, t.(error := error));
    CloseForgets(s, at, u, if t.error == 0 then t.(error := SHUTDOWN_BY_LOCALHOST) else t);
    assert s.live[at := u][at := t] == s.live[at := t];
  }

  function WriteError(k: Sending.Kernel): int { if k.Fails? then k.error else 0 }

  /** After a read that goes on: the write side has its turn. */
  function AfterRead(s: Service, at: nat, g: Reading, k: Sending.Kernel): (Service, bool)
    requires at < |s.live| && LiveOk(s, g.t)
  {
    var kk := Sending.Clip(k, g.t.tx);
    var w := Sending.DoWrite(g.t.tx, kk, !s.channels[g.t.channel].tcp);
    Settle(Asked(Told(s, g, w.again), g.t, w.interest), at, g.t.(tx := w.tx), w.ok, WriteError(kk))
  }

  /** One transport's turn: the new state, and whether it stays alive. A transport whose socket has
      been closed under it is closed. */
  function Serve(s: Service, at: nat, a: Answer): (Service, bool)
    requires Sound(s) && at < |s.live|
  {
    var t := s.live[at];
    assert LiveOk(s, t);
    if !s.sockets[t.socket].open then (Close(s, at, t), false)
    else
      var g := DoRead(s.channels[t.channel], t, a.r);
      if !g.ok then (Close(s, at, g.t), false)
      else
        ReadingOk(s, t, a.r);
        AfterRead(s, at, g, a.k)
  }

  lemma ReadingOk(s: Service, t: Live, r: Recv)
    requires LiveOk(s, t)
    ensures var g := DoRead(s.channels[t.channel], t, r);
      && g.t == t.(rx := g.t.rx, error := g.t.error) && PlacedIn(s, g.t)
      && (g.ok ==> LiveOk(s, g.t) && g.t.error == t.error)
  {
    ReadKeepsOk(s.channels[t.channel].params, t.rx, Chunk(Heard(r, |t.rx.pending|)));
  }

  /** Soundness stays when lists of the same make replace the old ones. */
  lemma SoundAgain(s: Service, s': Service)
    requires Sound(s) && Extends(s, s')
    requires forall i :: 0 <= i < |s'.live| ==> s'.live[i] in s.live || LiveOk(s, s'.live[i])
    requires forall i :: 0 <= i < |s'.ops| ==> s'.ops[i] < |s.channels|
    ensures Sound(s')
  {
    forall i | 0 <= i < |s'.live| ensures LiveOk(s', s'.live[i]) {
      var t := s'.live[i];
      if t in s.live {
        var j :| 0 <= j < |s.live| && s.live[j] == t;
        assert LiveOk(s, s.live[j]);
      }
      assert SameMake(s.channels[t.channel], s'.channels[t.channel]);
    }
    forall i | 0 <= i < |s'.channels| ensures ChannelOk(s', s'.channels[i]) {
      assert ChannelOk(s, s.channels[i]) && SameMake(s.channels[i], s'.channels[i]);
    }
  }

  lemma CloseSound(s: Service, at: nat, t: Live)
    requires Sound(s) && at < |s.live| && PlacedIn(s, t)
    ensures Sound(Close(s, at, t)) && Extends(s, Close(s, at, t))
  {
    SoundAgain(s, Close(s, at, t));
  }

  lemma SetLiveSound(s: Service, at: nat, t: Live)
    requires Sound(s) && at < |s.live| && LiveOk(s, t)
    ensures Sound(s.(live := s.live[at := t]))
  {
    SoundAgain(s, s.(live := s.live[at := t]));
  }

  lemma SettleSound(s: Service, at: nat, t: Live, ok: bool, error: int)
    requires Sound(s) && at < |s.live| && LiveOk(s, t)
    ensures var (s', kept) := Settle(s, at, t, ok, error);
      Sound(s') && Extends(s, s') && |s'.live| == if kept then |s.live| else |s.live| - 1
  {
    if !ok {
      CloseSound(s, at, t.(error := error));
    } else if !Requested(s, t) {
      SetLiveSound(s, at, t);
    } else {
      CloseSound(s, at, if t.error == 0 then t.(error := SHUTDOWN_BY_LOCALHOST) else t);
    }
  }

  lemma AfterReadSound(s: Service, at: nat, g: Reading, k: Sending.Kernel)
    requires Sound(s) && at < |s.live| && LiveOk(s, g.t)
    ensures var (s', kept) := AfterRead(s, at, g, k);
      Sound(s') && Extends(s, s') && |s'.live| == if kept then |s.live| else |s.live| - 1
  {
    var kk := Sending.Clip(k, g.t.tx);
    Sending.NoWorkIsSleptOn(g.t.tx, kk, !s.channels[g.t.channel].tcp, false);
    var w := Sending.DoWrite(g.t.tx, kk, !s.channels[g.t.channel].tcp);
    var s1 := Asked(Told(s, g, w.again), g.t, w.interest);
    SoundAgain(s, s1);
    SettleSound(s1, at, g.t.(tx := w.tx), w.ok, WriteError(kk));
  }

  lemma ServeSound(s: Service, at: nat, a: Answer)
    requires Sound(s) && at < |s.live|
    ensures var (s', kept) := Serve(s, at, a);
      Sound(s') && Extends(s, s') && |s'.live| == if kept then |s.live| else |s.live| - 1
    ensures Serve(s, at, a).0.ops == s.ops
  {
    var t := s.live[at];
    assert LiveOk(s, t);
    if !s.sockets[t.socket].open {
      CloseSound(s, at, t);
    } else {
      var g := DoRead(s.channels[t.channel], t, a.r);
      ReadingOk(s, t, a.r);
      if !g.ok { CloseSound(s, at, g.t); } else { AfterReadSound(s, at, g, a.k); }
    }
  }

  /** `process_transports` from the transport at `at` on, with an answer for each. */
  function ServeFrom(s: Service, at: nat, answers: seq<Answer>): (r: Service)
    requires Sound(s) && at + |answers| == |s.live|
    ensures Sound(r) && Extends(s, r) && r.ops == s.ops
    decreases |answers|
  {
    if answers == [] then s
    else
      ServeSound(s, at, answers[0]);
      var (s1, kept) := Serve(s, at, answers[0]);
      var r := ServeFrom(s1, if kept then at + 1 else at, answers[1..]);
      ExtendsOn(s, s1, r);
      r
  }

  lemma ExtendsOn(a: Service, b: Service, c: Service)
    requires Extends(a, b) && Extends(b, c)
    ensures Extends(a, c)
  {
    forall i | 0 <= i < |a.channels| ensures SameMake(a.channels[i], c.channels[i]) {
      assert SameMake(a.channels[i], b.channels[i]) && SameMake(b.channels[i], c.channels[i]);
    }
  }

  // ------------------------------------------------------------ one channel

  /** `cleanup_channel` but for the socket, which it closes. */
  function Cleaned(c: Channel): Channel { c.(state := CLOSED, openMask := false, closeMask := false) }

  /** A connection: a slot from the pool or a new one, and the open event. */
  function Activate(s: Service, channel: nat, socket: nat): Service {
    var slot := if s.pool != [] then s.pool[|s.pool| - 1] else s.nextSlot;
    s.(pool := if s.pool != [] then s.pool[..|s.pool| - 1] else s.pool,
       nextSlot := if s.pool != [] then s.nextSlot else s.nextSlot + 1,
       nextId := s.nextId + 1,
       live := s.live + [Live(slot, s.nextId, channel, socket, IDLE, Sending.QUIET, false, 0)],
       trace := s.trace + [OnOpen(s.nextId)])
  }

  /** What a channel's turn makes of the channel and its socket; whether its operation is finished,
      and whether there is a connection. */
  datatype Operated = Operated(c: Channel, k: Socket, finished: bool, connected: bool)

  /** `do_resolve` and `do_connect`. A socket that is open is closed, and the same object opened anew. */
  function Connect(c: Channel, k: Socket, o: Outcome): Operated {
    match o
    case Pending => Operated(c, k, false, false)
    case Failing => Operated(Cleaned(c), CLOSED_SOCKET, true, false)
    case InProgress =>
      Operated((if k.open then Cleaned(c) else c).(state := CONNECTING), Socket(true, true), false, false)
    case Connected =>
      Operated((if k.open then Cleaned(c) else c).(state := OPENED), Socket(true, false), true, true)
  }

  /** `do_connect_completion`. */
  function Complete(c: Channel, k: Socket, o: Outcome): Operated {
    if !k.open then Operated(c, k, false, false)
    else match o
      case Failing => Operated(Cleaned(c), CLOSED_SOCKET, true, false)
      case Connected => Operated(c.(state := OPENED), k.(watched := false), true, true)
      case _ => Operated(c, k, false, false)
  }

  /** A client's turn. */
  function ServeClient(c: Channel, k: Socket, o: Outcome): Operated {
    var c1 := if c.openMask then c.(openMask := false, state := RESOLVING) else c;
    if c1.state == RESOLVING then Connect(c1, k, o)
    else if c1.state == CONNECTING then Complete(c1, k, o)
    else Operated(c1, k, true, false)
  }

  /** A server's turn: open, close, or accept. */
  function ServeServer(c: Channel, k: Socket, a: ChannelAnswer): Operated {
    var (c1, k1) :=
      if c.openMask && a.listens then (Cleaned(c).(state := OPENED), Socket(true, false))
      else if c.openMask || c.closeMask then (Cleaned(c), CLOSED_SOCKET)
      else (c, k);
    Operated(c1, k1, c1.state != OPENED, c1.state == OPENED && a.accepts && c1.tcp)
  }

  function ServeChannel(c: Channel, k: Socket, a: ChannelAnswer): Operated {
    if c.client then ServeClient(c, k, a.outcome) else ServeServer(c, k, a)
  }

  /** The connection of a channel: a client's on the channel's own socket, an accepted one on a new. */
  function Admit(s: Service, i: nat): Service
    requires i < |s.channels|
  {
    if s.channels[i].client then Activate(s, i, s.channels[i].socket)
    else Activate(s.(sockets := s.sockets + [Socket(true, false)]), i, |s.sockets|)
  }

  function SetChannel(s: Service, i: nat, c: Channel, k: Socket): Service
    requires i < |s.channels| && c.socket < |s.sockets|
  {
    s.(channels := s.channels[i := c], sockets := s.sockets[c.socket := k])
  }

  lemma ChannelKept(c: Channel, k: Socket, a: ChannelAnswer)
    ensures SameMake(c, ServeChannel(c, k, a).c)
  {
  }

  /** One channel with an operation in progress. */
  function Operate(s: Service, at: nat, a: ChannelAnswer): (Service, bool)
    requires Sound(s) && at < |s.ops|
  {
    var i := s.ops[at];
    assert ChannelOk(s, s.channels[i]);
    var o := ServeChannel(s.channels[i], s.sockets[s.channels[i].socket], a);
    ChannelKept(s.channels[i], s.sockets[s.channels[i].socket], a);
    var s1 := SetChannel(s, i, o.c, o.k);
    var s2 := if o.connected then Admit(s1, i) else s1;
    (if o.finished then s2.(ops := s.ops[..at] + s.ops[at + 1..]) else s2, !o.finished)
  }

  lemma SetChannelSound(s: Service, i: nat, c: Channel, k: Socket)
    requires Sound(s) && i < |s.channels| && SameMake(s.channels[i], c)
    ensures c.socket < |s.sockets| && Sound(SetChannel(s, i, c, k)) && Extends(s, SetChannel(s, i, c, k))
  {
    assert ChannelOk(s, s.channels[i]);
    SoundAgain(s, SetChannel(s, i, c, k));
  }

  lemma AdmitSound(s: Service, i: nat)
    requires Sound(s) && i < |s.channels|
    ensures Sound(Admit(s, i)) && Extends(s, Admit(s, i))
  {
    assert ChannelOk(s, s.channels[i]);
    var s' := Admit(s, i);
    var s1 := s.(sockets := s'.sockets);
    SoundAgain(s, s1);
    assert LiveOk(s1, s'.live[|s.live|]);
    SoundAgain(s1, s');
  }

  lemma OperateSound(s: Service, at: nat, a: ChannelAnswer)
    requires Sound(s) && at < |s.ops|
    ensures Sound(Operate(s, at, a).0) && Extends(s, Operate(s, at, a).0)
    ensures var (s', kept) := Operate(s, at, a); |s'.ops| == if kept then |s.ops| else |s.ops| - 1
  {
    var i := s.ops[at];
    assert ChannelOk(s, s.channels[i]);
    var o := ServeChannel(s.channels[i], s.sockets[s.channels[i].socket], a);
    ChannelKept(s.channels[i], s.sockets[s.channels[i].socket], a);
    SetChannelSound(s, i, o.c, o.k);
    var s1 := SetChannel(s, i, o.c, o.k);
    if o.connected { AdmitSound(s1, i); }
    var s2 := if o.connected then Admit(s1, i) else s1;
    ExtendsOn(s, s1, s2);
    SoundAgain(s2, Operate(s, at, a).0);
  }

  /** `process_channels` from the operation at `at` on. */
  function OperateFrom(s: Service, at: nat, replies: seq<ChannelAnswer>): (r: Service)
    requires Sound(s) && at + |replies| == |s.ops|
    ensures Sound(r) && Extends(s, r)
    decreases |replies|
  {
    if replies == [] then s
    else
      OperateSound(s, at, replies[0]);
      var (s1, kept) := Operate(s, at, replies[0]);
      var r := OperateFrom(s1, if kept then at + 1 else at, replies[1..]);
      ExtendsOn(s, s1, r);
      r
  }

  // ------------------------------------------------------------ requests

  /** `open_internal`. */
  function Open(s: Service, i: nat): Service
    requires i < |s.channels|
  {
    var c := s.channels[i];
    if c.state == CONNECTING || c.state == RESOLVING then s
    else s.(channels := s.channels[i := c.(closeMask := false, openMask := true)],
            ops := if i in s.ops then s.ops else s.ops + [i], woken := true)
  }

  function ClosedByRequest(c: Channel, open: bool): Channel {
    if c.closeMask then c else c.(openMask := false, closeMask := open)
  }

  /** `close(index)`. */
  function CloseChannel(s: Service, i: nat): Service
    requires i < |s.channels| && s.channels[i].socket < |s.sockets|
  {
    var c := s.channels[i];
    var open := s.sockets[c.socket].open;
    s.(channels := s.channels[i := ClosedByRequest(c, open)], woken := s.woken || (!c.closeMask && open))
  }

  /** `close(transport)`. */
  function CloseTransport(s: Service, at: nat): Service
    requires at < |s.live|
  {
    var t := s.live[at];
    if t.closeMask then s else s.(live := s.live[at := t.(closeMask := true)], woken := true)
  }

  /** `write` on a live transport, refused when its socket is closed. */
  function Write(s: Service, at: nat, id: nat, data: Text): Service
    requires at < |s.live| && s.live[at].socket < |s.sockets|
  {
    var t := s.live[at];
    if data == [] || !s.sockets[t.socket].open then s
    else s.(live := s.live[at := t.(tx := Sending.Write(t.tx, id, data))], woken := true)
  }

  /** `do_stop` on a running service. */
  function Stop(s: Service): Service
    requires Sound(s)
  {
    if s.stop then s
    else s.(stop := true, woken := true,
            channels := seq(|s.channels|, i requires 0 <= i < |s.channels| =>
              assert ChannelOk(s, s.channels[i]);
              ClosedByRequest(s.channels[i], s.sockets[s.channels[i].socket].open)))
  }

  /** The connect timer fires. */
  function ConnectTimeout(s: Service, i: nat): Service
    requires i < |s.channels| && s.channels[i].socket < |s.sockets|
  {
    if s.channels[i].state == OPENED then s else SetChannel(s, i, Cleaned(s.channels[i]), CLOSED_SOCKET)
  }
}
