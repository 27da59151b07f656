/** Who owns a socket, and when the watcher's write interest is what the transports believe. */
module Ownership {
  import Framing
  import Sending
  import opened Transport
  import opened EventLoop
  import opened LoopRuns
  import opened Sleeping

  /** A live transport has its socket to itself and open, belongs to an open channel if it is a
      client's, and the watcher's write interest in the socket is what its flag says. */
  ghost predicate Owns(s: Service, t: Live) {
    && PlacedIn(s, t) && s.sockets[t.socket].open && t.tx.registered == s.sockets[t.socket].watched
    && (if s.channels[t.channel].client then
          t.socket == s.channels[t.channel].socket && s.channels[t.channel].state == OPENED
        else forall i :: 0 <= i < |s.channels| ==> s.channels[i].socket != t.socket)
  }

  ghost predicate Carries(s: Service, i: nat) { exists j :: 0 <= j < |s.live| && s.live[j].channel == i }

  /** An open client socket is connecting, and then watched for it, or carries a live transport; an open
      request is not one for a channel that is resolving or connecting. */
  ghost predicate Accounted(s: Service, i: nat)
    requires i < |s.channels| && s.channels[i].socket < |s.sockets|
  {
    var c := s.channels[i];
    c.client ==>
      && (s.sockets[c.socket].open ==> c.state == CONNECTING || Carries(s, i))
      && (c.openMask ==> c.state == OPENED || c.state == CLOSED)
      && (c.state == CONNECTING && s.sockets[c.socket].open ==> s.sockets[c.socket].watched)
  }

  ghost predicate Owned(s: Service)
    requires Sound(s)
  {
    && (forall i :: 0 <= i < |s.live| ==> Owns(s, s.live[i]))
    && (forall i, j :: 0 <= i < j < |s.live| ==> s.live[i].socket != s.live[j].socket)
    && (forall i, j :: 0 <= i < j < |s.channels| ==> s.channels[i].socket != s.channels[j].socket)
    && (forall i :: 0 <= i < |s.channels| ==> ChannelOk(s, s.channels[i]) && Accounted(s, i))
  }

  /** The guard that decides: an open request is served for a client channel whose socket is open. */
  predicate Reopens(s: Service, at: nat)
    requires Sound(s) && at < |s.ops|
  {
    var c := s.channels[s.ops[at]];
    assert ChannelOk(s, c);
    c.client && c.openMask && s.sockets[c.socket].open
  }

  // ------------------------------------------------------------ transports

  lemma CloseOwned(s: Service, at: nat, t: Live)
    requires Sound(s) && Owned(s) && at < |s.live|
    requires t.channel == s.live[at].channel && t.socket == s.live[at].socket && PlacedIn(s, t)
    ensures Sound(Close(s, at, t)) && Owned(Close(s, at, t))
  {
    CloseSound(s, at, t);
    var s' := Close(s, at, t);
    CloseOwns(s, at, t);
    forall i | 0 <= i < |s'.channels| ensures ChannelOk(s', s'.channels[i]) && Accounted(s', i) {
      CloseAccounted(s, at, t, i);
    }
  }

  lemma CloseOwns(s: Service, at: nat, t: Live)
    requires Sound(s) && Owned(s) && at < |s.live|
    requires t.channel == s.live[at].channel && t.socket == s.live[at].socket && PlacedIn(s, t)
    ensures var s' := Close(s, at, t);
      && (forall i :: 0 <= i < |s'.live| ==> Owns(s', s'.live[i]))
      && (forall i, j :: 0 <= i < j < |s'.live| ==> s'.live[i].socket != s'.live[j].socket)
  {
    var s' := Close(s, at, t);
    assert Owns(s, s.live[at]);
    forall i | 0 <= i < |s'.live| ensures Owns(s', s'.live[i]) {
      var k := if i < at then i else i + 1;
      assert s'.live[i] == s.live[k] && Owns(s, s.live[k]);
    }
  }

  lemma CloseAccounted(s: Service, at: nat, t: Live, i: nat)
    requires Sound(s) && Owned(s) && at < |s.live| && i < |s.channels|
    requires t.channel == s.live[at].channel && t.socket == s.live[at].socket && PlacedIn(s, t)
    ensures var s' := Close(s, at, t); ChannelOk(s', s'.channels[i]) && Accounted(s', i)
  {
    var s' := Close(s, at, t);
    assert Owns(s, s.live[at]) && ChannelOk(s, s.channels[i]) && Accounted(s, i);
    if s'.channels[i].client && s'.sockets[s'.channels[i].socket].open {
      CloseTakesOwn(s, at, t, i);
      if Carries(s, i) {
        var j :| 0 <= j < |s.live| && s.live[j].channel == i;
        StillCarries(s, s', at, j);
      }
    }
  }

  /** A client channel whose socket is still open after a close is not that of the transport closed. */
  lemma CloseTakesOwn(s: Service, at: nat, t: Live, i: nat)
    requires at < |s.live| && i < |s.channels| && t.channel == s.live[at].channel && PlacedIn(s, t)
    requires s.channels[i].socket < |s.sockets| && s.channels[i].client
    requires Close(s, at, t).sockets[s.channels[i].socket].open
    ensures t.channel != i && s.sockets[s.channels[i].socket].open && Close(s, at, t).channels[i] == s.channels[i]
  {
  }

  lemma StillCarries(s: Service, s': Service, at: nat, j: nat)
    requires at < |s.live| && j < |s.live| && j != at && s'.live == s.live[..at] + s.live[at + 1..]
    ensures Carries(s', s.live[j].channel)
  {
    assert s'.live[if j < at then j else j - 1] == s.live[j];
  }

  /** A turn's new transport value, with the socket as it left it. */
  lemma TurnOwned(s: Service, at: nat, t: Live, k: Socket)
    requires Sound(s) && Owned(s) && at < |s.live| && LiveOk(s, t)
    requires t.channel == s.live[at].channel && t.socket == s.live[at].socket
    requires k.open && t.tx.registered == k.watched
    ensures var s' := s.(live := s.live[at := t], sockets := s.sockets[t.socket := k]); Sound(s') && Owned(s')
  {
    var s' := s.(live := s.live[at := t], sockets := s.sockets[t.socket := k]);
    SoundAgain(s, s');
    assert Owns(s, s.live[at]);
    forall i | 0 <= i < |s'.live| ensures Owns(s', s'.live[i]) {
      assert Owns(s, s.live[i]);
      if i != at { assert s.live[i].socket != t.socket; }
    }
    forall i | 0 <= i < |s'.channels| ensures ChannelOk(s', s'.channels[i]) && Accounted(s', i) {
      assert ChannelOk(s, s.channels[i]) && Accounted(s, i) && ChannelOk(s', s'.channels[i]);
      if Carries(s, i) {
        var j :| 0 <= j < |s.live| && s.live[j].channel == i;
        assert s'.live[j].channel == i;
      }
    }
  }

  /** What a settled transport's turn does depends on its list entry only through the new value. */
  lemma SettleOwned(s: Service, at: nat, t: Live, ok: bool, error: int)
    requires Sound(s) && Owned(s) && at < |s.live| && s.live[at] == t
    ensures Sound(Settle(s, at, t, ok, error).0) && Owned(Settle(s, at, t, ok, error).0)
  {
    assert LiveOk(s, s.live[at]);
    if !ok {
      CloseOwned(s, at, t.(error := error));
    } else if !Requested(s, t) {
      assert s.live[at := t] == s.live;
    } else {
      CloseOwned(s, at, if t.error == 0 then t.(error := SHUTDOWN_BY_LOCALHOST) else t);
    }
  }

  /** Events and waits are nobody's property. */
  lemma SameOwned(s: Service, s': Service)
    requires Sound(s) && Owned(s) && s'.live == s.live && s'.sockets == s.sockets && s'.channels == s.channels
    requires s'.ops == s.ops
    ensures Sound(s') && Owned(s')
  {
    SoundAgain(s, s');
    forall i | 0 <= i < |s'.live| ensures Owns(s', s'.live[i]) { assert Owns(s, s.live[i]); }
    forall i | 0 <= i < |s'.channels| ensures ChannelOk(s', s'.channels[i]) && Accounted(s', i) {
      assert ChannelOk(s, s.channels[i]) && Accounted(s, i);
      assert Carries(s, i) ==> Carries(s', i);
    }
  }

  lemma AfterReadOwned(s: Service, at: nat, g: Reading, k: Sending.Kernel)
    requires Sound(s) && Owned(s) && at < |s.live| && LiveOk(s, g.t)
    requires g.t.channel == s.live[at].channel && g.t.socket == s.live[at].socket && g.t.tx == s.live[at].tx
    ensures Sound(AfterRead(s, at, g, k).0) && Owned(AfterRead(s, at, g, k).0)
  {
    var kk := Sending.Clip(k, g.t.tx);
    var socket := s.sockets[g.t.socket];
    assert Owns(s, s.live[at]);
    Sending.NoWorkIsSleptOn(g.t.tx, kk, !s.channels[g.t.channel].tcp, socket.watched);
    var w := Sending.DoWrite(g.t.tx, kk, !s.channels[g.t.channel].tcp);
    var s1 := Told(s, g, w.again);
    SameOwned(s, s1);
    WrittenOwned(s1, at, g.t.(tx := w.tx), w, WriteError(kk));
  }

  /** The turn ends with the transport's new value and the socket as the watcher was told. */
  lemma WrittenOwned(s: Service, at: nat, t: Live, w: Sending.Turn, error: int)
    requires Sound(s) && Owned(s) && at < |s.live| && LiveOk(s, t) && t.tx == w.tx
    requires t.channel == s.live[at].channel && t.socket == s.live[at].socket
    requires w.tx.registered == Sending.Watched(w.interest, s.sockets[t.socket].watched)
    ensures var s' := Settle(Asked(s, t, w.interest), at, t, w.ok, error).0; Sound(s') && Owned(s')
  {
    var socket := s.sockets[t.socket];
    assert Owns(s, s.live[at]);
    TurnOwned(s, at, t, socket.(watched := Sending.Watched(w.interest, socket.watched)));
    var s2 := Asked(s, t, w.interest);
    SettleOwned(s2.(live := s2.live[at := t]), at, t, w.ok, error);
    SettleForgets(s2, at, t, t, w.ok, error);
  }

  lemma ServeOwned(s: Service, at: nat, a: Answer)
    requires Sound(s) && Owned(s) && at < |s.live|
    ensures Sound(Serve(s, at, a).0) && Owned(Serve(s, at, a).0)
  {
    var t := s.live[at];
    assert LiveOk(s, t) && Owns(s, t);
    var g := DoRead(s.channels[t.channel], t, a.r);
    ReadingOk(s, t, a.r);
    if !g.ok { CloseOwned(s, at, g.t); } else { AfterReadOwned(s, at, g, a.k); }
  }

  lemma {:induction false} ServeFromOwned(s: Service, at: nat, answers: seq<Answer>)
    requires Sound(s) && Owned(s) && at + |answers| == |s.live|
    ensures Owned(ServeFrom(s, at, answers))
    decreases |answers|
  {
    if answers != [] {
      ServeOwned(s, at, answers[0]);
      ServeSound(s, at, answers[0]);
      var (s1, kept) := Serve(s, at, answers[0]);
      ServeFromOwned(s1, if kept then at + 1 else at, answers[1..]);
    }
  }

  // ------------------------------------------------------------ channels

  /** A channel's turn that does not re-open a socket in use. */
  lemma FreeToConnect(s: Service, at: nat)
    requires Sound(s) && Owned(s) && at < |s.ops| && !Reopens(s, at)
    ensures var i := s.ops[at]; var c := s.channels[i];
      ChannelOk(s, c) && (c.client && (c.openMask || c.state != OPENED) ==>
        !Carries(s, i) && (c.state != CONNECTING ==> !s.sockets[c.socket].open))
  {
    var i := s.ops[at];
    var c := s.channels[i];
    assert ChannelOk(s, c) && Accounted(s, i);
    if Carries(s, i) {
      var j :| 0 <= j < |s.live| && s.live[j].channel == i;
      assert Owns(s, s.live[j]);
    }
  }

  /** A channel that carries no transport may change with its socket. */
  lemma SetChannelOwned(s: Service, i: nat, c: Channel, k: Socket)
    requires Sound(s) && Owned(s) && i < |s.channels| && SameMake(s.channels[i], c)
    requires c.client ==> !Carries(s, i)
    requires c.client && k.open ==> c.state == CONNECTING && k.watched
    requires c.client && c.openMask ==> c.state == CLOSED
    ensures c.socket < |s.sockets| && Sound(SetChannel(s, i, c, k)) && Owned(SetChannel(s, i, c, k))
  {
    SetChannelSound(s, i, c, k);
    var s' := SetChannel(s, i, c, k);
    forall j | 0 <= j < |s'.live| ensures Owns(s', s'.live[j]) {
      assert Owns(s, s.live[j]);
      assert s.live[j].socket != c.socket;
    }
    forall j | 0 <= j < |s'.channels| ensures ChannelOk(s', s'.channels[j]) && Accounted(s', j) {
      assert ChannelOk(s, s.channels[j]) && Accounted(s, j) && ChannelOk(s', s'.channels[j]);
      assert j != i ==> s.channels[j].socket != c.socket;
      assert Carries(s, j) ==> Carries(s', j);
    }
  }

  /** A connection on the channel's own socket, open and unwatched. */
  lemma ClientOwned(s: Service, i: nat, c: Channel)
    requires Sound(s) && Owned(s) && i < |s.channels| && SameMake(s.channels[i], c) && c.client
    requires !Carries(s, i) && c.state == OPENED && !c.openMask
    ensures c.socket < |s.sockets|
    ensures var s' := Admit(SetChannel(s, i, c, Socket(true, false)), i); Sound(s') && Owned(s')
  {
    SetChannelSound(s, i, c, Socket(true, false));
    var s1 := SetChannel(s, i, c, Socket(true, false));
    AdmitSound(s1, i);
    var s' := Admit(s1, i);
    assert Owns(s', s'.live[|s.live|]);
    forall j | 0 <= j < |s.live| ensures Owns(s', s'.live[j]) && s'.live[j].socket != c.socket {
      OthersOwn(s, s', i, c, j);
    }
    forall j | 0 <= j < |s'.channels| ensures ChannelOk(s', s'.channels[j]) && Accounted(s', j) {
      assert ChannelOk(s', s'.channels[j]);
      OthersAccounted(s, s', i, c, j);
    }
  }

  lemma OthersOwn(s: Service, s': Service, i: nat, c: Channel, j: nat)
    requires Sound(s) && Owned(s) && i < |s.channels| && SameMake(s.channels[i], c) && c.client && !Carries(s, i)
    requires c.socket < |s.sockets| && s'.channels == s.channels[i := c]
    requires s'.sockets == s.sockets[c.socket := Socket(true, false)] && j < |s.live| <= |s'.live|
    requires s'.live[j] == s.live[j]
    ensures Owns(s', s'.live[j]) && s'.live[j].socket != c.socket
  {
    assert Owns(s, s.live[j]);
    assert s.live[j].channel != i;
  }

  lemma OthersAccounted(s: Service, s': Service, i: nat, c: Channel, j: nat)
    requires Sound(s) && Owned(s) && i < |s.channels| && SameMake(s.channels[i], c) && !c.openMask
    requires c.state == OPENED && c.socket < |s.sockets| && s'.channels == s.channels[i := c]
    requires s'.sockets == s.sockets[c.socket := Socket(true, false)] && j < |s.channels|
    requires |s'.live| == |s.live| + 1 && s'.live[..|s.live|] == s.live && s'.live[|s.live|].channel == i
    ensures s'.channels[j].socket < |s'.sockets| && Accounted(s', j)
  {
    assert ChannelOk(s, s.channels[j]) && Accounted(s, j);
    if j == i { assert s'.live[|s.live|].channel == i; }
    else {
      assert s.channels[j].socket != c.socket;
      if Carries(s, j) { CarriesMore(s, s', j); }
    }
  }

  /** An accepted connection on a socket of its own. */
  lemma AcceptOwned(s: Service, i: nat)
    requires Sound(s) && Owned(s) && i < |s.channels| && !s.channels[i].client
    ensures Sound(Admit(s, i)) && Owned(Admit(s, i))
  {
    AdmitSound(s, i);
    var s1 := s.(sockets := s.sockets + [Socket(true, false)]);
    SoundAgain(s, s1);
    NewSocketOwned(s, s1);
    NewcomerOwned(s1, Admit(s, i));
  }

  /** Nobody owns a new socket. */
  lemma NewSocketOwned(s: Service, s1: Service)
    requires Sound(s) && Owned(s) && Sound(s1) && s1 == s.(sockets := s.sockets + [Socket(true, false)])
    ensures Owned(s1)
    ensures forall j :: 0 <= j < |s1.live| ==> s1.live[j].socket < |s.sockets|
    ensures forall j :: 0 <= j < |s1.channels| ==> s1.channels[j].socket < |s.sockets|
  {
    forall j | 0 <= j < |s.live| ensures Owns(s1, s1.live[j]) && s1.live[j].socket < |s.sockets| {
      assert Owns(s, s.live[j]);
    }
    forall j | 0 <= j < |s.channels|
      ensures ChannelOk(s1, s1.channels[j]) && Accounted(s1, j) && s1.channels[j].socket < |s.sockets|
    {
      assert ChannelOk(s, s.channels[j]) && Accounted(s, j);
      assert Carries(s, j) ==> Carries(s1, j);
    }
  }

  /** A newcomer that owns its socket, which nobody had, joins the others. */
  lemma NewcomerOwned(s: Service, s': Service)
    requires Sound(s) && Owned(s) && Sound(s') && s'.sockets == s.sockets && s'.channels == s.channels
    requires |s'.live| == |s.live| + 1 && s'.live[..|s.live|] == s.live && Owns(s', s'.live[|s.live|])
    requires forall j :: 0 <= j < |s.live| ==> s.live[j].socket != s'.live[|s.live|].socket
    ensures Owned(s')
  {
    forall j | 0 <= j < |s.live| ensures s'.live[j] == s.live[j] && Owns(s', s'.live[j]) {
      assert s'.live[..|s.live|][j] == s.live[j];
      StillOwns(s, s', j);
    }
    forall j | 0 <= j < |s'.channels| ensures ChannelOk(s', s'.channels[j]) && Accounted(s', j) {
      StillAccounted(s, s', j);
    }
  }

  lemma StillOwns(s: Service, s': Service, j: nat)
    requires Sound(s) && Owned(s) && s'.sockets == s.sockets && s'.channels == s.channels && j < |s.live|
    ensures Owns(s', s.live[j])
  {
    assert Owns(s, s.live[j]);
  }

  lemma StillAccounted(s: Service, s': Service, j: nat)
    requires Sound(s) && Owned(s) && s'.sockets == s.sockets && s'.channels == s.channels && j < |s.channels|
    requires |s'.live| >= |s.live| && s'.live[..|s.live|] == s.live
    ensures ChannelOk(s', s'.channels[j]) && Accounted(s', j)
  {
    assert ChannelOk(s, s.channels[j]) && Accounted(s, j);
    if Carries(s, j) { CarriesMore(s, s', j); }
  }

  lemma CarriesMore(s: Service, s': Service, i: nat)
    requires Carries(s, i) && |s'.live| >= |s.live| && s'.live[..|s.live|] == s.live
    ensures Carries(s', i)
  {
    var n :| 0 <= n < |s.live| && s.live[n].channel == i;
    assert s'.live[..|s.live|][n] == s.live[n];
    assert s'.live[n].channel == i;
  }

  lemma OperateKeepsOwned(s: Service, at: nat, a: ChannelAnswer)
    requires Sound(s) && Owned(s) && at < |s.ops| && !Reopens(s, at)
    ensures Sound(Operate(s, at, a).0) && Owned(Operate(s, at, a).0)
  {
    OperateSound(s, at, a);
    FreeToConnect(s, at);
    var i := s.ops[at];
    var c := s.channels[i];
    var k := s.sockets[c.socket];
    assert ChannelOk(s, c) && Accounted(s, i);
    var o := ServeChannel(c, k, a);
    ChannelKept(c, k, a);
    var s1 := SetChannel(s, i, o.c, o.k);
    if c.client && !c.openMask && c.state == OPENED {
      assert s1.channels == s.channels && s1.sockets == s.sockets;
      SameOwned(s, Operate(s, at, a).0.(ops := s.ops));
    } else if c.client && o.connected {
      ClientOwned(s, i, o.c);
    } else {
      SetChannelOwned(s, i, o.c, o.k);
      if o.connected { AcceptOwned(s1, i); }
    }
    var s2 := if o.connected then Admit(s1, i) else s1;
    OpsOwned(s2, Operate(s, at, a).0);
  }

  lemma OpsOwned(s: Service, s': Service)
    requires Sound(s) && Owned(s) && s' == s.(ops := s'.ops) && Sound(s')
    ensures Owned(s')
  {
    forall i | 0 <= i < |s'.live| ensures Owns(s', s'.live[i]) { assert Owns(s, s.live[i]); }
    forall i | 0 <= i < |s'.channels| ensures ChannelOk(s', s'.channels[i]) && Accounted(s', i) {
      assert ChannelOk(s, s.channels[i]) && Accounted(s, i);
      assert Carries(s, i) ==> Carries(s', i);
    }
  }

  /** What is left of a transport whose client channel serves an open request on its open socket. */
  lemma ReopenTakes(c: Channel, k: Socket, a: ChannelAnswer)
    requires c.client && c.openMask
    ensures var o := ServeChannel(c, k, a);
      && (a.outcome.Connected? <==> o.connected)
      && (!o.connected ==> o.c.state != OPENED)
  {
  }

  /** Re-opening a socket under a live transport always ends the ownership, whatever comes of it. */
  lemma ReopenDisowns(s: Service, at: nat, a: ChannelAnswer)
    requires Sound(s) && Owned(s) && at < |s.ops| && Reopens(s, at)
    ensures Sound(Operate(s, at, a).0) && !Owned(Operate(s, at, a).0)
  {
    OperateSound(s, at, a);
    var i := s.ops[at];
    var c := s.channels[i];
    assert ChannelOk(s, c) && Accounted(s, i);
    var j :| 0 <= j < |s.live| && s.live[j].channel == i;
    assert Owns(s, s.live[j]);
    ReopenTakes(c, s.sockets[c.socket], a);
    ChannelKept(c, s.sockets[c.socket], a);
    ReopenEffect(s, at, a, j);
  }

  lemma ReopenEffect(s: Service, at: nat, a: ChannelAnswer, j: nat)
    requires Sound(s) && at < |s.ops| && Reopens(s, at) && Sound(Operate(s, at, a).0) && j < |s.live|
    requires s.live[j].channel == s.ops[at] && s.live[j].socket == s.channels[s.ops[at]].socket
    ensures !Owned(Operate(s, at, a).0)
  {
    var s' := Operate(s, at, a).0;
    assert s'.live[j] == s.live[j];
    if a.outcome.Connected? {
      assert s'.live[|s.live|].socket == s'.live[j].socket;
    } else {
      assert !Owns(s', s'.live[j]);
    }
  }

  /** A channel's turn keeps the ownership of sockets exactly if it does not serve an open request for
      a client channel whose socket is still open. */
  lemma OperateOwned(s: Service, at: nat, a: ChannelAnswer)
    requires Sound(s) && Owned(s) && at < |s.ops|
    ensures Sound(Operate(s, at, a).0) && (Owned(Operate(s, at, a).0) <==> !Reopens(s, at))
  {
    if Reopens(s, at) { ReopenDisowns(s, at, a); } else { OperateKeepsOwned(s, at, a); }
  }

  // ------------------------------------------------------------ runs

  ghost predicate PassReopens(s: Service, at: nat, replies: seq<ChannelAnswer>)
    requires Sound(s) && at + |replies| == |s.ops|
    decreases |replies|
  {
    replies != [] &&
    (Reopens(s, at) ||
     (OperateSound(s, at, replies[0]);
      var (s1, kept) := Operate(s, at, replies[0]);
      PassReopens(s1, if kept then at + 1 else at, replies[1..])))
  }

  /** In every state of a pass over the channels sockets are owned. */
  ghost predicate PassOwned(s: Service, at: nat, replies: seq<ChannelAnswer>)
    requires Sound(s) && at + |replies| == |s.ops|
    decreases |replies|
  {
    Owned(s) &&
    (replies == [] ||
     (OperateSound(s, at, replies[0]);
      var (s1, kept) := Operate(s, at, replies[0]);
      PassOwned(s1, if kept then at + 1 else at, replies[1..])))
  }

  lemma {:induction false} OperateFromOwned(s: Service, at: nat, replies: seq<ChannelAnswer>)
    requires Sound(s) && Owned(s) && at + |replies| == |s.ops|
    ensures PassOwned(s, at, replies) <==> !PassReopens(s, at, replies)
    ensures PassOwned(s, at, replies) ==> Owned(OperateFrom(s, at, replies))
    decreases |replies|
  {
    if replies != [] {
      OperateOwned(s, at, replies[0]);
      OperateSound(s, at, replies[0]);
      var (s1, kept) := Operate(s, at, replies[0]);
      if Owned(s1) { OperateFromOwned(s1, if kept then at + 1 else at, replies[1..]); }
    }
  }

  lemma HandledOwned(s: Service, e: Step)
    requires Sound(s) && Owned(s) && IsRequest(e)
    requires e.OpenRequest? || e.CloseRequest? || e.ConnectTimerFires? ==> e.channel < |s.channels|
    requires e.CloseTransportRequest? || e.WriteRequest? ==> e.at < |s.live|
    ensures Sound(Handled(s, e)) && Owned(Handled(s, e))
  {
    RequestSound(s, e);
    if e.ConnectTimerFires? {
      assert ChannelOk(s, s.channels[e.channel]);
      TimeoutOwned(s, e.channel);
    } else {
      HandledMasks(s, e);
      MasksOwned(s, Handled(s, e));
    }
  }

  lemma HandledMasks(s: Service, e: Step)
    requires Sound(s) && IsRequest(e) && !e.ConnectTimerFires?
    requires e.OpenRequest? || e.CloseRequest? ==> e.channel < |s.channels|
    requires e.CloseTransportRequest? || e.WriteRequest? ==> e.at < |s.live|
    ensures var s' := Handled(s, e);
      && s'.sockets == s.sockets && |s'.live| == |s.live| && |s'.channels| == |s.channels|
      && (forall i :: 0 <= i < |s.live| ==> SamePlace(s.live[i], s'.live[i]))
      && (forall i :: 0 <= i < |s.channels| ==> MayRequest(s.channels[i], s'.channels[i]))
  {
  }

  predicate SamePlace(t: Live, u: Live) {
    u.channel == t.channel && u.socket == t.socket && u.tx.registered == t.tx.registered
  }

  lemma TimeoutOwned(s: Service, i: nat)
    requires Sound(s) && Owned(s) && i < |s.channels| && ChannelOk(s, s.channels[i])
    ensures Sound(ConnectTimeout(s, i)) && Owned(ConnectTimeout(s, i))
  {
    if s.channels[i].state != OPENED {
      if s.channels[i].client {
        forall j | 0 <= j < |s.live| ensures s.live[j].channel != i { assert Owns(s, s.live[j]); }
      }
      SetChannelOwned(s, i, Cleaned(s.channels[i]), CLOSED_SOCKET);
    }
  }

  predicate MayRequest(c: Channel, d: Channel) {
    d.state == c.state && (d.openMask ==> c.openMask || c.state == OPENED || c.state == CLOSED)
  }

  /** Requests touch masks and send queues only. */
  lemma MasksOwned(s: Service, s': Service)
    requires Sound(s) && Owned(s) && Sound(s') && Extends(s, s') && s'.sockets == s.sockets && |s'.live| == |s.live|
    requires forall i :: 0 <= i < |s.live| ==> SamePlace(s.live[i], s'.live[i])
    requires forall i :: 0 <= i < |s.channels| ==> MayRequest(s.channels[i], s'.channels[i])
    ensures Owned(s')
  {
    forall i | 0 <= i < |s'.live| ensures Owns(s', s'.live[i]) {
      assert Owns(s, s.live[i]);
      forall j | 0 <= j < |s.channels| ensures s'.channels[j].socket == s.channels[j].socket {
        assert SameMake(s.channels[j], s'.channels[j]);
      }
      assert SameMake(s.channels[s.live[i].channel], s'.channels[s.live[i].channel]);
    }
    forall i | 0 <= i < |s'.channels| ensures ChannelOk(s', s'.channels[i]) && Accounted(s', i) {
      assert ChannelOk(s, s.channels[i]) && Accounted(s, i) && SameMake(s.channels[i], s'.channels[i]);
      assert ChannelOk(s', s'.channels[i]);
      if Carries(s, i) {
        var j :| 0 <= j < |s.live| && s.live[j].channel == i;
        assert s'.live[j].channel == i;
      }
    }
    forall i, j | 0 <= i < j < |s'.channels| ensures s'.channels[i].socket != s'.channels[j].socket {
      assert SameMake(s.channels[i], s'.channels[i]) && SameMake(s.channels[j], s'.channels[j]);
    }
  }

  /** The run serves no open request for a client channel whose socket is open. */
  ghost predicate NoReopen(l: Loop, es: seq<Step>)
    requires Sound(l.s) && CanRun(l, es)
    decreases |es|
  {
    es == [] ||
    (!(es[0].ServeChannels? && PassReopens(l.s, 0, es[0].replies))
     && (StepSound(l, es[0]); NoReopen(After(l, es[0]), es[1..])))
  }

  /** In every state of the run, and inside each pass over the channels, sockets are owned. */
  ghost predicate OwnedThroughout(l: Loop, es: seq<Step>)
    requires Sound(l.s) && CanRun(l, es)
    decreases |es|
  {
    Owned(l.s) &&
    (es == [] ||
     ((!es[0].ServeChannels? || PassOwned(l.s, 0, es[0].replies))
      && (StepSound(l, es[0]); OwnedThroughout(After(l, es[0]), es[1..]))))
  }

  lemma StepOwned(l: Loop, e: Step)
    requires Sound(l.s) && Owned(l.s) && CanStep(l, e)
    requires e.ServeChannels? ==> PassOwned(l.s, 0, e.replies)
    ensures Sound(After(l, e).s) && Owned(After(l, e).s)
  {
    StepSound(l, e);
    if e.ServeTransports? {
      ServeFromOwned(l.s, 0, e.answers);
    } else if e.ServeChannels? {
      OperateFromOwned(l.s, 0, e.replies);
    } else if IsRequest(e) {
      HandledOwned(l.s, e);
    } else {
      SameOwned(l.s, After(l, e).s);
    }
  }

  /** Sockets are owned all along a run exactly if it never serves an open request for a client channel
      whose socket is still open. */
  lemma {:induction false} OwnedExactly(l: Loop, es: seq<Step>)
    requires Sound(l.s) && Owned(l.s) && CanRun(l, es)
    ensures OwnedThroughout(l, es) <==> NoReopen(l, es)
    ensures NoReopen(l, es) ==> Owned(Run(l, es).s)
    decreases |es|
  {
    if es != [] {
      var e := es[0];
      StepSound(l, e);
      if e.ServeChannels? { OperateFromOwned(l.s, 0, e.replies); }
      if e.ServeChannels? ==> PassOwned(l.s, 0, e.replies) {
        StepOwned(l, e);
        OwnedExactly(After(l, e), es[1..]);
      }
    }
  }

  lemma InitialOwned(s: Service)
    requires Initial(s)
    ensures Sound(s) && Owned(s)
  {
    InitialSound(s);
    forall i | 0 <= i < |s.channels| ensures ChannelOk(s, s.channels[i]) && Accounted(s, i) {
      assert FreshChannel(s, s.channels[i]);
    }
  }

  /** No work is slept on: on every run that serves no open request for a client channel whose socket is
      open, while the loop waits in its poll and no wake-up is pending, every live transport has an open
      socket and no complete frame in its buffer, the watcher's write interest is what its flag says and
      is there if it has anything to send or a client is connecting, and the poll ends before any timer is
      due (in nanoseconds). */
  lemma NothingSleptOn(l: Loop, es: seq<Step>)
    requires Starts(l) && Sound(l.s) && CanRun(l, es) && NoReopen(l, es)
    requires Run(l, es).phase.Waiting? && !Run(l, es).s.woken
    ensures var z := Run(l, es);
      && (forall i :: 0 <= i < |z.s.live| ==> Served(z.s, z.s.live[i]))
      && (forall i :: 0 <= i < |z.s.channels| ==> ConnectWatched(z.s, z.s.channels[i]))
      && (forall e :: e in z.clock.es ==> z.clock.current + 1000 * z.phase.timeout <= e.expire)
  {
    InitialOwned(l.s);
    OwnedExactly(l, es);
    RunRests(l, es);
    var z := Run(l, es);
    forall i | 0 <= i < |z.s.channels| ensures ConnectWatched(z.s, z.s.channels[i]) {
      assert ChannelOk(z.s, z.s.channels[i]) && Accounted(z.s, i);
    }
    forall i | 0 <= i < |z.s.live| ensures Served(z.s, z.s.live[i]) {
      assert LiveOk(z.s, z.s.live[i]) && Rested(z.s, z.s.live[i], z.phase.timeout) && Owns(z.s, z.s.live[i]);
    }
  }

  /** The watcher tells when a connecting client's socket is connected. */
  predicate ConnectWatched(s: Service, c: Channel) {
    c.socket < |s.sockets| &&
    (c.client && c.state == CONNECTING && s.sockets[c.socket].open ==> s.sockets[c.socket].watched)
  }

  /** Nothing is left to do for a transport before something happens to its socket. */
  predicate Served(s: Service, t: Live) {
    && LiveOk(s, t) && s.sockets[t.socket].open
    && Framing.Drained(s.channels[t.channel].params, t.rx)
    && t.tx.registered == s.sockets[t.socket].watched
    && (t.tx.queue != [] ==> s.sockets[t.socket].watched)
  }
}
