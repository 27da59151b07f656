/** The WebSocket frame printer, its round trip through the parser, and what an application that
    unmasks the body pieces gets. */
module WebSocketFrames {
  import opened Bytes
  import opened Options
  import opened Sequences
  import opened WebSocket

  const SIZE_T: nat := 0x1_0000_0000_0000_0000

  /** How many extra length bytes a payload length takes. */
  function LengthWidth(n: nat): nat { if n < 126 then 0 else if n <= 0xFFFF then 2 else 8 }

  function LengthCode(n: nat): nat { if n < 126 then n else if n <= 0xFFFF then 126 else 127 }

  function Bit7(b: bool): nat { if b then 128 else 0 }

  /** Section 5.2 of RFC 6455: the two leading bytes, the extended length, the key and the payload. */
  function FrameHead(flags: nat, n: nat): Text
    requires n < SIZE_T
  {
    [Bit7(IsFin(flags)) + Opcode(flags), Bit7(IsMasked(flags)) + LengthCode(n)] + ToBig(n, LengthWidth(n))
  }

  function Payload(flags: nat, key: Text, data: Text): (r: Text)
    requires |key| == 4
    ensures |r| == |data|
  {
    if IsMasked(flags) then Masked(data, key, 0) else data
  }

  function Key(flags: nat, key: Text): Text { if IsMasked(flags) then key else [] }

  function FrameBytes(flags: nat, key: Text, data: Text): Text
    requires |key| == 4 && |data| < SIZE_T
  {
    FrameHead(flags, |data|) + Key(flags, key) + Payload(flags, key, data)
  }

  /** `websocket_calc_frame_size`. */
  function CalcFrameSize(flags: nat, dataLen: nat): nat {
    var size := dataLen + 2;
    var wide := if dataLen >= 126 then (if dataLen > 0xFFFF then size + 8 else size + 2) else size;
    if IsMasked(flags) then wide + 4 else wide
  }

  // ------------------------------------------------------------ the printer

  /** The two leading bytes. */
  method BuildLead(frame: array<Byte>, flags: nat, dataLen: nat)
    requires frame.Length >= 2
    modifies frame
    ensures frame[..2] == [Bit7(IsFin(flags)) + Opcode(flags), Bit7(IsMasked(flags)) + LengthCode(dataLen)]
    ensures frame[2..] == old(frame[2..])
  {
    frame[0] := 0;
    frame[1] := 0;
    if IsFin(flags) { frame[0] := 128; }
    frame[0] := frame[0] + Opcode(flags);
    if IsMasked(flags) { frame[1] := 128; }
    frame[1] := frame[1] + LengthCode(dataLen);
  }

  /** The extended length. */
  method BuildLength(frame: array<Byte>, dataLen: nat) returns (bodyOffset: nat)
    requires dataLen < SIZE_T && frame.Length >= 2 + LengthWidth(dataLen)
    modifies frame
    ensures bodyOffset == 2 + LengthWidth(dataLen)
    ensures frame[2..bodyOffset] == ToBig(dataLen, LengthWidth(dataLen))
    ensures frame[..2] == old(frame[..2]) && frame[bodyOffset..] == old(frame[2 + LengthWidth(dataLen)..])
  {
    if dataLen < 126 {
      bodyOffset := 2;
    } else if dataLen <= 0xFFFF {
      frame[2] := dataLen / 0x100;
      frame[3] := dataLen % 0x100;
      bodyOffset := 4;
      TwoBytes(dataLen);
      assert frame[2..4] == [frame[2], frame[3]];
    } else {
      frame[2] := dataLen / 0x100_0000_0000_0000 % 0x100;
      frame[3] := dataLen / 0x1_0000_0000_0000 % 0x100;
      frame[4] := dataLen / 0x100_0000_0000 % 0x100;
      frame[5] := dataLen / 0x1_0000_0000 % 0x100;
      frame[6] := dataLen / 0x100_0000 % 0x100;
      frame[7] := dataLen / 0x1_0000 % 0x100;
      frame[8] := dataLen / 0x100 % 0x100;
      frame[9] := dataLen % 0x100;
      bodyOffset := 10;
      EightBytes(dataLen);
      assert frame[2..10] == [frame[2], frame[3], frame[4], frame[5], frame[6], frame[7], frame[8], frame[9]];
    }
  }

  lemma TwoBytes(n: nat)
    requires n < 0x1_0000
    ensures ToBig(n, 2) == [n / 0x100, n % 0x100]
  {
    var width := 2;
    BigDigit(n, width);
    BigDigit(n / 256, width - 1);
  }

  lemma BigDigit(n: nat, k: nat)
    requires k > 0
    ensures ToBig(n, k) == ToBig(n / 256, k - 1) + [n % 256]
  {
  }

  lemma EightBytes(n: nat)
    requires n < SIZE_T
    ensures ToBig(n, 8) == [n / 0x100_0000_0000_0000 % 0x100, n / 0x1_0000_0000_0000 % 0x100,
                            n / 0x100_0000_0000 % 0x100, n / 0x1_0000_0000 % 0x100,
                            n / 0x100_0000 % 0x100, n / 0x1_0000 % 0x100, n / 0x100 % 0x100, n % 0x100]
  {
    var k := 8;
    var n1, n2, n3 := n / 0x100, n / 0x1_0000, n / 0x100_0000;
    var n4, n5, n6, n7 := n / 0x1_0000_0000, n / 0x100_0000_0000, n / 0x1_0000_0000_0000, n / 0x100_0000_0000_0000;
    assert n2 == n1 / 256 && n3 == n2 / 256 && n4 == n3 / 256 && n5 == n4 / 256 && n6 == n5 / 256 && n7 == n6 / 256;
    BigDigit(n, k); BigDigit(n1, k - 1); BigDigit(n2, k - 2); BigDigit(n3, k - 3);
    BigDigit(n4, k - 4); BigDigit(n5, k - 5); BigDigit(n6, k - 6); BigDigit(n7, k - 7);
  }

  /** `websocket_build_frame`: exactly the frame's bytes, as many as `websocket_calc_frame_size` says,
      and nothing behind them. Without a mask argument the key is what the frame holds at its place. */
  method BuildFrame(frame: array<Byte>, flags: nat, mask: Option<Text>, data: Text) returns (size: nat)
    requires |data| < SIZE_T && frame.Length >= CalcFrameSize(flags, |data|)
    requires mask.Some? ==> |mask.value| == 4
    modifies frame
    ensures size == CalcFrameSize(flags, |data|)
    ensures var at := 2 + LengthWidth(|data|);
      var key := if mask.Some? then mask.value else if IsMasked(flags) then old(frame[at..at + 4]) else [0, 0, 0, 0];
      frame[..size] == FrameBytes(flags, key, data)
    ensures frame[size..] == old(frame[CalcFrameSize(flags, |data|)..])
  {
    ghost var was := frame[..];
    BuildLead(frame, flags, |data|);
    ghost var led := frame[..];
    var bodyOffset := BuildLength(frame, |data|);
    ghost var built := frame[..];
    HeadParts(was, led, built, bodyOffset);
    if IsMasked(flags) {
      if mask.Some? {
        CopyInto(frame, bodyOffset, mask.value);
      }
      ghost var keyed := frame[..];
      var key := frame[bodyOffset..bodyOffset + 4];
      var next := Decode(frame, bodyOffset + 4, data, key, 0);
      MaskedParts(was, built, keyed, frame[..], bodyOffset, key, Masked(data, key, 0), mask);
      bodyOffset := bodyOffset + 4;
    } else {
      CopyInto(frame, bodyOffset, data);
      PlainParts(was, built, frame[..], bodyOffset, data);
    }
    size := bodyOffset + |data|;
  }

  lemma HeadParts(was: Text, led: Text, built: Text, at: nat)
    requires 2 <= at <= |was| == |led| == |built|
    requires led[2..] == was[2..] && built[..2] == led[..2] && built[at..] == led[at..]
    ensures built[..at] == led[..2] + built[2..at] && built[at..] == was[at..]
  {
    assert led[at..] == led[2..][at - 2..] == was[at..];
  }

  /** `memcpy` into the frame. */
  method CopyInto(frame: array<Byte>, at: nat, src: Text)
    requires at + |src| <= frame.Length
    modifies frame
    ensures frame[..] == old(frame[..at]) + src + old(frame[at + |src|..])
  {
    for i := 0 to |src|
      invariant forall j :: 0 <= j < i ==> frame[at + j] == src[j]
      invariant forall j :: 0 <= j < frame.Length && !(at <= j < at + i) ==> frame[j] == old(frame[j])
    {
      frame[at + i] := src[i];
    }
  }

  lemma MaskedParts(was: Text, built: Text, keyed: Text, done: Text, at: nat, key: Text, body: Text, mask: Option<Text>)
    requires at + 4 + |body| <= |was| == |built| == |keyed| && built[at..] == was[at..]
    requires mask.Some? ==> |mask.value| == 4
    requires keyed == if mask.Some? then built[..at] + mask.value + built[at + 4..] else built
    requires key == keyed[at..at + 4] && done == keyed[..at + 4] + body + keyed[at + 4 + |body|..]
    ensures key == if mask.Some? then mask.value else was[at..at + 4]
    ensures done[..at + 4 + |body|] == built[..at] + key + body
    ensures done[at + 4 + |body|..] == was[at + 4 + |body|..]
  {
    assert built[at..][..4] == was[at..][..4];
    assert keyed[..at + 4] == built[..at] + key;
    assert keyed[at + 4 + |body|..] == built[at..][4 + |body|..] == was[at..][4 + |body|..];
  }

  lemma PlainParts(was: Text, built: Text, done: Text, at: nat, body: Text)
    requires at + |body| <= |was| == |built| && built[at..] == was[at..]
    requires done == built[..at] + body + built[at + |body|..]
    ensures done[..at + |body|] == built[..at] + [] + body
    ensures done[at + |body|..] == was[at + |body|..]
  {
    assert built[at + |body|..] == built[at..][|body|..] == was[at..][|body|..];
  }

  /** The layout of section 5.2 of RFC 6455, byte for byte: FIN and opcode, mask bit and 7-bit length
      or the code of an extended one, the extended length most significant byte first, the key, and
      the payload, with a key combined bit by bit with the key byte at its place. */
  lemma FrameLayout(flags: nat, key: Text, data: Text)
    requires |key| == 4 && |data| < SIZE_T
    ensures var f, n := FrameBytes(flags, key, data), |data|;
      var at := |f| - n;
      && |f| == CalcFrameSize(flags, n)
      && f[0] / 128 == flags / 16 % 2 && f[0] % 128 == flags % 16
      && f[1] / 128 == flags / 32 % 2
      && f[1] % 128 == (if n < 126 then n else if n < 65536 then 126 else 127)
      && (126 <= n < 65536 ==> IsBig(f[2..4], n))
      && (n >= 65536 ==> IsBig(f[2..10], n))
      && (flags / 32 % 2 == 1 ==> f[at - 4..at] == key)
      && (flags / 32 % 2 == 1 ==> forall i :: 0 <= i < n ==> IsXor(f[at + i], data[i], key[i % 4]))
      && (flags / 32 % 2 == 0 ==> f[at..] == data)
  {
    var f, n := FrameBytes(flags, key, data), |data|;
    var body := Payload(flags, key, data);
    assert f == FrameHead(flags, n) + (Key(flags, key) + body);
    LengthLayout(flags, n, f);
    if IsMasked(flags) {
      MaskedBits(data, key, 0);
      forall i | 0 <= i < n ensures IsXor(f[|f| - n + i], data[i], key[i % 4]) {
        assert f[|f| - n + i] == body[i];
      }
    }
  }

  lemma LengthLayout(flags: nat, n: nat, f: Text)
    requires n < SIZE_T && FrameHead(flags, n) <= f
    ensures |f| >= 2 + LengthWidth(n) && IsBig(f[2..2 + LengthWidth(n)], n)
    ensures f[0] / 128 == flags / 16 % 2 && f[0] % 128 == flags % 16
    ensures f[1] / 128 == flags / 32 % 2
    ensures f[1] % 128 == (if n < 126 then n else if n < 65536 then 126 else 127)
  {
    var w := LengthWidth(n);
    var head := FrameHead(flags, n);
    BigDigits(n, w);
    assert f[..2 + w] == head;
    assert f[2..2 + w] == f[..2 + w][2..] == ToBig(n, w);
    assert f[0] == f[..2 + w][0] && f[1] == f[..2 + w][1];
  }

  // ------------------------------------------------------------ the round trip

  datatype Frame = Frame(flags: nat, key: Text, data: Text)

  predicate Fits(f: Frame) { |f.key| == 4 && |f.data| < SIZE_T }

  function HeaderOfFrame(f: Frame): Header {
    Header(Opcode(f.flags), IsFin(f.flags), |f.data|, Key(f.flags, f.key))
  }

  /** The items a frame is parsed to. */
  function FrameItems(f: Frame): seq<Item>
    requires Fits(f)
  {
    [Head(HeaderOfFrame(f))] + DataItems(Payload(f.flags, f.key, f.data), 0) + [End]
  }

  lemma HeadByte(flag: bool, low: nat)
    requires low < 128
    ensures (Bit7(flag) + low >= 128) == flag && (Bit7(flag) + low) % 128 == low
    ensures low < 16 ==> (Bit7(flag) + low) % 16 == low
  {
  }

  lemma {:induction false} AccumulatedIsBig(s: Text)
    ensures Accumulated(0, s) == FromBig(s)
  {
    if s != [] { AccumulatedIsBig(s[..|s| - 1]); }
  }

  lemma ThenByte(s: Stage, b: Byte, rest: Text)
    ensures Run(s, [b] + rest).0 == Run(StepByte(s, b).0, rest).0
    ensures Run(s, [b] + rest).1 == StepByte(s, b).1 + Run(StepByte(s, b).0, rest).1
  {
    OneByte(s, b);
    RunAppend(s, [b], rest);
  }

  lemma LengthFits(n: nat)
    requires 126 <= n < SIZE_T
    ensures n < Pow256(LengthWidth(n))
  {
    var w := LengthWidth(n);
    assert Pow256(2) == 0x1_0000;
    assert Pow256(4) == 0x1_0000_0000;
    assert Pow256(8) == SIZE_T;
  }

  lemma ExtensionParsed(op: nat, fin: bool, masked: bool, n: nat)
    requires 126 <= n < SIZE_T
    ensures Run(InLength(op, fin, masked, LengthWidth(n), 0), ToBig(n, LengthWidth(n))) ==
            LengthDone(op, fin, masked, n)
  {
    var ext := ToBig(n, LengthWidth(n));
    LengthFits(n);
    BigRoundTrip(n, LengthWidth(n));
    AccumulatedIsBig(ext);
    LengthRun(op, fin, masked, LengthWidth(n), 0, ext);
  }

  /** The head is read back as opcode, FIN, mask flag and length. */
  lemma HeadParsed(flags: nat, n: nat)
    requires n < SIZE_T
    ensures Run(Start, FrameHead(flags, n)) == LengthDone(Opcode(flags), IsFin(flags), IsMasked(flags), n)
  {
    var op, fin, masked, code := Opcode(flags), IsFin(flags), IsMasked(flags), LengthCode(n);
    HeadByte(fin, op);
    HeadByte(masked, code);
    var b0: Byte, b1: Byte, ext := Bit7(fin) + op, Bit7(masked) + code, ToBig(n, LengthWidth(n));
    assert FrameHead(flags, n) == [b0] + ([b1] + ext);
    ThenByte(Start, b0, [b1] + ext);
    ThenByte(InHead(op, fin), b1, ext);
    if n < 126 {
      assert ext == [];
      NothingBefore(LengthDone(op, fin, masked, n).1);
    } else {
      ExtensionParsed(op, fin, masked, n);
      NothingBefore(LengthDone(op, fin, masked, n).1);
    }
  }

  lemma KeyParsed(f: Frame)
    requires Fits(f)
    ensures Run(Start, FrameHead(f.flags, |f.data|) + Key(f.flags, f.key)) == HeaderDone(HeaderOfFrame(f))
  {
    var op, fin, n := Opcode(f.flags), IsFin(f.flags), |f.data|;
    var head, key := FrameHead(f.flags, n), Key(f.flags, f.key);
    HeadParsed(f.flags, n);
    if IsMasked(f.flags) {
      RunAppend(Start, head, key);
      assert [] + key == key;
      MaskRun(op, fin, n, [], key);
      NothingBefore(HeaderDone(HeaderOfFrame(f)).1);
    } else {
      assert head + key == head;
    }
  }

  lemma BodyParsed(h: Header, body: Text)
    requires |body| == h.length
    ensures Run(HeaderDone(h).0, body).0 == Start
    ensures HeaderDone(h).1 + Run(HeaderDone(h).0, body).1 == [Head(h)] + DataItems(body, 0) + [End]
  {
    if h.length > 0 {
      RunBody(h, h.length, 0, body);
      Associative([Head(h)], DataItems(body, 0), [End]);
    } else {
      assert body == [] && DataItems(body, 0) == [];
    }
  }

  /** Round trip: a built frame is parsed to its header, its payload bytes in place, and its end. */
  lemma FrameParsed(f: Frame)
    requires Fits(f)
    ensures Run(Start, FrameBytes(f.flags, f.key, f.data)) == (Start, FrameItems(f))
  {
    KeyParsed(f);
    RunAppend(Start, FrameHead(f.flags, |f.data|) + Key(f.flags, f.key), Payload(f.flags, f.key, f.data));
    BodyParsed(HeaderOfFrame(f), Payload(f.flags, f.key, f.data));
  }

  ghost predicate AllFit(fs: seq<Frame>) { forall i :: 0 <= i < |fs| ==> Fits(fs[i]) }

  function Wire(fs: seq<Frame>): Text
    requires AllFit(fs)
  {
    if fs == [] then []
    else Wire(fs[..|fs| - 1]) + FrameBytes(fs[|fs| - 1].flags, fs[|fs| - 1].key, fs[|fs| - 1].data)
  }

  function AllItems(fs: seq<Frame>): seq<Item>
    requires AllFit(fs)
  {
    if fs == [] then [] else AllItems(fs[..|fs| - 1]) + FrameItems(fs[|fs| - 1])
  }

  /** Any sequence of built frames is parsed frame by frame. */
  lemma {:induction false} FramesParsed(fs: seq<Frame>)
    requires AllFit(fs)
    ensures Run(Start, Wire(fs)) == (Start, AllItems(fs))
  {
    if fs != [] {
      var n := |fs| - 1;
      FramesParsed(fs[..n]);
      FrameParsed(fs[n]);
      RunAppend(Start, Wire(fs[..n]), FrameBytes(fs[n].flags, fs[n].key, fs[n].data));
    }
  }

  // ------------------------------------------------------------ an application that unmasks

  datatype Message = Message(opcode: nat, fin: bool, masked: bool, data: Text)

  /** The application unmasks every body piece with the running key offset and collects messages.
      `key` is empty for an unmasked frame. */
  datatype App = App(opcode: nat, fin: bool, key: Text, off: nat, got: Text, messages: seq<Message>)

  function Unmask(a: App, piece: Text): Text {
    if |a.key| == 4 then Masked(piece, a.key, a.off) else piece
  }

  /** On a callback. */
  function OnCall(a: App, c: Callback): App {
    match c
    case OnHeader(flags, length, mask) =>
      App(Opcode(flags), IsFin(flags), if IsMasked(flags) then mask else [], 0, [], a.messages)
    case OnBody(piece, _) => a.(got := a.got + Unmask(a, piece), off := (|piece| + a.off) % 4)
    case OnEnd => a.(messages := a.messages + [Message(a.opcode, a.fin, a.key != [], a.got)])
  }

  function OnCalls(a: App, t: seq<Callback>): App {
    if t == [] then a else OnCall(OnCalls(a, t[..|t| - 1]), t[|t| - 1])
  }

  /** The same, on payload bytes taken one at a time. */
  function OnItem(a: App, x: Item): App {
    match x
    case Head(h) => App(h.opcode, h.fin, h.key, 0, [], a.messages)
    case Data(b, _) => a.(got := a.got + Unmask(a, [b]), off := (1 + a.off) % 4)
    case End => a.(messages := a.messages + [Message(a.opcode, a.fin, a.key != [], a.got)])
  }

  function OnItems(a: App, xs: seq<Item>): App {
    if xs == [] then a else OnItem(OnItems(a, xs[..|xs| - 1]), xs[|xs| - 1])
  }

  lemma {:induction false} OnItemsAppend(a: App, xs: seq<Item>, ys: seq<Item>)
    ensures OnItems(a, xs + ys) == OnItems(OnItems(a, xs), ys)
    decreases |ys|
  {
    if ys == [] {
      assert xs + ys == xs;
    } else {
      var n := |ys| - 1;
      OnItemsAppend(a, xs, ys[..n]);
      assert (xs + ys)[..|xs + ys| - 1] == xs + ys[..n];
    }
  }

  lemma UnmaskSnoc(a: App, bs: Text, b: Byte)
    requires a.off < 4
    ensures Unmask(a, bs) + Unmask(a.(off := (|bs| + a.off) % 4), [b]) == Unmask(a, bs + [b])
  {
    if |a.key| == 4 { MaskPieces(bs, [b], a.key, a.off); }
    NextOffset(|bs|, a.off);
  }

  lemma OnItemsSnoc(a: App, xs: seq<Item>, x: Item)
    ensures OnItems(a, xs + [x]) == OnItem(OnItems(a, xs), x)
  {
    assert (xs + [x])[..|xs|] == xs;
  }

  lemma DataSnoc(bs: Text, b: Byte, at: nat)
    ensures DataItems(bs + [b], at) == DataItems(bs, at) + [Data(b, at + |bs|)]
  {
  }

  /** Taking payload bytes one at a time unmasks what the piece as a whole unmasks to. */
  lemma {:induction false} OnData(a: App, bs: Text, at: nat)
    requires a.off < 4
    ensures OnItems(a, DataItems(bs, at)) == a.(got := a.got + Unmask(a, bs), off := (|bs| + a.off) % 4)
    decreases |bs|
  {
    if bs == [] {
      assert DataItems(bs, at) == [] && a.got + Unmask(a, bs) == a.got;
    } else {
      var n := |bs| - 1;
      var init, b := bs[..n], bs[n];
      assert bs == init + [b];
      OnData(a, init, at);
      DataSnoc(init, b, at);
      OnItemsSnoc(a, DataItems(init, at), Data(b, at + n));
      OneByteOn(a, init, b, at + n);
    }
  }

  lemma OneByteOn(a: App, init: Text, b: Byte, at: nat)
    requires a.off < 4
    ensures OnItem(a.(got := a.got + Unmask(a, init), off := (|init| + a.off) % 4), Data(b, at)) ==
            a.(got := a.got + Unmask(a, init + [b]), off := (|init| + 1 + a.off) % 4)
  {
    UnmaskSnoc(a, init, b);
    NextOffset(|init|, a.off);
    var a1 := a.(got := a.got + Unmask(a, init), off := (|init| + a.off) % 4);
    assert Unmask(a1, [b]) == Unmask(a.(off := (|init| + a.off) % 4), [b]);
    assert a.got + Unmask(a, init) + Unmask(a1, [b]) == a.got + (Unmask(a, init) + Unmask(a1, [b]));
  }

  lemma NextOffset(n: nat, off: nat)
    ensures (1 + (n + off) % 4) % 4 == (n + 1 + off) % 4 && (off + n) % 4 == (n + off) % 4
  {
  }

  /** Cutting a body into pieces does not change what the application gets. */
  lemma CallIsItems(a: App, c: Callback)
    requires a.off < 4
    ensures OnCall(a, c) == OnItems(a, Items(c)) && OnCall(a, c).off < 4
  {
    match c
    case OnHeader(flags, length, mask) => OneItem(a, Head(HeaderOf(flags, length, mask)));
    case OnBody(piece, at) => OnData(a, piece, at);
    case OnEnd => OneItem(a, End);
  }

  lemma OneItem(a: App, x: Item)
    ensures OnItems(a, [x]) == OnItem(a, x)
  {
    assert [x][..0] == [];
    assert OnItems(a, [x][..0]) == a;
  }

  lemma {:induction false} CallsAreItems(a: App, t: seq<Callback>)
    requires a.off < 4
    ensures OnCalls(a, t) == OnItems(a, Expand(t)) && OnCalls(a, t).off < 4
  {
    if t != [] {
      var n := |t| - 1;
      CallsAreItems(a, t[..n]);
      CallIsItems(OnCalls(a, t[..n]), t[n]);
      OnItemsAppend(a, Expand(t[..n]), Items(t[n]));
    }
  }

  function MessageOf(f: Frame): Message {
    Message(Opcode(f.flags), IsFin(f.flags), IsMasked(f.flags), f.data)
  }

  function MessagesOf(fs: seq<Frame>): seq<Message> {
    seq(|fs|, i requires 0 <= i < |fs| => MessageOf(fs[i]))
  }

  lemma OnFrame(a: App, f: Frame)
    requires Fits(f)
    ensures OnItems(a, FrameItems(f)).messages == a.messages + [MessageOf(f)]
  {
    var h := HeaderOfFrame(f);
    var body := Payload(f.flags, f.key, f.data);
    var a1 := OnItem(a, Head(h));
    OneItem(a, Head(h));
    OnItemsAppend(a, [Head(h)], DataItems(body, 0));
    OnData(a1, body, 0);
    if IsMasked(f.flags) { MaskTwice(f.data, f.key, 0); }
    assert [] + f.data == f.data;
    OnItemsAppend(a, [Head(h)] + DataItems(body, 0), [End]);
    OneItem(OnItems(a, [Head(h)] + DataItems(body, 0)), End);
  }

  lemma FrameBehind(a: App, xs: seq<Item>, f: Frame)
    requires Fits(f)
    ensures OnItems(a, xs + FrameItems(f)).messages == OnItems(a, xs).messages + [MessageOf(f)]
  {
    OnFrame(OnItems(a, xs), f);
    OnItemsAppend(a, xs, FrameItems(f));
  }

  lemma MessagesSnoc(fs: seq<Frame>)
    requires fs != []
    ensures MessagesOf(fs) == MessagesOf(fs[..|fs| - 1]) + [MessageOf(fs[|fs| - 1])]
  {
  }

  lemma {:induction false} OnFrames(a: App, fs: seq<Frame>)
    requires AllFit(fs)
    ensures OnItems(a, AllItems(fs)).messages == a.messages + MessagesOf(fs)
  {
    if fs == [] {
      assert a.messages + MessagesOf(fs) == a.messages;
    } else {
      var n := |fs| - 1;
      OnFrames(a, fs[..n]);
      FrameBehind(a, AllItems(fs[..n]), fs[n]);
      MessagesSnoc(fs);
      Associative(a.messages, MessagesOf(fs[..n]), [MessageOf(fs[n])]);
    }
  }

  /** Frames built, sent, cut up anyhow and parsed: the application gets opcode, FIN, mask flag and
      the original data of each, in order. */
  lemma UnmaskedRoundTrip(fs: seq<Frame>, t: seq<Callback>)
    requires AllFit(fs) && Expand(t) == AllItems(fs)
    ensures OnCalls(App(0, false, [], 0, [], []), t).messages == MessagesOf(fs)
  {
    var a := App(0, false, [], 0, [], []);
    CallsAreItems(a, t);
    OnFrames(a, fs);
  }

  /** A fresh parser fed the frames in any pieces. */
  method ParseFrames(ghost fs: seq<Frame>, chunks: seq<Text>) returns (t: seq<Callback>)
    requires AllFit(fs) && Concat(chunks) == Wire(fs)
    ensures OnCalls(App(0, false, [], 0, [], []), t).messages == MessagesOf(fs)
  {
    var parser := new Parser();
    FramesParsed(fs);
    parser.ExecuteAll(chunks);
    t := parser.trace;
    NothingBefore(AllItems(fs));
    UnmaskedRoundTrip(fs, t);
  }
}
