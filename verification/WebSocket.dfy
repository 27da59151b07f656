/** The WebSocket frame parser and builder (sections 5.2 and 5.3 of RFC 6455). */
module WebSocket {
  import opened Bytes
  import opened Sequences
  import Bits

  // ------------------------------------------------------------ masking

  function XorBits(x: nat, y: nat, k: nat): nat {
    if k == 0 then 0 else (x % 2 + y % 2) % 2 + 2 * XorBits(x / 2, y / 2, k - 1)
  }

  lemma {:induction false} XorBound(x: nat, y: nat, k: nat)
    ensures XorBits(x, y, k) < Bits.Pow2(k)
  {
    if k > 0 { XorBound(x / 2, y / 2, k - 1); }
  }

  lemma {:induction false} XorTwice(x: nat, y: nat, k: nat)
    requires x < Bits.Pow2(k)
    ensures XorBits(XorBits(x, y, k), y, k) == x
  {
    if k > 0 {
      XorTwice(x / 2, y / 2, k - 1);
      XorStep(x, y, k);
      XorStep(XorBits(x, y, k), y, k);
      BitTwice(x % 2, y % 2);
    }
  }

  lemma XorStep(x: nat, y: nat, k: nat)
    requires k > 0
    ensures XorBits(x, y, k) % 2 == (x % 2 + y % 2) % 2
    ensures XorBits(x, y, k) / 2 == XorBits(x / 2, y / 2, k - 1)
  {
    LowBit((x % 2 + y % 2) % 2, XorBits(x / 2, y / 2, k - 1));
  }

  lemma BitTwice(a: nat, b: nat)
    requires a < 2 && b < 2
    ensures ((a + b) % 2 + b) % 2 == a
  {
  }

  lemma LowBit(bit: nat, rest: nat)
    requires bit < 2
    ensures (bit + 2 * rest) % 2 == bit && (bit + 2 * rest) / 2 == rest
  {
  }

  /** `x ^ y` on bytes. */
  function Xor(x: Byte, y: Byte): Byte {
    XorBound(x, y, 8);
    assert Bits.Pow2(4) == 16 && Bits.Pow2(8) == 256;
    XorBits(x, y, 8)
  }

  /** Exclusive or, bit by bit. */
  ghost predicate IsXor(z: Byte, x: Byte, y: Byte) {
    forall k: nat :: k < 8 ==> z / Bits.Pow2(k) % 2 == (x / Bits.Pow2(k) + y / Bits.Pow2(k)) % 2
  }

  lemma {:induction false} XorBit(x: nat, y: nat, n: nat, k: nat)
    requires k < n
    ensures XorBits(x, y, n) / Bits.Pow2(k) % 2 == (x / Bits.Pow2(k) + y / Bits.Pow2(k)) % 2
    decreases k
  {
    XorStep(x, y, n);
    if k > 0 {
      XorBit(x / 2, y / 2, n - 1, k - 1);
      BitFromHalves(x, y, XorBits(x, y, n), k);
    } else {
      LastBit(x, y, XorBits(x, y, n));
    }
  }

  lemma LastBit(x: nat, y: nat, z: nat)
    requires z % 2 == (x % 2 + y % 2) % 2
    ensures z / Bits.Pow2(0) % 2 == (x / Bits.Pow2(0) + y / Bits.Pow2(0)) % 2
  {
  }

  lemma BitFromHalves(x: nat, y: nat, z: nat, k: nat)
    requires k > 0
    requires z / 2 / Bits.Pow2(k - 1) % 2 == (x / 2 / Bits.Pow2(k - 1) + y / 2 / Bits.Pow2(k - 1)) % 2
    ensures z / Bits.Pow2(k) % 2 == (x / Bits.Pow2(k) + y / Bits.Pow2(k)) % 2
  {
    HalfFirst(x, k);
    HalfFirst(y, k);
    HalfFirst(z, k);
  }

  lemma HalfFirst(x: nat, k: nat)
    requires k > 0
    ensures x / Bits.Pow2(k) == x / 2 / Bits.Pow2(k - 1)
  {
    Bits.ModTwice(x, Bits.Pow2(k - 1));
  }

  /** `Xor` is the byte whose bits are the exclusive or of the bits, and the only one. */
  lemma XorExactly(x: Byte, y: Byte, z: Byte)
    ensures IsXor(z, x, y) <==> z == Xor(x, y)
  {
    assert Bits.Pow2(4) == 16 && Bits.Pow2(8) == 256;
    forall k: nat | k < 8
      ensures Xor(x, y) / Bits.Pow2(k) % 2 == (x / Bits.Pow2(k) + y / Bits.Pow2(k)) % 2
    {
      XorBit(x, y, 8, k);
    }
    if IsXor(z, x, y) {
      forall k: nat | k < 8 ensures z / Bits.Pow2(k) % 2 == Xor(x, y) / Bits.Pow2(k) % 2 {
        assert z / Bits.Pow2(k) % 2 == (x / Bits.Pow2(k) + y / Bits.Pow2(k)) % 2;
      }
      SameBits(z, Xor(x, y), 8);
    }
  }

  lemma {:induction false} SameBits(a: nat, b: nat, n: nat)
    requires a < Bits.Pow2(n) && b < Bits.Pow2(n)
    requires forall k: nat :: k < n ==> a / Bits.Pow2(k) % 2 == b / Bits.Pow2(k) % 2
    ensures a == b
  {
    if n > 0 {
      assert a / Bits.Pow2(0) % 2 == b / Bits.Pow2(0) % 2;
      forall k: nat | k < n - 1 ensures a / 2 / Bits.Pow2(k) % 2 == b / 2 / Bits.Pow2(k) % 2 {
        HalfFirst(a, k + 1);
        HalfFirst(b, k + 1);
        assert a / Bits.Pow2(k + 1) % 2 == b / Bits.Pow2(k + 1) % 2;
      }
      SameBits(a / 2, b / 2, n - 1);
    }
  }

  lemma XorInverse(x: Byte, y: Byte)
    ensures Xor(Xor(x, y), y) == x
  {
    assert Bits.Pow2(4) == 16 && Bits.Pow2(8) == 256;
    XorTwice(x, y, 8);
  }

  /** Each byte combined with the key byte at its place, starting `off` into the key. */
  function Masked(data: Text, key: Text, off: nat): (r: Text)
    requires |key| == 4
    ensures |r| == |data| && forall i :: 0 <= i < |data| ==> r[i] == Xor(data[i], key[(i + off) % 4])
  {
    seq(|data|, i requires 0 <= i < |data| => Xor(data[i], key[(i + off) % 4]))
  }

  /** Masking twice with the same key gives the data back. */
  lemma MaskTwice(data: Text, key: Text, off: nat)
    requires |key| == 4
    ensures Masked(Masked(data, key, off), key, off) == data
  {
    forall i | 0 <= i < |data| ensures Masked(Masked(data, key, off), key, off)[i] == data[i] {
      XorInverse(data[i], key[(i + off) % 4]);
    }
  }

  /** Masking piece by piece with the running offset is masking the whole. */
  lemma MaskPieces(a: Text, b: Text, key: Text, off: nat)
    requires |key| == 4
    ensures Masked(a + b, key, off) == Masked(a, key, off) + Masked(b, key, (off + |a|) % 4)
  {
    forall i | |a| <= i < |a| + |b|
      ensures Masked(a + b, key, off)[i] == Masked(b, key, (off + |a|) % 4)[i - |a|]
    {
      KeyPlace(i - |a|, |a|, off);
    }
  }

  lemma KeyPlace(i: nat, n: nat, off: nat)
    ensures (i + (off + n) % 4) % 4 == (i + n + off) % 4
  {
  }

  lemma MaskedBits(data: Text, key: Text, off: nat)
    requires |key| == 4
    ensures forall i :: 0 <= i < |data| ==> IsXor(Masked(data, key, off)[i], data[i], key[(i + off) % 4])
  {
    forall i | 0 <= i < |data| ensures IsXor(Masked(data, key, off)[i], data[i], key[(i + off) % 4]) {
      XorExactly(data[i], key[(i + off) % 4], Masked(data, key, off)[i]);
    }
  }

  /** `websocket_decode`: combine `src` with the key into `dst` from `at` on, bit by bit, and give the
      next offset into the key. */
  method Decode(dst: array<Byte>, at: nat, src: Text, key: Text, maskOffset: nat) returns (next: nat)
    requires at + |src| <= dst.Length && |key| == 4
    modifies dst
    ensures dst[..] == old(dst[..at]) + Masked(src, key, maskOffset) + old(dst[at + |src|..])
    ensures forall i :: 0 <= i < |src| ==> IsXor(dst[at + i], src[i], key[(i + maskOffset) % 4])
    ensures next == (|src| + maskOffset) % 4
  {
    var i := 0;
    while i < |src|
      invariant 0 <= i <= |src|
      invariant forall j :: 0 <= j < i ==> dst[at + j] == Masked(src, key, maskOffset)[j]
      invariant forall j :: 0 <= j < dst.Length && !(at <= j < at + i) ==> dst[j] == old(dst[j])
    {
      dst[at + i] := Xor(src[i], key[(i + maskOffset) % 4]);
      i := i + 1;
    }
    next := (i + maskOffset) % 4;
    MaskedBits(src, key, maskOffset);
  }

  // ------------------------------------------------------------ the frame, byte by byte

  /** What a complete header says. `key` is empty without a mask. */
  datatype Header = Header(opcode: nat, fin: bool, length: nat, key: Text)

  /** What the callbacks tell, with body pieces cut into single bytes at their place in the payload. */
  datatype Item = Head(h: Header) | Data(b: Byte, at: nat) | End

  datatype Stage =
    | Start
    | InHead(opcode: nat, fin: bool)
    | InLength(opcode: nat, fin: bool, masked: bool, need: nat, acc: nat)
    | InMask(opcode: nat, fin: bool, length: nat, got: Text)
    | InBody(h: Header, left: nat, at: nat)

  function HeaderDone(h: Header): (Stage, seq<Item>) {
    if h.length > 0 then (InBody(h, h.length, 0), [Head(h)]) else (Start, [Head(h), End])
  }

  function LengthDone(opcode: nat, fin: bool, masked: bool, length: nat): (Stage, seq<Item>) {
    if masked then (InMask(opcode, fin, length, []), []) else HeaderDone(Header(opcode, fin, length, []))
  }

  /** The wire format: one byte on. */
  function StepByte(s: Stage, b: Byte): (Stage, seq<Item>) {
    match s
    case Start => (InHead(b % 16, b >= 128), [])
    case InHead(op, fin) =>
      if b % 128 == 127 then (InLength(op, fin, b >= 128, 8, 0), [])
      else if b % 128 == 126 then (InLength(op, fin, b >= 128, 2, 0), [])
      else LengthDone(op, fin, b >= 128, b % 128)
    case InLength(op, fin, masked, need, acc) =>
      if need > 1 then (InLength(op, fin, masked, need - 1, acc * 256 + b), [])
      else LengthDone(op, fin, masked, acc * 256 + b)
    case InMask(op, fin, length, got) =>
      if |got| < 3 then (InMask(op, fin, length, got + [b]), [])
      else HeaderDone(Header(op, fin, length, got + [b]))
    case InBody(h, left, at) =>
      if left > 1 then (InBody(h, left - 1, at + 1), [Data(b, at)]) else (Start, [Data(b, at), End])
  }

  function Run(s: Stage, bs: Text): (Stage, seq<Item>) {
    if bs == [] then (s, [])
    else
      var (s1, i1) := Run(s, bs[..|bs| - 1]);
      var (s2, i2) := StepByte(s1, bs[|bs| - 1]);
      (s2, i1 + i2)
  }

  lemma {:induction false} RunAppend(s: Stage, a: Text, b: Text)
    ensures var (s1, i1) := Run(s, a); var (s2, i2) := Run(s1, b); Run(s, a + b) == (s2, i1 + i2)
    decreases |b|
  {
    if b == [] {
      assert a + b == a && Run(s, a).1 + [] == Run(s, a).1;
    } else {
      var n := |b| - 1;
      RunAppend(s, a, b[..n]);
      RunSnoc(s, a + b[..n], b[n]);
      assert a + b == a + b[..n] + [b[n]] && b == b[..n] + [b[n]];
      var (s1, i1) := Run(s, a);
      var (s2, i2) := Run(s1, b[..n]);
      RunSnoc(s1, b[..n], b[n]);
      Associative(i1, i2, StepByte(s2, b[n]).1);
    }
  }

  lemma RunSnoc(s: Stage, a: Text, b: Byte)
    ensures var (s1, i1) := Run(s, a); var (s2, i2) := StepByte(s1, b); Run(s, a + [b]) == (s2, i1 + i2)
  {
    assert (a + [b])[..|a|] == a;
  }

  /** Consecutive payload bytes from place `at` on. */
  function DataItems(bs: Text, at: nat): (r: seq<Item>)
    ensures |r| == |bs|
  {
    seq(|bs|, i requires 0 <= i < |bs| => Data(bs[i], at + i))
  }

  lemma {:induction false} RunBody(h: Header, left: nat, at: nat, bs: Text)
    requires |bs| <= left && left > 0
    ensures Run(InBody(h, left, at), bs) ==
            if |bs| < left then (InBody(h, left - |bs|, at + |bs|), DataItems(bs, at))
            else (Start, DataItems(bs, at) + [End])
    decreases |bs|
  {
    if bs == [] {
      assert DataItems(bs, at) == [];
    } else {
      var n := |bs| - 1;
      RunBody(h, left, at, bs[..n]);
      assert DataItems(bs, at) == DataItems(bs[..n], at) + [Data(bs[n], at + n)];
      assert DataItems(bs[..n], at) + [Data(bs[n], at + n), End] == DataItems(bs, at) + [End];
    }
  }

  // ------------------------------------------------------------ the parser

  datatype Phase = SStart | SHead | SLength | SMask | SBody

  type Piece = s: Text | s != [] witness [0]

  datatype Callback = OnHeader(flags: nat, length: nat, mask: Text) | OnBody(bytes: Piece, offset: nat) | OnEnd

  const FIN: nat := 0x10
  const HAS_MASK: nat := 0x20

  function Opcode(flags: nat): nat { flags % 16 }
  function IsFin(flags: nat): bool { flags / 16 % 2 == 1 }
  function IsMasked(flags: nat): bool { flags / 32 % 2 == 1 }

  function HeaderOf(flags: nat, length: nat, mask: Text): Header {
    Header(Opcode(flags), IsFin(flags), length, if IsMasked(flags) then mask else [])
  }

  function Items(c: Callback): seq<Item> {
    match c
    case OnHeader(flags, length, mask) => [Head(HeaderOf(flags, length, mask))]
    case OnBody(bytes, offset) => DataItems(bytes, offset)
    case OnEnd => [End]
  }

  function Expand(trace: seq<Callback>): seq<Item> {
    if trace == [] then [] else Expand(trace[..|trace| - 1]) + Items(trace[|trace| - 1])
  }

  lemma ExpandSnoc(t: seq<Callback>, c: Callback)
    ensures Expand(t + [c]) == Expand(t) + Items(c)
  {
    assert (t + [c])[..|t|] == t;
  }

  /** The number `acc` with the bytes `bs` behind it, most significant first. */
  function Accumulated(acc: nat, bs: Text): nat {
    if bs == [] then acc else Accumulated(acc, bs[..|bs| - 1]) * 256 + bs[|bs| - 1]
  }

  lemma {:induction false} LengthRun(op: nat, fin: bool, masked: bool, need: nat, acc: nat, bs: Text)
    requires |bs| <= need && need > 0
    ensures Run(InLength(op, fin, masked, need, acc), bs) ==
      if |bs| < need then (InLength(op, fin, masked, need - |bs|, Accumulated(acc, bs)), [])
      else LengthDone(op, fin, masked, Accumulated(acc, bs))
    decreases |bs|
  {
    if bs != [] {
      var n := |bs| - 1;
      LengthRun(op, fin, masked, need, acc, bs[..n]);
      NothingBefore(StepByte(InLength(op, fin, masked, need - n, Accumulated(acc, bs[..n])), bs[n]).1);
    }
  }

  lemma NothingBefore(items: seq<Item>)
    ensures [] + items == items == items + []
  {
  }

  lemma {:induction false} MaskRun(op: nat, fin: bool, length: nat, got: Text, bs: Text)
    requires |got| + |bs| <= 4 && |got| < 4
    ensures Run(InMask(op, fin, length, got), bs) ==
      if |got| + |bs| < 4 then (InMask(op, fin, length, got + bs), [])
      else HeaderDone(Header(op, fin, length, got + bs))
    decreases |bs|
  {
    if bs == [] {
      assert got + bs == got;
    } else {
      var n := |bs| - 1;
      MaskRun(op, fin, length, got, bs[..n]);
      assert got + bs[..n] + [bs[n]] == got + bs;
      NothingBefore(StepByte(InMask(op, fin, length, got + bs[..n]), bs[n]).1);
    }
  }

  lemma OneByte(s: Stage, b: Byte)
    ensures Run(s, [b]) == StepByte(s, b)
  {
    RunSnoc(s, [], b);
    assert [] + [b] == [b];
    NothingBefore(StepByte(s, b).1);
  }

  lemma Joined(data: Text, p: nat, q: nat)
    requires p <= q <= |data|
    ensures data[..p] + data[p..q] == data[..q]
  {
  }

  lemma Longer(data: Text, start: nat, p: nat)
    requires start <= p < |data|
    ensures data[start..p] + [data[p]] == data[start..p + 1]
  {
  }

  /** The flags hold opcode, FIN and the mask bit side by side. */
  lemma FlagParts(op: nat, fin: bool, masked: bool)
    requires op < 16
    ensures var f := op + (if fin then FIN else 0) + (if masked then HAS_MASK else 0);
            f < 64 && Opcode(f) == op && IsFin(f) == fin && IsMasked(f) == masked
  {
  }

  /** The flags are those three parts and nothing else. */
  lemma FlagsAre(f: nat)
    requires f < 64
    ensures f == Opcode(f) + (if IsFin(f) then FIN else 0) + (if IsMasked(f) then HAS_MASK else 0)
    ensures Opcode(f) < 16
  {
  }

  function BodyCalls(piece: Piece, at: nat, done: bool): seq<Callback> {
    if done then [OnBody(piece, at), OnEnd] else [OnBody(piece, at)]
  }

  lemma BodyTold(h: Header, left: nat, at: nat, bs: Piece, t: seq<Callback>)
    requires |bs| <= left
    ensures Run(InBody(h, left, at), bs).0 == if |bs| < left then InBody(h, left - |bs|, at + |bs|) else Start
    ensures Expand(t + BodyCalls(bs, at, |bs| == left)) == Expand(t) + Run(InBody(h, left, at), bs).1
  {
    RunBody(h, left, at, bs);
    ExpandSnoc(t, OnBody(bs, at));
    if |bs| == left {
      ExpandSnoc(t + [OnBody(bs, at)], OnEnd);
      assert t + [OnBody(bs, at)] + [OnEnd] == t + [OnBody(bs, at), OnEnd];
      Associative(Expand(t), DataItems(bs, at), [End]);
    }
  }

  lemma KeyRead(op: nat, fin: bool, length: nat, got: Text, mask: Text, need: nat, bs: Text)
    requires |mask| == 4 && need <= 4 && mask[..4 - need] == got + bs && |got| < 4
    ensures Run(InMask(op, fin, length, got), bs) ==
      if need > 0 then (InMask(op, fin, length, mask[..4 - need]), []) else HeaderDone(Header(op, fin, length, mask))
  {
    MaskRun(op, fin, length, got, bs);
    assert need == 0 ==> mask[..4] == mask;
  }

  /** Where the parser's registers stand in the wire format. */
  function Where(phase: Phase, flags: nat, mask: Text, length: nat, need: nat, offset: nat): Stage
    requires |mask| == 4
  {
    match phase
    case SStart => Start
    case SHead => InHead(Opcode(flags), IsFin(flags))
    case SLength => InLength(Opcode(flags), IsFin(flags), IsMasked(flags), need, length)
    case SMask => InMask(Opcode(flags), IsFin(flags), length, if need <= 4 then mask[..4 - need] else [])
    case SBody => InBody(HeaderOf(flags, length, mask), need, offset)
  }

  class Parser {
    var phase: Phase
    var flags: nat
    var mask: Text
    var maskOffset: nat
    var length: nat
    var require_: nat
    var offset: nat
    var trace: seq<Callback>   // the callbacks made

    ghost predicate Sane()
      reads this
    {
      && |mask| == 4 && flags < 64 && maskOffset < 4
      && (!phase.SStart? && !phase.SBody? ==> offset == 0)
    }

    ghost predicate Valid()
      reads this
    {
      && Sane()
      && (phase.SHead? ==> flags < 32)
      && (phase.SLength? ==> 1 <= require_ <= 8)
      && (phase.SMask? ==> 1 <= require_ <= 4 && IsMasked(flags))
      && (phase.SBody? ==> 1 <= require_ <= length)
    }

    ghost function Stage(): Stage
      reads this
      requires |mask| == 4
    {
      Where(phase, flags, mask, length, require_, offset)
    }

    constructor ()
      ensures Valid() && Stage() == Start && trace == []
    {
      phase, flags, mask, maskOffset, length, require_, offset, trace := SStart, 0, [0, 0, 0, 0], 0, 0, 0, 0, [];
    }

    /** From the given stage and items, the parser went on over the bytes `bs`. */
    ghost predicate Consumed(st: Stage, items: seq<Item>, bs: Text)
      reads this
    {
      && Valid() && Stage() == Run(st, bs).0
      && Expand(trace) == items + Run(st, bs).1
    }

    /** `websocket_parser_decode`: what a body callback calls on its piece. */
    method DecodePiece(dst: array<Byte>, src: Text)
      requires Valid() && |src| <= dst.Length
      modifies this`maskOffset, dst
      ensures Valid() && maskOffset == (|src| + old(maskOffset)) % 4
      ensures dst[..|src|] == Masked(src, mask, old(maskOffset)) && dst[|src|..] == old(dst[|src|..])
      ensures forall i :: 0 <= i < |src| ==> IsXor(dst[i], src[i], mask[(i + old(maskOffset)) % 4])
    {
      maskOffset := Decode(dst, 0, src, mask, maskOffset);
    }

    method Notify(c: Callback)
      modifies this`trace
      ensures trace == old(trace) + [c] && Expand(trace) == old(Expand(trace)) + Items(c)
    {
      ExpandSnoc(trace, c);
      trace := trace + [c];
    }

    /** The header is complete: to the body, or past an empty one. */
    method FinishHeader()
      requires Sane() && offset == 0
      modifies this`phase, this`require_, this`trace
      ensures Valid() && Stage() == HeaderDone(HeaderOf(flags, length, mask)).0
      ensures Expand(trace) == old(Expand(trace)) + HeaderDone(HeaderOf(flags, length, mask)).1
    {
      if length > 0 {
        phase, require_ := SBody, length;
        Notify(OnHeader(flags, length, mask));
      } else {
        phase := SStart;
        ghost var items := Expand(trace);
        Notify(OnHeader(flags, length, mask));
        Notify(OnEnd);
        Associative(items, [Head(HeaderOf(flags, length, mask))], [End]);
      }
    }

    /** The length is complete: to the mask, or past it. */
    method FinishLength()
      requires Sane() && offset == 0
      modifies this`phase, this`require_, this`trace
      ensures Valid() && Stage() == LengthDone(Opcode(flags), IsFin(flags), IsMasked(flags), length).0
      ensures Expand(trace) == old(Expand(trace)) + LengthDone(Opcode(flags), IsFin(flags), IsMasked(flags), length).1
    {
      if IsMasked(flags) {
        phase, require_ := SMask, 4;
        NothingBefore(Expand(trace));
      } else {
        FinishHeader();
      }
    }

    /** The loop of case `s_length`: as many length bytes as there are. */
    method TakeLength(data: Text, start: nat, frameStart: nat) returns (frameOffset: nat, p: nat)
      requires 1 <= require_ && start < |data|
      modifies this`require_, this`length
      ensures start < p <= |data| && frameOffset - frameStart == p - start
      ensures require_ == old(require_) - (p - start) >= 0
      ensures require_ > 0 ==> p == |data|
      ensures length == Accumulated(old(length), data[start..p])
    {
      p, frameOffset := start, frameStart;
      ghost var acc := length;
      while p < |data| && require_ > 0
        invariant start <= p <= |data| && frameOffset - frameStart == p - start
        invariant require_ == old(require_) - (p - start)
        invariant length == Accumulated(acc, data[start..p])
      {
        Longer(data, start, p);
        length := length * 256 + data[p];
        require_ := require_ - 1;
        frameOffset := frameOffset + 1;
        p := p + 1;
      }
    }

    /** Case `s_length`. */
    method ReadLength(data: Text, start: nat, frameStart: nat) returns (frameOffset: nat, p: nat)
      requires Valid() && phase.SLength? && start < |data|
      modifies this`phase, this`require_, this`trace, this`length
      ensures start < p <= |data| && frameOffset - frameStart == p - start
      ensures Consumed(old(Stage()), old(Expand(trace)), data[start..p])
    {
      ghost var need, acc := require_, length;
      frameOffset, p := TakeLength(data, start, frameStart);
      LengthRun(Opcode(flags), IsFin(flags), IsMasked(flags), need, acc, data[start..p]);
      if require_ == 0 {
        FinishLength();
      } else {
        NothingBefore(Expand(trace));
      }
    }

    /** The loop of case `s_mask`: as many key bytes as there are. */
    method TakeMask(data: Text, start: nat, frameStart: nat) returns (frameOffset: nat, p: nat)
      requires 1 <= require_ <= 4 && |mask| == 4 && start < |data|
      modifies this`require_, this`mask
      ensures start < p <= |data| && frameOffset - frameStart == p - start
      ensures require_ == old(require_) - (p - start) >= 0
      ensures require_ > 0 ==> p == |data|
      ensures |mask| == 4 && mask[..4 - require_] == old(mask[..4 - require_]) + data[start..p]
    {
      p, frameOffset := start, frameStart;
      ghost var got := mask[..4 - require_];
      while p < |data| && require_ > 0
        invariant start <= p <= |data| && frameOffset - frameStart == p - start
        invariant 0 <= require_ == old(require_) - (p - start) && |mask| == 4
        invariant mask[..4 - require_] == got + data[start..p]
      {
        mask := mask[4 - require_ := data[p]];
        require_ := require_ - 1;
        frameOffset := frameOffset + 1;
        p := p + 1;
      }
    }

    /** Case `s_mask`. */
    method ReadMask(data: Text, start: nat, frameStart: nat) returns (frameOffset: nat, p: nat)
      requires Valid() && phase.SMask? && start < |data|
      modifies this`phase, this`require_, this`trace, this`mask
      ensures start < p <= |data| && frameOffset - frameStart == p - start
      ensures Consumed(old(Stage()), old(Expand(trace)), data[start..p])
    {
      ghost var got := mask[..4 - require_];
      frameOffset, p := TakeMask(data, start, frameStart);
      KeyRead(Opcode(flags), IsFin(flags), length, got, mask, require_, data[start..p]);
      if require_ == 0 {
        FinishHeader();
      } else {
        NothingBefore(Expand(trace));
      }
    }

    /** Case `s_body`: the rest of the payload, or all bytes there are of it. */
    method TakeBody(data: Text, start: nat, frameStart: nat) returns (frameOffset: nat, p: nat)
      requires Valid() && phase.SBody? && start < |data| && frameStart == start
      modifies this`phase, this`require_, this`trace, this`offset
      ensures start < p <= |data| && (p < |data| ==> frameOffset == p) && p - start <= old(require_)
      ensures trace == old(trace) + BodyCalls(data[start..p], old(offset), p - start == old(require_))
      ensures Valid() && Stage() ==
        if p - start == old(require_) then Start
        else InBody(HeaderOf(flags, length, mask), old(require_) - (p - start), old(offset) + (p - start))
    {
      if start + require_ <= |data| {
        p := start + require_;
        trace := trace + [OnBody(data[start..p], offset)];
        require_ := 0;
        frameOffset := p;
      } else {
        p := |data|;
        trace := trace + [OnBody(data[start..p], offset)];
        require_ := require_ - (p - start);
        offset := offset + p - frameStart;
        frameOffset := 0;
      }
      if require_ == 0 {
        phase := SStart;
        trace := trace + [OnEnd];
      }
    }

    method ReadBody(data: Text, start: nat, frameStart: nat) returns (frameOffset: nat, p: nat)
      requires Valid() && phase.SBody? && start < |data| && frameStart == start
      modifies this`phase, this`require_, this`trace, this`offset
      ensures start < p <= |data| && (p < |data| ==> frameOffset == p)
      ensures Consumed(old(Stage()), old(Expand(trace)), data[start..p])
    {
      ghost var h, left, at, t := HeaderOf(flags, length, mask), require_, offset, trace;
      frameOffset, p := TakeBody(data, start, frameStart);
      BodyTold(h, left, at, data[start..p], t);
    }

    /** Cases `s_start` and `s_head`: one byte. */
    method ReadStart(b: Byte)
      requires Valid() && phase.SStart?
      modifies this`phase, this`flags, this`length, this`offset, this`maskOffset
      ensures Consumed(old(Stage()), Expand(trace), [b])
    {
      OneByte(Start, b);
      NothingBefore(Expand(trace));
      FlagParts(b % 16, b >= 128, false);
      offset, length, maskOffset := 0, 0, 0;
      flags := b % 16;
      if b >= 128 { flags := flags + FIN; }
      phase := SHead;
    }

    method ReadHead(b: Byte)
      requires Valid() && phase.SHead?
      modifies this`phase, this`flags, this`require_, this`trace, this`length
      ensures Consumed(old(Stage()), old(Expand(trace)), [b])
    {
      OneByte(Stage(), b);
      NothingBefore(Expand(trace));
      FlagsAre(flags);
      FlagParts(Opcode(flags), IsFin(flags), b >= 128);
      length := b % 128;
      if b >= 128 { flags := flags + HAS_MASK; }
      if length >= 126 {
        require_ := if length == 127 then 8 else 2;
        length := 0;
        phase := SLength;
      } else {
        FinishLength();
      }
    }

    /** One turn of the loop. */
    method Turn(data: Text, start: nat, frameStart: nat) returns (frameOffset: nat, p: nat)
      requires Valid() && start < |data| && frameStart == start
      modifies this
      ensures start < p <= |data| && (p < |data| ==> frameOffset == p)
      ensures Consumed(old(Stage()), old(Expand(trace)), data[start..p])
    {
      p, frameOffset := start, frameStart;
      match phase {
        case SStart =>
          ReadStart(data[p]);
          p, frameOffset := p + 1, frameOffset + 1;
          assert data[start..p] == [data[start]];
        case SHead =>
          ReadHead(data[p]);
          p, frameOffset := p + 1, frameOffset + 1;
          assert data[start..p] == [data[start]];
        case SLength =>
          frameOffset, p := ReadLength(data, p, frameOffset);
        case SMask =>
          frameOffset, p := ReadMask(data, p, frameOffset);
        case SBody =>
          frameOffset, p := ReadBody(data, p, frameOffset);
      }
    }

    /** `websocket_parser_execute`: the stage and the callbacks are those of the bytes taken one by
        one, no body piece is empty, and the whole input is consumed. */
    method Execute(data: Text) returns (parsed: nat)
      requires Valid()
      modifies this
      ensures parsed == |data|
      ensures Consumed(old(Stage()), old(Expand(trace)), data)
    {
      ghost var st, items := Stage(), Expand(trace);
      var frameOffset, p := 0, 0;
      NothingBefore(items);
      while p != |data|
        invariant 0 <= p <= |data| && (p < |data| ==> frameOffset == p)
        invariant Consumed(st, items, data[..p])
        decreases |data| - p
      {
        ghost var p0, st0, items0 := p, Stage(), Expand(trace);
        frameOffset, p := Turn(data, p, frameOffset);
        Chain(st, items, data[..p0], st0, items0, data[p0..p]);
        Joined(data, p0, p);
      }
      parsed := |data|;
      assert data[..p] == data;
    }

    /** Two consumptions in a row. */
    lemma Chain(st: Stage, items: seq<Item>, a: Text, st1: Stage, items1: seq<Item>, b: Text)
      requires st1 == Run(st, a).0 && items1 == items + Run(st, a).1
      requires Consumed(st1, items1, b)
      ensures Consumed(st, items, a + b)
    {
      RunAppend(st, a, b);
      Associative(items, Run(st, a).1, Run(st1, b).1);
    }

    /** Any number of calls: where the input is cut makes no difference. */
    method ExecuteAll(chunks: seq<Text>)
      requires Valid()
      modifies this
      ensures Consumed(old(Stage()), old(Expand(trace)), Concat(chunks))
    {
      ghost var st, items := Stage(), Expand(trace);
      NothingBefore(items);
      for i := 0 to |chunks|
        invariant Consumed(st, items, Concat(chunks[..i]))
      {
        ghost var st0, items0 := Stage(), Expand(trace);
        var parsed := Execute(chunks[i]);
        assert parsed == |chunks[i]|;
        Chain(st, items, Concat(chunks[..i]), st0, items0, chunks[i]);
        OneMore(chunks, i);
      }
      assert chunks[..|chunks|] == chunks;
    }
  }

  lemma OneMore(chunks: seq<Text>, i: nat)
    requires i < |chunks|
    ensures Concat(chunks[..i + 1]) == Concat(chunks[..i]) + chunks[i]
  {
    ConcatAppend(chunks[..i], [chunks[i]]);
    assert chunks[..i + 1] == chunks[..i] + [chunks[i]];
    assert Concat([chunks[i]]) == chunks[i];
  }
}
