/** The writer over a growing buffer, the reader over a view, and messages framed by push and pop. */
module BinaryStream {
  import opened Bytes
  import opened Endian
  import opened Stream
  import opened Sequences
  import Framing
  import Delivery

  class Writer {
    var buf: Text

    constructor ()
      ensures buf == []
    {
      buf := [];
    }

    method WriteByte(b: Byte)
      modifies this
      ensures buf == old(buf) + [b]
    {
      buf := buf + [b];
    }

    /** `write_bytes(d, n)`: nothing for n <= 0. */
    method WriteBytes(d: Text, n: int)
      requires n <= |d|
      modifies this
      ensures buf == old(buf) + Piece(d, n)
    {
      if n > 0 { buf := buf + d[..n]; }
    }

    /** `write_bytes(offset, d, n)`: overwrites in place, or throws. */
    method WriteBytesAt(offset: nat, d: Text) returns (r: Got<()>)
      modifies this
      ensures r == if offset + |d| > |old(buf)| then Fail(OutOfRange, 0) else Ok((), |d|)
      ensures |buf| == |old(buf)|
      ensures forall i :: 0 <= i < |buf| ==>
        (buf[i] == if r.Ok? && offset <= i < offset + |d| then d[i - offset] else old(buf)[i])
    {
      if offset + |d| > |buf| { return Fail(OutOfRange, 0); }
      buf := buf[..offset] + d + buf[offset + |d|..];
      r := Ok((), |d|);
    }

    /** `write_ix`: the loop over 7-bit groups. */
    method WriteIx(v: int, wide: bool)
      requires Typed(Ix(v, wide))
      modifies this
      ensures buf == old(buf) + Written(Ix(v, wide))
    {
      var u := AsUnsigned(v, Word(wide));
      ghost var all := old(buf) + Encode7(u);
      while u >= 128
        invariant buf + Encode7(u) == all
      {
        LeadingGroup(buf, u);
        WriteByte(u % 128 + 128);
        u := u / 128;
      }
      WriteByte(u);
    }

    /** `write`: a fixed-width integer in network order. */
    method Write(n: nat, width: nat)
      requires Typed(Fixed(n, width))
      modifies this
      ensures buf == old(buf) + Written(Fixed(n, width))
    {
      var nv := Swap(n, width);
      SwappedInMemory(n, width);
      buf := buf + ToLittle(nv, width);
    }

    /** `write_varint`: the low bytes of the swapped and shifted integer. */
    method WriteVarint(value: int, size: int)
      requires Typed(Varint(value, size))
      modifies this
      ensures buf == old(buf) + Written(Varint(value, size))
    {
      var width := Clamp(size);
      var netval := SwapSized(value, width);
      SizedToNetwork(value, width);
      buf := buf + ToLittle(AsUint32(netval), width);
    }

    method WriteV(value: Text)
      modifies this
      ensures buf == old(buf) + Written(BlobV(value))
    {
      var len := ToInt(|value|);
      ToIntIs(|value|);
      ghost var was := buf;
      WriteIx(len, false);
      WriteBytes(value, len);
      Associative(was, Written(Ix(len, false)), Piece(value, len));
    }

    /** `write_v8`, `write_v16` and `write_v32`. */
    method WriteVFx(value: Text, width: nat)
      requires Typed(BlobFx(value, width))
      modifies this
      ensures buf == old(buf) + Written(BlobFx(value, width))
    {
      var size := ToInt(|value|);
      ToIntIs(|value|);
      ghost var was := buf;
      Pow256Positive(width);
      SmallRemainder(AsUint32(size), Pow256(width));
      Truncated(AsUint32(size), width);
      Write(AsUint32(size) % Pow256(width), width);
      if size != 0 { WriteBytes(value, size); }
      Associative(was, ToBig(AsUint32(size), width), Piece(value, size));
    }

    /** `push`: room for a length. */
    method Push(width: nat) returns (where_: nat)
      modifies this
      ensures where_ == |old(buf)| && buf == old(buf) + seq(width, _ => 0)
    {
      where_ := |buf|;
      buf := buf + seq(width, _ => 0);
    }

    /** `pop`: patches in how many bytes were written since the push. */
    method Pop(offset: nat, width: nat)
      requires offset + width <= |buf|
      modifies this
      ensures |buf| == |old(buf)| && buf[..offset] == old(buf)[..offset]
      ensures buf[offset..offset + width] == ToBig(|buf| - offset - width, width)
      ensures buf[offset + width..] == old(buf)[offset + width..]
    {
      var n := |buf| - offset - width;
      Pow256Positive(width);
      SmallRemainder(n, Pow256(width));
      Truncated(n, width);
      PWrite(offset, n % Pow256(width), width);
    }

    /** `pwrite`: a fixed-width integer over what is there. */
    method PWrite(offset: nat, n: nat, width: nat)
      requires offset + width <= |buf| && n < Pow256(width)
      modifies this
      ensures buf == old(buf)[..offset] + ToBig(n, width) + old(buf)[offset + width..]
    {
      var nv := Swap(n, width);
      SwappedInMemory(n, width);
      buf := buf[..offset] + ToLittle(nv, width) + buf[offset + width..];
    }

    /** A message with its length in front. */
    method Message(body: Text, width: nat)
      modifies this
      ensures buf == old(buf) + Framed(body, width)
    {
      ghost var was := buf;
      var offset := Push(width);
      buf := buf + body;
      Pop(offset, width);
      Patched(was, body, buf, width);
    }
  }

  /** A body behind its length. */
  function Framed(body: Text, width: nat): Text { ToBig(|body|, width) + body }

  lemma Patched(was: Text, body: Text, now: Text, width: nat)
    requires |now| == |was| + width + |body|
    requires now[..|was|] == (was + seq(width, _ => 0) + body)[..|was|]
    requires now[|was|..|was| + width] == ToBig(|body|, width)
    requires now[|was| + width..] == (was + seq(width, _ => 0) + body)[|was| + width..]
    ensures now == was + Framed(body, width)
  {
    assert now == now[..|was|] + (now[|was|..|was| + width] + now[|was| + width..]);
  }

  lemma LeadingGroup(s: Text, u: nat)
    requires u >= 128
    ensures s + Encode7(u) == s + [u % 128 + 128] + Encode7(u / 128)
  {
  }

  /** Truncating to the width first changes none of the bytes. */
  lemma {:induction false} Truncated(n: nat, k: nat)
    ensures Pow256(k) > 0 && ToBig(n % Pow256(k), k) == ToBig(n, k)
  {
    LowBytes(n, k);
    BigInverse(ToBig(n, k));
  }

  class Reader {
    const data: Text
    var ptr: nat

    ghost predicate Valid()
      reads this
    {
      ptr <= |data|
    }

    function Rest(): Text
      reads this
      requires Valid()
    {
      data[ptr..]
    }

    constructor (data: Text)
      ensures Valid() && this.data == data && Rest() == data
    {
      this.data := data;
      ptr := 0;
    }

    /** `consume`: the next bytes, or `std::out_of_range` with the cursor in place. */
    method Consume(size: nat) returns (r: Got<Text>)
      requires Valid()
      modifies this`ptr
      ensures Valid()
      ensures r == if size <= |old(Rest())| then Ok(old(Rest())[..size], size) else Fail(OutOfRange, 0)
      ensures Rest() == old(Rest())[r.used..]
    {
      ghost var rest := Rest();
      if ptr + size <= |data| {
        r := Ok(data[ptr..ptr + size], size);
        assert data[ptr..ptr + size] == rest[..size];
        ptr := ptr + size;
        assert Rest() == rest[size..];
      } else {
        r := Fail(OutOfRange, 0);
        assert rest == rest[0..];
      }
    }

    /** One turn of the loop of `read_ix`, behind `i` groups worth `result`. */
    method ReadGroup(result: nat, i: nat, ghost free: nat, ghost last: nat) returns (done: bool, next: nat, r: Got<nat>)
      requires Valid() && free > 0
      modifies this`ptr
      ensures Valid() && Rest() == old(Rest())[if |old(Rest())| > 0 then 1 else 0..]
      ensures done ==> r == Behind(result, i, Groups(old(Rest()), free, last))
      ensures done ==> r.used == i + (if |old(Rest())| > 0 then 1 else 0)
      ensures !done ==> old(Rest()) != []
      ensures !done ==>
        Behind(result, i, Groups(old(Rest()), free, last)) == Behind(next, i + 1, Groups(Rest(), free - 1, last))
    {
      BehindHere(result, i, Rest(), free, last);
      var b := Consume(1);
      if b.Fail? { return true, 0, Fail(b.error, i); }
      var byte := b.value[0];
      next := result + Pow128(i) * (byte % 128);
      done, r := byte < 128, Ok(next, i + 1);
    }

    /** The last byte of `read_ix`. */
    method ReadLast(result: nat, i: nat, last: nat) returns (r: Got<nat>)
      requires Valid()
      modifies this`ptr
      ensures Valid() && Rest() == old(Rest())[if |old(Rest())| > 0 then 1 else 0..]
      ensures r == Behind(result, i, Groups(old(Rest()), 0, last))
      ensures r.used == i + (if |old(Rest())| > 0 then 1 else 0)
    {
      BehindLast(result, i, Rest(), last);
      var b := Consume(1);
      if b.Fail? { return Fail(b.error, i); }
      var byte := b.value[0];
      r := if byte <= last then Ok(result + Pow128(i) * byte, i + 1) else Fail(BadFormat, i + 1);
    }

    /** `read_ix`: up to `free` groups of 7 bits, and a last byte of at most `last`. */
    method ReadGroups(free: nat, last: nat) returns (r: Got<nat>)
      requires Valid()
      modifies this`ptr
      ensures Valid() && r == Groups(old(Rest()), free, last)
      ensures r.used <= |old(Rest())| && Rest() == old(Rest())[r.used..]
    {
      ghost var s := Rest();
      var result: nat, i: nat := 0, 0;
      BehindNothing(Groups(s, free, last));
      while i < free
        invariant Valid() && i <= free && i <= |s| && Rest() == s[i..]
        invariant Groups(s, free, last) == Behind(result, i, Groups(Rest(), free - i, last))
      {
        ghost var here := Rest();
        var done, next, got := ReadGroup(result, i, free - i, last);
        assert here == s[i..];
        if done { return got; }
        result, i := next, i + 1;
      }
      r := ReadLast(result, i, last);
    }

    /** `read_bytes(len)`: nothing for len <= 0. */
    method ReadBytes(len: int) returns (r: Got<Text>)
      requires Valid()
      modifies this`ptr
      ensures Valid() && r == Blob(old(Rest()), 0, len)
      ensures r.used <= |old(Rest())| && Rest() == old(Rest())[r.used..]
    {
      if len > 0 {
        r := Consume(len);
      } else {
        r := Ok([], 0);
      }
    }

    /** The next `size` bytes as a number in network order. */
    method ReadNumber(size: nat) returns (r: Got<nat>)
      requires Valid()
      modifies this`ptr
      ensures Valid() && r == Number(old(Rest()), size)
      ensures r.used <= |old(Rest())| && Rest() == old(Rest())[r.used..]
    {
      var bytes := Consume(size);
      if bytes.Fail? { return Fail(bytes.error, bytes.used); }
      SwapReads(bytes.value);
      r := Ok(Swap(FromLittle(bytes.value), size), size);
    }

    method ReadIx(wide: bool) returns (r: Got<Field>)
      requires Valid()
      modifies this`ptr
      ensures Valid() && r == ReadOne(KIx(wide), old(Rest()))
      ensures r.used <= |old(Rest())| && Rest() == old(Rest())[r.used..]
    {
      var n := ReadGroups(Free(wide), Last(wide));
      if n.Fail? { return Fail(n.error, n.used); }
      IxFits(old(Rest()), wide);
      r := Ok(Ix(AsSigned(n.value, Word(wide)), wide), n.used);
    }

    method Read(width: nat) returns (r: Got<Field>)
      requires Valid()
      modifies this`ptr
      ensures Valid() && r == ReadOne(KFixed(width), old(Rest()))
      ensures r.used <= |old(Rest())| && Rest() == old(Rest())[r.used..]
    {
      var n := ReadNumber(width);
      if n.Fail? { return Fail(n.error, n.used); }
      r := Ok(Fixed(n.value, width), n.used);
    }

    /** `read_varint`: the bytes copied into a zeroed int, swapped and shifted. */
    method ReadVarint(size: int) returns (r: Got<Field>)
      requires Valid()
      modifies this`ptr
      ensures Valid() && r == ReadOne(KVarint(size), old(Rest()))
      ensures r.used <= |old(Rest())| && Rest() == old(Rest())[r.used..]
    {
      var width := Clamp(size);
      var bytes := Consume(width);
      if bytes.Fail? { return Fail(bytes.error, bytes.used); }
      SizedFromNetwork(bytes.value, width);
      var value := AsInt32(FromLittle(bytes.value));
      r := Ok(Varint(SwapSized(value, width), size), width);
    }

    method ReadV() returns (r: Got<Field>)
      requires Valid()
      modifies this`ptr
      ensures Valid() && r == ReadOne(KBlobV, old(Rest()))
      ensures r.used <= |old(Rest())| && Rest() == old(Rest())[r.used..]
    {
      ghost var s := Rest();
      var n := ReadGroups(Free(false), Last(false));
      if n.Fail? { return Fail(n.error, n.used); }
      IxFits(s, false);
      var b := ReadBytes(AsInt32(n.value));
      BlobShift(s, n.used, AsInt32(n.value));
      r := if b.Fail? then Fail(b.error, n.used + b.used) else Ok(BlobV(b.value), n.used + b.used);
    }

    /** `read_v8`, `read_v16` and `read_v32`. */
    method ReadVFx(width: nat) returns (r: Got<Field>)
      requires Valid() && KindTyped(KBlobFx(width))
      modifies this`ptr
      ensures Valid() && r == ReadOne(KBlobFx(width), old(Rest()))
      ensures r.used <= |old(Rest())| && Rest() == old(Rest())[r.used..]
    {
      ghost var s := Rest();
      var n := ReadNumber(width);
      if n.Fail? { return Fail(n.error, n.used); }
      NumberFits(s[..n.used]);
      BlobShift(s, n.used, AsInt32(n.value));
      if n.value > 0 {
        var b := ReadBytes(AsInt32(n.value));
        r := if b.Fail? then Fail(b.error, n.used + b.used) else Ok(BlobFx(b.value, width), n.used + b.used);
      } else {
        r := Ok(BlobFx([], width), n.used);
      }
    }

    /** `eof`. */
    method Eof() returns (r: bool)
      requires Valid()
      ensures r <==> Rest() == []
    {
      r := ptr == |data|;
    }
  }

  lemma BehindHere(low: nat, i: nat, s: Text, free: nat, last: nat)
    requires free > 0
    ensures s == [] ==> Behind(low, i, Groups(s, free, last)) == Fail(OutOfRange, i)
    ensures s != [] && s[0] < 128 ==> Behind(low, i, Groups(s, free, last)) == Ok(low + Pow128(i) * (s[0] % 128), i + 1)
    ensures s != [] && s[0] >= 128 ==>
      s[0] - 128 == s[0] % 128 &&
      Behind(low, i, Groups(s, free, last)) ==
      Behind(low + Pow128(i) * (s[0] % 128), i + 1, Groups(s[1..], free - 1, last))
  {
    if s != [] && s[0] >= 128 { BehindGroup(low, i, s, free, last); }
  }

  lemma BehindLast(low: nat, i: nat, s: Text, last: nat)
    ensures Behind(low, i, Groups(s, 0, last)) ==
      if s == [] then Fail(OutOfRange, i)
      else if s[0] <= last then Ok(low + Pow128(i) * s[0], i + 1) else Fail(BadFormat, i + 1)
  {
  }

  lemma BehindNothing(r: Got<nat>)
    ensures Behind(0, 0, r) == r
  {
  }

  lemma BlobShift(s: Text, used: nat, len: int)
    requires used <= |s|
    ensures var b := Blob(s[used..], 0, len);
      Blob(s, used, len) == if b.Ok? then Ok(b.value, used + b.used) else Fail(b.error, used + b.used)
  {
    if len > 0 && used + len <= |s| { assert s[used..][..len] == s[used..used + len]; }
  }

  // ------------------------------------------------------------ messages for the transport

  /** The length decoder of a channel reads what `write_varint` wrote at the field's place. */
  lemma DecoderInverts(p: Framing.Params, v: int, before: Text, after: Text)
    requires Framing.ValidParams(p) && p.offset == |before| && !p.noSwap
    requires Typed(Varint(v, p.size)) && Faithful(Varint(v, p.size))
    ensures Framing.DecodeLen(p, before + Written(Varint(v, p.size)) + after) ==
            if v + p.adjust > p.maxFrame then -1 else v + p.adjust
  {
    var field := ToBig(AsUint32(v), p.size);
    var s := before + field + after;
    assert s[p.offset..p.offset + p.size] == field;
    LowBytes(AsUint32(v), p.size);
    FieldBytes(0);
    SmallRemainder(AsUint32(v), Pow256(p.size));
    Unsigned(AsUint32(v));
    if p.size < 4 { Widths(p.size); }
  }

  /** The decoder's field value is the swap and shift the code makes. */
  lemma FieldIsSwapped(p: Framing.Params, field: Text)
    requires |field| == p.size && 1 <= p.size <= 4
    ensures FromLittle(field) < WORD32 && Framing.FieldValue(p, field) ==
            if p.noSwap then AsInt32(FromLittle(field)) else SwapSized(AsInt32(FromLittle(field)), p.size)
  {
    SizedFromNetwork(field, p.size);
  }

  /** A channel whose packets carry the length of what follows the length field. */
  predicate LengthPrefixed(p: Framing.Params) {
    Framing.ValidParams(p) && p.offset >= 0 && p.adjust == p.offset + p.size && !p.noSwap
  }

  predicate Fits(p: Framing.Params, body: Text) {
    |body| < Pow256(p.size) && |body| <= INT_MAX && |body| + p.offset + p.size <= p.maxFrame
  }

  /** A message pushed and popped behind a header frames itself exactly when its length fits field, int
      and limit. */
  lemma FramedIsWellFormed(p: Framing.Params, header: Text, body: Text)
    requires LengthPrefixed(p) && |header| == p.offset
    ensures Delivery.WellFormed(p, header + Framed(body, p.size)) <==> Fits(p, body)
  {
    var m := header + Framed(body, p.size);
    assert m[p.offset..p.offset + p.size] == ToBig(|body|, p.size);
    LowBytes(|body|, p.size);
    SmallRemainder(|body|, Pow256(p.size));
    FieldBytes(0);
    MorePower(p.size, 4);
    Signed(|body| % Pow256(p.size), |body|);
  }

  lemma Signed(r: nat, n: nat)
    requires r < WORD32 && r <= n
    ensures AsInt32(r) <= n && (AsInt32(r) == n <==> r == n <= INT_MAX)
  {
  }

  /** The messages with these headers and bodies. */
  function Messages(headers: seq<Text>, bodies: seq<Text>, width: nat): (r: seq<Text>)
    requires |headers| == |bodies|
    ensures |r| == |bodies| && forall i :: 0 <= i < |r| ==> r[i] == headers[i] + Framed(bodies[i], width)
  {
    seq(|bodies|, i requires 0 <= i < |bodies| => headers[i] + Framed(bodies[i], width))
  }

  /** Every header reaches to the length field, and every body fits. */
  ghost predicate Deliverable(p: Framing.Params, headers: seq<Text>, bodies: seq<Text>) {
    |headers| == |bodies| && forall i :: 0 <= i < |bodies| ==> |headers[i]| == p.offset && Fits(p, bodies[i])
  }

  /** From writer to packets: bodies framed by push and pop, each behind its header, and sent over any
      pattern of partial sends and receives arrive as themselves, in order, none lost or merged; and
      all of them once everything was sent, received and drained. */
  lemma BodiesArrive(p: Framing.Params, headers: seq<Text>, bodies: seq<Text>, es: seq<Delivery.Event>)
    requires LengthPrefixed(p) && p.strip == p.offset + p.size && Deliverable(p, headers, bodies)
    requires Delivery.CanRun(p, Delivery.OPEN, es)
    requires Delivery.Run(p, Delivery.OPEN, es).written == Messages(headers, bodies, p.size)
    ensures var l := Delivery.Run(p, Delivery.OPEN, es);
      && Framing.RxOk(p, l.rx) && l.rx.delivered <= bodies && !l.rx.failed
      && (Framing.Drained(p, l.rx) && l.inFlight == [] && l.tx.queue == [] ==> l.rx.delivered == bodies)
  {
    MessagesFrame(p, headers, bodies);
    Delivery.OpenConserved(p);
    Delivery.RunConserves(p, Delivery.OPEN, es);
    Delivery.PrefixOfWritten(p, Delivery.Run(p, Delivery.OPEN, es));
  }

  lemma MessagesFrame(p: Framing.Params, headers: seq<Text>, bodies: seq<Text>)
    requires LengthPrefixed(p) && p.strip == p.offset + p.size && Deliverable(p, headers, bodies)
    ensures var ms := Messages(headers, bodies, p.size);
      Framing.StripAll(p, ms) == bodies && forall i :: 0 <= i < |ms| ==> Delivery.WellFormed(p, ms[i])
  {
    var ms := Messages(headers, bodies, p.size);
    forall i | 0 <= i < |ms| ensures Delivery.WellFormed(p, ms[i]) {
      FramedIsWellFormed(p, headers[i], bodies[i]);
    }
    forall i | 0 <= i < |ms| ensures Framing.StripAll(p, ms)[i] == bodies[i] {
      assert headers[i] + Framed(bodies[i], p.size) == headers[i] + ToBig(|bodies[i]|, p.size) + bodies[i];
    }
  }
}
