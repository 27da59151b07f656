/** Cutting a byte stream into packets by a length field. */
module Framing {
  import opened Bytes
  import opened Sequences

  /** The unpacking parameters of a channel. A negative `offset` delivers what was received. */
  datatype Params = Params(maxFrame: int, offset: int, size: nat, adjust: int, strip: nat, noSwap: bool)

  const RECEIVE_BUFFER: nat := 65536

  /** What the service demands of the parameters. */
  predicate ValidParams(p: Params) {
    && 1 <= p.size <= 4
    && (p.offset >= 0 ==> p.strip <= p.offset + p.size <= RECEIVE_BUFFER)
  }

  /** The length field: copied into the low bytes of a zeroed int on a little-endian machine, and
      swapped unless told not to. */
  function FieldValue(p: Params, field: Text): int
    requires |field| == p.size && 1 <= p.size <= 4
  {
    FromBigBound(field);
    FromLittleBound(field);
    FieldFits(p.size);
    AsInt32(if p.noSwap then FromLittle(field) else FromBig(field))
  }

  lemma FieldFits(size: nat)
    requires size <= 4
    ensures Pow256(size) <= 0x1_0000_0000
  {
    assert Pow256(0) == 1 && Pow256(1) == 256 && Pow256(2) == 65536 && Pow256(3) == 16777216 && Pow256(4) == 4294967296;
  }

  /** `__builtin_decode_len`: the frame length in the first bytes, 0 while the header is not
      complete, negative for a length that is too large. */
  function DecodeLen(p: Params, data: Text): int
    requires ValidParams(p)
  {
    if p.offset < 0 then |data|
    else if |data| < p.offset + p.size then 0
    else
      var len := FieldValue(p, data[p.offset..p.offset + p.size]) + p.adjust;
      if len > p.maxFrame then -1 else len
  }

  lemma DecodeLenPrefix(p: Params, data: Text, more: Text)
    requires ValidParams(p) && p.offset >= 0 && |data| >= p.offset + p.size
    ensures DecodeLen(p, data + more) == DecodeLen(p, data)
  {
    assert (data + more)[p.offset..p.offset + p.size] == data[p.offset..p.offset + p.size];
  }

  predicate HeaderComplete(p: Params, data: Text) { 0 <= p.offset && p.offset + p.size <= |data| }

  /** A complete header that decodes to 0 reads as an incomplete one, for ever. */
  predicate Stalled(p: Params, data: Text)
    requires ValidParams(p)
  {
    HeaderComplete(p, data) && DecodeLen(p, data) == 0
  }

  // ------------------------------------------------------------ the whole-stream parser

  datatype Parsed = Parsed(frames: seq<Text>, rest: Text, bad: bool)

  /** The frames at the head of a stream, what is left, and whether it starts with a length
      that is refused. */
  function Parse(p: Params, s: Text): Parsed
    requires ValidParams(p) && p.offset >= 0
    decreases |s|
  {
    var len := DecodeLen(p, s);
    if len == 0 then Parsed([], s, false)
    else if len < 0 || len < p.strip then Parsed([], s, true)
    else if |s| < len then Parsed([], s, false)
    else
      var r := Parse(p, s[len..]);
      r.(frames := [s[..len]] + r.frames)
  }

  /** A frame without its stripped head. */
  function Strip(p: Params, f: Text): Text { if p.strip <= |f| then f[p.strip..] else [] }

  function StripAll(p: Params, fs: seq<Text>): (r: seq<Text>)
    ensures |r| == |fs| && forall i :: 0 <= i < |fs| ==> r[i] == Strip(p, fs[i])
  {
    seq(|fs|, i requires 0 <= i < |fs| => Strip(p, fs[i]))
  }

  /** Frames and rest are the stream. */
  lemma {:induction false} ParseConserves(p: Params, s: Text)
    requires ValidParams(p) && p.offset >= 0
    ensures Concat(Parse(p, s).frames) + Parse(p, s).rest == s
    decreases |s|
  {
    var len := DecodeLen(p, s);
    if 0 < len <= |s| && len >= p.strip {
      ParseConserves(p, s[len..]);
      var r := Parse(p, s[len..]);
      assert Parse(p, s).frames[1..] == r.frames;
      assert s == s[..len] + s[len..];
    }
  }

  // ------------------------------------------------------------ the incremental unpacker

  /** The receiving side of a transport: bytes left in the receive buffer, the expected frame
      size (-1 for none), the packet under construction and the packets delivered. `head` is
      what was stripped of that packet; the program does not keep it. */
  datatype Rx = Rx(pending: Text, expected: int, packet: Text, head: Text, delivered: seq<Text>, failed: bool)

  const IDLE := Rx([], -1, [], [], [], false)

  function Min(a: int, b: int): int { if a <= b then a else b }

  /** `unpack`: take up to `want` bytes of what is available into the packet. */
  function Take(r: Rx, avail: Text, want: int, strip: nat): Rx
    requires want >= 0 && strip <= Min(want, |avail|)
  {
    var n := Min(want, |avail|);
    var packet := r.packet + avail[strip..n];
    if want <= |avail| then
      r.(pending := avail[want..], expected := -1, packet := [], head := [], delivered := r.delivered + [packet])
    else r.(pending := [], packet := packet, head := r.head + avail[..strip])
  }

  predicate RxOk(p: Params, r: Rx) {
    if r.expected == -1 then r.packet == [] && r.head == []
    else r.pending == [] && |r.head| == p.strip && p.strip + |r.packet| < r.expected && !r.failed
  }

  /** `do_read` after a receive of `chunk`. */
  function Read(p: Params, r: Rx, chunk: Text): Rx
    requires ValidParams(p) && RxOk(p, r)
  {
    var avail := r.pending + chunk;
    if r.failed then r
    else if r.expected == -1 then
      var len := DecodeLen(p, avail);
      if len > 0 then
        if len < p.strip then r.(pending := avail, failed := true)
        else Take(r.(expected := len), avail, len, p.strip)
      else if len == 0 then r.(pending := avail)
      else r.(pending := avail, failed := true)
    else Take(r, avail, r.expected - (|r.packet| + p.strip), 0)
  }

  lemma ReadKeepsOk(p: Params, r: Rx, chunk: Text)
    requires ValidParams(p) && RxOk(p, r)
    ensures RxOk(p, Read(p, r, chunk))
  {
  }

  // ------------------------------------------------------------ refinement

  /** The bytes received and not yet delivered. */
  function Residue(r: Rx): Text { if r.expected == -1 then r.pending else r.head + r.packet }

  /** With what came after the receiver had refused a length. */
  function Unread(r: Rx, lost: Text): Text { if r.failed then Residue(r) + lost else Residue(r) }

  /** `s` consists of the frames `done`, each as long as the header at its place says, and `residue`. */
  predicate Split(p: Params, s: Text, done: seq<Text>, residue: Text)
    requires ValidParams(p) && p.offset >= 0
    decreases |done|
  {
    if done == [] then s == residue
    else
      var n := |done[0]|;
      && HeaderComplete(p, s) && DecodeLen(p, s) == n > 0 && p.strip <= n <= |s|
      && s[..n] == done[0] && Split(p, s[n..], done[1..], residue)
  }

  lemma {:induction false} SplitExtend(p: Params, s: Text, done: seq<Text>, residue: Text, more: Text)
    requires ValidParams(p) && p.offset >= 0 && Split(p, s, done, residue)
    ensures Split(p, s + more, done, residue + more)
    decreases |done|
  {
    if done != [] {
      var n := |done[0]|;
      DecodeLenPrefix(p, s, more);
      SplitExtend(p, s[n..], done[1..], residue, more);
      assert (s + more)[n..] == s[n..] + more && (s + more)[..n] == s[..n];
    }
  }

  lemma {:induction false} SplitAppend(p: Params, s: Text, done: seq<Text>, residue: Text, n: nat)
    requires ValidParams(p) && p.offset >= 0 && Split(p, s, done, residue)
    requires HeaderComplete(p, residue) && DecodeLen(p, residue) == n > 0 && p.strip <= n <= |residue|
    ensures Split(p, s, done + [residue[..n]], residue[n..])
    decreases |done|
  {
    if done == [] {
      assert [residue[..n]][1..] == [];
    } else {
      SplitAppend(p, s[|done[0]|..], done[1..], residue, n);
      assert (done + [residue[..n]])[1..] == done[1..] + [residue[..n]];
    }
  }

  lemma {:induction false} SplitParse(p: Params, s: Text, done: seq<Text>, residue: Text)
    requires ValidParams(p) && p.offset >= 0 && Split(p, s, done, residue)
    ensures var whole, r := Parse(p, s), Parse(p, residue);
      whole == Parsed(done + r.frames, r.rest, r.bad)
    decreases |done|
  {
    var r := Parse(p, residue);
    if done == [] {
      assert [] + r.frames == r.frames;
    } else {
      SplitParse(p, s[|done[0]|..], done[1..], residue);
      assert done + r.frames == [done[0]] + (done[1..] + r.frames);
    }
  }

  /** The receiver stands after the frames `done` of what it received. `lost` is what came
      after it had refused a length. */
  ghost predicate Tracks(p: Params, received: Text, r: Rx, done: seq<Text>, lost: Text)
    requires ValidParams(p) && p.offset >= 0
  {
    && RxOk(p, r)
    && Split(p, received, done, Unread(r, lost))
    && r.delivered == StripAll(p, done)
    && (r.expected != -1 ==> HeaderComplete(p, Residue(r)) && DecodeLen(p, Residue(r)) == r.expected)
    && (r.failed ==> r.expected == -1 && HeaderComplete(p, Residue(r))
                     && (DecodeLen(p, Residue(r)) < 0 || 0 < DecodeLen(p, Residue(r)) < p.strip))
  }

  /** A read that finds a length completes the frame or keeps all bytes. */
  ghost predicate TookFrame(p: Params, r: Rx, s: Text, r': Rx)
    requires ValidParams(p)
  {
    var len := DecodeLen(p, s);
    if 0 <= len <= |s| then
      r' == Rx(s[len..], -1, [], [], r.delivered + [Strip(p, s[..len])], false)
    else RxOk(p, r') && !r'.failed && Residue(r') == s && r'.expected == len && r'.delivered == r.delivered
  }

  lemma TakeFirst(p: Params, r: Rx, chunk: Text)
    requires ValidParams(p) && RxOk(p, r) && !r.failed && r.expected == -1
    requires HeaderComplete(p, r.pending + chunk) && DecodeLen(p, r.pending + chunk) > 0
    requires p.strip <= DecodeLen(p, r.pending + chunk)
    ensures TookFrame(p, r, r.pending + chunk, Read(p, r, chunk))
  {
    var s := r.pending + chunk;
    var len := DecodeLen(p, s);
    if len <= |s| { FreshWhole(r.(expected := len), s, len, p.strip); }
    else { FreshPart(r.(expected := len), s, len, p.strip); }
  }

  lemma FreshWhole(r: Rx, s: Text, len: nat, strip: nat)
    requires strip <= len <= |s| && r.packet == []
    ensures Take(r, s, len, strip) == Rx(s[len..], -1, [], [], r.delivered + [s[..len][strip..]], r.failed)
  {
    assert [] + s[strip..len] == s[..len][strip..];
  }

  lemma FreshPart(r: Rx, s: Text, len: nat, strip: nat)
    requires strip <= |s| < len && r.packet == [] && r.head == []
    ensures Take(r, s, len, strip) == r.(pending := [], packet := s[strip..], head := s[..strip])
    ensures s[..strip] + s[strip..] == s
  {
    assert [] + s[strip..|s|] == s[strip..] && [] + s[..strip] == s[..strip];
  }

  lemma CutMiddle(a: Text, b: Text, c: Text, n: nat)
    requires n <= |c|
    ensures (a + b + c)[..|a| + |b| + n][|a|..] == b + c[0..n]
    ensures (a + b + c)[|a| + |b| + n..] == c[n..]
  {
  }

  lemma TakeWhole(r: Rx, chunk: Text, want: nat)
    requires want <= |chunk|
    ensures var s, n := r.head + r.packet + chunk, |r.head| + |r.packet| + want;
      Take(r, chunk, want, 0) == Rx(s[n..], -1, [], [], r.delivered + [s[..n][|r.head|..]], r.failed)
  {
    CutMiddle(r.head, r.packet, chunk, want);
  }

  lemma TakePart(r: Rx, chunk: Text, want: nat)
    requires want > |chunk|
    ensures Take(r, chunk, want, 0) == r.(pending := [], packet := r.packet + chunk)
  {
    assert r.head + chunk[..0] == r.head && chunk[0..|chunk|] == chunk;
  }

  lemma TakeNext(p: Params, r: Rx, chunk: Text)
    requires ValidParams(p) && RxOk(p, r) && r.expected != -1
    requires HeaderComplete(p, Residue(r)) && DecodeLen(p, Residue(r)) == r.expected
    ensures TookFrame(p, r, Residue(r) + chunk, Read(p, r, chunk))
  {
    DecodeLenPrefix(p, Residue(r), chunk);
    var want := r.expected - (|r.packet| + p.strip);
    assert r.pending + chunk == chunk;
    if want <= |chunk| { TakeWhole(r, chunk, want); }
    else {
      TakePart(r, chunk, want);
      Associative(r.head, r.packet, chunk);
    }
  }

  lemma ReadTracks(p: Params, received: Text, r: Rx, done: seq<Text>, lost: Text, chunk: Text)
    returns (done': seq<Text>, lost': Text)
    requires ValidParams(p) && p.offset >= 0 && Tracks(p, received, r, done, lost)
    ensures Tracks(p, received + chunk, Read(p, r, chunk), done', lost') && done <= done'
  {
    SplitExtend(p, received, done, Unread(r, lost), chunk);
    if r.failed {
      done', lost' := done, lost + chunk;
      Associative(Residue(r), lost, chunk);
    } else {
      lost' := [];
      if r.expected == -1 { done' := IdleTracks(p, received + chunk, r, done, chunk); }
      else { done' := MidTracks(p, received + chunk, r, done, chunk); }
    }
  }

  lemma UnreadPlain(p: Params, received: Text, r: Rx, done: seq<Text>)
    requires ValidParams(p) && p.offset >= 0 && RxOk(p, r) && Split(p, received, done, Residue(r))
    ensures Split(p, received, done, Unread(r, []))
  {
    assert Residue(r) + [] == Residue(r);
  }

  lemma IdleTracks(p: Params, received: Text, r: Rx, done: seq<Text>, chunk: Text) returns (done': seq<Text>)
    requires ValidParams(p) && p.offset >= 0 && RxOk(p, r) && !r.failed && r.expected == -1
    requires Split(p, received, done, r.pending + chunk) && r.delivered == StripAll(p, done)
    ensures Tracks(p, received, Read(p, r, chunk), done', []) && done <= done'
  {
    var s := r.pending + chunk;
    var len := DecodeLen(p, s);
    if len > 0 && p.strip <= len {
      TakeFirst(p, r, chunk);
      done' := FrameTracks(p, received, r, done, s, Read(p, r, chunk));
    } else {
      done' := done;
      UnreadPlain(p, received, Read(p, r, chunk), done);
    }
  }

  lemma MidTracks(p: Params, received: Text, r: Rx, done: seq<Text>, chunk: Text) returns (done': seq<Text>)
    requires ValidParams(p) && p.offset >= 0 && RxOk(p, r) && r.expected != -1
    requires HeaderComplete(p, Residue(r)) && DecodeLen(p, Residue(r)) == r.expected
    requires Split(p, received, done, Residue(r) + chunk) && r.delivered == StripAll(p, done)
    ensures Tracks(p, received, Read(p, r, chunk), done', []) && done <= done'
  {
    TakeNext(p, r, chunk);
    DecodeLenPrefix(p, Residue(r), chunk);
    done' := FrameTracks(p, received, r, done, Residue(r) + chunk, Read(p, r, chunk));
  }

  lemma FrameTracks(p: Params, received: Text, r: Rx, done: seq<Text>, s: Text, r': Rx) returns (done': seq<Text>)
    requires ValidParams(p) && p.offset >= 0 && Split(p, received, done, s)
    requires HeaderComplete(p, s) && DecodeLen(p, s) > 0 && p.strip <= DecodeLen(p, s)
    requires TookFrame(p, r, s, r') && r.delivered == StripAll(p, done)
    ensures Tracks(p, received, r', done', []) && done <= done'
  {
    var len := DecodeLen(p, s);
    done' := done;
    if len <= |s| {
      SplitAppend(p, received, done, s, len);
      done' := done + [s[..len]];
      assert StripAll(p, done') == StripAll(p, done) + [Strip(p, s[..len])];
    }
    UnreadPlain(p, received, r', done');
  }

  // ------------------------------------------------------------ any chunking

  function Feed(p: Params, r: Rx, chunks: seq<Text>): (r': Rx)
    requires ValidParams(p) && RxOk(p, r)
    ensures RxOk(p, r')
    decreases |chunks|
  {
    if chunks == [] then r
    else ReadKeepsOk(p, r, chunks[0]); Feed(p, Read(p, r, chunks[0]), chunks[1..])
  }

  lemma {:induction false} FeedTracks(p: Params, received: Text, r: Rx, done: seq<Text>, lost: Text, chunks: seq<Text>)
    returns (done': seq<Text>, lost': Text)
    requires ValidParams(p) && p.offset >= 0 && Tracks(p, received, r, done, lost)
    ensures Tracks(p, received + Concat(chunks), Feed(p, r, chunks), done', lost') && done <= done'
    decreases |chunks|
  {
    if chunks == [] {
      done', lost' := done, lost;
      assert received + [] == received;
    } else {
      var c, rest := chunks[0], chunks[1..];
      var done1, lost1 := ReadTracks(p, received, r, done, lost, c);
      done', lost' := FeedTracks(p, received + c, Read(p, r, c), done1, lost1, rest);
      Associative(received, c, Concat(rest));
    }
  }

  /** An empty read would change nothing. */
  predicate Drained(p: Params, r: Rx)
    requires ValidParams(p) && RxOk(p, r)
  {
    Read(p, r, []) == r
  }

  /** What a receiver that tracks the stream has delivered. */
  ghost predicate Agrees(p: Params, r: Rx, whole: Parsed)
    requires ValidParams(p) && RxOk(p, r)
  {
    && r.delivered <= StripAll(p, whole.frames)
    && (r.failed ==> whole.bad && r.delivered == StripAll(p, whole.frames))
    && (Drained(p, r) ==> r.delivered == StripAll(p, whole.frames) && r.failed == whole.bad
                          && (!r.failed ==> Residue(r) == whole.rest))
  }

  lemma StripAllAppend(p: Params, a: seq<Text>, b: seq<Text>)
    ensures StripAll(p, a + b) == StripAll(p, a) + StripAll(p, b)
  {
  }

  lemma TracksAgrees(p: Params, received: Text, r: Rx, done: seq<Text>, lost: Text)
    requires ValidParams(p) && p.offset >= 0 && Tracks(p, received, r, done, lost)
    ensures Agrees(p, r, Parse(p, received))
  {
    var s := Unread(r, lost);
    SplitParse(p, received, done, s);
    StripAllAppend(p, done, Parse(p, s).frames);
    assert done + [] == done;
    if r.failed { RefusedParse(p, r, lost); }
    else if Drained(p, r) { DrainedParse(p, r); }
  }

  lemma RefusedParse(p: Params, r: Rx, lost: Text)
    requires ValidParams(p) && p.offset >= 0 && r.failed && HeaderComplete(p, Residue(r))
    requires DecodeLen(p, Residue(r)) < 0 || 0 < DecodeLen(p, Residue(r)) < p.strip
    ensures Parse(p, Unread(r, lost)) == Parsed([], Unread(r, lost), true)
  {
    DecodeLenPrefix(p, Residue(r), lost);
  }

  lemma DrainedParse(p: Params, r: Rx)
    requires ValidParams(p) && p.offset >= 0 && RxOk(p, r) && !r.failed && Drained(p, r)
    requires r.expected != -1 ==> HeaderComplete(p, Residue(r)) && DecodeLen(p, Residue(r)) == r.expected
    ensures Parse(p, Residue(r)) == Parsed([], Residue(r), false)
  {
    var s := Residue(r);
    if r.expected == -1 {
      assert r.pending + [] == s;
      if DecodeLen(p, s) > 0 && p.strip <= DecodeLen(p, s) { TakeFirst(p, r, []); }
    }
  }

  lemma FedTracks(p: Params, chunks: seq<Text>) returns (done: seq<Text>, lost: Text)
    requires ValidParams(p) && p.offset >= 0
    ensures Tracks(p, Concat(chunks), Feed(p, IDLE, chunks), done, lost)
  {
    done, lost := FeedTracks(p, [], IDLE, [], [], chunks);
    assert [] + Concat(chunks) == Concat(chunks);
  }

  /** For every chunking, the packets delivered are at every moment the first packets of the
      whole stream, a length is refused only where the whole-stream parser refuses it, and a
      drained receiver has delivered every packet, has failed if the parser did, and otherwise
      holds exactly the parser's rest. */
  lemma UnpackRefinesParse(p: Params, chunks: seq<Text>)
    requires ValidParams(p) && p.offset >= 0
    ensures Agrees(p, Feed(p, IDLE, chunks), Parse(p, Concat(chunks)))
  {
    var done, lost := FedTracks(p, chunks);
    TracksAgrees(p, Concat(chunks), Feed(p, IDLE, chunks), done, lost);
  }

  /** `n` reads for which nothing has arrived. */
  function EmptyReads(p: Params, r: Rx, n: nat): (r': Rx)
    requires ValidParams(p) && RxOk(p, r)
    ensures RxOk(p, r')
    decreases n
  {
    if n == 0 then r else ReadKeepsOk(p, r, []); EmptyReads(p, Read(p, r, []), n - 1)
  }

  /** Empty reads drain the receiver: each delivers one more packet, until none is left. */
  lemma {:induction false} EmptyReadsDrain(p: Params, received: Text, r: Rx, done: seq<Text>, lost: Text, n: nat)
    requires ValidParams(p) && p.offset >= 0 && Tracks(p, received, r, done, lost)
    requires n + |r.delivered| >= |Parse(p, received).frames|
    ensures Drained(p, EmptyReads(p, r, n + 1))
    decreases n
  {
    var r' := Read(p, r, []);
    var done', lost' := EmptyReadTracks(p, received, r, done, lost);
    NotBehind(p, received, r', done', lost');
    if |r'.delivered| == |r.delivered| {
      NothingDelivered(p, r);
      DrainedStays(p, r', n);
    } else {
      EmptyReadsDrain(p, received, r', done', lost', n - 1);
    }
  }

  lemma EmptyReadTracks(p: Params, received: Text, r: Rx, done: seq<Text>, lost: Text)
    returns (done': seq<Text>, lost': Text)
    requires ValidParams(p) && p.offset >= 0 && Tracks(p, received, r, done, lost)
    ensures RxOk(p, r) && Tracks(p, received, Read(p, r, []), done', lost')
    ensures |Read(p, r, []).delivered| == |r.delivered| || |Read(p, r, []).delivered| == |r.delivered| + 1
  {
    done', lost' := ReadTracks(p, received, r, done, lost, []);
    assert received + [] == received;
  }

  lemma NotBehind(p: Params, received: Text, r: Rx, done: seq<Text>, lost: Text)
    requires ValidParams(p) && p.offset >= 0 && Tracks(p, received, r, done, lost)
    ensures |r.delivered| <= |Parse(p, received).frames|
  {
    TracksAgrees(p, received, r, done, lost);
  }

  /** An empty read that delivers nothing leaves a drained receiver. */
  lemma NothingDelivered(p: Params, r: Rx)
    requires ValidParams(p) && RxOk(p, r) && |Read(p, r, []).delivered| == |r.delivered|
    ensures Drained(p, Read(p, r, []))
  {
    assert r.pending + [] == r.pending;
    assert r.expected != -1 ==> r.packet + [] == r.packet && r.head + [] == r.head;
  }

  lemma {:induction false} DrainedStays(p: Params, r: Rx, n: nat)
    requires ValidParams(p) && RxOk(p, r) && Drained(p, r)
    ensures EmptyReads(p, r, n) == r
  {
    if n > 0 { DrainedStays(p, r, n - 1); }
  }

  // ------------------------------------------------------------ room in the receive buffer

  /** A read leaves the buffer full exactly when it is full of a frame whose complete header
      decodes to 0. */
  lemma ReadLeavesRoom(p: Params, r: Rx, chunk: Text)
    requires ValidParams(p) && p.offset >= 0 && RxOk(p, r) && |r.pending| + |chunk| <= RECEIVE_BUFFER
    requires !r.failed && !Read(p, r, chunk).failed
    ensures |Read(p, r, chunk).pending| == RECEIVE_BUFFER <==>
            r.expected == -1 && |r.pending| + |chunk| == RECEIVE_BUFFER && Stalled(p, r.pending + chunk)
  {
  }

  /** The kernel never gives more than there is room for. */
  predicate FitsBuffer(p: Params, r: Rx, chunks: seq<Text>)
    requires ValidParams(p) && RxOk(p, r)
    decreases |chunks|
  {
    chunks == [] || (ReadKeepsOk(p, r, chunks[0]);
                     |r.pending| + |chunks[0]| <= RECEIVE_BUFFER && FitsBuffer(p, Read(p, r, chunks[0]), chunks[1..]))
  }

  /** On every run the receiver asks for zero bytes only behind a frame of the stream whose
      header decodes to 0. */
  lemma RoomUnlessStalled(p: Params, chunks: seq<Text>)
    requires ValidParams(p) && p.offset >= 0 && FitsBuffer(p, IDLE, chunks)
    requires var r := Feed(p, IDLE, chunks); !r.failed && |r.pending| >= RECEIVE_BUFFER
    ensures Stalled(p, Parse(p, Concat(chunks)).rest)
  {
    var done, lost := FedTracks(p, chunks);
    FedRoom(p, IDLE, chunks);
    StalledRest(p, Concat(chunks), Feed(p, IDLE, chunks), done, lost);
  }

  lemma StalledRest(p: Params, received: Text, r: Rx, done: seq<Text>, lost: Text)
    requires ValidParams(p) && p.offset >= 0 && Tracks(p, received, r, done, lost)
    requires !r.failed && r.expected == -1 && Stalled(p, r.pending)
    ensures Parse(p, received).rest == r.pending
  {
    SplitParse(p, received, done, r.pending);
  }

  lemma {:induction false} FedRoom(p: Params, r: Rx, chunks: seq<Text>)
    requires ValidParams(p) && p.offset >= 0 && RxOk(p, r) && FitsBuffer(p, r, chunks)
    requires !Feed(p, r, chunks).failed
    requires |r.pending| < RECEIVE_BUFFER || (r.expected == -1 && Stalled(p, r.pending))
    ensures var r' := Feed(p, r, chunks);
      |r'.pending| < RECEIVE_BUFFER || (r'.expected == -1 && Stalled(p, r'.pending))
    decreases |chunks|
  {
    if chunks != [] {
      var r1 := Read(p, r, chunks[0]);
      if r1.failed { FailedStays(p, r1, chunks[1..]); }
      else {
        ReadLeavesRoom(p, r, chunks[0]);
        FedRoom(p, r1, chunks[1..]);
      }
    }
  }

  lemma {:induction false} FailedStays(p: Params, r: Rx, chunks: seq<Text>)
    requires ValidParams(p) && RxOk(p, r) && r.failed
    ensures Feed(p, r, chunks) == r
    decreases |chunks|
  {
    if chunks != [] { FailedStays(p, r, chunks[1..]); }
  }

  /** It does happen: a buffer of zero bytes under a one-byte length field. */
  lemma ZeroHeaderFillsBuffer() returns (p: Params, chunks: seq<Text>)
    ensures ValidParams(p) && p.offset >= 0 && FitsBuffer(p, IDLE, chunks)
    ensures !Feed(p, IDLE, chunks).failed && |Feed(p, IDLE, chunks).pending| == RECEIVE_BUFFER
  {
    p := Params(1024, 0, 1, 0, 0, false);
    var zeros: Text := seq(RECEIVE_BUFFER, _ => 0);
    chunks := [zeros];
    assert [] + zeros == zeros && zeros[0..1] == [0];
    assert FromBig([0]) == 0;
    assert chunks[1..] == [];
  }

  // ------------------------------------------------------------ without a length field

  /** The chunks that are delivered: those that are not empty, up to the first too short to be stripped. */
  function Whole(p: Params, chunks: seq<Text>): seq<Text> {
    if chunks == [] || TooShort(p, chunks[0]) then []
    else (if chunks[0] == [] then [] else [chunks[0]]) + Whole(p, chunks[1..])
  }

  predicate TooShort(p: Params, c: Text) { 0 < |c| < p.strip }

  predicate Direct(p: Params, r: Rx) { RxOk(p, r) && r.expected == -1 && r.pending == [] && !r.failed }

  /** Without a length field every receive is a packet, stripped of its head; the transport fails at
      the first that is too short. */
  lemma {:induction false} DirectDelivers(p: Params, r: Rx, chunks: seq<Text>)
    requires ValidParams(p) && p.offset < 0 && Direct(p, r)
    ensures var z := Feed(p, r, chunks);
      && z.delivered == r.delivered + StripAll(p, Whole(p, chunks))
      && (z.failed <==> exists i :: 0 <= i < |chunks| && TooShort(p, chunks[i]))
    decreases |chunks|
  {
    if chunks != [] {
      var c, rest := chunks[0], chunks[1..];
      var r1 := Read(p, r, c);
      DirectRead(p, r, c);
      if TooShort(p, c) {
        FailedStays(p, r1, rest);
        assert TooShort(p, chunks[0]);
      } else {
        DirectDelivers(p, r1, rest);
        StripAllAppend(p, Whole(p, [c]), Whole(p, rest));
        if i :| 0 <= i < |rest| && TooShort(p, rest[i]) { assert chunks[i + 1] == rest[i]; }
      }
    }
  }

  lemma DirectRead(p: Params, r: Rx, c: Text)
    requires ValidParams(p) && p.offset < 0 && Direct(p, r)
    ensures var r1 := Read(p, r, c);
      && RxOk(p, r1) && r1.delivered == r.delivered + StripAll(p, Whole(p, [c]))
      && if TooShort(p, c) then r1.failed else Direct(p, r1)
  {
    assert [] + c == c && [c][1..] == [];
    if |c| > 0 && p.strip <= |c| { assert [] + c[p.strip..|c|] == c[p.strip..]; }
  }

  /** Without stripping, the packets joined are the bytes received. */
  lemma {:induction false} WholeIsAll(p: Params, chunks: seq<Text>)
    requires p.strip == 0
    ensures StripAll(p, Whole(p, chunks)) == Whole(p, chunks)
    ensures Concat(Whole(p, chunks)) == Concat(chunks)
  {
    if chunks != [] {
      var c, rest := chunks[0], chunks[1..];
      WholeIsAll(p, rest);
      assert [] + Whole(p, rest) == Whole(p, rest);
      if c != [] {
        assert Whole(p, chunks) == [c] + Whole(p, rest);
        assert Whole(p, chunks)[1..] == Whole(p, rest);
        StripAllAppend(p, [c], Whole(p, rest));
        assert StripAll(p, [c]) == [c];
      }
    }
  }
}
