/** The binary streams: 7-bit integers, fixed and sized integers, and length-prefixed blobs. */
module Stream {
  import opened Bytes
  import Bits
  import opened Endian
  import opened Sequences

  const WORD64: nat := 0x1_0000_0000_0000_0000

  datatype Error = OutOfRange | BadFormat

  /** A value and the bytes it took, or the exception thrown and the bytes consumed before it. */
  datatype Got<T> = Ok(value: T, used: nat) | Fail(error: Error, used: nat)

  // ------------------------------------------------------------ 7 bits at a time

  /** Seven bits a byte, the least significant first, the high bit set on all but the last. */
  function Encode7(n: nat): (s: Text)
    ensures s != []
  {
    if n < 128 then [n] else [n % 128 + 128] + Encode7(n / 128)
  }

  /** One group in front of what follows it. */
  function Ahead(low: nat, r: Got<nat>): Got<nat> {
    match r
    case Ok(v, n) => Ok(low + 128 * v, n + 1)
    case Fail(e, n) => Fail(e, n + 1)
  }

  /** The reader: `free` groups without overflow, then a last byte of at most `last`. */
  function Groups(s: Text, free: nat, last: nat): Got<nat> {
    if s == [] then Fail(OutOfRange, 0)
    else if free == 0 then (if s[0] <= last then Ok(s[0], 1) else Fail(BadFormat, 1))
    else if s[0] < 128 then Ok(s[0], 1)
    else Ahead(s[0] - 128, Groups(s[1..], free - 1, last))
  }

  function Pow128(k: nat): nat { if k == 0 then 1 else 128 * Pow128(k - 1) }

  /** The number in groups of seven bits, the least significant first. */
  function Value7(s: Text): nat { if s == [] then 0 else s[0] % 128 + 128 * Value7(s[1..]) }

  /** All of the first n bytes say that another follows. */
  predicate GoOn(s: Text, n: nat) { n <= |s| && forall i :: 0 <= i < n ==> s[i] >= 128 }

  /** The writer's bytes: the groups of the number, the high bit on all but the last, and no last group of
      zero but for zero itself. */
  lemma {:induction false} EncodeLayout(n: nat)
    ensures var s := Encode7(n);
      && Value7(s) == n && GoOn(s, |s| - 1) && s[|s| - 1] < 128
      && (|s| == 1 || s[|s| - 1] != 0)
    decreases n
  {
    if n >= 128 {
      EncodeLayout(n / 128);
      var rest := Encode7(n / 128);
      assert Encode7(n)[1..] == rest;
      assert forall i :: 0 < i < |rest| + 1 ==> Encode7(n)[i] == rest[i - 1];
    }
  }

  lemma OneMoreGroup(s: Text, n: nat)
    requires n < |s| && s[0] >= 128
    ensures GoOn(s[1..], n) <==> GoOn(s, n + 1)
    ensures Value7(s[..n + 1]) == s[0] - 128 + 128 * Value7(s[1..][..n])
  {
    assert s[..n + 1][1..] == s[1..][..n];
    assert forall i :: 0 < i < |s| ==> s[i] == s[1..][i - 1];
    if GoOn(s, n + 1) { assert forall i :: 0 <= i < n ==> s[1..][i] == s[i + 1] >= 128; }
  }

  /** The reader, exactly: it takes bytes up to the first without the high bit and gives their number; it runs
      out of range if all there are go on; and it refuses a last byte that would overflow. */
  lemma {:induction false} GroupsExactly(s: Text, free: nat, last: nat)
    requires last < 128
    ensures match Groups(s, free, last)
      case Ok(v, n) =>
        && 0 < n <= |s| && n <= free + 1 && GoOn(s, n - 1) && s[n - 1] < 128
        && (n == free + 1 ==> s[n - 1] <= last) && v == Value7(s[..n])
      case Fail(OutOfRange, n) => n == |s| <= free && GoOn(s, n)
      case Fail(BadFormat, n) => n == free + 1 <= |s| && GoOn(s, free) && s[free] > last
    decreases free
  {
    if s != [] && free > 0 && s[0] >= 128 {
      GroupsExactly(s[1..], free - 1, last);
      var n := Groups(s[1..], free - 1, last).used;
      OneMoreGroup(s, n);
      if n > 0 { OneMoreGroup(s, n - 1); }
      assert forall i :: 0 < i < |s| ==> s[i] == s[1..][i - 1];
    } else if s != [] {
      assert s[..1][1..] == [];
    }
  }

  /** Round trip: what is written is read back, whatever follows, in at most `free + 1` bytes. */
  lemma {:induction false} GroupsRoundTrip(n: nat, free: nat, last: nat, rest: Text)
    requires n < Pow128(free) * (last + 1) && last < 128
    ensures Groups(Encode7(n) + rest, free, last) == Ok(n, |Encode7(n)|)
    ensures |Encode7(n)| <= free + 1
    decreases free
  {
    var s := Encode7(n) + rest;
    if free > 0 && n >= 128 {
      SmallerGroup(n, Pow128(free - 1), last + 1);
      GroupsRoundTrip(n / 128, free - 1, last, rest);
      assert s[1..] == Encode7(n / 128) + rest;
    }
  }

  lemma SmallerGroup(n: nat, p: nat, m: nat)
    requires n < (128 * p) * m
    ensures n / 128 < p * m
  {
    assert (128 * p) * m == 128 * (p * m);
  }

  /** No encoding starts another. */
  lemma {:induction false} PrefixFree(m: nat, n: nat)
    requires Encode7(m) <= Encode7(n)
    ensures m == n
    decreases m
  {
    var a, b := Encode7(m), Encode7(n);
    assert a[0] == b[0];
    if m >= 128 {
      assert n >= 128;
      assert a[1..] == Encode7(m / 128) && b[1..] == Encode7(n / 128);
      assert b[..|a|] == a;
      assert b[1..][..|a| - 1] == a[1..];
      PrefixFree(m / 128, n / 128);
    }
  }

  /** What is read stays within the word. */
  lemma {:induction false} GroupsBound(s: Text, free: nat, last: nat)
    requires Groups(s, free, last).Ok? && last < 128
    ensures var r := Groups(s, free, last);
      r.value < Pow128(free) * (last + 1) && 0 < r.used <= |s| && r.used <= free + 1
    decreases free
  {
    if free > 0 {
      Positive128(free - 1);
      Enough(Pow128(free - 1), last + 1);
      if s[0] >= 128 {
        GroupsBound(s[1..], free - 1, last);
        LargerGroup(s[0] - 128, Groups(s[1..], free - 1, last).value, Pow128(free - 1), last + 1);
      }
    }
  }

  lemma {:induction false} Positive128(k: nat)
    ensures Pow128(k) > 0
  {
    if k > 0 { Positive128(k - 1); }
  }

  lemma Enough(p: nat, m: nat)
    requires p > 0 && m > 0
    ensures (128 * p) * m >= 128
  {
    Grows(p, m);
    assert (128 * p) * m == 128 * (p * m);
  }

  lemma LargerGroup(low: nat, n: nat, p: nat, m: nat)
    requires low < 128 && n < p * m
    ensures low + 128 * n < (128 * p) * m
  {
    assert (128 * p) * m == 128 * (p * m);
  }

  /** Bytes read are the writer's own exactly when they do not end in a superfluous zero group. */
  lemma {:induction false} CanonicalForm(s: Text, free: nat, last: nat)
    requires Groups(s, free, last).Ok? && last < 128
    ensures var r := Groups(s, free, last);
      0 < r.used <= |s| && (Encode7(r.value) == s[..r.used] <==> r.used == 1 || s[r.used - 1] != 0)
    decreases free
  {
    if free > 0 && s[0] >= 128 {
      CanonicalForm(s[1..], free - 1, last);
      var r1 := Groups(s[1..], free - 1, last);
      if r1.value == 0 {
        ZeroGroups(s[1..], free - 1, last);
        OneGroup(s, r1.used);
      } else {
        GroupBefore(s, r1.used, r1.value);
        if r1.used == 1 { OnlyGroup(s[1..], free - 1, last); }
      }
    }
  }

  lemma OneGroup(s: Text, n: nat)
    requires 0 < n < |s| && s[0] >= 128
    ensures Encode7(s[0] - 128) != s[..n + 1]
  {
  }

  lemma GroupBefore(s: Text, n: nat, v: nat)
    requires 0 < n < |s| && s[0] >= 128 && v > 0
    ensures Encode7(s[0] - 128 + 128 * v) == s[..n + 1] <==> Encode7(v) == s[1..][..n]
  {
    GroupDigits(s[0] - 128, v);
    var e := Encode7(s[0] - 128 + 128 * v);
    assert e == [s[0]] + Encode7(v);
    assert s[..n + 1] == [s[0]] + s[1..][..n];
    assert e[1..] == Encode7(v) && s[..n + 1][1..] == s[1..][..n];
  }

  lemma OnlyGroup(s: Text, free: nat, last: nat)
    requires Groups(s, free, last).Ok? && Groups(s, free, last).used == 1 && last < 128
    ensures Groups(s, free, last).value == s[0]
  {
    if free > 0 && s[0] >= 128 { GroupsBound(s[1..], free - 1, last); }
  }

  lemma GroupDigits(low: nat, n: nat)
    requires low < 128
    ensures (low + 128 * n) % 128 == low && (low + 128 * n) / 128 == n
  {
  }

  lemma {:induction false} ZeroGroups(s: Text, free: nat, last: nat)
    requires Groups(s, free, last).Ok? && Groups(s, free, last).value == 0
    ensures 0 < Groups(s, free, last).used <= |s| && s[Groups(s, free, last).used - 1] == 0
    decreases free
  {
    if free > 0 && s[0] >= 128 {
      ZeroGroups(s[1..], free - 1, last);
    }
  }

  /** A loop that has read `i` groups worth `low` stands in front of `r`. */
  function Behind(low: nat, i: nat, r: Got<nat>): Got<nat> {
    match r
    case Ok(v, n) => Ok(low + Pow128(i) * v, n + i)
    case Fail(e, n) => Fail(e, n + i)
  }

  lemma BehindGroup(low: nat, i: nat, s: Text, free: nat, last: nat)
    requires s != [] && free > 0 && s[0] >= 128
    ensures Behind(low, i, Groups(s, free, last)) ==
            Behind(low + Pow128(i) * (s[0] - 128), i + 1, Groups(s[1..], free - 1, last))
  {
    var r := Groups(s[1..], free - 1, last);
    if r.Ok? {
      Regrouped(low, Pow128(i), s[0] - 128, r.value);
    }
  }

  lemma Regrouped(low: nat, p: nat, b: nat, v: nat)
    ensures low + p * (b + 128 * v) == low + p * b + (128 * p) * v
  {
    assert p * (128 * v) == (128 * p) * v;
  }

  // ------------------------------------------------------------ fields

  /** One value on the stream. The size of a `Varint` is as the caller gave it. */
  datatype Field =
    | Ix(v: int, wide: bool)
    | Fixed(n: nat, width: nat)
    | Varint(v: int, size: int)
    | BlobV(data: Text)
    | BlobFx(data: Text, width: nat)

  datatype Kind = KIx(wide: bool) | KFixed(width: nat) | KVarint(size: int) | KBlobV | KBlobFx(width: nat)

  function KindOf(f: Field): Kind {
    match f
    case Ix(_, wide) => KIx(wide)
    case Fixed(_, width) => KFixed(width)
    case Varint(_, size) => KVarint(size)
    case BlobV(_) => KBlobV
    case BlobFx(_, width) => KBlobFx(width)
  }

  function Word(wide: bool): nat { if wide then WORD64 else WORD32 }

  predicate InWord(v: int, wide: bool) { 0 - Word(wide) <= 2 * v < Word(wide) }

  function Free(wide: bool): nat { if wide then 9 else 4 }

  function Last(wide: bool): nat { if wide then 1 else 15 }

  /** `clamp(size, 1, sizeof(int))`. */
  function Clamp(size: int): (r: nat) { if size < 1 then 1 else if size > 4 then 4 else size }

  /** Lengths pass through an `int`. */
  function ToInt(n: nat): int { AsInt32(n % WORD32) }

  lemma ToIntIs(n: nat)
    ensures ToInt(n) <= n && INT_MIN <= ToInt(n) <= INT_MAX
    ensures ToInt(n) == n <==> n <= INT_MAX
    ensures AsUint32(ToInt(n)) == n % WORD32 <= n
  {
  }

  /** The bytes `write_bytes(data, n)` appends. */
  function Piece(data: Text, n: int): Text
    requires n <= |data|
  {
    if n > 0 then data[..n] else []
  }

  /** What the types of the arguments allow. */
  predicate Typed(f: Field) {
    match f
    case Ix(v, wide) => InWord(v, wide)
    case Fixed(n, width) => n < Pow256(width)
    case Varint(v, _) => INT_MIN <= v <= INT_MAX
    case BlobV(_) => true
    case BlobFx(_, width) => 1 <= width <= 4
  }

  predicate KindTyped(k: Kind) { k.KBlobFx? ==> 1 <= k.width <= 4 }

  /** What is written for a field. */
  function Written(f: Field): Text
    requires Typed(f)
  {
    match f
    case Ix(v, wide) => Encode7(AsUnsigned(v, Word(wide)))
    case Fixed(n, width) => ToBig(n, width)
    case Varint(v, size) => ToBig(AsUint32(v), Clamp(size))
    case BlobV(data) => ToIntIs(|data|); Encode7(AsUint32(ToInt(|data|))) + Piece(data, ToInt(|data|))
    case BlobFx(data, width) => ToIntIs(|data|); ToBig(AsUint32(ToInt(|data|)), width) + Piece(data, ToInt(|data|))
  }

  /** The number in the next `size` bytes. */
  function Number(s: Text, size: nat): Got<nat> {
    if size <= |s| then Ok(FromBig(s[..size]), size) else Fail(OutOfRange, 0)
  }

  /** `read_bytes(len)`, after `used` bytes. */
  function Blob(s: Text, used: nat, len: int): Got<Text>
    requires used <= |s|
  {
    if len <= 0 then Ok([], used)
    else if used + len <= |s| then Ok(s[used..used + len], used + len)
    else Fail(OutOfRange, used)
  }

  /** What reading a field of a kind gives. */
  function ReadOne(k: Kind, s: Text): Got<Field>
    requires KindTyped(k)
  {
    match k
    case KIx(wide) =>
      var r := Groups(s, Free(wide), Last(wide));
      if r.Fail? then Fail(r.error, r.used) else
        IxFits(s, wide);
        Ok(Ix(AsSigned(r.value, Word(wide)), wide), r.used)
    case KFixed(width) =>
      var r := Number(s, width);
      if r.Fail? then Fail(r.error, r.used) else Ok(Fixed(r.value, width), r.used)
    case KVarint(size) =>
      var r := Number(s, Clamp(size));
      if r.Fail? then Fail(r.error, r.used) else
        NumberFits(s[..r.used]);
        Ok(Varint(AsInt32(r.value), size), r.used)
    case KBlobV =>
      var r := Groups(s, Free(false), Last(false));
      if r.Fail? then Fail(r.error, r.used) else
        IxFits(s, false);
        var b := Blob(s, r.used, AsInt32(r.value));
        if b.Fail? then Fail(b.error, b.used) else Ok(BlobV(b.value), b.used)
    case KBlobFx(width) =>
      var r := Number(s, width);
      if r.Fail? then Fail(r.error, r.used) else
        NumberFits(s[..r.used]);
        var b := Blob(s, r.used, AsInt32(r.value));
        if b.Fail? then Fail(b.error, b.used) else Ok(BlobFx(b.value, width), b.used)
  }

  /** The number, the length or the blob reaches beyond the data. */
  predicate OutOfReach(k: Kind, s: Text)
    requires KindTyped(k) && !k.KIx? && !k.KBlobV?
  {
    match k
    case KFixed(width) => width > |s|
    case KVarint(size) => (if size < 1 then 1 else if size > 4 then 4 else size) > |s|
    case KBlobFx(width) => width > |s| || (FromBig(s[..width]) <= INT_MAX && width + FromBig(s[..width]) > |s|)
    case _ => false
  }

  /** A number or a blob is refused exactly if it reaches beyond the data. */
  lemma RefusedExactly(k: Kind, s: Text)
    requires KindTyped(k) && !k.KIx? && !k.KBlobV?
    ensures ReadOne(k, s).Fail? <==> OutOfReach(k, s)
    ensures ReadOne(k, s).Fail? ==> ReadOne(k, s).error == OutOfRange
  {
    if k.KBlobFx? && k.width <= |s| { NumberFits(s[..k.width]); }
  }

  /** So is a blob behind a 7-bit length, and one whose length is not accepted. */
  lemma BlobRefusedExactly(s: Text)
    ensures var n := Groups(s, Free(false), Last(false));
      ReadOne(KBlobV, s).Fail? <==> n.Fail? || (n.value <= INT_MAX && n.used + n.value > |s|)
  {
    var n := Groups(s, Free(false), Last(false));
    if n.Ok? {
      IxFits(s, false);
      GroupsBound(s, Free(false), Last(false));
    }
  }

  lemma WordGroups(wide: bool)
    ensures Pow128(Free(wide)) * (Last(wide) + 1) == Word(wide)
  {
    assert Pow128(2) == 16384;
    assert Pow128(4) == 268435456;
    assert Pow128(6) == 4398046511104;
    assert Pow128(8) == 72057594037927936;
    assert Pow128(9) == 9223372036854775808;
  }

  lemma IxFits(s: Text, wide: bool)
    requires Groups(s, Free(wide), Last(wide)).Ok?
    ensures Groups(s, Free(wide), Last(wide)).value < Word(wide) && Groups(s, Free(wide), Last(wide)).used <= |s|
  {
    WordGroups(wide);
    GroupsBound(s, Free(wide), Last(wide));
  }

  lemma NumberFits(s: Text)
    requires |s| <= 4
    ensures FromBig(s) < WORD32
  {
    FromBigBound(s);
    FieldBytes(0);
    MorePower(|s|, 4);
  }

  lemma {:induction false} MorePower(a: nat, b: nat)
    requires a <= b
    ensures Pow256(a) <= Pow256(b)
    decreases b
  {
    if a < b { MorePower(a, b - 1); }
  }

  // ------------------------------------------------------------ round trips

  /** The fields whose value the stream keeps. */
  predicate Faithful(f: Field) {
    match f
    case Ix(_, _) => true
    case Fixed(_, _) => true
    case Varint(v, size) => Clamp(size) == 4 || 0 <= v < Pow256(Clamp(size))
    case BlobV(data) => |data| <= INT_MAX
    case BlobFx(data, width) => |data| <= INT_MAX && |data| < Pow256(width)
  }

  lemma Signs(v: int, w: nat)
    requires 0 - w <= 2 * v < w && w > 0
    ensures AsUnsigned(v, w) < w && AsSigned(AsUnsigned(v, w), w) == v
  {
  }

  lemma IxRoundTrip(v: int, wide: bool, rest: Text)
    requires InWord(v, wide)
    ensures var n := AsUnsigned(v, Word(wide));
      Groups(Encode7(n) + rest, Free(wide), Last(wide)) == Ok(n, |Encode7(n)|) && |Encode7(n)| <= Free(wide) + 1
      && n < Word(wide) && AsSigned(n, Word(wide)) == v
  {
    WordGroups(wide);
    Signs(v, Word(wide));
    GroupsRoundTrip(AsUnsigned(v, Word(wide)), Free(wide), Last(wide), rest);
  }

  /** Reading back the low bytes of a number. */
  lemma {:induction false} LowBytes(n: nat, k: nat)
    ensures Pow256(k) > 0 && FromBig(ToBig(n, k)) == n % Pow256(k)
  {
    Pow256Positive(k);
    if k == 0 {
      RemainderByOne(n);
    } else {
      LowBytes(n / 256, k - 1);
      assert ToBig(n, k)[..k - 1] == ToBig(n / 256, k - 1);
      Remainder(n, Pow256(k - 1));
    }
  }

  lemma RemainderByOne(n: nat)
    ensures n % 1 == 0
  {
  }

  lemma Remainder(n: nat, p: nat)
    requires p > 0
    ensures n % (256 * p) == 256 * (n / 256 % p) + n % 256
  {
    var q, r := n / 256 / p, n / 256 % p;
    assert n / 256 == p * q + r;
    assert n == (256 * p) * q + (256 * r + n % 256);
    Bits.ModUnique(n, 256 * p, q, 256 * r + n % 256);
  }

  lemma NumberBack(n: nat, k: nat, rest: Text)
    ensures Pow256(k) > 0 && Number(ToBig(n, k) + rest, k) == Ok(n % Pow256(k), k)
  {
    LowBytes(n, k);
    assert (ToBig(n, k) + rest)[..k] == ToBig(n, k);
  }

  lemma SmallRemainder(n: nat, p: nat)
    requires p > 0
    ensures n % p == n <==> n < p
    ensures n % p <= n && n % p < p
  {
    if n < p { Bits.ModUnique(n, p, 0, n); }
    Less(n, p);
  }

  lemma Less(n: nat, p: nat)
    requires p > 0
    ensures n % p <= n
  {
    var q := n / p;
    assert n == p * q + n % p;
    assert p * q >= 0;
  }

  /** A sized integer is read back exactly when it is stored in 4 bytes or fits its bytes. */
  lemma VarintRoundTrip(v: int, size: int, rest: Text)
    requires INT_MIN <= v <= INT_MAX
    ensures var f := Varint(v, size);
      ReadOne(KVarint(size), Written(f) + rest) == Ok(f, |Written(f)|) <==> Faithful(f)
  {
    var k, n := Clamp(size), AsUint32(v);
    NumberBack(n, k, rest);
    FieldBytes(0);
    SmallRemainder(n, Pow256(k));
    if k < 4 { Widths(k); }
    assert AsInt32(AsUint32(v)) == v;
    var s := Written(Varint(v, size)) + rest;
    assert s[..k] == ToBig(n, k);
  }

  lemma Widths(k: nat)
    requires 1 <= k <= 3
    ensures Pow256(k) <= 0x100_0000
  {
    assert Pow256(1) == 256 && Pow256(2) == 65536 && Pow256(3) == 16777216;
  }

  lemma BlobBack(head: Text, data: Text, n: int, rest: Text)
    requires n <= |data|
    ensures Blob(head + Piece(data, n) + rest, |head|, n) ==
            if n <= 0 then Ok([], |head|) else Ok(data[..n], |head| + n)
  {
    var s := head + Piece(data, n) + rest;
    if n > 0 { assert s[|head|..|head| + n] == data[..n]; }
  }

  /** A blob behind a 7-bit length is read back exactly when its length is an `int`. */
  lemma BlobVRoundTrip(data: Text, rest: Text)
    ensures var f := BlobV(data);
      ReadOne(KBlobV, Written(f) + rest) == Ok(f, |Written(f)|) <==> Faithful(f)
  {
    var n := ToInt(|data|);
    ToIntIs(|data|);
    var head := Encode7(AsUint32(n));
    IxRoundTrip(n, false, Piece(data, n) + rest);
    assert Written(BlobV(data)) + rest == head + (Piece(data, n) + rest) == head + Piece(data, n) + rest;
    BlobBack(head, data, n, rest);
    if n > 0 { assert data[..n] == data <==> n == |data|; }
  }

  /** A blob behind a fixed length is read back exactly when the length fits its bytes and an `int`. */
  lemma BlobFxRoundTrip(data: Text, width: nat, rest: Text)
    requires 1 <= width <= 4
    ensures var f := BlobFx(data, width);
      ReadOne(KBlobFx(width), Written(f) + rest) == Ok(f, |Written(f)|) <==> Faithful(f)
  {
    var n := ToInt(|data|);
    ToIntIs(|data|);
    var m := AsUint32(n);
    var head := ToBig(m, width);
    FixedLength(|data|, width);
    NumberBack(m, width, Piece(data, n) + rest);
    HeadOf(head, Piece(data, n), rest);
    BlobLength(head, data, n, rest, AsInt32(m % Pow256(width)));
  }

  /** Only lengths that fit are read as themselves. */
  predicate LengthRead(size: nat, width: nat, len: int) {
    && len <= size && (len == size ==> ToInt(size) == size)
    && ((len == size || (size == 0 && len <= 0)) <==> size <= INT_MAX && size < Pow256(width))
  }

  /** What is read for a length stored in `width` bytes. */
  lemma FixedLength(size: nat, width: nat)
    requires 1 <= width <= 4
    ensures Pow256(width) > 0 && AsUint32(ToInt(size)) % Pow256(width) < WORD32
    ensures LengthRead(size, width, AsInt32(AsUint32(ToInt(size)) % Pow256(width)))
  {
    ToIntIs(size);
    var m := AsUint32(ToInt(size));
    Pow256Positive(width);
    SmallRemainder(m, Pow256(width));
    FieldBytes(0);
    MorePower(width, 4);
  }

  lemma HeadOf(head: Text, piece: Text, rest: Text)
    ensures head + piece + rest == head + (piece + rest) && (head + piece + rest)[..|head|] == head
  {
  }

  /** Reading as many bytes as the data has gives the data; any other length does not. */
  lemma BlobLength(head: Text, data: Text, n: int, rest: Text, len: int)
    requires n <= |data| && len <= |data| && (len == |data| ==> n == |data|)
    ensures Blob(head + Piece(data, n) + rest, |head|, len) == Ok(data, |head| + |Piece(data, n)|) <==>
            len == |data| || (data == [] && len <= 0)
  {
    if len == |data| { BlobBack(head, data, n, rest); assert data[..|data|] == data; }
  }

  /** Every field is read back, whatever follows it, exactly when it is faithful. */
  lemma FieldRoundTrip(f: Field, rest: Text)
    requires Typed(f)
    ensures ReadOne(KindOf(f), Written(f) + rest) == Ok(f, |Written(f)|) <==> Faithful(f)
  {
    match f
    case Ix(v, wide) => IxRoundTrip(v, wide, rest);
    case Fixed(n, width) =>
      NumberBack(n, width, rest);
      SmallRemainder(n, Pow256(width));
    case Varint(v, size) => VarintRoundTrip(v, size, rest);
    case BlobV(data) => BlobVRoundTrip(data, rest);
    case BlobFx(data, width) => BlobFxRoundTrip(data, width, rest);
  }

  /** A negative number in fewer than 4 bytes comes back as another one. */
  lemma NegativeIsLost() returns (f: Field)
    ensures Typed(f) && ReadOne(KindOf(f), Written(f)) != Ok(f, |Written(f)|)
  {
    f := Varint(-1, 1);
    FieldRoundTrip(f, []);
    assert Written(f) + [] == Written(f);
  }

  /** The reader takes two bytes for the number the writer stores in one. */
  lemma TwoBytesForZero() returns (s: Text)
    ensures Groups(s, Free(false), Last(false)) == Ok(0, 2) && Encode7(0) != s
  {
    s := [128, 0];
    assert s[1..] == [0];
  }

  ghost predicate AllTyped(fs: seq<Field>) { forall i :: 0 <= i < |fs| ==> Typed(fs[i]) }

  function WrittenAll(fs: seq<Field>): Text
    requires AllTyped(fs)
  {
    if fs == [] then [] else Written(fs[0]) + WrittenAll(fs[1..])
  }

  function KindsOf(fs: seq<Field>): seq<Kind> { seq(|fs|, i requires 0 <= i < |fs| => KindOf(fs[i])) }

  ghost predicate KindsTyped(ks: seq<Kind>) { forall i :: 0 <= i < |ks| ==> KindTyped(ks[i]) }

  /** Reading one field after the other. */
  function ReadAll(ks: seq<Kind>, s: Text): Got<seq<Field>>
    requires KindsTyped(ks)
  {
    if ks == [] then Ok([], 0)
    else
      var r := ReadOne(ks[0], s);
      if r.Fail? then Fail(r.error, r.used)
      else if r.used > |s| then Fail(OutOfRange, 0)
      else
        var more := ReadAll(ks[1..], s[r.used..]);
        if more.Fail? then Fail(more.error, r.used + more.used) else Ok([r.value] + more.value, r.used + more.used)
  }

  /** Any sequence of faithful fields is read back unchanged, up to the last byte and no further. */
  lemma {:induction false} StreamRoundTrip(fs: seq<Field>, rest: Text)
    requires AllTyped(fs) && forall i :: 0 <= i < |fs| ==> Faithful(fs[i])
    ensures KindsTyped(KindsOf(fs))
    ensures ReadAll(KindsOf(fs), WrittenAll(fs) + rest) == Ok(fs, |WrittenAll(fs)|)
  {
    if fs == [] {
    } else {
      var head, tail := Written(fs[0]), WrittenAll(fs[1..]);
      StreamRoundTrip(fs[1..], rest);
      FieldRoundTrip(fs[0], tail + rest);
      Associative(head, tail, rest);
      FirstKind(fs);
      ReadNext(KindOf(fs[0]), fs[0], KindsOf(fs[1..]), fs[1..], head, tail + rest, |tail|);
      assert fs == [fs[0]] + fs[1..];
    }
  }

  lemma FirstKind(fs: seq<Field>)
    requires fs != [] && AllTyped(fs)
    ensures KindsOf(fs) == [KindOf(fs[0])] + KindsOf(fs[1..]) && KindTyped(KindOf(fs[0]))
  {
  }

  lemma ReadNext(k: Kind, f: Field, ks: seq<Kind>, fs: seq<Field>, head: Text, more: Text, n: nat)
    requires KindTyped(k) && KindsTyped(ks)
    requires ReadOne(k, head + more) == Ok(f, |head|) && ReadAll(ks, more) == Ok(fs, n)
    ensures KindsTyped([k] + ks) && ReadAll([k] + ks, head + more) == Ok([f] + fs, |head| + n)
  {
    assert ([k] + ks)[1..] == ks && (head + more)[|head|..] == more;
  }
}
