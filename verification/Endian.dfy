/** Byte order on a little-endian machine: an integer of k bytes lies in memory as `ToLittle(n, k)`. */
module Endian {
  import opened Bytes
  import Bits

  /** The byte swap of a k-byte integer, as seen in memory: its bytes the other way round. */
  function Swap(n: nat, k: nat): (r: nat)
    ensures r < Pow256(k)
  {
    FromLittleBound(ToBig(n, k));
    FromLittle(ToBig(n, k))
  }

  lemma {:induction false} LittleInverse(s: Text)
    ensures ToLittle(FromLittle(s), |s|) == s
  {
    if s != [] {
      LittleInverse(s[1..]);
      assert s == [s[0]] + s[1..];
    }
  }

  /** A swapped integer lies in memory most significant byte first. */
  lemma SwappedInMemory(n: nat, k: nat)
    ensures ToLittle(Swap(n, k), k) == ToBig(n, k)
  {
    LittleInverse(ToBig(n, k));
  }

  /** Swapping what was read from memory gives the number stored most significant byte first. */
  lemma SwapReads(s: Text)
    ensures Swap(FromLittle(s), |s|) == FromBig(s)
  {
    ReverseBig(s);
    ReverseTwice(s);
    ReversedIsBig(Reverse(s));
  }

  lemma {:induction false} ReverseBig(s: Text)
    ensures ToBig(FromLittle(s), |s|) == Reverse(s)
  {
    if s != [] {
      ReverseBig(s[1..]);
    }
  }

  lemma {:induction false} ReverseAppend(s: Text, b: Byte)
    ensures Reverse(s + [b]) == [b] + Reverse(s)
  {
    if s == [] {
      assert s + [b] == [b] && Reverse([b]) == [b];
    } else {
      ReverseAppend(s[1..], b);
      assert (s + [b])[1..] == s[1..] + [b];
    }
  }

  lemma {:induction false} ReverseTwice(s: Text)
    ensures Reverse(Reverse(s)) == s
  {
    if s != [] {
      ReverseTwice(s[1..]);
      ReverseAppend(Reverse(s[1..]), s[0]);
    }
  }

  /** Swapping twice changes nothing: `from` undoes `to`. */
  lemma SwapTwice(n: nat, k: nat)
    requires n < Pow256(k)
    ensures Swap(Swap(n, k), k) == n
  {
    SwapReads(ToBig(n, k));
    BigRoundTrip(n, k);
  }

  // ------------------------------------------------------------ integers of 1 to 4 bytes

  const INT_SIZE: nat := 4

  /** `host_to_network(int, int)` and `network_to_host(int, int)`: swap, then drop the low bytes. */
  function SwapSized(value: int, size: nat): int
    requires INT_MIN <= value <= INT_MAX && size <= INT_SIZE
  {
    FieldBytes(0);
    Pow256Positive(INT_SIZE - size);
    var netval := Swap(AsUint32(value), INT_SIZE);
    ShiftedBound(netval, INT_SIZE - size);
    AsInt32(if size < INT_SIZE then netval / Pow256(INT_SIZE - size) else netval)
  }

  lemma FieldBytes(k: nat)
    ensures Pow256(4) == 0x1_0000_0000
    ensures Pow256(k + 1) == 256 * Pow256(k)
  {
    assert Pow256(2) == 65536;
  }

  lemma {:induction false} Pow256Positive(k: nat)
    ensures Pow256(k) > 0
  {
    if k > 0 { Pow256Positive(k - 1); }
  }

  lemma ShiftedBound(n: nat, k: nat)
    requires Pow256(k) > 0
    ensures n / Pow256(k) <= n
  {
    Quotient(n, Pow256(k));
  }

  lemma Quotient(n: nat, d: nat)
    requires d > 0
    ensures n / d <= n
  {
    if n / d > n {
      assert d * (n / d) >= n / d by { Grows(d, n / d); }
    }
  }

  lemma Grows(d: nat, q: nat)
    requires d > 0
    ensures d * q >= q
  {
  }

  /** Dropping the low k bytes of a number in memory drops its first k bytes. */
  lemma {:induction false} DropLow(s: Text, k: nat)
    requires k <= |s|
    ensures Pow256(k) > 0 && FromLittle(s) / Pow256(k) == FromLittle(s[k..])
  {
    Pow256Positive(k);
    if k == 0 {
      assert s[0..] == s;
    } else {
      DropLow(s[1..], k - 1);
      assert s[1..][k - 1..] == s[k..];
      DivideTwice(s[0], FromLittle(s[1..]), Pow256(k - 1));
    }
  }

  lemma DivideTwice(b: Byte, n: nat, d: nat)
    requires d > 0
    ensures (b + 256 * n) / (256 * d) == n / d
  {
    var q, r := n / d, n % d;
    assert n == d * q + r;
    Bits.ModUnique(b + 256 * n, 256 * d, q, b + 256 * r);
  }

  lemma {:induction false} BigTail(n: nat, k: nat, j: nat)
    requires j <= k
    ensures ToBig(n, k)[k - j..] == ToBig(n, j)
    decreases j
  {
    if j > 0 {
      BigTail(n / 256, k - 1, j - 1);
    }
  }

  lemma {:induction false} LittleHead(n: nat, k: nat, j: nat)
    requires j <= k
    ensures ToLittle(n, k)[..j] == ToLittle(n, j)
    decreases j
  {
    if j > 0 {
      LittleHead(n / 256, k - 1, j - 1);
    }
  }

  /** The bytes `write_varint` copies are the low bytes of the value, most significant first. */
  lemma SizedToNetwork(value: int, size: nat)
    requires INT_MIN <= value <= INT_MAX && 1 <= size <= INT_SIZE
    ensures ToLittle(AsUint32(SwapSized(value, size)), size) == ToBig(AsUint32(value), size)
  {
    var n := AsUint32(value);
    var s := ToBig(n, INT_SIZE);
    FieldBytes(0);
    BigTail(n, INT_SIZE, size);
    DropLow(s, INT_SIZE - size);
    assert Pow256(INT_SIZE - size) == 1 || size < INT_SIZE;
    assert size == INT_SIZE ==> s[0..] == s;
    LittleInverse(s[INT_SIZE - size..]);
  }

  lemma {:induction false} LittleZeros(s: Text, k: nat)
    ensures FromLittle(s + seq(k, _ => 0)) == FromLittle(s)
  {
    if s == [] {
      assert s + seq(k, _ => 0) == seq(k, _ => 0);
      NoLittle(k);
    } else {
      LittleZeros(s[1..], k);
      assert (s + seq(k, _ => 0))[1..] == s[1..] + seq(k, _ => 0);
    }
  }

  lemma {:induction false} NoLittle(k: nat)
    ensures FromLittle(seq(k, _ => 0)) == 0
  {
    if k > 0 {
      NoLittle(k - 1);
      assert seq(k, _ => 0)[1..] == seq(k - 1, _ => 0);
    }
  }

  lemma {:induction false} BigZeros(s: Text, k: nat)
    ensures FromBig(s + seq(k, _ => 0)) == FromBig(s) * Pow256(k)
  {
    if k == 0 {
      assert s + seq(k, _ => 0) == s;
    } else {
      BigZeros(s, k - 1);
      var t := s + seq(k, _ => 0);
      assert t[..|t| - 1] == s + seq(k - 1, _ => 0);
      Spread(FromBig(s), Pow256(k - 1));
    }
  }

  lemma Spread(a: nat, b: nat)
    ensures 256 * (a * b) == a * (256 * b)
  {
  }

  lemma Cancel(a: nat, d: nat)
    requires d > 0
    ensures (a * d) / d == a
  {
    Bits.ModUnique(a * d, d, a, 0);
  }

  lemma SwapAndDrop(s: Text, k: nat)
    ensures Pow256(k) > 0 && FromLittle(s) < Pow256(|s| + k) && FromBig(s) < Pow256(|s| + k)
    ensures Swap(FromLittle(s), |s| + k) / Pow256(k) == FromBig(s)
  {
    var whole := Widened(s, k);
    Pow256Positive(k);
    SwapReads(whole);
    FromBigBound(whole);
    FromLittleBound(whole);
    Cancel(FromBig(s), Pow256(k));
    SmallerFactor(FromBig(s), Pow256(k), Pow256(|whole|));
  }

  lemma Widened(s: Text, k: nat) returns (whole: Text)
    ensures |whole| == |s| + k && FromLittle(whole) == FromLittle(s) && FromBig(whole) == FromBig(s) * Pow256(k)
  {
    LittleZeros(s, k);
    BigZeros(s, k);
    whole := s + seq(k, _ => 0);
  }

  lemma SmallerFactor(b: nat, d: nat, w: nat)
    requires d > 0 && b * d < w
    ensures b < w
  {
  }

  lemma DivideByOne(n: nat)
    ensures n / 1 == n
  {
  }

  /** What `read_varint` and the length decoder get from `size` bytes copied into a zeroed int. */
  lemma SizedFromNetwork(s: Text, size: nat)
    requires 1 <= |s| == size <= INT_SIZE
    ensures Pow256(INT_SIZE) == 0x1_0000_0000
    ensures FromLittle(s) < Pow256(INT_SIZE) && FromBig(s) < Pow256(INT_SIZE)
    ensures SwapSized(AsInt32(FromLittle(s)), size) == AsInt32(FromBig(s))
  {
    FieldBytes(0);
    SwapAndDrop(s, INT_SIZE - size);
    Unsigned(FromLittle(s));
    if size == INT_SIZE { DivideByOne(Swap(FromLittle(s), INT_SIZE)); }
  }

  lemma Unsigned(n: nat)
    requires n < 0x1_0000_0000
    ensures AsUint32(AsInt32(n)) == n
  {
  }
}
