/** Bytes, byte strings, and integers stored in bytes. */
module Bytes {
  import Bits
  import opened Sequences

  type Byte = n: nat | n < 256

  type Text = seq<Byte>

  function Pow256(k: nat): (r: nat)
    ensures r > 0
  {
    if k == 0 then 1 else 256 * Pow256(k - 1)
  }

  /** The number whose bytes are s, the most significant first. */
  function FromBig(s: Text): nat {
    if s == [] then 0 else 256 * FromBig(s[..|s| - 1]) + s[|s| - 1]
  }

  /** The number whose bytes are s, the least significant first. */
  function FromLittle(s: Text): nat {
    if s == [] then 0 else s[0] + 256 * FromLittle(s[1..])
  }

  /** The low k bytes of n, the most significant first. */
  function ToBig(n: nat, k: nat): (s: Text)
    ensures |s| == k
  {
    if k == 0 then [] else ToBig(n / 256, k - 1) + [n % 256]
  }

  function ToLittle(n: nat, k: nat): (s: Text)
    ensures |s| == k
  {
    if k == 0 then [] else [n % 256] + ToLittle(n / 256, k - 1)
  }

  /** Each byte is the digit of its place, the most significant first. */
  ghost predicate IsBig(s: Text, n: nat) {
    forall i :: 0 <= i < |s| ==> s[i] == n / Pow256(|s| - 1 - i) % 256
  }

  lemma BigDigits(n: nat, k: nat)
    ensures IsBig(ToBig(n, k), n)
  {
    forall i | 0 <= i < k ensures ToBig(n, k)[i] == n / Pow256(k - 1 - i) % 256 { BigDigitAt(n, k, i); }
  }

  lemma {:induction false} BigDigitAt(n: nat, k: nat, i: nat)
    requires i < k
    ensures ToBig(n, k)[i] == n / Pow256(k - 1 - i) % 256
    decreases k
  {
    if i < k - 1 {
      BigDigitAt(n / 256, k - 1, i);
      HigherDigit(n, k - 1 - i);
    }
  }

  lemma HigherDigit(n: nat, j: nat)
    requires j > 0
    ensures n / 256 / Pow256(j - 1) == n / Pow256(j)
  {
    var p, m := Pow256(j - 1), n / 256;
    var q, r := m / p, m % p;
    assert m == p * q + r && n == 256 * m + n % 256;
    assert 256 * (p * q) == (256 * p) * q;
    Bits.ModUnique(n, 256 * p, q, 256 * r + n % 256);
  }

  lemma {:induction false} LittleDigitAt(n: nat, k: nat, i: nat)
    requires i < k
    ensures ToLittle(n, k)[i] == n / Pow256(i) % 256
    decreases k
  {
    if i > 0 {
      LittleDigitAt(n / 256, k - 1, i - 1);
      HigherDigit(n, i);
    }
  }

  lemma {:induction false} BigRoundTrip(n: nat, k: nat)
    requires n < Pow256(k)
    ensures FromBig(ToBig(n, k)) == n
  {
    if k > 0 {
      BigRoundTrip(n / 256, k - 1);
      assert ToBig(n, k)[..k - 1] == ToBig(n / 256, k - 1);
    }
  }

  lemma {:induction false} LittleRoundTrip(n: nat, k: nat)
    requires n < Pow256(k)
    ensures FromLittle(ToLittle(n, k)) == n
  {
    if k > 0 {
      LittleRoundTrip(n / 256, k - 1);
      assert ToLittle(n, k)[1..] == ToLittle(n / 256, k - 1);
    }
  }

  lemma {:induction false} FromBigBound(s: Text)
    ensures FromBig(s) < Pow256(|s|)
  {
    if s != [] { FromBigBound(s[..|s| - 1]); }
  }

  lemma {:induction false} FromLittleBound(s: Text)
    ensures FromLittle(s) < Pow256(|s|)
  {
    if s != [] { FromLittleBound(s[1..]); }
  }

  lemma {:induction false} BigInverse(s: Text)
    ensures ToBig(FromBig(s), |s|) == s
  {
    if s != [] {
      BigInverse(s[..|s| - 1]);
      assert s == s[..|s| - 1] + [s[|s| - 1]];
    }
  }

  /** Storing a byte string the other way round reverses the number's byte order. */
  function Reverse(s: Text): (r: Text)
    ensures |r| == |s|
  {
    if s == [] then [] else Reverse(s[1..]) + [s[0]]
  }

  lemma {:induction false} ReversedIsBig(s: Text)
    ensures FromBig(Reverse(s)) == FromLittle(s)
  {
    if s != [] {
      ReversedIsBig(s[1..]);
      assert Reverse(s)[..|s| - 1] == Reverse(s[1..]);
    }
  }

  const INT_MIN: int := -0x8000_0000
  const INT_MAX: int := 0x7FFF_FFFF

  /** An unsigned value of a word with w values read as a signed one, and back. */
  function AsSigned(n: nat, w: nat): int
    requires n < w
  {
    if 2 * n < w then n else n - w
  }

  function AsUnsigned(v: int, w: nat): nat
    requires 0 - w <= 2 * v < w
  {
    if v >= 0 then v else v + w
  }

  const WORD32: nat := 0x1_0000_0000

  function AsInt32(n: nat): int
    requires n < WORD32
  {
    AsSigned(n, WORD32)
  }

  function AsUint32(v: int): nat
    requires INT_MIN <= v <= INT_MAX
  {
    AsUnsigned(v, WORD32)
  }

  function Concat(ss: seq<Text>): Text {
    if ss == [] then [] else ss[0] + Concat(ss[1..])
  }

  lemma {:induction false} ConcatAppend(a: seq<Text>, b: seq<Text>)
    ensures Concat(a + b) == Concat(a) + Concat(b)
  {
    if a == [] {
      assert a + b == b;
    } else {
      ConcatAppend(a[1..], b);
      ConcatHead(a[0], a[1..] + b);
      assert [a[0]] + (a[1..] + b) == a + b;
      Associative(a[0], Concat(a[1..]), Concat(b));
    }
  }

  lemma ConcatHead(s: Text, rest: seq<Text>)
    ensures Concat([s] + rest) == s + Concat(rest)
  {
    assert ([s] + rest)[1..] == rest;
  }
}
