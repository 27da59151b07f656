/** Bitwise operators on naturals, and powers of two. */
module Bits {
  function And(x: nat, y: nat): nat
    decreases x
  {
    if x == 0 || y == 0 then 0 else 2 * And(x / 2, y / 2) + (x % 2) * (y % 2)
  }

  predicate IsPow2(n: nat) {
    n == 1 || (n > 1 && n % 2 == 0 && IsPow2(n / 2))
  }

  /** For a power of two, masking with n - 1 is the remainder modulo n. */
  lemma {:induction false} MaskIsMod(x: nat, n: nat)
    requires IsPow2(n)
    ensures And(x, n - 1) == x % n
    decreases n
  {
    if n == 1 {
    } else if x == 0 {
    } else {
      var m := n / 2;
      MaskIsMod(x / 2, m);
      assert (n - 1) / 2 == m - 1 && (n - 1) % 2 == 1;
      ModTwice(x, m);
    }
  }

  /** Advancing a slot index with a size mask wraps it to 0 at the end. */
  lemma MaskIsWrap(i: nat, n: nat)
    requires IsPow2(n) && i < n
    ensures And(i + 1, n - 1) == if i + 1 == n then 0 else i + 1
  {
    MaskIsMod(i + 1, n);
    ModUnique(i + 1, n, if i + 1 == n then 1 else 0, if i + 1 == n then 0 else i + 1);
  }

  lemma ModTwice(x: nat, m: nat)
    requires m > 0
    ensures x % (2 * m) == 2 * ((x / 2) % m) + x % 2
    ensures x / (2 * m) == x / 2 / m
  {
    var q, r := (x / 2) / m, (x / 2) % m;
    assert x / 2 == q * m + r;
    assert x == (2 * m) * q + (2 * r + x % 2);
    ModUnique(x, 2 * m, q, 2 * r + x % 2);
  }

  lemma ModUnique(x: int, n: int, q: int, r: int)
    requires 0 <= r < n && x == n * q + r
    ensures x % n == r && x / n == q
  {
    var d := q - x / n;
    assert n * d == x % n - r by { assert x == n * (x / n) + x % n; }
    if d >= 1 { MulGrows(n, d); }
    if d <= -1 { MulGrows(n, -d); }
  }

  lemma MulGrows(n: int, d: int)
    requires n > 0 && d >= 1
    ensures n * d >= n
  {
  }
  /** The least power of two not below x. */
  function CeilToPow2(x: nat): (r: nat)
    requires x > 0
    ensures IsPow2(r) && x <= r < 2 * x
    ensures forall p: nat {:trigger IsPow2(p)} :: IsPow2(p) && x <= p ==> r <= p
  {
    if x == 1 then 1
    else
      var r := 2 * CeilToPow2((x + 1) / 2);
      assert forall p: nat {:trigger IsPow2(p)} :: IsPow2(p) && x <= p ==> r <= p by {
        forall p: nat | IsPow2(p) && x <= p ensures r <= p { assert IsPow2(p / 2) && (x + 1) / 2 <= p / 2; }
      }
      r
  }


  // ------------------------------------------------------------ rounding up by smearing bits

  function Or(x: nat, y: nat): nat
    decreases x + y
  {
    if x == 0 then y else if y == 0 then x
    else 2 * Or(x / 2, y / 2) + (if x % 2 == 1 || y % 2 == 1 then 1 else 0)
  }

  function Shr(x: nat, n: nat): nat { if n == 0 then x else Shr(x / 2, n - 1) }

  function Bit(x: nat, i: nat): bool { if i == 0 then x % 2 == 1 else Bit(x / 2, i - 1) }

  function Pow2(k: nat): (r: nat)
    ensures r > 0
  {
    if k == 0 then 1 else 2 * Pow2(k - 1)
  }

  lemma {:induction false} OrBit(x: nat, y: nat, i: nat)
    ensures Bit(Or(x, y), i) == (Bit(x, i) || Bit(y, i))
    decreases i
  {
    ZeroBit(i);
    if x > 0 && y > 0 && i > 0 { OrBit(x / 2, y / 2, i - 1); }
  }

  lemma {:induction false} ZeroBit(i: nat)
    ensures !Bit(0, i)
  {
    if i > 0 { ZeroBit(i - 1); }
  }

  lemma {:induction false} ShrBit(x: nat, n: nat, i: nat)
    ensures Bit(Shr(x, n), i) == Bit(x, i + n)
    decreases n
  {
    if n > 0 { ShrBit(x / 2, n - 1, i); }
  }

  /** x has exactly k bits, the upper s of them set. */
  ghost predicate TopOnes(x: nat, k: nat, s: nat) {
    && (forall i :: i >= k ==> !Bit(x, i))
    && (forall i :: 0 <= i < k && i + s >= k ==> Bit(x, i))
  }

  /** One smearing step doubles the run of ones at the top. */
  lemma Smear(x: nat, k: nat, s: nat)
    requires TopOnes(x, k, s)
    ensures TopOnes(Or(x, Shr(x, s)), k, 2 * s)
  {
    var y := Or(x, Shr(x, s));
    forall i: nat
      ensures i >= k ==> !Bit(y, i)
      ensures i < k && i + 2 * s >= k ==> Bit(y, i)
    {
      OrBit(x, Shr(x, s), i);
      ShrBit(x, s, i);
      var j := i + s;
      assert j >= k ==> !Bit(x, j);
      assert j < k && j + s >= k ==> Bit(x, j);
    }
  }

  lemma {:induction false} AllOnes(x: nat, k: nat, s: nat)
    requires TopOnes(x, k, s) && k <= s
    ensures x + 1 == Pow2(k)
    decreases k
  {
    if k == 0 {
      NoBits(x);
    } else {
      assert Bit(x, 0);
      forall i | i >= k - 1 ensures !Bit(x / 2, i) { assert !Bit(x, i + 1); }
      forall i | 0 <= i < k - 1 ensures Bit(x / 2, i) { assert Bit(x, i + 1); }
      AllOnes(x / 2, k - 1, s);
    }
  }

  lemma {:induction false} NoBits(x: nat)
    requires forall i :: i >= 0 ==> !Bit(x, i)
    ensures x == 0
  {
    if x > 0 {
      assert !Bit(x, 0);
      forall i | i >= 0 ensures !Bit(x / 2, i) { assert !Bit(x, i + 1); }
      NoBits(x / 2);
    }
  }

  /** Every number has a highest set bit. */
  lemma {:induction false} BitLength(x: nat) returns (k: nat)
    ensures TopOnes(x, k, 1) && x < Pow2(k) && (if x > 0 then k > 0 && Pow2(k - 1) <= x else k == 0)
  {
    if x == 0 {
      k := 0;
      forall i | i >= 0 ensures !Bit(0, i) { ZeroBit(i); }
    } else {
      var h := BitLength(x / 2);
      k := h + 1;
      forall i | i >= k ensures !Bit(x, i) { assert !Bit(x / 2, i - 1); }
      if h > 0 { assert Bit(x / 2, h - 1); }
    }
  }

  lemma {:induction false} Pow2Monotone(a: nat, b: nat)
    requires a <= b
    ensures Pow2(a) <= Pow2(b) && IsPow2(Pow2(a)) && Pow2(a) > 0
  {
    if a > 0 { Pow2Monotone(a - 1, b - 1); assert Pow2(a) / 2 == Pow2(a - 1); }
    else if b > 0 { Pow2Monotone(a, b - 1); }
  }

  /** A power of two above 2^k is at least 2^(k+1). */
  lemma {:induction false} Pow2Gap(p: nat, k: nat)
    requires IsPow2(p) && p > Pow2(k)
    ensures p >= Pow2(k + 1)
    decreases k
  {
    Pow2Monotone(k, k);
    if k > 0 { Pow2Gap(p / 2, k - 1); }
  }

  const WORD: nat := 0x1_0000_0000_0000_0000

  /** `ceilToPow2` on a 64-bit word: the least power of two not below x, or 0 where there is none. */
  method CeilToPow2Word(x: nat) returns (r: nat)
    requires x < WORD
    ensures r == if 0 < x <= WORD / 2 then CeilToPow2(x) else 0
  {
    var v: nat := if x == 0 then WORD - 1 else x - 1;
    ghost var v0: nat := v;
    ghost var k: nat := BitLength(v0);
    Smear(v, k, 1);
    v := Or(v, Shr(v, 1));
    Smear(v, k, 2);
    v := Or(v, Shr(v, 2));
    Smear(v, k, 4);
    v := Or(v, Shr(v, 4));
    var i: nat := 1;
    while i < 8
      invariant i == 1 || i == 2 || i == 4 || i == 8
      invariant TopOnes(v, k, 8 * i)
      decreases 8 - i
    {
      Smear(v, k, 8 * i);
      v := Or(v, Shr(v, 8 * i));
      i := i * 2;
    }
    r := (v + 1) % WORD;
    Smeared(v0, v, k);
  }

  lemma Smeared(v0: nat, v: nat, k: nat)
    requires v0 < WORD && TopOnes(v, k, 64) && v0 < Pow2(k) && (v0 > 0 ==> k > 0 && Pow2(k - 1) <= v0)
    requires v0 == 0 ==> k == 0
    ensures (v + 1) % WORD == if v0 + 1 <= WORD / 2 then CeilToPow2(v0 + 1) else 0
  {
    Pow2Of64();
    if k > 64 { Pow2Monotone(64, k - 1); }
    AllOnes(v, k, 64);
    if k < 64 {
      Pow2Monotone(k, 63);
      SmearedSmall(v0, v, k);
    }
  }

  lemma SmearedSmall(v0: nat, v: nat, k: nat)
    requires v + 1 == Pow2(k) && Pow2(k) <= WORD / 2 && v0 < Pow2(k) && (v0 > 0 ==> k > 0 && Pow2(k - 1) <= v0)
    requires v0 == 0 ==> k == 0
    ensures (v + 1) % WORD == CeilToPow2(v0 + 1)
  {
    if v0 > 0 { RoundedUp(v0 + 1, k); }
  }

  lemma Pow2Of64()
    ensures Pow2(64) == WORD && Pow2(63) == WORD / 2
  {
    assert Pow2(4) == 16;
    Pow2Add(4, 4);
    Pow2Add(8, 8);
    Pow2Add(16, 16);
    Pow2Add(32, 32);
  }

  lemma {:induction false} Pow2Add(a: nat, b: nat)
    ensures Pow2(a + b) == Pow2(a) * Pow2(b)
  {
    if a > 0 {
      Pow2Add(a - 1, b);
      Twice(Pow2(a - 1), Pow2(b));
    }
  }

  lemma Twice(p: nat, q: nat)
    ensures (2 * p) * q == 2 * (p * q)
  {
  }

  lemma RoundedUp(x: nat, k: nat)
    requires x > 1 && k > 0 && Pow2(k - 1) < x <= Pow2(k)
    ensures CeilToPow2(x) == Pow2(k)
  {
    Pow2Monotone(k, k);
    Pow2Gap(CeilToPow2(x), k - 1);
  }
}
