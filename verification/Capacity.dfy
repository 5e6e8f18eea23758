/** RoundUpPowerOfTwo and the index mask of the ring.

    A machine word is a natural below 2^64; its bits are read by repeated halving. */
module Capacity {
  import Ring

  const WORD: nat := 0x1_0000_0000_0000_0000

  function Pow2(k: nat): (p: nat)
    ensures p > 0
  {
    if k == 0 then 1 else 2 * Pow2(k - 1)
  }

  predicate Bit(n: nat, i: nat) {
    if i == 0 then n % 2 == 1 else Bit(n / 2, i - 1)
  }

  function Or(a: nat, b: nat): nat
    decreases a + b
  {
    if a == 0 && b == 0 then 0
    else 2 * Or(a / 2, b / 2) + (if a % 2 == 1 || b % 2 == 1 then 1 else 0)
  }

  function And(a: nat, b: nat): nat {
    if a == 0 || b == 0 then 0
    else 2 * And(a / 2, b / 2) + (if a % 2 == 1 && b % 2 == 1 then 1 else 0)
  }

  function ShiftRight(n: nat, s: nat): nat {
    if s == 0 then n else ShiftRight(n / 2, s - 1)
  }

  // ----- bits of the operations -----

  lemma {:induction false} OrBit(a: nat, b: nat, i: nat)
    ensures Bit(Or(a, b), i) <==> Bit(a, i) || Bit(b, i)
    decreases i
  {
    if a == 0 && b == 0 {
      ZeroBit(i);
    } else if i > 0 {
      OrBit(a / 2, b / 2, i - 1);
    }
  }

  lemma {:induction false} ZeroBit(i: nat)
    ensures !Bit(0, i)
  {
    if i > 0 { ZeroBit(i - 1); }
  }

  lemma {:induction false} OrBound(a: nat, b: nat, k: nat)
    requires a < Pow2(k) && b < Pow2(k)
    ensures Or(a, b) < Pow2(k) && a <= Or(a, b)
  {
    if k > 0 && (a > 0 || b > 0) {
      OrBound(a / 2, b / 2, k - 1);
    }
  }

  lemma {:induction false} ShiftBit(n: nat, s: nat, i: nat)
    ensures Bit(ShiftRight(n, s), i) <==> Bit(n, i + s)
    ensures ShiftRight(n, s) <= n
  {
    if s > 0 { ShiftBit(n / 2, s - 1, i); }
  }

  lemma {:induction false} AllOnes(n: nat, k: nat)
    requires n < Pow2(k) && forall i: nat | i < k :: Bit(n, i)
    ensures n == Pow2(k) - 1
  {
    if k > 0 {
      assert Bit(n, 0);
      forall i: nat | i < k - 1 ensures Bit(n / 2, i) {
        assert Bit(n, i + 1);
      }
      AllOnes(n / 2, k - 1);
    }
  }

  /** The length of n in bits, which is the position after its highest one. */
  function Length(n: nat): (k: nat)
    ensures n < Pow2(k) && (n > 0 ==> k > 0 && Pow2(k - 1) <= n && Bit(n, k - 1))
  {
    if n == 0 then 0 else 1 + Length(n / 2)
  }

  /** The w highest bits of a word of length k are ones. */
  ghost predicate Smeared(n: nat, k: nat, w: nat) {
    n < Pow2(k) && forall i: nat | i < k <= i + w :: Bit(n, i)
  }

  /** Or-ing a word with itself shifted by w doubles the run of ones at its head. */
  lemma SmearDoubles(n: nat, k: nat, w: nat)
    requires Smeared(n, k, w)
    ensures Smeared(Or(n, ShiftRight(n, w)), k, 2 * w)
  {
    var shifted := ShiftRight(n, w);
    ShiftBit(n, w, 0);
    OrBound(n, shifted, k);
    forall i: nat | i < k <= i + 2 * w ensures Bit(Or(n, shifted), i) {
      OrBit(n, shifted, i);
      ShiftBit(n, w, i);
    }
  }

  /** p is the least power of two that is at least n. */
  ghost predicate LeastPowerOfTwo(p: nat, n: nat) {
    && n <= p && (exists k: nat :: p == Pow2(k))
    && forall k: nat | n <= Pow2(k) :: p <= Pow2(k)
  }

  lemma {:induction false} Pow2Monotone(a: nat, b: nat)
    requires a <= b
    ensures Pow2(a) <= Pow2(b)
    decreases b
  {
    if a < b { Pow2Monotone(a, b - 1); }
  }

  lemma PowerOfLength(n: nat)
    requires n > 0
    ensures LeastPowerOfTwo(Pow2(Length(n)), n + 1)
  {
    forall k: nat | n + 1 <= Pow2(k) ensures Pow2(Length(n)) <= Pow2(k) {
      if k < Length(n) { Pow2Monotone(k, Length(n) - 1); } else { Pow2Monotone(Length(n), k); }
    }
  }

  /** One line of the smearing: normalized |= normalized >> w. */
  method Smear(normalized: nat, w: nat, ghost k: nat) returns (smeared: nat)
    requires Smeared(normalized, k, w)
    ensures Smeared(smeared, k, 2 * w)
  {
    SmearDoubles(normalized, k, w);
    smeared := Or(normalized, ShiftRight(normalized, w));
  }

  /** What RoundUpPowerOfTwo promises: the least power of two that is at least max(value, 2), for
      every value up to 2^63; beyond that the last addition wraps around to 0. */
  ghost predicate Rounded(value: nat, capacity: nat) {
    && (value <= WORD / 2 ==> LeastPowerOfTwo(capacity, if value < 2 then 2 else value))
    && (value > WORD / 2 ==> capacity == 0)
  }

  method RoundUpPowerOfTwo(value: nat) returns (capacity: nat)
    requires value < WORD
    ensures Rounded(value, capacity)
  {
    var normalized := if value < 2 then 2 else value;
    normalized := normalized - 1;
    ghost var n, k := normalized, Length(normalized);
    StartsSmeared(n);
    normalized := Smear(normalized, 1, k);
    normalized := Smear(normalized, 2, k);
    normalized := Smear(normalized, 4, k);
    normalized := Smear(normalized, 8, k);
    normalized := Smear(normalized, 16, k);
    normalized := Smear(normalized, 32, k);
    capacity := (normalized + 1) % WORD;
    SmearedIsRounded(n, k, normalized, 64);
  }

  lemma StartsSmeared(n: nat)
    ensures Smeared(n, Length(n), 1)
  {
    forall i: nat | i < Length(n) <= i + 1 ensures Bit(n, i) {
      assert i == Length(n) - 1;
    }
  }

  /** A word smeared over its whole length is one less than the power of two above it. */
  lemma SmearedIsRounded(n: nat, k: nat, normalized: nat, bits: nat)
    requires 0 < n < WORD && k == Length(n) && bits == 64
    requires Smeared(normalized, k, bits)
    ensures Rounded(n + 1, (normalized + 1) % WORD)
  {
    PowerOfLength(n);
    LengthOfWord(n, k, bits);
    AllOnes(normalized, k);
  }

  lemma {:induction false} Pow2Sum(a: nat, b: nat)
    ensures Pow2(a + b) == Pow2(a) * Pow2(b)
  {
    if a > 0 {
      Pow2Sum(a - 1, b);
      assert Pow2(a - 1 + b) == Pow2(a - 1) * Pow2(b);
      assert Pow2(a) * Pow2(b) == 2 * (Pow2(a - 1) * Pow2(b));
    }
  }

  lemma WordIsPower(bits: nat)
    requires bits == 64
    ensures Pow2(bits) == WORD && Pow2(bits - 1) == WORD / 2
  {
    SmallPower(16);
    Square(bits - 48, 0x1_0000);
    Square(bits - 32, 0x1_0000_0000);
  }

  lemma Square(k: nat, p: nat)
    requires Pow2(k) == p
    ensures Pow2(2 * k) == p * p
  {
    Pow2Sum(k, k);
  }

  lemma SmallPower(bits: nat)
    requires bits == 16
    ensures Pow2(bits) == 0x1_0000
  {
    assert Pow2(8) == 0x100;
    Pow2Sum(bits - 8, bits - 8);
  }

  lemma LengthOfWord(n: nat, k: nat, bits: nat)
    requires 0 < n < WORD && k == Length(n) && bits == 64
    ensures k <= bits && Pow2(k) <= WORD
    ensures Pow2(k) == WORD <==> n >= WORD / 2
  {
    WordIsPower(bits);
    if k > bits { Pow2Monotone(bits, k - 1); }
    if k < bits { Pow2Monotone(k, bits - 1); }
  }

  // ----- the mask -----

  /** Masking a position with capacity - 1 gives the slot of the position. */
  lemma {:induction false} MaskIsSlot(pos: nat, k: nat)
    ensures And(pos, Pow2(k) - 1) == Ring.Slot(pos, Pow2(k))
  {
    if k == 0 {
      SlotOfOne(pos);
    } else {
      MaskIsSlot(pos / 2, k - 1);
      SlotHalves(pos, Pow2(k - 1));
    }
  }

  lemma {:induction false} SlotOfOne(pos: nat)
    ensures Ring.Slot(pos, 1) == 0
  {
    if pos > 0 { SlotOfOne(pos - 1); }
  }

  lemma {:induction false} SlotHalves(pos: nat, c: nat)
    requires 0 < c
    ensures Ring.Slot(pos, 2 * c) == 2 * Ring.Slot(pos / 2, c) + pos % 2
  {
    if pos >= 2 * c {
      SlotHalves(pos - 2 * c, c);
      assert (pos - 2 * c) / 2 == pos / 2 - c;
    }
  }

  /** And the slot is the remainder, so positions one capacity apart share a cell. */
  lemma {:induction false} SlotIsRemainder(pos: nat, capacity: nat)
    requires 0 < capacity
    ensures Ring.Slot(pos, capacity) == pos % capacity
    ensures Ring.Slot(pos + capacity, capacity) == Ring.Slot(pos, capacity)
  {
    if pos >= capacity {
      SlotIsRemainder(pos - capacity, capacity);
      RemainderOfSum(pos - capacity, capacity);
    }
  }

  lemma RemainderOfSum(n: nat, d: nat)
    requires 0 < d
    ensures (n + d) % d == n % d
  {
    var x := (n + d) / d - n / d - 1;
    assert n == d * (n / d) + n % d && n + d == d * ((n + d) / d) + (n + d) % d;
    assert d * x == d * ((n + d) / d) - d * (n / d) - d;
    SmallMultiple(d, x);
  }

  lemma SmallMultiple(d: nat, x: int)
    requires 0 < d && 0 - d < d * x < d
    ensures x == 0
  {
    if x > 0 { Grows(d, x); } else if x < 0 { Grows(d, -x); }
  }

  lemma {:induction false} Grows(d: nat, x: int)
    requires x > 0
    ensures d * x >= d
  {
    if x > 1 {
      Grows(d, x - 1);
      assert d * x == d * (x - 1) + d;
    }
  }
}
