/**
 * Fixed-width unsigned words and the Go operators the interpreter applies to
 * them: wrapping addition, `<<`, `>>`, and the bitwise `&`, `|`, `^`.
 *
 * Words are unbounded integers restricted to their range; wrap-around is
 * written out with `%`. The bitwise operators are defined bit by bit on
 * naturals, and their meaning is stated per bit (Bit) and, for the masks the
 * decoder uses, as plain arithmetic.
 */
module Bits {

  newtype u8 = x: int | 0 <= x < 0x100
  newtype u16 = x: int | 0 <= x < 0x1_0000

  function Pow2(k: nat): (r: nat)
    ensures r >= 1
  {
    if k == 0 then 1 else 2 * Pow2(k - 1)
  }

  /** Bit k of a, counting from the least significant bit. */
  predicate Bit(a: nat, k: nat)
  {
    if k == 0 then a % 2 == 1 else Bit(a / 2, k - 1)
  }

  /** Bit k of a byte. */
  predicate Bit8(a: u8, k: nat)
  {
    Bit(a as nat, k)
  }

  /** Go's uint8 `+`: the sum modulo 2^8. */
  function Add8(a: u8, b: u8): (r: u8)
    ensures r as int == (a as int + b as int) % 0x100
  {
    ((a as int + b as int) % 0x100) as u8
  }

  /** Go's uint16 `+`: the sum modulo 2^16. */
  function Add16(a: u16, b: u16): (r: u16)
    ensures r as int == (a as int + b as int) % 0x1_0000
  {
    ((a as int + b as int) % 0x1_0000) as u16
  }

  /** Go's uint16 `<<`: bits shifted past bit 15 are lost. */
  function Shl16(a: u16, k: nat): (r: u16)
  {
    ((a as int * Pow2(k)) % 0x1_0000) as u16
  }

  /** Go's `>>` on an unsigned word: a logical shift, i.e. division by 2^k. */
  function Shr16(a: u16, k: nat): (r: u16)
    ensures r <= a
  {
    Quotient(a as nat, Pow2(k)) as u16
  }

  /** Division of naturals by a positive divisor; the quotient is at most the dividend. */
  function Quotient(a: nat, d: nat): (q: nat)
    requires d >= 1
    ensures q <= a
  {
    DivAtMost(a, d);
    a / d
  }

  /** Dividing by a positive number never makes a natural larger. */
  lemma DivAtMost(a: nat, d: nat)
    requires d >= 1
    ensures a / d <= a
  {
    var q := a / d;
    assert a == d * q + a % d;
    MulMonotone(q, 1, d);
  }

  function AndNat(a: nat, b: nat): (r: nat)
    decreases a
  {
    if a == 0 || b == 0 then 0
    else 2 * AndNat(a / 2, b / 2) + (if a % 2 == 1 && b % 2 == 1 then 1 else 0)
  }

  function OrNat(a: nat, b: nat): (r: nat)
    decreases a
  {
    if a == 0 then b
    else if b == 0 then a
    else 2 * OrNat(a / 2, b / 2) + (if a % 2 == 1 || b % 2 == 1 then 1 else 0)
  }

  function XorNat(a: nat, b: nat): (r: nat)
    decreases a
  {
    if a == 0 then b
    else if b == 0 then a
    else 2 * XorNat(a / 2, b / 2) + (if a % 2 != b % 2 then 1 else 0)
  }

  /** The value 0 has no bit set. */
  lemma {:induction false} ZeroHasNoBits(k: nat)
    ensures !Bit(0, k)
  {
    if k > 0 {
      ZeroHasNoBits(k - 1);
    }
  }

  /** Appending a low bit c to a: bit 0 is c, the higher bits are those of a. */
  lemma ShiftInBit(a: nat, c: nat, k: nat)
    requires c < 2
    ensures Bit(2 * a + c, k) == if k == 0 then c == 1 else Bit(a, k - 1)
  {
    assert (2 * a + c) / 2 == a;
  }

  lemma {:induction false} AndBit(a: nat, b: nat, k: nat)
    ensures Bit(AndNat(a, b), k) == (Bit(a, k) && Bit(b, k))
    decreases a
  {
    if a == 0 || b == 0 {
      ZeroHasNoBits(k);
    } else {
      var c := if a % 2 == 1 && b % 2 == 1 then 1 else 0;
      ShiftInBit(AndNat(a / 2, b / 2), c, k);
      if k > 0 {
        AndBit(a / 2, b / 2, k - 1);
      }
    }
  }

  lemma {:induction false} OrBit(a: nat, b: nat, k: nat)
    ensures Bit(OrNat(a, b), k) == (Bit(a, k) || Bit(b, k))
    decreases a
  {
    if a == 0 || b == 0 {
      ZeroHasNoBits(k);
    } else {
      var c := if a % 2 == 1 || b % 2 == 1 then 1 else 0;
      ShiftInBit(OrNat(a / 2, b / 2), c, k);
      if k > 0 {
        OrBit(a / 2, b / 2, k - 1);
      }
    }
  }

  lemma {:induction false} XorBit(a: nat, b: nat, k: nat)
    ensures Bit(XorNat(a, b), k) == (Bit(a, k) != Bit(b, k))
    decreases a
  {
    if a == 0 || b == 0 {
      ZeroHasNoBits(k);
    } else {
      var c := if a % 2 != b % 2 then 1 else 0;
      ShiftInBit(XorNat(a / 2, b / 2), c, k);
      if k > 0 {
        XorBit(a / 2, b / 2, k - 1);
      }
    }
  }

  /** `&` never sets a bit that its left operand lacks, so it is at most that operand. */
  lemma {:induction false} AndAtMost(a: nat, b: nat)
    ensures AndNat(a, b) <= a
    decreases a
  {
    if a != 0 && b != 0 {
      AndAtMost(a / 2, b / 2);
    }
  }

  /** `|` and `^` of two w-bit values is a w-bit value. */
  lemma {:induction false} OrXorWithin(a: nat, b: nat, w: nat)
    requires a < Pow2(w) && b < Pow2(w)
    ensures OrNat(a, b) < Pow2(w) && XorNat(a, b) < Pow2(w)
    decreases a
  {
    if a != 0 && b != 0 {
      assert w > 0;
      OrXorWithin(a / 2, b / 2, w - 1);
    }
  }

  /** Masking with the low k bits keeps the remainder modulo 2^k. */
  lemma {:induction false} AndLowMask(a: nat, k: nat)
    ensures AndNat(a, Pow2(k) - 1) == a % Pow2(k)
  {
    if k > 0 {
      var low := Pow2(k - 1) - 1;
      assert Pow2(k) - 1 == 2 * low + 1;
      AndOddMask(a, low);
      AndLowMask(a / 2, k - 1);
      ModPow2Step(a, k);
    }
  }

  /** A mask with its low bit set: the low bit of a is kept, the rest is masking a / 2. */
  lemma AndOddMask(a: nat, b: nat)
    ensures AndNat(a, 2 * b + 1) == 2 * AndNat(a / 2, b) + a % 2
  {
    if a != 0 {
      assert (2 * b + 1) / 2 == b && (2 * b + 1) % 2 == 1;
    }
  }

  /** The remainder modulo 2^k from the remainder of the halved value modulo 2^(k-1). */
  lemma ModPow2Step(a: nat, k: nat)
    requires k > 0
    ensures a % Pow2(k) == 2 * (a / 2 % Pow2(k - 1)) + a % 2
    ensures a / 2 / Pow2(k - 1) == a / Pow2(k)
  {
    DivMod2(a, Pow2(k - 1));
  }

  /** Halving before dividing by p is dividing by 2p; the remainders combine likewise. */
  lemma DivMod2(a: nat, p: nat)
    requires p >= 1
    ensures a / 2 / p == a / (2 * p)
    ensures a % (2 * p) == 2 * (a / 2 % p) + a % 2
  {
    var q, r := a / 2 / p, a / 2 % p;
    assert a / 2 == p * q + r;
    assert a == (2 * p) * q + (2 * r + a % 2);
    DivisionUnique(a, 2 * p, q, 2 * r + a % 2);
  }

  /** Quotient and remainder are the only pair with a == d * q + r and 0 <= r < d. */
  lemma DivisionUnique(a: nat, d: nat, q: nat, r: nat)
    requires d >= 1 && a == d * q + r && r < d
    ensures a / d == q && a % d == r
  {
    var q', r' := a / d, a % d;
    assert a == d * q' + r';
    if q' < q {
      MulMonotone(d, q' + 1, q);
      assert false;
    } else if q < q' {
      MulMonotone(d, q + 1, q');
      assert false;
    }
  }

  lemma MulMonotone(d: nat, x: nat, y: nat)
    requires x <= y
    ensures d * x <= d * y
  {
    assert d * y == d * x + d * (y - x);
  }

  /** Masking with a nibble shifted left by s bits extracts that nibble, left in place. */
  lemma {:induction false} NibbleMask(a: nat, s: nat)
    ensures AndNat(a, 0xF * Pow2(s)) == a / Pow2(s) % 0x10 * Pow2(s)
  {
    if s == 0 {
      assert Pow2(4) - 1 == 0xF && Pow2(0) == 1;
      AndLowMask(a, 4);
    } else {
      var p := Pow2(s - 1);
      assert Pow2(s) == 2 * p;
      NibbleMask(a / 2, s - 1);
      ModPow2Step(a, s);
      AndEvenMask(a, 0xF * p);
      Twice(0xF, p);
      Twice(a / Pow2(s) % 0x10, p);
    }
  }

  /** A mask with a clear low bit: masking a is masking a / 2 and shifting back. */
  lemma AndEvenMask(a: nat, b: nat)
    ensures AndNat(a, 2 * b) == 2 * AndNat(a / 2, b)
  {
    if a != 0 && b != 0 {
      assert (2 * b) / 2 == b && (2 * b) % 2 == 0;
    }
  }

  lemma Twice(x: nat, p: nat)
    ensures 2 * (x * p) == x * (2 * p)
  {
  }

  /** Go's `&` on uint16. */
  function And16(a: u16, b: u16): (r: u16)
    ensures r <= a
  {
    AndAtMost(a as nat, b as nat);
    AndNat(a as nat, b as nat) as u16
  }

  /** Go's `&` on uint8: bit k of the result is set iff it is set in both operands. */
  function And8(a: u8, b: u8): (r: u8)
    ensures forall k: nat :: Bit8(r, k) == (Bit8(a, k) && Bit8(b, k))
  {
    AndAtMost(a as nat, b as nat);
    AndBits(a as nat, b as nat);
    AndNat(a as nat, b as nat) as u8
  }

  /** Go's `|` on uint8: bit k of the result is set iff it is set in either operand. */
  function Or8(a: u8, b: u8): (r: u8)
    ensures forall k: nat :: Bit8(r, k) == (Bit8(a, k) || Bit8(b, k))
  {
    assert Pow2(8) == 0x100;
    OrXorWithin(a as nat, b as nat, 8);
    OrBits(a as nat, b as nat);
    OrNat(a as nat, b as nat) as u8
  }

  /** Go's `^` on uint8: bit k of the result is set iff it is set in exactly one operand. */
  function Xor8(a: u8, b: u8): (r: u8)
    ensures forall k: nat :: Bit8(r, k) == (Bit8(a, k) != Bit8(b, k))
  {
    assert Pow2(8) == 0x100;
    OrXorWithin(a as nat, b as nat, 8);
    XorBits(a as nat, b as nat);
    XorNat(a as nat, b as nat) as u8
  }

  lemma AndBits(a: nat, b: nat)
    ensures forall k: nat :: Bit(AndNat(a, b), k) == (Bit(a, k) && Bit(b, k))
  {
    forall k: nat
      ensures Bit(AndNat(a, b), k) == (Bit(a, k) && Bit(b, k))
    {
      AndBit(a, b, k);
    }
  }

  lemma OrBits(a: nat, b: nat)
    ensures forall k: nat :: Bit(OrNat(a, b), k) == (Bit(a, k) || Bit(b, k))
  {
    forall k: nat
      ensures Bit(OrNat(a, b), k) == (Bit(a, k) || Bit(b, k))
    {
      OrBit(a, b, k);
    }
  }

  lemma XorBits(a: nat, b: nat)
    ensures forall k: nat :: Bit(XorNat(a, b), k) == (Bit(a, k) != Bit(b, k))
  {
    forall k: nat
      ensures Bit(XorNat(a, b), k) == (Bit(a, k) != Bit(b, k))
    {
      XorBit(a, b, k);
    }
  }
}
