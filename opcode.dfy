/**
 * Fetch and decode of one CHIP-8 instruction word (cpu.go, EmulateCycle):
 * the two bytes at Pc form a big-endian 16-bit opcode, and five masks cut
 * it into fields. The masks are applied but their results are not shifted
 * down; Decode keeps that, DecodeCorrected shifts them.
 */
module Opcode {
  import opened Bits

  /** `uint16(code1) << 8 + uint16(code2)`: the opcode whose high byte is hi and low byte is lo. */
  function Assemble(hi: u8, lo: u8): (op: u16)
    ensures op as int == hi as int * 0x100 + lo as int
    ensures op / 0x100 == hi as u16 && op % 0x100 == lo as u16
  {
    assert Pow2(8) == 0x100;
    Add16(Shl16(hi as u16, 8), lo as u16)
  }

  /** The masked opcode fields, named as the interpreter names them. */
  datatype Fields = Fields(nib1: u16, x: u16, y: u16, n: u16, nn: u8, nnn: u16)

  /**
   * The masks as written: every field stays at its bit position, so nib1 is a
   * multiple of 0x1000, x of 0x100 and y of 0x10.
   */
  function Decode(op: u16): (f: Fields)
    ensures f.nib1 as int == op as int / 0x1000 * 0x1000
    ensures f.x as int == op as int / 0x100 % 0x10 * 0x100
    ensures f.y as int == op as int / 0x10 % 0x10 * 0x10
    ensures f.n as int == op as int % 0x10
    ensures f.nn as int == op as int % 0x100
    ensures f.nnn as int == op as int % 0x1000
  {
    MaskFacts(op as nat);
    Fields(And16(op, 0xF000), And16(op, 0x0F00), And16(op, 0x00F0), And16(op, 0x000F),
           And16(op, 0x00FF) as u8, And16(op, 0x0FFF))
  }

  /** The masks 0xF000, 0x0F00, 0x00F0, 0x000F, 0x00FF and 0x0FFF as arithmetic on the opcode. */
  lemma MaskFacts(op: nat)
    requires op < 0x1_0000
    ensures AndNat(op, 0xF000) == op / 0x1000 * 0x1000
    ensures AndNat(op, 0x0F00) == op / 0x100 % 0x10 * 0x100
    ensures AndNat(op, 0x00F0) == op / 0x10 % 0x10 * 0x10
    ensures AndNat(op, 0x000F) == op % 0x10
    ensures AndNat(op, 0x00FF) == op % 0x100
    ensures AndNat(op, 0x0FFF) == op % 0x1000
  {
    TopNibbleMask(op);
    TopNibbleOfWord(op);
    SecondNibbleMask(op);
    ThirdNibbleMask(op);
    LowMasks(op);
  }

  lemma Pow2Values()
    ensures Pow2(4) == 0x10 && Pow2(8) == 0x100 && Pow2(12) == 0x1000
  {
  }

  lemma TopNibbleMask(op: nat)
    ensures AndNat(op, 0xF000) == op / 0x1000 % 0x10 * 0x1000
  {
    Pow2Values();
    NibbleMask(op, 12);
  }

  /** The top nibble of a 16-bit word is the whole quotient by 0x1000. */
  lemma TopNibbleOfWord(op: nat)
    requires op < 0x1_0000
    ensures op / 0x1000 % 0x10 == op / 0x1000
  {
    DivisionUnique(op, 0x1000, op / 0x1000, op % 0x1000);
  }

  lemma SecondNibbleMask(op: nat)
    ensures AndNat(op, 0x0F00) == op / 0x100 % 0x10 * 0x100
  {
    Pow2Values();
    NibbleMask(op, 8);
  }

  lemma ThirdNibbleMask(op: nat)
    ensures AndNat(op, 0x00F0) == op / 0x10 % 0x10 * 0x10
  {
    Pow2Values();
    NibbleMask(op, 4);
  }

  lemma LowMasks(op: nat)
    ensures AndNat(op, 0x000F) == op % 0x10
    ensures AndNat(op, 0x00FF) == op % 0x100
    ensures AndNat(op, 0x0FFF) == op % 0x1000
  {
    Pow2Values();
    AndLowMask(op, 4);
    AndLowMask(op, 8);
    AndLowMask(op, 12);
  }

  /**
   * The fields shifted down to their values: nib1 >> 8 (the top nibble placed
   * where the case labels 0x10 .. 0xF0 expect it), x >> 8 and y >> 4 (register
   * numbers 0 .. 15).
   */
  function DecodeCorrected(op: u16): (f: Fields)
    ensures f.nib1 as int == op as int / 0x1000 * 0x10
    ensures f.x as int == op as int / 0x100 % 0x10
    ensures f.y as int == op as int / 0x10 % 0x10
    ensures f.n as int == op as int % 0x10
    ensures f.nn as int == op as int % 0x100
    ensures f.nnn as int == op as int % 0x1000
  {
    var w := Decode(op);
    assert Pow2(4) == 0x10 && Pow2(8) == 0x100;
    w.(nib1 := Shr16(w.nib1, 8), x := Shr16(w.x, 8), y := Shr16(w.y, 4))
  }

  /** The corrected fields of the opcode assembled from two bytes, read off the bytes' nibbles. */
  lemma CorrectedFieldsOfBytes(hi: u8, lo: u8)
    ensures var f := DecodeCorrected(Assemble(hi, lo));
      f.nib1 as int == hi as int / 0x10 * 0x10 && f.x as int == hi as int % 0x10 &&
      f.y as int == lo as int / 0x10 && f.n as int == lo as int % 0x10 &&
      f.nn == lo && f.nnn as int == hi as int % 0x10 * 0x100 + lo as int
  {
    var op := Assemble(hi, lo) as int;
    var h, l := hi as int, lo as int;
    DivisionUnique(op, 0x1000, h / 0x10, h % 0x10 * 0x100 + l);
    DivisionUnique(op, 0x100, h, l);
    DivisionUnique(op, 0x10, h * 0x10 + l / 0x10, l % 0x10);
    DivisionUnique(h * 0x10 + l / 0x10, 0x10, h, l / 0x10);
  }
}
