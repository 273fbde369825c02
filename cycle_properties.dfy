/**
 * What one instruction cycle of cpu.go does, in both revisions: the family
 * switch as written reaches only the 0x00 family; the corrected switch
 * reaches the case body its top nibble names.
 */
module CycleProperties {
  import opened Bits
  import opened Opcode
  import opened Machine

  /** A nonzero top nibble, masked but not shifted, equals none of the case labels 0x00 .. 0x90. */
  lemma UnshiftedNibbleMissesLabels(op: u16)
    requires op >= 0x1000
    ensures Decode(op).nib1 as int % 0x1000 == 0
    ensures Decode(op).nib1 !in {0x00, 0x10, 0x20, 0x30, 0x40, 0x50, 0x60, 0x70, 0x80, 0x90}
  {
    var top := op as int / 0x1000;
    assert top >= 1;
    assert Decode(op).nib1 as int == top * 0x1000;
  }

  /** As written, every opcode outside the 0x00 family only advances Pc. */
  lemma DeadDispatch(m: State)
    requires Valid(m) && m.pc as int + 1 < MemorySize
    requires Fetch(m) >= 0x1000
    ensures Cycle(m, AsWritten) == Advance(m)
  {
    UnshiftedNibbleMissesLabels(Fetch(m));
  }

  /**
   * As written, an opcode below 0x1000 selects on its low byte alone: E0
   * clears the screen, EE returns, anything else only advances Pc.
   */
  lemma ZeroFamilyCycle(m: State)
    requires Valid(m) && m.pc as int + 1 < MemorySize
    requires Fetch(m) < 0x1000
    ensures var r, a := Cycle(m, AsWritten), Advance(m);
      (m.memory[m.pc + 1] == 0xE0 ==> r == a.(gfx := r.gfx) && Blank(r.gfx)) &&
      (m.memory[m.pc + 1] == 0xEE ==> r == Pop(a).1.(pc := Pop(a).0)) &&
      (m.memory[m.pc + 1] !in {0xE0, 0xEE} ==> r == a)
  {
    var lo := m.memory[m.pc + 1];
    var f := Decode(Fetch(m));
    assert f.nib1 == 0 && f.nn == lo;
    assert Cycle(m, AsWritten) == ZeroFamily(Advance(m), lo);
  }

  /**
   * The corrected cycle runs the case body that the high nibble of the byte
   * at Pc names, with X its low nibble, Y the high nibble of the next byte,
   * NN that byte and NNN the low twelve bits.
   */
  lemma CorrectedDispatch(m: State)
    requires Valid(m) && m.pc as int + 1 < MemorySize
    ensures var hi, lo, a, r := m.memory[m.pc] as int, m.memory[m.pc + 1], Advance(m), Cycle(m, Corrected);
      var x, y := (hi % 0x10) as u16, (lo as int / 0x10) as u16;
      var nnn := (hi % 0x10 * 0x100 + lo as int) as u16;
      (hi / 0x10 == 0x0 ==> r == ZeroFamily(a, lo)) &&
      (hi / 0x10 == 0x1 ==> r == Jump(a, nnn)) &&
      (hi / 0x10 == 0x2 ==> r == Call(a, nnn)) &&
      (hi / 0x10 == 0x3 ==> r == SkipIfEqual(a, x, lo)) &&
      (hi / 0x10 == 0x4 ==> r == SkipIfNotEqual(a, x, lo)) &&
      (hi / 0x10 == 0x5 ==> r == SkipIfRegistersEqual(a, x, y)) &&
      (hi / 0x10 == 0x6 ==> r == SetImmediate(a, x, lo)) &&
      (hi / 0x10 == 0x7 ==> r == AddImmediate(a, x, lo)) &&
      (hi / 0x10 == 0x8 ==> r == Arithmetic(a, x, y, (lo as int % 0x10) as u16, Corrected)) &&
      (hi / 0x10 == 0x9 ==> r == SkipIfRegistersDiffer(a, x, y)) &&
      (hi / 0x10 >= 0xA ==> r == a)
  {
    CorrectedCycleOfBytes(m);
  }

  /** The corrected cycle dispatches on the fields read off the two bytes at Pc. */
  lemma CorrectedCycleOfBytes(m: State)
    requires Valid(m) && m.pc as int + 1 < MemorySize
    ensures var hi, lo := m.memory[m.pc] as int, m.memory[m.pc + 1];
      var f := Fields((hi / 0x10 * 0x10) as u16, (hi % 0x10) as u16, (lo as int / 0x10) as u16,
                      (lo as int % 0x10) as u16, lo, (hi % 0x10 * 0x100 + lo as int) as u16);
      InRange(f) && Cycle(m, Corrected) == Dispatch(Advance(m), f, Corrected)
  {
    CorrectedFieldsOfBytes(m.memory[m.pc], m.memory[m.pc + 1]);
  }

  /** The program 6005 6103 8014 (V0 := 5, V1 := 3, V0 := V0 + V1) at 0x200, with Pc on its first instruction. */
  predicate AddProgramLoaded(m: State)
  {
    Valid(m) && m.pc == 0x200 &&
    m.memory[0x200..0x206] == [0x60, 0x05, 0x61, 0x03, 0x80, 0x14]
  }

  /** As written, the three instructions are fetched and skipped: only Pc moves. */
  lemma AddProgramIgnored(m: State)
    requires AddProgramLoaded(m)
    ensures var m1 := Cycle(m, AsWritten);
      m1 == m.(pc := 0x202) &&
      (var m2 := Cycle(m1, AsWritten);
       m2 == m.(pc := 0x204) && Cycle(m2, AsWritten) == m.(pc := 0x206))
  {
    assert m.memory[0x200] == 0x60 && m.memory[0x202] == 0x61 && m.memory[0x204] == 0x80;
    var m1 := m.(pc := 0x202);
    var m2 := m.(pc := 0x204);
    SkippedAt(m, m1);
    SkippedAt(m1, m2);
    SkippedAt(m2, m.(pc := 0x206));
  }

  /** One step of AddProgramIgnored: the instruction at Pc is outside the 0x00 family. */
  lemma SkippedAt(m: State, next: State)
    requires Valid(m) && m.pc as int + 1 < MemorySize && m.memory[m.pc] >= 0x10
    requires next == m.(pc := m.pc + 2)
    ensures Cycle(m, AsWritten) == next
  {
    assert Fetch(m) >= 0x1000;
    DeadDispatch(m);
    AdvanceInMemory(m);
  }

  /** Below the end of memory, advancing Pc does not wrap. */
  lemma AdvanceInMemory(m: State)
    requires Valid(m) && m.pc as int + 1 < MemorySize
    ensures Advance(m) == m.(pc := m.pc + 2)
  {
  }

  /**
   * Corrected, the program runs: V0 := 5, then V1 := 3, then V0 := V0 + V1 = 8.
   * The sum does not overflow, so VF and every other register keep their values.
   */
  lemma AddProgramRuns(m: State)
    requires AddProgramLoaded(m)
    ensures var m1 := m.(pc := 0x202, v := m.v[0 := 5]);
      var m2 := m1.(pc := 0x204, v := m1.v[1 := 3]);
      (Cycle(m, Corrected) == m1 && Cycle(m1, Corrected) == m2 &&
       Cycle(m2, Corrected) == m2.(pc := 0x206, v := m2.v[0 := 8]))
  {
    assert m.memory[0x200] == 0x60 && m.memory[0x201] == 0x05;
    assert m.memory[0x202] == 0x61 && m.memory[0x203] == 0x03;
    assert m.memory[0x204] == 0x80 && m.memory[0x205] == 0x14;
    var m1 := m.(pc := 0x202, v := m.v[0 := 5]);
    var m2 := m1.(pc := 0x204, v := m1.v[1 := 3]);
    SetImmediateAt(m, 0, 5);
    assert Valid(m1) && m1.memory == m.memory;
    SetImmediateAt(m1, 1, 3);
    assert Valid(m2) && m2.memory == m.memory && m2.v[0] == 5 && m2.v[1] == 3;
    AddRegistersAt(m2, 0, 1);
  }

  /** The corrected cycle on 6XNN. */
  lemma SetImmediateAt(m: State, x: u16, nn: u8)
    requires Valid(m) && m.pc as int + 1 < MemorySize && x < 16
    requires m.memory[m.pc] as int == 0x60 + x as int && m.memory[m.pc + 1] == nn
    ensures Cycle(m, Corrected) == m.(pc := m.pc + 2, v := m.v[x := nn])
  {
    CorrectedDispatch(m);
    AdvanceInMemory(m);
  }

  /** The corrected cycle on 8XY4, when the sum fits in a byte and X is not F. */
  lemma AddRegistersAt(m: State, x: u16, y: u16)
    requires Valid(m) && m.pc as int + 1 < MemorySize && x < VF && y < 16
    requires m.memory[m.pc] as int == 0x80 + x as int && m.memory[m.pc + 1] as int == y as int * 0x10 + 4
    requires m.v[x] as int + m.v[y] as int <= 0xFF
    ensures Cycle(m, Corrected) == m.(pc := m.pc + 2, v := m.v[x := m.v[x] + m.v[y]])
  {
    var a := Advance(m);
    AdvanceInMemory(m);
    assert Cycle(m, Corrected) == Arithmetic(a, x, y, 4, Corrected) by {
      var hi, lo := m.memory[m.pc] as int, m.memory[m.pc + 1] as int;
      assert hi / 0x10 == 8 && hi % 0x10 == x as int && lo / 0x10 == y as int && lo % 0x10 == 4;
      CorrectedDispatch(m);
    }
    var added := a.(v := a.v[x := Add8(a.v[x], a.v[y])]);
    assert Arithmetic(a, x, y, 4, Corrected) == RaiseFlagIf(added, false);
    assert RaiseFlagIf(added, false) == added;
    assert Add8(a.v[x], a.v[y]) == m.v[x] + m.v[y];
  }

  /**
   * Corrected, a call 2NNN to a subroutine whose first instruction is 00EE
   * comes back to the instruction after the call with the stack as it was.
   */
  lemma CallThenReturn(m: State, nnn: u16)
    requires Valid(m) && m.pc as int + 1 < MemorySize && m.sp < 0x0F
    requires nnn as int + 1 < MemorySize && Fetch(m) == 0x2000 + nnn
    requires m.memory[nnn] == 0x00 && m.memory[nnn + 1] == 0xEE
    ensures var m1 := Cycle(m, Corrected);
      m1.pc == nnn &&
      (var r := Cycle(m1, Corrected);
       r.pc == Advance(m).pc && r.sp == m.sp && StackContents(r) == StackContents(m))
  {
    var a := Advance(m);
    CallAt(m, nnn);
    var m1 := Cycle(m, Corrected);
    ReturnAt(m1);
    PushThenPop(a, a.pc);
  }

  /** The corrected cycle on 2NNN. */
  lemma CallAt(m: State, nnn: u16)
    requires Valid(m) && m.pc as int + 1 < MemorySize && nnn < 0x1000 && Fetch(m) == 0x2000 + nnn
    ensures Cycle(m, Corrected) == Call(Advance(m), nnn)
  {
    CorrectedDispatch(m);
  }

  /** The corrected cycle on 00EE. */
  lemma ReturnAt(m: State)
    requires Valid(m) && m.pc as int + 1 < MemorySize
    requires m.memory[m.pc] == 0x00 && m.memory[m.pc + 1] == 0xEE
    ensures Cycle(m, Corrected) == Return(Advance(m))
  {
    CorrectedDispatch(m);
  }

  /**
   * 8XY4 on V[x] = 0xFF and V[y] = 0x01: the true sum 0x100 overflows, yet as
   * written VF keeps its old value; corrected, VF becomes 1. Both store 0 in V[x].
   */
  lemma CarryLost(m: State, x: u16, y: u16)
    requires Valid(m) && x < VF && y < 16 && x != y
    requires m.v[x] == 0xFF && m.v[y] == 0x01 && m.v[VF] == 0
    ensures AddRegisters(m, x, y).v[x] == 0 && AddRegisters(m, x, y).v[VF] == 0
    ensures AddRegistersWithCarry(m, x, y).v[x] == 0 && AddRegistersWithCarry(m, x, y).v[VF] == 1
  {
  }
}
