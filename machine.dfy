/**
 * The CHIP-8 machine of cpu.go as a value: the fields of the Chip8 struct,
 * and each thing the interpreter does to them as a function from the old
 * state to the new one. The class in module Cpu is proved against these.
 *
 * Two revisions of the instruction cycle are defined. AsWritten is the
 * dispatch of EmulateCycle exactly as the source has it: the opcode fields
 * are masked but not shifted, so only the 0x00 family is ever selected.
 * Corrected shifts the fields and fixes the carry test of 8XY4.
 */
module Machine {
  import opened Bits
  import opened Opcode

  /** The 16 glyphs 0 .. F, five rows of one byte each (cpu.go:5-22). */
  const Fontset: seq<u8> := [
    0xF0, 0x90, 0x90, 0x90, 0xF0, // 0
    0x20, 0x60, 0x20, 0x20, 0x70, // 1
    0xF0, 0x10, 0xF0, 0x80, 0xF0, // 2
    0xF0, 0x10, 0xF0, 0x10, 0xF0, // 3
    0x90, 0x90, 0xF0, 0x10, 0x10, // 4
    0xF0, 0x80, 0xF0, 0x10, 0xF0, // 5
    0xF0, 0x80, 0xF0, 0x90, 0xF0, // 6
    0xF0, 0x10, 0x20, 0x40, 0x40, // 7
    0xF0, 0x90, 0xF0, 0x90, 0xF0, // 8
    0xF0, 0x90, 0xF0, 0x10, 0xF0, // 9
    0xF0, 0x90, 0xF0, 0x90, 0x90, // A
    0xE0, 0x90, 0xE0, 0x90, 0xE0, // B
    0xF0, 0x80, 0x80, 0x80, 0xF0, // C
    0xE0, 0x90, 0x90, 0x90, 0xE0, // D
    0xF0, 0x80, 0xF0, 0x80, 0xF0, // E
    0xF0, 0x80, 0xF0, 0x80, 0x80  // F
  ]

  const MemorySize := 0x1000
  const ScreenCells := 64 * 32

  /** The register that doubles as the carry flag. */
  const VF: u16 := 0xF

  /** The Chip8 struct: stack and stack pointer, memory, registers, Pc, Opcode, I, timers, screen, keys. */
  datatype State = State(
    stack: seq<u16>, sp: u8,
    memory: seq<u8>, v: seq<u8>,
    pc: u16, opcode: u16, index: u16,
    delayTimer: u8, soundTimer: u8,
    gfx: seq<u8>, key: seq<u8>)

  /**
   * The array sizes of the struct, and the stack pointer bound that Push,
   * Pop and Init keep (Pop reads Stack[Sp], which needs Sp < 16).
   */
  predicate Valid(m: State)
  {
    |m.stack| == 16 && m.sp <= 15 && |m.memory| == MemorySize && |m.v| == 16 &&
    |m.gfx| == ScreenCells && |m.key| == 16
  }

  /**
   * What no case body of the interpreter writes: memory, I, Opcode, the
   * timers, the keys, and stack slot 0.
   */
  predicate Untouched(m: State, r: State)
    requires Valid(m) && Valid(r)
  {
    r.memory == m.memory && r.index == m.index && r.opcode == m.opcode &&
    r.delayTimer == m.delayTimer && r.soundTimer == m.soundTimer && r.key == m.key &&
    r.stack[0] == m.stack[0]
  }

  /** The opcode at Pc: the byte at Pc is its high half, the next byte its low half. */
  function Fetch(m: State): (op: u16)
    requires Valid(m) && m.pc as int + 1 < MemorySize
    ensures op as int == m.memory[m.pc] as int * 0x100 + m.memory[m.pc + 1] as int
  {
    Assemble(m.memory[m.pc], m.memory[m.pc + 1])
  }

  /** Pc moved past the instruction just fetched, wrapping as a uint16. */
  function Advance(m: State): (r: State)
    requires Valid(m)
    ensures Valid(r) && r == m.(pc := r.pc)
    ensures r.pc as int == (m.pc as int + 2) % 0x1_0000
  {
    m.(pc := Add16(m.pc, 2))
  }

  // ---------------------------------------------------------------------
  // Reset (cpu.go:236-268)
  // ---------------------------------------------------------------------

  /**
   * The state Init leaves: Pc at 0x200, the fontset in memory[0 .. 80), and
   * every other cell, register and field zero, whatever the state m before.
   */
  function Reset(m: State): (r: State)
    ensures Valid(r) && r.pc == 0x200 && r.sp == 0 && StackContents(r) == []
    ensures r.opcode == 0 && r.index == 0 && r.delayTimer == 0 && r.soundTimer == 0
    ensures forall k :: 0 <= k < 16 ==> r.stack[k] == 0 && r.v[k] == 0 && r.key[k] == 0
    ensures Blank(r.gfx)
    ensures r.memory[..80] == Fontset
    ensures forall k :: 80 <= k < MemorySize ==> r.memory[k] == 0
  {
    State(seq(16, _ => 0), 0, Fontset + seq(MemorySize - 80, _ => 0), seq(16, _ => 0),
          0x200, 0, 0, 0, 0, seq(ScreenCells, _ => 0), seq(16, _ => 0))
  }

  /** Conversely, a state with the fields Reset promises is the reset state: the description is complete. */
  lemma ResetFromFields(before: State, m: State)
    requires Valid(m) && m.pc == 0x200 && m.sp == 0
    requires m.opcode == 0 && m.index == 0 && m.delayTimer == 0 && m.soundTimer == 0
    requires forall k :: 0 <= k < 16 ==> m.stack[k] == 0 && m.v[k] == 0 && m.key[k] == 0
    requires Blank(m.gfx)
    requires m.memory[..80] == Fontset
    requires forall k :: 80 <= k < MemorySize ==> m.memory[k] == 0
    ensures m == Reset(before)
  {
    var r := Reset(before);
    assert m.stack == r.stack && m.v == r.v && m.key == r.key;
    assert m.memory == m.memory[..80] + m.memory[80..];
    assert m.memory == r.memory;
    assert m.gfx == r.gfx;
  }

  // ---------------------------------------------------------------------
  // Stack discipline (cpu.go:220-234)
  // ---------------------------------------------------------------------

  /** The return addresses held, oldest first: slots 1 .. Sp. Slot 0 is never written by Push. */
  function StackContents(m: State): (s: seq<u16>)
    requires Valid(m)
  {
    m.stack[1..m.sp as int + 1]
  }

  /**
   * Push a into the slot above Sp. A full stack (15 entries) is left as it
   * is and a is dropped.
   */
  function Push(m: State, a: u16): (r: State)
    requires Valid(m)
    ensures Valid(r) && r == m.(stack := r.stack, sp := r.sp)
    ensures StackContents(r) == if m.sp < 0x0F then StackContents(m) + [a] else StackContents(m)
    ensures r.stack[0] == m.stack[0]
    ensures forall k :: r.sp < k < 16 ==> r.stack[k] == m.stack[k]
  {
    if m.sp < 0x0F then m.(sp := m.sp + 1, stack := m.stack[m.sp + 1 := a]) else m
  }

  /**
   * Read Stack[Sp], then lower Sp if it is above 0: the newest entry is
   * returned and removed; an empty stack returns Stack[0] and stays empty.
   */
  function Pop(m: State): (res: (u16, State))
    requires Valid(m)
    ensures Valid(res.1) && res.1 == m.(sp := res.1.sp)
    ensures StackContents(m) != [] ==>
      res.0 == StackContents(m)[|StackContents(m)| - 1] &&
      StackContents(res.1) == StackContents(m)[..|StackContents(m)| - 1]
    ensures StackContents(m) == [] ==> res == (m.stack[0], m)
  {
    var a := m.stack[m.sp];
    (a, if m.sp > 0 then m.(sp := m.sp - 1) else m)
  }

  /** A push that fits is undone by the next pop: it returns the pushed address and restores Sp. */
  lemma PushThenPop(m: State, a: u16)
    requires Valid(m) && m.sp < 0x0F
    ensures Pop(Push(m, a)).0 == a
    ensures Pop(Push(m, a)).1.sp == m.sp
    ensures StackContents(Pop(Push(m, a)).1) == StackContents(m)
  {
  }

  // ---------------------------------------------------------------------
  // Family 0x00: 00E0 clear screen, 00EE return (cpu.go:92-104)
  // ---------------------------------------------------------------------

  /** Every screen cell is unlit. */
  predicate Blank(gfx: seq<u8>)
  {
    forall k :: 0 <= k < |gfx| ==> gfx[k] == 0
  }

  function ClearScreen(m: State): (r: State)
    requires Valid(m)
    ensures Valid(r) && r == m.(gfx := r.gfx) && Blank(r.gfx)
  {
    m.(gfx := seq(ScreenCells, _ => 0))
  }

  /** 00EE: Pc becomes the address Pop returns. */
  function Return(m: State): (r: State)
    requires Valid(m)
    ensures Valid(r) && r == Pop(m).1.(pc := Pop(m).0)
  {
    var popped := Pop(m);
    popped.1.(pc := popped.0)
  }

  /** The 0x00 family selects on the low byte only; any other low byte does nothing. */
  function ZeroFamily(m: State, nn: u8): (r: State)
    requires Valid(m)
    ensures Valid(r) && Untouched(m, r)
    ensures nn !in {0xE0, 0xEE} ==> r == m
  {
    if nn == 0xE0 then ClearScreen(m)
    else if nn == 0xEE then Return(m)
    else m
  }

  // ---------------------------------------------------------------------
  // Jump and call (cpu.go:105-114)
  // ---------------------------------------------------------------------

  function Jump(m: State, nnn: u16): (r: State)
    requires Valid(m)
    ensures Valid(r) && r == m.(pc := nnn)
  {
    m.(pc := nnn)
  }

  /** 2NNN: the address of the next instruction is pushed, then Pc becomes nnn. */
  function Call(m: State, nnn: u16): (r: State)
    requires Valid(m)
    ensures Valid(r) && r.pc == nnn
    ensures r == Push(m, m.pc).(pc := nnn)
  {
    Push(m, m.pc).(pc := nnn)
  }

  // ---------------------------------------------------------------------
  // Conditional skips (cpu.go:118-137, 206-210)
  // ---------------------------------------------------------------------

  /** r differs from m in Pc only, and Pc moved by one instruction (2 bytes) exactly when skip holds. */
  predicate SkipsIff(m: State, r: State, skip: bool)
  {
    r == m.(pc := r.pc) &&
    (r.pc != m.pc <==> skip) &&
    (skip ==> r.pc as int == (m.pc as int + 2) % 0x1_0000)
  }

  /** 3XNN */
  function SkipIfEqual(m: State, x: u16, nn: u8): (r: State)
    requires Valid(m) && x < 16
    ensures Valid(r) && SkipsIff(m, r, m.v[x] == nn)
  {
    if m.v[x] == nn then m.(pc := Add16(m.pc, 2)) else m
  }

  /** 4XNN */
  function SkipIfNotEqual(m: State, x: u16, nn: u8): (r: State)
    requires Valid(m) && x < 16
    ensures Valid(r) && SkipsIff(m, r, m.v[x] != nn)
  {
    if m.v[x] != nn then m.(pc := Add16(m.pc, 2)) else m
  }

  /** 5XY0 */
  function SkipIfRegistersEqual(m: State, x: u16, y: u16): (r: State)
    requires Valid(m) && x < 16 && y < 16
    ensures Valid(r) && SkipsIff(m, r, m.v[x] == m.v[y])
  {
    if m.v[x] == m.v[y] then m.(pc := Add16(m.pc, 2)) else m
  }

  /** 9XY0 */
  function SkipIfRegistersDiffer(m: State, x: u16, y: u16): (r: State)
    requires Valid(m) && x < 16 && y < 16
    ensures Valid(r) && SkipsIff(m, r, m.v[x] != m.v[y])
  {
    if m.v[x] != m.v[y] then m.(pc := Add16(m.pc, 2)) else m
  }

  // ---------------------------------------------------------------------
  // Register operations (cpu.go:139-180, 200-202)
  // ---------------------------------------------------------------------

  /** r differs from m only in register x. */
  predicate OnlyRegister(m: State, r: State, x: u16)
  {
    |r.v| == |m.v| == 16 && r == m.(v := r.v) &&
    forall k :: 0 <= k < 16 && k != x as int ==> r.v[k] == m.v[k]
  }

  /** 6XNN */
  function SetImmediate(m: State, x: u16, nn: u8): (r: State)
    requires Valid(m) && x < 16
    ensures Valid(r) && OnlyRegister(m, r, x) && r.v[x] == nn
  {
    m.(v := m.v[x := nn])
  }

  /** 7XNN: wrapping add; VF is not touched unless it is VX itself. */
  function AddImmediate(m: State, x: u16, nn: u8): (r: State)
    requires Valid(m) && x < 16
    ensures Valid(r) && OnlyRegister(m, r, x)
    ensures r.v[x] as int == (m.v[x] as int + nn as int) % 0x100
  {
    m.(v := m.v[x := Add8(m.v[x], nn)])
  }

  /** 8XY0 */
  function Copy(m: State, x: u16, y: u16): (r: State)
    requires Valid(m) && x < 16 && y < 16
    ensures Valid(r) && OnlyRegister(m, r, x) && r.v[x] == m.v[y]
  {
    m.(v := m.v[x := m.v[y]])
  }

  /** 8XY1 */
  function Or(m: State, x: u16, y: u16): (r: State)
    requires Valid(m) && x < 16 && y < 16
    ensures Valid(r) && OnlyRegister(m, r, x)
    ensures forall k: nat :: Bit8(r.v[x], k) == (Bit8(m.v[x], k) || Bit8(m.v[y], k))
  {
    m.(v := m.v[x := Or8(m.v[x], m.v[y])])
  }

  /** 8XY2 */
  function And(m: State, x: u16, y: u16): (r: State)
    requires Valid(m) && x < 16 && y < 16
    ensures Valid(r) && OnlyRegister(m, r, x)
    ensures forall k: nat :: Bit8(r.v[x], k) == (Bit8(m.v[x], k) && Bit8(m.v[y], k))
  {
    m.(v := m.v[x := And8(m.v[x], m.v[y])])
  }

  /** 8XY3 */
  function Xor(m: State, x: u16, y: u16): (r: State)
    requires Valid(m) && x < 16 && y < 16
    ensures Valid(r) && OnlyRegister(m, r, x)
    ensures forall k: nat :: Bit8(r.v[x], k) == (Bit8(m.v[x], k) != Bit8(m.v[y], k))
  {
    m.(v := m.v[x := Xor8(m.v[x], m.v[y])])
  }

  /**
   * 8XY4 as written: the overflow test compares the uint8 sum, already
   * wrapped, with 0xFF, so it never holds and VF is never set.
   */
  function AddRegisters(m: State, x: u16, y: u16): (r: State)
    requires Valid(m) && x < 16 && y < 16
    ensures Valid(r) && OnlyRegister(m, r, x)
    ensures r.v[x] as int == (m.v[x] as int + m.v[y] as int) % 0x100
  {
    var sum := Add8(m.v[x], m.v[y]);
    RaiseFlagIf(m.(v := m.v[x := sum]), sum > 0xFF)
  }

  /**
   * 8XY4 with the overflow test done on the full-width sum. As in the
   * source, VF is set to 1 on overflow and otherwise left alone.
   */
  function AddRegistersWithCarry(m: State, x: u16, y: u16): (r: State)
    requires Valid(m) && x < 16 && y < 16
    ensures Valid(r) && r == m.(v := r.v)
    ensures forall k :: 0 <= k < 15 && k != x as int ==> r.v[k] == m.v[k]
    ensures x != VF ==> r.v[x] as int == (m.v[x] as int + m.v[y] as int) % 0x100
    ensures m.v[x] as int + m.v[y] as int > 0xFF ==> r.v[VF] == 1
    ensures m.v[x] as int + m.v[y] as int <= 0xFF ==>
      r.v[VF] == if x == VF then m.v[x] + m.v[y] else m.v[VF]
  {
    var overflow := m.v[x] as int + m.v[y] as int > 0xFF;
    RaiseFlagIf(m.(v := m.v[x := Add8(m.v[x], m.v[y])]), overflow)
  }

  /** The tail of 8XY4: VF is set to 1 when the overflow test held, and nothing else changes. */
  function RaiseFlagIf(m: State, overflow: bool): (r: State)
    requires Valid(m)
    ensures Valid(r) && OnlyRegister(m, r, VF)
    ensures r.v[VF] == if overflow then 1 else m.v[VF]
  {
    if overflow then m.(v := m.v[VF := 1]) else m
  }

  /** Which revision of the cycle is run: the source as written, or with its two defects fixed. */
  datatype Revision = AsWritten | Corrected

  /** The 0x80 family: a switch on N. 8XY5 and 8XY7 have empty bodies; other N do nothing. */
  function Arithmetic(m: State, x: u16, y: u16, n: u16, rev: Revision): (r: State)
    requires Valid(m) && (n <= 4 ==> x < 16 && y < 16)
    ensures Valid(r) && r == m.(v := r.v)
    ensures n > 4 ==> r == m
  {
    if n == 0x00 then Copy(m, x, y)
    else if n == 0x01 then Or(m, x, y)
    else if n == 0x02 then And(m, x, y)
    else if n == 0x03 then Xor(m, x, y)
    else if n == 0x04 then
      (if rev == AsWritten then AddRegisters(m, x, y) else AddRegistersWithCarry(m, x, y))
    else m
  }

  // ---------------------------------------------------------------------
  // The family switch of EmulateCycle (cpu.go:91-211)
  // ---------------------------------------------------------------------

  /**
   * The register numbers a selected case body reads are below 16; the source
   * indexes V with them and would panic otherwise.
   */
  predicate InRange(f: Fields)
  {
    (f.nib1 in {0x30, 0x40, 0x60, 0x70} ==> f.x < 16) &&
    (f.nib1 in {0x50, 0x90} ==> f.x < 16 && f.y < 16) &&
    (f.nib1 == 0x80 && f.n <= 4 ==> f.x < 16 && f.y < 16)
  }

  /** The switch on nib1 with the case labels 0x00, 0x10, ..., 0x90 of the source. */
  function Dispatch(m: State, f: Fields, rev: Revision): (r: State)
    requires Valid(m) && InRange(f)
    ensures Valid(r) && Untouched(m, r)
    ensures f.nib1 !in {0x00, 0x10, 0x20, 0x30, 0x40, 0x50, 0x60, 0x70, 0x80, 0x90} ==> r == m
  {
    match f.nib1
    case 0x00 => ZeroFamily(m, f.nn)
    case 0x10 => Jump(m, f.nnn)
    case 0x20 => Call(m, f.nnn)
    case 0x30 => SkipIfEqual(m, f.x, f.nn)
    case 0x40 => SkipIfNotEqual(m, f.x, f.nn)
    case 0x50 => SkipIfRegistersEqual(m, f.x, f.y)
    case 0x60 => SetImmediate(m, f.x, f.nn)
    case 0x70 => AddImmediate(m, f.x, f.nn)
    case 0x80 => Arithmetic(m, f.x, f.y, f.n, rev)
    case 0x90 => SkipIfRegistersDiffer(m, f.x, f.y)
    case _ => m
  }

  /** The fields a revision decodes from an opcode. */
  function DecodeAs(op: u16, rev: Revision): (f: Fields)
    ensures InRange(f)
  {
    if rev == AsWritten then Decode(op) else DecodeCorrected(op)
  }

  /** One cycle: fetch the opcode at Pc, advance Pc by 2, decode, dispatch. */
  function Cycle(m: State, rev: Revision): (r: State)
    requires Valid(m) && m.pc as int + 1 < MemorySize
    ensures Valid(r) && Untouched(m, r)
  {
    Dispatch(Advance(m), DecodeAs(Fetch(m), rev), rev)
  }
}
