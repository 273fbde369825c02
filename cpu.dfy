/**
 * The Chip8 struct of cpu.go as a class: its fixed-size arrays become array
 * fields allocated once, and its pointer-receiver methods become methods
 * that update them in place. Each method is proved to leave State() equal
 * to the corresponding function of module Machine applied to the old State();
 * the four loops of Init are methods of their own, each proved to set the
 * array it writes.
 */
module Cpu {
  import opened Bits
  import opened Opcode
  import Machine

  class Chip8 {
    const stack: array<u16>
    var sp: u8

    const memory: array<u8>
    /** The registers V0 .. VF. */
    const v: array<u8>

    var pc: u16
    var opcode: u16
    /** The index register I. */
    var index: u16

    var delayTimer: u8
    var soundTimer: u8

    const gfx: array<u8>
    const key: array<u8>

    /** The array sizes of the struct; the two 16-byte arrays are distinct. */
    ghost predicate Shaped()
      reads this
    {
      stack.Length == 16 && memory.Length == Machine.MemorySize && v.Length == 16 &&
      gfx.Length == Machine.ScreenCells && key.Length == 16 && v != key
    }

    /** Shaped, and Sp within the stack, as Push, Pop and Init keep it. */
    ghost predicate Valid()
      reads this
    {
      Shaped() && sp <= 15
    }

    /** The machine state held by this object. */
    ghost function State(): (m: Machine.State)
      reads this, stack, memory, v, gfx, key
      ensures Valid() ==> Machine.Valid(m)
    {
      Machine.State(stack[..], sp, memory[..], v[..], pc, opcode, index,
                    delayTimer, soundTimer, gfx[..], key[..])
    }

    /** A Chip8 value as Go declares it: every field zero. */
    constructor ()
      ensures Valid() && fresh(stack) && fresh(memory) && fresh(v) && fresh(gfx) && fresh(key)
      ensures sp == 0 && pc == 0 && opcode == 0 && index == 0 && delayTimer == 0 && soundTimer == 0
      ensures forall k :: 0 <= k < 16 ==> stack[k] == 0 && v[k] == 0 && key[k] == 0
      ensures forall k :: 0 <= k < Machine.MemorySize ==> memory[k] == 0
      ensures Machine.Blank(gfx[..])
    {
      stack := new u16[16](_ => 0);
      memory := new u8[Machine.MemorySize](_ => 0);
      v := new u8[16](_ => 0);
      gfx := new u8[Machine.ScreenCells](_ => 0);
      key := new u8[16](_ => 0);
      sp, pc, opcode, index := 0, 0, 0, 0;
      delayTimer, soundTimer := 0, 0;
    }

    /** Reset (Machine.Reset): Pc at 0x200, the fontset in memory[0 .. 80), every other field zero. */
    method Init()
      requires Shaped()
      modifies this, stack, memory, v, gfx, key
      ensures Valid() && State() == Machine.Reset(old(State()))
    {
      pc := 0x200;
      opcode := 0;
      index := 0;
      sp := 0;
      ClearDisplay();
      ClearStackKeysRegisters();
      ClearMemory();
      LoadFontset();
      delayTimer := 0;
      soundTimer := 0;
      Machine.ResetFromFields(old(State()), State());
    }

    /** The display loop of Init (cpu.go:242-246). */
    method ClearDisplay()
      requires Shaped()
      modifies gfx
      ensures Machine.Blank(gfx[..])
    {
      for i := 0 to 2048
        invariant forall k :: 0 <= k < i ==> gfx[k] == 0
      {
        gfx[i] := 0;
      }
    }

    /** The loop of Init over the stack, the keys and the registers (cpu.go:248-253). */
    method ClearStackKeysRegisters()
      requires Shaped()
      modifies stack, key, v
      ensures forall k :: 0 <= k < 16 ==> stack[k] == 0 && key[k] == 0 && v[k] == 0
    {
      for i := 0 to 16
        invariant forall k :: 0 <= k < i ==> stack[k] == 0 && key[k] == 0 && v[k] == 0
      {
        stack[i] := 0;
        key[i] := 0;
        v[i] := 0;
      }
    }

    /** The memory loop of Init (cpu.go:255-258). */
    method ClearMemory()
      requires Shaped()
      modifies memory
      ensures forall k :: 0 <= k < Machine.MemorySize ==> memory[k] == 0
    {
      for i := 0 to 4096
        invariant forall k :: 0 <= k < i ==> memory[k] == 0
      {
        memory[i] := 0;
      }
    }

    /** The fontset loop of Init (cpu.go:260-263): memory[0 .. 80) becomes the fontset, the rest is kept. */
    method LoadFontset()
      requires Shaped()
      modifies memory
      ensures memory[..80] == Machine.Fontset && memory[80..] == old(memory[80..])
    {
      for i := 0 to 80
        invariant forall k :: 0 <= k < i ==> memory[k] == Machine.Fontset[k]
        invariant memory[80..] == old(memory[80..])
      {
        memory[i] := Machine.Fontset[i];
      }
    }

    method Push(a: u16)
      requires Valid()
      modifies this`sp, stack
      ensures Valid() && State() == Machine.Push(old(State()), a)
    {
      if sp < 0x0F {
        sp := sp + 1;
        stack[sp] := a;
      }
    }

    method Pop() returns (a: u16)
      requires Valid()
      modifies this`sp
      ensures Valid() && (a, State()) == Machine.Pop(old(State()))
    {
      a := stack[sp];
      if sp > 0 {
        sp := sp - 1;
      }
    }

    /** 00E0 */
    method ClearScreen()
      requires Valid()
      modifies gfx
      ensures Valid() && State() == Machine.ClearScreen(old(State()))
    {
      for i := 0 to 64 * 32
        invariant forall k :: 0 <= k < i ==> gfx[k] == 0
      {
        gfx[i] := 0;
      }
      assert gfx[..] == seq(Machine.ScreenCells, _ => 0);
    }

    /** 00EE */
    method Return()
      requires Valid()
      modifies this`sp, this`pc
      ensures Valid() && State() == Machine.Return(old(State()))
    {
      var address := Pop();
      pc := address;
    }

    /** 1NNN */
    method Jump(nnn: u16)
      requires Valid()
      modifies this`pc
      ensures Valid() && State() == Machine.Jump(old(State()), nnn)
    {
      pc := nnn;
    }

    /** 2NNN */
    method Call(nnn: u16)
      requires Valid()
      modifies this`sp, this`pc, stack
      ensures Valid() && State() == Machine.Call(old(State()), nnn)
    {
      Push(pc);
      pc := nnn;
    }

    /** 3XNN */
    method SkipIfEqual(x: u16, nn: u8)
      requires Valid() && x < 16
      modifies this`pc
      ensures Valid() && State() == Machine.SkipIfEqual(old(State()), x, nn)
    {
      var vx := v[x];
      if vx == nn {
        pc := Add16(pc, 0x02);
      }
    }

    /** 4XNN */
    method SkipIfNotEqual(x: u16, nn: u8)
      requires Valid() && x < 16
      modifies this`pc
      ensures Valid() && State() == Machine.SkipIfNotEqual(old(State()), x, nn)
    {
      var vx := v[x];
      if vx != nn {
        pc := Add16(pc, 0x02);
      }
    }

    /** 5XY0 */
    method SkipIfRegistersEqual(x: u16, y: u16)
      requires Valid() && x < 16 && y < 16
      modifies this`pc
      ensures Valid() && State() == Machine.SkipIfRegistersEqual(old(State()), x, y)
    {
      if v[x] == v[y] {
        pc := Add16(pc, 0x02);
      }
    }

    /** 9XY0 */
    method SkipIfRegistersDiffer(x: u16, y: u16)
      requires Valid() && x < 16 && y < 16
      modifies this`pc
      ensures Valid() && State() == Machine.SkipIfRegistersDiffer(old(State()), x, y)
    {
      if v[x] != v[y] {
        pc := Add16(pc, 0x02);
      }
    }

    /** 6XNN */
    method SetImmediate(x: u16, nn: u8)
      requires Valid() && x < 16
      modifies v
      ensures Valid() && State() == Machine.SetImmediate(old(State()), x, nn)
    {
      v[x] := nn;
    }

    /** 7XNN */
    method AddImmediate(x: u16, nn: u8)
      requires Valid() && x < 16
      modifies v
      ensures Valid() && State() == Machine.AddImmediate(old(State()), x, nn)
    {
      v[x] := Add8(v[x], nn);
    }

    /** 8XY0 */
    method Copy(x: u16, y: u16)
      requires Valid() && x < 16 && y < 16
      modifies v
      ensures Valid() && State() == Machine.Copy(old(State()), x, y)
    {
      v[x] := v[y];
    }

    /** 8XY1 */
    method Or(x: u16, y: u16)
      requires Valid() && x < 16 && y < 16
      modifies v
      ensures Valid() && State() == Machine.Or(old(State()), x, y)
    {
      v[x] := Or8(v[x], v[y]);
    }

    /** 8XY2 */
    method And(x: u16, y: u16)
      requires Valid() && x < 16 && y < 16
      modifies v
      ensures Valid() && State() == Machine.And(old(State()), x, y)
    {
      v[x] := And8(v[x], v[y]);
    }

    /** 8XY3 */
    method Xor(x: u16, y: u16)
      requires Valid() && x < 16 && y < 16
      modifies v
      ensures Valid() && State() == Machine.Xor(old(State()), x, y)
    {
      v[x] := Xor8(v[x], v[y]);
    }

    /** 8XY4 as written: the overflow test is on the wrapped uint8 sum. */
    method AddRegisters(x: u16, y: u16)
      requires Valid() && x < 16 && y < 16
      modifies v
      ensures Valid() && State() == Machine.AddRegisters(old(State()), x, y)
    {
      var overflow := false;
      if Add8(v[x], v[y]) > 0xFF {
        overflow := true;
      }
      v[x] := Add8(v[x], v[y]);
      RaiseFlagIf(overflow);
    }

    /** 8XY4 with the overflow test on the full-width sum. */
    method AddRegistersWithCarry(x: u16, y: u16)
      requires Valid() && x < 16 && y < 16
      modifies v
      ensures Valid() && State() == Machine.AddRegistersWithCarry(old(State()), x, y)
    {
      var overflow := false;
      if v[x] as int + v[y] as int > 0xFF {
        overflow := true;
      }
      v[x] := Add8(v[x], v[y]);
      RaiseFlagIf(overflow);
    }

    /** The tail of 8XY4: VF := 1 if the overflow test held. */
    method RaiseFlagIf(overflow: bool)
      requires Valid()
      modifies v
      ensures Valid() && State() == Machine.RaiseFlagIf(old(State()), overflow)
    {
      if overflow {
        v[Machine.VF] := 1;
      }
    }

    /** The 0x80 family: the switch on N. */
    method Arithmetic(x: u16, y: u16, n: u16, rev: Machine.Revision)
      requires Valid() && (n <= 4 ==> x < 16 && y < 16)
      modifies v
      ensures Valid() && State() == Machine.Arithmetic(old(State()), x, y, n, rev)
    {
      match n
      case 0x00 => Copy(x, y);
      case 0x01 => Or(x, y);
      case 0x02 => And(x, y);
      case 0x03 => Xor(x, y);
      case 0x04 =>
        if rev == Machine.AsWritten {
          AddRegisters(x, y);
        } else {
          AddRegistersWithCarry(x, y);
        }
      case 0x05 =>
      case 0x07 =>
      case _ =>
    }

    /** The switch on nib1 with the labels 0x00 .. 0x90. */
    method Dispatch(f: Fields, rev: Machine.Revision)
      requires Valid() && Machine.InRange(f)
      modifies this`sp, this`pc, stack, v, gfx
      ensures Valid() && State() == Machine.Dispatch(old(State()), f, rev)
    {
      match f.nib1
      case 0x00 =>
        if f.nn == 0xE0 {
          ClearScreen();
        } else if f.nn == 0xEE {
          Return();
        }
      case 0x10 => Jump(f.nnn);
      case 0x20 => Call(f.nnn);
      case 0x30 => SkipIfEqual(f.x, f.nn);
      case 0x40 => SkipIfNotEqual(f.x, f.nn);
      case 0x50 => SkipIfRegistersEqual(f.x, f.y);
      case 0x60 => SetImmediate(f.x, f.nn);
      case 0x70 => AddImmediate(f.x, f.nn);
      case 0x80 => Arithmetic(f.x, f.y, f.n, rev);
      case 0x90 => SkipIfRegistersDiffer(f.x, f.y);
      case _ =>
    }

    /** One cycle as written: fetch, Pc += 2, mask the fields (unshifted), dispatch. */
    method EmulateCycle()
      requires Valid() && pc as int + 1 < Machine.MemorySize
      modifies this`sp, this`pc, stack, v, gfx
      ensures Valid() && State() == Machine.Cycle(old(State()), Machine.AsWritten)
    {
      var code1 := memory[pc];
      var code2 := memory[pc + 0x01];
      var op := Assemble(code1, code2);
      pc := Add16(pc, 0x02);
      Dispatch(Decode(op), Machine.AsWritten);
    }

    /** One cycle with the fields shifted and the 8XY4 carry test on the full sum. */
    method EmulateCycleCorrected()
      requires Valid() && pc as int + 1 < Machine.MemorySize
      modifies this`sp, this`pc, stack, v, gfx
      ensures Valid() && State() == Machine.Cycle(old(State()), Machine.Corrected)
    {
      var code1 := memory[pc];
      var code2 := memory[pc + 0x01];
      var op := Assemble(code1, code2);
      pc := Add16(pc, 0x02);
      Dispatch(DecodeCorrected(op), Machine.Corrected);
    }
  }
}
