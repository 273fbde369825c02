# CHIP-8 interpreter core (cpu.go) in Dafny

This project models `cpu.go` of a Go CHIP-8 interpreter. CHIP-8 is the
virtual machine of the COSMAC VIP. The file holds the machine state (the
`Chip8` struct), the 80-byte `Fontset`, `Init`, the `Push`/`Pop` stack and
`EmulateCycle`: fetch a big-endian opcode at `Pc`, advance `Pc` by 2, mask
out the fields, and switch on the instruction family.

Modules:

- `Bits` (`bits.dfy`): `uint8`/`uint16` as range-restricted integers. Go's
  wrapping `+`, `<<`, `>>` and the bitwise `&`, `|`, `^` are written out.
  The bitwise operators are defined bit by bit. Lemmas give their meaning
  per bit and, for the decoder's masks, as arithmetic.
- `Opcode` (`opcode.dfy`): assembling the opcode from two bytes, and the
  masks. `Decode` leaves the fields unshifted, as the source does.
  `DecodeCorrected` shifts them.
- `Machine` (`machine.dfy`): the struct as a value (`State`). Every case
  body, `Push`, `Pop` and the cycle are functions from the old state to the
  new one. The `Revision` parameter selects the dispatch as written
  (`AsWritten`) or with the two defects below fixed (`Corrected`).
- `CycleProperties` (`cycle_properties.dfy`): lemmas about whole cycles.
- `Cpu` (`cpu.dfy`): the class `Chip8`. Its fixed arrays are `array` fields
  that are updated in place. Every method except the four loop helpers of
  `Init` is proved to leave `State()` equal to the matching `Machine`
  function applied to `old(State())`; for `Init` that function is
  `Machine.Reset`, whose result does not depend on the old state. The four
  loop helpers (`ClearDisplay`, `ClearStackKeysRegisters`, `ClearMemory`,
  `LoadFontset`) each ensure the contents of the one array they write. They
  and the clear-screen case are index loops with invariants.

Integer widths are explicit. `Pc + 2` wraps modulo 2^16 and `V[x] + nn`
wraps modulo 2^8. `Sp` is a `uint8` kept within 0..15. The fetch requires
`Pc + 1 < 4096`, because Go would panic when indexing `Memory` past that.

The code departs from the usual CHIP-8 design in these places, and the model
follows the code:

- The stack holds at most 15 return addresses, not 16. Slot 0 is never
  written by `Push` (only `Init` writes it, with 0), and `Pop` on an empty
  stack returns `Stack[0]`.
- 8XY5 and 8XY7 have empty bodies, so they do nothing.
- The overflow test of 8XY4 never writes 0 to VF; as written it never
  writes VF at all, and corrected it writes only 1. When X is F, VF also
  receives the stored sum, in both revisions.
- The fields are not shifted, so the family switch reaches only 0x00 (see
  Findings).

## Model

| member | source | states |
|---|---|---|
| `Bits.Or8` | cpu.go:154-156 | bit k of `a \| b` is set iff bit k is set in `a` or in `b` |
| `Bits.And8` | cpu.go:157-159 | bit k of `a & b` is set iff bit k is set in both operands |
| `Bits.Xor8` | cpu.go:160-162 | bit k of `a ^ b` is set iff bit k is set in exactly one operand |
| `Opcode.Assemble` | cpu.go:57-63 | `uint16(code1) << 8 + uint16(code2)` equals `code1*256 + code2`, and the opcode's high and low bytes give back the two bytes |
| `Opcode.MaskFacts` | cpu.go:79-84 | each of the masks 0xF000, 0x0F00, 0x00F0, 0x000F, 0x00FF, 0x0FFF, applied with bitwise `&`, equals a division/remainder expression on the opcode |
| `Opcode.Decode` | cpu.go:79-84 | as written, `nib1` is the top nibble times 0x1000, `X` the second nibble times 0x100, `Y` the third times 0x10; `N`, `NN`, `NNN` are the low 4, 8 and 12 bits |
| `Opcode.DecodeCorrected` | cpu.go:72-84 | with the shifts added, `nib1` is the top nibble times 0x10 (the scale the case labels use), and `X` and `Y` are register numbers 0..15 |
| `Opcode.CorrectedFieldsOfBytes` | cpu.go:72-76 | the corrected fields of an assembled opcode are the nibbles and bytes of the two memory bytes |
| `Machine.Reset` | cpu.go:236-268 | whatever the state before, the reset state: `Pc == 0x200`; `Sp`, `Opcode`, `I` and both timers 0; the stack empty and every stack slot, register and key 0; the screen blank; `Memory[0..80)` the fontset and `Memory[80..4096)` zero |
| `Machine.ResetFromFields` | cpu.go:236-268 | the converse of `Reset`'s contract: any state with those field values is `Reset(before)` for every `before`, so the contract describes the reset state completely |
| `Machine.Fetch` | cpu.go:57-63 | the opcode equals `Memory[Pc]*256 + Memory[Pc+1]` |
| `Machine.Advance` | cpu.go:66 | only `Pc` changes, to `(Pc + 2) mod 2^16` |
| `Machine.Push` | cpu.go:220-225 | with fewer than 15 entries the address is appended to the stack contents (slots 1..Sp), otherwise nothing changes; slot 0 and the slots above Sp are untouched; Sp stays within 0..15 |
| `Machine.Pop` | cpu.go:228-234 | on a non-empty stack it returns the newest entry and removes it; on an empty stack it returns `Stack[0]` and changes nothing; only Sp ever changes |
| `Machine.PushThenPop` | cpu.go:220-234 | a push onto a stack with Sp < 15, then a pop, returns the pushed address and restores Sp and the stack contents |
| `Machine.ClearScreen` | cpu.go:93-98 | every one of the 2048 screen cells is 0, and nothing else changes |
| `Machine.Return` | cpu.go:99-103 | `Pc` becomes the address `Pop` returns, in the state `Pop` leaves |
| `Machine.ZeroFamily` | cpu.go:92-104 | a low byte other than E0 or EE changes nothing; memory, I, timers, keys and stack slot 0 are never written |
| `Machine.Jump` | cpu.go:105-107 | `Pc` becomes NNN and nothing else changes |
| `Machine.Call` | cpu.go:108-114 | `Pc` is pushed, then `Pc` becomes NNN |
| `Machine.SkipIfEqual` | cpu.go:118-124 | only `Pc` changes, and it moves by 2 (mod 2^16) iff `V[x] == nn` |
| `Machine.SkipIfNotEqual` | cpu.go:125-130 | only `Pc` changes, and it moves by 2 iff `V[x] != nn` |
| `Machine.SkipIfRegistersEqual` | cpu.go:133-137 | only `Pc` changes, and it moves by 2 iff `V[x] == V[y]` |
| `Machine.SkipIfRegistersDiffer` | cpu.go:206-210 | only `Pc` changes, and it moves by 2 iff `V[x] != V[y]` |
| `Machine.SetImmediate` | cpu.go:139-141 | `V[x] == nn`; no other register and no other field changes |
| `Machine.AddImmediate` | cpu.go:143-147 | `V[x] == (V[x] + nn) mod 256`; no other register changes, so VF is untouched unless x is F |
| `Machine.Copy` | cpu.go:151-153 | `V[x] == V[y]`, only register x changes |
| `Machine.Or` | cpu.go:154-156 | every bit of the new `V[x]` is the OR of the bits of `V[x]` and `V[y]`; only register x changes |
| `Machine.And` | cpu.go:157-159 | every bit of the new `V[x]` is the AND of the bits; only register x changes |
| `Machine.Xor` | cpu.go:160-162 | every bit of the new `V[x]` is the XOR of the bits; only register x changes |
| `Machine.AddRegisters` | cpu.go:164-180 | as written, `V[x] == (V[x] + V[y]) mod 256` and no other register changes: the uint8 overflow test never holds, so VF is never set |
| `Machine.RaiseFlagIf` | cpu.go:177-180 | VF is 1 if the overflow test held and keeps its old value otherwise; no other register changes |
| `Machine.AddRegistersWithCarry` | cpu.go:164-180 | with the test on the full-width sum, VF is 1 whenever `V[x] + V[y] > 255`; otherwise VF keeps its value (or takes the sum when x is F); `V[x]` is the sum mod 256 |
| `Machine.Arithmetic` | cpu.go:149-204 | only registers change; N greater than 4 (8XY5, 8XY7 and every undefined N) changes nothing |
| `Machine.Dispatch` | cpu.go:91-211 | a `nib1` matching none of the labels 0x00..0x90 changes nothing; no case writes memory, I, timers, keys or stack slot 0 |
| `Machine.Cycle` | cpu.go:54-217 | a cycle, in either revision, never writes memory, I, Opcode, timers, keys or stack slot 0 |
| `CycleProperties.UnshiftedNibbleMissesLabels` | cpu.go:79-211 | for an opcode whose top nibble is nonzero, `opcode & 0xF000` is a nonzero multiple of 0x1000 and equals none of the case labels 0x00..0x90 |
| `CycleProperties.DeadDispatch` | cpu.go:54-211 | as written, every opcode at or above 0x1000 only advances `Pc` by 2 |
| `CycleProperties.ZeroFamilyCycle` | cpu.go:92-104 | as written, for an opcode below 0x1000 the low byte alone decides, whatever the X nibble is: E0 clears the screen, EE sets `Pc` to the popped address, anything else only advances `Pc` |
| `CycleProperties.CorrectedDispatch` | cpu.go:91-211 | corrected, the case body named by the high nibble of `Memory[Pc]` runs with X, Y, NN and NNN read from the two bytes |
| `CycleProperties.CorrectedCycleOfBytes` | cpu.go:57-91 | corrected, the cycle switches on the fields read off the two bytes at `Pc`, and those fields index registers within range |
| `CycleProperties.AddProgramIgnored` | cpu.go:54-211 | as written, the program 6005 6103 8014 at 0x200 leaves every register unchanged and only moves `Pc` to 0x206 |
| `CycleProperties.AddProgramRuns` | cpu.go:139-180 | corrected, the three cycles give exactly: V0 = 5 and `Pc` 0x202, then V1 = 3 and `Pc` 0x204, then V0 = 8 and `Pc` 0x206; VF, every other register and every other field keep their values |
| `CycleProperties.CallThenReturn` | cpu.go:99-114 | corrected, a 2NNN call to a subroutine starting with 00EE comes back to the instruction after the call, with Sp and the stack contents restored |
| `CycleProperties.CarryLost` | cpu.go:168-180 | with `V[x] = 0xFF` and `V[y] = 0x01`, as written VF stays 0; corrected, VF becomes 1; both store 0 in `V[x]` |
| `Cpu.Chip8.constructor` | cpu.go:24-42 | a new machine has every field zero (Go's zero value of the struct) |
| `Cpu.Chip8.Init` | cpu.go:236-268 | from any state of the right shape, the new state is `Machine.Reset` of the old one |
| `Cpu.Chip8.ClearDisplay` | cpu.go:242-246 | after the loop every one of the 2048 screen cells is 0 |
| `Cpu.Chip8.ClearStackKeysRegisters` | cpu.go:248-253 | after the loop all 16 stack slots, keys and registers are 0 |
| `Cpu.Chip8.ClearMemory` | cpu.go:255-258 | after the loop all 4096 memory cells are 0 |
| `Cpu.Chip8.LoadFontset` | cpu.go:260-263 | after the loop `Memory[0..80)` is the fontset and `Memory[80..4096)` is as before |
| `Cpu.Chip8.Push` | cpu.go:220-225 | the new state is `Machine.Push` of the old one |
| `Cpu.Chip8.Pop` | cpu.go:228-234 | the returned address and the new state are `Machine.Pop` of the old state |
| `Cpu.Chip8.ClearScreen` | cpu.go:93-98 | the loop leaves the state `Machine.ClearScreen` gives: all 2048 cells 0 |
| `Cpu.Chip8.Return` | cpu.go:99-103 | the new state is `Machine.Return` of the old one |
| `Cpu.Chip8.Jump` | cpu.go:105-107 | the new state is `Machine.Jump` of the old one |
| `Cpu.Chip8.Call` | cpu.go:108-114 | the new state is `Machine.Call` of the old one |
| `Cpu.Chip8.SkipIfEqual` | cpu.go:118-124 | the new state is `Machine.SkipIfEqual` of the old one |
| `Cpu.Chip8.SkipIfNotEqual` | cpu.go:125-130 | the new state is `Machine.SkipIfNotEqual` of the old one |
| `Cpu.Chip8.SkipIfRegistersEqual` | cpu.go:133-137 | the new state is `Machine.SkipIfRegistersEqual` of the old one |
| `Cpu.Chip8.SkipIfRegistersDiffer` | cpu.go:206-210 | the new state is `Machine.SkipIfRegistersDiffer` of the old one |
| `Cpu.Chip8.SetImmediate` | cpu.go:139-141 | the new state is `Machine.SetImmediate` of the old one |
| `Cpu.Chip8.AddImmediate` | cpu.go:143-147 | the new state is `Machine.AddImmediate` of the old one |
| `Cpu.Chip8.Copy` | cpu.go:151-153 | the new state is `Machine.Copy` of the old one |
| `Cpu.Chip8.Or` | cpu.go:154-156 | the new state is `Machine.Or` of the old one |
| `Cpu.Chip8.And` | cpu.go:157-159 | the new state is `Machine.And` of the old one |
| `Cpu.Chip8.Xor` | cpu.go:160-162 | the new state is `Machine.Xor` of the old one |
| `Cpu.Chip8.AddRegisters` | cpu.go:164-180 | the new state is `Machine.AddRegisters` of the old one |
| `Cpu.Chip8.AddRegistersWithCarry` | cpu.go:164-180 | the new state is `Machine.AddRegistersWithCarry` of the old one |
| `Cpu.Chip8.RaiseFlagIf` | cpu.go:177-180 | the new state is `Machine.RaiseFlagIf` of the old one |
| `Cpu.Chip8.Arithmetic` | cpu.go:149-204 | the new state is `Machine.Arithmetic` of the old one |
| `Cpu.Chip8.Dispatch` | cpu.go:91-211 | the new state is `Machine.Dispatch` of the old one |
| `Cpu.Chip8.EmulateCycle` | cpu.go:54-217 | the new state is `Machine.Cycle(old, AsWritten)`; the properties of one cycle follow from the `CycleProperties` lemmas |
| `Cpu.Chip8.EmulateCycleCorrected` | cpu.go:54-217 | the new state is `Machine.Cycle(old, Corrected)` |

## Findings

| source | as written | input that shows it | evidently intended | confidence | as-written member | corrected member |
|---|---|---|---|---|---|---|
| cpu.go:79-81 | `nib1`, `X` and `Y` are masked but not shifted. `nib1` is a multiple of 0x1000, so it never equals the labels 0x10..0x90. Shifting `nib1` alone would not be enough either, because `c.V[X]` would then index V with 0x100..0xF00 | opcodes 6005 6103 8014 at 0x200: after three cycles V0 is still 0 and only `Pc` moved | `nib1 >> 8` against the same labels, `X >> 8`, `Y >> 4` | high; not executed | `CycleProperties.AddProgramIgnored` | `CycleProperties.AddProgramRuns` |
| cpu.go:170 | `c.V[X] + c.V[Y]` is a wrapped uint8 sum, so `> 0xFF` never holds and VF is never set | `V[x] = 0xFF`, `V[y] = 0x01`: the sum 0x100 overflows, yet VF keeps its value | compare the full-width sum with 0xFF | high; not executed | `Machine.AddRegisters` | `Machine.AddRegistersWithCarry` |

`CycleProperties.CarryLost` shows both halves of the second finding side by
side. The `Corrected` revision of `Machine.Cycle` and
`Cpu.Chip8.EmulateCycleCorrected` use both fixes. `Cpu.Chip8.EmulateCycle`
stays as written.

## Left out

- The `fmt.Println` calls at cpu.go:85-89 print the fields to the console. They have no effect on the state.
- Timer decrement and 60 Hz display pacing exist only as comments at cpu.go:212-216. There is no logic to model.
- Instructions that `cpu.go` does not contain are not modelled. These are Annn to Fx65, Dxyn sprite drawing, BCD, key wait, random, and the 8XY6/8XYE shifts.
- The window, rendering, keyboard polling and ROM file loading are not part of this model. Loading a program shows up only as a precondition on memory (`CycleProperties.AddProgramLoaded`).
- `Opcode` and `Key` are plain fields. They are zeroed by `Init` and read by nothing else.
- `Machine.Fetch`: a `Pc` of 4095 or more is excluded by a precondition. The Go code would panic there with an index out of range, so this case is not modelled as behaviour.
- `Machine.Dispatch`: as written, the register-indexing cases would panic on an unshifted `X` or `Y` of 0x10 or more. These cases cannot be reached, so the model requires in-range indexes (`Machine.InRange`) instead of modelling the panic.
