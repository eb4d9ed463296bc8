# 6502 processor core: a Dafny model

This project models the processor core of an early 6502 emulator written in C:
the status-flag masks and register file, the flat 64 KiB memory, `cpu_reset`,
the three addressing modes it has (immediate, zero page, absolute) and its four
instructions (`LDA`, `LDX`, `STA`, `NOP`).

The model follows the C code's imperative form. `Mem.Memory` is a class over an
`array<bv8>` of 0x10000 cells. `Cpu.CPU` is a class with one field per register.
`cpu_reset` is a method of that class. The addressing modes and instructions are
module-level methods that take the `CPU` and change only the fields they assign,
as the C functions do through their `CPU *` argument. `Init` is proved to leave
all-zero contents and `NOP` to leave the registers as they were. Every other
method is proved equal to a specification function on values: `Mem.Store` for a write, and for
the registers a `Registers` snapshot passed through `Cpu.AfterReset`,
`Addressing.Immediate`, `ZeroPage`, `Absolute`, `Instructions.LoadA` or `LoadX`.
The lemmas state the source's promises about these functions.

Types: a byte (`u8`) is a `bv8`, so its arithmetic and masks behave like C's
`uint8_t`. An address (`u16`) and the cycle counter (`u64`) are integers bounded
to their width. Every step that moves PC wraps it explicitly: `PC++` on a `u16`
becomes `(PC + 1) % 0x10000`.

Modelling assumptions, where the C code is incomplete:
- The `CPU` struct (include/cpu.h:18-31) declares no `fetched`, `addr_abs` or
  `mem` fields, yet src/addressing.c:7,13 and src/instructions.c:21 use them.
  The model gives `CPU` a byte `fetched`, an address `addrAbs` and a reference
  `mem` to the `Memory` the modes and instructions use.
- `cpu_set_flag` is called (src/instructions.c:6-7,13-14) but is declared and
  defined in none of these files (include/cpu.h has no prototype for it).
  `Cpu.SetFlag` assumes its evident contract. The flag's mask bit is set when
  the argument is true and cleared otherwise. The other bits of P are untouched.
- include/instructions.h:7-8 declares `ins_LDA_immediate` and
  `ins_LDX_immediate`. src/instructions.c defines `ins_LDA` and `ins_LDX`. The
  model follows the definitions.
- `cpu_reset` reads the vector from the `Memory` passed to it. It does not
  attach that memory to the CPU, and neither does `Cpu.CPU.Reset`.
- The C code never shows how a `CPU` is created. `Cpu.CPU.constructor` attaches
  a memory and clears every register; a program must still call `Reset`.

A full 6502 emulator also has further addressing modes, the rest of the
instruction set, an opcode table, a step loop and interrupts. This code has none
of them, so neither does the model. `cpu_reset` has no interrupt latches to
clear.

## Model

| member | source | states |
|---|---|---|
| Mem.Memory.constructor | include/memory.h:10-12 | a memory has exactly 0x10000 cells, one per 16-bit address |
| Mem.Memory.Init | src/memory.c:5-7 | after `mem_init` the contents are 0x10000 zero bytes, so every 16-bit address reads 0 |
| Mem.Memory.Read | src/memory.c:10-13 | `mem_read` is total: it needs no condition on the address and returns the byte stored there; as a function it changes nothing |
| Mem.Memory.Write | src/memory.c:16-18 | after `mem_write(a, v)` the contents are `Store` of the old ones: `a` reads back `v` and every other address reads what it read before |
| Mem.Store | src/memory.c:17 | the written cell holds the new value; every other cell keeps its old value |
| Mem.StoreIdempotent | src/memory.c:17 | writing the same value to the same address twice gives the same memory as writing it once |
| Mem.StoreUnchanged | src/memory.c:17 | writing back the byte a cell already holds leaves the memory unchanged |
| Cpu.Position | include/cpu.h:9-16 | flag positions are bits 0..7 |
| Cpu.MaskIsSingleBit | include/cpu.h:9-16 | each mask `FLAG_C`..`FLAG_N` is the single bit `1 << k` with k = 0..7, in the order C, Z, I, D, B, U, V, N |
| Cpu.MasksDisjoint | include/cpu.h:9-16 | the masks of two different flags share no bit |
| Cpu.MasksCoverStatus | include/cpu.h:9-16 | the OR of the eight masks is 0xFF, so together they cover the whole status byte |
| Cpu.FlagsDetermineStatus | include/cpu.h:26-27 | P is exactly its eight flags: two status bytes with the same flags are equal |
| Cpu.SetFlag | src/instructions.c:6-7 | (assumed contract of `cpu_set_flag`) the named flag reads back as the given bool; every other flag keeps its value |
| Cpu.SetFlagToCurrent | src/instructions.c:6-7 | setting a flag to the value it already has leaves P unchanged |
| Cpu.SetFlagCommutes | src/instructions.c:6-7 | updating two different flags gives the same P in either order, so the order of the Z and N updates does not matter |
| Cpu.Word | src/cpu.c:25-27 | `(hi << 8) OR lo` is the little-endian word `hi * 256 + lo` |
| Cpu.WordBytes | src/addressing.c:21-26 | the word splits back into the low byte `lo` and the high byte `hi` |
| Cpu.AfterReset | src/cpu.c:3-27 | after reset A = X = Y = 0, SP = 0xFD, cycles = 0, P = 0x24 with exactly I and U set, and PC = mem[0xFFFD] * 256 + mem[0xFFFC]; the scratch fields are untouched |
| Cpu.ResetForgetsRegisters | src/cpu.c:3-27 | the registers after reset do not depend on their values before it |
| Cpu.CPU.constructor | include/cpu.h:18-31 | a new processor is attached to a valid memory and has all registers cleared |
| Cpu.CPU.Reset | src/cpu.c:3-27 | `cpu_reset` sets the registers to `AfterReset` of the old ones and the memory's contents; its frame lets it change only those seven registers, not memory |
| Addressing.Immediate | src/addressing.c:4-9 | fetched = mem[old PC], PC = (old PC + 1) mod 65536, nothing else changes |
| Addressing.ZeroPage | src/addressing.c:12-17 | addrAbs = mem[old PC], which is below 0x100; fetched = mem[addrAbs]; PC = (old PC + 1) mod 65536; nothing else changes |
| Addressing.Absolute | src/addressing.c:20-29 | addrAbs = mem[(old PC + 1) mod 65536] * 256 + mem[old PC]; fetched = mem[addrAbs]; PC = (old PC + 2) mod 65536; nothing else changes |
| Addressing.AddrImmediate | src/addressing.c:4-9 | `addr_immediate` changes only PC and fetched, as `Immediate` says, and does not write memory |
| Addressing.AddrZeroPage | src/addressing.c:12-17 | `addr_zero_page` changes only PC, addrAbs and fetched, as `ZeroPage` says, and does not write memory |
| Addressing.AddrAbsolute | src/addressing.c:20-29 | `addr_absolute`, incrementing PC twice, changes only PC, addrAbs and fetched, as `Absolute` says, and does not write memory |
| Instructions.SetZeroNegative | src/instructions.c:6-7 | Zero is set iff the byte is 0, Negative iff its bit 7 is 1, never both; the other flags are kept |
| Instructions.LoadA | src/instructions.c:4-8 | A = fetched; Zero iff A == 0; Negative iff A >= 0x80; other flags kept; only A and P change (PC, SP, X, Y unchanged) |
| Instructions.LoadX | src/instructions.c:11-15 | X = fetched; Zero iff X == 0; Negative iff X >= 0x80; other flags kept; only X and P change (PC, SP, A, Y unchanged) |
| Instructions.LoadsSetSameFlags | src/instructions.c:4-15 | LDA and LDX of the same byte load the same value and leave the same status byte |
| Instructions.ImmediateLoadA | src/instructions.c:4-8 | immediate mode followed by LDA: A = mem[old PC], PC = old PC + 1 mod 65536, Z and N from that byte, X, Y, SP and cycles unchanged |
| Instructions.StoreThenLoadAbsolute | src/instructions.c:18-22 | STA to an absolute address and LDA from it again restore A, unless the store overwrote the operand bytes; a second store then changes nothing |
| Instructions.LDA | src/instructions.c:4-8 | `ins_LDA` takes the registers to `LoadA` of the old ones, through two `cpu_set_flag` calls |
| Instructions.LDX | src/instructions.c:11-15 | `ins_LDX` takes the registers to `LoadX` of the old ones |
| Instructions.STA | src/instructions.c:18-22 | `ins_STA` makes memory `Store(old memory, addrAbs, A)`; no register or flag changes |
| Instructions.NOP | src/instructions.c:25-27 | `ins_NOP` changes no register and, having no frame, no memory |

## Left out

- src/main.c: it only prints banner text and type sizes.
- The `s8` type (include/types.h:9): no modelled code uses it.
- The body of `memset` (src/memory.c:6) is a C library call. Only its effect is modelled: every cell becomes 0.
- Mem.Memory.constructor: the C `Memory` is plain storage whose initial contents are unknown until `mem_init` runs. The constructor leaves them unspecified.
- Cpu.SetFlag: `cpu_set_flag` is declared and defined in none of these files (include/cpu.h has no prototype for it). Its contract is an assumption, not a fact checked against code.
- The cycle counter: no modelled operation changes it except reset, so no 64-bit overflow arises. It is only bounded to 64 bits.
