/** The processor state: the status-flag masks, the register file and reset. */
module Cpu {
  import opened Types
  import opened Mem

  // The status register P holds eight flags, one per bit.
  const FLAG_C: u8 := 1 << 0  // carry
  const FLAG_Z: u8 := 1 << 1  // zero
  const FLAG_I: u8 := 1 << 2  // interrupt disable
  const FLAG_D: u8 := 1 << 3  // decimal mode
  const FLAG_B: u8 := 1 << 4  // break
  const FLAG_U: u8 := 1 << 5  // unused
  const FLAG_V: u8 := 1 << 6  // overflow
  const FLAG_N: u8 := 1 << 7  // negative

  datatype Flag = C | Z | I | D | B | U | V | N

  /** The bit a flag occupies in P, from bit 0 (C) to bit 7 (N). */
  function Position(f: Flag): (k: nat)
    ensures k < 8
  {
    match f
    case C => 0
    case Z => 1
    case I => 2
    case D => 3
    case B => 4
    case U => 5
    case V => 6
    case N => 7
  }

  /** The mask of a flag. */
  function Mask(f: Flag): u8 {
    match f
    case C => FLAG_C
    case Z => FLAG_Z
    case I => FLAG_I
    case D => FLAG_D
    case B => FLAG_B
    case U => FLAG_U
    case V => FLAG_V
    case N => FLAG_N
  }

  predicate IsSet(p: u8, f: Flag) {
    p & Mask(f) != 0
  }

  /** Each mask is the single bit at its flag's position. */
  lemma MaskIsSingleBit(f: Flag)
    ensures Mask(f) == 1 << Position(f)
  {
  }

  /** Distinct flags have disjoint masks. */
  lemma MasksDisjoint(f: Flag, g: Flag)
    requires f != g
    ensures Mask(f) & Mask(g) == 0
  {
  }

  /** The eight masks together cover the whole status byte. */
  lemma MasksCoverStatus()
    ensures FLAG_C | FLAG_Z | FLAG_I | FLAG_D | FLAG_B | FLAG_U | FLAG_V | FLAG_N == 0xFF
  {
  }

  /** A status byte is nothing but its eight flags: two bytes with the same
      flags are the same byte. */
  lemma FlagsDetermineStatus(p: u8, q: u8)
    requires forall f :: IsSet(p, f) == IsSet(q, f)
    ensures p == q
  {
    assert IsSet(p, C) == IsSet(q, C) && IsSet(p, Z) == IsSet(q, Z);
    assert IsSet(p, I) == IsSet(q, I) && IsSet(p, D) == IsSet(q, D);
    assert IsSet(p, B) == IsSet(q, B) && IsSet(p, U) == IsSet(q, U);
    assert IsSet(p, V) == IsSet(q, V) && IsSet(p, N) == IsSet(q, N);
    assert p & 0x0F == q & 0x0F;
    assert p & 0xF0 == q & 0xF0;
  }

  /** cpu_set_flag: sets the flag's bit when value holds, clears it otherwise,
      and leaves every other flag of P alone. */
  function SetFlag(p: u8, f: Flag, value: bool): (q: u8)
    ensures IsSet(q, f) == value
    ensures forall g :: g != f ==> IsSet(q, g) == IsSet(p, g)
  {
    if value then p | Mask(f) else p & !Mask(f)
  }

  /** Setting a flag to the value it already has leaves P unchanged. */
  lemma SetFlagToCurrent(p: u8, f: Flag)
    ensures SetFlag(p, f, IsSet(p, f)) == p
  {
  }

  /** Updating two different flags gives the same P in either order. */
  lemma SetFlagCommutes(p: u8, f: Flag, a: bool, g: Flag, b: bool)
    requires f != g
    ensures SetFlag(SetFlag(p, f, a), g, b) == SetFlag(SetFlag(p, g, b), f, a)
  {
  }

  /** The little-endian word with low byte lo and high byte hi, computed as
      (hi << 8) | lo. */
  function Word(lo: u8, hi: u8): (w: u16)
    ensures w == hi as int * 256 + lo as int
  {
    ShiftOrIsSum(lo, hi);
    SumAsInt(lo, hi);
    (((hi as bv16) << 8) | (lo as bv16)) as int
  }

  /** Word is undone by splitting a word into its low and high byte. */
  lemma WordBytes(lo: u8, hi: u8)
    ensures Word(lo, hi) % 256 == lo as int
    ensures Word(lo, hi) / 256 == hi as int
  {
  }

  /** The two bytes do not overlap, so the OR in Word is an addition. */
  lemma ShiftOrIsSum(lo: u8, hi: u8)
    ensures ((hi as bv16) << 8) | (lo as bv16) == (hi as bv16) * 256 + (lo as bv16)
  {
  }

  lemma SumAsInt(lo: u8, hi: u8)
    ensures ((hi as bv16) * 256 + (lo as bv16)) as int == hi as int * 256 + lo as int
  {
  }

  /** A snapshot of the register file, together with the two scratch fields
      that the addressing modes hand to the instructions. */
  datatype Registers = Registers(
    A: u8, X: u8, Y: u8, SP: u8, PC: u16, P: u8, cycles: u64,
    fetched: u8, addrAbs: u16)

  /** The registers after cpu_reset: A = X = Y = 0, SP = 0xFD, P = 0x24 (only
      U and I set), no cycles, and PC loaded from the little-endian reset
      vector at 0xFFFC/0xFFFD. The scratch fields are not touched. */
  function AfterReset(r: Registers, m: Bytes): (s: Registers)
    ensures s.A == 0 && s.X == 0 && s.Y == 0
    ensures s.SP == 0xFD && s.cycles == 0
    ensures s.P == 0x24 && forall f :: IsSet(s.P, f) <==> f == U || f == I
    ensures s.PC == m[0xFFFD] as int * 256 + m[0xFFFC] as int
    ensures s.fetched == r.fetched && s.addrAbs == r.addrAbs
  {
    r.(A := 0, X := 0, Y := 0, SP := 0xFD, P := 0x24, cycles := 0,
       PC := Word(m[0xFFFC], m[0xFFFD]))
  }

  /** Reset forgets the prior register values: two processors reset against
      the same memory agree on every register. */
  lemma ResetForgetsRegisters(r1: Registers, r2: Registers, m: Bytes)
    ensures AfterReset(r1, m).(fetched := 0, addrAbs := 0) == AfterReset(r2, m).(fetched := 0, addrAbs := 0)
  {
  }

  class CPU {
    var A: u8
    var X: u8
    var Y: u8
    var SP: u8
    var PC: u16
    var P: u8
    var cycles: u64
    // Scratch fields filled by an addressing mode and used by an instruction.
    var fetched: u8
    var addrAbs: u16
    // The memory that the addressing modes and instructions use.
    var mem: Memory

    ghost predicate Valid()
      reads this`mem, mem
    {
      mem.Valid()
    }

    ghost function Regs(): Registers
      reads this
    {
      Registers(A, X, Y, SP, PC, P, cycles, fetched, addrAbs)
    }

    /** A processor with cleared registers attached to a memory. */
    constructor (mem: Memory)
      requires mem.Valid()
      ensures Valid() && this.mem == mem
      ensures Regs() == Registers(0, 0, 0, 0, 0, 0, 0, 0, 0)
    {
      A, X, Y, SP, PC, P, cycles := 0, 0, 0, 0, 0, 0, 0;
      fetched, addrAbs := 0, 0;
      this.mem := mem;
    }

    /** cpu_reset. It reads the reset vector from the memory it is given
        (which it leaves unchanged) and does not attach that memory. */
    method Reset(m: Memory)
      requires m.Valid()
      modifies this`A, this`X, this`Y, this`SP, this`P, this`cycles, this`PC
      ensures Regs() == AfterReset(old(Regs()), m.Contents())
    {
      A := 0;
      X := 0;
      Y := 0;
      SP := 0xFD;
      P := 0x24;
      cycles := 0;
      var lo := m.Read(0xFFFC);
      var hi := m.Read(0xFFFD);
      PC := Word(lo, hi);
    }
  }
}
