/** The three addressing modes. Each consumes its operand bytes at PC, advancing
    PC with 16-bit wrap-around, and leaves the operand in the scratch fields:
    the byte in fetched and, for the memory modes, its address in addrAbs. */
module Addressing {
  import opened Types
  import opened Mem
  import opened Cpu

  /** Immediate: the operand is the byte at PC. */
  function Immediate(r: Registers, m: Bytes): (s: Registers)
    ensures s.fetched == m[r.PC]
    ensures s.PC == (r.PC + 1) % 0x10000
    ensures s == r.(PC := s.PC, fetched := s.fetched)
  {
    r.(fetched := m[r.PC], PC := (r.PC + 1) % 0x10000)
  }

  /** Zero page: the byte at PC is an address in page 0, and the operand is
      the byte stored there. */
  function ZeroPage(r: Registers, m: Bytes): (s: Registers)
    ensures s.addrAbs == m[r.PC] as int && s.addrAbs < 0x100
    ensures s.fetched == m[s.addrAbs]
    ensures s.PC == (r.PC + 1) % 0x10000
    ensures s == r.(PC := s.PC, addrAbs := s.addrAbs, fetched := s.fetched)
  {
    var address := m[r.PC] as int;
    r.(addrAbs := address, PC := (r.PC + 1) % 0x10000, fetched := m[address])
  }

  /** Absolute: the two bytes at PC and PC + 1 (that address wrapping past
      0xFFFF to 0) are the low and high byte of the address, and the operand
      is the byte stored there. */
  function Absolute(r: Registers, m: Bytes): (s: Registers)
    ensures s.addrAbs == m[(r.PC + 1) % 0x10000] as int * 256 + m[r.PC] as int
    ensures s.fetched == m[s.addrAbs]
    ensures s.PC == (r.PC + 2) % 0x10000
    ensures s == r.(PC := s.PC, addrAbs := s.addrAbs, fetched := s.fetched)
  {
    var lo := m[r.PC];
    var hi := m[(r.PC + 1) % 0x10000];
    var address := Word(lo, hi);
    r.(PC := (r.PC + 2) % 0x10000, addrAbs := address, fetched := m[address])
  }

  /** addr_immediate */
  method AddrImmediate(cpu: CPU)
    requires cpu.Valid()
    modifies cpu`PC, cpu`fetched
    ensures cpu.Regs() == Immediate(old(cpu.Regs()), cpu.mem.Contents())
  {
    cpu.fetched := cpu.mem.Read(cpu.PC);
    cpu.PC := (cpu.PC + 1) % 0x10000;
  }

  /** addr_zero_page */
  method AddrZeroPage(cpu: CPU)
    requires cpu.Valid()
    modifies cpu`PC, cpu`fetched, cpu`addrAbs
    ensures cpu.Regs() == ZeroPage(old(cpu.Regs()), cpu.mem.Contents())
  {
    cpu.addrAbs := cpu.mem.Read(cpu.PC) as int;
    cpu.PC := (cpu.PC + 1) % 0x10000;
    cpu.fetched := cpu.mem.Read(cpu.addrAbs);
  }

  /** addr_absolute */
  method AddrAbsolute(cpu: CPU)
    requires cpu.Valid()
    modifies cpu`PC, cpu`fetched, cpu`addrAbs
    ensures cpu.Regs() == Absolute(old(cpu.Regs()), cpu.mem.Contents())
  {
    var lo := cpu.mem.Read(cpu.PC);
    cpu.PC := (cpu.PC + 1) % 0x10000;
    var hi := cpu.mem.Read(cpu.PC);
    cpu.PC := (cpu.PC + 1) % 0x10000;
    cpu.addrAbs := Word(lo, hi);
    cpu.fetched := cpu.mem.Read(cpu.addrAbs);
  }
}
