/** The four instructions. They take their operand from the scratch fields an
    addressing mode has filled. */
module Instructions {
  import opened Types
  import opened Mem
  import opened Cpu
  import opened Addressing

  /** The two flag updates shared by the loads: Zero iff the loaded byte is 0,
      Negative iff its bit 7 is 1; the other flags keep their values. */
  function SetZeroNegative(p: u8, v: u8): (q: u8)
    ensures IsSet(q, Z) <==> v == 0
    ensures IsSet(q, N) <==> v >= 0x80
    ensures !(IsSet(q, Z) && IsSet(q, N))
    ensures forall f :: f != Z && f != N ==> IsSet(q, f) == IsSet(p, f)
  {
    SetFlag(SetFlag(p, Z, v == 0), N, v & 0x80 != 0)
  }

  /** LDA: A takes the fetched byte; only A and P change. */
  function LoadA(r: Registers): (s: Registers)
    ensures s.A == r.fetched
    ensures IsSet(s.P, Z) <==> s.A == 0
    ensures IsSet(s.P, N) <==> s.A >= 0x80
    ensures forall f :: f != Z && f != N ==> IsSet(s.P, f) == IsSet(r.P, f)
    ensures s == r.(A := s.A, P := s.P)
  {
    r.(A := r.fetched, P := SetZeroNegative(r.P, r.fetched))
  }

  /** LDX: X takes the fetched byte; only X and P change. */
  function LoadX(r: Registers): (s: Registers)
    ensures s.X == r.fetched
    ensures IsSet(s.P, Z) <==> s.X == 0
    ensures IsSet(s.P, N) <==> s.X >= 0x80
    ensures forall f :: f != Z && f != N ==> IsSet(s.P, f) == IsSet(r.P, f)
    ensures s == r.(X := s.X, P := s.P)
  {
    r.(X := r.fetched, P := SetZeroNegative(r.P, r.fetched))
  }

  /** LDA and LDX set the same flags from the same byte. */
  lemma LoadsSetSameFlags(r: Registers)
    ensures LoadA(r).P == LoadX(r).P
    ensures LoadA(r).A == LoadX(r).X
  {
  }

  /** LDA # (immediate mode, then LDA): A holds the byte after the opcode,
      PC moves past it, and nothing but A, P and the scratch byte changes. */
  lemma ImmediateLoadA(r: Registers, m: Bytes)
    ensures var s := LoadA(Immediate(r, m));
      && s.A == m[r.PC]
      && s.PC == (r.PC + 1) % 0x10000
      && (IsSet(s.P, Z) <==> m[r.PC] == 0)
      && (IsSet(s.P, N) <==> m[r.PC] >= 0x80)
      && s.X == r.X && s.Y == r.Y && s.SP == r.SP && s.cycles == r.cycles
  {
  }

  /** STA then LDA with the same absolute operand gives back A: the stored
      byte is read again, as long as the store did not overwrite the operand
      bytes themselves. */
  lemma StoreThenLoadAbsolute(r: Registers, m: Bytes)
    requires var s := Absolute(r, m); s.addrAbs != r.PC && s.addrAbs != (r.PC + 1) % 0x10000
    ensures var s := Absolute(r, m);
      var m' := Store(m, s.addrAbs, s.A);
      var t := LoadA(Absolute(r, m'));
      t.A == r.A && t.addrAbs == s.addrAbs && Store(m', t.addrAbs, t.A) == m'
  {
  }

  /** ins_LDA */
  method LDA(cpu: CPU)
    modifies cpu`A, cpu`P
    ensures cpu.Regs() == LoadA(old(cpu.Regs()))
  {
    cpu.A := cpu.fetched;
    cpu.P := SetFlag(cpu.P, Z, cpu.A == 0);
    cpu.P := SetFlag(cpu.P, N, cpu.A & 0x80 != 0);
  }

  /** ins_LDX */
  method LDX(cpu: CPU)
    modifies cpu`X, cpu`P
    ensures cpu.Regs() == LoadX(old(cpu.Regs()))
  {
    cpu.X := cpu.fetched;
    cpu.P := SetFlag(cpu.P, Z, cpu.X == 0);
    cpu.P := SetFlag(cpu.P, N, cpu.X & 0x80 != 0);
  }

  /** ins_STA: A is written at the effective address; no register changes. */
  method STA(cpu: CPU)
    requires cpu.Valid()
    modifies cpu.mem.data
    ensures cpu.Valid()
    ensures cpu.mem.Contents() == Store(old(cpu.mem.Contents()), cpu.addrAbs, cpu.A)
    ensures cpu.Regs() == old(cpu.Regs())
  {
    cpu.mem.Write(cpu.addrAbs, cpu.A);
  }

  /** ins_NOP: nothing changes. */
  method NOP(cpu: CPU)
    ensures cpu.Regs() == old(cpu.Regs())
  {
  }
}
