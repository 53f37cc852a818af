/**
 * The read-modify-write, load and transfer handlers of the older crate
 * (`src/mos6502/src/opcodes/rmw/`): INC, LDX, TXA and TXS.
 */
module LegacyRmw {
  import opened Machine
  import opened Flags
  import opened MainBus
  import opened Opcodes
  import opened Mos6502
  import opened Alu

  /**
   * `inc`: the operand plus one, wrapping, written back to the address it
   * was read from; only ZeroPage, ZeroPageX, Absolute and AbsoluteX can be
   * written back, any other mode aborts. Zero and Negative follow the result.
   */
  method Inc(cpu: Cpu, inst: Instruction, bus: Bus) returns (r: Result<u8>)
    requires bus.Valid()
    modifies cpu, bus.ram
    ensures var f := old(AddressModeFetch(cpu.Regs(), bus, inst.mode));
            r.Ok? <==> f.Ok? && WritableMode(inst.mode) && old(cpu.pc) as int + inst.bytes as int <= 0xFFFF
    ensures r.Ok? ==>
              var f := old(AddressModeFetch(cpu.Regs(), bus, inst.mode)).value;
              var s := Increment(f.value, old(cpu.flags));
              && bus.ram[..] == old(bus.ram[..])[old(EffectiveAddress(cpu.Regs(), bus, inst.mode)).value.addr := s.value]
              && cpu.flags == s.flags
              && cpu.a == old(cpu.a) && cpu.x == old(cpu.x) && cpu.y == old(cpu.y) && cpu.sp == old(cpu.sp)
              && cpu.cycles == old(cpu.cycles)
              && cpu.pc as int == old(cpu.pc) as int + inst.bytes as int
              && r.value == 0
  {
    var fetched :- AddressModeFetch(cpu.Regs(), bus, inst.mode);
    var s := Increment(fetched.value, cpu.flags);
    var addr :- RmwAddress(cpu.Regs(), bus, inst.mode);
    bus.Write8(addr, s.value);
    cpu.flags := s.flags;
    cpu.pc :- AddU16(cpu.pc, inst.bytes as u16);
    return Ok(0);
  }

  /** `ldx`: X takes the operand, Zero and Negative are written both ways from it. */
  method Ldx(cpu: Cpu, inst: Instruction, bus: Bus) returns (r: Result<u8>)
    requires bus.Valid()
    modifies cpu
    ensures var f := old(AddressModeFetch(cpu.Regs(), bus, inst.mode));
            && (r.Ok? <==> f.Ok? && old(cpu.pc) as int + inst.bytes as int <= 0xFFFF)
            && (r.Err? ==> r.fault == if f.Err? then f.fault else ArithmeticOverflow)
    ensures r.Ok? ==>
              var f := old(AddressModeFetch(cpu.Regs(), bus, inst.mode)).value;
              && cpu.x == f.value
              && cpu.flags == old(cpu.flags).(zero := f.value == 0, negative := Bit7(f.value))
              && cpu.a == old(cpu.a) && cpu.y == old(cpu.y) && cpu.sp == old(cpu.sp)
              && cpu.cycles == old(cpu.cycles)
              && cpu.pc as int == old(cpu.pc) as int + inst.bytes as int
              && r.value == f.extra
  {
    var fetched :- AddressModeFetch(cpu.Regs(), bus, inst.mode);
    cpu.x := fetched.value;
    cpu.flags := ZeroNegative(cpu.flags, cpu.x);
    cpu.pc :- AddU16(cpu.pc, inst.bytes as u16);
    return Ok(fetched.extra);
  }

  /** `txa`: A takes X, Zero and Negative are written both ways from it. */
  method Txa(cpu: Cpu, inst: Instruction, bus: Bus) returns (r: Result<u8>)
    modifies cpu
    ensures r.Ok? <==> old(cpu.pc) as int + inst.bytes as int <= 0xFFFF
    ensures r.Ok? ==>
              && cpu.a == old(cpu.x)
              && cpu.flags == old(cpu.flags).(zero := cpu.a == 0, negative := Bit7(cpu.a))
              && cpu.x == old(cpu.x) && cpu.y == old(cpu.y) && cpu.sp == old(cpu.sp)
              && cpu.cycles == old(cpu.cycles)
              && cpu.pc as int == old(cpu.pc) as int + inst.bytes as int
              && r.value == 0
  {
    cpu.a := cpu.x;
    cpu.flags := ZeroNegative(cpu.flags, cpu.a);
    cpu.pc :- AddU16(cpu.pc, inst.bytes as u16);
    return Ok(0);
  }

  /** `txs`: the stack pointer takes X; no flag changes. */
  method Txs(cpu: Cpu, inst: Instruction, bus: Bus) returns (r: Result<u8>)
    modifies cpu
    ensures r.Ok? <==> old(cpu.pc) as int + inst.bytes as int <= 0xFFFF
    ensures r.Ok? ==>
              && cpu.sp == old(cpu.x) && cpu.flags == old(cpu.flags)
              && cpu.a == old(cpu.a) && cpu.x == old(cpu.x) && cpu.y == old(cpu.y)
              && cpu.cycles == old(cpu.cycles)
              && cpu.pc as int == old(cpu.pc) as int + inst.bytes as int
              && r.value == 0
  {
    cpu.sp := cpu.x;
    cpu.pc :- AddU16(cpu.pc, inst.bytes as u16);
    return Ok(0);
  }
}
