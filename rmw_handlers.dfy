/**
 * The read-modify-write handlers of the newer crate (`opcodes/rmw/`): ASL,
 * DEC, DEX, LSR, ROL and ROR.
 *
 * The shifts and rotates fetch their operand, compute the result, and put
 * it back where it came from: into A in Accumulator mode, otherwise into
 * memory at an address derived a second time from the operand bytes, which
 * is the address the operand was read from (`Mos6502.RmwAddress`). Only
 * ZeroPage, ZeroPageX, Absolute and AbsoluteX can be written back; any other
 * mode is `unreachable!`. None of them charges a page-crossing cycle.
 */
module RmwHandlers {
  import opened Machine
  import opened Flags
  import opened MainBus
  import opened Opcodes
  import opened Mos6502
  import opened Alu

  /** The modes `asl`, `lsr`, `rol` and `ror` accept: A, or a memory operand that can be written back. */
  predicate ShiftMode(mode: AddressingMode) {
    mode == Accumulator || WritableMode(mode)
  }

  /**
   * The shift and rotate handlers' common write-back: `result` replaces A
   * in Accumulator mode and otherwise the byte at `addr`, and pc advances.
   */
  method WriteBack(cpu: Cpu, inst: Instruction, bus: Bus, result: Outcome) returns (r: Result<u8>)
    requires bus.Valid()
    modifies cpu, bus.ram
    ensures var addr := old(RmwAddress(cpu.Regs(), bus, inst.mode));
            && (r.Ok? <==> (inst.mode == Accumulator || addr.Ok?) && old(cpu.pc) as int + inst.bytes as int <= 0xFFFF)
            && (r.Err? ==> r.fault == if inst.mode != Accumulator && addr.Err? then addr.fault else ArithmeticOverflow)
    ensures r.Ok? ==>
              && (inst.mode == Accumulator ==> cpu.a == result.value && bus.ram[..] == old(bus.ram[..]))
              && (inst.mode != Accumulator ==>
                    cpu.a == old(cpu.a)
                    && bus.ram[..] == old(bus.ram[..])[old(RmwAddress(cpu.Regs(), bus, inst.mode)).value := result.value])
              && cpu.flags == result.flags
              && cpu.x == old(cpu.x) && cpu.y == old(cpu.y) && cpu.sp == old(cpu.sp)
              && cpu.cycles == old(cpu.cycles)
              && cpu.pc as int == old(cpu.pc) as int + inst.bytes as int
              && r.value == 0
  {
    if inst.mode == Accumulator {
      cpu.a := result.value;
    } else {
      var addr :- RmwAddress(cpu.Regs(), bus, inst.mode);
      bus.Write8(addr, result.value);
    }
    cpu.flags := result.flags;
    cpu.pc :- AddU16(cpu.pc, inst.bytes as u16);
    return Ok(0);
  }

  /** The outcome of `Asl` and the byte, flags and registers it leaves. */
  twostate predicate AslEffect(cpu: Cpu, inst: Instruction, bus: Bus, new r: Result<u8>)
    requires old(bus.Valid()) && bus.Valid()
    reads cpu, bus, bus.ram
  {
    && (var f := old(AddressModeFetch(cpu.Regs(), bus, inst.mode));
      r.Ok? <==> f.Ok? && ShiftMode(inst.mode) && old(cpu.pc) as int + inst.bytes as int <= 0xFFFF)
    && (r.Ok? ==>
        var f := old(AddressModeFetch(cpu.Regs(), bus, inst.mode)).value;
        var s := ShiftLeft(f.value, old(cpu.flags));
        && (inst.mode == Accumulator ==> cpu.a == s.value && bus.ram[..] == old(bus.ram[..]))
        && (inst.mode != Accumulator ==>
              cpu.a == old(cpu.a)
              && bus.ram[..] == old(bus.ram[..])[old(EffectiveAddress(cpu.Regs(), bus, inst.mode)).value.addr := s.value])
        && cpu.flags == s.flags
        && cpu.x == old(cpu.x) && cpu.y == old(cpu.y) && cpu.sp == old(cpu.sp)
        && cpu.cycles == old(cpu.cycles)
        && cpu.pc as int == old(cpu.pc) as int + inst.bytes as int
        && r.value == 0)
  }

  /**
   * `asl`: the operand shifted left one place, Carry from its old bit 7
   * (see `Alu.ShiftLeftSpec`), written back to A or to the address the
   * operand was read from.
   */
  method Asl(cpu: Cpu, inst: Instruction, bus: Bus) returns (r: Result<u8>)
    requires bus.Valid()
    modifies cpu, bus.ram
    ensures AslEffect(cpu, inst, bus, r)
  {
    var fetched :- AddressModeFetch(cpu.Regs(), bus, inst.mode);
    r := WriteBack(cpu, inst, bus, ShiftLeft(fetched.value, cpu.flags));
  }

  /** `lsr`: the operand shifted right one place, Carry from its old bit 0 (see `Alu.ShiftRightSpec`). */
  method Lsr(cpu: Cpu, inst: Instruction, bus: Bus) returns (r: Result<u8>)
    requires bus.Valid()
    modifies cpu, bus.ram
    ensures var f := old(AddressModeFetch(cpu.Regs(), bus, inst.mode));
            r.Ok? <==> f.Ok? && ShiftMode(inst.mode) && old(cpu.pc) as int + inst.bytes as int <= 0xFFFF
    ensures r.Ok? ==>
              var f := old(AddressModeFetch(cpu.Regs(), bus, inst.mode)).value;
              var s := ShiftRight(f.value, old(cpu.flags));
              && (inst.mode == Accumulator ==> cpu.a == s.value && bus.ram[..] == old(bus.ram[..]))
              && (inst.mode != Accumulator ==>
                    cpu.a == old(cpu.a)
                    && bus.ram[..] == old(bus.ram[..])[old(EffectiveAddress(cpu.Regs(), bus, inst.mode)).value.addr := s.value])
              && cpu.flags == s.flags && !cpu.flags.negative
              && cpu.x == old(cpu.x) && cpu.y == old(cpu.y) && cpu.sp == old(cpu.sp)
              && cpu.cycles == old(cpu.cycles)
              && cpu.pc as int == old(cpu.pc) as int + inst.bytes as int
              && r.value == 0
  {
    var fetched :- AddressModeFetch(cpu.Regs(), bus, inst.mode);
    ShiftRightSpec(fetched.value, cpu.flags);
    r := WriteBack(cpu, inst, bus, ShiftRight(fetched.value, cpu.flags));
  }

  /** The outcome of `Rol` and the byte, flags and registers it leaves. */
  twostate predicate RolEffect(cpu: Cpu, inst: Instruction, bus: Bus, new r: Result<u8>)
    requires old(bus.Valid()) && bus.Valid()
    reads cpu, bus, bus.ram
  {
    && (var f := old(AddressModeFetch(cpu.Regs(), bus, inst.mode));
      r.Ok? <==> f.Ok? && ShiftMode(inst.mode) && old(cpu.pc) as int + inst.bytes as int <= 0xFFFF)
    && (r.Ok? ==>
        var f := old(AddressModeFetch(cpu.Regs(), bus, inst.mode)).value;
        var s := RotateLeft(f.value, old(cpu.flags));
        && (inst.mode == Accumulator ==> cpu.a == s.value && bus.ram[..] == old(bus.ram[..]))
        && (inst.mode != Accumulator ==>
              cpu.a == old(cpu.a)
              && bus.ram[..] == old(bus.ram[..])[old(EffectiveAddress(cpu.Regs(), bus, inst.mode)).value.addr := s.value])
        && cpu.flags == s.flags
        && cpu.x == old(cpu.x) && cpu.y == old(cpu.y) && cpu.sp == old(cpu.sp)
        && cpu.cycles == old(cpu.cycles)
        && cpu.pc as int == old(cpu.pc) as int + inst.bytes as int
        && r.value == 0)
  }

  /** `rol`: the operand rotated left through Carry (see `Alu.RotateLeftSpec`). */
  method Rol(cpu: Cpu, inst: Instruction, bus: Bus) returns (r: Result<u8>)
    requires bus.Valid()
    modifies cpu, bus.ram
    ensures RolEffect(cpu, inst, bus, r)
  {
    var fetched :- AddressModeFetch(cpu.Regs(), bus, inst.mode);
    r := WriteBack(cpu, inst, bus, RotateLeft(fetched.value, cpu.flags));
  }

  /** `ror`: the operand rotated right through Carry (see `Alu.RotateRightSpec`). */
  method Ror(cpu: Cpu, inst: Instruction, bus: Bus) returns (r: Result<u8>)
    requires bus.Valid()
    modifies cpu, bus.ram
    ensures var f := old(AddressModeFetch(cpu.Regs(), bus, inst.mode));
            r.Ok? <==> f.Ok? && ShiftMode(inst.mode) && old(cpu.pc) as int + inst.bytes as int <= 0xFFFF
    ensures r.Ok? ==>
              var f := old(AddressModeFetch(cpu.Regs(), bus, inst.mode)).value;
              var s := RotateRight(f.value, old(cpu.flags));
              && (inst.mode == Accumulator ==> cpu.a == s.value && bus.ram[..] == old(bus.ram[..]))
              && (inst.mode != Accumulator ==>
                    cpu.a == old(cpu.a)
                    && bus.ram[..] == old(bus.ram[..])[old(EffectiveAddress(cpu.Regs(), bus, inst.mode)).value.addr := s.value])
              && cpu.flags == s.flags
              && cpu.x == old(cpu.x) && cpu.y == old(cpu.y) && cpu.sp == old(cpu.sp)
              && cpu.cycles == old(cpu.cycles)
              && cpu.pc as int == old(cpu.pc) as int + inst.bytes as int
              && r.value == 0
  {
    var fetched :- AddressModeFetch(cpu.Regs(), bus, inst.mode);
    r := WriteBack(cpu, inst, bus, RotateRight(fetched.value, cpu.flags));
  }

  /**
   * `dec`: the operand minus one, wrapping, written back to the address it
   * was read from; Zero and Negative follow the result, A, X and Y are kept.
   * There is no Accumulator form: that mode aborts.
   */
  method Dec(cpu: Cpu, inst: Instruction, bus: Bus) returns (r: Result<u8>)
    requires bus.Valid()
    modifies cpu, bus.ram
    ensures var f := old(AddressModeFetch(cpu.Regs(), bus, inst.mode));
            r.Ok? <==> f.Ok? && WritableMode(inst.mode) && old(cpu.pc) as int + inst.bytes as int <= 0xFFFF
    ensures r.Ok? ==>
              var f := old(AddressModeFetch(cpu.Regs(), bus, inst.mode)).value;
              var s := Decrement(f.value, old(cpu.flags));
              && bus.ram[..] == old(bus.ram[..])[old(EffectiveAddress(cpu.Regs(), bus, inst.mode)).value.addr := s.value]
              && cpu.flags == s.flags
              && cpu.a == old(cpu.a) && cpu.x == old(cpu.x) && cpu.y == old(cpu.y) && cpu.sp == old(cpu.sp)
              && cpu.cycles == old(cpu.cycles)
              && cpu.pc as int == old(cpu.pc) as int + inst.bytes as int
              && r.value == 0
  {
    var fetched :- AddressModeFetch(cpu.Regs(), bus, inst.mode);
    var s := Decrement(fetched.value, cpu.flags);
    var addr :- RmwAddress(cpu.Regs(), bus, inst.mode);
    bus.Write8(addr, s.value);
    cpu.flags := s.flags;
    cpu.pc :- AddU16(cpu.pc, inst.bytes as u16);
    return Ok(0);
  }

  /** `dex`: X becomes X - 1, wrapping, with Zero and Negative written both ways from it. */
  method Dex(cpu: Cpu, inst: Instruction, bus: Bus) returns (r: Result<u8>)
    modifies cpu
    ensures r.Ok? <==> old(cpu.pc) as int + inst.bytes as int <= 0xFFFF
    ensures r.Ok? ==>
              var s := Decrement(old(cpu.x), old(cpu.flags));
              && cpu.x == s.value && cpu.flags == s.flags
              && cpu.a == old(cpu.a) && cpu.y == old(cpu.y) && cpu.sp == old(cpu.sp)
              && cpu.cycles == old(cpu.cycles)
              && cpu.pc as int == old(cpu.pc) as int + inst.bytes as int
              && r.value == 0
  {
    var s := Decrement(cpu.x, cpu.flags);
    cpu.x := s.value;
    cpu.flags := s.flags;
    cpu.pc :- AddU16(cpu.pc, inst.bytes as u16);
    return Ok(0);
  }
}
