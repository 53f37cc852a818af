/**
 * The branch, jump, flag, stack, load and store handlers of the older crate
 * (`src/mos6502/src/opcodes/control/`): BCS, BEQ, CLV, DEY, JMP, LDY, PHP,
 * PLP and STY. The older `rti.rs` does what the newer `rti.rs` does and is
 * modelled by `ControlHandlers.Rti`.
 *
 * The two branches compute their target from pc, the address of the branch
 * opcode itself, and report 1 extra cycle for a taken branch and 2 when it
 * lands on another page. BCS adds the sign-extended offset modulo 2^16; BEQ
 * adds or subtracts its magnitude with checked arithmetic, so BEQ aborts
 * where BCS wraps, and on the offset 0x80, whose magnitude does not fit in
 * an i8.
 */
module LegacyControl {
  import opened Machine
  import opened Flags
  import opened MainBus
  import opened Opcodes
  import opened Mos6502
  import opened Alu

  /** `bcs`: when Carry is set, pc moves by the signed offset, wrapping at the ends of memory. */
  method Bcs(cpu: Cpu, inst: Instruction, bus: Bus) returns (r: Result<u8>)
    requires bus.Valid()
    modifies cpu
    ensures var f := old(AddressModeFetch(cpu.Regs(), bus, inst.mode));
            r.Ok? <==> f.Ok? && (old(cpu.flags).carry || old(cpu.pc) as int + inst.bytes as int <= 0xFFFF)
    ensures r.Ok? ==>
              var f := old(AddressModeFetch(cpu.Regs(), bus, inst.mode)).value;
              && (old(cpu.flags).carry ==>
                    cpu.pc == WrappingBranchTarget(old(cpu.pc), f.value)
                    && r.value == BranchCycles(old(cpu.pc), cpu.pc))
              && (!old(cpu.flags).carry ==>
                    cpu.pc as int == old(cpu.pc) as int + inst.bytes as int && r.value == 0)
              && cpu.flags == old(cpu.flags)
              && cpu.a == old(cpu.a) && cpu.x == old(cpu.x) && cpu.y == old(cpu.y) && cpu.sp == old(cpu.sp)
              && cpu.cycles == old(cpu.cycles)
  {
    var fetched :- AddressModeFetch(cpu.Regs(), bus, inst.mode);
    if cpu.IsFlagSet(Carry) {
      var target := WrappingBranchTarget(cpu.pc, fetched.value);
      var extra := BranchCycles(cpu.pc, target);
      cpu.pc := target;
      return Ok(extra);
    } else {
      cpu.pc :- AddU16(cpu.pc, inst.bytes as u16);
      return Ok(0);
    }
  }

  /**
   * `beq`: when Zero is set, pc moves by the signed offset with checked
   * arithmetic, which aborts past either end of memory and on the offset
   * 0x80 (`i8::abs` of -128 overflows).
   */
  method Beq(cpu: Cpu, inst: Instruction, bus: Bus) returns (r: Result<u8>)
    requires bus.Valid()
    modifies cpu
    ensures var f := old(AddressModeFetch(cpu.Regs(), bus, inst.mode));
            r.Ok? <==> f.Ok? && if old(cpu.flags).zero
                                then CheckedBranchTarget(old(cpu.pc), f.value.value).Ok?
                                else old(cpu.pc) as int + inst.bytes as int <= 0xFFFF
    ensures r.Ok? ==>
              var f := old(AddressModeFetch(cpu.Regs(), bus, inst.mode)).value;
              && (old(cpu.flags).zero ==>
                    cpu.pc as int == old(cpu.pc) as int + Signed(f.value)
                    && r.value == BranchCycles(old(cpu.pc), cpu.pc))
              && (!old(cpu.flags).zero ==>
                    cpu.pc as int == old(cpu.pc) as int + inst.bytes as int && r.value == 0)
              && cpu.flags == old(cpu.flags)
              && cpu.a == old(cpu.a) && cpu.x == old(cpu.x) && cpu.y == old(cpu.y) && cpu.sp == old(cpu.sp)
              && cpu.cycles == old(cpu.cycles)
  {
    var fetched :- AddressModeFetch(cpu.Regs(), bus, inst.mode);
    if cpu.IsFlagSet(Zero) {
      var target :- CheckedBranchTarget(cpu.pc, fetched.value);
      var extra := BranchCycles(cpu.pc, target);
      cpu.pc := target;
      return Ok(extra);
    } else {
      cpu.pc :- AddU16(cpu.pc, inst.bytes as u16);
      return Ok(0);
    }
  }

  /** `clv`: Overflow is cleared and pc steps over the one-byte opcode. */
  method Clv(cpu: Cpu, inst: Instruction, bus: Bus) returns (r: Result<u8>)
    modifies cpu
    ensures r.Ok? <==> old(cpu.pc) != 0xFFFF
    ensures r.Ok? ==>
              && cpu.flags == old(cpu.flags).(overflow := false)
              && cpu.a == old(cpu.a) && cpu.x == old(cpu.x) && cpu.y == old(cpu.y) && cpu.sp == old(cpu.sp)
              && cpu.cycles == old(cpu.cycles)
              && cpu.pc == old(cpu.pc) + 1
              && r.value == 0
  {
    cpu.ClearFlag(Overflow);
    cpu.pc :- AddU16(cpu.pc, 1);
    return Ok(0);
  }

  /** `dey`: Y becomes Y - 1, wrapping, with Zero and Negative written both ways from it. */
  method Dey(cpu: Cpu, inst: Instruction, bus: Bus) returns (r: Result<u8>)
    modifies cpu
    ensures r.Ok? <==> old(cpu.pc) as int + inst.bytes as int <= 0xFFFF
    ensures r.Ok? ==>
              var s := Decrement(old(cpu.y), old(cpu.flags));
              && cpu.y == s.value && cpu.flags == s.flags
              && cpu.a == old(cpu.a) && cpu.x == old(cpu.x) && cpu.sp == old(cpu.sp)
              && cpu.cycles == old(cpu.cycles)
              && cpu.pc as int == old(cpu.pc) as int + inst.bytes as int
              && r.value == 0
  {
    var s := Decrement(cpu.y, cpu.flags);
    cpu.y := s.value;
    cpu.flags := s.flags;
    cpu.pc :- AddU16(cpu.pc, inst.bytes as u16);
    return Ok(0);
  }

  /**
   * Where JMP (ptr) reads the high byte of its target: the byte after the
   * pointer, except that the carry out of the pointer's low byte is lost,
   * so a pointer at the end of a page takes its high byte from the start of
   * the same page, as the 6502 does.
   */
  function IndirectHighAddr(ptr: u16): (addr: u16)
    ensures Hi(addr) == Hi(ptr) && Lo(addr) == WrapAdd8(Lo(ptr), 1)
    ensures Lo(ptr) != 0xFF ==> addr as int == ptr as int + 1
  {
    if ptr % 0x100 == 0xFF then ptr - 0xFF else ptr + 1
  }

  /**
   * `jmp`: Absolute jumps to the operand word; Indirect to the word stored
   * at the operand, its high byte read from `IndirectHighAddr`. Any other
   * mode aborts. pc is not advanced past the instruction.
   */
  method Jmp(cpu: Cpu, inst: Instruction, bus: Bus) returns (r: Result<u8>)
    requires bus.Valid()
    modifies cpu
    ensures r.Ok? <==> (inst.mode == Absolute || inst.mode == Indirect) && old(cpu.pc) <= 0xFFFD
    ensures r.Err? ==> r.fault == if inst.mode == Absolute || inst.mode == Indirect then ArithmeticOverflow else UnsupportedMode
    ensures r.Ok? ==>
              var operand := Word(bus.Read8(old(cpu.pc) + 1), bus.Read8(old(cpu.pc) + 2));
              && (inst.mode == Absolute ==> cpu.pc == operand)
              && (inst.mode == Indirect ==> cpu.pc == Word(bus.Read8(operand), bus.Read8(IndirectHighAddr(operand))))
              && cpu.flags == old(cpu.flags)
              && cpu.a == old(cpu.a) && cpu.x == old(cpu.x) && cpu.y == old(cpu.y) && cpu.sp == old(cpu.sp)
              && cpu.cycles == old(cpu.cycles)
              && r.value == 0
  {
    if inst.mode != Absolute && inst.mode != Indirect {
      return Err(UnsupportedMode);
    }
    var at :- AddU16(cpu.pc, 1);
    var operand :- bus.Read16(at);
    var target := operand;
    if inst.mode == Indirect {
      if operand % 0x100 == 0xFF {
        var page: u16 := operand / 0x100 * 0x100;
        target := Word(bus.Read8(operand), bus.Read8(page));
      } else {
        target := bus.Read16(operand).value;
        WordOfParts(target);
      }
    }
    cpu.pc := target;
    return Ok(0);
  }

  /** `ldy`: Y takes the operand, Zero and Negative are written both ways from it. */
  method Ldy(cpu: Cpu, inst: Instruction, bus: Bus) returns (r: Result<u8>)
    requires bus.Valid()
    modifies cpu
    ensures var f := old(AddressModeFetch(cpu.Regs(), bus, inst.mode));
            && (r.Ok? <==> f.Ok? && old(cpu.pc) as int + inst.bytes as int <= 0xFFFF)
            && (r.Err? ==> r.fault == if f.Err? then f.fault else ArithmeticOverflow)
    ensures r.Ok? ==>
              var f := old(AddressModeFetch(cpu.Regs(), bus, inst.mode)).value;
              && cpu.y == f.value
              && cpu.flags == old(cpu.flags).(zero := f.value == 0, negative := Bit7(f.value))
              && cpu.a == old(cpu.a) && cpu.x == old(cpu.x) && cpu.sp == old(cpu.sp)
              && cpu.cycles == old(cpu.cycles)
              && cpu.pc as int == old(cpu.pc) as int + inst.bytes as int
              && r.value == f.extra
  {
    var fetched :- AddressModeFetch(cpu.Regs(), bus, inst.mode);
    cpu.y := fetched.value;
    cpu.flags := ZeroNegative(cpu.flags, cpu.y);
    cpu.pc :- AddU16(cpu.pc, inst.bytes as u16);
    return Ok(fetched.extra);
  }

  /** The outcome of `Php` and the status byte it pushes. */
  twostate predicate PhpEffect(cpu: Cpu, inst: Instruction, bus: Bus, new r: Result<u8>)
    requires old(bus.Valid()) && bus.Valid()
    reads cpu, bus, bus.ram
  {
    && (r.Ok? <==> old(cpu.sp) != 0 && old(cpu.pc) as int + inst.bytes as int <= 0xFFFF)
    && (old(cpu.sp) == 0 ==> r == Err(StackOverflow))
    && (r.Ok? ==>
        && bus.ram[..] == old(bus.ram[..])[StackAddr(old(cpu.sp)) := Pack(old(cpu.flags))]
        && cpu.sp == old(cpu.sp) - 1
        && cpu.flags == old(cpu.flags)
        && cpu.a == old(cpu.a) && cpu.x == old(cpu.x) && cpu.y == old(cpu.y)
        && cpu.cycles == old(cpu.cycles)
        && cpu.pc as int == old(cpu.pc) as int + inst.bytes as int
        && r.value == 0)
  }

  /** `php`: the status byte is pushed as it is, Break bit included, and the flags are kept. */
  method Php(cpu: Cpu, inst: Instruction, bus: Bus) returns (r: Result<u8>)
    requires bus.Valid()
    modifies cpu, bus.ram
    ensures PhpEffect(cpu, inst, bus, r)
  {
    var _ :- cpu.StackPush(Pack(cpu.flags), bus);
    cpu.pc :- AddU16(cpu.pc, inst.bytes as u16);
    return Ok(0);
  }

  /** The outcome of `Plp` and the status it pulls. */
  twostate predicate PlpEffect(cpu: Cpu, inst: Instruction, bus: Bus, new r: Result<u8>)
    requires old(bus.Valid()) && bus.Valid()
    reads cpu, bus, bus.ram
  {
    && (r.Ok? <==> old(cpu.sp) != 0xFF && old(cpu.pc) as int + inst.bytes as int <= 0xFFFF)
    && (old(cpu.sp) == 0xFF ==> r == Err(StackUnderflow))
    && (r.Ok? ==>
        && Pack(cpu.flags) == bus.Read8(StackAddr(old(cpu.sp) + 1))
        && cpu.sp == old(cpu.sp) + 1
        && cpu.a == old(cpu.a) && cpu.x == old(cpu.x) && cpu.y == old(cpu.y)
        && cpu.cycles == old(cpu.cycles)
        && cpu.pc as int == old(cpu.pc) as int + inst.bytes as int
        && r.value == 0)
  }

  /** `plp`: the status register takes the pulled byte, every bit of it. */
  method Plp(cpu: Cpu, inst: Instruction, bus: Bus) returns (r: Result<u8>)
    requires bus.Valid()
    modifies cpu
    ensures PlpEffect(cpu, inst, bus, r)
  {
    var value :- cpu.StackPull(bus);
    cpu.flags := Unpack(value);
    PackUnpack(value);
    cpu.pc :- AddU16(cpu.pc, inst.bytes as u16);
    return Ok(0);
  }

  /**
   * `sty` as written: Y takes the fetched memory byte, memory is not
   * written, the flags are kept, and no page-crossing cycle is charged.
   */
  method Sty(cpu: Cpu, inst: Instruction, bus: Bus) returns (r: Result<u8>)
    requires bus.Valid()
    modifies cpu
    ensures var f := old(AddressModeFetch(cpu.Regs(), bus, inst.mode));
            && (r.Ok? <==> f.Ok? && old(cpu.pc) as int + inst.bytes as int <= 0xFFFF)
            && (r.Err? ==> r.fault == if f.Err? then f.fault else ArithmeticOverflow)
    ensures r.Ok? ==>
              var f := old(AddressModeFetch(cpu.Regs(), bus, inst.mode)).value;
              && cpu.y == f.value && cpu.flags == old(cpu.flags)
              && cpu.a == old(cpu.a) && cpu.x == old(cpu.x) && cpu.sp == old(cpu.sp)
              && cpu.cycles == old(cpu.cycles)
              && cpu.pc as int == old(cpu.pc) as int + inst.bytes as int
              && r.value == 0
  {
    var fetched :- AddressModeFetch(cpu.Regs(), bus, inst.mode);
    cpu.y := fetched.value;
    cpu.pc :- AddU16(cpu.pc, inst.bytes as u16);
    return Ok(0);
  }
}
