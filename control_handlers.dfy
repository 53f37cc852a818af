/**
 * The control, stack, flag and transfer handlers of the newer crate
 * (`opcodes/control/`): BIT, BRK, CLC, CPX, CPY, JSR, PLA, RTI, RTS, SED
 * and TYA.
 *
 * The stack handlers go through `stack_push`/`stack_pull`, so an exhausted
 * stack aborts them; JSR and RTS pair up so that a call returns to the
 * instruction after it (see `Properties.CallThenReturn`).
 */
module ControlHandlers {
  import opened Machine
  import opened Flags
  import opened MainBus
  import opened Opcodes
  import opened Mos6502
  import opened Alu

  /** The outcome of `Bit` and the registers and flags it leaves. */
  twostate predicate BitEffect(cpu: Cpu, inst: Instruction, bus: Bus, new r: Result<u8>)
    requires old(bus.Valid()) && bus.Valid()
    reads cpu, bus, bus.ram
  {
    && (var f := old(AddressModeFetch(cpu.Regs(), bus, inst.mode));
      && (r.Ok? <==> f.Ok? && old(cpu.pc) as int + inst.bytes as int <= 0xFFFF)
      && (r.Err? ==> r.fault == if f.Err? then f.fault else ArithmeticOverflow))
    && (r.Ok? ==>
        var f := old(AddressModeFetch(cpu.Regs(), bus, inst.mode)).value;
        && cpu.flags == BitTest(old(cpu.a), f.value, old(cpu.flags))
        && cpu.a == old(cpu.a) && cpu.x == old(cpu.x) && cpu.y == old(cpu.y) && cpu.sp == old(cpu.sp)
        && cpu.cycles == old(cpu.cycles)
        && cpu.pc as int == old(cpu.pc) as int + inst.bytes as int
        && r.value == 0)
  }

  /**
   * `bit`: A is not changed; Zero when A & M is 0, Overflow and Negative
   * copied from bits 6 and 7 of M (see `Alu.BitTestSpec`); never an extra cycle.
   */
  method Bit(cpu: Cpu, inst: Instruction, bus: Bus) returns (r: Result<u8>)
    requires bus.Valid()
    modifies cpu
    ensures BitEffect(cpu, inst, bus, r)
  {
    var fetched :- AddressModeFetch(cpu.Regs(), bus, inst.mode);
    cpu.flags := BitTest(cpu.a, fetched.value, cpu.flags);
    cpu.pc :- AddU16(cpu.pc, inst.bytes as u16);
    return Ok(0);
  }

  /**
   * The outcome of `Brk` from registers `s` and memory `m` to registers `t`
   * and memory `n`: the three bytes it pushes and the vector it loads.
   */
  predicate BrkEffect(s: Registers, m: seq<u8>, t: Registers, n: seq<u8>, inst: Instruction, r: Result<u8>)
    requires |m| == |n| == 0x10000
  {
    && (r.Ok? <==> s.pc as int + inst.bytes as int <= 0xFFFF && s.sp >= 3)
    && (r.Ok? ==>
        var ret := (s.pc as int + inst.bytes as int) as u16;
        var f := s.flags.(interrupt := true);
        && t.flags == f.(brk := false)
        && t.sp == s.sp - 3
        && n == m[StackAddr(s.sp) := Hi(ret)][StackAddr(s.sp - 1) := Lo(ret)][StackAddr(s.sp - 2) := Pack(f.(brk := true))]
        && t.pc == Word(n[0xFFFE], n[0xFFFF])
        && t.a == s.a && t.x == s.x && t.y == s.y
        && t.cycles == s.cycles
        && r.value == 0)
  }

  /**
   * `brk`: pc advances past the instruction, DisableInterrupt is set, the
   * new pc is pushed high byte first, then the flags are pushed with Break
   * set; the live flags keep Break clear, and pc is loaded from the IRQ
   * vector at 0xFFFE/0xFFFF. Three pushes: sp drops by 3.
   */
  method Brk(cpu: Cpu, inst: Instruction, bus: Bus) returns (r: Result<u8>)
    requires bus.Valid()
    modifies cpu, bus.ram
    ensures BrkEffect(old(cpu.Regs()), old(bus.ram[..]), cpu.Regs(), bus.ram[..], inst, r)
  {
    cpu.pc :- AddU16(cpu.pc, inst.bytes as u16);
    cpu.SetFlag(DisableInterrupt);
    var pushed := cpu.PushWord(cpu.pc, bus);
    if pushed.Err? {
      return Err(pushed.fault);
    }
    cpu.SetFlag(Break);
    pushed := cpu.StackPush(Pack(cpu.flags), bus);
    if pushed.Err? {
      return Err(pushed.fault);
    }
    cpu.ClearFlag(Break);
    var vector := bus.Read16(0xFFFE);
    WordOfParts(vector.value);
    cpu.pc := vector.value;
    return Ok(0);
  }

  /** The outcome of `Clc` and the registers and flags it leaves. */
  twostate predicate ClcEffect(cpu: Cpu, inst: Instruction, bus: Bus, new r: Result<u8>)
    reads cpu, bus, bus.ram
  {
    && (r.Ok? <==> old(cpu.pc) as int + inst.bytes as int <= 0xFFFF)
    && (r.Ok? ==>
        && cpu.flags == old(cpu.flags).(carry := false)
        && cpu.a == old(cpu.a) && cpu.x == old(cpu.x) && cpu.y == old(cpu.y) && cpu.sp == old(cpu.sp)
        && cpu.cycles == old(cpu.cycles)
        && cpu.pc as int == old(cpu.pc) as int + inst.bytes as int
        && r.value == 0)
  }

  /** `clc`: only Carry changes, and it is clear. */
  method Clc(cpu: Cpu, inst: Instruction, bus: Bus) returns (r: Result<u8>)
    modifies cpu
    ensures ClcEffect(cpu, inst, bus, r)
  {
    cpu.ClearFlag(Carry);
    cpu.pc :- AddU16(cpu.pc, inst.bytes as u16);
    return Ok(0);
  }

  /**
   * `cpx`: X is not changed; Carry when X >= M, Zero when X == M, Negative
   * from the wrapping difference (see `Alu.CompareSpec`).
   */
  method Cpx(cpu: Cpu, inst: Instruction, bus: Bus) returns (r: Result<u8>)
    requires bus.Valid()
    modifies cpu
    ensures var f := old(AddressModeFetch(cpu.Regs(), bus, inst.mode));
            && (r.Ok? <==> f.Ok? && old(cpu.pc) as int + inst.bytes as int <= 0xFFFF)
            && (r.Err? ==> r.fault == if f.Err? then f.fault else ArithmeticOverflow)
    ensures r.Ok? ==>
              var f := old(AddressModeFetch(cpu.Regs(), bus, inst.mode)).value;
              && cpu.flags == Compare(old(cpu.x), f.value, old(cpu.flags))
              && cpu.a == old(cpu.a) && cpu.x == old(cpu.x) && cpu.y == old(cpu.y) && cpu.sp == old(cpu.sp)
              && cpu.cycles == old(cpu.cycles)
              && cpu.pc as int == old(cpu.pc) as int + inst.bytes as int
              && r.value == f.extra
  {
    var fetched :- AddressModeFetch(cpu.Regs(), bus, inst.mode);
    cpu.flags := Compare(cpu.x, fetched.value, cpu.flags);
    cpu.pc :- AddU16(cpu.pc, inst.bytes as u16);
    return Ok(fetched.extra);
  }

  /** `cpy`: the comparison of `cpx` with Y in place of X. */
  method Cpy(cpu: Cpu, inst: Instruction, bus: Bus) returns (r: Result<u8>)
    requires bus.Valid()
    modifies cpu
    ensures var f := old(AddressModeFetch(cpu.Regs(), bus, inst.mode));
            && (r.Ok? <==> f.Ok? && old(cpu.pc) as int + inst.bytes as int <= 0xFFFF)
            && (r.Err? ==> r.fault == if f.Err? then f.fault else ArithmeticOverflow)
    ensures r.Ok? ==>
              var f := old(AddressModeFetch(cpu.Regs(), bus, inst.mode)).value;
              && cpu.flags == Compare(old(cpu.y), f.value, old(cpu.flags))
              && cpu.a == old(cpu.a) && cpu.x == old(cpu.x) && cpu.y == old(cpu.y) && cpu.sp == old(cpu.sp)
              && cpu.cycles == old(cpu.cycles)
              && cpu.pc as int == old(cpu.pc) as int + inst.bytes as int
              && r.value == f.extra
  {
    var fetched :- AddressModeFetch(cpu.Regs(), bus, inst.mode);
    cpu.flags := Compare(cpu.y, fetched.value, cpu.flags);
    cpu.pc :- AddU16(cpu.pc, inst.bytes as u16);
    return Ok(fetched.extra);
  }

  /** The outcome of `Jsr`, the return address it pushes and the target it loads. */
  twostate predicate JsrEffect(cpu: Cpu, inst: Instruction, bus: Bus, new r: Result<u8>)
    requires old(bus.Valid()) && bus.Valid()
    reads cpu, bus, bus.ram
  {
    && (r.Ok? <==>
          (1 <= inst.bytes && old(cpu.pc) as int + inst.bytes as int - 1 <= 0xFFFF
           && old(cpu.sp) >= 2 && old(cpu.pc) as int + 2 <= 0xFFFF))
    && (r.Ok? ==>
        var ret := (old(cpu.pc) as int + inst.bytes as int - 1) as u16;
        && cpu.sp == old(cpu.sp) - 2
        && bus.ram[..] == old(bus.ram[..])[StackAddr(old(cpu.sp)) := Hi(ret)]
                                          [StackAddr(old(cpu.sp) - 1) := Lo(ret)]
        && cpu.pc == Word(bus.Read8(old(cpu.pc) + 1), bus.Read8(old(cpu.pc) + 2))
        && cpu.flags == old(cpu.flags)
        && cpu.a == old(cpu.a) && cpu.x == old(cpu.x) && cpu.y == old(cpu.y)
        && cpu.cycles == old(cpu.cycles)
        && r.value == 0)
  }

  /**
   * `jsr`: pushes pc + bytes - 1 (the address of the instruction's last
   * byte), high byte first, then jumps to the 16-bit operand at pc + 1,
   * read after the pushes. The flags and A, X, Y are kept.
   */
  method Jsr(cpu: Cpu, inst: Instruction, bus: Bus) returns (r: Result<u8>)
    requires bus.Valid()
    modifies cpu, bus.ram
    ensures JsrEffect(cpu, inst, bus, r)
  {
    var oldPc := cpu.pc;
    var step :- SubU16(inst.bytes as u16, 1);
    cpu.pc :- AddU16(cpu.pc, step);
    var pushed := cpu.PushWord(cpu.pc, bus);
    if pushed.Err? {
      return Err(pushed.fault);
    }
    var operand :- AddU16(oldPc, 1);
    var target :- bus.CpuRead16(operand);
    WordOfParts(target);
    cpu.pc := target;
    return Ok(0);
  }

  /**
   * `pla`: A becomes the pulled byte; Zero and Negative are only ever
   * raised from it, never lowered (see `Alu.RaiseZeroNegativeSpec`); pc
   * always advances by 1, whatever the instruction's length.
   */
  method Pla(cpu: Cpu, inst: Instruction, bus: Bus) returns (r: Result<u8>)
    requires bus.Valid()
    modifies cpu
    ensures r.Ok? <==> old(cpu.sp) != 0xFF && old(cpu.pc) != 0xFFFF
    ensures old(cpu.sp) == 0xFF ==> r == Err(StackUnderflow)
    ensures r.Ok? ==>
              var v := bus.Read8(StackAddr(old(cpu.sp) + 1));
              && cpu.a == v && cpu.flags == RaiseZeroNegative(old(cpu.flags), v)
              && cpu.sp == old(cpu.sp) + 1
              && cpu.x == old(cpu.x) && cpu.y == old(cpu.y) && cpu.cycles == old(cpu.cycles)
              && cpu.pc == old(cpu.pc) + 1
              && r.value == 0
  {
    var value :- cpu.StackPull(bus);
    cpu.flags := RaiseZeroNegative(cpu.flags, value);
    cpu.a := value;
    cpu.pc :- AddU16(cpu.pc, 1);
    return Ok(0);
  }

  /**
   * `rti`: pulls the flags, then the low and the high byte of pc, and
   * clears Break and DisableInterrupt in the restored flags. pc is not
   * advanced: execution resumes at the pulled address.
   */
  method Rti(cpu: Cpu, inst: Instruction, bus: Bus) returns (r: Result<u8>)
    requires bus.Valid()
    modifies cpu
    ensures r.Ok? <==> old(cpu.sp) <= 0xFC
    ensures r.Err? ==> r.fault == StackUnderflow
    ensures r.Ok? ==>
              && cpu.flags == Unpack(bus.Read8(StackAddr(old(cpu.sp) + 1))).(brk := false, interrupt := false)
              && cpu.pc == Word(bus.Read8(StackAddr(old(cpu.sp) + 2)), bus.Read8(StackAddr(old(cpu.sp) + 3)))
              && cpu.sp == old(cpu.sp) + 3
              && cpu.a == old(cpu.a) && cpu.x == old(cpu.x) && cpu.y == old(cpu.y)
              && cpu.cycles == old(cpu.cycles)
              && r.value == 0
  {
    var pulled :- cpu.StackPull(bus);
    cpu.flags := Unpack(pulled);
    var lo :- cpu.StackPull(bus);
    var hi :- cpu.StackPull(bus);
    cpu.pc := Word(lo, hi);
    cpu.ClearFlag(Break);
    cpu.ClearFlag(DisableInterrupt);
    return Ok(0);
  }

  /**
   * `rts`: pulls the low and then the high byte of the return address and
   * resumes `bytes` past it, i.e. at the instruction after the JSR whose
   * last byte the address names. The flags are kept.
   */
  method Rts(cpu: Cpu, inst: Instruction, bus: Bus) returns (r: Result<u8>)
    requires bus.Valid()
    modifies cpu
    ensures old(cpu.sp) <= 0xFD ==>
              var ret := Word(bus.Read8(StackAddr(old(cpu.sp) + 1)), bus.Read8(StackAddr(old(cpu.sp) + 2)));
              (r.Ok? <==> ret as int + inst.bytes as int <= 0xFFFF)
    ensures old(cpu.sp) > 0xFD ==> r == Err(StackUnderflow)
    ensures r.Ok? ==>
              var ret := Word(bus.Read8(StackAddr(old(cpu.sp) + 1)), bus.Read8(StackAddr(old(cpu.sp) + 2)));
              && cpu.pc as int == ret as int + inst.bytes as int
              && cpu.sp == old(cpu.sp) + 2
              && cpu.flags == old(cpu.flags)
              && cpu.a == old(cpu.a) && cpu.x == old(cpu.x) && cpu.y == old(cpu.y)
              && cpu.cycles == old(cpu.cycles)
              && r.value == 0
  {
    var lo :- cpu.StackPull(bus);
    var hi :- cpu.StackPull(bus);
    cpu.pc := Word(lo, hi);
    cpu.pc :- AddU16(cpu.pc, inst.bytes as u16);
    return Ok(0);
  }

  /** `sed`: only Decimal changes, and it is set. */
  method Sed(cpu: Cpu, inst: Instruction, bus: Bus) returns (r: Result<u8>)
    modifies cpu
    ensures r.Ok? <==> old(cpu.pc) as int + inst.bytes as int <= 0xFFFF
    ensures r.Ok? ==>
              && cpu.flags == old(cpu.flags).(decimal := true)
              && cpu.a == old(cpu.a) && cpu.x == old(cpu.x) && cpu.y == old(cpu.y) && cpu.sp == old(cpu.sp)
              && cpu.cycles == old(cpu.cycles)
              && cpu.pc as int == old(cpu.pc) as int + inst.bytes as int
              && r.value == 0
  {
    cpu.SetFlag(Decimal);
    cpu.pc :- AddU16(cpu.pc, inst.bytes as u16);
    return Ok(0);
  }

  /** `tya`: A becomes Y, with Zero and Negative written both ways from it. */
  method Tya(cpu: Cpu, inst: Instruction, bus: Bus) returns (r: Result<u8>)
    modifies cpu
    ensures r.Ok? <==> old(cpu.pc) as int + inst.bytes as int <= 0xFFFF
    ensures r.Ok? ==>
              && cpu.a == old(cpu.y)
              && cpu.flags == old(cpu.flags).(zero := old(cpu.y) == 0, negative := Bit7(old(cpu.y)))
              && cpu.x == old(cpu.x) && cpu.y == old(cpu.y) && cpu.sp == old(cpu.sp)
              && cpu.cycles == old(cpu.cycles)
              && cpu.pc as int == old(cpu.pc) as int + inst.bytes as int
              && r.value == 0
  {
    cpu.a := cpu.y;
    cpu.flags := ZeroNegative(cpu.flags, cpu.a);
    cpu.pc :- AddU16(cpu.pc, inst.bytes as u16);
    return Ok(0);
  }
}
