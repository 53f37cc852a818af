/**
 * The early handler scaffold of the older crate: the flag handlers of
 * `opcodes/control.rs`, the RTS and RTI of `opcodes/control/mod.rs`, the
 * AND of `opcodes/alu.rs`, and the print-only stubs that fill the rest of
 * those files.
 *
 * Unlike the later handlers, the scaffold flag handlers leave pc where it
 * is, and the scaffold RTS and RTI take the high byte of the return address
 * off the stack first.
 */
module Scaffold {
  import opened Machine
  import opened Flags
  import opened MainBus
  import opened Opcodes
  import opened Mos6502
  import opened Alu

  /**
   * Every unimplemented handler (`brk`, `php`, `jmp`, `ora`, `adc`, `eor`,
   * `tya`, ...): it reports 0 extra cycles and changes nothing.
   */
  method Stub(cpu: Cpu, mode: AddressingMode, bus: Bus) returns (extra: u8)
    ensures extra == 0
  {
    return 0;
  }

  /** `clc`: Carry is cleared; nothing else changes, pc included. */
  method Clc(cpu: Cpu, mode: AddressingMode, bus: Bus) returns (extra: u8)
    modifies cpu
    ensures cpu.flags == old(cpu.flags).(carry := false)
    ensures cpu.a == old(cpu.a) && cpu.x == old(cpu.x) && cpu.y == old(cpu.y) && cpu.sp == old(cpu.sp)
    ensures cpu.pc == old(cpu.pc) && cpu.cycles == old(cpu.cycles) && extra == 0
  {
    cpu.ClearFlag(Carry);
    return 0;
  }

  /** `sec`: Carry is set; nothing else changes. */
  method Sec(cpu: Cpu, mode: AddressingMode, bus: Bus) returns (extra: u8)
    modifies cpu
    ensures cpu.flags == old(cpu.flags).(carry := true)
    ensures cpu.a == old(cpu.a) && cpu.x == old(cpu.x) && cpu.y == old(cpu.y) && cpu.sp == old(cpu.sp)
    ensures cpu.pc == old(cpu.pc) && cpu.cycles == old(cpu.cycles) && extra == 0
  {
    cpu.SetFlag(Carry);
    return 0;
  }

  /** `cli`: DisableInterrupt is cleared; nothing else changes. */
  method Cli(cpu: Cpu, mode: AddressingMode, bus: Bus) returns (extra: u8)
    modifies cpu
    ensures cpu.flags == old(cpu.flags).(interrupt := false)
    ensures cpu.a == old(cpu.a) && cpu.x == old(cpu.x) && cpu.y == old(cpu.y) && cpu.sp == old(cpu.sp)
    ensures cpu.pc == old(cpu.pc) && cpu.cycles == old(cpu.cycles) && extra == 0
  {
    cpu.ClearFlag(DisableInterrupt);
    return 0;
  }

  /** `sei`: DisableInterrupt is set; nothing else changes. */
  method Sei(cpu: Cpu, mode: AddressingMode, bus: Bus) returns (extra: u8)
    modifies cpu
    ensures cpu.flags == old(cpu.flags).(interrupt := true)
    ensures cpu.a == old(cpu.a) && cpu.x == old(cpu.x) && cpu.y == old(cpu.y) && cpu.sp == old(cpu.sp)
    ensures cpu.pc == old(cpu.pc) && cpu.cycles == old(cpu.cycles) && extra == 0
  {
    cpu.SetFlag(DisableInterrupt);
    return 0;
  }

  /** `clv`: Overflow is cleared; nothing else changes. */
  method Clv(cpu: Cpu, mode: AddressingMode, bus: Bus) returns (extra: u8)
    modifies cpu
    ensures cpu.flags == old(cpu.flags).(overflow := false)
    ensures cpu.a == old(cpu.a) && cpu.x == old(cpu.x) && cpu.y == old(cpu.y) && cpu.sp == old(cpu.sp)
    ensures cpu.pc == old(cpu.pc) && cpu.cycles == old(cpu.cycles) && extra == 0
  {
    cpu.ClearFlag(Overflow);
    return 0;
  }

  /** `cld`: Decimal is cleared; nothing else changes. */
  method Cld(cpu: Cpu, mode: AddressingMode, bus: Bus) returns (extra: u8)
    modifies cpu
    ensures cpu.flags == old(cpu.flags).(decimal := false)
    ensures cpu.a == old(cpu.a) && cpu.x == old(cpu.x) && cpu.y == old(cpu.y) && cpu.sp == old(cpu.sp)
    ensures cpu.pc == old(cpu.pc) && cpu.cycles == old(cpu.cycles) && extra == 0
  {
    cpu.ClearFlag(Decimal);
    return 0;
  }

  /** `sed`: Decimal is set; nothing else changes. */
  method Sed(cpu: Cpu, mode: AddressingMode, bus: Bus) returns (extra: u8)
    modifies cpu
    ensures cpu.flags == old(cpu.flags).(decimal := true)
    ensures cpu.a == old(cpu.a) && cpu.x == old(cpu.x) && cpu.y == old(cpu.y) && cpu.sp == old(cpu.sp)
    ensures cpu.pc == old(cpu.pc) && cpu.cycles == old(cpu.cycles) && extra == 0
  {
    cpu.SetFlag(Decimal);
    return 0;
  }

  /**
   * The scaffold `rts`: the first byte pulled is the high byte of pc and
   * the second the low byte, and pc is not advanced past it.
   */
  method Rts(cpu: Cpu, inst: Instruction, bus: Bus) returns (r: Result<u8>)
    requires bus.Valid()
    modifies cpu
    ensures r.Ok? <==> old(cpu.sp) <= 0xFD
    ensures r.Err? ==> r.fault == StackUnderflow
    ensures r.Ok? ==>
              && cpu.pc == Word(bus.Read8(StackAddr(old(cpu.sp) + 2)), bus.Read8(StackAddr(old(cpu.sp) + 1)))
              && cpu.sp == old(cpu.sp) + 2
              && cpu.flags == old(cpu.flags)
              && cpu.a == old(cpu.a) && cpu.x == old(cpu.x) && cpu.y == old(cpu.y)
              && cpu.cycles == old(cpu.cycles)
              && r.value == 0
  {
    var hi :- cpu.StackPull(bus);
    var lo :- cpu.StackPull(bus);
    cpu.pc := Word(lo, hi);
    return Ok(0);
  }

  /**
   * The scaffold `rti`: the flags byte, then the high and the low byte of
   * pc, all restored exactly (Break and DisableInterrupt are not cleared).
   */
  method Rti(cpu: Cpu, inst: Instruction, bus: Bus) returns (r: Result<u8>)
    requires bus.Valid()
    modifies cpu
    ensures r.Ok? <==> old(cpu.sp) <= 0xFC
    ensures r.Err? ==> r.fault == StackUnderflow
    ensures r.Ok? ==>
              && Pack(cpu.flags) == bus.Read8(StackAddr(old(cpu.sp) + 1))
              && cpu.pc == Word(bus.Read8(StackAddr(old(cpu.sp) + 3)), bus.Read8(StackAddr(old(cpu.sp) + 2)))
              && cpu.sp == old(cpu.sp) + 3
              && cpu.a == old(cpu.a) && cpu.x == old(cpu.x) && cpu.y == old(cpu.y)
              && cpu.cycles == old(cpu.cycles)
              && r.value == 0
  {
    var pulled :- cpu.StackPull(bus);
    cpu.flags := Unpack(pulled);
    PackUnpack(pulled);
    var hi :- cpu.StackPull(bus);
    var lo :- cpu.StackPull(bus);
    cpu.pc := Word(lo, hi);
    return Ok(0);
  }

  /** The modes the scaffold `and` can read its operand in. */
  predicate ScaffoldAndMode(mode: AddressingMode) {
    mode == Immediate || mode == ZeroPage || mode == ZeroPageX
  }

  /**
   * The scaffold `and`: the operand is read in Immediate, ZeroPage or
   * ZeroPageX mode (the zero-page index wrapping at 256), any other mode
   * aborts. A becomes A & M, and Zero and Negative are only ever raised,
   * never cleared. pc advances; no extra cycle is reported.
   */
  method And(cpu: Cpu, inst: Instruction, bus: Bus) returns (r: Result<u8>)
    requires bus.Valid()
    modifies cpu
    ensures var t := old(EffectiveAddress(cpu.Regs(), bus, inst.mode));
            r.Ok? <==> ScaffoldAndMode(inst.mode) && t.Ok? && old(cpu.pc) as int + inst.bytes as int <= 0xFFFF
    ensures !ScaffoldAndMode(inst.mode) ==> r == Err(UnsupportedMode)
    ensures r.Ok? ==>
              var m := bus.Read8(old(EffectiveAddress(cpu.Regs(), bus, inst.mode)).value.addr);
              && cpu.a == And8(old(cpu.a), m)
              && cpu.flags == RaiseZeroNegative(old(cpu.flags), cpu.a)
              && cpu.x == old(cpu.x) && cpu.y == old(cpu.y) && cpu.sp == old(cpu.sp)
              && cpu.cycles == old(cpu.cycles)
              && cpu.pc as int == old(cpu.pc) as int + inst.bytes as int
              && r.value == 0
  {
    var m: u8;
    match inst.mode {
      case Immediate =>
        var at :- AddU16(cpu.pc, 1);
        m := bus.Read8(at);
      case ZeroPage =>
        var at :- AddU16(cpu.pc, 1);
        m := bus.Read8(bus.Read8(at) as u16);
      case ZeroPageX =>
        var at :- AddU16(cpu.pc, 1);
        m := bus.Read8((bus.Read8(at) as u16 + cpu.x as u16) % 256);
      case _ =>
        return Err(UnsupportedMode);
    }
    cpu.a := And8(cpu.a, m);
    cpu.flags := RaiseZeroNegative(cpu.flags, cpu.a);
    cpu.pc :- AddU16(cpu.pc, inst.bytes as u16);
    return Ok(0);
  }
}
