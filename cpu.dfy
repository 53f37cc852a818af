/**
 * The 6502 core of the newer crate: the register file, the flag operations,
 * the guarded stack in page 0x01, reset, NMI entry and the addressing-mode
 * resolver that every operand-reading handler calls first.
 *
 * The status register is kept as its eight flags (`Status`); it becomes a
 * memory byte (`Pack`) when pushed and returns to flags (`Unpack`) when pulled.
 */
module Mos6502 {
  import opened Machine
  import opened Flags
  import opened MainBus
  import opened Opcodes

  const STACK_PAGE: u16 := 0x0100

  /** A snapshot of the seven registers. */
  datatype Registers = Registers(a: u8, x: u8, y: u8, pc: u16, sp: u8, flags: Status, cycles: u8)

  /** `STACK_PAGE | sp`: the stack slot that `sp` designates, always in page 0x01. */
  function StackAddr(sp: u8): (addr: u16)
    ensures Hi(addr) == 0x01 && Lo(addr) == sp
  {
    STACK_PAGE + sp as u16
  }

  class Cpu {
    var a: u8
    var x: u8
    var y: u8
    var pc: u16
    var sp: u8
    var flags: Status
    var cycles: u8

    function Regs(): Registers
      reads this
    {
      Registers(a, x, y, pc, sp, flags, cycles)
    }

    /** `Mos6502::new` */
    constructor ()
      ensures Regs() == Registers(0x00, 0x00, 0x00, 0x0000, 0xFD, Unpack(0x34), 0)
      ensures Pack(flags) == 0x34
    {
      a, x, y, pc := 0x00, 0x00, 0x00, 0x0000;
      sp := 0xFD;
      flags := Unpack(0x34);
      cycles := 0;
    }

    /** `is_flag_set` */
    predicate IsFlagSet(f: Flag)
      reads this
    {
      IsSet(flags, f)
    }

    /** `set_flag`: only `f` changes, and it is set. */
    method SetFlag(f: Flag)
      modifies this`flags
      ensures flags == Put(old(flags), f, true)
    {
      flags := Put(flags, f, true);
    }

    /** `clear_flag`: only `f` changes, and it is clear. */
    method ClearFlag(f: Flag)
      modifies this`flags
      ensures flags == Put(old(flags), f, false)
    {
      flags := Put(flags, f, false);
    }

    /** `write_flag_cond`: `set_flag` when `cond` holds, `clear_flag` otherwise. */
    method WriteFlagCond(f: Flag, cond: bool)
      modifies this`flags
      ensures flags == Put(old(flags), f, cond)
    {
      if cond {
        SetFlag(f);
      } else {
        ClearFlag(f);
      }
    }

    /**
     * `stack_push`: stores `value` at `0x0100 | sp`, then decrements `sp`.
     * With `sp == 0` it aborts before writing anything.
     */
    method StackPush(value: u8, bus: Bus) returns (r: Result<()>)
      requires bus.Valid()
      modifies this`sp, bus.ram
      ensures r.Ok? <==> old(sp) != 0
      ensures r.Err? ==> r.fault == StackOverflow && sp == old(sp) && bus.ram[..] == old(bus.ram[..])
      ensures r.Ok? ==> sp == old(sp) - 1 && bus.ram[..] == old(bus.ram[..])[StackAddr(old(sp)) := value]
    {
      if sp == 0 {
        return Err(StackOverflow);
      }
      bus.Write8(StackAddr(sp), value);
      sp := sp - 1;
      return Ok(());
    }

    /**
     * `stack_pull`: increments `sp`, then reads `0x0100 | sp`.
     * With `sp == 0xFF` it aborts with `sp` unchanged.
     */
    method StackPull(bus: Bus) returns (r: Result<u8>)
      requires bus.Valid()
      modifies this`sp
      ensures r.Ok? <==> old(sp) != 0xFF
      ensures r.Err? ==> r.fault == StackUnderflow && sp == old(sp)
      ensures r.Ok? ==> sp == old(sp) + 1 && r.value == bus.Read8(StackAddr(sp))
    {
      if sp == 0xFF {
        return Err(StackUnderflow);
      }
      sp := sp + 1;
      return Ok(bus.Read8(StackAddr(sp)));
    }

    /**
     * Two `stack_push` calls: the high byte of `w`, then its low byte, as
     * `jsr`, `brk` and `nmi` push a return address.
     */
    method PushWord(w: u16, bus: Bus) returns (r: Result<()>)
      requires bus.Valid()
      modifies this`sp, bus.ram
      ensures r.Ok? <==> old(sp) >= 2
      ensures r.Err? ==> r.fault == StackOverflow
      ensures r.Ok? ==> sp == old(sp) - 2 &&
                        bus.ram[..] == old(bus.ram[..])[StackAddr(old(sp)) := Hi(w)][StackAddr(old(sp) - 1) := Lo(w)]
    {
      var pushed := StackPush(Hi(w), bus);
      if pushed.Err? {
        return pushed;
      }
      pushed := StackPush(Lo(w), bus);
      return pushed;
    }

    /**
     * `reset`: pc from the reset vector at 0xFFFC/0xFFFD, A = X = Y = 0,
     * sp = 0xFD, only the Unused flag set, and 8 cycles of reset time.
     */
    method Reset(bus: Bus)
      requires bus.Valid()
      modifies this
      ensures pc == Word(bus.Read8(0xFFFC), bus.Read8(0xFFFD))
      ensures a == 0 && x == 0 && y == 0 && sp == 0xFD && cycles == 8
      ensures flags == Status(false, false, false, false, false, true, false, false)
      ensures Pack(flags) == 0x20
    {
      var vector := bus.CpuRead16(0xFFFC);
      WordOfParts(vector.value);
      pc := vector.value;
      a, x, y := 0, 0, 0;
      sp := 0xFD;
      flags := Unpack(0x0);
      SetFlag(Unused);
      cycles := 8;
    }

    /**
     * `nmi`: pushes the high and then the low byte of pc, clears Break, sets
     * Unused and DisableInterrupt, pushes the flags, and jumps through the
     * NMI vector at 0xFFFA/0xFFFB. Any of the three pushes may exhaust the stack.
     */
    method Nmi(bus: Bus) returns (r: Result<()>)
      requires bus.Valid()
      modifies this, bus.ram
      ensures r.Ok? <==> old(sp) >= 3
      ensures r.Ok? ==>
                var f := old(flags).(brk := false, unused := true, interrupt := true);
                && a == old(a) && x == old(x) && y == old(y)
                && sp == old(sp) - 3 && flags == f && cycles == 8
                && bus.ram[..] == old(bus.ram[..])[StackAddr(old(sp)) := Hi(old(pc))]
                                                  [StackAddr(old(sp) - 1) := Lo(old(pc))]
                                                  [StackAddr(old(sp) - 2) := Pack(f)]
                && pc == Word(bus.Read8(0xFFFA), bus.Read8(0xFFFB))
    {
      var pushed := PushWord(pc, bus);
      if pushed.Err? {
        return Err(pushed.fault);
      }
      ClearFlag(Break);
      SetFlag(Unused);
      SetFlag(DisableInterrupt);
      pushed := StackPush(Pack(flags), bus);
      if pushed.Err? {
        return Err(pushed.fault);
      }
      var vector := bus.CpuRead16(0xFFFA);
      WordOfParts(vector.value);
      pc := vector.value;
      cycles := 8;
      return Ok(());
    }
  }

  /** The operand byte and the extra cycle `address_mode_fetch` returns. */
  datatype Fetched = Fetched(value: u8, extra: u8)

  /** Where an operand lives, and whether reaching it crossed a page. */
  datatype Target = Target(addr: u16, extra: u8)

  /** The index register a mode adds to its base address, if any. */
  function IndexOf(regs: Registers, mode: AddressingMode): u8 {
    match mode
    case ZeroPageX | AbsoluteX | IndirectX => regs.x
    case ZeroPageY | AbsoluteY | IndirectY => regs.y
    case _ => 0
  }

  /** The modes whose base + index sum can cost a page-crossing cycle. */
  predicate PageCrossingMode(mode: AddressingMode) {
    mode == AbsoluteX || mode == AbsoluteY || mode == IndirectY
  }

  /** `(orig_addr >> 8) != (addr >> 8)` */
  function PageCross(base: u16, addr: u16): u8 {
    if Hi(base) != Hi(addr) then 1 else 0
  }

  /** `(arg + index) % 256`: a zero-page address, the sum taken modulo 256. */
  function ZeroPageIndexed(arg: u8, index: u8): (addr: u16)
    ensures Hi(addr) == 0 && Lo(addr) == WrapAdd8(arg, index)
  {
    (arg as u16 + index as u16) % 256
  }

  /**
   * `orig_addr + index` with the checked 16-bit add, and the page-crossing
   * cycle: 1 exactly when the high byte changes, which is exactly when the
   * low byte of the base plus the index carries.
   */
  function AbsoluteIndexed(base: u16, index: u8): (r: Result<Target>)
    ensures r.Ok? <==> base as int + index as int <= 0xFFFF
    ensures r.Ok? ==> r.value.addr as int == base as int + index as int
    ensures r.Ok? ==> (r.value.extra == 1 <==> Hi(base) != Hi(r.value.addr)) && r.value.extra <= 1
    ensures r.Ok? ==> (r.value.extra == 1 <==> Lo(base) as int + index as int > 0xFF)
    ensures r.Err? ==> r.fault == ArithmeticOverflow
  {
    var addr :- AddU16(base, index as u16);
    Ok(Target(addr, PageCross(base, addr)))
  }

  /** The IndirectX pointer: two bytes read at `(arg + X) & 0xFF` and `(arg + X + 1) & 0xFF`. */
  function IndirectXPointer(bus: Bus, arg: u8, x: u8): (ptr: u16)
    requires bus.Valid()
    reads bus, bus.ram
    ensures ptr == Word(bus.Read8(ZeroPageIndexed(arg, x)), bus.Read8(ZeroPageIndexed(WrapAdd8(arg, x), 1)))
  {
    var low := bus.Read8((arg as u16 + x as u16) % 0x100);
    var high := bus.Read8((arg as u16 + x as u16 + 1) % 0x100);
    assert (arg as u16 + x as u16 + 1) % 0x100 == ZeroPageIndexed(WrapAdd8(arg, x), 1) by {
      ZeroPageStep(arg as int + x as int);
    }
    Word(low, high)
  }

  /** Wrapping a zero-page address and then stepping it is stepping and then wrapping. */
  lemma ZeroPageStep(s: int)
    requires 0 <= s < 0x200
    ensures ((s % 0x100) + 1) % 0x100 == (s + 1) % 0x100
  {
    if s >= 0x100 {
      assert s % 0x100 == s - 0x100;
    }
  }

  /** The IndirectY base: two bytes read at `arg & 0xFF` and `(arg + 1) & 0xFF`. */
  function IndirectYBase(bus: Bus, arg: u8): (base: u16)
    requires bus.Valid()
    reads bus, bus.ram
    ensures base == Word(bus.Read8(arg as u16), bus.Read8(ZeroPageIndexed(arg, 1)))
  {
    var low := bus.Read8(arg as u16 % 0x100);
    var high := bus.Read8((arg as u16 + 1) % 0x100);
    Word(low, high)
  }

  /**
   * The address an operand is read from, for every mode that reads memory;
   * the operand bytes follow the opcode at `pc + 1`, which overflows at 0xFFFF.
   */
  function EffectiveAddress(regs: Registers, bus: Bus, mode: AddressingMode): (r: Result<Target>)
    requires bus.Valid()
    reads bus, bus.ram
    ensures mode in {Implicit, Accumulator, Indirect} ==> r == Err(UnsupportedMode)
    ensures regs.pc == 0xFFFF && mode !in {Implicit, Accumulator, Indirect} ==> r == Err(ArithmeticOverflow)
    ensures r.Ok? && mode in {ZeroPage, ZeroPageX, ZeroPageY} ==> Hi(r.value.addr) == 0
    ensures r.Ok? && !PageCrossingMode(mode) ==> r.value.extra == 0
    ensures r.Ok? ==> r.value.extra <= 1
  {
    match mode
    case Immediate | Relative =>
      var operand :- AddU16(regs.pc, 1);
      Ok(Target(operand, 0))
    case ZeroPage =>
      var operand :- AddU16(regs.pc, 1);
      Ok(Target(bus.Read8(operand) as u16, 0))
    case ZeroPageX | ZeroPageY =>
      var operand :- AddU16(regs.pc, 1);
      Ok(Target(ZeroPageIndexed(bus.Read8(operand), IndexOf(regs, mode)), 0))
    case Absolute =>
      var operand :- AddU16(regs.pc, 1);
      var base :- bus.CpuRead16(operand);
      Ok(Target(base, 0))
    case AbsoluteX | AbsoluteY =>
      var operand :- AddU16(regs.pc, 1);
      var base :- bus.CpuRead16(operand);
      AbsoluteIndexed(base, IndexOf(regs, mode))
    case IndirectX =>
      var operand :- AddU16(regs.pc, 1);
      Ok(Target(IndirectXPointer(bus, bus.Read8(operand), regs.x), 0))
    case IndirectY =>
      var operand :- AddU16(regs.pc, 1);
      AbsoluteIndexed(IndirectYBase(bus, bus.Read8(operand)), regs.y)
    case _ => Err(UnsupportedMode)
  }

  /** The modes the read-modify-write handlers can write back to. */
  predicate WritableMode(mode: AddressingMode) {
    mode == ZeroPage || mode == ZeroPageX || mode == Absolute || mode == AbsoluteX
  }

  /**
   * The write-back address that `asl`, `lsr`, `rol`, `ror`, `inc` and `dec`
   * derive a second time after the fetch, from the same operand bytes at
   * pc + 1; any other mode is `unreachable!`. It is the address the operand
   * was read from.
   */
  function RmwAddress(regs: Registers, bus: Bus, mode: AddressingMode): (r: Result<u16>)
    requires bus.Valid()
    reads bus, bus.ram
    ensures !WritableMode(mode) ==> r == Err(UnsupportedMode)
    ensures WritableMode(mode) ==> (r.Ok? <==> EffectiveAddress(regs, bus, mode).Ok?)
    ensures WritableMode(mode) && r.Ok? ==> r.value == EffectiveAddress(regs, bus, mode).value.addr
  {
    match mode
    case ZeroPage =>
      var operand :- AddU16(regs.pc, 1);
      Ok(bus.Read8(operand) as u16)
    case ZeroPageX =>
      var operand :- AddU16(regs.pc, 1);
      Ok((bus.Read8(operand) as u16 + regs.x as u16) % 256)
    case Absolute =>
      var operand :- AddU16(regs.pc, 1);
      bus.CpuRead16(operand)
    case AbsoluteX =>
      var operand :- AddU16(regs.pc, 1);
      var base :- bus.CpuRead16(operand);
      AddU16(base, regs.x as u16)
    case _ => Err(UnsupportedMode)
  }

  /**
   * `address_mode_fetch`: the operand byte and the extra cycle. Accumulator
   * mode yields A; Implicit and Indirect abort; every other mode reads the
   * byte at the effective address.
   */
  function AddressModeFetch(regs: Registers, bus: Bus, mode: AddressingMode): (r: Result<Fetched>)
    requires bus.Valid()
    reads bus, bus.ram
    ensures mode == Accumulator ==> r == Ok(Fetched(regs.a, 0))
    ensures mode == Implicit || mode == Indirect ==> r == Err(UnsupportedMode)
    ensures mode != Accumulator ==>
              var t := EffectiveAddress(regs, bus, mode);
              && (r.Ok? <==> t.Ok?)
              && (r.Ok? ==> r.value == Fetched(bus.Read8(t.value.addr), t.value.extra))
              && (r.Err? ==> r.fault == t.fault)
    ensures r.Ok? ==> r.value.extra <= 1
  {
    if mode == Accumulator then
      Ok(Fetched(regs.a, 0))
    else
      var target :- EffectiveAddress(regs, bus, mode);
      Ok(Fetched(bus.Read8(target.addr), target.extra))
  }
}
