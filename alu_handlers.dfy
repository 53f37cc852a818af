/**
 * The accumulator handlers of the newer crate (`opcodes/alu/`): ADC, AND,
 * CMP, EOR and STA. Each resolves its operand with `address_mode_fetch`,
 * updates A and the flags, advances pc by the instruction's length with a
 * checked add, and returns the extra cycle the resolver reported (STA
 * returns 0).
 *
 * Every contract reads the operand as it was before the call, through
 * `old(AddressModeFetch(...))`; the handlers change neither memory nor X,
 * Y, sp or the cycle counter.
 */
module AluHandlers {
  import opened Machine
  import opened Flags
  import opened MainBus
  import opened Opcodes
  import opened Mos6502
  import opened Alu

  /** `adc`: A and the flags become those of `AddWithCarry` (see `Alu.AddWithCarrySpec`). */
  method Adc(cpu: Cpu, inst: Instruction, bus: Bus) returns (r: Result<u8>)
    requires bus.Valid()
    modifies cpu
    ensures var f := old(AddressModeFetch(cpu.Regs(), bus, inst.mode));
            && (r.Ok? <==> f.Ok? && old(cpu.pc) as int + inst.bytes as int <= 0xFFFF)
            && (r.Err? ==> r.fault == if f.Err? then f.fault else ArithmeticOverflow)
    ensures r.Ok? ==>
              var f := old(AddressModeFetch(cpu.Regs(), bus, inst.mode)).value;
              var s := AddWithCarry(old(cpu.a), f.value, old(cpu.flags));
              && cpu.a == s.value && cpu.flags == s.flags
              && cpu.x == old(cpu.x) && cpu.y == old(cpu.y) && cpu.sp == old(cpu.sp)
              && cpu.cycles == old(cpu.cycles)
              && cpu.pc as int == old(cpu.pc) as int + inst.bytes as int
              && r.value == f.extra
  {
    var fetched :- AddressModeFetch(cpu.Regs(), bus, inst.mode);
    var s := AddWithCarry(cpu.a, fetched.value, cpu.flags);
    cpu.flags := s.flags;
    cpu.a := s.value;
    cpu.pc :- AddU16(cpu.pc, inst.bytes as u16);
    return Ok(fetched.extra);
  }

  /** The outcome of `And`, the accumulator and flags it leaves and its extra cycle. */
  twostate predicate AndEffect(cpu: Cpu, inst: Instruction, bus: Bus, new r: Result<u8>)
    requires old(bus.Valid()) && bus.Valid()
    reads cpu, bus, bus.ram
  {
    && (var f := old(AddressModeFetch(cpu.Regs(), bus, inst.mode));
      && (r.Ok? <==> f.Ok? && old(cpu.pc) as int + inst.bytes as int <= 0xFFFF)
      && (r.Err? ==> r.fault == if f.Err? then f.fault else ArithmeticOverflow))
    && (r.Ok? ==>
        var f := old(AddressModeFetch(cpu.Regs(), bus, inst.mode)).value;
        && cpu.a == And8(old(cpu.a), f.value)
        && cpu.flags == old(cpu.flags).(zero := cpu.a == 0, negative := Bit7(cpu.a))
        && cpu.x == old(cpu.x) && cpu.y == old(cpu.y) && cpu.sp == old(cpu.sp)
        && cpu.cycles == old(cpu.cycles)
        && cpu.pc as int == old(cpu.pc) as int + inst.bytes as int
        && r.value == f.extra)
  }

  /**
   * `and`: A becomes A & M; Zero and Negative are written both ways from the
   * new A, so a stale Zero is cleared by a non-zero result.
   */
  method And(cpu: Cpu, inst: Instruction, bus: Bus) returns (r: Result<u8>)
    requires bus.Valid()
    modifies cpu
    ensures AndEffect(cpu, inst, bus, r)
  {
    var fetched :- AddressModeFetch(cpu.Regs(), bus, inst.mode);
    cpu.a := And8(cpu.a, fetched.value);
    cpu.flags := ZeroNegative(cpu.flags, cpu.a);
    cpu.pc :- AddU16(cpu.pc, inst.bytes as u16);
    return Ok(fetched.extra);
  }

  /**
   * `cmp`: Zero when A == M, Carry when A >= M, Negative from bit 7 of
   * `A - M`. That subtraction is the unchecked one, so a comparison with
   * A < M aborts (see `Alu.CompareAsWritten`). A is never changed.
   */
  method Cmp(cpu: Cpu, inst: Instruction, bus: Bus) returns (r: Result<u8>)
    requires bus.Valid()
    modifies cpu
    ensures var f := old(AddressModeFetch(cpu.Regs(), bus, inst.mode));
            && (r.Ok? <==> f.Ok? && f.value.value <= old(cpu.a) && old(cpu.pc) as int + inst.bytes as int <= 0xFFFF)
            && (r.Err? ==> r.fault == if f.Err? then f.fault else ArithmeticOverflow)
    ensures r.Ok? ==>
              var f := old(AddressModeFetch(cpu.Regs(), bus, inst.mode)).value;
              && cpu.flags == Compare(old(cpu.a), f.value, old(cpu.flags))
              && cpu.a == old(cpu.a) && cpu.x == old(cpu.x) && cpu.y == old(cpu.y) && cpu.sp == old(cpu.sp)
              && cpu.cycles == old(cpu.cycles)
              && cpu.pc as int == old(cpu.pc) as int + inst.bytes as int
              && r.value == f.extra
  {
    var fetched :- AddressModeFetch(cpu.Regs(), bus, inst.mode);
    cpu.flags :- CompareAsWritten(cpu.a, fetched.value, cpu.flags);
    CompareAsWrittenAgrees(old(cpu.a), fetched.value, old(cpu.flags));
    cpu.pc :- AddU16(cpu.pc, inst.bytes as u16);
    return Ok(fetched.extra);
  }

  /** `eor`: A becomes A ^ M, with Zero and Negative written both ways from it. */
  method Eor(cpu: Cpu, inst: Instruction, bus: Bus) returns (r: Result<u8>)
    requires bus.Valid()
    modifies cpu
    ensures var f := old(AddressModeFetch(cpu.Regs(), bus, inst.mode));
            && (r.Ok? <==> f.Ok? && old(cpu.pc) as int + inst.bytes as int <= 0xFFFF)
            && (r.Err? ==> r.fault == if f.Err? then f.fault else ArithmeticOverflow)
    ensures r.Ok? ==>
              var f := old(AddressModeFetch(cpu.Regs(), bus, inst.mode)).value;
              && cpu.a == Xor8(old(cpu.a), f.value)
              && cpu.flags == old(cpu.flags).(zero := cpu.a == 0, negative := Bit7(cpu.a))
              && cpu.x == old(cpu.x) && cpu.y == old(cpu.y) && cpu.sp == old(cpu.sp)
              && cpu.cycles == old(cpu.cycles)
              && cpu.pc as int == old(cpu.pc) as int + inst.bytes as int
              && r.value == f.extra
  {
    var fetched :- AddressModeFetch(cpu.Regs(), bus, inst.mode);
    cpu.a := Xor8(cpu.a, fetched.value);
    cpu.flags := ZeroNegative(cpu.flags, cpu.a);
    cpu.pc :- AddU16(cpu.pc, inst.bytes as u16);
    return Ok(fetched.extra);
  }

  /**
   * `sta` as written: A takes the fetched memory byte (the handler's tests
   * assert this, against its doc comment's M = A), memory is not written,
   * the flags are kept, and no page-crossing cycle is ever charged.
   */
  method Sta(cpu: Cpu, inst: Instruction, bus: Bus) returns (r: Result<u8>)
    requires bus.Valid()
    modifies cpu
    ensures var f := old(AddressModeFetch(cpu.Regs(), bus, inst.mode));
            && (r.Ok? <==> f.Ok? && old(cpu.pc) as int + inst.bytes as int <= 0xFFFF)
            && (r.Err? ==> r.fault == if f.Err? then f.fault else ArithmeticOverflow)
    ensures r.Ok? ==>
              var f := old(AddressModeFetch(cpu.Regs(), bus, inst.mode)).value;
              && cpu.a == f.value && cpu.flags == old(cpu.flags)
              && cpu.x == old(cpu.x) && cpu.y == old(cpu.y) && cpu.sp == old(cpu.sp)
              && cpu.cycles == old(cpu.cycles)
              && cpu.pc as int == old(cpu.pc) as int + inst.bytes as int
              && r.value == 0
  {
    var fetched :- AddressModeFetch(cpu.Regs(), bus, inst.mode);
    cpu.a := fetched.value;
    cpu.pc :- AddU16(cpu.pc, inst.bytes as u16);
    return Ok(0);
  }
}
