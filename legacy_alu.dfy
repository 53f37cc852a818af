/**
 * The accumulator handler of the older crate (`src/mos6502/src/opcodes/alu/`)
 * that the newer one has no counterpart for: SBC. The older `and.rs` does
 * what the newer `and.rs` does and is modelled by `AluHandlers.And`.
 *
 * The older crate's `Mos6502` (its registers, `address_mode_fetch` and
 * stack) is taken to behave as the newer crate's, which `Mos6502.Cpu`
 * models.
 */
module LegacyAlu {
  import opened Machine
  import opened Flags
  import opened MainBus
  import opened Opcodes
  import opened Mos6502
  import opened Alu

  /**
   * `sbc`: A and the flags become those of `SubtractWithBorrow`, i.e. of
   * A - M - (1 - C) (see `Alu.SubtractWithBorrowSpec`); the extra cycle the
   * operand fetch reported is returned.
   */
  method Sbc(cpu: Cpu, inst: Instruction, bus: Bus) returns (r: Result<u8>)
    requires bus.Valid()
    modifies cpu
    ensures var f := old(AddressModeFetch(cpu.Regs(), bus, inst.mode));
            && (r.Ok? <==> f.Ok? && old(cpu.pc) as int + inst.bytes as int <= 0xFFFF)
            && (r.Err? ==> r.fault == if f.Err? then f.fault else ArithmeticOverflow)
    ensures r.Ok? ==>
              var f := old(AddressModeFetch(cpu.Regs(), bus, inst.mode)).value;
              var s := SubtractWithBorrow(old(cpu.a), f.value, old(cpu.flags));
              && cpu.a == s.value && cpu.flags == s.flags
              && cpu.x == old(cpu.x) && cpu.y == old(cpu.y) && cpu.sp == old(cpu.sp)
              && cpu.cycles == old(cpu.cycles)
              && cpu.pc as int == old(cpu.pc) as int + inst.bytes as int
              && r.value == f.extra
  {
    var fetched :- AddressModeFetch(cpu.Regs(), bus, inst.mode);
    var s := SubtractWithBorrow(cpu.a, fetched.value, cpu.flags);
    cpu.flags := s.flags;
    cpu.a := s.value;
    cpu.pc :- AddU16(cpu.pc, inst.bytes as u16);
    return Ok(fetched.extra);
  }
}
