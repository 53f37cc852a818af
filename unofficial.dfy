/**
 * The handler the older opcode table gives every undocumented opcode.
 */
module Unofficial {
  import opened Machine
  import opened MainBus
  import opened Opcodes
  import opened Mos6502

  /**
   * `invalid`: aborts whatever the state, before changing any register or
   * memory, and so never yields a cycle count.
   */
  method Invalid(cpu: Cpu, inst: Instruction, bus: Bus) returns (r: Result<u8>)
    ensures r.Err? && r.fault == InvalidOpcode
  {
    return Err(InvalidOpcode);
  }
}
