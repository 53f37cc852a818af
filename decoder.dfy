/**
 * The first, match-based decoder of the older crate: three opcodes with a
 * page-crossing flag; every other byte aborts.
 */
module Decoder {
  import opened Machine
  import opened Opcodes

  datatype DecodedInstruction = DecodedInstruction(
    opcode: u8, name: string, cycles: u8, mode: AddressingMode, bytes: u8, pageCrossAddCycle: bool)

  /** `parse_instruction` of the decoder: BRK, ORA (IndirectX) and NOP (Immediate). */
  function Decode(op: u8): (r: Result<DecodedInstruction>)
    ensures r.Ok? <==> op <= 0x02
    ensures r.Ok? ==> r.value.opcode == op && !r.value.pageCrossAddCycle
    ensures r.Err? ==> r.fault == UnknownOpcode
  {
    match op
    case 0x00 => Ok(DecodedInstruction(op, "BRK", 7, Implicit, 1, false))
    case 0x01 => Ok(DecodedInstruction(op, "ORA", 6, IndirectX, 2, false))
    case 0x02 => Ok(DecodedInstruction(op, "NOP", 2, Immediate, 1, false))
    case _ => Err(UnknownOpcode)
  }

  /**
   * The first two opcodes agree with the opcode table on mnemonic, cycles,
   * mode and length; opcode 0x02 is a NOP here but an invalid slot there.
   */
  lemma {:induction false} DecoderAgreesWithTable(op: u8)
    requires op <= 0x02
    ensures var d := Decode(op).value;
            var e := Optable(op);
            (op <= 0x01 <==> d.name == e.name) &&
            (op <= 0x01 ==> d.cycles == e.cycles && d.mode == e.mode && d.bytes == e.bytes)
  {
    if op == 0x00 {
      assert Optable(0x00) == Instruction(0x00, "BRK", 7, Implicit, 1, Brk);
    } else if op == 0x01 {
      assert Optable(0x01) == Instruction(0x01, "ORA", 6, IndirectX, 2, Ora);
    } else {
      assert Optable(0x02).name == "IVL";
    }
  }
}
