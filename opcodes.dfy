/**
 * The instruction descriptor, the addressing modes and the opcode table of the
 * older interpreter: the 48 populated slots 0x00..0x2F of `OPTABLE`.
 */
module Opcodes {
  import opened Machine

  datatype AddressingMode =
    | Implicit | Accumulator | Immediate
    | ZeroPage | ZeroPageX | ZeroPageY
    | Relative
    | Absolute | AbsoluteX | AbsoluteY
    | Indirect | IndirectX | IndirectY

  /**
   * The handler an entry points to. The table names twelve handler functions;
   * `Ora` and `Bpl` have no implementation beyond a logging stub.
   */
  datatype Handler = Brk | Ora | Invalid | Asl | Php | Clc | Bpl | Jsr | And | Bit | Rol | Plp

  /** One slot of the table: opcode, mnemonic, base cycles, mode, length in bytes, handler. */
  datatype Instruction = Instruction(opcode: u8, name: string, cycles: u8, mode: AddressingMode, bytes: u8, handler: Handler)

  /** The number of populated slots; the declared array has 256. */
  const POPULATED: u8 := 0x30

  /** The contract every slot of the table keeps. */
  predicate WellFormedSlot(e: Instruction, op: u8) {
    && e.opcode == op
    && (e.name == "IVL" <==> e.handler == Invalid)
    && (e.name == "IVL" ==> e.cycles == 0 && e.bytes == 0 && e.mode == Implicit)
    && (e.name != "IVL" ==> 1 <= e.bytes <= 3)
    && e.cycles <= 7
  }

  /**
   * `OPTABLE[op]` for a populated slot. Every slot holds its own opcode, and
   * every slot named "IVL" is the zero-cycle, zero-byte invalid entry; no
   * instruction takes more than seven base cycles.
   */
  function Optable(op: u8): (e: Instruction)
    requires op < POPULATED
    ensures WellFormedSlot(e, op)
  {
    if op < 0x10 then Row0(op) else if op < 0x20 then Row1(op) else Row2(op)
  }

  /** Slots 0x00..0x0F. */
  function Row0(op: u8): (e: Instruction)
    requires op < 0x10
    ensures WellFormedSlot(e, op)
  {
    match op
    case 0x00 => Instruction(0x00, "BRK", 7, Implicit, 1, Brk)
    case 0x01 => Instruction(0x01, "ORA", 6, IndirectX, 2, Ora)
    case 0x02 => Instruction(0x02, "IVL", 0, Implicit, 0, Invalid)
    case 0x03 => Instruction(0x03, "IVL", 0, Implicit, 0, Invalid)
    case 0x04 => Instruction(0x04, "IVL", 0, Implicit, 0, Invalid)
    case 0x05 => Instruction(0x05, "ORA", 3, ZeroPage, 2, Ora)
    case 0x06 => Instruction(0x06, "ASL", 5, ZeroPage, 2, Asl)
    case 0x07 => Instruction(0x07, "IVL", 0, Implicit, 0, Invalid)
    case 0x08 => Instruction(0x08, "PHP", 3, Implicit, 1, Php)
    case 0x09 => Instruction(0x09, "ORA", 2, Immediate, 2, Ora)
    case 0x0A => Instruction(0x0A, "ASL", 2, Accumulator, 1, Asl)
    case 0x0B => Instruction(0x0B, "IVL", 0, Implicit, 0, Invalid)
    case 0x0C => Instruction(0x0C, "IVL", 0, Implicit, 0, Invalid)
    case 0x0D => Instruction(0x0D, "ORA", 4, Absolute, 3, Ora)
    case 0x0E => Instruction(0x0E, "ASL", 6, Absolute, 3, Ora)
    case _ => Instruction(0x0F, "IVL", 0, Implicit, 0, Invalid)
  }

  /** Slots 0x10..0x1F. */
  function Row1(op: u8): (e: Instruction)
    requires 0x10 <= op < 0x20
    ensures WellFormedSlot(e, op)
  {
    match op
    case 0x10 => Instruction(0x10, "BPL", 2, Relative, 2, Bpl)
    case 0x11 => Instruction(0x11, "ORA", 5, IndirectY, 2, Ora)
    case 0x12 => Instruction(0x12, "IVL", 0, Implicit, 0, Invalid)
    case 0x13 => Instruction(0x13, "IVL", 0, Implicit, 0, Invalid)
    case 0x14 => Instruction(0x14, "IVL", 0, Implicit, 0, Invalid)
    case 0x15 => Instruction(0x15, "ORA", 4, ZeroPageX, 2, Ora)
    case 0x16 => Instruction(0x16, "ASL", 6, ZeroPageX, 2, Asl)
    case 0x17 => Instruction(0x17, "IVL", 0, Implicit, 0, Invalid)
    case 0x18 => Instruction(0x18, "CLC", 2, Implicit, 1, Clc)
    case 0x19 => Instruction(0x19, "ORA", 4, AbsoluteY, 3, Ora)
    case 0x1A => Instruction(0x1A, "IVL", 0, Implicit, 0, Invalid)
    case 0x1B => Instruction(0x1B, "IVL", 0, Implicit, 0, Invalid)
    case 0x1C => Instruction(0x1C, "IVL", 0, Implicit, 0, Invalid)
    case 0x1D => Instruction(0x1D, "ORA", 4, AbsoluteX, 3, Ora)
    case 0x1E => Instruction(0x1E, "ASL", 7, AbsoluteX, 3, Asl)
    case _ => Instruction(0x1F, "IVL", 0, Implicit, 0, Invalid)
  }

  /** Slots 0x20..0x2F. */
  function Row2(op: u8): (e: Instruction)
    requires 0x20 <= op < 0x30
    ensures WellFormedSlot(e, op)
  {
    match op
    case 0x20 => Instruction(0x20, "JSR", 2, Relative, 2, Jsr)
    case 0x21 => Instruction(0x21, "AND", 6, IndirectY, 2, And)
    case 0x22 => Instruction(0x22, "IVL", 0, Implicit, 0, Invalid)
    case 0x23 => Instruction(0x23, "IVL", 0, Implicit, 0, Invalid)
    case 0x24 => Instruction(0x24, "BIT", 3, ZeroPage, 2, Bit)
    case 0x25 => Instruction(0x25, "AND", 3, ZeroPage, 2, And)
    case 0x26 => Instruction(0x26, "ROL", 5, ZeroPage, 2, Rol)
    case 0x27 => Instruction(0x27, "IVL", 0, Implicit, 0, Invalid)
    case 0x28 => Instruction(0x28, "PLP", 4, Implicit, 1, Plp)
    case 0x29 => Instruction(0x29, "AND", 2, Immediate, 2, And)
    case 0x2A => Instruction(0x2A, "ROL", 2, Accumulator, 2, Rol)
    case 0x2B => Instruction(0x2B, "IVL", 0, Implicit, 0, Invalid)
    case 0x2C => Instruction(0x2C, "BIT", 4, Absolute, 3, Bit)
    case 0x2D => Instruction(0x2D, "AND", 4, Absolute, 3, And)
    case 0x2E => Instruction(0x2E, "ROL", 6, Absolute, 3, Rol)
    case _ => Instruction(0x2F, "IVL", 0, Implicit, 0, Invalid)
  }

  /**
   * `parse_instruction`: the table slot of `op`. Only slots 0x00..0x2F are
   * present; indexing past them is out of bounds.
   */
  function ParseInstruction(op: u8): (r: Result<Instruction>)
    ensures r.Ok? <==> op < POPULATED
    ensures r.Ok? ==> r.value.opcode == op
    ensures r.Err? ==> r.fault == OutOfBounds
  {
    if op < POPULATED then Ok(Optable(op)) else Err(OutOfBounds)
  }
}
