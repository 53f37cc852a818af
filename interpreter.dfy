/**
 * `execute_instruction`: look the opcode up, run the handler its table
 * entry names, and report the entry's base cycles plus the extra cycles
 * the handler returned.
 *
 * The table is the 48-slot one of the older crate (`Opcodes.Optable`). Its
 * handler names are bound to the implemented handlers: `brk`, `asl`, `clc`,
 * `jsr`, `and`, `bit` and `rol` of the newer crate, `php` and `plp` of the
 * older one, `invalid`, and the scaffold stubs for `ora` and `bpl`, which
 * have no implementation.
 */
module Interpreter {
  import opened Machine
  import opened MainBus
  import opened Opcodes
  import opened Mos6502
  import AluHandlers
  import ControlHandlers
  import RmwHandlers
  import LegacyControl
  import Scaffold
  import Unofficial

  /**
   * What running the handler `inst` names does: the effect that handler's
   * own contract promises, memory left alone by the handlers that only
   * read it, and nothing at all for the stubs and for `invalid`.
   */
  twostate predicate Dispatched(cpu: Cpu, inst: Instruction, bus: Bus, new r: Result<u8>)
    requires old(bus.Valid()) && bus.Valid()
    reads cpu, bus, bus.ram
  {
    var ramKept := bus.ram[..] == old(bus.ram[..]);
    match inst.handler
    case Brk => ControlHandlers.BrkEffect(old(cpu.Regs()), old(bus.ram[..]), cpu.Regs(), bus.ram[..], inst, r)
    case Ora => r == Ok(0) && unchanged(cpu) && ramKept
    case Invalid => r == Err(InvalidOpcode) && unchanged(cpu) && ramKept
    case Asl => RmwHandlers.AslEffect(cpu, inst, bus, r)
    case Php => LegacyControl.PhpEffect(cpu, inst, bus, r)
    case Clc => ControlHandlers.ClcEffect(cpu, inst, bus, r) && ramKept
    case Bpl => r == Ok(0) && unchanged(cpu) && ramKept
    case Jsr => ControlHandlers.JsrEffect(cpu, inst, bus, r)
    case And => AluHandlers.AndEffect(cpu, inst, bus, r) && ramKept
    case Bit => ControlHandlers.BitEffect(cpu, inst, bus, r) && ramKept
    case Rol => RmwHandlers.RolEffect(cpu, inst, bus, r)
    case Plp => LegacyControl.PlpEffect(cpu, inst, bus, r) && ramKept
  }

  /**
   * `(inst.function)(self, inst, bus)`. Of the bound handlers only AND can
   * report an extra cycle (a page crossed by an indexed operand); none
   * reports more than one.
   */
  method Dispatch(cpu: Cpu, inst: Instruction, bus: Bus) returns (r: Result<u8>)
    requires bus.Valid()
    modifies cpu, bus.ram
    ensures inst.handler == Invalid ==> r == Err(InvalidOpcode) && unchanged(cpu) && unchanged(bus.ram)
    ensures Dispatched(cpu, inst, bus, r)
    ensures r.Ok? && inst.handler == And ==>
              old(AddressModeFetch(cpu.Regs(), bus, inst.mode)).Ok?
              && r.value == old(AddressModeFetch(cpu.Regs(), bus, inst.mode)).value.extra
    ensures r.Ok? ==> r.value <= 1
    ensures r.Ok? && inst.handler != And ==> r.value == 0
  {
    match inst.handler
    case Brk => r := ControlHandlers.Brk(cpu, inst, bus);
    case Ora =>
      var extra := Scaffold.Stub(cpu, inst.mode, bus);
      r := Ok(extra);
    case Invalid => r := Unofficial.Invalid(cpu, inst, bus);
    case Asl => r := RmwHandlers.Asl(cpu, inst, bus);
    case Php => r := LegacyControl.Php(cpu, inst, bus);
    case Clc => r := ControlHandlers.Clc(cpu, inst, bus);
    case Bpl =>
      var extra := Scaffold.Stub(cpu, inst.mode, bus);
      r := Ok(extra);
    case Jsr => r := ControlHandlers.Jsr(cpu, inst, bus);
    case And => r := AluHandlers.And(cpu, inst, bus);
    case Bit => r := ControlHandlers.Bit(cpu, inst, bus);
    case Rol => r := RmwHandlers.Rol(cpu, inst, bus);
    case Plp => r := LegacyControl.Plp(cpu, inst, bus);
  }

  /**
   * `execute_instruction`: the cycles an instruction takes are its table
   * entry's base count, plus one only for an AND whose operand crossed a
   * page. An opcode past the populated slots, or one whose slot is
   * `invalid`, aborts; the latter before changing anything.
   */
  method Execute(cpu: Cpu, opcode: u8, bus: Bus) returns (r: Result<u8>)
    requires bus.Valid()
    modifies cpu, bus.ram
    ensures opcode >= POPULATED ==> r == Err(OutOfBounds) && unchanged(cpu) && unchanged(bus.ram)
    ensures opcode < POPULATED && Optable(opcode).handler == Invalid ==>
              r == Err(InvalidOpcode) && unchanged(cpu) && unchanged(bus.ram)
    ensures r.Ok? ==> opcode < POPULATED && Optable(opcode).cycles <= r.value <= Optable(opcode).cycles + 1
    ensures r.Ok? && Optable(opcode).handler != And ==> r.value == Optable(opcode).cycles
    ensures r.Ok? && opcode < POPULATED && Optable(opcode).handler == And ==>
              var fetched := old(AddressModeFetch(cpu.Regs(), bus, Optable(opcode).mode));
              fetched.Ok? && r.value as int == Optable(opcode).cycles as int + fetched.value.extra as int
    ensures r.Ok? ==>
              opcode < POPULATED && Optable(opcode).cycles <= r.value
              && Dispatched(cpu, Optable(opcode), bus, Ok(r.value - Optable(opcode).cycles))
    ensures opcode < POPULATED && r.Err? ==> Dispatched(cpu, Optable(opcode), bus, r)
  {
    var inst :- ParseInstruction(opcode);
    var extra :- Dispatch(cpu, inst, bus);
    r := AddU8(inst.cycles, extra);
  }
}
