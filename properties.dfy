/**
 * Properties that relate several operations: a call and its return, an
 * interrupt and its return, pushes and pulls; and the concrete vectors of
 * the handlers' unit tests, stated over the functions that specify them.
 */
module Properties {
  import opened Machine
  import opened Flags
  import opened MainBus
  import opened Opcodes
  import opened Mos6502
  import opened Alu
  import ControlHandlers
  import LegacyControl
  import Scaffold

  /** Two pushes then two pulls give the bytes back in reverse order and restore sp. */
  method PushesPullInReverse(cpu: Cpu, first: u8, second: u8, bus: Bus) returns (top: u8, below: u8)
    requires bus.Valid() && cpu.sp >= 2
    modifies cpu`sp, bus.ram
    ensures top == second && below == first
    ensures cpu.sp == old(cpu.sp)
  {
    var pushed := cpu.StackPush(first, bus);
    pushed := cpu.StackPush(second, bus);
    assert StackAddr(old(cpu.sp)) != StackAddr(old(cpu.sp) - 1);
    var pulled := cpu.StackPull(bus);
    top := pulled.value;
    pulled := cpu.StackPull(bus);
    below := pulled.value;
  }

  /**
   * A three-byte JSR at P followed by a one-byte RTS resumes at P + 3 with
   * sp restored and the flags and A, X, Y as they were.
   */
  method CallThenReturn(cpu: Cpu, call: Instruction, ret: Instruction, bus: Bus) returns (r: Result<u8>)
    requires bus.Valid()
    requires call.bytes == 3 && ret.bytes == 1
    requires cpu.sp >= 2 && cpu.pc as int + 3 <= 0xFFFF
    modifies cpu, bus.ram
    ensures r.Ok?
    ensures cpu.pc as int == old(cpu.pc) as int + 3 && cpu.sp == old(cpu.sp)
    ensures cpu.flags == old(cpu.flags) && cpu.a == old(cpu.a) && cpu.x == old(cpu.x) && cpu.y == old(cpu.y)
  {
    ghost var sp0, pc0 := cpu.sp, cpu.pc;
    var called := ControlHandlers.Jsr(cpu, call, bus);
    ghost var link := (pc0 as int + 2) as u16;
    assert StackAddr(sp0) != StackAddr(sp0 - 1);
    assert bus.Read8(StackAddr(cpu.sp + 1)) == Lo(link) && bus.Read8(StackAddr(cpu.sp + 2)) == Hi(link);
    WordOfParts(link);
    r := ControlHandlers.Rts(cpu, ret, bus);
  }

  /**
   * An NMI followed by RTI resumes at the interrupted pc with sp restored;
   * the flags come back with Break and DisableInterrupt clear and Unused set.
   */
  method InterruptThenReturn(cpu: Cpu, ret: Instruction, bus: Bus) returns (r: Result<u8>)
    requires bus.Valid() && cpu.sp >= 3
    modifies cpu, bus.ram
    ensures r.Ok?
    ensures cpu.pc == old(cpu.pc) && cpu.sp == old(cpu.sp)
    ensures cpu.flags == old(cpu.flags).(brk := false, unused := true, interrupt := false)
  {
    ghost var sp0, pc0, flags0 := cpu.sp, cpu.pc, cpu.flags;
    var interrupted := cpu.Nmi(bus);
    ghost var f := flags0.(brk := false, unused := true, interrupt := true);
    assert bus.Read8(StackAddr(cpu.sp + 1)) == Pack(f);
    assert bus.Read8(StackAddr(cpu.sp + 2)) == Lo(pc0) && bus.Read8(StackAddr(cpu.sp + 3)) == Hi(pc0);
    UnpackPack(f);
    WordOfParts(pc0);
    r := ControlHandlers.Rti(cpu, ret, bus);
  }

  /**
   * BRK followed by RTI resumes `bytes` past the BRK with sp restored; the
   * flags come back with Break and DisableInterrupt clear.
   */
  method BreakThenReturn(cpu: Cpu, brk: Instruction, ret: Instruction, bus: Bus) returns (r: Result<u8>)
    requires bus.Valid() && cpu.sp >= 3 && cpu.pc as int + brk.bytes as int <= 0xFFFF
    modifies cpu, bus.ram
    ensures r.Ok?
    ensures cpu.pc as int == old(cpu.pc) as int + brk.bytes as int && cpu.sp == old(cpu.sp)
    ensures cpu.flags == old(cpu.flags).(brk := false, interrupt := false)
  {
    ghost var sp0, pc0, flags0 := cpu.sp, cpu.pc, cpu.flags;
    var broke := ControlHandlers.Brk(cpu, brk, bus);
    ghost var link := (pc0 as int + brk.bytes as int) as u16;
    ghost var pushed := flags0.(interrupt := true).(brk := true);
    assert bus.Read8(StackAddr(cpu.sp + 1)) == Pack(pushed);
    assert bus.Read8(StackAddr(cpu.sp + 2)) == Lo(link) && bus.Read8(StackAddr(cpu.sp + 3)) == Hi(link);
    UnpackPack(pushed);
    WordOfParts(link);
    r := ControlHandlers.Rti(cpu, ret, bus);
  }

  /**
   * The scaffold RTS undoes a push of the low and then the high byte of a
   * word: it resumes exactly at that word (0x0203 in its test).
   */
  method ScaffoldReturnToPushedWord(cpu: Cpu, ret: Instruction, w: u16, bus: Bus) returns (r: Result<u8>)
    requires bus.Valid() && cpu.sp >= 2
    modifies cpu, bus.ram
    ensures r.Ok? && cpu.pc == w && cpu.sp == old(cpu.sp)
  {
    ghost var sp0 := cpu.sp;
    var pushed := cpu.StackPush(Lo(w), bus);
    pushed := cpu.StackPush(Hi(w), bus);
    assert StackAddr(sp0) != StackAddr(sp0 - 1);
    WordOfParts(w);
    r := Scaffold.Rts(cpu, ret, bus);
  }

  /**
   * The branch tests: BCS 0xFA from 0x0800 lands on 0x07FA, a page away;
   * BEQ +0x10 from 0x0800 stays in the page and from 0x08F0 crosses into
   * 0x0900; BEQ -6 from 0x08F0 and 0x0800; and BEQ by -128 aborts wherever
   * it is.
   */
  lemma BranchVectors()
    ensures WrappingBranchTarget(0x0800, 0xFA) == 0x07FA && BranchCycles(0x0800, 0x07FA) == 2
    ensures CheckedBranchTarget(0x0800, 0x10) == Ok(0x0810) && BranchCycles(0x0800, 0x0810) == 1
    ensures CheckedBranchTarget(0x08F0, 0x10) == Ok(0x0900) && BranchCycles(0x08F0, 0x0900) == 2
    ensures CheckedBranchTarget(0x08F0, 0xFA) == Ok(0x08EA) && BranchCycles(0x08F0, 0x08EA) == 1
    ensures CheckedBranchTarget(0x0800, 0xFA) == Ok(0x07FA) && BranchCycles(0x0800, 0x07FA) == 2
    ensures forall pc: u16 :: CheckedBranchTarget(pc, 0x80).Err?
  {
    assert Signed(0xFA) == -6 && Signed(0x10) == 0x10;
    assert Hi(0x0800) == 0x08 && Hi(0x07FA) == 0x07 && Hi(0x0810) == 0x08;
    assert Hi(0x08F0) == 0x08 && Hi(0x0900) == 0x09 && Hi(0x08EA) == 0x08;
  }

  /**
   * The indirect JMP page bug: a pointer at 0x12FF takes its high byte from
   * 0x1200, not 0x1300; any other pointer reads the next byte.
   */
  lemma IndirectJumpVectors()
    ensures LegacyControl.IndirectHighAddr(0x12FF) == 0x1200
    ensures LegacyControl.IndirectHighAddr(0x1234) == 0x1235
  {}

  /**
   * The flag tests, as bytes: CLC turns 0b1100_1111 into 0b1100_1110 and
   * SEC turns it back; CLI gives 0b1100_1011 and SEI undoes it; CLV gives
   * 0b1000_1111; CLD gives 0b1100_0111 and SED undoes it; SED on a byte
   * with Decimal already set leaves it as it is.
   */
  lemma FlagVectors()
    ensures Pack(Unpack(0xCF).(carry := false)) == 0xCE
    ensures Pack(Unpack(0xCE).(carry := true)) == 0xCF
    ensures Pack(Unpack(0xCF).(interrupt := false)) == 0xCB
    ensures Pack(Unpack(0xCB).(interrupt := true)) == 0xCF
    ensures Pack(Unpack(0xCF).(overflow := false)) == 0x8F
    ensures Pack(Unpack(0xCF).(decimal := false)) == 0xC7
    ensures Pack(Unpack(0xC7).(decimal := true)) == 0xCF
    ensures Pack(Unpack(0xCF).(decimal := true)) == 0xCF
  {
  }

  /**
   * RTI's test: the pulled flags 0b1000_0011 have neither Break nor
   * DisableInterrupt set, so they come back unchanged.
   */
  lemma ReturnFromInterruptVector()
    ensures Pack(Unpack(0x83).(brk := false, interrupt := false)) == 0x83
  {
  }

  /**
   * The scaffold RTI undoes a push of the low byte of a word, its high byte
   * and then a flags byte: pc is that word and the flags are the pushed
   * byte, every bit of it (0x0203 and 0b1100_1110 in its test).
   */
  method ScaffoldInterruptReturn(cpu: Cpu, ret: Instruction, w: u16, status: u8, bus: Bus) returns (r: Result<u8>)
    requires bus.Valid() && cpu.sp >= 3
    modifies cpu, bus.ram
    ensures r.Ok? && cpu.pc == w && Pack(cpu.flags) == status && cpu.sp == old(cpu.sp)
  {
    ghost var sp0 := cpu.sp;
    var pushed := cpu.StackPush(Lo(w), bus);
    pushed := cpu.StackPush(Hi(w), bus);
    pushed := cpu.StackPush(status, bus);
    assert StackAddr(sp0) != StackAddr(sp0 - 1) && StackAddr(sp0) != StackAddr(sp0 - 2);
    assert StackAddr(sp0 - 1) != StackAddr(sp0 - 2);
    WordOfParts(w);
    PackUnpack(status);
    r := Scaffold.Rti(cpu, ret, bus);
  }

  /**
   * RTI's test: sp 0xFC, the word 0x1234 at 0x01FE and the flags byte
   * 0b1000_0011 at 0x01FD. RTI ends at 0x1234 with sp 0xFF and those flags.
   */
  method ReturnFromInterruptScenario() returns (cpu: Cpu, bus: Bus)
    ensures bus.Valid()
    ensures cpu.pc == 0x1234 && cpu.sp == 0xFF && Pack(cpu.flags) == 0x83
    ensures cpu.a == 0 && cpu.x == 0 && cpu.y == 0
  {
    cpu := new Cpu();
    bus := new Bus();
    cpu.sp := 0xFC;
    cpu.pc := 0x0800;
    cpu.flags := Unpack(0x00);
    var written := bus.CpuWrite16(0x01FE, 0x1234);
    bus.Write8(0x01FD, 0x83);
    assert StackAddr(0xFD) == 0x01FD && StackAddr(0xFE) == 0x01FE && StackAddr(0xFF) == 0x01FF;
    assert bus.Read8(0x01FE) == 0x34 && bus.Read8(0x01FF) == 0x12;
    // The older table has no slot for 0x40, and `rti` reads its entry only for
    // a log line, which is not modelled, so the scenario hands it the first slot.
    var r := ControlHandlers.Rti(cpu, Optable(0x00), bus);
    ReturnFromInterruptVector();
  }

  /**
   * BRK's test: from flags 0b0000_0011 it pushes 0b0001_0111 (DisableInterrupt
   * and Break set) and keeps 0b0000_0111.
   */
  lemma BreakFlagsVector()
    ensures Pack(Unpack(0x03).(interrupt := true).(brk := true)) == 0x17
    ensures Pack(Unpack(0x03).(interrupt := true).(brk := false)) == 0x07
  {
  }

  /**
   * BRK's test run on a fresh CPU and memory: sp 0xFF, pc 0x0800, flags
   * 0b0000_0011 and the vector 0x1234 at 0xFFFE. It ends at 0x1234 with sp
   * 0xFC and flags 0b0000_0111, the return address 0x0801 at 0x01FE and
   * the flags byte 0b0001_0111 at 0x01FD.
   */
  method BreakScenario() returns (cpu: Cpu, bus: Bus)
    ensures bus.Valid()
    ensures cpu.pc == 0x1234 && cpu.sp == 0xFC && Pack(cpu.flags) == 0x07
    ensures cpu.a == 0 && cpu.x == 0 && cpu.y == 0
    ensures bus.Read16(0x01FE) == Ok(0x0801) && bus.Read8(0x01FD) == 0x17
    ensures bus.Read16(0xFFFE) == Ok(0x1234)
  {
    cpu := new Cpu();
    bus := new Bus();
    cpu.sp := 0xFF;
    cpu.pc := 0x0800;
    cpu.flags := Unpack(0x03);
    var written := bus.Write16(0xFFFE, 0x1234);
    var r := ControlHandlers.Brk(cpu, Optable(0x00), bus);
    BreakFlagsVector();
    assert Lo(0x0801) == 0x01 && Hi(0x0801) == 0x08;
    assert bus.Read8(0x01FE) == 0x01 && bus.Read8(0x01FF) == 0x08;
    WordOfParts(0x0801);
    assert Lo(0x1234) == 0x34 && Hi(0x1234) == 0x12;
    WordOfParts(0x1234);
  }
}
