/**
 * The disassembler: turns a program's bytes into one text line per
 * instruction, looking each opcode up in an instruction table. The table it
 * uses is the newer crate's 256-entry `OPTABLE`, which is not part of this
 * model, so it is a parameter here; only the fields the disassembler reads
 * are kept.
 */
module Disassembler {
  import opened Machine
  import opened Opcodes
  import opened Alu

  /** An entry of the instruction table, as the disassembler sees it. */
  datatype TableEntry = TableEntry(opcode: u8, name: string, cycles: u8, mode: AddressingMode, bytes: u8)

  /** The mnemonic of the entries that stand for invalid or undocumented opcodes. */
  const INVALID_NAME: string := "IVL"

  /**
   * What the disassembler needs of its table: an entry for every byte, and
   * a length of at least one byte for every valid entry (an entry of length
   * 0 would never move the position on, and the loop would not end).
   */
  predicate DisassemblyTable(table: seq<TableEntry>) {
    |table| == 256 && forall k :: 0 <= k < 256 ==> table[k].name != INVALID_NAME ==> table[k].bytes >= 1
  }

  // Formatting

  const HEX_DIGITS: string := "0123456789ABCDEF"

  function HexDigit(n: int): char
    requires 0 <= n < 16
  {
    HEX_DIGITS[n]
  }

  /** The value of one upper-case hexadecimal digit. */
  function DigitValue(c: char): int {
    if '0' <= c <= '9' then c as int - '0' as int
    else if 'A' <= c <= 'F' then c as int - 'A' as int + 10
    else 0
  }

  /** The number two upper-case hexadecimal digits denote. */
  function HexValue2(s: string): nat
    requires |s| == 2
  {
    DigitValue(s[0]) * 16 + DigitValue(s[1])
  }

  /** The number four upper-case hexadecimal digits denote. */
  function HexValue4(s: string): nat
    requires |s| == 4
  {
    HexValue2(s[..2]) * 0x100 + HexValue2(s[2..])
  }

  lemma {:induction false} DigitDenotes(n: int)
    requires 0 <= n < 16
    ensures DigitValue(HexDigit(n)) == n
  {
    if n < 10 {
      assert HexDigit(n) as int == '0' as int + n;
    } else {
      assert HexDigit(n) as int == 'A' as int + n - 10;
    }
  }

  /** `{:02X}`: two upper-case hex digits, high nibble first. */
  function Hex2(b: u8): (s: string)
    ensures |s| == 2
    ensures HexValue2(s) == b as int
  {
    DigitDenotes(b as int / 16);
    DigitDenotes(b as int % 16);
    [HexDigit(b as int / 16), HexDigit(b as int % 16)]
  }

  /** `{:04X}`: four upper-case hex digits, the high byte's first. */
  function Hex4(w: u16): (s: string)
    ensures |s| == 4
    ensures HexValue4(s) == w as int
  {
    var s := Hex2(Hi(w)) + Hex2(Lo(w));
    assert s[..2] == Hex2(Hi(w)) && s[2..] == Hex2(Lo(w));
    s
  }

  /** `{:<n}` of the empty string: n spaces. */
  function Spaces(n: nat): (s: string)
    ensures |s| == n && forall k :: 0 <= k < n ==> s[k] == ' '
  {
    seq(n, _ => ' ')
  }

  // Operand decoding

  /** `parse_u8`: the byte after the opcode at `pos`. */
  function ParseU8(code: seq<u8>, pos: u16): (r: Result<u8>)
    ensures r.Ok? <==> pos as int + 1 < |code|
    ensures r.Ok? ==> r.value == code[pos as int + 1]
    ensures r.Err? ==> r.fault == OutOfBounds
  {
    if pos as int + 1 < |code| then Ok(code[pos as int + 1]) else Err(OutOfBounds)
  }

  /** `parse_u16`: the two bytes after the opcode at `pos`, little-endian. */
  function ParseU16(code: seq<u8>, pos: u16): (r: Result<u16>)
    ensures r.Ok? <==> pos as int + 2 < |code|
    ensures r.Ok? ==> Lo(r.value) == code[pos as int + 1] && Hi(r.value) == code[pos as int + 2]
    ensures r.Err? ==> r.fault == OutOfBounds
  {
    if pos as int + 2 < |code| then Ok((code[pos as int + 1] as int + code[pos as int + 2] as int * 0x100) as u16)
    else Err(OutOfBounds)
  }

  /** The number of operand bytes `parse_arguments` reads for a mode. */
  function OperandWidth(mode: AddressingMode): nat {
    match mode
    case Implicit | Accumulator => 0
    case Absolute | AbsoluteX | AbsoluteY | Indirect => 2
    case _ => 1
  }

  /**
   * The target printed for a Relative operand, computed in 32-bit signed
   * arithmetic and truncated to 16 bits: the instruction's address plus its
   * length plus the signed offset. It is the target the CPU's wrapping branch
   * computes from the address of the following instruction.
   */
  function RelativeTarget(base: u16, pos: u16, bytes: u8, operand: u8): (t: u16)
    ensures t == WrappingBranchTarget(WrapAdd16(WrapAdd16(base, pos), bytes as u16), operand)
  {
    var sum := base as int + pos as int;
    ModShift(sum, bytes as int);
    ModShift(sum + bytes as int, Signed(operand));
    ((sum + bytes as int + Signed(operand)) % 0x1_0000) as u16
  }

  /** Reducing a summand modulo 2^16 first does not change the sum modulo 2^16. */
  lemma ModShift(a: int, b: int)
    ensures ((a % 0x1_0000) + b) % 0x1_0000 == (a + b) % 0x1_0000
  {
    var q := a / 0x1_0000;
    assert a + b == (a % 0x1_0000 + b) + q * 0x1_0000;
  }

  /**
   * `parse_arguments`, without the final newline: the operand as the
   * assembler writes it for the entry's mode. It fails exactly when the
   * operand bytes run past the end of the program.
   */
  function OperandText(entry: TableEntry, code: seq<u8>, pos: u16, base: u16): (r: Result<string>)
    requires pos as int < |code|
    ensures r.Ok? <==> pos as int + OperandWidth(entry.mode) < |code|
    ensures r.Err? ==> r.fault == OutOfBounds
  {
    match entry.mode
    case Implicit => Ok("")
    case Accumulator => Ok("A")
    case Immediate => var b :- ParseU8(code, pos); Ok("#$" + Hex2(b))
    case ZeroPage => var b :- ParseU8(code, pos); Ok("$" + Hex2(b))
    case ZeroPageX => var b :- ParseU8(code, pos); Ok("$" + Hex2(b) + ",x")
    case ZeroPageY => var b :- ParseU8(code, pos); Ok("$" + Hex2(b) + ",y")
    case Absolute => var w :- ParseU16(code, pos); Ok("$" + Hex4(w))
    case AbsoluteX => var w :- ParseU16(code, pos); Ok("$" + Hex4(w) + ",x")
    case AbsoluteY => var w :- ParseU16(code, pos); Ok("$" + Hex4(w) + ",y")
    case Indirect => var w :- ParseU16(code, pos); Ok("($" + Hex4(w) + ")")
    case IndirectX => var b :- ParseU8(code, pos); Ok("($" + Hex2(b) + ",x)")
    case IndirectY => var b :- ParseU8(code, pos); Ok("($" + Hex2(b) + ",x)")
    case Relative => var b :- ParseU8(code, pos); Ok("$" + Hex4(RelativeTarget(base, pos, entry.bytes, b)))
  }

  /** An IndirectY operand is printed with the IndirectX syntax. */
  lemma IndirectYPrintedAsIndirectX(entry: TableEntry, code: seq<u8>, pos: u16, base: u16)
    requires pos as int < |code| && entry.mode == IndirectY
    ensures OperandText(entry, code, pos, base) == OperandText(entry.(mode := IndirectX), code, pos, base)
  {}

  // One line

  /** `{:04X}: {:02X} `: the address and the opcode that start a verbose line. */
  function LineHead(addr: u16, opcode: u8): (s: string)
    ensures |s| == 9 && s[..4] == Hex4(addr) && s[4..6] == ": "
  {
    Hex4(addr) + ": " + Hex2(opcode) + " "
  }

  /**
   * The verbose prefix of a valid instruction: its address (`base + pos`,
   * which must not pass 0xFFFF), its opcode and its operand bytes, padded so
   * that the mnemonic always starts in column 17.
   */
  function VerbosePrefix(entry: TableEntry, code: seq<u8>, base: u16, pos: u16): (r: Result<string>)
    ensures r.Ok? ==> |r.value| == 17 && base as int + pos as int <= 0xFFFF
                      && HexValue4(r.value[..4]) == base as int + pos as int
  {
    var addr :- AddU16(base, pos);
    var head := LineHead(addr, entry.opcode);
    if entry.bytes == 1 then
      Ok(head + Spaces(8))
    else if entry.bytes == 2 then
      var p :- AddU16(pos, 1);
      if p as int >= |code| then Err(OutOfBounds) else Ok(head + Hex2(code[p]) + Spaces(6))
    else
      var p :- AddU16(pos, 1);
      if p as int >= |code| then Err(OutOfBounds) else
      var q :- AddU16(pos, 2);
      if q as int >= |code| then Err(OutOfBounds) else
      Ok(head + Hex2(code[p]) + " " + Hex2(code[q]) + Spaces(3))
  }

  /** The verbose prefix of an invalid opcode: its address and opcode, padded to column 17. */
  function InvalidPrefix(entry: TableEntry, base: u16, pos: u16): (r: Result<string>)
    ensures r.Ok? ==> |r.value| == 17 && base as int + pos as int <= 0xFFFF
                      && HexValue4(r.value[..4]) == base as int + pos as int
  {
    var addr :- AddU16(base, pos);
    var head := LineHead(addr, entry.opcode);
    assert (head + Spaces(8))[..4] == head[..4];
    Ok(head + Spaces(8))
  }

  /** The text one turn of the loop appends, where it moves the position, and whether the loop then ends. */
  datatype Step = Step(text: string, next: u16, last: bool)

  /**
   * One turn of the loop at position `pos`. An invalid opcode prints
   * "??? " and moves on by one byte, and the loop never ends on it. A valid
   * one prints its mnemonic, a space and its operand, and moves on by its
   * length; the loop ends exactly when that lands on the end of the program.
   */
  function Decode(table: seq<TableEntry>, code: seq<u8>, base: u16, verbose: bool, pos: u16): (r: Result<Step>)
    requires DisassemblyTable(table) && pos as int < |code|
    ensures r.Ok? ==> pos < r.value.next
    ensures r.Ok? && table[code[pos]].name == INVALID_NAME ==>
              r.value.next as int == pos as int + 1 && !r.value.last
              && |r.value.text| >= 5 && r.value.text[|r.value.text| - 5..] == "??? \n"
    ensures r.Ok? && table[code[pos]].name != INVALID_NAME ==>
              r.value.next as int == pos as int + table[code[pos]].bytes as int
              && (r.value.last <==> r.value.next as int == |code|)
              && |r.value.text| >= 1 && r.value.text[|r.value.text| - 1] == '\n'
  {
    var entry := table[code[pos]];
    if entry.name == INVALID_NAME then
      var prefix :- if verbose then InvalidPrefix(entry, base, pos) else Ok("");
      var next :- AddU16(pos, 1);
      Ok(Step(prefix + "??? \n", next, false))
    else
      var prefix :- if verbose then VerbosePrefix(entry, code, base, pos) else Ok("");
      var operand :- OperandText(entry, code, pos, base);
      var next :- AddU16(pos, entry.bytes as u16);
      Ok(Step(prefix + (entry.name + " " + operand + "\n"), next, next as int == |code|))
  }

  /** The two ways of printing a turn agree everywhere but in the text, which the prefix extends. */
  predicate PrefixedBy(v: Step, p: Step, n: nat) {
    v.next == p.next && v.last == p.last && |v.text| == n + |p.text| && v.text[n..] == p.text
  }

  /**
   * Verbose lines are the plain lines behind a 17-column prefix that starts
   * with the instruction's address, so every mnemonic lines up.
   */
  lemma VerboseColumnsAlign(table: seq<TableEntry>, code: seq<u8>, base: u16, pos: u16)
    requires DisassemblyTable(table) && pos as int < |code|
    requires Decode(table, code, base, true, pos).Ok?
    ensures Decode(table, code, base, false, pos).Ok?
    ensures var v := Decode(table, code, base, true, pos).value;
            && PrefixedBy(v, Decode(table, code, base, false, pos).value, 17)
            && HexValue4(v.text[..4]) == base as int + pos as int
  {
    if table[code[pos]].name == INVALID_NAME {
      InvalidColumnsAlign(table, code, base, pos);
    } else {
      ValidColumnsAlign(table, code, base, pos);
    }
  }

  lemma InvalidColumnsAlign(table: seq<TableEntry>, code: seq<u8>, base: u16, pos: u16)
    requires DisassemblyTable(table) && pos as int < |code| && table[code[pos]].name == INVALID_NAME
    requires Decode(table, code, base, true, pos).Ok?
    ensures Decode(table, code, base, false, pos).Ok?
    ensures var v := Decode(table, code, base, true, pos).value;
            && PrefixedBy(v, Decode(table, code, base, false, pos).value, 17)
            && HexValue4(v.text[..4]) == base as int + pos as int
  {
    var prefix := InvalidPrefix(table[code[pos]], base, pos).value;
    var p := Decode(table, code, base, false, pos).value;
    assert (prefix + p.text)[..4] == prefix[..4];
    assert (prefix + p.text)[17..] == p.text;
  }

  lemma ValidColumnsAlign(table: seq<TableEntry>, code: seq<u8>, base: u16, pos: u16)
    requires DisassemblyTable(table) && pos as int < |code| && table[code[pos]].name != INVALID_NAME
    requires Decode(table, code, base, true, pos).Ok?
    ensures Decode(table, code, base, false, pos).Ok?
    ensures var v := Decode(table, code, base, true, pos).value;
            && PrefixedBy(v, Decode(table, code, base, false, pos).value, 17)
            && HexValue4(v.text[..4]) == base as int + pos as int
  {
    var prefix := VerbosePrefix(table[code[pos]], code, base, pos).value;
    var p := Decode(table, code, base, false, pos).value;
    assert (prefix + p.text)[..4] == prefix[..4];
    assert (prefix + p.text)[17..] == p.text;
  }

  // The whole program

  /** Text in front of a result, if there is one. */
  function Prepend(text: string, r: Result<string>): Result<string> {
    if r.Ok? then Ok(text + r.value) else r
  }

  /**
   * The lines from position `pos` on. Reading an opcode past the end (after
   * an operand that overran it, or after an invalid last byte) aborts, and
   * so does a position that passes 0xFFFF.
   */
  function LinesFrom(table: seq<TableEntry>, code: seq<u8>, base: u16, verbose: bool, pos: u16): (r: Result<string>)
    requires DisassemblyTable(table)
    decreases 0x1_0000 - pos as int
  {
    if pos as int >= |code| then Err(OutOfBounds)
    else
      var step :- Decode(table, code, base, verbose, pos);
      if step.last then Ok(step.text)
      else Prepend(step.text, LinesFrom(table, code, base, verbose, step.next))
  }

  /** `disassemble_program`: an empty program is refused; otherwise the lines from position 0. */
  function Disassembly(table: seq<TableEntry>, code: seq<u8>, base: u16, verbose: bool): (r: Result<string>)
    requires DisassemblyTable(table)
    ensures |code| == 0 ==> r == Err(EmptyProgram)
    ensures r.Ok? ==> |r.value| > 0 && r.value[|r.value| - 1] == '\n'
  {
    if |code| == 0 then Err(EmptyProgram)
    else
      var r := LinesFrom(table, code, base, verbose, 0);
      if r.Ok? then ListingEndsWithNewline(table, code, base, verbose, 0); r else r
  }

  /**
   * `disassemble_program`: walks the program with a 16-bit position,
   * appending one line per instruction, until an instruction ends exactly
   * at the end of the program.
   */
  method Disassemble(table: seq<TableEntry>, code: seq<u8>, base: u16, verbose: bool) returns (r: Result<string>)
    requires DisassemblyTable(table)
    ensures r == Disassembly(table, code, base, verbose)
  {
    if |code| == 0 {
      return Err(EmptyProgram);
    }
    var content := "";
    var i: u16 := 0;
    ghost var listing := LinesFrom(table, code, base, verbose, 0);
    assert listing.Ok? ==> content + listing.value == listing.value;
    while true
      invariant Prepend(content, LinesFrom(table, code, base, verbose, i)) == Disassembly(table, code, base, verbose)
      decreases 0x1_0000 - i as int
    {
      if i as int >= |code| {
        return Err(OutOfBounds);
      }
      LinesFromUnfold(table, code, base, verbose, i);
      var inst := table[code[i]];
      if inst.name == INVALID_NAME {
        var prefix := "";
        if verbose {
          prefix :- InvalidPrefix(inst, base, i);
        }
        var text := prefix + "??? \n";
        i :- AddU16(i, 1);
        PrependTwice(content, text, LinesFrom(table, code, base, verbose, i));
        content := content + text;
        continue;
      }
      var prefix := "";
      if verbose {
        prefix :- VerbosePrefix(inst, code, base, i);
      }
      var operand :- OperandText(inst, code, i, base);
      var text := prefix + (inst.name + " " + operand + "\n");
      i :- AddU16(i, inst.bytes as u16);
      PrependTwice(content, text, LinesFrom(table, code, base, verbose, i));
      content := content + text;
      if i as int == |code| {
        break;
      }
    }
    return Ok(content);
  }

  lemma PrependTwice(a: string, b: string, r: Result<string>)
    ensures Prepend(a + b, r) == Prepend(a, Prepend(b, r))
  {
    if r.Ok? {
      assert (a + b) + r.value == a + (b + r.value);
    }
  }

  /** One turn of `LinesFrom`, spelled out. */
  lemma LinesFromUnfold(table: seq<TableEntry>, code: seq<u8>, base: u16, verbose: bool, pos: u16)
    requires DisassemblyTable(table) && pos as int < |code|
    ensures var step := Decode(table, code, base, verbose, pos);
            var rest := LinesFrom(table, code, base, verbose, pos);
            && (step.Err? ==> rest == Err(step.fault))
            && (step.Ok? && step.value.last ==> rest == Ok(step.value.text))
            && (step.Ok? && !step.value.last ==>
                  rest == Prepend(step.value.text, LinesFrom(table, code, base, verbose, step.value.next)))
  {}

  // Properties of the listing

  /** Every successful listing is a non-empty sequence of complete lines. */
  lemma {:induction false} ListingEndsWithNewline(table: seq<TableEntry>, code: seq<u8>, base: u16, verbose: bool, pos: u16)
    requires DisassemblyTable(table)
    requires LinesFrom(table, code, base, verbose, pos).Ok?
    ensures var s := LinesFrom(table, code, base, verbose, pos).value; |s| > 0 && s[|s| - 1] == '\n'
    decreases 0x1_0000 - pos as int
  {
    LinesFromUnfold(table, code, base, verbose, pos);
    var step := Decode(table, code, base, verbose, pos).value;
    if !step.last {
      var rest := LinesFrom(table, code, base, verbose, step.next);
      ListingEndsWithNewline(table, code, base, verbose, step.next);
      assert LinesFrom(table, code, base, verbose, pos).value == step.text + rest.value;
    }
  }

  /** An invalid opcode as the last byte aborts: the loop reads on past the end. */
  lemma InvalidLastByteAborts(table: seq<TableEntry>, code: seq<u8>, base: u16, verbose: bool, pos: u16)
    requires DisassemblyTable(table)
    requires pos as int == |code| - 1 && table[code[pos]].name == INVALID_NAME
    ensures LinesFrom(table, code, base, verbose, pos).Err?
  {
    var r := Decode(table, code, base, verbose, pos);
    if r.Ok? {
      assert r.value.next as int == |code|;
      assert LinesFrom(table, code, base, verbose, r.value.next).Err?;
    }
  }

  /** A valid instruction longer than what is left of the program aborts the listing. */
  lemma OverrunAborts(table: seq<TableEntry>, code: seq<u8>, base: u16, verbose: bool, pos: u16)
    requires DisassemblyTable(table) && pos as int < |code|
    requires table[code[pos]].name != INVALID_NAME && pos as int + table[code[pos]].bytes as int > |code|
    ensures LinesFrom(table, code, base, verbose, pos).Err?
  {
    var r := Decode(table, code, base, verbose, pos);
    if r.Ok? {
      assert !r.value.last;
      assert LinesFrom(table, code, base, verbose, r.value.next).Err?;
    }
  }

  // The programs of the disassembler's unit tests

  /** `CA A9 01 8D 00 02 ...`: DEX, then LDA #$01 and STA $0200. */
  function SimpleProgram(): seq<u8> {
    [0xCA, 0xA9, 0x01, 0x8D, 0x00, 0x02, 0xA9, 0x05, 0x8D, 0x01, 0x02, 0xA9, 0x08, 0x8D, 0x02, 0x02]
  }

  /** The program with branches: JMP $0605, LDX, BEQ forwards and backwards. */
  function BranchProgram(): seq<u8> {
    [0x4C, 0x05, 0x06, 0xA2, 0x15, 0xA2, 0x02, 0xF0, 0x07, 0xCA, 0xF0, 0x04, 0xCA, 0xF0, 0xF6, 0xCA, 0xA9, 0x10]
  }

  // Lines by addressing mode, in the plain listing

  /** A one-byte instruction is listed as its mnemonic and a space. */
  lemma ImplicitLine(table: seq<TableEntry>, code: seq<u8>, base: u16, pos: u16)
    requires DisassemblyTable(table) && pos as int < |code| <= 0xFFFF
    requires var e := table[code[pos]]; e.name != INVALID_NAME && e.mode == Implicit && e.bytes == 1
    ensures Decode(table, code, base, false, pos)
            == Ok(Step(table[code[pos]].name + " \n", pos + 1, pos as int + 1 == |code|))
  {
    var e := table[code[pos]];
    assert OperandText(e, code, pos, base) == Ok("");
    assert AddU16(pos, 1) == Ok(pos + 1);
    assert "" + (e.name + " " + "" + "\n") == e.name + " \n";
  }

  /** An immediate operand is listed as "#$" and the byte after the opcode. */
  lemma ImmediateLine(table: seq<TableEntry>, code: seq<u8>, base: u16, pos: u16)
    requires DisassemblyTable(table) && pos as int + 1 < |code| <= 0xFFFF
    requires var e := table[code[pos]]; e.name != INVALID_NAME && e.mode == Immediate && e.bytes == 2
    ensures Decode(table, code, base, false, pos)
            == Ok(Step(table[code[pos]].name + " #$" + Hex2(code[pos as int + 1]) + "\n", pos + 2, pos as int + 2 == |code|))
  {
    var e := table[code[pos]];
    var digits := Hex2(code[pos as int + 1]);
    assert OperandText(e, code, pos, base) == Ok("#$" + digits);
    assert AddU16(pos, 2) == Ok(pos + 2);
    assert "" + (e.name + " " + ("#$" + digits) + "\n") == e.name + " #$" + digits + "\n";
  }

  /** An absolute operand is listed as "$" and the two bytes after the opcode, high byte first. */
  lemma AbsoluteLine(table: seq<TableEntry>, code: seq<u8>, base: u16, pos: u16)
    requires DisassemblyTable(table) && pos as int + 2 < |code| <= 0xFFFF
    requires var e := table[code[pos]]; e.name != INVALID_NAME && e.mode == Absolute && e.bytes == 3
    ensures Decode(table, code, base, false, pos)
            == Ok(Step(table[code[pos]].name + " $" + Hex2(code[pos as int + 2]) + Hex2(code[pos as int + 1]) + "\n",
                       pos + 3, pos as int + 3 == |code|))
  {
    var e := table[code[pos]];
    var w := ParseU16(code, pos).value;
    var digits := Hex2(code[pos as int + 2]) + Hex2(code[pos as int + 1]);
    assert Hex4(w) == digits;
    assert OperandText(e, code, pos, base) == Ok("$" + digits);
    assert AddU16(pos, 3) == Ok(pos + 3);
    assert "" + (e.name + " " + ("$" + digits) + "\n") == e.name + " $" + Hex2(code[pos as int + 2]) + Hex2(code[pos as int + 1]) + "\n";
  }

  /** A branch is listed as "$" and the address it would jump to. */
  lemma RelativeLine(table: seq<TableEntry>, code: seq<u8>, base: u16, pos: u16)
    requires DisassemblyTable(table) && pos as int + 1 < |code| <= 0xFFFF
    requires var e := table[code[pos]]; e.name != INVALID_NAME && e.mode == Relative && e.bytes == 2
    ensures Decode(table, code, base, false, pos)
            == Ok(Step(table[code[pos]].name + " $" + Hex4(RelativeTarget(base, pos, 2, code[pos as int + 1])) + "\n",
                       pos + 2, pos as int + 2 == |code|))
  {
    var e := table[code[pos]];
    var target := Hex4(RelativeTarget(base, pos, 2, code[pos as int + 1]));
    assert OperandText(e, code, pos, base) == Ok("$" + target);
    assert AddU16(pos, 2) == Ok(pos + 2);
    assert "" + (e.name + " " + ("$" + target) + "\n") == e.name + " $" + target + "\n";
  }

  /** A verbose line is the plain one behind the instruction's verbose prefix. */
  lemma VerboseLine(table: seq<TableEntry>, code: seq<u8>, base: u16, pos: u16, plain: Step)
    requires DisassemblyTable(table) && pos as int < |code| && table[code[pos]].name != INVALID_NAME
    requires Decode(table, code, base, false, pos) == Ok(plain)
    requires VerbosePrefix(table[code[pos]], code, base, pos).Ok?
    ensures Decode(table, code, base, true, pos)
            == Ok(plain.(text := VerbosePrefix(table[code[pos]], code, base, pos).value + plain.text))
  {
    var e := table[code[pos]];
    var operand := OperandText(e, code, pos, base).value;
    var line := e.name + " " + operand + "\n";
    assert plain.text == "" + line;
    assert "" + line == line;
  }

  /** The lines of a listing, one after the other. */
  function Join(lines: seq<string>): string {
    if |lines| == 0 then "" else lines[0] + Join(lines[1..])
  }

  // The whole listings the unit tests expect

  /**
   * At position `pos` stands a valid instruction of one of the four modes
   * the test programs use, the loop prints `line` for it (behind the
   * verbose prefix, when listing verbosely) and moves on to `next`.
   */
  predicate ListedAs(table: seq<TableEntry>, code: seq<u8>, base: u16, verbose: bool, pos: u16, line: string, next: u16)
    requires DisassemblyTable(table)
  {
    pos as int < |code| <= 0xFFFF &&
    var e := table[code[pos]];
    && e.name != INVALID_NAME
    && next as int == pos as int + e.bytes as int <= |code|
    && (verbose ==> VerbosePrefix(e, code, base, pos).Ok?)
    && var prefix := if verbose then VerbosePrefix(e, code, base, pos).value else "";
       || (e.mode == Implicit && e.bytes == 1 && line == prefix + (e.name + " \n"))
       || (e.mode == Immediate && e.bytes == 2 && line == prefix + (e.name + " #$" + Hex2(code[pos as int + 1]) + "\n"))
       || (e.mode == Absolute && e.bytes == 3
           && line == prefix + (e.name + " $" + Hex2(code[pos as int + 2]) + Hex2(code[pos as int + 1]) + "\n"))
       || (e.mode == Relative && e.bytes == 2
           && line == prefix + (e.name + " $" + Hex4(RelativeTarget(base, pos, 2, code[pos as int + 1])) + "\n"))
  }

  /** A line listed that way is one turn of the loop. */
  lemma ListedTurn(table: seq<TableEntry>, code: seq<u8>, base: u16, verbose: bool, pos: u16, line: string, next: u16)
    requires DisassemblyTable(table) && ListedAs(table, code, base, verbose, pos, line, next)
    ensures Decode(table, code, base, verbose, pos) == Ok(Step(line, next, next as int == |code|))
  {
    var e := table[code[pos]];
    if e.mode == Implicit {
      ImplicitLine(table, code, base, pos);
      PrefixedTurn(table, code, base, verbose, pos, e.name + " \n", line, next);
    } else if e.mode == Immediate {
      ImmediateLine(table, code, base, pos);
      PrefixedTurn(table, code, base, verbose, pos, e.name + " #$" + Hex2(code[pos as int + 1]) + "\n", line, next);
    } else if e.mode == Absolute {
      AbsoluteLine(table, code, base, pos);
      PrefixedTurn(table, code, base, verbose, pos,
                   e.name + " $" + Hex2(code[pos as int + 2]) + Hex2(code[pos as int + 1]) + "\n", line, next);
    } else {
      RelativeLine(table, code, base, pos);
      PrefixedTurn(table, code, base, verbose, pos,
                   e.name + " $" + Hex4(RelativeTarget(base, pos, 2, code[pos as int + 1])) + "\n", line, next);
    }
  }

  /** The verbose line is the plain one behind the prefix; the plain line is itself. */
  lemma PrefixedTurn(table: seq<TableEntry>, code: seq<u8>, base: u16, verbose: bool, pos: u16, plain: string, line: string, next: u16)
    requires DisassemblyTable(table) && pos as int < |code| && table[code[pos]].name != INVALID_NAME
    requires Decode(table, code, base, false, pos) == Ok(Step(plain, next, next as int == |code|))
    requires verbose ==> VerbosePrefix(table[code[pos]], code, base, pos).Ok?
    requires line == (if verbose then VerbosePrefix(table[code[pos]], code, base, pos).value else "") + plain
    ensures Decode(table, code, base, verbose, pos) == Ok(Step(line, next, next as int == |code|))
  {
    if verbose {
      VerboseLine(table, code, base, pos, Step(plain, next, next as int == |code|));
    } else {
      assert line == plain;
    }
  }

  /**
   * The loop, started at `at[0]`, prints `lines[i]` at position `at[i]`,
   * moves on to `at[i + 1]`, and ends after the last line.
   */
  predicate Walks(table: seq<TableEntry>, code: seq<u8>, base: u16, verbose: bool, at: seq<u16>, lines: seq<string>)
    requires DisassemblyTable(table)
  {
    && |at| == |lines| + 1
    && forall i :: 0 <= i < |lines| ==>
         && at[i] as int < |code|
         && Decode(table, code, base, verbose, at[i]) == Ok(Step(lines[i], at[i + 1], i == |lines| - 1))
  }

  /** A walk through the program is the listing: its lines joined. */
  lemma {:induction false} WalkedListing(table: seq<TableEntry>, code: seq<u8>, base: u16, verbose: bool, at: seq<u16>, lines: seq<string>)
    requires DisassemblyTable(table) && |lines| > 0 && Walks(table, code, base, verbose, at, lines)
    ensures LinesFrom(table, code, base, verbose, at[0]) == Ok(Join(lines))
    decreases |lines|
  {
    assert Decode(table, code, base, verbose, at[0]) == Ok(Step(lines[0], at[1], 0 == |lines| - 1));
    LinesFromUnfold(table, code, base, verbose, at[0]);
    if |lines| == 1 {
      assert lines[1..] == [];
      assert Join(lines) == lines[0] + "" == lines[0];
    } else {
      assert Walks(table, code, base, verbose, at[1..], lines[1..]) by {
        forall i | 0 <= i < |lines| - 1
          ensures at[1..][i] as int < |code|
          ensures Decode(table, code, base, verbose, at[1..][i])
                  == Ok(Step(lines[1..][i], at[1..][i + 1], i == |lines[1..]| - 1))
        {
          assert at[1..][i] == at[i + 1] && at[1..][i + 1] == at[i + 2] && lines[1..][i] == lines[i + 1];
        }
      }
      WalkedListing(table, code, base, verbose, at[1..], lines[1..]);
    }
  }

  /** The table entries the simple test program uses. */
  predicate SimpleProgramEntries(table: seq<TableEntry>) {
    && |table| == 256
    && table[0xCA] == TableEntry(0xCA, "DEX", 2, Implicit, 1)
    && table[0xA9] == TableEntry(0xA9, "LDA", 2, Immediate, 2)
    && table[0x8D] == TableEntry(0x8D, "STA", 4, Absolute, 3)
  }

  /** The table entries the branch test program uses. */
  predicate BranchProgramEntries(table: seq<TableEntry>) {
    && |table| == 256
    && table[0x4C] == TableEntry(0x4C, "JMP", 3, Absolute, 3)
    && table[0xA2] == TableEntry(0xA2, "LDX", 2, Immediate, 2)
    && table[0xF0] == TableEntry(0xF0, "BEQ", 2, Relative, 2)
    && table[0xCA] == TableEntry(0xCA, "DEX", 2, Implicit, 1)
    && table[0xA9] == TableEntry(0xA9, "LDA", 2, Immediate, 2)
  }

  /** Where each line of the simple program starts, and where the program ends. */
  const SIMPLE_AT: seq<u16> :=
    [0, 1, 3, 6, 8, 11, 13, 16]

  /** The plain lines the simple program's listing is expected to hold. */
  const SIMPLE_LINES: seq<string> :=
    ["DEX \n", "LDA #$01\n", "STA $0200\n", "LDA #$05\n", "STA $0201\n", "LDA #$08\n", "STA $0202\n"]

  /** The verbose lines the simple program's listing is expected to hold. */
  const SIMPLE_VERBOSE_LINES: seq<string> :=
    ["0600: CA         DEX \n", "0601: A9 01      LDA #$01\n", "0603: 8D 00 02   STA $0200\n",
     "0606: A9 05      LDA #$05\n", "0608: 8D 01 02   STA $0201\n", "060B: A9 08      LDA #$08\n",
     "060D: 8D 02 02   STA $0202\n"]

  /** Where each line of the branch program starts, and where the program ends. */
  const BRANCH_AT: seq<u16> :=
    [0, 3, 5, 7, 9, 10, 12, 13, 15, 16, 18]

  /** The plain lines the branch program's listing is expected to hold. */
  const BRANCH_LINES: seq<string> :=
    ["JMP $0605\n", "LDX #$15\n", "LDX #$02\n", "BEQ $0610\n", "DEX \n",
     "BEQ $0610\n", "DEX \n", "BEQ $0605\n", "DEX \n", "LDA #$10\n"]

  /** `parse_simple_program`, plain: the seven lines expected, in order. */
  lemma SimpleProgramListing(table: seq<TableEntry>)
    requires DisassemblyTable(table) && SimpleProgramEntries(table)
    ensures Disassembly(table, SimpleProgram(), 0x0600, false) == Ok(Join(SIMPLE_LINES))
  {
    SimpleProgramWalk(table, SimpleProgram());
    WalkedListing(table, SimpleProgram(), 0x0600, false, SIMPLE_AT, SIMPLE_LINES);
  }

  /** `parse_simple_program`, verbose: each line behind its address and bytes. */
  lemma SimpleProgramVerboseListing(table: seq<TableEntry>)
    requires DisassemblyTable(table) && SimpleProgramEntries(table)
    ensures Disassembly(table, SimpleProgram(), 0x0600, true) == Ok(Join(SIMPLE_VERBOSE_LINES))
  {
    SimpleProgramVerboseWalk(table, SimpleProgram());
    WalkedListing(table, SimpleProgram(), 0x0600, true, SIMPLE_AT, SIMPLE_VERBOSE_LINES);
  }

  /** `parse_program_with_relative_modes`: jumps and branches listed with their targets. */
  lemma BranchProgramListing(table: seq<TableEntry>)
    requires DisassemblyTable(table) && BranchProgramEntries(table)
    ensures Disassembly(table, BranchProgram(), 0x0600, false) == Ok(Join(BRANCH_LINES))
  {
    BranchProgramWalk(table, BranchProgram());
    WalkedListing(table, BranchProgram(), 0x0600, false, BRANCH_AT, BRANCH_LINES);
  }

  // The test programs line by line

  /** `code` holds the bytes of the simple test program, one by one. */
  predicate SimpleProgramBytes(code: seq<u8>) {
    && |code| == 16
    && code[0] == 0xCA && code[1] == 0xA9 && code[2] == 0x01 && code[3] == 0x8D && code[4] == 0x00 && code[5] == 0x02
    && code[6] == 0xA9 && code[7] == 0x05 && code[8] == 0x8D && code[9] == 0x01 && code[10] == 0x02 && code[11] == 0xA9
    && code[12] == 0x08 && code[13] == 0x8D && code[14] == 0x02 && code[15] == 0x02
  }

  /** `code` holds the bytes of the branch test program, one by one. */
  predicate BranchProgramBytes(code: seq<u8>) {
    && |code| == 18
    && code[0] == 0x4C && code[1] == 0x05 && code[2] == 0x06 && code[3] == 0xA2 && code[4] == 0x15 && code[5] == 0xA2
    && code[6] == 0x02 && code[7] == 0xF0 && code[8] == 0x07 && code[9] == 0xCA && code[10] == 0xF0 && code[11] == 0x04
    && code[12] == 0xCA && code[13] == 0xF0 && code[14] == 0xF6 && code[15] == 0xCA && code[16] == 0xA9 && code[17] == 0x10
  }

  /** The plain listing of the simple test program turn by turn. */
  lemma SimpleProgramWalk(table: seq<TableEntry>, code: seq<u8>)
    requires DisassemblyTable(table) && SimpleProgramEntries(table) && SimpleProgramBytes(code)
    ensures Walks(table, code, 0x0600, false, SIMPLE_AT, SIMPLE_LINES)
  {
    forall i | 0 <= i < |SIMPLE_LINES|
      ensures SIMPLE_AT[i] as int < |code|
      ensures Decode(table, code, 0x0600, false, SIMPLE_AT[i]) == Ok(Step(SIMPLE_LINES[i], SIMPLE_AT[i + 1], i == |SIMPLE_LINES| - 1))
    {
      if i == 0 {
        assert SIMPLE_AT[i] == 0 && SIMPLE_AT[i + 1] == 1 && SIMPLE_LINES[i] == "DEX \n";
        SimpleProgramLine0(table, code);
      } else if i == 1 {
        assert SIMPLE_AT[i] == 1 && SIMPLE_AT[i + 1] == 3 && SIMPLE_LINES[i] == "LDA #$01\n";
        SimpleProgramLine1(table, code);
      } else if i == 2 {
        assert SIMPLE_AT[i] == 3 && SIMPLE_AT[i + 1] == 6 && SIMPLE_LINES[i] == "STA $0200\n";
        SimpleProgramLine2(table, code);
      } else if i == 3 {
        assert SIMPLE_AT[i] == 6 && SIMPLE_AT[i + 1] == 8 && SIMPLE_LINES[i] == "LDA #$05\n";
        SimpleProgramLine3(table, code);
      } else if i == 4 {
        assert SIMPLE_AT[i] == 8 && SIMPLE_AT[i + 1] == 11 && SIMPLE_LINES[i] == "STA $0201\n";
        SimpleProgramLine4(table, code);
      } else if i == 5 {
        assert SIMPLE_AT[i] == 11 && SIMPLE_AT[i + 1] == 13 && SIMPLE_LINES[i] == "LDA #$08\n";
        SimpleProgramLine5(table, code);
      } else {
        assert SIMPLE_AT[i] == 13 && SIMPLE_AT[i + 1] == 16 && SIMPLE_LINES[i] == "STA $0202\n";
        SimpleProgramLine6(table, code);
      }
    }
  }

  /** The verbose listing of the simple test program turn by turn. */
  lemma SimpleProgramVerboseWalk(table: seq<TableEntry>, code: seq<u8>)
    requires DisassemblyTable(table) && SimpleProgramEntries(table) && SimpleProgramBytes(code)
    ensures Walks(table, code, 0x0600, true, SIMPLE_AT, SIMPLE_VERBOSE_LINES)
  {
    forall i | 0 <= i < |SIMPLE_VERBOSE_LINES|
      ensures SIMPLE_AT[i] as int < |code|
      ensures Decode(table, code, 0x0600, true, SIMPLE_AT[i]) == Ok(Step(SIMPLE_VERBOSE_LINES[i], SIMPLE_AT[i + 1], i == |SIMPLE_VERBOSE_LINES| - 1))
    {
      if i == 0 {
        assert SIMPLE_AT[i] == 0 && SIMPLE_AT[i + 1] == 1 && SIMPLE_VERBOSE_LINES[i] == "0600: CA         DEX \n";
        SimpleProgramVerboseLine0(table, code);
      } else if i == 1 {
        assert SIMPLE_AT[i] == 1 && SIMPLE_AT[i + 1] == 3 && SIMPLE_VERBOSE_LINES[i] == "0601: A9 01      LDA #$01\n";
        SimpleProgramVerboseLine1(table, code);
      } else if i == 2 {
        assert SIMPLE_AT[i] == 3 && SIMPLE_AT[i + 1] == 6 && SIMPLE_VERBOSE_LINES[i] == "0603: 8D 00 02   STA $0200\n";
        SimpleProgramVerboseLine2(table, code);
      } else if i == 3 {
        assert SIMPLE_AT[i] == 6 && SIMPLE_AT[i + 1] == 8 && SIMPLE_VERBOSE_LINES[i] == "0606: A9 05      LDA #$05\n";
        SimpleProgramVerboseLine3(table, code);
      } else if i == 4 {
        assert SIMPLE_AT[i] == 8 && SIMPLE_AT[i + 1] == 11 && SIMPLE_VERBOSE_LINES[i] == "0608: 8D 01 02   STA $0201\n";
        SimpleProgramVerboseLine4(table, code);
      } else if i == 5 {
        assert SIMPLE_AT[i] == 11 && SIMPLE_AT[i + 1] == 13 && SIMPLE_VERBOSE_LINES[i] == "060B: A9 08      LDA #$08\n";
        SimpleProgramVerboseLine5(table, code);
      } else {
        assert SIMPLE_AT[i] == 13 && SIMPLE_AT[i + 1] == 16 && SIMPLE_VERBOSE_LINES[i] == "060D: 8D 02 02   STA $0202\n";
        SimpleProgramVerboseLine6(table, code);
      }
    }
  }

  /** The plain listing of the branch test program turn by turn. */
  lemma BranchProgramWalk(table: seq<TableEntry>, code: seq<u8>)
    requires DisassemblyTable(table) && BranchProgramEntries(table) && BranchProgramBytes(code)
    ensures Walks(table, code, 0x0600, false, BRANCH_AT, BRANCH_LINES)
  {
    forall i | 0 <= i < |BRANCH_LINES|
      ensures BRANCH_AT[i] as int < |code|
      ensures Decode(table, code, 0x0600, false, BRANCH_AT[i]) == Ok(Step(BRANCH_LINES[i], BRANCH_AT[i + 1], i == |BRANCH_LINES| - 1))
    {
      if i == 0 {
        assert BRANCH_AT[i] == 0 && BRANCH_AT[i + 1] == 3 && BRANCH_LINES[i] == "JMP $0605\n";
        BranchProgramLine0(table, code);
      } else if i == 1 {
        assert BRANCH_AT[i] == 3 && BRANCH_AT[i + 1] == 5 && BRANCH_LINES[i] == "LDX #$15\n";
        BranchProgramLine1(table, code);
      } else if i == 2 {
        assert BRANCH_AT[i] == 5 && BRANCH_AT[i + 1] == 7 && BRANCH_LINES[i] == "LDX #$02\n";
        BranchProgramLine2(table, code);
      } else if i == 3 {
        assert BRANCH_AT[i] == 7 && BRANCH_AT[i + 1] == 9 && BRANCH_LINES[i] == "BEQ $0610\n";
        BranchProgramLine3(table, code);
      } else if i == 4 {
        assert BRANCH_AT[i] == 9 && BRANCH_AT[i + 1] == 10 && BRANCH_LINES[i] == "DEX \n";
        BranchProgramLine4(table, code);
      } else if i == 5 {
        assert BRANCH_AT[i] == 10 && BRANCH_AT[i + 1] == 12 && BRANCH_LINES[i] == "BEQ $0610\n";
        BranchProgramLine5(table, code);
      } else if i == 6 {
        assert BRANCH_AT[i] == 12 && BRANCH_AT[i + 1] == 13 && BRANCH_LINES[i] == "DEX \n";
        BranchProgramLine6(table, code);
      } else if i == 7 {
        assert BRANCH_AT[i] == 13 && BRANCH_AT[i + 1] == 15 && BRANCH_LINES[i] == "BEQ $0605\n";
        BranchProgramLine7(table, code);
      } else if i == 8 {
        assert BRANCH_AT[i] == 15 && BRANCH_AT[i + 1] == 16 && BRANCH_LINES[i] == "DEX \n";
        BranchProgramLine8(table, code);
      } else {
        assert BRANCH_AT[i] == 16 && BRANCH_AT[i + 1] == 18 && BRANCH_LINES[i] == "LDA #$10\n";
        BranchProgramLine9(table, code);
      }
    }
  }

  /** Line 1 of the plain listing of the simple test program, at position 0. */
  lemma SimpleProgramListed0(table: seq<TableEntry>, code: seq<u8>)
    requires DisassemblyTable(table) && table[0xCA] == TableEntry(0xCA, "DEX", 2, Implicit, 1)
    requires |code| == 16 && code[0] == 0xCA
    ensures ListedAs(table, code, 0x0600, false, 0, "DEX \n", 1)
  {
    assert "DEX" + " \n" == "DEX \n";
  }

  /** Line 1 of the plain listing of the simple test program is one turn of the loop. */
  lemma SimpleProgramLine0(table: seq<TableEntry>, code: seq<u8>)
    requires DisassemblyTable(table) && table[0xCA] == TableEntry(0xCA, "DEX", 2, Implicit, 1)
    requires |code| == 16 && code[0] == 0xCA
    ensures Decode(table, code, 0x0600, false, 0) == Ok(Step("DEX \n", 1, false))
  {
    SimpleProgramListed0(table, code);
    ListedTurn(table, code, 0x0600, false, 0, "DEX \n", 1);
  }

  /** Line 2 of the plain listing of the simple test program, at position 1. */
  lemma SimpleProgramListed1(table: seq<TableEntry>, code: seq<u8>)
    requires DisassemblyTable(table) && table[0xA9] == TableEntry(0xA9, "LDA", 2, Immediate, 2)
    requires |code| == 16 && code[1] == 0xA9 && code[2] == 0x01
    ensures ListedAs(table, code, 0x0600, false, 1, "LDA #$01\n", 3)
  {
    assert Hex2(0x01) == "01";
    assert "LDA" + " #$" + "01" + "\n" == "LDA #$01\n";
  }

  /** Line 2 of the plain listing of the simple test program is one turn of the loop. */
  lemma SimpleProgramLine1(table: seq<TableEntry>, code: seq<u8>)
    requires DisassemblyTable(table) && table[0xA9] == TableEntry(0xA9, "LDA", 2, Immediate, 2)
    requires |code| == 16 && code[1] == 0xA9 && code[2] == 0x01
    ensures Decode(table, code, 0x0600, false, 1) == Ok(Step("LDA #$01\n", 3, false))
  {
    SimpleProgramListed1(table, code);
    ListedTurn(table, code, 0x0600, false, 1, "LDA #$01\n", 3);
  }

  /** Line 3 of the plain listing of the simple test program, at position 3. */
  lemma SimpleProgramListed2(table: seq<TableEntry>, code: seq<u8>)
    requires DisassemblyTable(table) && table[0x8D] == TableEntry(0x8D, "STA", 4, Absolute, 3)
    requires |code| == 16 && code[3] == 0x8D && code[4] == 0x00 && code[5] == 0x02
    ensures ListedAs(table, code, 0x0600, false, 3, "STA $0200\n", 6)
  {
    assert Hex2(0x02) == "02" && Hex2(0x00) == "00";
    assert "STA" + " $" + "02" + "00" + "\n" == "STA $0200\n";
  }

  /** Line 3 of the plain listing of the simple test program is one turn of the loop. */
  lemma SimpleProgramLine2(table: seq<TableEntry>, code: seq<u8>)
    requires DisassemblyTable(table) && table[0x8D] == TableEntry(0x8D, "STA", 4, Absolute, 3)
    requires |code| == 16 && code[3] == 0x8D && code[4] == 0x00 && code[5] == 0x02
    ensures Decode(table, code, 0x0600, false, 3) == Ok(Step("STA $0200\n", 6, false))
  {
    SimpleProgramListed2(table, code);
    ListedTurn(table, code, 0x0600, false, 3, "STA $0200\n", 6);
  }

  /** Line 4 of the plain listing of the simple test program, at position 6. */
  lemma SimpleProgramListed3(table: seq<TableEntry>, code: seq<u8>)
    requires DisassemblyTable(table) && table[0xA9] == TableEntry(0xA9, "LDA", 2, Immediate, 2)
    requires |code| == 16 && code[6] == 0xA9 && code[7] == 0x05
    ensures ListedAs(table, code, 0x0600, false, 6, "LDA #$05\n", 8)
  {
    assert Hex2(0x05) == "05";
    assert "LDA" + " #$" + "05" + "\n" == "LDA #$05\n";
  }

  /** Line 4 of the plain listing of the simple test program is one turn of the loop. */
  lemma SimpleProgramLine3(table: seq<TableEntry>, code: seq<u8>)
    requires DisassemblyTable(table) && table[0xA9] == TableEntry(0xA9, "LDA", 2, Immediate, 2)
    requires |code| == 16 && code[6] == 0xA9 && code[7] == 0x05
    ensures Decode(table, code, 0x0600, false, 6) == Ok(Step("LDA #$05\n", 8, false))
  {
    SimpleProgramListed3(table, code);
    ListedTurn(table, code, 0x0600, false, 6, "LDA #$05\n", 8);
  }

  /** Line 5 of the plain listing of the simple test program, at position 8. */
  lemma SimpleProgramListed4(table: seq<TableEntry>, code: seq<u8>)
    requires DisassemblyTable(table) && table[0x8D] == TableEntry(0x8D, "STA", 4, Absolute, 3)
    requires |code| == 16 && code[8] == 0x8D && code[9] == 0x01 && code[10] == 0x02
    ensures ListedAs(table, code, 0x0600, false, 8, "STA $0201\n", 11)
  {
    assert Hex2(0x02) == "02" && Hex2(0x01) == "01";
    assert "STA" + " $" + "02" + "01" + "\n" == "STA $0201\n";
  }

  /** Line 5 of the plain listing of the simple test program is one turn of the loop. */
  lemma SimpleProgramLine4(table: seq<TableEntry>, code: seq<u8>)
    requires DisassemblyTable(table) && table[0x8D] == TableEntry(0x8D, "STA", 4, Absolute, 3)
    requires |code| == 16 && code[8] == 0x8D && code[9] == 0x01 && code[10] == 0x02
    ensures Decode(table, code, 0x0600, false, 8) == Ok(Step("STA $0201\n", 11, false))
  {
    SimpleProgramListed4(table, code);
    ListedTurn(table, code, 0x0600, false, 8, "STA $0201\n", 11);
  }

  /** Line 6 of the plain listing of the simple test program, at position 11. */
  lemma SimpleProgramListed5(table: seq<TableEntry>, code: seq<u8>)
    requires DisassemblyTable(table) && table[0xA9] == TableEntry(0xA9, "LDA", 2, Immediate, 2)
    requires |code| == 16 && code[11] == 0xA9 && code[12] == 0x08
    ensures ListedAs(table, code, 0x0600, false, 11, "LDA #$08\n", 13)
  {
    assert Hex2(0x08) == "08";
    assert "LDA" + " #$" + "08" + "\n" == "LDA #$08\n";
  }

  /** Line 6 of the plain listing of the simple test program is one turn of the loop. */
  lemma SimpleProgramLine5(table: seq<TableEntry>, code: seq<u8>)
    requires DisassemblyTable(table) && table[0xA9] == TableEntry(0xA9, "LDA", 2, Immediate, 2)
    requires |code| == 16 && code[11] == 0xA9 && code[12] == 0x08
    ensures Decode(table, code, 0x0600, false, 11) == Ok(Step("LDA #$08\n", 13, false))
  {
    SimpleProgramListed5(table, code);
    ListedTurn(table, code, 0x0600, false, 11, "LDA #$08\n", 13);
  }

  /** Line 7 of the plain listing of the simple test program, at position 13. */
  lemma SimpleProgramListed6(table: seq<TableEntry>, code: seq<u8>)
    requires DisassemblyTable(table) && table[0x8D] == TableEntry(0x8D, "STA", 4, Absolute, 3)
    requires |code| == 16 && code[13] == 0x8D && code[14] == 0x02 && code[15] == 0x02
    ensures ListedAs(table, code, 0x0600, false, 13, "STA $0202\n", 16)
  {
    assert Hex2(0x02) == "02";
    assert "STA" + " $" + "02" + "02" + "\n" == "STA $0202\n";
  }

  /** Line 7 of the plain listing of the simple test program is one turn of the loop. */
  lemma SimpleProgramLine6(table: seq<TableEntry>, code: seq<u8>)
    requires DisassemblyTable(table) && table[0x8D] == TableEntry(0x8D, "STA", 4, Absolute, 3)
    requires |code| == 16 && code[13] == 0x8D && code[14] == 0x02 && code[15] == 0x02
    ensures Decode(table, code, 0x0600, false, 13) == Ok(Step("STA $0202\n", 16, true))
  {
    SimpleProgramListed6(table, code);
    ListedTurn(table, code, 0x0600, false, 13, "STA $0202\n", 16);
  }

  /** The address and bytes in front of line 1 of the verbose listing of the simple test program. */
  lemma SimpleProgramVerbosePrefix0(table: seq<TableEntry>, code: seq<u8>)
    requires DisassemblyTable(table) && table[0xCA] == TableEntry(0xCA, "DEX", 2, Implicit, 1)
    requires |code| == 16 && code[0] == 0xCA
    ensures VerbosePrefix(table[code[0]], code, 0x0600, 0) == Ok("0600: CA         ")
  {
    assert AddU16(0x0600, 0) == Ok(0x0600);
    assert Hex4(0x0600) == "0600" by {
      assert Hi(0x0600) == 0x06 && Lo(0x0600) == 0x00;
      assert Hex2(0x06) == "06" && Hex2(0x00) == "00";
    }
    assert Hex2(0xCA) == "CA";
    assert LineHead(0x0600, 0xCA) == "0600: CA ";
    assert Spaces(8) == "        ";
    assert "0600: CA " + "        " == "0600: CA         ";
  }

  /** Line 1 of the verbose listing of the simple test program: the plain line behind its address and bytes. */
  lemma SimpleProgramVerboseListed0(table: seq<TableEntry>, code: seq<u8>)
    requires DisassemblyTable(table) && table[0xCA] == TableEntry(0xCA, "DEX", 2, Implicit, 1)
    requires |code| == 16 && code[0] == 0xCA
    ensures ListedAs(table, code, 0x0600, true, 0, "0600: CA         DEX \n", 1)
  {
    SimpleProgramListed0(table, code);
    SimpleProgramVerbosePrefix0(table, code);
    assert "0600: CA         " + "DEX \n" == "0600: CA         DEX \n";
  }

  /** Line 1 of the verbose listing of the simple test program is one turn of the loop. */
  lemma SimpleProgramVerboseLine0(table: seq<TableEntry>, code: seq<u8>)
    requires DisassemblyTable(table) && table[0xCA] == TableEntry(0xCA, "DEX", 2, Implicit, 1)
    requires |code| == 16 && code[0] == 0xCA
    ensures Decode(table, code, 0x0600, true, 0) == Ok(Step("0600: CA         DEX \n", 1, false))
  {
    SimpleProgramVerboseListed0(table, code);
    ListedTurn(table, code, 0x0600, true, 0, "0600: CA         DEX \n", 1);
  }

  /** The address and bytes in front of line 2 of the verbose listing of the simple test program. */
  lemma SimpleProgramVerbosePrefix1(table: seq<TableEntry>, code: seq<u8>)
    requires DisassemblyTable(table) && table[0xA9] == TableEntry(0xA9, "LDA", 2, Immediate, 2)
    requires |code| == 16 && code[1] == 0xA9 && code[2] == 0x01
    ensures VerbosePrefix(table[code[1]], code, 0x0600, 1) == Ok("0601: A9 01      ")
  {
    assert AddU16(0x0600, 1) == Ok(0x0601);
    assert Hex4(0x0601) == "0601" by {
      assert Hi(0x0601) == 0x06 && Lo(0x0601) == 0x01;
      assert Hex2(0x06) == "06" && Hex2(0x01) == "01";
    }
    assert Hex2(0xA9) == "A9";
    assert LineHead(0x0601, 0xA9) == "0601: A9 ";
    assert AddU16(1, 1) == Ok(2);
    assert Hex2(0x01) == "01" && Spaces(6) == "      ";
    assert "0601: A9 " + "01" + "      " == "0601: A9 01      ";
  }

  /** Line 2 of the verbose listing of the simple test program: the plain line behind its address and bytes. */
  lemma SimpleProgramVerboseListed1(table: seq<TableEntry>, code: seq<u8>)
    requires DisassemblyTable(table) && table[0xA9] == TableEntry(0xA9, "LDA", 2, Immediate, 2)
    requires |code| == 16 && code[1] == 0xA9 && code[2] == 0x01
    ensures ListedAs(table, code, 0x0600, true, 1, "0601: A9 01      LDA #$01\n", 3)
  {
    SimpleProgramListed1(table, code);
    SimpleProgramVerbosePrefix1(table, code);
    assert "0601: A9 01      " + "LDA #$01\n" == "0601: A9 01      LDA #$01\n";
  }

  /** Line 2 of the verbose listing of the simple test program is one turn of the loop. */
  lemma SimpleProgramVerboseLine1(table: seq<TableEntry>, code: seq<u8>)
    requires DisassemblyTable(table) && table[0xA9] == TableEntry(0xA9, "LDA", 2, Immediate, 2)
    requires |code| == 16 && code[1] == 0xA9 && code[2] == 0x01
    ensures Decode(table, code, 0x0600, true, 1) == Ok(Step("0601: A9 01      LDA #$01\n", 3, false))
  {
    SimpleProgramVerboseListed1(table, code);
    ListedTurn(table, code, 0x0600, true, 1, "0601: A9 01      LDA #$01\n", 3);
  }

  /** The address and bytes in front of line 3 of the verbose listing of the simple test program. */
  lemma SimpleProgramVerbosePrefix2(table: seq<TableEntry>, code: seq<u8>)
    requires DisassemblyTable(table) && table[0x8D] == TableEntry(0x8D, "STA", 4, Absolute, 3)
    requires |code| == 16 && code[3] == 0x8D && code[4] == 0x00 && code[5] == 0x02
    ensures VerbosePrefix(table[code[3]], code, 0x0600, 3) == Ok("0603: 8D 00 02   ")
  {
    assert AddU16(0x0600, 3) == Ok(0x0603);
    assert Hex4(0x0603) == "0603" by {
      assert Hi(0x0603) == 0x06 && Lo(0x0603) == 0x03;
      assert Hex2(0x06) == "06" && Hex2(0x03) == "03";
    }
    assert Hex2(0x8D) == "8D";
    assert LineHead(0x0603, 0x8D) == "0603: 8D ";
    assert AddU16(3, 1) == Ok(4) && AddU16(3, 2) == Ok(5);
    assert Hex2(0x00) == "00" && Hex2(0x02) == "02" && Spaces(3) == "   ";
    assert "0603: 8D " + "00" + " " + "02" + "   " == "0603: 8D 00 02   ";
  }

  /** Line 3 of the verbose listing of the simple test program: the plain line behind its address and bytes. */
  lemma SimpleProgramVerboseListed2(table: seq<TableEntry>, code: seq<u8>)
    requires DisassemblyTable(table) && table[0x8D] == TableEntry(0x8D, "STA", 4, Absolute, 3)
    requires |code| == 16 && code[3] == 0x8D && code[4] == 0x00 && code[5] == 0x02
    ensures ListedAs(table, code, 0x0600, true, 3, "0603: 8D 00 02   STA $0200\n", 6)
  {
    SimpleProgramListed2(table, code);
    SimpleProgramVerbosePrefix2(table, code);
    assert "0603: 8D 00 02   " + "STA $0200\n" == "0603: 8D 00 02   STA $0200\n";
  }

  /** Line 3 of the verbose listing of the simple test program is one turn of the loop. */
  lemma SimpleProgramVerboseLine2(table: seq<TableEntry>, code: seq<u8>)
    requires DisassemblyTable(table) && table[0x8D] == TableEntry(0x8D, "STA", 4, Absolute, 3)
    requires |code| == 16 && code[3] == 0x8D && code[4] == 0x00 && code[5] == 0x02
    ensures Decode(table, code, 0x0600, true, 3) == Ok(Step("0603: 8D 00 02   STA $0200\n", 6, false))
  {
    SimpleProgramVerboseListed2(table, code);
    ListedTurn(table, code, 0x0600, true, 3, "0603: 8D 00 02   STA $0200\n", 6);
  }

  /** The address and bytes in front of line 4 of the verbose listing of the simple test program. */
  lemma SimpleProgramVerbosePrefix3(table: seq<TableEntry>, code: seq<u8>)
    requires DisassemblyTable(table) && table[0xA9] == TableEntry(0xA9, "LDA", 2, Immediate, 2)
    requires |code| == 16 && code[6] == 0xA9 && code[7] == 0x05
    ensures VerbosePrefix(table[code[6]], code, 0x0600, 6) == Ok("0606: A9 05      ")
  {
    assert AddU16(0x0600, 6) == Ok(0x0606);
    assert Hex4(0x0606) == "0606" by {
      assert Hi(0x0606) == 0x06 && Lo(0x0606) == 0x06;
      assert Hex2(0x06) == "06";
    }
    assert Hex2(0xA9) == "A9";
    assert LineHead(0x0606, 0xA9) == "0606: A9 ";
    assert AddU16(6, 1) == Ok(7);
    assert Hex2(0x05) == "05" && Spaces(6) == "      ";
    assert "0606: A9 " + "05" + "      " == "0606: A9 05      ";
  }

  /** Line 4 of the verbose listing of the simple test program: the plain line behind its address and bytes. */
  lemma SimpleProgramVerboseListed3(table: seq<TableEntry>, code: seq<u8>)
    requires DisassemblyTable(table) && table[0xA9] == TableEntry(0xA9, "LDA", 2, Immediate, 2)
    requires |code| == 16 && code[6] == 0xA9 && code[7] == 0x05
    ensures ListedAs(table, code, 0x0600, true, 6, "0606: A9 05      LDA #$05\n", 8)
  {
    SimpleProgramListed3(table, code);
    SimpleProgramVerbosePrefix3(table, code);
    assert "0606: A9 05      " + "LDA #$05\n" == "0606: A9 05      LDA #$05\n";
  }

  /** Line 4 of the verbose listing of the simple test program is one turn of the loop. */
  lemma SimpleProgramVerboseLine3(table: seq<TableEntry>, code: seq<u8>)
    requires DisassemblyTable(table) && table[0xA9] == TableEntry(0xA9, "LDA", 2, Immediate, 2)
    requires |code| == 16 && code[6] == 0xA9 && code[7] == 0x05
    ensures Decode(table, code, 0x0600, true, 6) == Ok(Step("0606: A9 05      LDA #$05\n", 8, false))
  {
    SimpleProgramVerboseListed3(table, code);
    ListedTurn(table, code, 0x0600, true, 6, "0606: A9 05      LDA #$05\n", 8);
  }

  /** The address and bytes in front of line 5 of the verbose listing of the simple test program. */
  lemma SimpleProgramVerbosePrefix4(table: seq<TableEntry>, code: seq<u8>)
    requires DisassemblyTable(table) && table[0x8D] == TableEntry(0x8D, "STA", 4, Absolute, 3)
    requires |code| == 16 && code[8] == 0x8D && code[9] == 0x01 && code[10] == 0x02
    ensures VerbosePrefix(table[code[8]], code, 0x0600, 8) == Ok("0608: 8D 01 02   ")
  {
    assert AddU16(0x0600, 8) == Ok(0x0608);
    assert Hex4(0x0608) == "0608" by {
      assert Hi(0x0608) == 0x06 && Lo(0x0608) == 0x08;
      assert Hex2(0x06) == "06" && Hex2(0x08) == "08";
    }
    assert Hex2(0x8D) == "8D";
    assert LineHead(0x0608, 0x8D) == "0608: 8D ";
    assert AddU16(8, 1) == Ok(9) && AddU16(8, 2) == Ok(10);
    assert Hex2(0x01) == "01" && Hex2(0x02) == "02" && Spaces(3) == "   ";
    assert "0608: 8D " + "01" + " " + "02" + "   " == "0608: 8D 01 02   ";
  }

  /** Line 5 of the verbose listing of the simple test program: the plain line behind its address and bytes. */
  lemma SimpleProgramVerboseListed4(table: seq<TableEntry>, code: seq<u8>)
    requires DisassemblyTable(table) && table[0x8D] == TableEntry(0x8D, "STA", 4, Absolute, 3)
    requires |code| == 16 && code[8] == 0x8D && code[9] == 0x01 && code[10] == 0x02
    ensures ListedAs(table, code, 0x0600, true, 8, "0608: 8D 01 02   STA $0201\n", 11)
  {
    SimpleProgramListed4(table, code);
    SimpleProgramVerbosePrefix4(table, code);
    assert "0608: 8D 01 02   " + "STA $0201\n" == "0608: 8D 01 02   STA $0201\n";
  }

  /** Line 5 of the verbose listing of the simple test program is one turn of the loop. */
  lemma SimpleProgramVerboseLine4(table: seq<TableEntry>, code: seq<u8>)
    requires DisassemblyTable(table) && table[0x8D] == TableEntry(0x8D, "STA", 4, Absolute, 3)
    requires |code| == 16 && code[8] == 0x8D && code[9] == 0x01 && code[10] == 0x02
    ensures Decode(table, code, 0x0600, true, 8) == Ok(Step("0608: 8D 01 02   STA $0201\n", 11, false))
  {
    SimpleProgramVerboseListed4(table, code);
    ListedTurn(table, code, 0x0600, true, 8, "0608: 8D 01 02   STA $0201\n", 11);
  }

  /** The address and bytes in front of line 6 of the verbose listing of the simple test program. */
  lemma SimpleProgramVerbosePrefix5(table: seq<TableEntry>, code: seq<u8>)
    requires DisassemblyTable(table) && table[0xA9] == TableEntry(0xA9, "LDA", 2, Immediate, 2)
    requires |code| == 16 && code[11] == 0xA9 && code[12] == 0x08
    ensures VerbosePrefix(table[code[11]], code, 0x0600, 11) == Ok("060B: A9 08      ")
  {
    assert AddU16(0x0600, 11) == Ok(0x060B);
    assert Hex4(0x060B) == "060B" by {
      assert Hi(0x060B) == 0x06 && Lo(0x060B) == 0x0B;
      assert Hex2(0x06) == "06" && Hex2(0x0B) == "0B";
    }
    assert Hex2(0xA9) == "A9";
    assert LineHead(0x060B, 0xA9) == "060B: A9 ";
    assert AddU16(11, 1) == Ok(12);
    assert Hex2(0x08) == "08" && Spaces(6) == "      ";
    assert "060B: A9 " + "08" + "      " == "060B: A9 08      ";
  }

  /** Line 6 of the verbose listing of the simple test program: the plain line behind its address and bytes. */
  lemma SimpleProgramVerboseListed5(table: seq<TableEntry>, code: seq<u8>)
    requires DisassemblyTable(table) && table[0xA9] == TableEntry(0xA9, "LDA", 2, Immediate, 2)
    requires |code| == 16 && code[11] == 0xA9 && code[12] == 0x08
    ensures ListedAs(table, code, 0x0600, true, 11, "060B: A9 08      LDA #$08\n", 13)
  {
    SimpleProgramListed5(table, code);
    SimpleProgramVerbosePrefix5(table, code);
    assert "060B: A9 08      " + "LDA #$08\n" == "060B: A9 08      LDA #$08\n";
  }

  /** Line 6 of the verbose listing of the simple test program is one turn of the loop. */
  lemma SimpleProgramVerboseLine5(table: seq<TableEntry>, code: seq<u8>)
    requires DisassemblyTable(table) && table[0xA9] == TableEntry(0xA9, "LDA", 2, Immediate, 2)
    requires |code| == 16 && code[11] == 0xA9 && code[12] == 0x08
    ensures Decode(table, code, 0x0600, true, 11) == Ok(Step("060B: A9 08      LDA #$08\n", 13, false))
  {
    SimpleProgramVerboseListed5(table, code);
    ListedTurn(table, code, 0x0600, true, 11, "060B: A9 08      LDA #$08\n", 13);
  }

  /** The address and bytes in front of line 7 of the verbose listing of the simple test program. */
  lemma SimpleProgramVerbosePrefix6(table: seq<TableEntry>, code: seq<u8>)
    requires DisassemblyTable(table) && table[0x8D] == TableEntry(0x8D, "STA", 4, Absolute, 3)
    requires |code| == 16 && code[13] == 0x8D && code[14] == 0x02 && code[15] == 0x02
    ensures VerbosePrefix(table[code[13]], code, 0x0600, 13) == Ok("060D: 8D 02 02   ")
  {
    assert AddU16(0x0600, 13) == Ok(0x060D);
    assert Hex4(0x060D) == "060D" by {
      assert Hi(0x060D) == 0x06 && Lo(0x060D) == 0x0D;
      assert Hex2(0x06) == "06" && Hex2(0x0D) == "0D";
    }
    assert Hex2(0x8D) == "8D";
    assert LineHead(0x060D, 0x8D) == "060D: 8D ";
    assert AddU16(13, 1) == Ok(14) && AddU16(13, 2) == Ok(15);
    assert Hex2(0x02) == "02" && Spaces(3) == "   ";
    assert "060D: 8D " + "02" + " " + "02" + "   " == "060D: 8D 02 02   ";
  }

  /** Line 7 of the verbose listing of the simple test program: the plain line behind its address and bytes. */
  lemma SimpleProgramVerboseListed6(table: seq<TableEntry>, code: seq<u8>)
    requires DisassemblyTable(table) && table[0x8D] == TableEntry(0x8D, "STA", 4, Absolute, 3)
    requires |code| == 16 && code[13] == 0x8D && code[14] == 0x02 && code[15] == 0x02
    ensures ListedAs(table, code, 0x0600, true, 13, "060D: 8D 02 02   STA $0202\n", 16)
  {
    SimpleProgramListed6(table, code);
    SimpleProgramVerbosePrefix6(table, code);
    assert "060D: 8D 02 02   " + "STA $0202\n" == "060D: 8D 02 02   STA $0202\n";
  }

  /** Line 7 of the verbose listing of the simple test program is one turn of the loop. */
  lemma SimpleProgramVerboseLine6(table: seq<TableEntry>, code: seq<u8>)
    requires DisassemblyTable(table) && table[0x8D] == TableEntry(0x8D, "STA", 4, Absolute, 3)
    requires |code| == 16 && code[13] == 0x8D && code[14] == 0x02 && code[15] == 0x02
    ensures Decode(table, code, 0x0600, true, 13) == Ok(Step("060D: 8D 02 02   STA $0202\n", 16, true))
  {
    SimpleProgramVerboseListed6(table, code);
    ListedTurn(table, code, 0x0600, true, 13, "060D: 8D 02 02   STA $0202\n", 16);
  }

  /** Line 1 of the plain listing of the branch test program, at position 0. */
  lemma BranchProgramListed0(table: seq<TableEntry>, code: seq<u8>)
    requires DisassemblyTable(table) && table[0x4C] == TableEntry(0x4C, "JMP", 3, Absolute, 3)
    requires |code| == 18 && code[0] == 0x4C && code[1] == 0x05 && code[2] == 0x06
    ensures ListedAs(table, code, 0x0600, false, 0, "JMP $0605\n", 3)
  {
    assert Hex2(0x06) == "06" && Hex2(0x05) == "05";
    assert "JMP" + " $" + "06" + "05" + "\n" == "JMP $0605\n";
  }

  /** Line 1 of the plain listing of the branch test program is one turn of the loop. */
  lemma BranchProgramLine0(table: seq<TableEntry>, code: seq<u8>)
    requires DisassemblyTable(table) && table[0x4C] == TableEntry(0x4C, "JMP", 3, Absolute, 3)
    requires |code| == 18 && code[0] == 0x4C && code[1] == 0x05 && code[2] == 0x06
    ensures Decode(table, code, 0x0600, false, 0) == Ok(Step("JMP $0605\n", 3, false))
  {
    BranchProgramListed0(table, code);
    ListedTurn(table, code, 0x0600, false, 0, "JMP $0605\n", 3);
  }

  /** Line 2 of the plain listing of the branch test program, at position 3. */
  lemma BranchProgramListed1(table: seq<TableEntry>, code: seq<u8>)
    requires DisassemblyTable(table) && table[0xA2] == TableEntry(0xA2, "LDX", 2, Immediate, 2)
    requires |code| == 18 && code[3] == 0xA2 && code[4] == 0x15
    ensures ListedAs(table, code, 0x0600, false, 3, "LDX #$15\n", 5)
  {
    assert Hex2(0x15) == "15";
    assert "LDX" + " #$" + "15" + "\n" == "LDX #$15\n";
  }

  /** Line 2 of the plain listing of the branch test program is one turn of the loop. */
  lemma BranchProgramLine1(table: seq<TableEntry>, code: seq<u8>)
    requires DisassemblyTable(table) && table[0xA2] == TableEntry(0xA2, "LDX", 2, Immediate, 2)
    requires |code| == 18 && code[3] == 0xA2 && code[4] == 0x15
    ensures Decode(table, code, 0x0600, false, 3) == Ok(Step("LDX #$15\n", 5, false))
  {
    BranchProgramListed1(table, code);
    ListedTurn(table, code, 0x0600, false, 3, "LDX #$15\n", 5);
  }

  /** Line 3 of the plain listing of the branch test program, at position 5. */
  lemma BranchProgramListed2(table: seq<TableEntry>, code: seq<u8>)
    requires DisassemblyTable(table) && table[0xA2] == TableEntry(0xA2, "LDX", 2, Immediate, 2)
    requires |code| == 18 && code[5] == 0xA2 && code[6] == 0x02
    ensures ListedAs(table, code, 0x0600, false, 5, "LDX #$02\n", 7)
  {
    assert Hex2(0x02) == "02";
    assert "LDX" + " #$" + "02" + "\n" == "LDX #$02\n";
  }

  /** Line 3 of the plain listing of the branch test program is one turn of the loop. */
  lemma BranchProgramLine2(table: seq<TableEntry>, code: seq<u8>)
    requires DisassemblyTable(table) && table[0xA2] == TableEntry(0xA2, "LDX", 2, Immediate, 2)
    requires |code| == 18 && code[5] == 0xA2 && code[6] == 0x02
    ensures Decode(table, code, 0x0600, false, 5) == Ok(Step("LDX #$02\n", 7, false))
  {
    BranchProgramListed2(table, code);
    ListedTurn(table, code, 0x0600, false, 5, "LDX #$02\n", 7);
  }

  /** Line 4 of the plain listing of the branch test program, at position 7. */
  lemma BranchProgramListed3(table: seq<TableEntry>, code: seq<u8>)
    requires DisassemblyTable(table) && table[0xF0] == TableEntry(0xF0, "BEQ", 2, Relative, 2)
    requires |code| == 18 && code[7] == 0xF0 && code[8] == 0x07
    ensures ListedAs(table, code, 0x0600, false, 7, "BEQ $0610\n", 9)
  {
    assert RelativeTarget(0x0600, 7, 2, 0x07) == 0x0610;
    assert Hex4(0x0610) == "0610" by {
      assert Hi(0x0610) == 0x06 && Lo(0x0610) == 0x10;
      assert Hex2(0x06) == "06" && Hex2(0x10) == "10";
    }
    assert "BEQ" + " $" + "0610" + "\n" == "BEQ $0610\n";
  }

  /** Line 4 of the plain listing of the branch test program is one turn of the loop. */
  lemma BranchProgramLine3(table: seq<TableEntry>, code: seq<u8>)
    requires DisassemblyTable(table) && table[0xF0] == TableEntry(0xF0, "BEQ", 2, Relative, 2)
    requires |code| == 18 && code[7] == 0xF0 && code[8] == 0x07
    ensures Decode(table, code, 0x0600, false, 7) == Ok(Step("BEQ $0610\n", 9, false))
  {
    BranchProgramListed3(table, code);
    ListedTurn(table, code, 0x0600, false, 7, "BEQ $0610\n", 9);
  }

  /** Line 5 of the plain listing of the branch test program, at position 9. */
  lemma BranchProgramListed4(table: seq<TableEntry>, code: seq<u8>)
    requires DisassemblyTable(table) && table[0xCA] == TableEntry(0xCA, "DEX", 2, Implicit, 1)
    requires |code| == 18 && code[9] == 0xCA
    ensures ListedAs(table, code, 0x0600, false, 9, "DEX \n", 10)
  {
    assert "DEX" + " \n" == "DEX \n";
  }

  /** Line 5 of the plain listing of the branch test program is one turn of the loop. */
  lemma BranchProgramLine4(table: seq<TableEntry>, code: seq<u8>)
    requires DisassemblyTable(table) && table[0xCA] == TableEntry(0xCA, "DEX", 2, Implicit, 1)
    requires |code| == 18 && code[9] == 0xCA
    ensures Decode(table, code, 0x0600, false, 9) == Ok(Step("DEX \n", 10, false))
  {
    BranchProgramListed4(table, code);
    ListedTurn(table, code, 0x0600, false, 9, "DEX \n", 10);
  }

  /** Line 6 of the plain listing of the branch test program, at position 10. */
  lemma BranchProgramListed5(table: seq<TableEntry>, code: seq<u8>)
    requires DisassemblyTable(table) && table[0xF0] == TableEntry(0xF0, "BEQ", 2, Relative, 2)
    requires |code| == 18 && code[10] == 0xF0 && code[11] == 0x04
    ensures ListedAs(table, code, 0x0600, false, 10, "BEQ $0610\n", 12)
  {
    assert RelativeTarget(0x0600, 10, 2, 0x04) == 0x0610;
    assert Hex4(0x0610) == "0610" by {
      assert Hi(0x0610) == 0x06 && Lo(0x0610) == 0x10;
      assert Hex2(0x06) == "06" && Hex2(0x10) == "10";
    }
    assert "BEQ" + " $" + "0610" + "\n" == "BEQ $0610\n";
  }

  /** Line 6 of the plain listing of the branch test program is one turn of the loop. */
  lemma BranchProgramLine5(table: seq<TableEntry>, code: seq<u8>)
    requires DisassemblyTable(table) && table[0xF0] == TableEntry(0xF0, "BEQ", 2, Relative, 2)
    requires |code| == 18 && code[10] == 0xF0 && code[11] == 0x04
    ensures Decode(table, code, 0x0600, false, 10) == Ok(Step("BEQ $0610\n", 12, false))
  {
    BranchProgramListed5(table, code);
    ListedTurn(table, code, 0x0600, false, 10, "BEQ $0610\n", 12);
  }

  /** Line 7 of the plain listing of the branch test program, at position 12. */
  lemma BranchProgramListed6(table: seq<TableEntry>, code: seq<u8>)
    requires DisassemblyTable(table) && table[0xCA] == TableEntry(0xCA, "DEX", 2, Implicit, 1)
    requires |code| == 18 && code[12] == 0xCA
    ensures ListedAs(table, code, 0x0600, false, 12, "DEX \n", 13)
  {
    assert "DEX" + " \n" == "DEX \n";
  }

  /** Line 7 of the plain listing of the branch test program is one turn of the loop. */
  lemma BranchProgramLine6(table: seq<TableEntry>, code: seq<u8>)
    requires DisassemblyTable(table) && table[0xCA] == TableEntry(0xCA, "DEX", 2, Implicit, 1)
    requires |code| == 18 && code[12] == 0xCA
    ensures Decode(table, code, 0x0600, false, 12) == Ok(Step("DEX \n", 13, false))
  {
    BranchProgramListed6(table, code);
    ListedTurn(table, code, 0x0600, false, 12, "DEX \n", 13);
  }

  /** Line 8 of the plain listing of the branch test program, at position 13. */
  lemma BranchProgramListed7(table: seq<TableEntry>, code: seq<u8>)
    requires DisassemblyTable(table) && table[0xF0] == TableEntry(0xF0, "BEQ", 2, Relative, 2)
    requires |code| == 18 && code[13] == 0xF0 && code[14] == 0xF6
    ensures ListedAs(table, code, 0x0600, false, 13, "BEQ $0605\n", 15)
  {
    assert RelativeTarget(0x0600, 13, 2, 0xF6) == 0x0605;
    assert Hex4(0x0605) == "0605" by {
      assert Hi(0x0605) == 0x06 && Lo(0x0605) == 0x05;
      assert Hex2(0x06) == "06" && Hex2(0x05) == "05";
    }
    assert "BEQ" + " $" + "0605" + "\n" == "BEQ $0605\n";
  }

  /** Line 8 of the plain listing of the branch test program is one turn of the loop. */
  lemma BranchProgramLine7(table: seq<TableEntry>, code: seq<u8>)
    requires DisassemblyTable(table) && table[0xF0] == TableEntry(0xF0, "BEQ", 2, Relative, 2)
    requires |code| == 18 && code[13] == 0xF0 && code[14] == 0xF6
    ensures Decode(table, code, 0x0600, false, 13) == Ok(Step("BEQ $0605\n", 15, false))
  {
    BranchProgramListed7(table, code);
    ListedTurn(table, code, 0x0600, false, 13, "BEQ $0605\n", 15);
  }

  /** Line 9 of the plain listing of the branch test program, at position 15. */
  lemma BranchProgramListed8(table: seq<TableEntry>, code: seq<u8>)
    requires DisassemblyTable(table) && table[0xCA] == TableEntry(0xCA, "DEX", 2, Implicit, 1)
    requires |code| == 18 && code[15] == 0xCA
    ensures ListedAs(table, code, 0x0600, false, 15, "DEX \n", 16)
  {
    assert "DEX" + " \n" == "DEX \n";
  }

  /** Line 9 of the plain listing of the branch test program is one turn of the loop. */
  lemma BranchProgramLine8(table: seq<TableEntry>, code: seq<u8>)
    requires DisassemblyTable(table) && table[0xCA] == TableEntry(0xCA, "DEX", 2, Implicit, 1)
    requires |code| == 18 && code[15] == 0xCA
    ensures Decode(table, code, 0x0600, false, 15) == Ok(Step("DEX \n", 16, false))
  {
    BranchProgramListed8(table, code);
    ListedTurn(table, code, 0x0600, false, 15, "DEX \n", 16);
  }

  /** Line 10 of the plain listing of the branch test program, at position 16. */
  lemma BranchProgramListed9(table: seq<TableEntry>, code: seq<u8>)
    requires DisassemblyTable(table) && table[0xA9] == TableEntry(0xA9, "LDA", 2, Immediate, 2)
    requires |code| == 18 && code[16] == 0xA9 && code[17] == 0x10
    ensures ListedAs(table, code, 0x0600, false, 16, "LDA #$10\n", 18)
  {
    assert Hex2(0x10) == "10";
    assert "LDA" + " #$" + "10" + "\n" == "LDA #$10\n";
  }

  /** Line 10 of the plain listing of the branch test program is one turn of the loop. */
  lemma BranchProgramLine9(table: seq<TableEntry>, code: seq<u8>)
    requires DisassemblyTable(table) && table[0xA9] == TableEntry(0xA9, "LDA", 2, Immediate, 2)
    requires |code| == 18 && code[16] == 0xA9 && code[17] == 0x10
    ensures Decode(table, code, 0x0600, false, 16) == Ok(Step("LDA #$10\n", 18, true))
  {
    BranchProgramListed9(table, code);
    ListedTurn(table, code, 0x0600, false, 16, "LDA #$10\n", 18);
  }

}
