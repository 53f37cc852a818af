/**
 * The 6502 status register. The emulator keeps it as one byte, bit 0 (Carry)
 * to bit 7 (Negative), and changes it with `1 << flag` masks. The model keeps
 * the eight bits as a record, `Status`; `Pack` and `Unpack` convert between
 * the record and the byte, and the lemmas at the end relate the record to
 * the byte's mask tests.
 */
module Flags {
  import opened Machine

  datatype Flag = Carry | Zero | DisableInterrupt | Decimal | Break | Unused | Overflow | Negative

  /** `1 << f` for the flag's bit position. */
  function Mask(f: Flag): bv8 {
    match f
    case Carry => 0x01
    case Zero => 0x02
    case DisableInterrupt => 0x04
    case Decimal => 0x08
    case Break => 0x10
    case Unused => 0x20
    case Overflow => 0x40
    case Negative => 0x80
  }

  /** The eight bits of the status register, bit 0 first. */
  datatype Status = Status(carry: bool, zero: bool, interrupt: bool, decimal: bool,
                           brk: bool, unused: bool, overflow: bool, negative: bool)

  /** `is_flag_set` */
  predicate IsSet(s: Status, f: Flag) {
    match f
    case Carry => s.carry
    case Zero => s.zero
    case DisableInterrupt => s.interrupt
    case Decimal => s.decimal
    case Break => s.brk
    case Unused => s.unused
    case Overflow => s.overflow
    case Negative => s.negative
  }

  /** `set_flag` when `on`, `clear_flag` otherwise: the chosen bit becomes `on`. */
  function Put(s: Status, f: Flag, on: bool): Status {
    match f
    case Carry => s.(carry := on)
    case Zero => s.(zero := on)
    case DisableInterrupt => s.(interrupt := on)
    case Decimal => s.(decimal := on)
    case Break => s.(brk := on)
    case Unused => s.(unused := on)
    case Overflow => s.(overflow := on)
    case Negative => s.(negative := on)
  }

  /** After `Put` the chosen flag reads back as written and every other flag as before. */
  lemma PutReadsBack(s: Status, f: Flag, on: bool)
    ensures IsSet(Put(s, f, on), f) == on
    ensures forall g: Flag :: g != f ==> IsSet(Put(s, f, on), g) == IsSet(s, g)
  {
    forall g: Flag | g != f
      ensures IsSet(Put(s, f, on), g) == IsSet(s, g)
    {
      match f {
        case Carry => {}
        case Zero => {}
        case DisableInterrupt => {}
        case Decimal => {}
        case Break => {}
        case Unused => {}
        case Overflow => {}
        case Negative => {}
      }
    }
  }

  /** Writing a flag its current value changes nothing (SED twice, CLC twice). */
  lemma PutIdempotent(s: Status, f: Flag, on: bool)
    ensures Put(Put(s, f, on), f, on) == Put(s, f, on)
    ensures IsSet(s, f) == on ==> Put(s, f, on) == s
  {}

  /** Of two writes of the same flag only the later one is seen (CLC, then SEC). */
  lemma PutOverwrites(s: Status, f: Flag, first: bool, second: bool)
    ensures Put(Put(s, f, first), f, second) == Put(s, f, second)
  {}

  /** The common tail of the load and arithmetic handlers: Zero and Negative written from `v`. */
  function ZeroNegative(s: Status, v: u8): (r: Status)
    ensures r == s.(zero := v == 0, negative := Bit7(v))
  {
    Put(Put(s, Zero, v == 0), Negative, Bit7(v))
  }

  /** Carry, Zero and Negative written in that order, as the shift, rotate and compare handlers do. */
  function PutCarryZeroNegative(s: Status, c: bool, z: bool, n: bool): (r: Status)
    ensures r == s.(carry := c, zero := z, negative := n)
  {
    Put(Put(Put(s, Carry, c), Zero, z), Negative, n)
  }

  /** Carry, Zero, Negative and Overflow written in that order, as `adc` and `sbc` do. */
  function PutArithmetic(s: Status, c: bool, z: bool, n: bool, v: bool): (r: Status)
    ensures r == s.(carry := c, zero := z, negative := n, overflow := v)
  {
    Put(Put(Put(Put(s, Carry, c), Zero, z), Negative, n), Overflow, v)
  }

  /** The register's byte as a bit-vector: each set flag contributes its mask. */
  function Bits(s: Status): bv8 {
    (if s.carry then 0x01 else 0) | (if s.zero then 0x02 else 0)
    | (if s.interrupt then 0x04 else 0) | (if s.decimal then 0x08 else 0)
    | (if s.brk then 0x10 else 0) | (if s.unused then 0x20 else 0)
    | (if s.overflow then 0x40 else 0) | (if s.negative then 0x80 else 0)
  }

  /** The status register as the byte `php`, `brk` and `nmi` push. */
  function Pack(s: Status): u8 {
    Bits(s) as u8
  }

  /** A byte read back into the status register (`plp`, `rti`, the power-on value). */
  function Unpack(b: u8): Status {
    UnpackBits(ToBits(b))
  }

  /** Each flag read from its mask bit. */
  function UnpackBits(v: bv8): Status {
    Status(v & 0x01 != 0, v & 0x02 != 0, v & 0x04 != 0, v & 0x08 != 0,
           v & 0x10 != 0, v & 0x20 != 0, v & 0x40 != 0, v & 0x80 != 0)
  }

  /** Pushing the flags and pulling them back restores them exactly. */
  lemma UnpackPack(s: Status)
    ensures Unpack(Pack(s)) == s
  {
    BitsByteRoundTrip(Bits(s));
  }

  /** Loading any byte into the status register and pushing it gives the byte back. */
  lemma PackUnpack(b: u8)
    ensures Pack(Unpack(b)) == b
  {
    BitsUnpackBits(ToBits(b));
  }

  /** The byte is the sum of its eight mask bits. */
  lemma BitsUnpackBits(v: bv8)
    ensures Bits(UnpackBits(v)) == v
  {}

  /** `is_flag_set`: a flag is set exactly when its mask bit of the byte is. */
  lemma IsSetIsMaskTest(s: Status, f: Flag)
    ensures IsSet(s, f) <==> Bits(s) & Mask(f) == Mask(f)
  {}
}
