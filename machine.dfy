/**
 * Machine words of the 6502 emulator and the ways an operation can stop short.
 *
 * Bytes are `u8` and addresses `u16`, the ranges of Rust's `u8` and `u16`.
 * Rust's plain `+`/`-` on these types abort on overflow in a debug build, while
 * `overflowing_*`/`wrapping_*` wrap; the checked operations below model the
 * former as an explicit `Err(ArithmeticOverflow)`, and the wrapping ones
 * reduce modulo 2^8 or 2^16.
 */
module Machine {

  newtype u8 = x: int | 0 <= x < 0x100
  newtype u16 = x: int | 0 <= x < 0x1_0000

  /** Every `panic!`, `unreachable!`, failed `expect` or debug overflow abort. */
  datatype Fault =
    | StackOverflow           // stack_push with sp == 0
    | StackUnderflow          // stack_pull with sp == 0xFF
    | InvalidOpcode           // the `invalid` handler
    | UnknownOpcode           // the match decoder has no arm for the byte
    | UnsupportedMode         // an addressing mode the resolver or a handler rejects
    | ArithmeticOverflow      // a checked u8/u16/i8 operation left its range
    | OutOfBounds             // an index or slice outside its buffer
    | LengthMismatch          // `copy_from_slice` between slices of different lengths
    | BadMagic                // iNES header: bytes 0..4 are not "NES\x1A"
    | NoPrgRom                // iNES header: PRG-ROM size 0
    | NoChrRom                // iNES header: CHR-ROM size 0
    | UnsupportedVersion      // iNES header: NES 2.0 format
    | EmptyProgram            // disassembler given no bytes

  datatype Result<T> = Ok(value: T) | Err(fault: Fault) {
    predicate IsFailure() { Err? }
    function PropagateFailure<U>(): Result<U>
      requires Err?
    { Err(fault) }
    function Extract(): T
      requires Ok?
    { value }
  }

  /** `w & 0xFF` and `w >> 8`: the low and the high byte of a word. */
  function Lo(w: u16): u8 { (w % 0x100) as u8 }
  function Hi(w: u16): u8 { (w / 0x100) as u8 }

  /** `(hi as u16) << 8 | lo as u16`: the little-endian word of two bytes. */
  function Word(lo: u8, hi: u8): (w: u16)
    ensures Lo(w) == lo && Hi(w) == hi
  {
    hi as u16 * 0x100 + lo as u16
  }

  /** A word is its two bytes put back together. */
  lemma WordOfParts(w: u16)
    ensures Word(Lo(w), Hi(w)) == w
  {}

  /** Bit 7 of a byte: its sign in two's complement. */
  predicate Bit7(v: u8) { v >= 0x80 }

  /** Bit 0 of a byte. */
  predicate Bit0(v: u8) { v % 2 == 1 }

  /** A byte read as a two's-complement number (`b as i8`). */
  function Signed(b: u8): (n: int)
    ensures -128 <= n < 128
    ensures n < 0 <==> Bit7(b)
    ensures n % 0x100 == b as int
  {
    if b < 0x80 then b as int else b as int - 0x100
  }

  /** `b as i8 as u16`: the byte sign-extended to 16 bits. */
  function SignExtend(b: u8): (w: u16)
    ensures Lo(w) == b
    ensures Hi(w) == if Bit7(b) then 0xFF else 0x00
    ensures w as int == Signed(b) % 0x1_0000
  {
    if Bit7(b) then 0xFF00 + b as u16 else b as u16
  }

  /** `wrapping_add` / `overflowing_add(..).0` on u8, and the same for u16. */
  function WrapAdd8(a: u8, b: u8): u8 { ((a as int + b as int) % 0x100) as u8 }
  function WrapSub8(a: u8, b: u8): u8 { ((a as int - b as int) % 0x100) as u8 }
  function WrapAdd16(a: u16, b: u16): u16 { ((a as int + b as int) % 0x1_0000) as u16 }

  /** Rust's checked `a + b` on u16: the exact sum when it fits in 16 bits. */
  function AddU16(a: u16, b: u16): (r: Result<u16>)
    ensures r.Ok? <==> a as int + b as int <= 0xFFFF
    ensures r.Ok? ==> r.value as int == a as int + b as int
    ensures r.Err? ==> r.fault == ArithmeticOverflow
  {
    if a as int + b as int > 0xFFFF then Err(ArithmeticOverflow) else Ok(a + b)
  }

  /** Rust's checked `a - b` on u16: fails exactly when the difference would be negative. */
  function SubU16(a: u16, b: u16): (r: Result<u16>)
    ensures r.Ok? <==> b <= a
    ensures r.Ok? ==> r.value as int == a as int - b as int
    ensures r.Err? ==> r.fault == ArithmeticOverflow
  {
    if a < b then Err(ArithmeticOverflow) else Ok(a - b)
  }

  /** Rust's checked `a + b` on u8: the exact sum when it fits in 8 bits. */
  function AddU8(a: u8, b: u8): (r: Result<u8>)
    ensures r.Ok? <==> a as int + b as int <= 0xFF
    ensures r.Ok? ==> r.value as int == a as int + b as int
    ensures r.Err? ==> r.fault == ArithmeticOverflow
  {
    if a as int + b as int > 0xFF then Err(ArithmeticOverflow) else Ok(a + b)
  }

  /** Rust's checked `a - b` on u8: the exact difference when it is not negative. */
  function SubU8(a: u8, b: u8): (r: Result<u8>)
    ensures r.Ok? <==> b <= a
    ensures r.Ok? ==> r.value as int == a as int - b as int
    ensures r.Err? ==> r.fault == ArithmeticOverflow
  {
    if a < b then Err(ArithmeticOverflow) else Ok(a - b)
  }

  /** `v` is the bit pattern of the number `n`. */
  predicate IsBitsOf(v: bv8, n: int) {
    v as int == n
  }

  /** Every number a byte can hold has a bit pattern (counting up from 0). */
  lemma {:induction false} BitsExist(n: int)
    requires 0 <= n < 0x100
    ensures exists v: bv8 :: IsBitsOf(v, n)
    decreases n
  {
    if n == 0 {
      assert IsBitsOf(0, 0);
    } else {
      BitsExist(n - 1);
      var w: bv8 :| IsBitsOf(w, n - 1);
      assert IsBitsOf(w + 1, n);
    }
  }

  /**
   * A byte viewed as its eight bits, for the bitwise operators. It is
   * characterised only by its numeric value, so that proofs about the
   * operators reason from bits to numbers and never back.
   */
  function ToBits(x: u8): (v: bv8)
    ensures v as int == x as int
  {
    BitsExist(x as int);
    var v: bv8 :| IsBitsOf(v, x as int); v
  }

  /** A bit-vector byte read as a number and viewed as bits again is unchanged. */
  lemma BitsByteRoundTrip(v: bv8)
    ensures ToBits(v as u8) == v
  {}

  /** Bitwise `&`, `|` and `^` on bytes. */
  function And8(a: u8, b: u8): u8 {
    (ToBits(a) & ToBits(b)) as u8
  }

  function Or8(a: u8, b: u8): u8 {
    (ToBits(a) | ToBits(b)) as u8
  }

  function Xor8(a: u8, b: u8): u8 {
    (ToBits(a) ^ ToBits(b)) as u8
  }
}
