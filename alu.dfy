/**
 * The arithmetic of the instruction handlers, as pure functions of the
 * operand byte and the status register. Each function computes what its
 * handler computes, in the handler's own steps (the same `u16` sums, masks
 * and flag writes in the same order); the lemmas after it say what that
 * computation means in terms of numbers, signs and carries.
 */
module Alu {
  import opened Machine
  import opened Flags

  /** A result byte and the status register that goes with it. */
  datatype Outcome = Outcome(value: u8, flags: Status)

  /** The carry flag as the number `adc`, `sbc` and `rol`/`ror` feed in. */
  function CarryIn(flags: Status): (c: u8)
    ensures c <= 1 && (c == 1 <==> flags.carry)
  {
    if flags.carry then 1 else 0
  }

  /** The signed range of a byte. */
  predicate InSignedRange(n: int) { -128 <= n < 128 }

  /** Bit 7 of a bit-vector byte is set exactly when its value is at least 0x80. */
  lemma HighBitOfBits(v: bv8)
    ensures v as int >= 0x80 <==> v & 0x80 != 0
  {}

  lemma Bit7Xor(a: u8, b: u8)
    ensures Bit7(Xor8(a, b)) <==> Bit7(a) != Bit7(b)
  {
    HighBitOfBits(ToBits(a));
    HighBitOfBits(ToBits(b));
    HighBitOfBits(ToBits(a) ^ ToBits(b));
  }

  lemma Bit7And(a: u8, b: u8)
    ensures Bit7(And8(a, b)) <==> Bit7(a) && Bit7(b)
  {
    HighBitOfBits(ToBits(a));
    HighBitOfBits(ToBits(b));
    HighBitOfBits(ToBits(a) & ToBits(b));
  }

  /**
   * `adc`: the 16-bit sum A + M + C, its low byte, then Carry, Zero,
   * Negative and Overflow written in that order.
   */
  function AddWithCarry(a: u8, m: u8, flags: Status): Outcome {
    var tmp := a as int + m as int + CarryIn(flags) as int;
    var result := (tmp % 0x100) as u8;
    Outcome(result, PutArithmetic(flags, tmp > 0xFF, result == 0, Bit7(result),
                                  Bit7(And8(Xor8(a, result), Xor8(m, result)))))
  }

  /**
   * The sign test `adc` uses for overflow — the result's sign differs from
   * the signs of both addends — holds exactly when the signed sum leaves the
   * signed range.
   */
  lemma {:induction false} AddOverflowBySigns(a: u8, m: u8, c: u8)
    requires c <= 1
    ensures var result := ((a as int + m as int + c as int) % 0x100) as u8;
            (Bit7(a) != Bit7(result) && Bit7(m) != Bit7(result))
              <==> !InSignedRange(Signed(a) + Signed(m) + c as int)
  {
    var sum := a as int + m as int + c as int;
    if sum >= 0x100 {
      assert (sum % 0x100) == sum - 0x100;
    } else {
      assert (sum % 0x100) == sum;
    }
  }

  /**
   * ADC: A becomes (A + M + C) mod 256; Carry is set exactly when the
   * unsigned sum passes 0xFF, Overflow exactly when the signed sum leaves
   * -128..127, Zero and Negative follow the result, and the other four flags
   * are kept.
   */
  lemma AddWithCarrySpec(a: u8, m: u8, flags: Status)
    ensures var r := AddWithCarry(a, m, flags);
            var sum := a as int + m as int + CarryIn(flags) as int;
            && r.value as int == sum % 0x100
            && r.flags == flags.(carry := sum > 0xFF, zero := r.value == 0, negative := Bit7(r.value),
                                 overflow := !InSignedRange(Signed(a) + Signed(m) + CarryIn(flags) as int))
  {
    AddOverflowFlag(a, m, CarryIn(flags));
  }

  /** The overflow bit `adc` computes with `^` and `&` is the signed-range test. */
  lemma AddOverflowFlag(a: u8, m: u8, c: u8)
    requires c <= 1
    ensures var result := ((a as int + m as int + c as int) % 0x100) as u8;
            (Bit7(And8(Xor8(a, result), Xor8(m, result))))
              <==> !InSignedRange(Signed(a) + Signed(m) + c as int)
  {
    var result := ((a as int + m as int + c as int) % 0x100) as u8;
    Bit7And(Xor8(a, result), Xor8(m, result));
    Bit7Xor(a, result);
    Bit7Xor(m, result);
    AddOverflowBySigns(a, m, c);
  }

  /** 0x83 + 0x83: two negative bytes whose sum wraps to the positive 0x06, so Carry and Overflow. */
  lemma AddWithCarryNegativeOverflow(flags: Status)
    requires !flags.carry
    ensures var r := AddWithCarry(0x83, 0x83, flags);
            r.value == 0x06 && r.flags.overflow && r.flags.carry && !r.flags.zero && !r.flags.negative
  {
    AddWithCarrySpec(0x83, 0x83, flags);
    assert CarryIn(flags) == 0 && Signed(0x83) == -0x7D;
  }

  /** 0x7F + 0x01: the largest positive byte plus one is 0x80, Overflow and Negative without Carry. */
  lemma AddWithCarryPositiveOverflow(flags: Status)
    requires !flags.carry
    ensures var r := AddWithCarry(0x7F, 0x01, flags);
            r.value == 0x80 && r.flags.overflow && !r.flags.carry && !r.flags.zero && r.flags.negative
  {
    AddWithCarrySpec(0x7F, 0x01, flags);
    assert CarryIn(flags) == 0 && Signed(0x7F) == 0x7F && Signed(0x01) == 1;
  }

  /**
   * `sbc`: two `overflowing_sub`s, A - M and then minus the borrow 1 - C;
   * Carry is set when neither wrapped, Overflow when A and M differ in sign
   * and the result's sign differs from A's.
   */
  function SubtractWithBorrow(a: u8, m: u8, flags: Status): Outcome {
    var borrow: u8 := 1 - CarryIn(flags);
    var data1 := WrapSub8(a, m);
    var carry1 := a < m;
    var result := WrapSub8(data1, borrow);
    var carry2 := data1 < borrow;
    Outcome(result, PutArithmetic(flags, !(carry1 || carry2), result == 0, Bit7(result),
                                  Bit7(Xor8(a, m)) && Bit7(Xor8(a, result))))
  }

  /** The sign test `sbc` uses for overflow, in terms of the signed difference. */
  lemma {:induction false} SubOverflowBySigns(a: u8, m: u8, b: u8)
    requires b <= 1
    ensures var result := ((a as int - m as int - b as int) % 0x100) as u8;
            (Bit7(a) != Bit7(m) && Bit7(a) != Bit7(result))
              <==> !InSignedRange(Signed(a) - Signed(m) - b as int)
  {
    var diff := a as int - m as int - b as int;
    if diff < 0 {
      assert (diff % 0x100) == diff + 0x100;
    } else {
      assert (diff % 0x100) == diff;
    }
  }

  /** The result byte and the carry of the two wrapping subtractions of `sbc`. */
  lemma SubtractConditions(a: u8, m: u8, borrow: u8)
    requires borrow <= 1
    ensures var data1 := WrapSub8(a, m);
            var result := WrapSub8(data1, borrow);
            && result as int == (a as int - m as int - borrow as int) % 0x100
            && (!(a < m || data1 < borrow) <==> a as int >= m as int + borrow as int)
  {}

  /**
   * SBC: A becomes (A - M - (1 - C)) mod 256; Carry is set exactly when
   * nothing was borrowed (A >= M + 1 - C), Overflow exactly when the signed
   * difference leaves -128..127, Zero and Negative follow the result.
   */
  lemma SubtractWithBorrowSpec(a: u8, m: u8, flags: Status)
    ensures var r := SubtractWithBorrow(a, m, flags);
            var borrow := 1 - CarryIn(flags) as int;
            && r.value as int == (a as int - m as int - borrow) % 0x100
            && r.flags == flags.(carry := a as int >= m as int + borrow, zero := r.value == 0,
                                 negative := Bit7(r.value),
                                 overflow := !InSignedRange(Signed(a) - Signed(m) - borrow))
  {
    var borrow: u8 := 1 - CarryIn(flags);
    SubtractConditions(a, m, borrow);
    SubOverflowFlag(a, m, borrow);
  }

  /** The overflow bit `sbc` computes with `^` is the signed-range test. */
  lemma SubOverflowFlag(a: u8, m: u8, borrow: u8)
    requires borrow <= 1
    ensures var result := WrapSub8(WrapSub8(a, m), borrow);
            (Bit7(Xor8(a, m)) && Bit7(Xor8(a, result)))
              <==> !InSignedRange(Signed(a) - Signed(m) - borrow as int)
  {
    var result := WrapSub8(WrapSub8(a, m), borrow);
    SubtractConditions(a, m, borrow);
    Bit7Xor(a, m);
    Bit7Xor(a, result);
    SubOverflowBySigns(a, m, borrow);
  }

  /** The SBC vectors of the handler's tests. */
  lemma SubtractWithBorrowExamples(flags: Status)
    ensures var r := SubtractWithBorrow(12, 10, flags.(carry := true));
            r.value == 2 && r.flags.carry && !r.flags.zero && !r.flags.negative
    ensures var r := SubtractWithBorrow(10, 10, flags.(carry := false));
            r.value == 0xFF && !r.flags.carry && r.flags.negative && !r.flags.zero
    ensures var r := SubtractWithBorrow(3, 0x82, flags.(carry := false));
            r.value == 0x80 && r.flags.overflow && r.flags.negative
  {
    SubtractWithBorrowSpec(12, 10, flags.(carry := true));
    SubtractWithBorrowSpec(10, 10, flags.(carry := false));
    SubtractWithBorrowSpec(3, 0x82, flags.(carry := false));
  }

  /**
   * Subtracting with borrow is adding the one's complement of the operand
   * with the same carry: result byte and all four flags agree.
   */
  lemma SubtractIsAddOfComplement(a: u8, m: u8, flags: Status)
    ensures SubtractWithBorrow(a, m, flags) == AddWithCarry(a, 0xFF - m, flags)
  {
    var s := SubtractWithBorrow(a, m, flags);
    var t := AddWithCarry(a, 0xFF - m, flags);
    SubtractWithBorrowSpec(a, m, flags);
    AddWithCarrySpec(a, 0xFF - m, flags);
    var c := CarryIn(flags) as int;
    var d := a as int - m as int - (1 - c);
    assert a as int + (0xFF - m) as int + c == d + 0x100;
    assert s.value == t.value by {
      assert (d + 0x100) % 0x100 == d % 0x100;
    }
    assert Signed(0xFF - m) == -1 - Signed(m);
    assert s.flags == t.flags;
  }

  /**
   * The comparison of CPX and CPY: Carry when R >= M, Zero when R == M,
   * Negative from bit 7 of the wrapping difference R - M.
   */
  function Compare(reg: u8, m: u8, flags: Status): Status {
    var result := WrapSub8(reg, m);
    PutCarryZeroNegative(flags, reg >= m, reg == m, Bit7(result))
  }

  /**
   * A compare writes only Carry, Zero and Negative. Zero and Carry order the
   * two bytes, and Negative is the sign of the difference taken modulo 256.
   */
  lemma CompareSpec(reg: u8, m: u8, flags: Status)
    ensures var r := Compare(reg, m, flags);
            && r == flags.(carry := r.carry, zero := r.zero, negative := r.negative)
            && (r.carry <==> reg >= m) && (r.zero <==> reg == m)
            && (r.negative <==> (reg as int - m as int) % 0x100 >= 0x80)
            && (reg > m ==> r.carry && !r.zero)
  {}

  /** The CPX/CPY vectors: X = 0 against 0x10 raises N only; 0x20 against 0x10 clears N and Z. */
  lemma CompareExamples(flags: Status)
    ensures var r := Compare(0x00, 0x10, flags); r.negative && !r.carry && !r.zero
    ensures var r := Compare(0x20, 0x10, flags.(negative := true, zero := true));
            !r.negative && r.carry && !r.zero
    ensures var r := Compare(0x0C, 0x0C, flags); r.carry && r.zero && !r.negative
  {}

  /**
   * CMP as written: Zero, then Carry, then Negative from the unchecked
   * difference `a - m`, which aborts on overflow when A < M.
   */
  function CompareAsWritten(a: u8, m: u8, flags: Status): (r: Result<Status>)
    ensures r.Ok? <==> m <= a
    ensures r.Err? ==> r.fault == ArithmeticOverflow
  {
    var f := Put(Put(flags, Zero, a == m), Carry, a >= m);
    var diff :- SubU8(a, m);
    Ok(Put(f, Negative, Bit7(diff)))
  }

  /** Where CMP as written does not abort it agrees with the wrapping comparison of CPX and CPY. */
  lemma CompareAsWrittenAgrees(a: u8, m: u8, flags: Status)
    requires m <= a
    ensures CompareAsWritten(a, m, flags) == Ok(Compare(a, m, flags))
  {}

  /** A = 0x05, M = 0x85: an ordinary comparison (A < M) that CMP as written aborts on. */
  lemma CompareAsWrittenAbortsBelow(flags: Status)
    ensures CompareAsWritten(0x05, 0x85, flags).Err?
    ensures var r := Compare(0x05, 0x85, flags); !r.carry && !r.zero && r.negative
  {}

  /** BIT: Zero from A & M, then Overflow from `M & 0x40`, then Negative from `M & 0x80`. */
  function BitTest(a: u8, m: u8, flags: Status): Status {
    Put(Put(Put(flags, Zero, And8(a, m) == 0), Overflow, And8(m, 0x40) == 0x40), Negative, And8(m, 0x80) == 0x80)
  }

  /**
   * BIT copies bits 6 and 7 of M into Overflow and Negative — the flags that
   * M itself would set if it were loaded into the status register — and sets
   * Zero exactly when A and M have no bit in common.
   */
  lemma BitTestSpec(a: u8, m: u8, flags: Status)
    ensures var r := BitTest(a, m, flags);
            r == flags.(zero := And8(a, m) == 0, overflow := Unpack(m).overflow, negative := Unpack(m).negative)
  {}

  /** The BIT vectors of the handler's tests. */
  lemma BitTestExamples(flags: Status)
    ensures var r := BitTest(0x00, 0x40, flags); r.overflow && r.zero && !r.negative
    ensures var r := BitTest(0x01, 0x81, flags); r.negative && !r.zero && !r.overflow
  {
    BitTestSpec(0x00, 0x40, flags);
    BitTestSpec(0x01, 0x81, flags);
  }

  /** ASL: `(M as u16) << 1`, stored as its low byte; Carry from `M & 0x80`, Negative from bit 7 of the sum. */
  function ShiftLeft(m: u8, flags: Status): Outcome {
    var result := 2 * m as int;
    var low := (result % 0x100) as u8;
    Outcome(low, PutCarryZeroNegative(flags, Bit7(m), low == 0, (result / 0x80) % 2 == 1))
  }

  /** ASL loses no bit: the bit shifted out is the new Carry, and Negative is the new bit 7. */
  lemma ShiftLeftSpec(m: u8, flags: Status)
    ensures var r := ShiftLeft(m, flags);
            && r.value as int + 0x100 * CarryIn(r.flags) as int == 2 * m as int
            && r.flags == flags.(carry := Bit7(m), zero := r.value == 0, negative := Bit7(r.value))
  {}

  /** LSR: `M >> 1`, Carry from `M & 1`. */
  function ShiftRight(m: u8, flags: Status): Outcome {
    var result := m / 2;
    Outcome(result, PutCarryZeroNegative(flags, Bit0(m), result == 0, Bit7(result)))
  }

  /**
   * LSR loses no bit: twice the result plus the new Carry is M. The result
   * is at most 0x7F, so Negative always ends clear.
   */
  lemma ShiftRightSpec(m: u8, flags: Status)
    ensures var r := ShiftRight(m, flags);
            && 2 * r.value as int + CarryIn(r.flags) as int == m as int
            && r.flags == flags.(carry := Bit0(m), zero := m <= 1, negative := false)
  {}

  /** ROL: `(M << 1) | (flags & 1)`, Carry from `M & 0x80`. */
  function RotateLeft(m: u8, flags: Status): Outcome {
    var result := Or8(((2 * m as int) % 0x100) as u8, CarryIn(flags));
    Outcome(result, PutCarryZeroNegative(flags, Bit7(m), result == 0, Bit7(result)))
  }

  /** Two bytes with no bit in common: their `|` is their sum. */
  lemma OrDisjointBits(x: bv8, y: bv8)
    requires x & y == 0
    ensures x | y == x + y && x as int + y as int < 0x100
  {}

  /** `x | c` with x even and c at most 1 is the sum x + c. */
  lemma OrLowBit(x: u8, c: u8)
    requires x % 2 == 0 && c <= 1
    ensures Or8(x, c) as int == x as int + c as int
  {
    var vx, vc := ToBits(x), ToBits(c);
    assert vx & vc == 0 by {
      assert vx % 2 == 0;
      assert vc <= 1;
    }
    OrDisjointBits(vx, vc);
  }

  /** ROL moves the old Carry into bit 0 and bit 7 into Carry; no bit is lost. */
  lemma RotateLeftSpec(m: u8, flags: Status)
    ensures var r := RotateLeft(m, flags);
            && r.value as int + 0x100 * CarryIn(r.flags) as int == 2 * m as int + CarryIn(flags) as int
            && r.flags == flags.(carry := Bit7(m), zero := r.value == 0, negative := Bit7(r.value))
  {
    var shifted := ((2 * m as int) % 0x100) as u8;
    OrLowBit(shifted, CarryIn(flags));
    assert 2 * m as int == shifted as int + (if Bit7(m) then 0x100 else 0);
  }

  /** ROR: `((flags & 1) << 7) | (M >> 1)`, Carry from `M & 1`. */
  function RotateRight(m: u8, flags: Status): Outcome {
    var result := Or8(0x80 * CarryIn(flags), m / 2);
    Outcome(result, PutCarryZeroNegative(flags, Bit0(m), result == 0, Bit7(result)))
  }

  /** `h | x` with h either 0 or 0x80 and x at most 0x7F is the sum h + x. */
  lemma OrHighBit(h: u8, x: u8)
    requires (h == 0 || h == 0x80) && x < 0x80
    ensures Or8(h, x) as int == h as int + x as int
  {
    var vh, vx := ToBits(h), ToBits(x);
    assert vh & vx == 0 by {
      assert vx < 0x80;
      assert vh == 0 || vh == 0x80;
    }
    OrDisjointBits(vh, vx);
  }

  /** ROR moves the old Carry into bit 7 and bit 0 into Carry; Negative is the old Carry. */
  lemma RotateRightSpec(m: u8, flags: Status)
    ensures var r := RotateRight(m, flags);
            && 2 * r.value as int + CarryIn(r.flags) as int == m as int + 0x100 * CarryIn(flags) as int
            && r.flags == flags.(carry := Bit0(m), zero := r.value == 0, negative := flags.carry)
  {
    var high := 0x80 * CarryIn(flags);
    OrHighBit(high, m / 2);
    var r := RotateRight(m, flags);
    assert r.value as int == high as int + (m / 2) as int;
    assert r.flags == flags.(carry := Bit0(m), zero := r.value == 0, negative := Bit7(r.value));
  }

  /** The shift vectors of the handlers' tests. */
  lemma ShiftExamples(flags: Status)
    ensures var r := ShiftLeft(0x81, flags); r.value == 0x02 && r.flags.carry
    ensures var r := ShiftLeft(0x41, flags); r.value == 0x82 && r.flags.negative && !r.flags.carry
    ensures var r := ShiftRight(0x09, flags); r.value == 0x04 && r.flags.carry
  {
    ShiftLeftSpec(0x81, flags);
    ShiftLeftSpec(0x41, flags);
    ShiftRightSpec(0x09, flags);
  }

  /** The rotate vectors of the handlers' tests. */
  lemma RotateExamples(flags: Status)
    ensures var r := RotateLeft(0x81, flags.(carry := false)); r.value == 0x02 && r.flags.carry
    ensures var r := RotateLeft(0x40, flags.(carry := false)); r.value == 0x80 && r.flags.negative
    ensures var r := RotateRight(0x81, flags.(carry := false)); r.value == 0x40 && r.flags.carry
    ensures var r := RotateRight(0x80, flags.(carry := true));
            r.value == 0xC0 && r.flags.negative && !r.flags.carry
  {
    RotateLeftSpec(0x81, flags.(carry := false));
    RotateLeftSpec(0x40, flags.(carry := false));
    RotateRightSpec(0x81, flags.(carry := false));
    RotateRightSpec(0x80, flags.(carry := true));
  }

  /** Rotating left and then right through the carry restores the byte and the carry. */
  lemma RotateRoundTrip(m: u8, flags: Status)
    ensures var l := RotateLeft(m, flags);
            var back := RotateRight(l.value, l.flags);
            back.value == m && back.flags.carry == flags.carry
  {
    var l := RotateLeft(m, flags);
    RotateLeftSpec(m, flags);
    RotateRightSpec(l.value, l.flags);
  }

  /** INC: `overflowing_add(1)`, with Zero and Negative from the result. */
  function Increment(m: u8, flags: Status): Outcome {
    var result := WrapAdd8(m, 1);
    Outcome(result, ZeroNegative(flags, result))
  }

  /** DEC, DEX, DEY: `overflowing_sub(1)`, with Zero and Negative from the result. */
  function Decrement(m: u8, flags: Status): Outcome {
    var result := WrapSub8(m, 1);
    Outcome(result, ZeroNegative(flags, result))
  }

  /**
   * INC and DEC step by one modulo 256 and touch only Zero and Negative;
   * INC gives zero only from 0xFF and DEC only from 1.
   */
  lemma IncrementDecrementSpec(m: u8, flags: Status)
    ensures var i := Increment(m, flags);
            && i.value as int == (m as int + 1) % 0x100
            && i.flags == flags.(zero := m == 0xFF, negative := Bit7(i.value))
    ensures var d := Decrement(m, flags);
            && d.value as int == (m as int - 1) % 0x100
            && d.flags == flags.(zero := m == 1, negative := Bit7(d.value))
  {
    StepByOne(m);
  }

  /** The three cases of a wrapping step: from 0xFF up, from 0 down, and everything else. */
  lemma StepByOne(m: u8)
    ensures m == 0xFF ==> WrapAdd8(m, 1) == 0
    ensures m != 0xFF ==> WrapAdd8(m, 1) as int == m as int + 1
    ensures m == 0 ==> WrapSub8(m, 1) == 0xFF
    ensures m != 0 ==> WrapSub8(m, 1) as int == m as int - 1
  {
    if m == 0xFF {
      assert (m as int + 1) % 0x100 == 0;
    } else if m == 0 {
      assert (m as int - 1) % 0x100 == 0xFF;
    }
  }

  /** INC and DEC undo each other, across the 0x00/0xFF wrap too. */
  lemma IncrementDecrementInverse(m: u8, flags: Status)
    ensures Increment(Decrement(m, flags).value, flags).value == m
    ensures Decrement(Increment(m, flags).value, flags).value == m
  {
    StepByOne(m);
    StepByOne(WrapSub8(m, 1));
    StepByOne(WrapAdd8(m, 1));
  }

  /** The INC/DEC vectors of the handlers' tests. */
  lemma IncrementDecrementExamples(flags: Status)
    ensures var r := Increment(0xFF, flags); r.value == 0 && r.flags.zero && !r.flags.negative
    ensures var r := Increment(0x7F, flags); r.value == 0x80 && r.flags.negative && !r.flags.zero
    ensures var r := Decrement(0x00, flags); r.value == 0xFF && r.flags.negative && !r.flags.zero
    ensures var r := Decrement(0x01, flags.(zero := false)); r.value == 0 && r.flags.zero
  {}

  /**
   * PLA's flag update: Zero is raised when the byte is 0 and Negative when
   * its bit 7 is set, but neither is ever lowered.
   */
  function RaiseZeroNegative(flags: Status, v: u8): Status {
    var f := if v == 0 then Put(flags, Zero, true) else flags;
    if Bit7(v) then Put(f, Negative, true) else f
  }

  /** PLA raises Zero and Negative from the byte and keeps whatever they were before. */
  lemma RaiseZeroNegativeSpec(flags: Status, v: u8)
    ensures RaiseZeroNegative(flags, v) == flags.(zero := flags.zero || v == 0, negative := flags.negative || Bit7(v))
    ensures flags.zero && flags.negative ==> RaiseZeroNegative(flags, v) == flags
  {}

  /**
   * BEQ's target: `pc - |offset|` for a negative offset and `pc + offset`
   * otherwise, both checked; `i8::abs` of -128 itself overflows.
   */
  function CheckedBranchTarget(pc: u16, offset: u8): (r: Result<u16>)
    ensures r.Ok? <==> offset != 0x80 && 0 <= pc as int + Signed(offset) <= 0xFFFF
    ensures r.Ok? ==> r.value as int == pc as int + Signed(offset)
    ensures r.Err? ==> r.fault == ArithmeticOverflow
  {
    if Signed(offset) < 0 then
      if offset == 0x80 then Err(ArithmeticOverflow)
      else SubU16(pc, (-Signed(offset)) as u16)
    else
      AddU16(pc, offset as u16)
  }

  /** BCS's target: `pc.overflowing_add(sign-extended offset)`. */
  function WrappingBranchTarget(pc: u16, offset: u8): (t: u16)
    ensures t as int == (pc as int + Signed(offset)) % 0x1_0000
  {
    WrapAdd16(pc, SignExtend(offset))
  }

  /** Where BEQ's checked target exists it is BCS's wrapping target. */
  lemma BranchTargetsAgree(pc: u16, offset: u8)
    requires CheckedBranchTarget(pc, offset).Ok?
    ensures CheckedBranchTarget(pc, offset).value == WrappingBranchTarget(pc, offset)
  {}

  /** A taken branch costs one extra cycle, or two when the target is on another page. */
  function BranchCycles(pc: u16, target: u16): (n: u8)
    ensures n == 1 || n == 2
    ensures n == 2 <==> Hi(pc) != Hi(target)
  {
    if pc / 0x100 != target / 0x100 then 2 else 1
  }
}
