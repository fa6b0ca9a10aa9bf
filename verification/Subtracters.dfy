/** The decimal subtractions of the 65C02 and the 65816 against the digit by digit arithmetic of
    Isa.  Two of them disagree with it on some operands; both times the exact operands are given. */
module Subtracters {
  import opened Words
  import opened Isa
  import opened MosArithmetic
  import opened Adders

  // ---- 65C02 --------------------------------------------------------------------------------------

  /** The correction of the low digit borrows from the high one when the difference is this small. */
  predicate Overcorrects(a: Byte, value: Byte, carry: bool) {
    a % 16 - value % 16 - Bit(!carry) < -10
  }

  /** The difference of two bytes in terms of their digits. */
  lemma Digits(a: Byte, value: Byte, carry: bool)
    ensures var lo := SubDigits(a % 16, value % 16, !carry);
            var l := a % 16 - value % 16 - Bit(!carry);
            var h := a / 16 - value / 16 - Bit(lo.1);
            a - value - Bit(!carry) == 16 * h + l + 16 * Bit(lo.1) && lo.1 == (l < 0)
            && -16 <= h < 16 && -16 <= l < 16
            && (a - value - Bit(!carry) < 0 <==> h < 0)
  {
  }

  /** Six is taken off a difference; h counts the sixteens and l the ones. */
  lemma Corrected(h: int, l: int, borrowLow: bool, borrow: bool)
    requires -16 <= h < 16 && -16 <= l < 16 && borrowLow == (l < 0) && borrow == (h < 0)
    ensures var r := Low(16 * h + l + 16 * Bit(borrowLow) - 0x60 * Bit(borrow) - 6 * Bit(borrowLow));
            var digit := if borrow then (h - 6) % 16 else h;
            var low := if borrowLow then (l - 6) % 16 else l;
            r == 16 * digit + low <==> l >= -10
  {
    var digit := if borrow then (h - 6) % 16 else h;
    assert 16 * h - 0x60 * Bit(borrow) == 16 * digit || 16 * h - 0x60 * Bit(borrow) == 16 * digit - 0x100
        || 16 * h - 0x60 * Bit(borrow) == 16 * digit - 0x200;
    if borrowLow {
      if l >= -10 {
        assert (l - 6) % 16 == l + 10;
      } else {
        assert (l - 6) % 16 == l + 26;
      }
    }
  }

  lemma TruncLow(x: int)
    ensures Low(Trunc(x)) == Low(x)
    ensures -0x100 <= x < 0x100 ==> (Trunc(x) > 0xff <==> x < 0)
  {
  }

  lemma DigitsOf(a: Byte, value: Byte, carry: bool)
    ensures var lo := SubDigits(a % 16, value % 16, !carry);
            var l := a % 16 - value % 16 - Bit(!carry);
            var h := a / 16 - value / 16 - Bit(lo.1);
            SubPacked(a, value, !carry) == (16 * (if h < 0 then (h - 6) % 16 else h) + (if l < 0 then (l - 6) % 16 else l), h < 0)
  {
  }

  /** A binary difference with a six taken off for each digit that borrows. */
  function CorrectedDifference(a: Byte, value: Byte, carry: bool): Byte {
    var d := a - value - Bit(!carry);
    var l := a % 16 - value % 16 - Bit(!carry);
    Low(d - 0x60 * Bit(d < 0) - 6 * Bit(l < 0))
  }

  /** The 65C02 and the 6510 disagree on $00 - $0F: taking six off -15 borrows a second time. */
  lemma Disagree65C02()
    ensures CorrectedDifference(0x00, 0x0f, true) == 0x8b && Subtracted(0x00, 0x0f, true, true).a == 0x9b
  {
  }

  /** That is the packed decimal difference exactly where the low digit does not borrow twice. */
  lemma CorrectedRight(a: Byte, value: Byte, carry: bool)
    ensures CorrectedDifference(a, value, carry) == SubPacked(a, value, !carry).0 <==> !Overcorrects(a, value, carry)
  {
    hide Low, SubDigits, SubPacked;
    var l := a % 16 - value % 16 - Bit(!carry);
    var h := a / 16 - value / 16 - Bit(l < 0);
    Digits(a, value, carry);
    DigitsOf(a, value, carry);
    Corrected(h, l, l < 0, h < 0);
  }

  /** The code takes them off one after the other, in 16-bit unsigned arithmetic. */
  method Sbc65C02Decimal(a: Byte, value: Byte, carry: bool) returns (tmp: Word)
    ensures Low(tmp) == CorrectedDifference(a, value, carry)
  {
    hide Trunc, Low;
    ghost var d := a - value - Bit(!carry);
    ghost var l := a % 16 - value % 16 - Bit(!carry);
    TruncLow(d);
    TruncLow(l);
    tmp := Trunc(a - value + Bit(carry) - 1);
    assert a - value + Bit(carry) - 1 == d && a % 16 - value % 16 + Bit(carry) - 1 == l;
    ghost var now := d;
    if tmp > 0xff {
      TruncAdd(now, -0x60);
      now := now - 0x60;
      assert tmp - 0x60 == tmp + -0x60;
      tmp := Trunc(tmp - 0x60);
    }
    var tmp2 := Trunc(a % 16 - value % 16 + Bit(carry) - 1);
    if tmp2 > 0xff {
      TruncAdd(now, -6);
      now := now - 6;
      assert tmp - 6 == tmp + -6;
      tmp := Trunc(tmp - 6);
    }
    TruncLow(now);
  }

  /** Agreement on every operand in binary mode, and in decimal mode exactly where the correction of
      the low digit does not borrow; for packed decimal operands it never does. */
  method Sbc65C02(a: Byte, value: Byte, carry: bool, decimal: bool) returns (r: Sum)
    ensures r == Cmos(Subtracted(a, value, carry, decimal)) <==> !(decimal && Overcorrects(a, value, carry))
    ensures r.c == Subtracted(a, value, carry, decimal).c && r.v == Subtracted(a, value, carry, decimal).v
    ensures r == Cmos(r)
    ensures decimal ==> r.a == CorrectedDifference(a, value, carry)
  {
    hide SubPacked, CorrectedDifference;
    CorrectedRight(a, value, carry);
    var tmp := Trunc(a - value + Bit(carry) - 1);
    var v := Negative(a) != Negative(Low(tmp)) && Negative(a) != Negative(value);
    if decimal {
      tmp := Sbc65C02Decimal(a, value, carry);
    }
    r := Sum(Low(tmp), Negative(Low(tmp)), v, Low(tmp) == 0, a + Bit(carry) - 1 >= value);
  }

  // ---- 65816 --------------------------------------------------------------------------------------

  /** The digit of a difference, computed with the complement of the subtrahend; `rest` is what the
      digits below leave. */
  lemma HighDifference(t: int, h: int, rest: int)
    requires t == 0x100 + 16 * h + rest && -16 <= h < 16 && 0 <= rest < 16
    ensures t < 0x100 <==> h < 0
    ensures Upper((if t < 0x100 then t - 0x60 else t) % 0x100) == 16 * (if h < 0 then (h - 6) % 16 else h)
  {
    var u := if t < 0x100 then t - 0x60 else t;
    var digit := if h < 0 then (h - 6) % 16 else h;
    assert u % 0x100 == 16 * digit + rest;
  }

  lemma LowDifference(t: int, l: int)
    requires t == 0x10 + l && -16 <= l < 16
    ensures t < 0x10 <==> l < 0
    ensures (if t < 0x10 then t - 6 else t) % 16 == if l < 0 then (l - 6) % 16 else l
  {
  }

  method SbcLowDigits(a: Byte, value: Byte, carry: bool) returns (tmp: Byte, carryOut: bool)
    ensures (tmp, !carryOut) == SubPacked(a, value, !carry)
  {
    hide SubPacked, SubDigits, Upper;
    ghost var lo := SubDigits(a % 16, value % 16, !carry);
    Digits(a, value, carry);
    DigitsOf(a, value, carry);
    var tmp2 := a % 16 + (0xf - value % 16) + Bit(carry);
    LowDifference(tmp2, a % 16 - value % 16 - Bit(!carry));
    tmp := (if tmp2 < 0x10 then tmp2 - 6 else tmp2) % 16;
    tmp2 := a + (0xff - value) + Bit(carry);
    HighDifference(tmp2, a / 16 - value / 16 - Bit(lo.1), a % 16 - value % 16 - Bit(!carry) + 16 * Bit(lo.1));
    tmp := tmp + Upper((if tmp2 < 0x100 then tmp2 - 0x60 else tmp2) % 0x100);
    carryOut := tmp2 > 0xff;
  }

  lemma SubPackedBorrow(a: Byte, value: Byte, borrow: bool)
    ensures SubPacked(a, value, borrow).1 <==> a - value - Bit(borrow) < 0
  {
  }

  /** SBC with an 8-bit accumulator. */
  method Sbc65816Byte(a: Byte, value: Byte, carry: bool, decimal: bool) returns (r: Sum)
    ensures r == Cmos(Subtracted(a, value, carry, decimal))
  {
    hide SubPacked;
    var tmp := Bit(carry) + (0xff - value) + a;
    var v := Negative(a) != Negative(value) && Negative(a) != Negative(Low(tmp));
    var res, c := Low(tmp), tmp > 0xff;
    if decimal {
      SubPackedBorrow(a, value, !carry);
      res, c := SbcLowDigits(a, value, carry);
    }
    r := Sum(res, Negative(res), v, res == 0, c);
  }

  /** Byte by byte, the low one first. */
  function BytesSubtracted(c: Word, value: Word, carry: bool, decimal: bool): (Word, bool) {
    var lo := Subtracted(Low(c), Low(value), carry, decimal);
    var hi := Subtracted(High(c), High(value), lo.c, decimal);
    (Join(lo.a, hi.a), hi.c)
  }

  ghost predicate IsDifference(c: Word, value: Word, carry: bool, decimal: bool, r: (Word, bool)) {
    forall d {:trigger BytesSubtracted(d, value, carry, decimal)} :: d == c ==> r == BytesSubtracted(d, value, carry, decimal)
  }

  /** The same, folded: what it is made of is looked into only where a proof says so. */
  ghost function SubtractedWord(c: Word, value: Word, carry: bool, decimal: bool): (r: (Word, bool))
    ensures IsDifference(c, value, carry, decimal, r)
  {
    assert IsDifference(c, value, carry, decimal, BytesSubtracted(c, value, carry, decimal));
    var r :| IsDifference(c, value, carry, decimal, r);
    r
  }

  lemma SubtractedWordIs(c: Word, value: Word, carry: bool, decimal: bool)
    ensures SubtractedWord(c, value, carry, decimal) == BytesSubtracted(c, value, carry, decimal)
  {
    hide BytesSubtracted;
    assert IsDifference(c, value, carry, decimal, SubtractedWord(c, value, carry, decimal));
  }

  /** The third digit: t counts 4096 more than the difference of the low twelve bits. */
  lemma ThirdDifference(t: int, h: int, rest: int)
    requires t == 0x1000 + 0x100 * h + rest && -16 <= h < 16 && 0 <= rest < 0x100
    ensures t < 0x1000 <==> h < 0
    ensures (if t < 0x1000 then t - 0x600 else t) % 0x1000 / 0x100 == if h < 0 then (h - 6) % 16 else h
  {
    var u := if t < 0x1000 then t - 0x600 else t;
    var digit := if h < 0 then (h - 6) % 16 else h;
    assert u % 0x1000 == 0x100 * digit + rest;
  }

  lemma FourthDifference(t: int, h: int, rest: int)
    requires t == 0x1_0000 + 0x1000 * h + rest && -16 <= h < 16 && 0 <= rest < 0x1000
    ensures t < 0x1_0000 <==> h < 0
    ensures (if t < 0x1_0000 then t - 0x6000 else t) % 0x1_0000 / 0x1000 == if h < 0 then (h - 6) % 16 else h
  {
    var u := if t < 0x1_0000 then t - 0x6000 else t;
    var digit := if h < 0 then (h - 6) % 16 else h;
    assert u % 0x1_0000 == 0x1000 * digit + rest;
  }

  lemma WordParts(w: Word)
    ensures w == 0x100 * High(w) + Low(w) && w % 0x1000 == 0x100 * (High(w) % 16) + Low(w)
    ensures High(w) == 16 * (High(w) / 16) + High(w) % 16
  {
  }

  /** The decimal branch of SBC with a 16-bit accumulator, were x the accumulator. */
  method SbcWordDigits(x: Word, value: Word, carry: bool) returns (tmp: Word, carryOut: bool)
    ensures var hi := SubPacked(High(x), High(value), SubPacked(Low(x), Low(value), !carry).1);
            tmp == 0x100 * hi.0 + SubPacked(Low(x), Low(value), !carry).0 && carryOut == !hi.1
  {
    hide SubPacked, Low, High;
    var low, c1 := SbcLowDigits(Low(x), Low(value), carry);
    SubPackedBorrow(Low(x), Low(value), !carry);
    WordParts(x);
    WordParts(value);
    DigitsOf(High(x), High(value), c1);
    ghost var rest := Low(x) - Low(value) - Bit(!carry) + 0x100 * Bit(!c1);
    ghost var h3 := High(x) % 16 - High(value) % 16 - Bit(!c1);
    ghost var h4 := High(x) / 16 - High(value) / 16 - Bit(h3 < 0);
    var tmp2 := x % 0x1000 + (0xfff - value % 0x1000) + Bit(carry);
    ThirdDifference(tmp2, h3, rest);
    var d3 := (if tmp2 < 0x1000 then tmp2 - 0x600 else tmp2) % 0x1000 / 0x100;
    tmp2 := x + (0xffff - value) + Bit(carry);
    FourthDifference(tmp2, h4, 0x100 * h3 + rest + 0x1000 * Bit(h3 < 0));
    var d4 := (if tmp2 < 0x1_0000 then tmp2 - 0x6000 else tmp2) % 0x1_0000 / 0x1000;
    tmp := low + 0x100 * d3 + 0x1000 * d4;
    carryOut := tmp2 > 0xffff;
  }

  lemma SubtractedWordDecimal(x: Word, value: Word, carry: bool)
    ensures var lo := SubPacked(Low(x), Low(value), !carry);
            var hi := SubPacked(High(x), High(value), lo.1);
            SubtractedWord(x, value, carry, true) == (0x100 * hi.0 + lo.0, !hi.1)
  {
    hide SubPacked, Low, High;
    SubtractedWordIs(x, value, carry, true);
    SubPackedBorrow(Low(x), Low(value), !carry);
    var c := !SubPacked(Low(x), Low(value), !carry).1;
    SubPackedBorrow(High(x), High(value), !c);
  }

  /** SBC with a 16-bit accumulator.  In decimal mode the code masks the 8-bit register where the
      16-bit one is meant, so that it subtracts from the low byte of the accumulator alone. */
  method Sbc65816Word(c: Word, value: Word, carry: bool, decimal: bool) returns (r: Word, carryOut: bool)
    ensures (r, carryOut) == SubtractedWord(if decimal then Low(c) else c, value, carry, decimal)
  {
    if decimal {
      SubtractedWordDecimal(Low(c), value, carry);
      r, carryOut := SbcWordDigits(Low(c), value, carry);
    } else {
      WordDifference(c, value, carry);
      var tmp := Bit(carry) + (0xffff - value) + c;
      r, carryOut := Trunc(tmp), tmp > 0xffff;
    }
  }

  lemma WordDifference(c: Word, value: Word, carry: bool)
    ensures var t := Bit(carry) + (0xffff - value) + c; SubtractedWord(c, value, carry, false) == (Trunc(t), t > 0xffff)
  {
    SubtractedWordIs(c, value, carry, false);
  }

  /** The digit that a difference of digits is stored as. */
  function StoredDigit(n: int): int {
    if n >= 0 then n else if n >= -10 then n + 10 else n + 26
  }

  lemma StoredDigitIs(n: int)
    requires -16 <= n < 16
    ensures StoredDigit(n) == (if n < 0 then (n - 6) % 16 else n) && 0 <= StoredDigit(n) < 16
  {
  }

  lemma ZeroDigits(xh: int, xl: int, yh: int, yl: int, b: int)
    requires 0 <= xh < 16 && 0 <= xl < 16 && 0 <= yh < 16 && 0 <= yl < 16 && 0 <= b <= 1
    requires StoredDigit(xl - yl - b) == StoredDigit(0 - yl - b)
    requires var h, h0 := xh - yh - Bit(xl - yl - b < 0), 0 - yh - Bit(0 - yl - b < 0);
             StoredDigit(h) == StoredDigit(h0) && (h < 0) == (h0 < 0)
    ensures xh == 0 && xl == 0
  {
  }

  /** Only zero gives what zero gives, result and borrow. */
  lemma ZeroMinuend(x: Byte, y: Byte, borrow: bool)
    requires SubPacked(x, y, borrow) == SubPacked(0, y, borrow)
    ensures x == 0
  {
    hide SubPacked, StoredDigit;
    var h, l := StoredAs(x, y, borrow);
    var h0, l0 := StoredAs(0, y, borrow);
    SameDigits(StoredDigit(h), StoredDigit(l), StoredDigit(h0), StoredDigit(l0));
    ZeroDigits(x / 16, x % 16, y / 16, y % 16, Bit(borrow));
  }

  lemma StoredAs(x: Byte, y: Byte, borrow: bool) returns (h: int, l: int)
    ensures l == x % 16 - y % 16 - Bit(borrow) && h == x / 16 - y / 16 - Bit(l < 0)
    ensures SubPacked(x, y, borrow) == (16 * StoredDigit(h) + StoredDigit(l), h < 0)
    ensures 0 <= StoredDigit(h) < 16 && 0 <= StoredDigit(l) < 16
  {
    hide SubPacked, StoredDigit;
    DigitsOf(x, y, !borrow);
    l := x % 16 - y % 16 - Bit(borrow);
    h := x / 16 - y / 16 - Bit(l < 0);
    StoredDigitIs(h);
    StoredDigitIs(l);
  }

  lemma SameDigits(h: int, l: int, h0: int, l0: int)
    requires 0 <= h < 16 && 0 <= l < 16 && 0 <= h0 < 16 && 0 <= l0 < 16 && 16 * h + l == 16 * h0 + l0
    ensures h == h0 && l == l0
  {
  }

  /** So the 16-bit decimal subtraction is right exactly when the high byte of the accumulator is zero. */
  lemma WordRightWhen(c: Word, value: Word, carry: bool)
    ensures SubtractedWord(Low(c), value, carry, true) == SubtractedWord(c, value, carry, true) <==> High(c) == 0
  {
    hide SubtractedWord, SubPacked, High, Low;
    SubtractedWordDecimal(c, value, carry);
    SubtractedWordDecimal(Low(c), value, carry);
    LowOfLow(c);
    var lo := SubPacked(Low(c), Low(value), !carry);
    var hi, hi0 := SubPacked(High(c), High(value), lo.1), SubPacked(0, High(value), lo.1);
    if hi == hi0 {
      ZeroMinuend(High(c), High(value), lo.1);
    }
  }

  lemma SomeDifferences()
    ensures SubPacked(0x00, 0x01, false) == SubPacked(0x00, 0x00, true) == (0x99, true) && SubPacked(0x10, 0x00, true) == (0x09, false)
  {
    hide SubPacked;
    DigitsOf(0x00, 0x01, true);
    DigitsOf(0x00, 0x00, false);
    DigitsOf(0x10, 0x00, false);
  }

  /** 1000 - 1 is 999, but the 16-bit decimal subtraction takes 1 from 0. */
  lemma WordWrong()
    ensures SubtractedWord(0x1000, 0x0001, true, true) == (0x0999, true)
    ensures SubtractedWord(0x0000, 0x0001, true, true) == (0x9999, false) && Low(0x1000) == 0x0000
  {
    hide SubPacked, SubtractedWord;
    SomeDifferences();
    SubtractedWordDecimal(0x1000, 0x0001, true);
    SubtractedWordDecimal(0x0000, 0x0001, true);
  }

  lemma LowOfLow(c: Word)
    ensures Low(Low(c)) == Low(c) && High(Low(c)) == 0
  {
  }
}
