/** The decimal adders of the 65C02 and the 65816, written independently of those of the 6510.
    Every one of them is compared with the digit by digit arithmetic of Isa. */
module Adders {
  import opened Words
  import opened Isa
  import opened MosArithmetic

  /** On the later processors N and Z show the result that is stored, in decimal mode as well. */
  function Cmos(s: Sum): Sum {
    s.(n := Negative(s.a), z := s.a == 0)
  }

  /** The carry digit of the high digits' sum h, adjusted by six. */
  lemma HighDigit(t: int, h: int)
    requires t == 16 * h && 0 <= h < 32
    ensures (t > 0x90 <==> h > 9) && Negative(Low(t)) == Negative(Low(16 * h))
    ensures h > 9 ==> Upper((t + 0x60) % 0x100) == 16 * ((h + 6) % 16) && (t + 0x60) / 0x100 != 0
    ensures h <= 9 ==> Upper(t % 0x100) == 16 * h && t / 0x100 == 0
  {
    hide Low, Upper;
    if h > 9 {
      SixMore(h);
      var q := if h > 25 then 2 else 1;
      assert t + 0x60 == 0x100 * q + 16 * ((h + 6) % 16);
      LowIs(q, 16 * ((h + 6) % 16));
      LowMod(t + 0x60);
      UpperIs((h + 6) % 16, 0);
    } else {
      UpperIs(h, 0);
    }
  }

  /** The sum of the low digits, and the sum of the high digits with its carry. */
  method LowDigit(a: Byte, value: Byte, carry: bool) returns (low: int, high: int)
    ensures var lo := AddDigits(a % 16, value % 16, carry);
            low % 16 == lo.0 && high == 16 * (a / 16 + value / 16 + Bit(lo.1))
  {
    low := a % 16 + value % 16 + Bit(carry);
    high := Upper(a) + Upper(value);
    if low > 9 {
      high := high + 0x10;
      low := low + 6;
    }
  }

  lemma AddedParts(a: Byte, value: Byte, carry: bool)
    ensures var s := Added(a, value, carry, true);
            var lo := AddDigits(a % 16, value % 16, carry);
            var h := a / 16 + value / 16 + Bit(lo.1);
            && s.a == 16 * (if h > 9 then (h + 6) % 16 else h) + lo.0 && s.c == (h > 9)
            && s.v == (Negative(a) == Negative(value) && Negative(a) != Negative(Low(16 * h)))
  {
  }

  method Adc65C02Decimal(a: Byte, value: Byte, carry: bool) returns (r: Sum)
    ensures r == Cmos(Added(a, value, carry, true))
  {
    hide Added, AddDigits, Low;
    AddedParts(a, value, carry);
    var tmp, tmp2 := LowDigit(a, value, carry);
    HighDigit(tmp2, a / 16 + value / 16 + Bit(AddDigits(a % 16, value % 16, carry).1));
    var v := Negative(a) == Negative(value) && Negative(a) != Negative(Low(tmp2));
    if tmp2 > 0x90 {
      tmp2 := tmp2 + 0x60;
    }
    var c := tmp2 / 0x100 != 0;
    var res := tmp % 16 + Upper(tmp2 % 0x100);
    r := Sum(res, Negative(res), v, res == 0, c);
  }

  method Adc65C02(a: Byte, value: Byte, carry: bool, decimal: bool) returns (r: Sum)
    ensures r == Cmos(Added(a, value, carry, decimal))
  {
    if decimal {
      r := Adc65C02Decimal(a, value, carry);
    } else {
      var tmp := value + a + Bit(carry);
      var v := Negative(a) == Negative(value) && Negative(a) != Negative(Low(tmp));
      r := Sum(Low(tmp), Negative(Low(tmp)), v, Low(tmp) == 0, tmp > 0xff);
    }
  }

  method Adc65816ByteDecimal(a: Byte, value: Byte, carry: bool) returns (r: Sum)
    ensures r == Cmos(Added(a, value, carry, true))
  {
    hide Added, AddDigits, Low, Upper;
    AddedParts(a, value, carry);
    var tmp2, tmp := LowDigit(a, value, carry);
    ghost var h := a / 16 + value / 16 + Bit(AddDigits(a % 16, value % 16, carry).1);
    tmp := tmp + tmp2 % 16;
    TwoDigits(tmp, h, tmp2 % 16);
    var v := Negative(a) == Negative(value) && Negative(a) != Negative(Low(tmp));
    if tmp > 0x9f {
      tmp := tmp + 0x60;
    }
    r := Sum(Low(tmp), Negative(Low(tmp)), v, Low(tmp) == 0, tmp > 0xff);
  }

  /** The high sum h above a settled low digit l. */
  lemma TwoDigits(t: int, h: int, l: int)
    requires t == 16 * h + l && 0 <= h < 32 && 0 <= l < 16
    ensures (t > 0x9f <==> h > 9) && Negative(Low(t)) == Negative(Low(16 * h))
    ensures h > 9 ==> Low(t + 0x60) == 16 * ((h + 6) % 16) + l && t + 0x60 > 0xff
    ensures h <= 9 ==> Low(t) == t
  {
    AdjustHigh(t, h, l);
  }

  /** ADC with an 8-bit accumulator. */
  method Adc65816Byte(a: Byte, value: Byte, carry: bool, decimal: bool) returns (r: Sum)
    ensures r == Cmos(Added(a, value, carry, decimal))
  {
    if decimal {
      r := Adc65816ByteDecimal(a, value, carry);
    } else {
      var tmp := Bit(carry) + value + a;
      var v := Negative(a) == Negative(value) && Negative(a) != Negative(Low(tmp));
      r := Sum(Low(tmp), Negative(Low(tmp)), v, Low(tmp) == 0, tmp > 0xff);
    }
  }

  // ---- Sixteen bits -------------------------------------------------------------------------------

  /** Two bytes one after the other, as an 8-bit accumulator would do it. */
  function AddedWord(c: Word, value: Word, carry: bool, decimal: bool): (Word, bool) {
    var lo := Added(Low(c), Low(value), carry, decimal);
    var hi := Added(High(c), High(value), lo.c, decimal);
    (Join(lo.a, hi.a), hi.c)
  }

  function Settled(n: int): int {
    if n > 9 then (n + 6) % 16 else n
  }

  /** A packed sum in terms of the sums of its digits. */
  lemma PackedSum(x: Byte, y: Byte, carry: bool)
    ensures var l := x % 16 + y % 16 + Bit(carry);
            var h := x / 16 + y / 16 + Bit(l > 9);
            AddPacked(x, y, carry) == (16 * Settled(h) + Settled(l), h > 9)
            && 0 <= l < 32 && 0 <= h < 32 && 0 <= Settled(l) < 16 && 0 <= Settled(h) < 16
            && AddDigits(x % 16, y % 16, carry) == (Settled(l), l > 9)
  {
  }

  /** The low byte with its carry in place of bit 8, as the 16-bit code keeps it. */
  method AdcWordLow(c: Word, value: Word, carry: bool) returns (tmp: int, carried: int)
    ensures var lo := AddPacked(Low(c), Low(value), carry);
            tmp % 0x100 == lo.0 && carried == 0x100 * Bit(lo.1)
  {
    hide Low, Upper, AddPacked, AddDigits;
    ghost var l := Low(c) % 16 + Low(value) % 16 + Bit(carry);
    ghost var h := Low(c) / 16 + Low(value) / 16 + Bit(l > 9);
    PackedSum(Low(c), Low(value), carry);
    var low, high := LowDigit(Low(c), Low(value), carry);
    tmp := high + low % 16;
    TwoDigits(tmp, h, Settled(l));
    carried := 0;
    if tmp > 0x9f {
      tmp := tmp + 0x60;
      carried := 0x100;
    }
    LowMod(tmp);
  }

  lemma TwelveBits(q: int, r: int)
    requires 0 <= r < 0x1000
    ensures (0x1000 * q + r) % 0x1000 == r
  {
  }

  lemma ThirdDigit(t: int, s: int, low: int)
    requires t == 0x100 * s + low && 0 <= s < 32 && 0 <= low < 0x100
    ensures (t > 0x9ff <==> s > 9)
    ensures (if t > 0x9ff then t + 0x600 else t) % 0x1000 == 0x100 * Settled(s) + low
  {
    if s > 9 {
      SixMore(s);
      var q := if s > 25 then 2 else 1;
      assert t + 0x600 == 0x1000 * q + (0x100 * ((s + 6) % 16) + low);
      TwelveBits(q, 0x100 * ((s + 6) % 16) + low);
    }
  }

  lemma FourthDigit(t: int, s: int, low: int)
    requires t == 0x1000 * s + low && 0 <= s < 32 && 0 <= low < 0x1000
    ensures (t > 0x9fff <==> s > 9)
    ensures Trunc(if t > 0x9fff then t + 0x6000 else t) == 0x1000 * Settled(s) + low
    ensures (if t > 0x9fff then t + 0x6000 else t) > 0xffff <==> s > 9
  {
    hide Trunc;
    if s > 9 {
      SixMore(s);
      var q := if s > 25 then 2 else 1;
      assert t + 0x6000 == 0x1_0000 * q + (0x1000 * ((s + 6) % 16) + low);
      TruncIs(q, 0x1000 * ((s + 6) % 16) + low);
    }
  }

  /** The two high digits of the sum, above the low byte. */
  method AdcWordHigh(c: Word, value: Word, low: Byte, carried: int) returns (tmp: int)
    requires carried == 0 || carried == 0x100
    ensures var hi := AddPacked(High(c), High(value), carried != 0);
            Trunc(tmp) == 0x100 * hi.0 + low && (tmp > 0xffff <==> hi.1)
  {
    hide Trunc, Low, High, AddPacked, AddDigits, Settled;
    PackedSum(High(c), High(value), carried != 0);
    ghost var l := High(c) % 16 + High(value) % 16 + Bit(carried != 0);
    ghost var h := High(c) / 16 + High(value) / 16 + Bit(l > 9);
    var tmp2 := 0x100 * (High(c) % 16) + 0x100 * (High(value) % 16) + carried;
    tmp2 := tmp2 + low;
    ThirdDigit(tmp2, l, low);
    tmp := 0x1000 * (High(c) / 16) + 0x1000 * (High(value) / 16);
    if tmp2 > 0x9ff {
      tmp2 := tmp2 + 0x600;
      tmp := tmp + 0x1000;
    }
    tmp := tmp + tmp2 % 0x1000;
    FourthDigit(tmp, h, 0x100 * Settled(l) + low);
    if tmp > 0x9fff {
      tmp := tmp + 0x6000;
    }
  }

  /** ADC with a 16-bit accumulator: the result and the carry. */
  method Adc65816Word(c: Word, value: Word, carry: bool, decimal: bool) returns (r: Word, carryOut: bool)
    ensures (r, carryOut) == AddedWord(c, value, carry, decimal)
  {
    hide AddPacked, Low, High, Trunc;
    var tmp: int;
    if decimal {
      var low, carried := AdcWordLow(c, value, carry);
      tmp := AdcWordHigh(c, value, low % 0x100, carried);
    } else {
      tmp := Bit(carry) + value + c;
      WordSum(c, value, carry);
    }
    r, carryOut := Trunc(tmp), tmp > 0xffff;
  }

  lemma WordSum(c: Word, value: Word, carry: bool)
    ensures var t := c + value + Bit(carry); AddedWord(c, value, carry, false) == (Trunc(t), t > 0xffff)
  {
  }
}
