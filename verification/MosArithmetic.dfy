/** The ADC, SBC and ARR macros.  Both 6510 cores carry the same text of them, so it is
    modelled once: the C locals of a macro are the locals of a method here.  Unsigned C
    arithmetic wraps, but only the bits kept by a mask are ever looked at. */
module MosArithmetic {
  import opened Words
  import opened Isa

  /** Masks off the low digit. */
  function Upper(x: int): int {
    x - x % 16
  }

  /** How the sum t of the digits h above and l below is adjusted and where its carry shows. */
  lemma AdjustHigh(t: int, h: int, l: int)
    requires t == 16 * h + l && 0 <= h < 32 && 0 <= l < 16
    ensures Negative(Low(t)) == Negative(Low(16 * h))
    ensures Upper(t % 0x200) > 0x90 <==> h > 9
    ensures h > 9 ==> Low(t + 0x60) == 16 * ((h + 6) % 16) + l && Upper((t + 0x60) % 0x1000) > 0xf0
    ensures h <= 9 ==> Low(t) == 16 * h + l && Upper(t % 0x1000) <= 0xf0
  {
    hide Low, Upper;
    UpperIs(h, l);
    assert t % 0x200 == t && t % 0x1000 == t;
    if h > 9 {
      UpperIs(h + 6, l);
      assert (t + 0x60) % 0x1000 == t + 0x60;
      SixMore(h);
      var q := if h > 25 then 2 else 1;
      assert t + 0x60 == 0x100 * q + (16 * ((h + 6) % 16) + l);
      LowIs(q, 16 * ((h + 6) % 16) + l);
    }
  }

  lemma UpperIs(k: int, l: int)
    requires 0 <= l < 16
    ensures Upper(16 * k + l) == 16 * k
  {
  }

  /** A digit sum pushed on by six. */
  lemma SixMore(h: int)
    requires 9 < h < 32
    ensures (h + 6) % 16 == if h > 25 then h - 26 else h - 10
  {
  }

  /** A digit difference pulled back by six. */
  lemma SixLess(h: int)
    requires -16 <= h < 16
    ensures (h - 6) % 16 == if h >= 6 then h - 6 else if h >= -10 then h + 10 else h + 26
  {
  }

  method AdcLow(a: Byte, value: Byte, carry: bool) returns (tmp: int, ghost h: int, ghost l: int)
    ensures var lo := AddDigits(a % 16, value % 16, carry);
            l == lo.0 && h == a / 16 + value / 16 + Bit(lo.1) && tmp == 16 * h + l
  {
    tmp := a % 16 + value % 16 + Bit(carry);
    if tmp > 9 {
      tmp := tmp + 6;
    }
    if tmp <= 15 {
      tmp := tmp % 16 + Upper(a) + Upper(value);
    } else {
      tmp := tmp % 16 + Upper(a) + Upper(value) + 0x10;
    }
    l := AddDigits(a % 16, value % 16, carry).0;
    h := a / 16 + value / 16 + Bit(AddDigits(a % 16, value % 16, carry).1);
  }

  method AdcHigh(t: int, ghost h: int, ghost l: int) returns (r: Byte, n: bool, c: bool)
    requires t == 16 * h + l && 0 <= h < 32 && 0 <= l < 16
    ensures r == 16 * (if h > 9 then (h + 6) % 16 else h) + l && c == (h > 9)
    ensures n == Negative(Low(16 * h))
  {
    AdjustHigh(t, h, l);
    var tmp := t;
    n := Negative(Low(tmp));
    if Upper(tmp % 0x200) > 0x90 {
      tmp := tmp + 0x60;
    }
    r, c := Low(tmp), Upper(tmp % 0x1000) > 0xf0;
  }

  method AdcDecimal(a: Byte, value: Byte, carry: bool) returns (r: Sum)
    ensures r == Added(a, value, carry, true)
  {
    hide Low;
    var tmp, h, l := AdcLow(a, value, carry);
    var z := Low(a + value + Bit(carry)) == 0;
    var res, n, c := AdcHigh(tmp, h, l);
    r := Sum(res, n, Negative(a) != n && Negative(a) == Negative(value), z, c);
  }

  method Adc(a: Byte, value: Byte, carry: bool, decimal: bool) returns (r: Sum)
    ensures r == Added(a, value, carry, decimal)
  {
    if decimal {
      r := AdcDecimal(a, value, carry);
    } else {
      var tmp := value + a + Bit(carry);
      var v := Negative(a) == Negative(value) && Negative(a) != Negative(Low(tmp));
      r := Sum(Low(tmp), Negative(Low(tmp)), v, Low(tmp) == 0, tmp > 0xff);
    }
  }

  /** The high digits differ by h after the low digit l has been settled. */
  lemma BorrowHigh(t: int, h: int, l: int)
    requires t == 16 * h + l && -16 <= h < 16 && 0 <= l < 16
    ensures Low(t - 0x60) == 16 * ((h - 6) % 16) + l
    ensures h >= 0 ==> Low(t) == t
    ensures t / 0x100 % 2 == 1 <==> h < 0
  {
    hide Low;
    SixLess(h);
    var q := if h >= 6 then 0 else if h >= -10 then -1 else -2;
    assert t - 0x60 == 0x100 * q + (16 * ((h - 6) % 16) + l);
    LowIs(q, 16 * ((h - 6) % 16) + l);
  }

  /** The two operands of the C bitwise or share no bits, so it is a sum. */
  method SbcLow(a: Byte, value: Byte, carry: bool) returns (tmpA: int)
    ensures var lo := SubDigits(a % 16, value % 16, !carry);
            tmpA == 16 * (a / 16 - value / 16 - Bit(lo.1)) + lo.0
  {
    tmpA := a % 16 - value % 16 - Bit(!carry);
    if tmpA / 0x10 % 2 != 0 {
      tmpA := (tmpA - 6) % 16 + (Upper(a) - Upper(value) - 0x10);
    } else {
      tmpA := tmpA % 16 + (Upper(a) - Upper(value));
    }
  }

  method SbcDecimal(a: Byte, value: Byte, carry: bool) returns (r: Byte)
    ensures r == SubPacked(a, value, !carry).0
  {
    var tmpA := SbcLow(a, value, carry);
    ghost var lo := SubDigits(a % 16, value % 16, !carry);
    BorrowHigh(tmpA, a / 16 - value / 16 - Bit(lo.1), lo.0);
    if tmpA / 0x100 % 2 != 0 {
      tmpA := tmpA - 0x60;
    }
    r := Low(tmpA);
  }

  method Sbc(a: Byte, value: Byte, carry: bool, decimal: bool) returns (r: Sum)
    ensures r == Subtracted(a, value, carry, decimal)
  {
    hide Low, Trunc, SubPacked;
    LowTrunc(a - value - Bit(!carry));
    var tmp := Trunc(a - value - Bit(!carry));
    var v := Negative(a) != Negative(Low(tmp)) && Negative(a) != Negative(value);
    r := Sum(Low(tmp), Negative(Low(tmp)), v, Low(tmp) == 0, tmp < 0x100);
    if decimal {
      var tmpA := SbcDecimal(a, value, carry);
      r := r.(a := tmpA);
    }
  }

  /** The bits of a rotated byte, and the test for adjusting its high digit. */
  lemma Rotated(tmp: Byte, carry: bool, r: int)
    requires r == (tmp + 0x100 * Bit(carry)) / 2
    ensures r == tmp / 2 + 0x80 * Bit(carry) && 0 <= r < 0x100
    ensures r / 0x40 % 2 == 1 <==> Negative(tmp)
    ensures r / 0x20 % 2 == 1 <==> tmp / 0x40 % 2 == 1
    ensures Upper(tmp) + 0x10 * (tmp / 0x10 % 2) > 0x50 <==> tmp / 16 + tmp / 16 % 2 > 5
  {
    assert Upper(tmp) == 16 * (tmp / 16);
  }

  method ArrLow(t: Byte, adjust: bool) returns (r: Byte)
    ensures r == 16 * (t / 16) + if adjust then (t % 16 + 6) % 16 else t % 16
  {
    r := t;
    if adjust {
      r := Upper(t) + (t + 6) % 16;
    }
  }

  method ArrHigh(t: Byte, adjust: bool) returns (r: Byte)
    ensures r == t % 16 + 16 * if adjust then (t / 16 + 6) % 16 else t / 16
  {
    r := t;
    if adjust {
      assert Low(t + 0x60) == 16 * ((t / 16 + 6) % 16) + t % 16;
      r := t % 16 + Upper(Low(t + 0x60));
    }
  }

  method ArrDigits(t: Byte, low: bool, high: bool) returns (r: Byte)
    ensures r == 16 * (if high then (t / 16 + 6) % 16 else t / 16) + if low then (t % 16 + 6) % 16 else t % 16
  {
    r := ArrLow(t, low);
    r := ArrHigh(r, high);
  }

  method ArrDecimal(tmp: Byte, carry: bool) returns (r: Sum)
    ensures r == RotatedAnd(tmp, carry, true)
  {
    hide Upper;
    var tmp2 := (tmp + 0x100 * Bit(carry)) / 2;
    Rotated(tmp, carry, tmp2);
    var v := (tmp2 / 0x40 % 2 == 1) != (tmp / 0x40 % 2 == 1);
    var c := Upper(tmp) + 0x10 * (tmp / 0x10 % 2) > 0x50;
    var res := ArrDigits(tmp2, tmp % 16 + tmp % 2 > 5, c);
    r := Sum(res, carry, v, tmp2 == 0, c);
  }

  method Arr(tmp: Byte, carry: bool, decimal: bool) returns (r: Sum)
    ensures r == RotatedAnd(tmp, carry, decimal)
  {
    if decimal {
      r := ArrDecimal(tmp, carry);
    } else {
      var tmp2 := (tmp + 0x100 * Bit(carry)) / 2;
      Rotated(tmp, carry, tmp2);
      r := Sum(tmp2, Negative(tmp2), (tmp2 / 0x40 % 2 == 1) != (tmp2 / 0x20 % 2 == 1), tmp2 == 0, tmp2 / 0x40 % 2 == 1);
    }
  }
}
