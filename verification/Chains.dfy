/** Arithmetic on numbers of any length, as programs do it: one ADC or SBC after another over
    little-endian bytes, the carry flag linking them.  In decimal mode a byte is two packed
    decimal digits. */
module Chains {
  import opened Words
  import opened Isa
  import MosArithmetic
  import Adders
  import Subtracters

  function AddChain(xs: seq<Byte>, ys: seq<Byte>, carry: bool, decimal: bool): (r: (seq<Byte>, bool))
    requires |xs| == |ys|
    ensures |r.0| == |xs|
  {
    if xs == [] then ([], carry)
    else
      var s := Added(xs[0], ys[0], carry, decimal);
      var rest := AddChain(xs[1..], ys[1..], s.c, decimal);
      ([s.a] + rest.0, rest.1)
  }

  function SubChain(xs: seq<Byte>, ys: seq<Byte>, carry: bool, decimal: bool): (r: (seq<Byte>, bool))
    requires |xs| == |ys|
    ensures |r.0| == |xs|
  {
    if xs == [] then ([], carry)
    else
      var s := Subtracted(xs[0], ys[0], carry, decimal);
      var rest := SubChain(xs[1..], ys[1..], s.c, decimal);
      ([s.a] + rest.0, rest.1)
  }

  // ---- The numbers that byte sequences stand for ------------------------------------------------------

  function Radix(decimal: bool): nat {
    if decimal then 100 else 0x100
  }

  /** A binary byte, or two decimal digits. */
  predicate Packed(x: Byte, decimal: bool) {
    decimal ==> x % 16 <= 9 && x / 16 <= 9
  }

  function Number(x: Byte, decimal: bool): nat {
    if decimal then 10 * (x / 16) + x % 16 else x
  }

  predicate AllPacked(xs: seq<Byte>, decimal: bool) {
    forall i :: 0 <= i < |xs| ==> Packed(xs[i], decimal)
  }

  function Value(xs: seq<Byte>, decimal: bool): nat {
    if xs == [] then 0 else Number(xs[0], decimal) + Radix(decimal) * Value(xs[1..], decimal)
  }

  function Power(base: nat, n: nat): nat {
    if n == 0 then 1 else base * Power(base, n - 1)
  }

  /** On decimal digits the digit functions are decimal arithmetic. */
  lemma DecimalSum(x: int, y: int, carry: bool)
    requires 0 <= x <= 9 && 0 <= y <= 9
    ensures var s := AddDigits(x, y, carry); s.0 <= 9 && s.0 + 10 * Bit(s.1) == x + y + Bit(carry)
  {
    var sum := x + y + Bit(carry);
    assert sum > 9 ==> (sum + 6) % 16 == sum - 10;
  }

  lemma DecimalDifference(x: int, y: int, borrow: bool)
    requires 0 <= x <= 9 && 0 <= y <= 9
    ensures var d := SubDigits(x, y, borrow); d.0 <= 9 && d.0 - 10 * Bit(d.1) == x - y - Bit(borrow)
  {
    var diff := x - y - Bit(borrow);
    assert diff < 0 ==> (diff - 6) % 16 == diff + 10;
  }

  lemma TwoDigits(hi: int, lo: int)
    requires 0 <= hi < 16 && 0 <= lo < 16
    ensures (16 * hi + lo) / 16 == hi && (16 * hi + lo) % 16 == lo
  {
  }

  lemma AddByte(x: Byte, y: Byte, carry: bool, decimal: bool)
    requires Packed(x, decimal) && Packed(y, decimal)
    ensures var s := Added(x, y, carry, decimal);
            Packed(s.a, decimal)
            && Number(s.a, decimal) + Radix(decimal) * Bit(s.c) == Number(x, decimal) + Number(y, decimal) + Bit(carry)
  {
    hide AddDigits, Negative;
    if decimal {
      var lo := AddDigits(x % 16, y % 16, carry);
      var hi := AddDigits(x / 16, y / 16, lo.1);
      DecimalSum(x % 16, y % 16, carry);
      DecimalSum(x / 16, y / 16, lo.1);
      TwoDigits(hi.0, lo.0);
    }
  }

  lemma SubByte(x: Byte, y: Byte, carry: bool, decimal: bool)
    requires Packed(x, decimal) && Packed(y, decimal)
    ensures var s := Subtracted(x, y, carry, decimal);
            Packed(s.a, decimal)
            && Number(s.a, decimal) - Radix(decimal) * Bit(!s.c) == Number(x, decimal) - Number(y, decimal) - Bit(!carry)
  {
    hide SubDigits, Negative;
    if decimal {
      var lo := SubDigits(x % 16, y % 16, !carry);
      var hi := SubDigits(x / 16, y / 16, lo.1);
      DecimalDifference(x % 16, y % 16, !carry);
      DecimalDifference(x / 16, y / 16, lo.1);
      TwoDigits(hi.0, lo.0);
      Subtracters.SubPackedBorrow(x, y, !carry);
    }
  }

  // ---- Numbers of any length --------------------------------------------------------------------------

  /** A first digit n with carry c0, and the digits above it: v with carry c out of p places.  Any
      sign of the carries will do. */
  lemma Assemble(r: int, p: int, n: int, v: int, c0: int, c: int, x: int, xs: int, y: int, ys: int, linked: int)
    requires n + r * c0 == x + y + linked && v + p * c == xs + ys + c0
    ensures n + r * v + r * p * c == x + r * xs + (y + r * ys) + linked
  {
    calc {
      r * v + r * p * c;
      r * (v + p * c);
      r * (xs + ys + c0);
      r * xs + r * ys + r * c0;
    }
  }

  /** A chain of ADCs is exact: the bytes hold the sum, and the carry is the digit above them. */
  lemma {:induction false} AddChainExact(xs: seq<Byte>, ys: seq<Byte>, carry: bool, decimal: bool)
    requires |xs| == |ys| && AllPacked(xs, decimal) && AllPacked(ys, decimal)
    ensures var r := AddChain(xs, ys, carry, decimal);
            AllPacked(r.0, decimal)
            && Value(r.0, decimal) + Power(Radix(decimal), |xs|) * Bit(r.1)
               == Value(xs, decimal) + Value(ys, decimal) + Bit(carry)
  {
    hide Added, Number, Radix;
    if xs != [] {
      var s := Added(xs[0], ys[0], carry, decimal);
      var rest := AddChain(xs[1..], ys[1..], s.c, decimal);
      AddByte(xs[0], ys[0], carry, decimal);
      AddChainExact(xs[1..], ys[1..], s.c, decimal);
      assert ([s.a] + rest.0)[1..] == rest.0;
      Assemble(Radix(decimal), Power(Radix(decimal), |xs| - 1), Number(s.a, decimal), Value(rest.0, decimal), Bit(s.c), Bit(rest.1),
               Number(xs[0], decimal), Value(xs[1..], decimal), Number(ys[0], decimal), Value(ys[1..], decimal), Bit(carry));
    }
  }

  /** A chain of SBCs is exact: the bytes hold the difference, and a clear carry is a borrow from
      the digit above them. */
  lemma {:induction false} SubChainExact(xs: seq<Byte>, ys: seq<Byte>, carry: bool, decimal: bool)
    requires |xs| == |ys| && AllPacked(xs, decimal) && AllPacked(ys, decimal)
    ensures var r := SubChain(xs, ys, carry, decimal);
            AllPacked(r.0, decimal)
            && Value(r.0, decimal) - Power(Radix(decimal), |xs|) * Bit(!r.1)
               == Value(xs, decimal) - Value(ys, decimal) - Bit(!carry)
  {
    hide Subtracted, Number, Radix;
    if xs != [] {
      var s := Subtracted(xs[0], ys[0], carry, decimal);
      var rest := SubChain(xs[1..], ys[1..], s.c, decimal);
      SubByte(xs[0], ys[0], carry, decimal);
      SubChainExact(xs[1..], ys[1..], s.c, decimal);
      assert ([s.a] + rest.0)[1..] == rest.0;
      AssembleDifference(Radix(decimal), Power(Radix(decimal), |xs| - 1), Number(s.a, decimal), Value(rest.0, decimal), Bit(!s.c),
                         Bit(!rest.1), Number(xs[0], decimal), Value(xs[1..], decimal), Number(ys[0], decimal),
                         Value(ys[1..], decimal), Bit(!carry));
    }
  }

  lemma AssembleDifference(r: int, p: int, n: int, v: int, b0: int, b: int, x: int, xs: int, y: int, ys: int, linked: int)
    requires n - r * b0 == x - y - linked && v - p * b == xs - ys - b0
    ensures n + r * v - r * p * b == x + r * xs - (y + r * ys) - linked
  {
    calc {
      r * v - r * p * b;
      r * (v - p * b);
      r * (xs - ys - b0);
      r * xs - r * ys - r * b0;
    }
  }

  /** One byte there and back: the borrow of the subtraction is the carry of the addition. */
  lemma ByteRoundTrip(x: Byte, y: Byte, carry: bool, decimal: bool)
    requires Packed(x, decimal) && Packed(y, decimal)
    ensures var s := Added(x, y, carry, decimal);
            var d := Subtracted(s.a, y, !carry, decimal);
            d.a == x && d.c == !s.c
  {
    hide Added, Subtracted, Number, Packed;
    var s := Added(x, y, carry, decimal);
    AddByte(x, y, carry, decimal);
    SubByte(s.a, y, !carry, decimal);
    var d := Subtracted(s.a, y, !carry, decimal);
    NumberRange(x, decimal);
    NumberRange(d.a, decimal);
    NumberInjective(d.a, x, decimal);
  }

  lemma NumberRange(x: Byte, decimal: bool)
    requires Packed(x, decimal)
    ensures Number(x, decimal) < Radix(decimal)
  {
  }

  lemma NumberInjective(x: Byte, y: Byte, decimal: bool)
    requires Packed(x, decimal) && Packed(y, decimal) && Number(x, decimal) == Number(y, decimal)
    ensures x == y
  {
  }

  /** Subtracting the addend again restores the number, whatever its length and its sum. */
  lemma {:induction false} RoundTrip(xs: seq<Byte>, ys: seq<Byte>, carry: bool, decimal: bool)
    requires |xs| == |ys| && AllPacked(xs, decimal) && AllPacked(ys, decimal)
    ensures var s := AddChain(xs, ys, carry, decimal);
            SubChain(s.0, ys, !carry, decimal) == (xs, !s.1)
  {
    hide Added, Subtracted, Packed;
    if xs != [] {
      var s := Added(xs[0], ys[0], carry, decimal);
      var rest := AddChain(xs[1..], ys[1..], s.c, decimal);
      ByteRoundTrip(xs[0], ys[0], carry, decimal);
      RoundTrip(xs[1..], ys[1..], s.c, decimal);
      assert ([s.a] + rest.0)[1..] == rest.0;
      assert [xs[0]] + xs[1..] == xs;
    }
  }

  // ---- The processors -----------------------------------------------------------------------------------

  datatype Processor = Mos6510 | Wdc65C02 | Wdc65816

  method AddOne(cpu: Processor, x: Byte, y: Byte, carry: bool, decimal: bool) returns (z: Byte, c: bool)
    ensures z == Added(x, y, carry, decimal).a && c == Added(x, y, carry, decimal).c
  {
    var s;
    match cpu
    case Mos6510 => s := MosArithmetic.Adc(x, y, carry, decimal); z, c := s.a, s.c;
    case Wdc65C02 => s := Adders.Adc65C02(x, y, carry, decimal); z, c := s.a, s.c;
    case Wdc65816 => s := Adders.Adc65816Byte(x, y, carry, decimal); z, c := s.a, s.c;
  }

  lemma AddChainUnfolds(xs: seq<Byte>, ys: seq<Byte>, i: nat, carry: bool, decimal: bool)
    requires |xs| == |ys| && i < |xs|
    ensures var s := Added(xs[i], ys[i], carry, decimal);
            var rest := AddChain(xs[i + 1..], ys[i + 1..], s.c, decimal);
            AddChain(xs[i..], ys[i..], carry, decimal) == ([s.a] + rest.0, rest.1)
  {
    hide Added;
    assert xs[i..][1..] == xs[i + 1..] && ys[i..][1..] == ys[i + 1..];
  }

  /** What is done and what is left of a chain of additions. */
  ghost predicate Partly(xs: seq<Byte>, ys: seq<Byte>, carry: bool, decimal: bool, zs: seq<Byte>, c: bool)
    requires |xs| == |ys|
  {
    var whole := AddChain(xs, ys, carry, decimal);
    |zs| <= |xs| && var left := AddChain(xs[|zs|..], ys[|zs|..], c, decimal); whole == (zs + left.0, left.1)
  }

  lemma ChainExtends(xs: seq<Byte>, ys: seq<Byte>, carry: bool, decimal: bool, zs: seq<Byte>, c: bool)
    requires |xs| == |ys| && Partly(xs, ys, carry, decimal, zs, c) && |zs| < |xs|
    ensures var s := Added(xs[|zs|], ys[|zs|], c, decimal); Partly(xs, ys, carry, decimal, zs + [s.a], s.c)
  {
    hide Added, AddChain;
    var s := Added(xs[|zs|], ys[|zs|], c, decimal);
    AddChainUnfolds(xs, ys, |zs|, c, decimal);
    var rest := AddChain(xs[|zs| + 1..], ys[|zs| + 1..], s.c, decimal);
    assert zs + ([s.a] + rest.0) == zs + [s.a] + rest.0;
  }

  lemma ChainStarts(xs: seq<Byte>, ys: seq<Byte>, carry: bool, decimal: bool)
    requires |xs| == |ys|
    ensures Partly(xs, ys, carry, decimal, [], carry)
  {
    assert xs[0..] == xs && ys[0..] == ys;
    var r := AddChain(xs, ys, carry, decimal);
    assert [] + r.0 == r.0;
  }

  lemma ChainEnds(xs: seq<Byte>, ys: seq<Byte>, carry: bool, decimal: bool, zs: seq<Byte>, c: bool)
    requires |xs| == |ys| && Partly(xs, ys, carry, decimal, zs, c) && |zs| == |xs|
    ensures (zs, c) == AddChain(xs, ys, carry, decimal)
  {
    assert zs + [] == zs;
  }

  /** Each processor adds numbers of any length byte by byte, with the same bytes and carry as any other. */
  method AddBytes(cpu: Processor, xs: seq<Byte>, ys: seq<Byte>, carry: bool, decimal: bool) returns (zs: seq<Byte>, c: bool)
    requires |xs| == |ys|
    ensures (zs, c) == AddChain(xs, ys, carry, decimal)
  {
    hide Added, Partly, AddChain;
    zs, c := [], carry;
    ChainStarts(xs, ys, carry, decimal);
    while |zs| < |xs|
      invariant |zs| <= |xs| && Partly(xs, ys, carry, decimal, zs, c)
      decreases |xs| - |zs|
    {
      ChainExtends(xs, ys, carry, decimal, zs, c);
      var z;
      z, c := AddOne(cpu, xs[|zs|], ys[|zs|], c, decimal);
      zs := zs + [z];
    }
    ChainEnds(xs, ys, carry, decimal, zs, c);
  }

  /** And so does the 65816 with half as many 16-bit additions. */
  method AddWords(xs: seq<Byte>, ys: seq<Byte>, carry: bool, decimal: bool) returns (zs: seq<Byte>, c: bool)
    requires |xs| == |ys| && |xs| % 2 == 0
    ensures (zs, c) == AddChain(xs, ys, carry, decimal)
  {
    hide Added, Partly, AddChain;
    zs, c := [], carry;
    ChainStarts(xs, ys, carry, decimal);
    while |zs| < |xs|
      invariant |zs| <= |xs| && |zs| % 2 == 0 && Partly(xs, ys, carry, decimal, zs, c)
      decreases |xs| - |zs|
    {
      var i := |zs|;
      ghost var s := Added(xs[i], ys[i], c, decimal);
      ChainExtends(xs, ys, carry, decimal, zs, c);
      ChainExtends(xs, ys, carry, decimal, zs + [s.a], s.c);
      Halves(xs[i], xs[i + 1]);
      Halves(ys[i], ys[i + 1]);
      var w;
      w, c := Adders.Adc65816Word(Join(xs[i], xs[i + 1]), Join(ys[i], ys[i + 1]), c, decimal);
      Halves(s.a, Added(xs[i + 1], ys[i + 1], s.c, decimal).a);
      assert zs + [Low(w)] + [High(w)] == zs + [Low(w), High(w)];
      zs := zs + [Low(w), High(w)];
    }
    ChainEnds(xs, ys, carry, decimal, zs, c);
  }

  lemma Halves(lo: Byte, hi: Byte)
    ensures Low(Join(lo, hi)) == lo && High(Join(lo, hi)) == hi
  {
  }

  // ---- Subtraction --------------------------------------------------------------------------------------

  /** Does a 65C02 in decimal mode correct the low digit twice? */
  predicate Doubles(cpu: Processor, x: Byte, y: Byte, carry: bool, decimal: bool) {
    cpu.Wdc65C02? && decimal && Subtracters.Overcorrects(x, y, carry)
  }

  method SubOne(cpu: Processor, x: Byte, y: Byte, carry: bool, decimal: bool) returns (z: Byte, c: bool)
    ensures c == Subtracted(x, y, carry, decimal).c
    ensures z == Subtracted(x, y, carry, decimal).a <==> !Doubles(cpu, x, y, carry, decimal)
  {
    hide Subtracted;
    var s;
    match cpu
    case Mos6510 => s := MosArithmetic.Sbc(x, y, carry, decimal); z, c := s.a, s.c;
    case Wdc65C02 => s := Subtracters.Sbc65C02(x, y, carry, decimal); z, c := s.a, s.c;
    case Wdc65816 => s := Subtracters.Sbc65816Byte(x, y, carry, decimal); z, c := s.a, s.c;
  }

  /** Does it happen anywhere in a chain? */
  predicate ChainDoubles(cpu: Processor, xs: seq<Byte>, ys: seq<Byte>, carry: bool, decimal: bool)
    requires |xs| == |ys|
  {
    xs != []
    && (Doubles(cpu, xs[0], ys[0], carry, decimal)
        || ChainDoubles(cpu, xs[1..], ys[1..], Subtracted(xs[0], ys[0], carry, decimal).c, decimal))
  }

  /** Never with packed decimal operands. */
  lemma {:induction false} PackedNeverDoubles(cpu: Processor, xs: seq<Byte>, ys: seq<Byte>, carry: bool, decimal: bool)
    requires |xs| == |ys| && AllPacked(xs, decimal) && AllPacked(ys, decimal)
    ensures !ChainDoubles(cpu, xs, ys, carry, decimal)
  {
    hide Subtracted;
    if xs != [] {
      assert Packed(xs[0], decimal) && Packed(ys[0], decimal);
      PackedNeverDoubles(cpu, xs[1..], ys[1..], Subtracted(xs[0], ys[0], carry, decimal).c, decimal);
    }
  }

  lemma SubChainUnfolds(xs: seq<Byte>, ys: seq<Byte>, i: nat, carry: bool, decimal: bool)
    requires |xs| == |ys| && i < |xs|
    ensures var s := Subtracted(xs[i], ys[i], carry, decimal);
            var rest := SubChain(xs[i + 1..], ys[i + 1..], s.c, decimal);
            SubChain(xs[i..], ys[i..], carry, decimal) == ([s.a] + rest.0, rest.1)
  {
    hide Subtracted;
    assert xs[i..][1..] == xs[i + 1..] && ys[i..][1..] == ys[i + 1..];
  }

  lemma DoublesUnfolds(cpu: Processor, xs: seq<Byte>, ys: seq<Byte>, i: nat, carry: bool, decimal: bool)
    requires |xs| == |ys| && i < |xs|
    ensures ChainDoubles(cpu, xs[i..], ys[i..], carry, decimal)
            <==> Doubles(cpu, xs[i], ys[i], carry, decimal)
                 || ChainDoubles(cpu, xs[i + 1..], ys[i + 1..], Subtracted(xs[i], ys[i], carry, decimal).c, decimal)
  {
    hide Subtracted, Doubles;
    assert xs[i..][1..] == xs[i + 1..] && ys[i..][1..] == ys[i + 1..];
  }

  lemma SameFirst(a: seq<Byte>, b: seq<Byte>, x: Byte, y: Byte)
    requires |a| == |b|
    ensures a + [x] == b + [y] <==> a == b && x == y
  {
    if a + [x] == b + [y] {
      assert (a + [x])[..|a|] == a && (b + [y])[..|a|] == b && (a + [x])[|a|] == (b + [y])[|a|];
    }
  }

  /** Chains of SBCs agree as well: the carry always, and the bytes exactly if a 65C02 in decimal mode
      nowhere corrects a low digit twice. */
  method SubBytes(cpu: Processor, xs: seq<Byte>, ys: seq<Byte>, carry: bool, decimal: bool) returns (zs: seq<Byte>, c: bool)
    requires |xs| == |ys|
    ensures |zs| == |xs| && c == SubChain(xs, ys, carry, decimal).1
    ensures zs == SubChain(xs, ys, carry, decimal).0 <==> !ChainDoubles(cpu, xs, ys, carry, decimal)
  {
    hide Subtracted, SubChain, ChainDoubles, Doubles;
    zs, c := [], carry;
    ghost var whole, done := SubChain(xs, ys, carry, decimal), [];
    ghost var left := whole;
    ghost var exact := true;
    assert xs[0..] == xs && ys[0..] == ys && [] + left.0 == left.0;
    while |zs| < |xs|
      invariant |zs| == |done| <= |xs| && left == SubChain(xs[|zs|..], ys[|zs|..], c, decimal)
      invariant whole == (done + left.0, left.1) && (zs == done <==> exact)
      invariant ChainDoubles(cpu, xs, ys, carry, decimal) <==> !exact || ChainDoubles(cpu, xs[|zs|..], ys[|zs|..], c, decimal)
      decreases |xs| - |zs|
    {
      var i := |zs|;
      SubChainUnfolds(xs, ys, i, c, decimal);
      DoublesUnfolds(cpu, xs, ys, i, c, decimal);
      exact := exact && !Doubles(cpu, xs[i], ys[i], c, decimal);
      ghost var right := Subtracted(xs[i], ys[i], c, decimal).a;
      var z;
      z, c := SubOne(cpu, xs[i], ys[i], c, decimal);
      left := SubChain(xs[i + 1..], ys[i + 1..], c, decimal);
      assert done + ([right] + left.0) == done + [right] + left.0;
      SameFirst(zs, done, z, right);
      zs, done := zs + [z], done + [right];
    }
    SubChainEnds(cpu, xs[|zs|..], ys[|zs|..], c, decimal);
    assert done + [] == done;
  }

  lemma SubChainEnds(cpu: Processor, xs: seq<Byte>, ys: seq<Byte>, carry: bool, decimal: bool)
    requires xs == [] && ys == []
    ensures SubChain(xs, ys, carry, decimal) == ([], carry) && !ChainDoubles(cpu, xs, ys, carry, decimal)
  {
  }
}
