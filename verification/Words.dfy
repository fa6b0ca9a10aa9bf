/** Bytes and words as bounded integers.  C's implicit truncations are written out. */
module Words {

  type Byte = x: int | 0 <= x < 0x100
  type Word = x: int | 0 <= x < 0x1_0000

  /** The memory of an 8-bit machine; a cell that was never written reads as zero. */
  type Memory = map<Word, Byte>

  function Low(x: int): (r: Byte)
    ensures 0 <= x < 0x100 ==> r == x
    ensures 0x100 <= x < 0x200 ==> r == x - 0x100
    ensures -0x100 <= x < 0 ==> r == x + 0x100
  {
    x % 0x100
  }

  function Trunc(x: int): (r: Word)
    ensures 0 <= x < 0x1_0000 ==> r == x
    ensures 0x1_0000 <= x < 0x2_0000 ==> r == x - 0x1_0000
    ensures -0x1_0000 <= x < 0 ==> r == x + 0x1_0000
  {
    x % 0x1_0000
  }

  function High(w: Word): Byte {
    w / 0x100
  }

  function Join(lo: Byte, hi: Byte): Word {
    0x100 * hi + lo
  }

  function Bit(on: bool): Byte {
    if on then 1 else 0
  }

  predicate Negative(x: Byte) {
    x >= 0x80
  }

  function Load(m: Memory, addr: Word): Byte {
    if addr in m then m[addr] else 0
  }

  function LoadWord(m: Memory, addr: Word): Word {
    Join(Load(m, addr), Load(m, Trunc(addr + 1)))
  }

  /** A pointer in page zero; the address of its high byte wraps inside the page. */
  function LoadZeroWord(m: Memory, addr: Byte): Word {
    Join(Load(m, addr), Load(m, Low(addr + 1)))
  }

  // ---- Bitwise operators, bit by bit ---------------------------------------------------

  function And(x: nat, y: nat): (r: nat)
    ensures r <= x && r <= y
  {
    if x == 0 || y == 0 then 0 else 2 * And(x / 2, y / 2) + Bit(x % 2 == 1 && y % 2 == 1)
  }

  function Or(x: Byte, y: Byte): Byte {
    OrFits(x, y, 8);
    assert Pow2(8) == 0x100;
    x + y - And(x, y)
  }

  function Xor(x: Byte, y: Byte): Byte {
    OrFits(x, y, 8);
    assert Pow2(8) == 0x100;
    x + y - 2 * And(x, y)
  }

  ghost function Pow2(n: nat): nat {
    if n == 0 then 1 else 2 * Pow2(n - 1)
  }

  lemma OrFits(x: nat, y: nat, n: nat)
    requires x < Pow2(n) && y < Pow2(n)
    ensures x + y - And(x, y) < Pow2(n)
  {
    if n > 0 {
      OrFits(x / 2, y / 2, n - 1);
    }
  }

  /** Bits above the eighth do not meet a byte. */
  lemma AndLow(x: Byte, y: nat)
    ensures And(x, y) == And(x, Low(y))
  {
    assert Pow2(8) == 0x100;
    AndBelow(x, Low(y), y / 0x100, 8);
  }

  lemma {:induction false} AndBelow(x: nat, y: nat, h: nat, n: nat)
    requires x < Pow2(n)
    ensures And(x, y + Pow2(n) * h) == And(x, y)
  {
    if n > 0 && x > 0 {
      var k := Pow2(n - 1) * h;
      assert Pow2(n) * h == 2 * k;
      assert (y + 2 * k) / 2 == y / 2 + k && (y + 2 * k) % 2 == y % 2;
      AndBelow(x / 2, y / 2, h, n - 1);
      AndZero(x, y, k);
    }
  }

  /** One step of the recursion, also where it stops early. */
  lemma AndZero(x: nat, y: nat, k: nat)
    requires x > 0
    ensures And(x, y) == 2 * And(x / 2, y / 2) + Bit(x % 2 == 1 && y % 2 == 1)
    ensures And(x, y + 2 * k) == 2 * And(x / 2, y / 2 + k) + Bit(x % 2 == 1 && y % 2 == 1)
  {
  }

  // ---- A byte as its eight bits ------------------------------------------------------------

  /** The bits of a status register, most significant first. */
  datatype Bits = Bits(n: bool, v: bool, u: bool, b: bool, d: bool, i: bool, z: bool, c: bool)

  function Flag(p: Bits, i: nat): bool {
    match i case 0 => p.c case 1 => p.z case 2 => p.i case 3 => p.d case 4 => p.b case 5 => p.u case 6 => p.v case _ => p.n
  }

  predicate BitAt(x: nat, i: nat) {
    if i == 0 then x % 2 == 1 else BitAt(x / 2, i - 1)
  }

  predicate Encodes(x: Byte, p: Bits) {
    forall i :: 0 <= i < 8 ==> (BitAt(x, i) <==> Flag(p, i))
  }

  lemma {:induction false} Number(bits: seq<bool>) returns (x: nat)
    ensures x < Pow2(|bits|) && forall i :: 0 <= i < |bits| ==> BitAt(x, i) == bits[i]
  {
    if bits == [] {
      x := 0;
    } else {
      var high := Number(bits[1..]);
      x := 2 * high + Bit(bits[0]);
    }
  }

  lemma {:induction false} SameBits(x: nat, y: nat, n: nat)
    requires x < Pow2(n) && y < Pow2(n) && forall i :: 0 <= i < n ==> BitAt(x, i) == BitAt(y, i)
    ensures x == y
  {
    if n > 0 {
      assert BitAt(x, 0) == BitAt(y, 0);
      forall i | 0 <= i < n - 1 ensures BitAt(x / 2, i) == BitAt(y / 2, i) {
        assert BitAt(x, i + 1) == BitAt(y, i + 1);
      }
      SameBits(x / 2, y / 2, n - 1);
    }
  }

  lemma {:induction false} TopBit(x: nat, n: nat)
    requires x < 2 * Pow2(n)
    ensures BitAt(x, n) <==> x >= Pow2(n)
  {
    if n > 0 {
      TopBit(x / 2, n - 1);
    }
  }

  lemma BitByBit(x: Byte, p: Bits)
    requires BitAt(x, 0) == p.c && BitAt(x, 1) == p.z && BitAt(x, 2) == p.i && BitAt(x, 3) == p.d
    requires BitAt(x, 4) == p.b && BitAt(x, 5) == p.u && BitAt(x, 6) == p.v && BitAt(x, 7) == p.n
    ensures Encodes(x, p)
  {
    hide BitAt;
    forall i | 0 <= i < 8 ensures BitAt(x, i) <==> Flag(p, i) {
    }
  }

  /** Every reading of eight bits has exactly one byte. */
  lemma EncodedOnce(p: Bits)
    ensures exists x: Byte :: Encodes(x, p)
    ensures forall x: Byte, y: Byte :: Encodes(x, p) && Encodes(y, p) ==> x == y
  {
    hide BitAt, Encodes;
    SomeByte(p);
    forall x: Byte, y: Byte | Encodes(x, p) && Encodes(y, p) ensures x == y {
      OneByte(x, y, p);
    }
  }

  lemma SomeByte(p: Bits)
    ensures exists x: Byte :: Encodes(x, p)
  {
    hide BitAt, Encodes;
    assert Pow2(8) == 0x100;
    var bits := [p.c, p.z, p.i, p.d, p.b, p.u, p.v, p.n];
    var x := Number(bits);
    BitByBit(x, p);
  }

  lemma OneByte(x: Byte, y: Byte, p: Bits)
    requires Encodes(x, p) && Encodes(y, p)
    ensures x == y
  {
    hide BitAt;
    assert Pow2(8) == 0x100;
    SameBits(x, y, 8);
  }

  lemma SameFlags(x: Byte, p: Bits, q: Bits)
    requires Encodes(x, p) && Encodes(x, q)
    ensures p == q
  {
    hide BitAt;
    assert forall i :: 0 <= i < 8 ==> Flag(p, i) == (BitAt(x, i)) == Flag(q, i);
    assert Flag(p, 0) == Flag(q, 0) && Flag(p, 1) == Flag(q, 1) && Flag(p, 2) == Flag(q, 2) && Flag(p, 3) == Flag(q, 3);
    assert Flag(p, 4) == Flag(q, 4) && Flag(p, 5) == Flag(q, 5) && Flag(p, 6) == Flag(q, 6) && Flag(p, 7) == Flag(q, 7);
  }

  lemma Reading(x: Byte)
    ensures exists p :: Encodes(x, p)
  {
    hide BitAt, Encodes;
    BitByBit(x, Bits(BitAt(x, 7), BitAt(x, 6), BitAt(x, 5), BitAt(x, 4), BitAt(x, 3), BitAt(x, 2), BitAt(x, 1), BitAt(x, 0)));
  }

  /** Every byte has exactly one reading as eight bits. */
  lemma DecodedOnce(x: Byte)
    ensures exists p :: Encodes(x, p)
    ensures forall p, q :: Encodes(x, p) && Encodes(x, q) ==> p == q
  {
    hide BitAt, Encodes;
    Reading(x);
    forall p, q | Encodes(x, p) && Encodes(x, q) ensures p == q {
      SameFlags(x, p, q);
    }
  }

  /** The byte of eight bits. */
  function Pack(p: Bits): (x: Byte)
    ensures Encodes(x, p)
  {
    EncodedOnce(p);
    var x: Byte :| Encodes(x, p);
    x
  }

  /** The eight bits of a byte. */
  function Unpack(x: Byte): (p: Bits)
    ensures Encodes(x, p)
  {
    DecodedOnce(x);
    var p :| Encodes(x, p);
    p
  }

  lemma UnpackPack(p: Bits)
    ensures Unpack(Pack(p)) == p
  {
    DecodedOnce(Pack(p));
  }

  lemma PackUnpack(x: Byte)
    ensures Pack(Unpack(x)) == x
  {
    EncodedOnce(Unpack(x));
  }

  lemma PackInjective(p: Bits, q: Bits)
    ensures Pack(p) == Pack(q) <==> p == q
  {
    UnpackPack(p);
    UnpackPack(q);
  }

  /** Bit 7 is the sign. */
  lemma UnpackSign(x: Byte)
    ensures Unpack(x).n == Negative(x)
  {
    assert Pow2(7) == 0x80;
    TopBit(x, 7);
    assert BitAt(x, 7) == Flag(Unpack(x), 7);
  }

  /** Bit 0 is the carry. */
  lemma PackCarry(p: Bits)
    ensures Pack(p) % 2 == Bit(p.c)
  {
    assert BitAt(Pack(p), 0) == Flag(p, 0);
  }

  // ---- Facts about truncated addresses ----------------------------------------------------

  lemma TruncAdd(x: int, n: int)
    ensures Trunc(Trunc(x) + n) == Trunc(x + n)
  {
    hide Trunc;
    TruncParts(x);
    TruncParts(Trunc(x) + n);
    var q, r := (Trunc(x) + n) / 0x1_0000, Trunc(Trunc(x) + n);
    assert x + n == 0x1_0000 * (x / 0x1_0000 + q) + r;
    TruncIs(x / 0x1_0000 + q, r);
  }

  /** Adding an index carries out of the low byte exactly when it changes the high byte. */
  lemma PageCrossed(base: Word, index: Byte)
    ensures High(Trunc(base + index)) != High(base) <==> base % 0x100 + index > 0xff
  {
  }

  lemma LowIs(q: int, r: int)
    requires 0 <= r < 0x100
    ensures Low(0x100 * q + r) == r
  {
  }

  lemma LowMod(x: int)
    ensures Low(x) == x % 0x100
  {
  }

  lemma TruncIs(q: int, r: int)
    requires 0 <= r < 0x1_0000
    ensures Trunc(0x1_0000 * q + r) == r
  {
  }

  lemma LowAdd(x: int, n: int)
    ensures Low(Low(x) + n) == Low(x + n)
  {
    hide Low;
    LowParts(x);
    LowParts(Low(x) + n);
    var q, r := (Low(x) + n) / 0x100, Low(Low(x) + n);
    assert x + n == 0x100 * (x / 0x100 + q) + r;
    LowIs(x / 0x100 + q, r);
  }

  lemma LowParts(x: int)
    ensures x == 0x100 * (x / 0x100) + Low(x)
  {
  }

  lemma TruncParts(x: int)
    ensures x == 0x1_0000 * (x / 0x1_0000) + Trunc(x)
  {
  }

  lemma LowTrunc(x: int)
    ensures Low(Trunc(x)) == Low(x)
  {
    hide Low, Trunc;
    TruncParts(x);
    LowParts(Trunc(x));
    var q := 0x100 * (x / 0x1_0000) + Trunc(x) / 0x100;
    assert x == 0x100 * q + Low(Trunc(x));
    LowIs(q, Low(Trunc(x)));
  }

  lemma StoreTwice(m: Memory, a: Word, v: Byte, w: Byte)
    ensures m[a := v][a := w] == m[a := w]
  {
  }
}
