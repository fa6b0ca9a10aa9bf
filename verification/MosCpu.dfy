/** The state of a 6510 core and what both cores write in the same words: the lazy status
    register, ADC, SBC and ARR, the flag instructions and the stack.  Everything that the two
    cores write differently is in LumpedOps and LumpedCore, SteppedOps and SteppedCore. */
module MosCpu {
  import opened Words
  import opened Isa
  import opened LazyStatus
  import MosArithmetic

  predicate SetsFlag(op: ImpliedOp) {
    op.CLC? || op.CLD? || op.CLI? || op.CLV? || op.SEC? || op.SED? || op.SEI?
  }

  predicate Counts(op: ImpliedOp) {
    op.DEX? || op.DEY? || op.INX? || op.INY?
  }

  predicate Copies(op: ImpliedOp) {
    op.TAX? || op.TAY? || op.TSX? || op.TXA? || op.TXS? || op.TYA?
  }

  /** Of a status register shifted left by seven only the carry stays in the low byte. */
  lemma HighBits(v: Byte, p: Bits)
    ensures Low(v / 2 + 0x80 * Pack(p)) == v / 2 + 0x80 * Bit(p.c)
  {
    hide Pack, Low;
    PackCarry(p);
    var q := Pack(p) / 2;
    assert 0x80 * Pack(p) == 0x100 * q + 0x80 * Bit(p.c);
    LowIs(q, v / 2 + 0x80 * Bit(p.c));
  }

  /** A borrow shows above the low byte of a difference of unsigned ints. */
  lemma Borrowed(x: Byte, y: Byte)
    ensures var t := (x - y) % 0x1_0000_0000;
            (t < 0x100 <==> x >= y) && t % 0x100 == Low(x - y) && Low(t % 0x100) == Low(x - y)
  {
  }

  /** A carry put in a ninth bit reaches bit 7 in a shift to the right. */
  lemma CarryShifted(v: Byte, carry: bool)
    ensures var t := v + 0x100 * Bit(carry);
            t / 2 == v / 2 + 0x80 * Bit(carry) < 0x100 && t % 2 == v % 2 && Low(t / 2) == t / 2
  {
  }

  lemma OrIs(x: Byte, y: Byte)
    ensures Or(x, y) == x + y - And(x, y)
  {
    hide And;
  }

  /** The bitwise or with more than eight bits, cut to a byte. */
  lemma OrLow(x: Byte, y: nat)
    ensures Low(x + y - And(x, y)) == Or(x, Low(y))
  {
    hide And, Or, Low;
    AndLow(x, y);
    LowParts(y);
    OrIs(x, Low(y));
    assert x + y - And(x, y) == 0x100 * (y / 0x100) + Or(x, Low(y));
    LowIs(y / 0x100, Or(x, Low(y)));
  }

  class Mos6510 {
    var a: Byte
    var x: Byte
    var y: Byte
    var sp: Byte
    var pc: nat  // an unsigned int: it may run past $ffff, and memory accesses truncate it
    var p: Bits
    var flagN: Byte
    var flagZ: Byte
    var clk: nat
    var mem: Memory

    ghost predicate Valid()
      reads this
    {
      Clean(p)
    }

    ghost function Regs(): Regs
      reads this
    {
      Isa.Regs.Regs(a, x, y, sp, Eager(p, flagN, flagZ))
    }

    /** What the reference machine sees of this one. */
    ghost function Abs(): Cpu
      reads this
    {
      Cpu(Regs(), Trunc(pc), mem)
    }

    constructor (s: Cpu, clk: nat)
      ensures Valid() && Abs() == s && this.clk == clk
    {
      a, x, y, sp, pc, mem, this.clk := s.r.a, s.r.x, s.r.y, s.r.sp, s.pc, s.mem, clk;
      p := Bits(false, s.r.f.v, false, s.r.f.b, s.r.f.d, s.r.f.i, false, s.r.f.c);
      flagN := 0x80 * Bit(s.r.f.n);
      flagZ := Bit(!s.r.f.z);
    }

    /** LOCAL_SET_NZ; the two fields keep the low byte of what they are given. */
    method SetNZ(val: int)
      modifies `flagN, `flagZ
      ensures flagN == flagZ == Low(val)
    {
      flagN, flagZ := Low(val), Low(val);
    }

    /** The flag assignments that ADC, SBC and ARR make one by one. */
    method Settle(r: Sum)
      requires Valid()
      modifies `a, `p, `flagN, `flagZ
      ensures Valid() && Regs() == Isa.Settle(old(Regs()), r)
    {
      flagZ := Bit(!r.z);
      flagN := 0x80 * Bit(r.n);
      p := p.(v := r.v);
      p := p.(c := r.c);
      a := r.a;
    }

    method Adc(value: Byte)
      requires Valid()
      modifies `a, `p, `flagN, `flagZ
      ensures Valid() && Regs() == Isa.Operate(ADC, old(Regs()), value)
    {
      var r := MosArithmetic.Adc(a, value, p.c, p.d);
      Settle(r);
    }

    method Sbc(value: Byte)
      requires Valid()
      modifies `a, `p, `flagN, `flagZ
      ensures Valid() && Regs() == Isa.Operate(SBC, old(Regs()), value)
    {
      var r := MosArithmetic.Sbc(a, value, p.c, p.d);
      Settle(r);
    }

    method Arr(value: Byte)
      requires Valid()
      modifies `a, `p, `flagN, `flagZ
      ensures Valid() && Regs() == Isa.Operate(ARR, old(Regs()), value)
    {
      var r := MosArithmetic.Arr(And(a, value), p.c, p.d);
      Settle(r);
    }

    // ---- Flag instructions ------------------------------------------------------------------

    method SetFlag(op: ImpliedOp)
      requires Valid() && SetsFlag(op)
      modifies `p
      ensures Valid() && Regs() == Isa.Transfer(op, old(Regs()))
    {
      hide Isa.Transfer, Regs, Valid;
      if op.CLC? || op.SEC? {
        SetCarry(op);
      } else if op.CLD? || op.SED? {
        SetDecimal(op);
      } else {
        SetInterruptOrOverflow(op);
      }
    }

    method SetCarry(op: ImpliedOp)
      requires Valid() && (op.CLC? || op.SEC?)
      modifies `p
      ensures Valid() && Regs() == Isa.Transfer(op, old(Regs()))
    {
      hide Shifted, SetA, Flags.NZ;
      p := p.(c := op.SEC?);
    }

    method SetDecimal(op: ImpliedOp)
      requires Valid() && (op.CLD? || op.SED?)
      modifies `p
      ensures Valid() && Regs() == Isa.Transfer(op, old(Regs()))
    {
      hide Shifted, SetA, Flags.NZ;
      p := p.(d := op.SED?);
    }

    method SetInterruptOrOverflow(op: ImpliedOp)
      requires Valid() && (op.CLI? || op.SEI? || op.CLV?)
      modifies `p
      ensures Valid() && Regs() == Isa.Transfer(op, old(Regs()))
    {
      hide Shifted, SetA, Flags.NZ;
      if op.CLV? {
        p := p.(v := false);
      } else {
        p := p.(i := op.SEI?);
      }
    }

    // ---- Stack and status ------------------------------------------------------------------

    method Push(val: Byte)
      modifies `mem, `sp
      ensures Abs() == Isa.Push(old(Abs()), val)
    {
      mem := mem[0x100 + sp := val];
      sp := Low(sp - 1);
    }

    method Pull() returns (val: Byte)
      modifies `sp
      ensures (Abs(), val) == Isa.Pull(old(Abs()))
    {
      sp := Low(sp + 1);
      val := Load(mem, 0x100 + sp);
    }

    /** LOCAL_SET_STATUS. */
    method SetStatus(val: Byte)
      modifies `p, `flagN, `flagZ
      ensures Valid() && Regs() == old(Regs()).(f := FromByte(val))
    {
      hide Unpack;
      UnpackSign(val);
      p := Unpack(val).(n := false, z := false);
      flagZ := Bit(!Unpack(val).z);
      flagN := val;
    }

    predicate Condition(cond: Isa.Condition)
      reads this
      ensures Condition(cond) == Holds(cond, Regs().f)
    {
      match cond
      case Sign => Negative(flagN)
      case Overflow => p.v
      case Carry => p.c
      case Zero => flagZ == 0
    }
  }
}
