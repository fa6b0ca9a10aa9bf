/** What the instruction macros of the cycle-stepped core do with an operand: registers and flags.
    ADC, SBC, ARR and the flag instructions, which both cores write alike, are in MosCpu. */
module SteppedOps {
  import opened Words
  import opened Isa
  import opened LazyStatus
  import opened MosCpu

  // ---- Loaded operands --------------------------------------------------------------------------

  /** CP, which takes the register as an argument. */
  method Cp(c: Mos6510, reg: Byte, value: Byte)
    requires c.Valid()
    modifies c`p, c`flagN, c`flagZ
    ensures c.Valid() && c.Regs() == Isa.Compare(old(c.Regs()), reg, value)
  {
    hide Low;
    Borrowed(reg, value);
    var tmp := (reg - value) % 0x1_0000_0000;
    c.p := c.p.(c := tmp < 0x100);
    c.SetNZ(tmp % 0x100);
  }

  /** ORA, AND and EOR. */
  method Accumulate(c: Mos6510, op: ReadOp, value: Byte)
    requires c.Valid() && (op == ORA || op == AND || op == EOR)
    modifies c`a, c`flagN, c`flagZ
    ensures c.Valid() && c.Regs() == Isa.Operate(op, old(c.Regs()), value)
  {
    hide Or, And, Xor;
    c.a := if op == ORA then Or(c.a, value) else if op == AND then And(c.a, value) else Xor(c.a, value);
    c.SetNZ(c.a);
  }

  /** LD, which takes the register as an argument. */
  method Ld(c: Mos6510, op: ReadOp, value: Byte)
    requires c.Valid() && (op == LDA || op == LDX || op == LDY)
    modifies c`a, c`x, c`y, c`flagN, c`flagZ
    ensures c.Valid() && c.Regs() == Isa.Operate(op, old(c.Regs()), value)
  {
    if op == LDA {
      c.a := value;
      c.SetNZ(c.a);
    } else if op == LDX {
      c.x := value;
      c.SetNZ(c.x);
    } else {
      c.y := value;
      c.SetNZ(c.y);
    }
  }

  /** LAX and LAS. */
  method LoadRegisters(c: Mos6510, op: ReadOp, value: Byte)
    requires c.Valid() && (op == LAX || op == LAS)
    modifies c`a, c`x, c`sp, c`flagN, c`flagZ
    ensures c.Valid() && c.Regs() == Isa.Operate(op, old(c.Regs()), value)
  {
    hide And;
    if op == LAX {
      c.x := value;
      c.a := c.x;
    } else {
      c.sp := And(c.sp, value);
      c.x := c.sp;
      c.a := c.x;
    }
    c.SetNZ(c.a);
  }

  /** ANC, ASR, ANE and LXA, no cycles having been stolen. */
  method Immediate(c: Mos6510, op: ReadOp, value: Byte)
    requires c.Valid() && (op == ANC || op == ASR || op == ANE || op == LXA)
    modifies c`a, c`x, c`p, c`flagN, c`flagZ
    ensures c.Valid() && c.Regs() == Isa.Operate(op, old(c.Regs()), value)
  {
    hide And, Or, Added, Subtracted, RotatedAnd, Isa.Settle, Isa.Compare;
    if op == ANC {
      c.a := And(c.a, value);
      c.SetNZ(c.a);
      c.p := c.p.(c := Negative(c.flagN));
    } else if op == ASR {
      var tmp := And(c.a, value);
      c.p := c.p.(c := tmp % 2 == 1);
      c.a := tmp / 2;
      c.SetNZ(c.a);
    } else if op == ANE {
      c.a := And(And(Or(c.a, 0xef), c.x), value);
      c.SetNZ(c.a);
    } else {
      c.x := And(Or(c.a, 0xee), value);
      c.a := c.x;
      c.SetNZ(c.a);
    }
  }

  /** BIT. */
  method TestBits(c: Mos6510, value: Byte)
    requires c.Valid()
    modifies c`p, c`flagN, c`flagZ
    ensures c.Valid() && c.Regs() == Isa.Operate(BIT, old(c.Regs()), value)
  {
    c.flagN := if Negative(value) then 0x80 else 0;
    c.p := c.p.(v := value / 0x40 % 2 == 1);
    c.flagZ := if And(value, c.a) == 0 then 0 else 1;
  }

  /** SBX. */
  method SubtractX(c: Mos6510, value: Byte)
    requires c.Valid()
    modifies c`x, c`p, c`flagN, c`flagZ
    ensures c.Valid() && c.Regs() == Isa.Operate(SBX, old(c.Regs()), value)
  {
    hide And, Low;
    Borrowed(And(c.a, c.x), value);
    var tmp := (And(c.a, c.x) - value) % 0x1_0000_0000;
    c.p := c.p.(c := tmp < 0x100);
    c.x := tmp % 0x100;
    c.SetNZ(c.x);
  }

  /** Every macro that takes a loaded value. */
  method Operate(c: Mos6510, op: ReadOp, value: Byte)
    requires c.Valid()
    modifies c`a, c`x, c`y, c`sp, c`p, c`flagN, c`flagZ
    ensures c.Valid() && c.Regs() == Isa.Operate(op, old(c.Regs()), value)
  {
    hide And, Or, Xor, Added, Subtracted, RotatedAnd, Isa.Settle, SetA, Isa.Compare;
    if op == ADC {
      c.Adc(value);
    } else if op == SBC {
      c.Sbc(value);
    } else if op == ARR {
      c.Arr(value);
    } else if op == BIT {
      TestBits(c, value);
    } else if op == SBX {
      SubtractX(c, value);
    } else if op == CMP || op == CPX || op == CPY {
      Cp(c, if op == CMP then c.a else if op == CPX then c.x else c.y, value);
    } else if op == ORA || op == AND || op == EOR {
      Accumulate(c, op, value);
    } else if op == LDA || op == LDX || op == LDY {
      Ld(c, op, value);
    } else if op == LAX || op == LAS {
      LoadRegisters(c, op, value);
    } else if op != NOOP {
      Immediate(c, op, value);
    }
  }

  // ---- Read-modify-write ------------------------------------------------------------------------

  /** ASL. */
  method AslMacro(c: Mos6510, value: Byte) returns (r: Byte)
    requires c.Valid()
    modifies c`p, c`flagN, c`flagZ
    ensures c.Valid() && (c.Regs(), r) == Isa.Modify(ASL, old(c.Regs()), value)
  {
    hide And, Or, Xor;
    c.p := c.p.(c := Negative(value));
    r := 2 * value % 0x100;
    c.SetNZ(r);
  }

  /** LSR. */
  method LsrMacro(c: Mos6510, value: Byte) returns (r: Byte)
    requires c.Valid()
    modifies c`p, c`flagN, c`flagZ
    ensures c.Valid() && (c.Regs(), r) == Isa.Modify(LSR, old(c.Regs()), value)
  {
    hide And, Or, Xor;
    c.p := c.p.(c := value % 2 == 1);
    r := value / 2;
    c.SetNZ(r);
  }

  /** ROL. */
  method RolMacro(c: Mos6510, value: Byte) returns (r: nat)
    requires c.Valid()
    modifies c`p, c`flagN, c`flagZ
    ensures c.Valid() && (c.Regs(), Low(r)) == Isa.Modify(ROL, old(c.Regs()), value)
  {
    hide And, Or, Xor;
    r := 2 * value + Bit(c.p.c);
    c.p := c.p.(c := r >= 0x100);
    c.SetNZ(r % 0x100);
  }

  /** ROR. */
  method RorMacro(c: Mos6510, value: Byte) returns (r: nat)
    requires c.Valid()
    modifies c`p, c`flagN, c`flagZ
    ensures c.Valid() && (c.Regs(), Low(r)) == Isa.Modify(ROR, old(c.Regs()), value)
  {
    hide Low;
    CarryShifted(value, c.p.c);
    r := value;
    if c.p.c {
      r := r + 0x100;
    }
    c.p := c.p.(c := r % 2 == 1);
    r := r / 2;
    c.SetNZ(r);
  }

  /** INC and DEC. */
  method CountMacro(c: Mos6510, value: Byte, down: bool) returns (r: Byte)
    requires c.Valid()
    modifies c`flagN, c`flagZ
    ensures c.Valid() && (c.Regs(), r) == Isa.Modify(if down then DEC else INC, old(c.Regs()), value)
  {
    hide And, Or, Xor;
    r := (if down then value - 1 else value + 1) % 0x100;
    c.SetNZ(r);
  }

  /** SLO: the shifted value has nine bits; the accumulator and the store drop the ninth. */
  method SloMacro(c: Mos6510, value: Byte) returns (r: nat)
    requires c.Valid()
    modifies c`a, c`p, c`flagN, c`flagZ
    ensures c.Valid() && (c.Regs(), Low(r)) == Isa.Modify(SLO, old(c.Regs()), value)
  {
    hide And, Or;
    r := value;
    c.p := c.p.(c := Negative(value));
    r := 2 * r;
    OrLow(c.a, r);
    c.a := Low(c.a + r - And(c.a, r));
    c.SetNZ(c.a);
  }

  /** SRE. */
  method SreMacro(c: Mos6510, value: Byte) returns (r: nat)
    requires c.Valid()
    modifies c`a, c`p, c`flagN, c`flagZ
    ensures c.Valid() && (c.Regs(), Low(r)) == Isa.Modify(SRE, old(c.Regs()), value)
  {
    hide Xor;
    r := value;
    c.p := c.p.(c := value % 2 == 1);
    r := r / 2;
    c.a := Xor(c.a, r);
    c.SetNZ(c.a);
  }

  /** RLA: the accumulator meets nine bits. */
  method RlaMacro(c: Mos6510, value: Byte) returns (r: nat)
    requires c.Valid()
    modifies c`a, c`p, c`flagN, c`flagZ
    ensures c.Valid() && (c.Regs(), Low(r)) == Isa.Modify(RLA, old(c.Regs()), value)
  {
    hide And, Or, Xor;
    r := 2 * value + Bit(c.p.c);
    c.p := c.p.(c := r >= 0x100);
    AndLow(c.a, r);
    c.a := And(c.a, r);
    c.SetNZ(c.a);
  }

  /** RRA: the carry goes into a ninth bit before the shift, and N and Z are set twice. */
  method RraMacro(c: Mos6510, value: Byte) returns (r: nat)
    requires c.Valid()
    modifies c`a, c`p, c`flagN, c`flagZ
    ensures c.Valid() && (c.Regs(), Low(r)) == Isa.Modify(RRA, old(c.Regs()), value)
  {
    hide Added, Low;
    CarryShifted(value, c.p.c);
    r := value;
    if c.p.c {
      r := r + 0x100;
    }
    c.p := c.p.(c := r % 2 == 1);
    r := r / 2;
    c.SetNZ(r);
    c.Adc(r);
  }

  /** ISB. */
  method IsbMacro(c: Mos6510, value: Byte) returns (r: Byte)
    requires c.Valid()
    modifies c`a, c`p, c`flagN, c`flagZ
    ensures c.Valid() && (c.Regs(), r) == Isa.Modify(ISB, old(c.Regs()), value)
  {
    hide Subtracted;
    r := (value + 1) % 0x100;
    c.Sbc(r);
  }

  /** DCP. */
  method DcpMacro(c: Mos6510, value: Byte) returns (r: Byte)
    requires c.Valid()
    modifies c`p, c`flagN, c`flagZ
    ensures c.Valid() && (c.Regs(), r) == Isa.Modify(DCP, old(c.Regs()), value)
  {
    r := (value - 1) % 0x100;
    c.p := c.p.(c := c.a >= r);
    c.SetNZ(c.a - r);
  }

  /** Every read-modify-write macro, from the loaded value to what is handed to the store. */
  method Modify(c: Mos6510, op: RmwOp, value: Byte) returns (r: nat)
    requires c.Valid()
    modifies c`a, c`p, c`flagN, c`flagZ
    ensures c.Valid() && (c.Regs(), Low(r)) == Isa.Modify(op, old(c.Regs()), value)
  {
    hide Isa.Modify, Eager;
    match op
    case ASL => r := AslMacro(c, value);
    case LSR => r := LsrMacro(c, value);
    case ROL => r := RolMacro(c, value);
    case ROR => r := RorMacro(c, value);
    case INC => r := CountMacro(c, value, false);
    case DEC => r := CountMacro(c, value, true);
    case SLO => r := SloMacro(c, value);
    case SRE => r := SreMacro(c, value);
    case RLA => r := RlaMacro(c, value);
    case RRA => r := RraMacro(c, value);
    case ISB => r := IsbMacro(c, value);
    case DCP => r := DcpMacro(c, value);
  }

  // ---- Implied operations -------------------------------------------------------------------------

  /** ASL_A. */
  method AslA(c: Mos6510)
    requires c.Valid()
    modifies c`a, c`p, c`flagN, c`flagZ
    ensures c.Valid() && c.Regs() == Isa.Transfer(ASL_A, old(c.Regs()))
  {
    c.p := c.p.(c := Negative(c.a));
    c.a := Low(2 * c.a);
    c.SetNZ(c.a);
  }

  /** LSR_A. */
  method LsrA(c: Mos6510)
    requires c.Valid()
    modifies c`a, c`p, c`flagN, c`flagZ
    ensures c.Valid() && c.Regs() == Isa.Transfer(LSR_A, old(c.Regs()))
  {
    c.p := c.p.(c := c.a % 2 == 1);
    c.a := c.a / 2;
    c.SetNZ(c.a);
  }

  /** ROL_A: the carry comes from nine bits without the old one, N and Z from the accumulator. */
  method RolA(c: Mos6510)
    requires c.Valid()
    modifies c`a, c`p, c`flagN, c`flagZ
    ensures c.Valid() && c.Regs() == Isa.Transfer(ROL_A, old(c.Regs()))
  {
    hide And, Or, Xor;
    var tmp := 2 * c.a;
    c.a := Low(tmp + Bit(c.p.c));
    c.p := c.p.(c := tmp >= 0x100);
    c.SetNZ(c.a);
  }

  /** ROR_A. */
  method RorA(c: Mos6510)
    requires c.Valid()
    modifies c`a, c`p, c`flagN, c`flagZ
    ensures c.Valid() && c.Regs() == Isa.Transfer(ROR_A, old(c.Regs()))
  {
    hide Pack;
    var tmp := c.a;
    HighBits(tmp, c.p);
    c.a := Low(c.a / 2 + 0x80 * Pack(c.p));
    c.p := c.p.(c := tmp % 2 == 1);
    c.SetNZ(c.a);
  }

  /** INX, DEX, INY and DEY. */
  method Count(c: Mos6510, op: ImpliedOp)
    requires c.Valid() && Counts(op)
    modifies c`x, c`y, c`flagN, c`flagZ
    ensures c.Valid() && c.Regs() == Isa.Transfer(op, old(c.Regs()))
  {
    hide Low, Shifted, SetA;
    if op == DEY || op == INY {
      c.y := if op == DEY then Low(c.y - 1) else Low(c.y + 1);
      c.SetNZ(c.y);
    } else {
      c.x := if op == DEX then Low(c.x - 1) else Low(c.x + 1);
      c.SetNZ(c.x);
    }
  }

  /** Transfers between registers. */
  method Move(c: Mos6510, op: ImpliedOp)
    requires c.Valid() && Copies(op)
    modifies c`a, c`x, c`y, c`sp, c`flagN, c`flagZ
    ensures c.Valid() && c.Regs() == Isa.Transfer(op, old(c.Regs()))
  {
    hide Low, Shifted;
    if op == TXS {
      c.sp := c.x;
    } else if op == TXA || op == TYA {
      c.a := if op == TXA then c.x else c.y;
      c.SetNZ(c.a);
    } else if op == TSX {
      c.x := c.sp;
      c.SetNZ(c.sp);
    } else {
      if op == TAX {
        c.x := c.a;
      } else {
        c.y := c.a;
      }
      c.SetNZ(c.a);
    }
  }

  method Transfer(c: Mos6510, op: ImpliedOp)
    requires c.Valid()
    modifies c`a, c`x, c`y, c`sp, c`p, c`flagN, c`flagZ
    ensures c.Valid() && c.Regs() == Isa.Transfer(op, old(c.Regs()))
  {
    hide Shifted, SetA, Eager;
    if op == ASL_A {
      AslA(c);
    } else if op == LSR_A {
      LsrA(c);
    } else if op == ROL_A {
      RolA(c);
    } else if op == ROR_A {
      RorA(c);
    } else if SetsFlag(op) {
      c.SetFlag(op);
    } else if Counts(op) {
      Count(c, op);
    } else if op != NOP {
      Move(c, op);
    }
  }
}
