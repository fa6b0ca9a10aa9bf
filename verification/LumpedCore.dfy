/** The lumped-clock 6510 core: an instruction fetches its bytes and charges its cycles to the
    clock in a few additions. */
module LumpedCore {
  import opened Words
  import opened Isa
  import opened LazyStatus
  import opened FetchTable
  import opened MosCpu
  import Ops = LumpedOps
  import opened LumpedSwitch

  // ---- Addressing macros -----------------------------------------------------------------

  /** FETCH_OPCODE, from cached memory or byte by byte. */
  method FetchOpcode(c: Mos6510, cached: bool) returns (ins: Byte, p1: Byte, p2: Word)
    modifies c`clk
    ensures ins == Load(c.mem, Trunc(c.pc))
    ensures Operands(c.Abs(), if FetchTab(ins) then 3 else 2, p1, p2)
    ensures c.clk == old(c.clk) + if FetchTab(ins) then 3 else 2
  {
    TruncAdd(c.pc, 1);
    TruncAdd(c.pc + 1, 1);
    ins, p1 := Load(c.mem, Trunc(c.pc)), Load(c.mem, Trunc(c.pc + 1));
    p2 := p1;
    if cached {
      p2 := Join(p1, Load(c.mem, Trunc(c.pc + 2)));
      c.clk := c.clk + 2;
      if FetchTab(ins) {
        c.clk := c.clk + 1;
      }
    } else {
      c.clk := c.clk + 1;
      c.clk := c.clk + 1;
      if FetchTab(ins) {
        p2 := Join(p1, Load(c.mem, Trunc(c.pc + 2)));
        c.clk := c.clk + 1;
      }
    }
  }

  /** LOAD_ABS_X and LOAD_ABS_Y: one more cycle when the index crosses a page. */
  method LoadIndexed(c: Mos6510, base: Word, index: Byte) returns (v: Byte)
    modifies c`clk
    ensures v == Load(c.mem, Trunc(base + index))
    ensures c.clk == old(c.clk) + Bit(High(Trunc(base + index)) != High(base))
  {
    PageCrossed(base, index);
    if base % 0x100 + index > 0xff {
      c.clk := c.clk + 1;
    }
    v := Load(c.mem, Trunc(base + index));
  }

  method LoadOperand(c: Mos6510, load: LoadMacro, p1: Byte, p2: Word) returns (v: Byte)
    requires Operands(c.Abs(), Length(LoadMode(load)), p1, p2)
    modifies c`clk
    ensures v == Load(c.mem, Address(LoadMode(load), c.Abs()))
    ensures c.clk == old(c.clk) + LoadClk(load) + Bit(Crosses(LoadMode(load), c.Abs()))
  {
    hide LoadWord, LoadZeroWord, Trunc, High;
    match load
    case Operand => v := p1;
    case LoadZero => v := Load(c.mem, p1);
    case LoadZeroX => v := Load(c.mem, Low(p1 + c.x));
    case LoadZeroY => v := Load(c.mem, Low(p1 + c.y));
    case LoadAbs => v := Load(c.mem, p2);
    case LoadAbsX => v := LoadIndexed(c, p2, c.x);
    case LoadAbsY => v := LoadIndexed(c, p2, c.y);
    case LoadIndX => v := LoadIndirectX(c, p1);
    case LoadIndY => v := LoadIndirectY(c, p1);
  }

  method LoadIndirectX(c: Mos6510, p1: Byte) returns (v: Byte)
    modifies c`clk
    ensures v == Load(c.mem, LoadZeroWord(c.mem, Low(p1 + c.x))) && c.clk == old(c.clk) + 3
  {
    hide Low;
    c.clk := c.clk + 3;
    LowAdd(p1 + c.x, 1);
    var tmpa := Join(Load(c.mem, Low(p1 + c.x)), Load(c.mem, Low(p1 + c.x + 1)));
    v := Load(c.mem, tmpa);
  }

  method LoadIndirectY(c: Mos6510, p1: Byte) returns (v: Byte)
    modifies c`clk
    ensures var base := LoadZeroWord(c.mem, p1);
            v == Load(c.mem, Trunc(base + c.y)) && c.clk == old(c.clk) + 2 + Bit(High(Trunc(base + c.y)) != High(base))
  {
    hide Trunc, High;
    c.clk := c.clk + 2;
    var tmpa := Join(Load(c.mem, p1), Load(c.mem, Low(p1 + 1)));
    v := LoadIndexed(c, tmpa, c.y);
  }

  method AddressArgument(c: Mos6510, addr: AddrMacro, p1: Byte, p2: Word) returns (a: Word)
    requires Operands(c.Abs(), if addr.P2? then 3 else 2, p1, p2)
    ensures a == if addr.P2? then Base(Abs, c.Abs()) else Address(AddrMode(addr, Plain), c.Abs())
  {
    match addr
    case P1 => a := p1;
    case P1X => a := Low(p1 + c.x);
    case P1Y => a := Low(p1 + c.y);
    case P2 => a := p2;
    case IndirectX => a := LoadZeroWord(c.mem, Low(p1 + c.x));
  }

  function Offset(indexing: Indexing, x: Byte, y: Byte): Byte {
    match indexing case Plain => 0 case PlusX => x case PlusY => y
  }

  // ---- Instruction macros -----------------------------------------------------------------

  /** ORA, AND, ..., SBX: load, charge the cycles passed in, operate, advance. */
  method ValueMacro(c: Mos6510, op: ReadOp, load: LoadMacro, clkInc: nat, pcInc: nat, p1: Byte, p2: Word)
    requires c.Valid() && pcInc == Length(LoadMode(load))
    requires Operands(c.Abs(), pcInc, p1, p2)
    modifies c
    ensures c.Valid() && c.Abs() == Execute(Read(op, LoadMode(load)), old(c.Abs()))
    ensures c.clk == old(c.clk) + LoadClk(load) + Bit(Crosses(LoadMode(load), old(c.Abs()))) + clkInc
  {
    hide Operate, Modify, Transfer, Enter, PushWord, PullWord, Target, FromByte, Address, Crosses, StoreOperand;
    TruncAdd(c.pc, pcInc);
    var value := LoadOperand(c, load, p1, p2);
    Ops.Operate(c, op, value);
    c.clk := c.clk + clkInc;
    c.pc := c.pc + pcInc;
  }

  /** ASL, ..., DCP: load, store the old value back, modify, store the new one. */
  method ChangeMacro(c: Mos6510, op: RmwOp, addr: AddrMacro, clkInc: nat, pcInc: nat, indexing: Indexing, p1: Byte, p2: Word)
    requires c.Valid() && Meaningful(addr, indexing) && pcInc == Length(AddrMode(addr, indexing))
    requires Operands(c.Abs(), pcInc, p1, p2)
    modifies c
    ensures c.Valid() && c.Abs() == Execute(Rmw(op, AddrMode(addr, indexing)), old(c.Abs()))
    ensures c.clk == old(c.clk) + clkInc + 3 + Bit(!indexing.Plain?)
  {
    hide Operate, Modify, Transfer, Enter, PushWord, PullWord, Target, FromByte;
    TruncAdd(c.pc, pcInc);
    var tmpAddr := AddressArgument(c, addr, p1, p2);
    c.clk := c.clk + clkInc;
    if !indexing.Plain? {
      c.clk := c.clk + 1;  // the idle read of LOAD_ABS_X_RMW
    }
    var at := Trunc(tmpAddr + Offset(indexing, c.x, c.y));
    assert at == Address(AddrMode(addr, indexing), c.Abs());
    Rewrite(c, op, at, pcInc);
  }

  /** What every read-modify-write macro does once it has its address. */
  method Rewrite(c: Mos6510, op: RmwOp, at: Word, pcInc: nat)
    requires c.Valid()
    modifies c
    ensures c.Valid() && c.clk == old(c.clk) + 3
    ensures c.pc == old(c.pc) + pcInc
    ensures var m := Modify(op, old(c.Regs()), Load(old(c.mem), at));
            c.Regs() == m.0 && c.mem == old(c.mem)[at := m.1]
  {
    var tmp := Load(c.mem, at);
    c.clk := c.clk + 1;
    c.clk := c.clk + 1;
    c.mem := c.mem[at := tmp];
    var result := Ops.Modify(c, op, tmp);
    c.pc := c.pc + pcInc;
    c.clk := c.clk + 1;
    StoreTwice(old(c.mem), at, tmp, Low(result));
    c.mem := c.mem[at := Low(result)];
  }

  /** SLO_IND_Y, ..., DCP_IND_Y. */
  method ChangeIndYMacro(c: Mos6510, op: RmwOp, p1: Byte)
    requires c.Valid() && Operands(c.Abs(), 2, p1, 0)
    modifies c
    ensures c.Valid() && c.Abs() == Execute(Rmw(op, IndY), old(c.Abs()))
    ensures c.clk == old(c.clk) + 6
  {
    TruncAdd(c.pc, 2);
    var tmpAddr := LoadZeroWord(c.mem, p1);
    c.clk := c.clk + 2;
    c.clk := c.clk + 1;
    tmpAddr := Trunc(tmpAddr + c.y);
    Rewrite(c, op, tmpAddr, 2);
  }

  /** STA, STX, STY and SAX. */
  method PutMacro(c: Mos6510, op: StoreOp, addr: AddrMacro, clkInc: nat, pcInc: nat, indexing: Indexing, p1: Byte, p2: Word)
    requires c.Valid() && Meaningful(addr, indexing) && pcInc == Length(AddrMode(addr, indexing))
    requires Operands(c.Abs(), pcInc, p1, p2) && Unmasked(op)
    modifies c
    ensures c.Valid() && c.Abs() == Execute(Store(op, AddrMode(addr, indexing)), old(c.Abs()))
    ensures c.clk == old(c.clk) + clkInc
  {
    hide Operate, Modify, Transfer, Enter, PushWord, PullWord, Target, FromByte, And, LoadWord, LoadZeroWord;
    TruncAdd(c.pc, pcInc);
    var tmp := AddressArgument(c, addr, p1, p2);
    var at := Trunc(tmp + Offset(indexing, c.x, c.y));
    assert at == Address(AddrMode(addr, indexing), c.Abs());
    UnmaskedStore(op, AddrMode(addr, indexing), c.Abs());
    c.clk := c.clk + clkInc;
    c.pc := c.pc + pcInc;
    StoreRegister(c, op, at);
  }

  method StoreRegister(c: Mos6510, op: StoreOp, at: Word)
    requires Unmasked(op)
    modifies c`mem
    ensures c.mem == old(c.mem)[at := Stored(op, c.Regs())]
  {
    c.mem := c.mem[at := if op == STA then c.a else if op == STX then c.x else if op == STY then c.y else And(c.a, c.x)];
  }

  method PutIndYMacro(c: Mos6510, p1: Byte)
    requires c.Valid() && Operands(c.Abs(), 2, p1, 0)
    modifies c
    ensures c.Valid() && c.Abs() == Execute(Store(STA, IndY), old(c.Abs()))
    ensures c.clk == old(c.clk) + 4
  {
    TruncAdd(c.pc, 2);
    var tmp := LoadZeroWord(c.mem, p1);
    c.clk := c.clk + 2;
    c.clk := c.clk + 2;
    c.pc := c.pc + 2;
    c.mem := c.mem[Trunc(tmp + c.y) := c.a];
  }

  /** STORE_ABS_SH_X and STORE_ABS_SH_Y: on a page crossing the value becomes the page. */
  method StoreShifted(c: Mos6510, base: Word, index: Byte, reg: Byte)
    modifies c`mem
    ensures var at := Trunc(base + index);
            var value := And(reg, High(base) + 1);
            c.mem == old(c.mem)[if High(at) != High(base) then Join(Low(at), value) else at := value]
  {
    PageCrossed(base, index);
    var value := And(reg, High(base) + 1);
    var tmp2 := Trunc(base + index);
    if base % 0x100 + index > 0xff {
      tmp2 := Join(Low(tmp2), value);
    }
    c.mem := c.mem[tmp2 := value];
  }

  /** SHA_ABS_Y and SHX_ABS_Y. */
  method PutMaskedYMacro(c: Mos6510, op: StoreOp, p2: Word)
    requires c.Valid() && p2 == Base(AbsY, c.Abs()) && (op.SHA? || op.SHX?)
    modifies c
    ensures c.Valid() && c.Abs() == Execute(Store(op, AbsY), old(c.Abs()))
    ensures c.clk == old(c.clk) + 2
  {
    hide Operate, Modify, Transfer, Enter, PushWord, PullWord, Target, FromByte, And, LoadWord, LoadZeroWord;
    TruncAdd(c.pc, 3);
    c.pc := c.pc + 3;
    c.clk := c.clk + 2;
    StoreShifted(c, p2, c.y, if op == SHX then c.x else And(c.a, c.x));
  }

  /** SHS_ABS_Y. */
  method ShsMacro(c: Mos6510, p2: Word)
    requires c.Valid() && p2 == Base(AbsY, c.Abs())
    modifies c
    ensures c.Valid() && c.Abs() == Execute(Store(SHS, AbsY), old(c.Abs()))
    ensures c.clk == old(c.clk) + 2
  {
    hide Operate, Modify, Transfer, Enter, PushWord, PullWord, Target, FromByte, And, LoadWord, LoadZeroWord;
    TruncAdd(c.pc, 3);
    c.pc := c.pc + 3;
    c.clk := c.clk + 2;
    StoreShifted(c, p2, c.y, And(c.a, c.x));
    c.sp := And(c.a, c.x);
  }

  /** SHY_ABS_X. */
  method ShyMacro(c: Mos6510, p2: Word)
    requires c.Valid() && p2 == Base(AbsX, c.Abs())
    modifies c
    ensures c.Valid() && c.Abs() == Execute(Store(SHY, AbsX), old(c.Abs()))
    ensures c.clk == old(c.clk) + 2
  {
    hide Operate, Modify, Transfer, Enter, PushWord, PullWord, Target, FromByte, And, LoadWord, LoadZeroWord;
    TruncAdd(c.pc, 3);
    c.pc := c.pc + 3;
    c.clk := c.clk + 2;
    StoreShifted(c, p2, c.x, c.y);
  }

  method ShaIndYMacro(c: Mos6510, p1: Byte)
    requires c.Valid() && Operands(c.Abs(), 2, p1, 0)
    modifies c
    ensures c.Valid() && c.Abs() == Execute(Store(SHA, IndY), old(c.Abs()))
    ensures c.clk == old(c.clk) + 4
  {
    hide Operate, Modify, Transfer, Enter, PushWord, PullWord, Target, FromByte, And, LoadWord, LoadZeroWord;
    TruncAdd(c.pc, 2);
    var tmp := LoadZeroWord(c.mem, p1);
    c.clk := c.clk + 2;
    c.clk := c.clk + 2;
    c.pc := c.pc + 2;
    StoreShifted(c, tmp, c.y, And(c.a, c.x));
  }

  // ---- Control flow -----------------------------------------------------------------------

  method BranchMacro(c: Mos6510, cond: bool, value: Byte)
    modifies c`pc, c`clk
    ensures var s := old(c.Abs());
            var next := Trunc(s.pc + 2);
            var dest := Trunc(next + SignExtend(value));
            Trunc(c.pc) == (if cond then dest else next)
            && c.clk == old(c.clk) + if cond then 1 + Bit(High(dest) != High(next)) else 0
  {
    TruncAdd(c.pc, 2);
    c.pc := c.pc + 2;
    if cond {
      TruncAdd(c.pc, SignExtend(value));
      var destAddr := Trunc(c.pc + SignExtend(value));
      c.clk := c.clk + 1;
      if High(Trunc(c.pc)) != High(destAddr) {
        c.clk := c.clk + 1;
      }
      c.pc := destAddr;
    }
  }

  /** The pushes that BRK and interrupts begin with.  After them the core processes alarms. */
  method SaveState(c: Mos6510)
    requires c.Valid()
    modifies c
    ensures c.Valid() && c.Abs() == Save(old(c.Abs()))
    ensures c.clk == old(c.clk) + 3
  {
    StatusIsEager(c.p, c.flagN, c.flagZ);
    c.Push(High(Trunc(c.pc)));
    c.Push(Low(Trunc(c.pc)));
    c.clk := c.clk + 2;
    c.Push(LocalStatus(c.p, c.flagN, c.flagZ));
    c.clk := c.clk + 1;
  }

  method Vector(c: Mos6510, vector: Word)
    requires c.Valid()
    modifies c
    ensures c.Valid() && c.Abs() == Isa.Jump(old(c.Abs()), vector)
    ensures c.clk == old(c.clk) + 2
  {
    c.p := c.p.(i := true);
    c.pc := LoadWord(c.mem, vector);
    c.clk := c.clk + 2;
  }

  /** BRK up to the point where it processes alarms. */
  method BrkSave(c: Mos6510)
    requires c.Valid()
    modifies c
    ensures c.Valid() && c.Abs() == Save(Skip(SetFlags(old(c.Abs()), old(c.Abs()).r.f.(b := true)), 2))
    ensures c.clk == old(c.clk) + 3
  {
    hide Save;
    TruncAdd(c.pc, 2);
    c.pc := c.pc + 2;
    c.p := c.p.(b := true);
    SaveState(c);
  }

  /** `nmi` is whether an NMI is pending, and long enough, once the state is saved. */
  method BrkMacro(c: Mos6510, nmi: bool)
    requires c.Valid()
    modifies c
    ensures c.Valid() && c.Abs() == Perform(BRK, nmi, old(c.Abs()))
    ensures c.clk == old(c.clk) + 5
  {
    hide Save, Isa.Jump;
    BrkSave(c);
    Vector(c, if nmi then 0xfffa else 0xfffe);
  }

  /** DO_INTERRUPT, once the interrupt is accepted, up to the point where it processes alarms. */
  method InterruptSave(c: Mos6510)
    requires c.Valid()
    modifies c
    ensures c.Valid() && c.Abs() == Save(SetFlags(old(c.Abs()), old(c.Abs()).r.f.(b := false)))
    ensures c.clk == old(c.clk) + 5
  {
    hide Save;
    c.clk := c.clk + 1;
    c.clk := c.clk + 1;
    c.p := c.p.(b := false);
    SaveState(c);
  }

  method DoInterrupt(c: Mos6510, vector: Word)
    requires c.Valid()
    modifies c
    ensures c.Valid() && c.Abs() == Interrupt(old(c.Abs()), vector)
    ensures c.clk == old(c.clk) + 7
  {
    hide Save, Isa.Jump;
    InterruptSave(c);
    Vector(c, vector);
  }

  method JsrMacro(c: Mos6510, p1: Byte)
    requires c.Valid() && Operands(c.Abs(), 2, p1, 0)
    modifies c
    ensures c.Valid() && c.Abs() == Execute(JSR, old(c.Abs()))
    ensures c.clk == old(c.clk) + 4
  {
    TruncAdd(c.pc, 2);
    c.clk := c.clk + 1;
    c.pc := c.pc + 2;
    c.clk := c.clk + 2;
    c.Push(High(Trunc(c.pc)));
    c.Push(Low(Trunc(c.pc)));
    var addrMsb := Load(c.mem, Trunc(c.pc));
    c.clk := c.clk + 1;
    c.pc := Join(p1, addrMsb);
  }

  /** The program counter may end up one past $ffff here. */
  method RtsMacro(c: Mos6510)
    requires c.Valid()
    modifies c
    ensures c.Valid() && c.Abs() == Execute(RTS, old(c.Abs()))
    ensures c.clk == old(c.clk) + 4
    ensures c.pc == PullWord(old(c.Abs())).1 + 1
  {
    c.clk := c.clk + 3;
    var lo := c.Pull();
    var hi := c.Pull();
    c.pc := Join(lo, hi);
    c.clk := c.clk + 1;
    c.pc := c.pc + 1;
  }

  method RtiMacro(c: Mos6510)
    requires c.Valid()
    modifies c
    ensures c.Valid() && c.Abs() == Execute(RTI, old(c.Abs()))
    ensures c.clk == old(c.clk) + 4
  {
    c.clk := c.clk + 4;
    var tmp := c.Pull();
    c.SetStatus(tmp);
    var lo := c.Pull();
    var hi := c.Pull();
    c.pc := Join(lo, hi);
  }

  method JmpIndMacro(c: Mos6510, p2: Word)
    requires c.Valid() && p2 == LoadWord(c.mem, Trunc(c.Abs().pc + 1))
    modifies c
    ensures c.Valid() && c.Abs() == Execute(JMP_IND, old(c.Abs()))
    ensures c.clk == old(c.clk) + 2
  {
    var lo := Load(c.mem, p2);
    c.clk := c.clk + 1;
    var hi := Load(c.mem, Join(Low(p2 + 1), High(p2)));
    c.clk := c.clk + 1;
    c.pc := Join(lo, hi);
  }

  method PhaMacro(c: Mos6510)
    requires c.Valid()
    modifies c
    ensures c.Valid() && c.Abs() == Execute(PHA, old(c.Abs()))
    ensures c.clk == old(c.clk) + 1
  {
    TruncAdd(c.pc, 1);
    c.clk := c.clk + 1;
    c.Push(c.a);
    c.pc := c.pc + 1;
  }

  method PhpMacro(c: Mos6510)
    requires c.Valid()
    modifies c
    ensures c.Valid() && c.Abs() == Execute(PHP, old(c.Abs()))
    ensures c.clk == old(c.clk) + 1
  {
    TruncAdd(c.pc, 1);
    StatusIsEager(c.p.(b := true), c.flagN, c.flagZ);
    c.clk := c.clk + 1;
    c.Push(LocalStatus(c.p.(b := true), c.flagN, c.flagZ));
    c.pc := c.pc + 1;
  }

  method PlaMacro(c: Mos6510)
    requires c.Valid()
    modifies c
    ensures c.Valid() && c.Abs() == Execute(PLA, old(c.Abs()))
    ensures c.clk == old(c.clk) + 2
  {
    TruncAdd(c.pc, 1);
    c.clk := c.clk + 2;
    var tmp := c.Pull();
    c.a := tmp;
    c.SetNZ(tmp);
    c.pc := c.pc + 1;
  }

  method PlpMacro(c: Mos6510)
    requires c.Valid()
    modifies c
    ensures c.Valid() && c.Abs() == Execute(PLP, old(c.Abs()))
    ensures c.clk == old(c.clk) + 2
  {
    TruncAdd(c.pc, 1);
    var s := c.Pull();
    c.clk := c.clk + 2;
    c.SetStatus(s);
    c.pc := c.pc + 1;
  }

  // ---- The fetch-execute cycle --------------------------------------------------------------

  method DispatchRead(c: Mos6510, m: Macro, ghost i: Instr, p1: Byte, p2: Word)
    requires c.Valid() && i.Read? && m == MacroFor(i) && Operands(c.Abs(), Length(i.mode), p1, p2)
    modifies c
    ensures c.Valid() && c.Abs() == Execute(i, old(c.Abs()))
    ensures c.clk + Length(i.mode) == old(c.clk) + Cycles(i, old(c.Abs()))
  {
    assert LoadMode(m.load) == i.mode;
    ValueMacro(c, m.op, m.load, m.clkInc, m.pcInc, p1, p2);
  }

  method DispatchRmw(c: Mos6510, m: Macro, ghost i: Instr, p1: Byte, p2: Word)
    requires c.Valid() && i.Rmw? && Proper(i) && m == MacroFor(i) && Operands(c.Abs(), Length(i.mode), p1, p2)
    modifies c
    ensures c.Valid() && c.Abs() == Execute(i, old(c.Abs()))
    ensures c.clk + Length(i.mode) == old(c.clk) + Cycles(i, old(c.Abs()))
  {
    if m.ChangeIndY? {
      ChangeIndYMacro(c, m.mop, p1);
    } else {
      assert AddrMode(m.addr, m.indexing) == i.mode;
      ChangeMacro(c, m.mop, m.addr, m.clkInc, m.pcInc, m.indexing, p1, p2);
    }
  }

  method DispatchStore(c: Mos6510, m: Macro, ghost i: Instr, p1: Byte, p2: Word)
    requires c.Valid() && i.Store? && Proper(i) && m == MacroFor(i) && Operands(c.Abs(), Length(i.mode), p1, p2)
    modifies c
    ensures c.Valid() && c.Abs() == Execute(i, old(c.Abs()))
    ensures c.clk + Length(i.mode) == old(c.clk) + Cycles(i, old(c.Abs()))
  {
    if m.PutIndY? {
      PutIndYMacro(c, p1);
    } else if m.ShaIndY? {
      ShaIndYMacro(c, p1);
    } else if m.Put? {
      assert AddrMode(m.addr, m.indexing) == i.mode;
      PutMacro(c, m.sop, m.addr, m.clkInc, m.pcInc, m.indexing, p1, p2);
    } else if m.indexing.PlusX? {
      ShyMacro(c, p2);
    } else if m.sop.SHS? {
      ShsMacro(c, p2);
    } else {
      PutMaskedYMacro(c, m.sop, p2);
    }
  }

  method DispatchStack(c: Mos6510, m: Macro, ghost i: Instr)
    requires c.Valid() && m == MacroFor(i) && (i.PHP? || i.PLP? || i.PHA? || i.PLA?)
    modifies c
    ensures c.Valid() && c.Abs() == Execute(i, old(c.Abs()))
    ensures c.clk + 2 == old(c.clk) + Cycles(i, old(c.Abs()))
  {
    hide Execute, Mos6510.Abs;
    if m.Php? {
      PhpMacro(c);
    } else if m.Plp? {
      PlpMacro(c);
    } else if m.Pha? {
      PhaMacro(c);
    } else {
      PlaMacro(c);
    }
  }

  method DispatchJump(c: Mos6510, m: Macro, ghost i: Instr, p1: Byte, p2: Word, nmi: bool)
    requires c.Valid() && m == MacroFor(i) && Operands(c.Abs(), FetchClk(i), p1, p2)
    requires i.BRK? || i.JSR? || i.RTI? || i.RTS? || i.JMP? || i.JMP_IND?
    modifies c
    ensures c.Valid() && c.Abs() == Perform(i, nmi, old(c.Abs()))
    ensures c.clk + FetchClk(i) == old(c.clk) + Cycles(i, old(c.Abs()))
  {
    if m.Brk? {
      BrkMacro(c, nmi);
    } else if m.Jsr? {
      JsrMacro(c, p1);
    } else if m.Rti? {
      RtiMacro(c);
    } else if m.Rts? {
      RtsMacro(c);
    } else if m.Jmp? {
      c.pc := p2;
    } else {
      JmpIndMacro(c, p2);
    }
  }

  method DispatchShort(c: Mos6510, m: Macro, ghost i: Instr, p1: Byte)
    requires c.Valid() && m == MacroFor(i) && Operands(c.Abs(), 2, p1, 0) && (i.Implied? || i.Branch?)
    modifies c
    ensures c.Valid() && c.Abs() == Execute(i, old(c.Abs()))
    ensures c.clk + 2 == old(c.clk) + Cycles(i, old(c.Abs()))
  {
    if m.Single? {
      TruncAdd(c.pc, 1);
      Ops.Transfer(c, m.iop);
      c.pc := c.pc + 1;
    } else {
      BranchMacro(c, c.Condition(m.cond) == m.when, p1);
    }
  }

  /** One pass through the interpreter loop without a pending interrupt.  Returns false and
      leaves the registers alone when the opcode jams the processor. */
  method Step(c: Mos6510, cached: bool, nmi: bool) returns (running: bool)
    requires c.Valid()
    modifies c
    ensures c.Valid() && c.Abs() == Isa.Step(old(c.Abs()), nmi)
    ensures running == !Fetched(old(c.Abs())).JAM?
    ensures c.clk == old(c.clk) + if running then Cycles(Fetched(old(c.Abs())), old(c.Abs())) else 0
  {
    var ins, p1, p2 := FetchOpcode(c, cached);
    ghost var i := Decode(ins);
    var m := Switch(ins);
    SwitchDecodes(ins);
    FetchTabDecodes(ins);
    DecodeProper(ins);
    running := !m.Jam?;
    if m.Jam? {
      c.clk := c.clk - 2;  // REWIND_FETCH_OPCODE
    } else {
      Dispatch(c, m, i, p1, p2, nmi);
    }
  }

  /** BRK fetches two bytes. */
  lemma BreakFetched(ins: Byte)
    requires Decode(ins) == BRK
    ensures !FetchTab(ins)
  {
    hide Decode;
    FetchTabDecodes(ins);
  }

  method Dispatch(c: Mos6510, m: Macro, ghost i: Instr, p1: Byte, p2: Word, nmi: bool)
    requires c.Valid() && m == MacroFor(i) && Proper(i) && !i.JAM? && Operands(c.Abs(), FetchClk(i), p1, p2)
    modifies c
    ensures c.Valid() && c.Abs() == Perform(i, nmi, old(c.Abs()))
    ensures c.clk + FetchClk(i) == old(c.clk) + Cycles(i, old(c.Abs()))
  {
    if m.Value? {
      DispatchRead(c, m, i, p1, p2);
    } else if m.Change? || m.ChangeIndY? {
      DispatchRmw(c, m, i, p1, p2);
    } else if m.Put? || m.PutIndY? || m.ShaIndY? || m.PutMasked? {
      DispatchStore(c, m, i, p1, p2);
    } else if m.Single? || m.BranchIf? {
      DispatchShort(c, m, i, p1);
    } else if m.Php? || m.Plp? || m.Pha? || m.Pla? {
      DispatchStack(c, m, i);
    } else {
      DispatchJump(c, m, i, p1, p2, nmi);
    }
  }
}
