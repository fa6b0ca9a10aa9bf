/** The cycle-stepped 6510 core: every memory access is followed by one tick of the clock. */
module SteppedCore {
  import opened Words
  import opened Isa
  import opened LazyStatus
  import opened FetchTable
  import opened MosCpu
  import Ops = SteppedOps
  import opened SteppedSwitch

  // ---- Access sequences -------------------------------------------------------------------

  method Tick(c: Mos6510)
    modifies c`clk
    ensures c.clk == old(c.clk) + 1
  {
    c.clk := c.clk + 1;
  }

  /** The cycles an access sequence takes, page crossing apart. */
  function GetClk(get: GetMacro): nat {
    match get
    case GetImm => 0 case GetZero => 1 case GetZeroX => 2 case GetZeroY => 2 case GetAbs => 1
    case GetAbsX => 1 case GetAbsY => 1 case GetIndX => 4 case GetIndY => 3
    case GetAbsXRmw => 2 case GetAbsYRmw => 2 case GetIndYRmw => 4
  }

  /** The idle read before a write always takes its cycle; before a read only on a page crossing. */
  predicate AlwaysIdles(get: GetMacro) {
    get.GetAbsXRmw? || get.GetAbsYRmw? || get.GetIndYRmw?
  }

  method FetchOpcode(c: Mos6510, cached: bool) returns (ins: Byte, p1: Byte, p2: Word)
    modifies c`clk
    ensures ins == Load(c.mem, Trunc(c.pc))
    ensures Operands(c.Abs(), if FetchTab(ins) then 3 else 2, p1, p2)
    ensures c.clk == old(c.clk) + if FetchTab(ins) then 3 else 2
  {
    TruncAdd(c.pc, 1);
    TruncAdd(c.pc + 1, 1);
    ins := Load(c.mem, Trunc(c.pc));
    Tick(c);
    p1 := Load(c.mem, Trunc(c.pc + 1));
    p2 := p1;
    Tick(c);
    if FetchTab(ins) {
      p2 := Join(p1, Load(c.mem, Trunc(c.pc + 2)));
      Tick(c);
    } else if cached {
      p2 := Join(p1, Load(c.mem, Trunc(c.pc + 2)));  // the whole word comes from memory at once
    }
  }

  /** INT_ABS_I_R: the idle read on the wrong page. */
  method IdleOnCrossing(c: Mos6510, base: Word, index: Byte)
    modifies c`clk
    ensures c.clk == old(c.clk) + Bit(High(Trunc(base + index)) != High(base))
  {
    PageCrossed(base, index);
    if base % 0x100 + index > 0xff {
      Tick(c);
    }
  }

  /** INT_IND_X. */
  method PointerX(c: Mos6510, p1: Byte) returns (addr: Word)
    modifies c`clk
    ensures addr == LoadZeroWord(c.mem, Low(p1 + c.x)) && c.clk == old(c.clk) + 3
  {
    Tick(c);
    var tmpa: int := Low(p1 + c.x);
    var lo := Load(c.mem, tmpa);
    Tick(c);
    tmpa := Low(tmpa + 1);
    addr := Join(lo, Load(c.mem, tmpa));
    Tick(c);
  }

  /** The pointer read shared by INT_IND_Y_R and INT_IND_Y_W. */
  method Pointer(c: Mos6510, p1: Byte) returns (tmpa: Word)
    modifies c`clk
    ensures tmpa == LoadZeroWord(c.mem, p1) && c.clk == old(c.clk) + 2
  {
    var lo := Load(c.mem, p1);
    Tick(c);
    tmpa := Join(lo, Load(c.mem, Low(p1 + 1)));
    Tick(c);
  }

  /** INT_IND_Y_R and INT_IND_Y_W. */
  method LocateIndirectY(c: Mos6510, p1: Byte, always: bool) returns (addr: Word)
    requires Operands(c.Abs(), 2, p1, 0)
    modifies c`clk
    ensures addr == Address(IndY, c.Abs())
    ensures c.clk == old(c.clk) + 2 + Bit(always || Crosses(IndY, c.Abs()))
  {
    var tmpa := Pointer(c, p1);
    if always {
      Tick(c);
    } else {
      IdleOnCrossing(c, tmpa, c.y);
    }
    addr := Trunc(tmpa + c.y);
  }

  /** Where an access sequence ends up, before the access itself. */
  method Locate(c: Mos6510, get: GetMacro, p1: Byte, p2: Word) returns (addr: Word)
    requires !get.GetImm? && Operands(c.Abs(), Length(GetMode(get)), p1, p2)
    modifies c`clk
    ensures addr == Address(GetMode(get), c.Abs())
    ensures c.clk + 1 == old(c.clk) + GetClk(get) + Bit(!AlwaysIdles(get) && Crosses(GetMode(get), c.Abs()))
  {
    hide LoadWord, LoadZeroWord, Trunc, High;
    match get
    case GetZero => addr := p1;
    case GetZeroX => Tick(c); addr := Low(p1 + c.x);
    case GetZeroY => Tick(c); addr := Low(p1 + c.y);
    case GetAbs => addr := p2;
    case GetAbsX => IdleOnCrossing(c, p2, c.x); addr := Trunc(p2 + c.x);
    case GetAbsY => IdleOnCrossing(c, p2, c.y); addr := Trunc(p2 + c.y);
    case GetAbsXRmw => Tick(c); addr := Trunc(p2 + c.x);
    case GetAbsYRmw => Tick(c); addr := Trunc(p2 + c.y);
    case GetIndX => addr := PointerX(c, p1);
    case GetIndY => addr := LocateIndirectY(c, p1, false);
    case GetIndYRmw => addr := LocateIndirectY(c, p1, true);
  }

  /** GET_IMM, GET_ZERO, ..., GET_IND_Y_RMW; addr is the C variable of the indirect ones. */
  method Get(c: Mos6510, get: GetMacro, p1: Byte, p2: Word) returns (dest: Byte, addr: Word)
    requires Operands(c.Abs(), Length(GetMode(get)), p1, p2)
    modifies c`clk
    ensures dest == Load(c.mem, Address(GetMode(get), c.Abs()))
    ensures !get.GetImm? ==> addr == Address(GetMode(get), c.Abs())
    ensures c.clk == old(c.clk) + GetClk(get) + Bit(!AlwaysIdles(get) && Crosses(GetMode(get), c.Abs()))
  {
    if get.GetImm? {
      dest, addr := p1, 0;
    } else {
      addr := Locate(c, get, p1, p2);
      dest := Load(c.mem, addr);
      Tick(c);
    }
  }

  /** The address a storing sequence recomputes; addr is the C variable of the indirect ones. */
  function SetAddress(put: SetMacro, x: Byte, y: Byte, p1: Byte, p2: Word, addr: Word): Word {
    match put
    case SetZeroRmw => p1
    case SetZeroXRmw => Low(p1 + x)
    case SetAbsRmw => p2
    case SetAbsXRmw => Trunc(p2 + x)
    case SetAbsYRmw => Trunc(p2 + y)
    case _ => addr
  }

  /** SET_ZERO_RMW, ..., SET_IND_RMW: the old value goes back first; a store keeps the low byte. */
  method SetRmw(c: Mos6510, put: SetMacro, p1: Byte, p2: Word, addr: Word, oldValue: Byte, newValue: nat)
    modifies c`clk, c`mem
    ensures c.mem == old(c.mem)[SetAddress(put, c.x, c.y, p1, p2, addr) := Low(newValue)] && c.clk == old(c.clk) + 2
  {
    var at := SetAddress(put, c.x, c.y, p1, p2, addr);
    StoreTwice(c.mem, at, oldValue, Low(newValue));
    c.mem := c.mem[at := oldValue];
    Tick(c);
    c.mem := c.mem[at := Low(newValue)];
    Tick(c);
  }

  /** Loading and storing sequences of a read-modify-write instruction meet at its address. */
  lemma RmwSequences(mode: Mode, s: Cpu, p1: Byte, p2: Word)
    requires !mode.Imm? && !mode.ZpY? && Operands(s, Length(mode), p1, p2)
    ensures GetMode(GetForRmw(mode)) == mode && !GetForRmw(mode).GetImm?
    ensures SetAddress(SetForRmw(mode), s.r.x, s.r.y, p1, p2, Address(mode, s)) == Address(mode, s)
    ensures AlwaysIdles(GetForRmw(mode)) || !Crosses(mode, s)
    ensures Length(mode) + GetClk(GetForRmw(mode)) == StoreCycles(mode)
  {
    hide LoadWord, LoadZeroWord, Low, Trunc, High;
  }

  // ---- Instruction macros -----------------------------------------------------------------

  method ValueMacro(c: Mos6510, op: ReadOp, get: GetMacro, pcInc: nat, p1: Byte, p2: Word)
    requires c.Valid() && pcInc == Length(GetMode(get)) && !AlwaysIdles(get)
    requires Operands(c.Abs(), pcInc, p1, p2)
    modifies c
    ensures c.Valid() && c.Abs() == Execute(Read(op, GetMode(get)), old(c.Abs()))
    ensures c.clk == old(c.clk) + GetClk(get) + Bit(Crosses(GetMode(get), old(c.Abs())))
  {
    hide Operate, Modify, Transfer, Enter, PushWord, PullWord, Target, FromByte, Address, Crosses, StoreOperand;
    TruncAdd(c.pc, pcInc);
    var value, _ := Get(c, get, p1, p2);
    Ops.Operate(c, op, value);
    c.pc := c.pc + pcInc;
  }

  method ChangeMacro(c: Mos6510, op: RmwOp, pcInc: nat, get: GetMacro, put: SetMacro, ghost mode: Mode, p1: Byte, p2: Word)
    requires c.Valid() && !mode.Imm? && !mode.ZpY?
    requires pcInc == Length(mode) && get == GetForRmw(mode) && put == SetForRmw(mode)
    requires Operands(c.Abs(), pcInc, p1, p2)
    modifies c
    ensures c.Valid() && c.Abs() == Execute(Rmw(op, mode), old(c.Abs()))
    ensures c.clk + pcInc == old(c.clk) + StoreCycles(mode) + 2
  {
    hide Operate, Modify, Transfer, Enter, PushWord, PullWord, Target, FromByte, Address, Crosses, StoreOperand, SetAddress, GetMode, AlwaysIdles, GetForRmw, SetForRmw, GetClk, StoreCycles;
    TruncAdd(c.pc, pcInc);
    RmwSequences(mode, c.Abs(), p1, p2);
    var oldValue, addr := Get(c, get, p1, p2);
    var newValue := Ops.Modify(c, op, oldValue);
    c.pc := c.pc + pcInc;
    SetRmw(c, put, p1, p2, addr, oldValue, newValue);
  }

  /** SET_ZERO, ..., SET_IND_Y: idle first if the sequence does, then store. */
  function SetClk(put: SetMacro): nat {
    match put case SetZero => 1 case SetAbs => 1 case SetIndX => 4 case SetIndY => 4 case _ => 2
  }

  function SetMode(put: SetMacro): Mode {
    match put
    case SetZero => Zp case SetZeroX => ZpX case SetZeroY => ZpY case SetAbsX => AbsX case SetAbsY => AbsY
    case SetIndX => IndX case SetIndY => IndY case _ => Abs
  }

  predicate PlainSet(put: SetMacro) {
    put.SetZero? || put.SetZeroX? || put.SetZeroY? || put.SetAbs? || put.SetAbsX? || put.SetAbsY?
    || put.SetIndX? || put.SetIndY?
  }

  method SetOperand(c: Mos6510, put: SetMacro, value: Byte, p1: Byte, p2: Word, ghost s: Cpu)
    requires PlainSet(put) && Operands(s, Length(SetMode(put)), p1, p2)
    requires s.mem == c.mem && s.r == c.Regs()
    modifies c`clk, c`mem
    ensures c.mem == s.mem[Address(SetMode(put), s) := value] && c.clk == old(c.clk) + SetClk(put)
  {
    hide LoadWord, LoadZeroWord, Join;
    var addr: Word;
    if put.SetIndX? {
      addr := PointerX(c, p1);
    } else if put.SetIndY? {
      addr := Pointer(c, p1);
      Tick(c);
      addr := Trunc(addr + c.y);
    } else if put.SetZero? {
      addr := p1;
    } else if put.SetAbs? {
      addr := p2;
    } else {
      Tick(c);
      addr := if put.SetZeroX? then Low(p1 + c.x) else if put.SetZeroY? then Low(p1 + c.y)
              else if put.SetAbsX? then Trunc(p2 + c.x) else Trunc(p2 + c.y);
    }
    c.mem := c.mem[addr := value];
    Tick(c);
  }

  method PutMacro(c: Mos6510, op: StoreOp, put: SetMacro, pcInc: nat, p1: Byte, p2: Word)
    requires c.Valid() && Unmasked(op) && PlainSet(put) && pcInc == Length(SetMode(put))
    requires Operands(c.Abs(), pcInc, p1, p2)
    modifies c
    ensures c.Valid() && c.Abs() == Execute(Store(op, SetMode(put)), old(c.Abs()))
    ensures c.clk == old(c.clk) + SetClk(put)
  {
    TruncAdd(c.pc, pcInc);
    ghost var s := c.Abs();
    UnmaskedStore(op, SetMode(put), s);
    c.pc := c.pc + pcInc;
    var value := if op == STA then c.a else if op == STX then c.x else if op == STY then c.y else And(c.a, c.x);
    SetOperand(c, put, value, p1, p2, s);
  }

  /** SET_ABS_SH_I, no cycles having been stolen: on a page crossing the value becomes the page. */
  method SetAbsShI(c: Mos6510, addr: Word, regAnd: Byte, regI: Byte)
    modifies c`clk, c`mem
    ensures var at := Trunc(addr + regI);
            var value := And(regAnd, High(addr) + 1);
            c.mem == old(c.mem)[if High(at) != High(addr) then Join(Low(at), value) else at := value]
    ensures c.clk == old(c.clk) + 1
  {
    PageCrossed(addr, regI);
    var tmp3 := And(regAnd, High(addr) + 1);
    var tmp2 := Trunc(addr + regI);
    if addr % 0x100 + regI > 0xff {
      tmp2 := Join(Low(tmp2), tmp3);
    }
    c.mem := c.mem[tmp2 := tmp3];
    Tick(c);
  }

  /** SHA_IND_Y; the program counter moves only after the store. */
  method ShaIndYMacro(c: Mos6510, p1: Byte)
    requires c.Valid() && Operands(c.Abs(), 2, p1, 0)
    modifies c
    ensures c.Valid() && c.Abs() == Execute(Store(SHA, IndY), old(c.Abs()))
    ensures c.clk == old(c.clk) + 4
  {
    hide Operate, Modify, Transfer, Enter, PushWord, PullWord, Target, FromByte, And, LoadWord, LoadZeroWord;
    TruncAdd(c.pc, 2);
    var tmpa := Pointer(c, p1);
    Tick(c);
    SetAbsShI(c, tmpa, And(c.a, c.x), c.y);
    c.pc := c.pc + 2;
  }

  /** SHA and SHX with an absolute address. */
  method ShAbsYMacro(c: Mos6510, op: StoreOp, p2: Word)
    requires c.Valid() && p2 == Base(AbsY, c.Abs()) && (op.SHA? || op.SHX?)
    modifies c
    ensures c.Valid() && c.Abs() == Execute(Store(op, AbsY), old(c.Abs()))
    ensures c.clk == old(c.clk) + 2
  {
    hide Operate, Modify, Transfer, Enter, PushWord, PullWord, Target, FromByte, And, LoadWord, LoadZeroWord;
    TruncAdd(c.pc, 3);
    Tick(c);
    SetAbsShI(c, p2, if op.SHX? then c.x else And(c.a, c.x), c.y);
    c.pc := c.pc + 3;
  }

  method ShyMacro(c: Mos6510, p2: Word)
    requires c.Valid() && p2 == Base(AbsX, c.Abs())
    modifies c
    ensures c.Valid() && c.Abs() == Execute(Store(SHY, AbsX), old(c.Abs()))
    ensures c.clk == old(c.clk) + 2
  {
    hide Operate, Modify, Transfer, Enter, PushWord, PullWord, Target, FromByte, And, LoadWord, LoadZeroWord;
    TruncAdd(c.pc, 3);
    Tick(c);
    SetAbsShI(c, p2, c.y, c.x);
    c.pc := c.pc + 3;
  }

  /** SHS_ABS_Y stores first and moves the stack pointer afterwards. */
  method ShsMacro(c: Mos6510, p2: Word)
    requires c.Valid() && p2 == Base(AbsY, c.Abs())
    modifies c
    ensures c.Valid() && c.Abs() == Execute(Store(SHS, AbsY), old(c.Abs()))
    ensures c.clk == old(c.clk) + 2
  {
    hide Operate, Modify, Transfer, Enter, PushWord, PullWord, Target, FromByte, And, LoadWord, LoadZeroWord;
    TruncAdd(c.pc, 3);
    Tick(c);
    SetAbsShI(c, p2, And(c.a, c.x), c.y);
    c.pc := c.pc + 3;
    c.sp := And(c.a, c.x);
  }

  // ---- Control flow -----------------------------------------------------------------------

  method BranchMacro(c: Mos6510, cond: bool, value: Byte)
    modifies c`pc, c`clk
    ensures var s := old(c.Abs());
            var next := Trunc(s.pc + 2);
            var dest := Trunc(next + SignExtend(value));
            Trunc(c.pc) == (if cond then dest else next)
            && c.clk == old(c.clk) + if cond then 1 + Bit(High(dest) != High(next)) else 0
  {
    TruncAdd(c.pc, 2);
    c.pc := c.pc + 2;
    if cond {
      TruncAdd(c.pc, SignExtend(value));
      var destAddr := Trunc(c.pc + SignExtend(value));
      Tick(c);
      if High(Trunc(c.pc)) != High(destAddr) {
        Tick(c);
      }
      c.pc := destAddr;
    }
  }

  method SaveState(c: Mos6510)
    requires c.Valid()
    modifies c
    ensures c.Valid() && c.Abs() == Save(old(c.Abs()))
    ensures c.clk == old(c.clk) + 3
  {
    StatusIsEager(c.p, c.flagN, c.flagZ);
    c.Push(High(Trunc(c.pc)));
    Tick(c);
    c.Push(Low(Trunc(c.pc)));
    Tick(c);
    c.Push(LocalStatus(c.p, c.flagN, c.flagZ));
    Tick(c);
  }

  /** DO_IRQBRK. */
  method DoIrqBrk(c: Mos6510, vector: Word)
    requires c.Valid()
    modifies c
    ensures c.Valid() && c.Abs() == Enter(old(c.Abs()), vector)
    ensures c.clk == old(c.clk) + 5
  {
    hide Save;
    SaveState(c);
    c.p := c.p.(i := true);
    var addr := Load(c.mem, vector);
    Tick(c);
    var high := Load(c.mem, Trunc(vector + 1));
    Tick(c);
    c.pc := Join(addr, high);
  }

  method BrkMacro(c: Mos6510, nmi: bool)
    requires c.Valid()
    modifies c
    ensures c.Valid() && c.Abs() == Perform(BRK, nmi, old(c.Abs()))
    ensures c.clk == old(c.clk) + 5
  {
    hide Save, Flags.ToByte, LoadWord;
    TruncAdd(c.pc, 2);
    c.pc := c.pc + 2;
    c.p := c.p.(b := true);
    DoIrqBrk(c, if nmi then 0xfffa else 0xfffe);
  }

  /** DO_INTERRUPT once the interrupt is accepted; its NMI branch repeats the same accesses. */
  method DoInterrupt(c: Mos6510, vector: Word)
    requires c.Valid()
    modifies c
    ensures c.Valid() && c.Abs() == Interrupt(old(c.Abs()), vector)
    ensures c.clk == old(c.clk) + 7
  {
    hide Save, Flags.ToByte;
    Tick(c);
    Tick(c);
    c.p := c.p.(b := false);
    DoIrqBrk(c, vector);
  }

  method JsrMacro(c: Mos6510, p1: Byte)
    requires c.Valid() && Operands(c.Abs(), 2, p1, 0)
    modifies c
    ensures c.Valid() && c.Abs() == Execute(JSR, old(c.Abs()))
    ensures c.clk == old(c.clk) + 4
  {
    hide Trunc, High, Low;
    TruncAdd(c.pc, 2);
    Tick(c);
    c.pc := c.pc + 2;
    c.Push(High(Trunc(c.pc)));
    Tick(c);
    c.Push(Low(Trunc(c.pc)));
    Tick(c);
    var addrMsb := Load(c.mem, Trunc(c.pc));
    Tick(c);
    c.pc := Join(p1, addrMsb);
  }

  /** The two pulls of a return address, one per cycle. */
  method PullReturn(c: Mos6510) returns (w: Word)
    requires c.Valid()
    modifies c
    ensures c.Valid() && (c.Abs(), w) == PullWord(old(c.Abs())) && c.clk == old(c.clk) + 2
  {
    var lo := c.Pull();
    Tick(c);
    var hi := c.Pull();
    Tick(c);
    w := Join(lo, hi);
  }

  /** The return address is a 16-bit variable here and wraps. */
  method RtsMacro(c: Mos6510)
    requires c.Valid()
    modifies c
    ensures c.Valid() && c.Abs() == Execute(RTS, old(c.Abs()))
    ensures c.clk == old(c.clk) + 4
    ensures c.pc == Trunc(PullWord(old(c.Abs())).1 + 1)
  {
    Tick(c);
    var addr: int := PullReturn(c);
    Tick(c);
    c.pc := Trunc(addr + 1);
  }

  method PullStatus(c: Mos6510)
    requires c.Valid()
    modifies c
    ensures c.Valid() && c.clk == old(c.clk) + 1
    ensures var p := Isa.Pull(old(c.Abs())); c.Abs() == SetFlags(p.0, FromByte(p.1))
  {
    var tmp := c.Pull();
    Tick(c);
    c.SetStatus(tmp);
  }

  method RtiMacro(c: Mos6510)
    requires c.Valid()
    modifies c
    ensures c.Valid() && c.Abs() == Execute(RTI, old(c.Abs()))
    ensures c.clk == old(c.clk) + 4
  {
    Tick(c);
    PullStatus(c);
    c.pc := PullReturn(c);
  }

  method JmpIndMacro(c: Mos6510, p2: Word)
    requires c.Valid() && p2 == LoadWord(c.mem, Trunc(c.Abs().pc + 1))
    modifies c
    ensures c.Valid() && c.Abs() == Execute(JMP_IND, old(c.Abs()))
    ensures c.clk == old(c.clk) + 2
  {
    var lo := Load(c.mem, p2);
    Tick(c);
    var hi := Load(c.mem, Join(Low(p2 + 1), High(p2)));
    Tick(c);
    c.pc := Join(lo, hi);
  }

  method PhaMacro(c: Mos6510)
    requires c.Valid()
    modifies c
    ensures c.Valid() && c.Abs() == Execute(PHA, old(c.Abs()))
    ensures c.clk == old(c.clk) + 1
  {
    TruncAdd(c.pc, 1);
    c.Push(c.a);
    Tick(c);
    c.pc := c.pc + 1;
  }

  method PhpMacro(c: Mos6510)
    requires c.Valid()
    modifies c
    ensures c.Valid() && c.Abs() == Execute(PHP, old(c.Abs()))
    ensures c.clk == old(c.clk) + 1
  {
    TruncAdd(c.pc, 1);
    StatusIsEager(c.p.(b := true), c.flagN, c.flagZ);
    c.Push(LocalStatus(c.p.(b := true), c.flagN, c.flagZ));
    Tick(c);
    c.pc := c.pc + 1;
  }

  method PlaMacro(c: Mos6510)
    requires c.Valid()
    modifies c
    ensures c.Valid() && c.Abs() == Execute(PLA, old(c.Abs()))
    ensures c.clk == old(c.clk) + 2
  {
    TruncAdd(c.pc, 1);
    Tick(c);
    var tmp := c.Pull();
    c.a := tmp;
    Tick(c);
    c.SetNZ(tmp);
    c.pc := c.pc + 1;
  }

  method PlpMacro(c: Mos6510)
    requires c.Valid()
    modifies c
    ensures c.Valid() && c.Abs() == Execute(PLP, old(c.Abs()))
    ensures c.clk == old(c.clk) + 2
  {
    TruncAdd(c.pc, 1);
    Tick(c);
    var s := c.Pull();
    Tick(c);
    c.SetStatus(s);
    c.pc := c.pc + 1;
  }

  // ---- The fetch-execute cycle --------------------------------------------------------------

  method DispatchRead(c: Mos6510, m: Macro, ghost i: Instr, p1: Byte, p2: Word)
    requires c.Valid() && i.Read? && m == MacroFor(i) && Operands(c.Abs(), Length(i.mode), p1, p2)
    modifies c
    ensures c.Valid() && c.Abs() == Execute(i, old(c.Abs()))
    ensures c.clk + Length(i.mode) == old(c.clk) + Cycles(i, old(c.Abs()))
  {
    assert GetMode(m.get) == i.mode;
    ValueMacro(c, m.op, m.get, m.pcInc, p1, p2);
  }

  method DispatchStore(c: Mos6510, m: Macro, ghost i: Instr, p1: Byte, p2: Word)
    requires c.Valid() && i.Store? && Proper(i) && m == MacroFor(i) && Operands(c.Abs(), Length(i.mode), p1, p2)
    modifies c
    ensures c.Valid() && c.Abs() == Execute(i, old(c.Abs()))
    ensures c.clk + Length(i.mode) == old(c.clk) + Cycles(i, old(c.Abs()))
  {
    if m.ShaIndY? {
      ShaIndYMacro(c, p1);
    } else if m.Put? {
      assert SetMode(m.put) == i.mode;
      PutMacro(c, m.sop, m.put, m.pcInc, p1, p2);
    } else if m.sop.SHY? {
      ShyMacro(c, p2);
    } else if m.sop.SHS? {
      ShsMacro(c, p2);
    } else {
      ShAbsYMacro(c, m.sop, p2);
    }
  }

  method DispatchStack(c: Mos6510, m: Macro, ghost i: Instr)
    requires c.Valid() && m == MacroFor(i) && (i.PHP? || i.PLP? || i.PHA? || i.PLA?)
    modifies c
    ensures c.Valid() && c.Abs() == Execute(i, old(c.Abs()))
    ensures c.clk + 2 == old(c.clk) + Cycles(i, old(c.Abs()))
  {
    hide Execute, Mos6510.Abs;
    if m.Php? {
      PhpMacro(c);
    } else if m.Plp? {
      PlpMacro(c);
    } else if m.Pha? {
      PhaMacro(c);
    } else {
      PlaMacro(c);
    }
  }

  method DispatchJump(c: Mos6510, m: Macro, ghost i: Instr, p1: Byte, p2: Word, nmi: bool)
    requires c.Valid() && m == MacroFor(i) && Operands(c.Abs(), FetchClk(i), p1, p2)
    requires i.BRK? || i.JSR? || i.RTI? || i.RTS? || i.JMP? || i.JMP_IND?
    modifies c
    ensures c.Valid() && c.Abs() == Perform(i, nmi, old(c.Abs()))
    ensures c.clk + FetchClk(i) == old(c.clk) + Cycles(i, old(c.Abs()))
  {
    if m.Brk? {
      BrkMacro(c, nmi);
    } else if m.Jsr? {
      JsrMacro(c, p1);
    } else if m.Rti? {
      RtiMacro(c);
    } else if m.Rts? {
      RtsMacro(c);
    } else if m.Jmp? {
      c.pc := p2;
    } else {
      JmpIndMacro(c, p2);
    }
  }

  method DispatchShort(c: Mos6510, m: Macro, ghost i: Instr, p1: Byte)
    requires c.Valid() && m == MacroFor(i) && Operands(c.Abs(), 2, p1, 0) && (i.Implied? || i.Branch?)
    modifies c
    ensures c.Valid() && c.Abs() == Execute(i, old(c.Abs()))
    ensures c.clk + 2 == old(c.clk) + Cycles(i, old(c.Abs()))
  {
    if m.Single? {
      TruncAdd(c.pc, 1);
      Ops.Transfer(c, m.iop);
      c.pc := c.pc + 1;
    } else {
      BranchMacro(c, c.Condition(m.cond) == m.when, p1);
    }
  }

  /** One pass through the interpreter loop without a pending interrupt.  Returns false and
      leaves the registers alone when the opcode jams the processor; the cycles of the fetch are
      not taken back then. */
  method Step(c: Mos6510, cached: bool, nmi: bool) returns (running: bool)
    requires c.Valid()
    modifies c
    ensures c.Valid() && c.Abs() == Isa.Step(old(c.Abs()), nmi)
    ensures running == !Fetched(old(c.Abs())).JAM?
    ensures c.clk == old(c.clk) + if running then Cycles(Fetched(old(c.Abs())), old(c.Abs())) else 2
  {
    var ins, p1, p2 := FetchOpcode(c, cached);
    ghost var i := Decode(ins);
    var m := Switch(ins);
    SwitchDecodes(ins);
    FetchTabDecodes(ins);
    DecodeProper(ins);
    running := !m.Jam?;
    if running {
      Dispatch(c, m, i, p1, p2, nmi);
    }
  }

  method Dispatch(c: Mos6510, m: Macro, ghost i: Instr, p1: Byte, p2: Word, nmi: bool)
    requires c.Valid() && m == MacroFor(i) && Proper(i) && !i.JAM? && Operands(c.Abs(), FetchClk(i), p1, p2)
    modifies c
    ensures c.Valid() && c.Abs() == Perform(i, nmi, old(c.Abs()))
    ensures c.clk + FetchClk(i) == old(c.clk) + Cycles(i, old(c.Abs()))
  {
    if m.Value? {
      DispatchRead(c, m, i, p1, p2);
    } else if m.Change? {
      ChangeMacro(c, m.mop, m.pcInc, m.get, m.put, i.mode, p1, p2);
    } else if m.Put? || m.ShaIndY? || m.PutMasked? {
      DispatchStore(c, m, i, p1, p2);
    } else if m.Single? || m.BranchIf? {
      DispatchShort(c, m, i, p1);
    } else if m.Php? || m.Plp? || m.Pha? || m.Pla? {
      DispatchStack(c, m, i);
    } else {
      DispatchJump(c, m, i, p1, p2, nmi);
    }
  }
}
