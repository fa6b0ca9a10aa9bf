/** The instruction set of the MOS 6510 as a reference machine.

    This is the meeting point of the two cores of the emulator: it stores every status flag
    eagerly, decodes an opcode from its bit fields, and charges each instruction the cycles of
    its addressing mode in one lump.  Nothing in it follows the text of either core; both are
    proved to refine it. */
module Isa {
  import opened Words

  /** The status register without its unused bit. */
  datatype Flags = Flags(n: bool, v: bool, b: bool, d: bool, i: bool, z: bool, c: bool) {
    /** As the cores push it: the unused bit reads as one. */
    function ToByte(): Byte {
      Pack(Bits(n, v, true, b, d, i, z, c))
    }

    function NZ(r: Byte): Flags {
      this.(n := Negative(r), z := r == 0)
    }
  }

  function FromByte(p: Byte): Flags {
    var t := Unpack(p);
    Flags(t.n, t.v, t.b, t.d, t.i, t.z, t.c)
  }

  datatype Regs = Regs(a: Byte, x: Byte, y: Byte, sp: Byte, f: Flags)

  datatype Cpu = Cpu(r: Regs, pc: Word, mem: Memory)

  // ---- Instructions -------------------------------------------------------------------------

  datatype ReadOp =
    | ORA | AND | EOR | ADC | SBC | CMP | CPX | CPY | LDA | LDX | LDY | LAX | LAS | BIT | NOOP
    | ANC | ARR | ASR | ANE | LXA | SBX

  datatype RmwOp = ASL | LSR | ROL | ROR | INC | DEC | SLO | SRE | RLA | RRA | ISB | DCP

  datatype StoreOp = STA | STX | STY | SAX | SHA | SHX | SHY | SHS

  datatype ImpliedOp =
    | ASL_A | LSR_A | ROL_A | ROR_A | DEX | DEY | INX | INY | NOP
    | TAX | TAY | TSX | TXA | TXS | TYA | CLC | CLD | CLI | CLV | SEC | SED | SEI

  datatype Condition = Sign | Overflow | Carry | Zero

  datatype Mode = Imm | Zp | ZpX | ZpY | Abs | AbsX | AbsY | IndX | IndY

  datatype Instr =
    | Read(rop: ReadOp, mode: Mode)
    | Rmw(mop: RmwOp, mode: Mode)
    | Store(sop: StoreOp, mode: Mode)
    | Implied(iop: ImpliedOp)
    | Branch(cond: Condition, when: bool)
    | BRK | JSR | RTI | RTS | JMP | JMP_IND | PHP | PLP | PHA | PLA
    | JAM

  /** The opcode matrix: bits 0 and 1 pick a block, bits 5 to 7 a row and bits 2 to 4 a column. */
  function Decode(op: Byte): Instr {
    DecodeAt(op / 32, op / 4 % 8, op % 4)
  }

  function DecodeAt(row: Byte, column: Byte, block: Byte): Instr {
    match block
    case 0 => DecodeControl(row, column)
    case 1 => DecodeAlu(row, column)
    case 2 => DecodeRmw(row, column)
    case _ => DecodeCombined(row, column)
  }

  function DecodeAlu(row: Byte, column: Byte): Instr {
    var mode := match column
      case 0 => IndX case 1 => Zp case 2 => Imm case 3 => Abs
      case 4 => IndY case 5 => ZpX case 6 => AbsY case _ => AbsX;
    match row
    case 0 => Read(ORA, mode) case 1 => Read(AND, mode) case 2 => Read(EOR, mode) case 3 => Read(ADC, mode)
    case 4 => if column == 2 then Read(NOOP, Imm) else Store(STA, mode)
    case 5 => Read(LDA, mode) case 6 => Read(CMP, mode) case _ => Read(SBC, mode)
  }

  function RmwRow(row: Byte, mode: Mode): Instr {
    match row
    case 0 => Rmw(ASL, mode) case 1 => Rmw(ROL, mode) case 2 => Rmw(LSR, mode) case 3 => Rmw(ROR, mode)
    case 4 => Store(STX, mode) case 5 => Read(LDX, mode) case 6 => Rmw(DEC, mode) case _ => Rmw(INC, mode)
  }

  function DecodeRmw(row: Byte, column: Byte): Instr {
    var swapped := row == 4 || row == 5;  // STX and LDX index by Y
    match column
    case 0 => if row < 4 then JAM else if row == 5 then Read(LDX, Imm) else Read(NOOP, Imm)
    case 1 => RmwRow(row, Zp)
    case 2 => Implied(match row
                      case 0 => ASL_A case 1 => ROL_A case 2 => LSR_A case 3 => ROR_A
                      case 4 => TXA case 5 => TAX case 6 => DEX case _ => NOP)
    case 3 => RmwRow(row, Abs)
    case 4 => JAM
    case 5 => RmwRow(row, if swapped then ZpY else ZpX)
    case 6 => Implied(if row == 4 then TXS else if row == 5 then TSX else NOP)
    case _ => if row == 4 then Store(SHX, AbsY) else RmwRow(row, if swapped then AbsY else AbsX)
  }

  /** The undocumented block: each opcode combines its neighbours in the two blocks before it. */
  function DecodeCombined(row: Byte, column: Byte): Instr {
    var swapped := row == 4 || row == 5;
    var mode := match column
      case 0 => IndX case 1 => Zp case 2 => Imm case 3 => Abs case 4 => IndY
      case 5 => (if swapped then ZpY else ZpX)
      case 6 => AbsY
      case _ => (if swapped then AbsY else AbsX);
    if column == 2 then
      Read(match row
           case 0 => ANC case 1 => ANC case 2 => ASR case 3 => ARR
           case 4 => ANE case 5 => LXA case 6 => SBX case _ => SBC, Imm)
    else match row
      case 0 => Rmw(SLO, mode) case 1 => Rmw(RLA, mode) case 2 => Rmw(SRE, mode) case 3 => Rmw(RRA, mode)
      case 4 => Store(if column == 6 then SHS else if column == 4 || column == 7 then SHA else SAX, mode)
      case 5 => Read(if column == 6 then LAS else LAX, mode)
      case 6 => Rmw(DCP, mode) case _ => Rmw(ISB, mode)
  }

  function ControlRow(row: Byte, mode: Mode): Instr {
    match row
    case 4 => Store(STY, mode) case 5 => Read(LDY, mode) case 6 => Read(CPY, mode) case 7 => Read(CPX, mode)
    case _ => Read(NOOP, mode)
  }

  function DecodeControl(row: Byte, column: Byte): Instr {
    match column
    case 0 => (match row
               case 0 => BRK case 1 => JSR case 2 => RTI case 3 => RTS
               case 4 => Read(NOOP, Imm) case _ => ControlRow(row, Imm))
    case 1 => if row == 1 then Read(BIT, Zp) else ControlRow(row, Zp)
    case 2 => (match row
               case 0 => PHP case 1 => PLP case 2 => PHA case 3 => PLA
               case 4 => Implied(DEY) case 5 => Implied(TAY) case 6 => Implied(INY) case _ => Implied(INX))
    case 3 => if row == 1 then Read(BIT, Abs) else if row == 2 then JMP else if row == 3 then JMP_IND
              else ControlRow(row, Abs)
    case 4 => Branch(match row / 2 case 0 => Sign case 1 => Overflow case 2 => Carry case _ => Zero, row % 2 == 1)
    case 5 => if row == 4 || row == 5 then ControlRow(row, ZpX) else Read(NOOP, ZpX)
    case 6 => Implied(match row
                      case 0 => CLC case 1 => SEC case 2 => CLI case 3 => SEI
                      case 4 => TYA case 5 => CLV case 6 => CLD case _ => SED)
    case _ => if row == 4 then Store(SHY, AbsX) else if row == 5 then Read(LDY, AbsX) else Read(NOOP, AbsX)
  }

  predicate Unmasked(op: StoreOp) {
    op.STA? || op.STX? || op.STY? || op.SAX?
  }

  lemma OpcodeParts(ins: Byte)
    ensures ins == 32 * (ins / 32) + 4 * (ins / 4 % 8) + ins % 4
  {
  }

  /** The combinations of operation and mode that the matrix holds. */
  predicate Proper(i: Instr) {
    match i
    case Rmw(_, mode) => !mode.Imm? && !mode.ZpY?
    case Store(op, mode) =>
      !mode.Imm?
      && (mode.IndY? ==> op.STA? || op.SHA?)
      && (op.SHY? ==> mode.AbsX?)
      && (op.SHX? || op.SHS? ==> mode.AbsY?)
      && (op.SHA? ==> mode.AbsY? || mode.IndY?)
    case _ => true
  }

  lemma PartsProper(row: Byte, column: Byte, block: Byte)
    requires row < 8 && column < 8 && block < 4
    ensures Proper(DecodeAt(row, column, block))
  {
  }

  lemma DecodeProper(op: Byte)
    ensures Proper(Decode(op))
  {
    PartsProper(op / 32, op / 4 % 8, op % 4);
  }

  // ---- Operand addresses and cycles -----------------------------------------------------------

  function Length(mode: Mode): nat {
    match mode
    case Abs => 3 case AbsX => 3 case AbsY => 3 case _ => 2
  }

  function Index(mode: Mode, s: Cpu): Byte {
    match mode
    case ZpX => s.r.x case AbsX => s.r.x case IndX => s.r.x
    case ZpY => s.r.y case AbsY => s.r.y case IndY => s.r.y
    case _ => 0
  }

  /** The address before indexing of the modes that may cross a page. */
  function Base(mode: Mode, s: Cpu): Word {
    if mode.IndY? then LoadZeroWord(s.mem, Load(s.mem, Trunc(s.pc + 1))) else LoadWord(s.mem, Trunc(s.pc + 1))
  }

  /** The address an instruction at `s.pc` works on. */
  function Address(mode: Mode, s: Cpu): Word {
    var p1 := Load(s.mem, Trunc(s.pc + 1));
    match mode
    case Imm => Trunc(s.pc + 1)
    case Zp => p1
    case ZpX => Low(p1 + s.r.x)
    case ZpY => Low(p1 + s.r.y)
    case IndX => LoadZeroWord(s.mem, Low(p1 + s.r.x))
    case _ => Trunc(Base(mode, s) + Index(mode, s))
  }

  /** Does indexing leave the page of the base address? */
  predicate Crosses(mode: Mode, s: Cpu) {
    (mode.AbsX? || mode.AbsY? || mode.IndY?) && High(Address(mode, s)) != High(Base(mode, s))
  }

  function ReadCycles(mode: Mode): nat {
    match mode
    case Imm => 2 case Zp => 3 case ZpX => 4 case ZpY => 4 case Abs => 4
    case AbsX => 4 case AbsY => 4 case IndX => 6 case IndY => 5
  }

  function StoreCycles(mode: Mode): nat {
    match mode
    case AbsX => 5 case AbsY => 5 case IndY => 6 case _ => ReadCycles(mode)
  }

  // ---- Arithmetic -------------------------------------------------------------------------------

  /** Adds two digits and a carry.  The digits need not be decimal: a sum above nine is pushed on
      by six whatever it came from. */
  function AddDigits(x: int, y: int, carry: bool): (r: (int, bool))
    ensures 0 <= r.0 < 16
    requires 0 <= x < 16 && 0 <= y < 16
  {
    var sum := x + y + Bit(carry);
    (if sum > 9 then (sum + 6) % 16 else sum, sum > 9)
  }

  function SubDigits(x: int, y: int, borrow: bool): (r: (int, bool))
    requires 0 <= x < 16 && 0 <= y < 16
    ensures 0 <= r.0 < 16
  {
    var diff := x - y - Bit(borrow);
    (if diff < 0 then (diff - 6) % 16 else diff, diff < 0)
  }

  /** Packed decimal addition, one digit after the other. */
  function AddPacked(x: Byte, y: Byte, carry: bool): (Byte, bool) {
    var lo := AddDigits(x % 16, y % 16, carry);
    var hi := AddDigits(x / 16, y / 16, lo.1);
    (16 * hi.0 + lo.0, hi.1)
  }

  function SubPacked(x: Byte, y: Byte, borrow: bool): (Byte, bool) {
    var lo := SubDigits(x % 16, y % 16, borrow);
    var hi := SubDigits(x / 16, y / 16, lo.1);
    (16 * hi.0 + lo.0, hi.1)
  }

  /** An accumulator and the flags an addition or subtraction leaves behind. */
  datatype Sum = Sum(a: Byte, n: bool, v: bool, z: bool, c: bool)

  function Added(a: Byte, v: Byte, carry: bool, decimal: bool): Sum {
    var sum := Low(a + v + Bit(carry));
    if decimal then
      var dec := AddPacked(a, v, carry);
      // N and V are taken after the low digit is adjusted and before the high one is.
      var mid := Low(16 * (a / 16 + v / 16 + Bit(AddDigits(a % 16, v % 16, carry).1)));
      Sum(dec.0, Negative(mid), Negative(a) == Negative(v) != Negative(mid), sum == 0, dec.1)
    else
      Sum(sum, Negative(sum), Negative(a) == Negative(v) != Negative(sum), sum == 0, a + v + Bit(carry) > 0xff)
  }

  function Subtracted(a: Byte, v: Byte, carry: bool, decimal: bool): Sum {
    var diff := Low(a - v - Bit(!carry));
    Sum(if decimal then SubPacked(a, v, !carry).0 else diff,
        Negative(diff), Negative(a) != Negative(v) == Negative(diff), diff == 0, a >= v + Bit(!carry))
  }

  function RotatedAnd(t: Byte, carry: bool, decimal: bool): Sum {
    var r := t / 2 + 0x80 * Bit(carry);
    var overflow := Negative(t) != (t / 0x40 % 2 == 1);
    if decimal then
      var lo := if t % 16 + t % 2 > 5 then (r % 16 + 6) % 16 else r % 16;
      var adjust := t / 16 + t / 16 % 2 > 5;
      var hi := if adjust then (r / 16 + 6) % 16 else r / 16;
      Sum(16 * hi + lo, carry, overflow, r == 0, adjust)
    else
      Sum(r, carry, overflow, r == 0, Negative(t))
  }

  function Settle(s: Regs, r: Sum): Regs {
    s.(a := r.a, f := s.f.(n := r.n, v := r.v, z := r.z, c := r.c))
  }

  function Compare(s: Regs, r: Byte, v: Byte): Regs {
    s.(f := s.f.NZ(Low(r - v)).(c := r >= v))
  }

  function SetA(s: Regs, r: Byte): Regs {
    s.(a := r, f := s.f.NZ(r))
  }

  function Operate(op: ReadOp, s: Regs, v: Byte): Regs {
    match op
    case ORA => SetA(s, Or(s.a, v))
    case AND => SetA(s, And(s.a, v))
    case EOR => SetA(s, Xor(s.a, v))
    case ADC => Settle(s, Added(s.a, v, s.f.c, s.f.d))
    case SBC => Settle(s, Subtracted(s.a, v, s.f.c, s.f.d))
    case CMP => Compare(s, s.a, v)
    case CPX => Compare(s, s.x, v)
    case CPY => Compare(s, s.y, v)
    case LDA => SetA(s, v)
    case LDX => s.(x := v, f := s.f.NZ(v))
    case LDY => s.(y := v, f := s.f.NZ(v))
    case LAX => SetA(s, v).(x := v)
    case LAS => var r := And(s.sp, v); SetA(s, r).(x := r, sp := r)
    case BIT => s.(f := s.f.(n := Negative(v), v := v / 0x40 % 2 == 1, z := And(v, s.a) == 0))
    case NOOP => s
    case ANC => var t := SetA(s, And(s.a, v)); t.(f := t.f.(c := t.f.n))
    case ARR => Settle(s, RotatedAnd(And(s.a, v), s.f.c, s.f.d))
    case ASR => var t := And(s.a, v); s.(a := t / 2, f := s.f.NZ(t / 2).(c := t % 2 == 1))
    case ANE => SetA(s, And(And(Or(s.a, 0xef), s.x), v))
    case LXA => var r := And(Or(s.a, 0xee), v); SetA(s, r).(x := r)
    case SBX => var r := And(s.a, s.x); Compare(s, r, v).(x := Low(r - v))
  }

  /** What a shift or count leaves in the flags, and the byte it stores back. */
  function Shift(op: RmwOp, f: Flags, v: Byte): (Flags, Byte) {
    match op
    case ASL => var r := Low(2 * v); (f.NZ(r).(c := Negative(v)), r)
    case LSR => (f.NZ(v / 2).(c := v % 2 == 1), v / 2)
    case ROL => var r := Low(2 * v + Bit(f.c)); (f.NZ(r).(c := Negative(v)), r)
    case ROR => var r := v / 2 + 0x80 * Bit(f.c); (f.NZ(r).(c := v % 2 == 1), r)
    case INC => (f.NZ(Low(v + 1)), Low(v + 1))
    case _ => (f.NZ(Low(v - 1)), Low(v - 1))
  }

  /** The undocumented ones shift first and then operate on the accumulator with the result. */
  function Modify(op: RmwOp, s: Regs, v: Byte): (Regs, Byte) {
    var basic := match op
      case SLO => ASL case SRE => LSR case RLA => ROL case RRA => ROR case ISB => INC case DCP => DEC case _ => op;
    var m := Shift(basic, s.f, v);
    var t := s.(f := m.0);
    match op
    case SLO => (Operate(ORA, t, m.1), m.1)
    case SRE => (Operate(EOR, t, m.1), m.1)
    case RLA => (Operate(AND, t, m.1), m.1)
    case RRA => (Operate(ADC, t, m.1), m.1)
    case ISB => (Operate(SBC, t, m.1), m.1)
    case DCP => (Operate(CMP, t, m.1), m.1)
    case _ => (t, m.1)
  }

  // ---- One instruction ---------------------------------------------------------------------------

  function Push(s: Cpu, v: Byte): Cpu {
    s.(mem := s.mem[0x100 + s.r.sp := v], r := s.r.(sp := Low(s.r.sp - 1)))
  }

  function Pull(s: Cpu): (Cpu, Byte) {
    var sp := Low(s.r.sp + 1);
    (s.(r := s.r.(sp := sp)), Load(s.mem, 0x100 + sp))
  }

  function SetFlags(s: Cpu, f: Flags): Cpu {
    s.(r := s.r.(f := f))
  }

  function PushWord(s: Cpu, w: Word): Cpu {
    Push(Push(s, High(w)), Low(w))
  }

  function PullWord(s: Cpu): (Cpu, Word) {
    var lo := Pull(s);
    var hi := Pull(lo.0);
    (hi.0, Join(lo.1, hi.1))
  }

  /** Saves the program counter and the status. */
  function Save(s: Cpu): Cpu {
    var t := PushWord(s, s.pc);
    Push(t, t.r.f.ToByte())
  }

  /** Bars further interrupts and jumps through the vector. */
  function Jump(s: Cpu, vector: Word): Cpu {
    SetFlags(s, s.r.f.(i := true)).(pc := LoadWord(s.mem, vector))
  }

  function Enter(s: Cpu, vector: Word): Cpu {
    Jump(Save(s), vector)
  }

  /** An interrupt accepted between two instructions. */
  function Interrupt(s: Cpu, vector: Word): Cpu {
    Enter(SetFlags(s, s.r.f.(b := false)), vector)
  }

  function Shifted(op: RmwOp, s: Regs): Regs {
    var m := Shift(op, s.f, s.a);
    s.(a := m.1, f := m.0)
  }

  function Break(s: Cpu, vector: Word): Cpu {
    Enter(Skip(SetFlags(s, s.r.f.(b := true)), 2), vector)
  }

  function Transfer(op: ImpliedOp, s: Regs): Regs {
    match op
    case ASL_A => Shifted(ASL, s)
    case LSR_A => Shifted(LSR, s)
    case ROL_A => Shifted(ROL, s)
    case ROR_A => Shifted(ROR, s)
    case DEX => s.(x := Low(s.x - 1), f := s.f.NZ(Low(s.x - 1)))
    case DEY => s.(y := Low(s.y - 1), f := s.f.NZ(Low(s.y - 1)))
    case INX => s.(x := Low(s.x + 1), f := s.f.NZ(Low(s.x + 1)))
    case INY => s.(y := Low(s.y + 1), f := s.f.NZ(Low(s.y + 1)))
    case NOP => s
    case TAX => s.(x := s.a, f := s.f.NZ(s.a))
    case TAY => s.(y := s.a, f := s.f.NZ(s.a))
    case TSX => s.(x := s.sp, f := s.f.NZ(s.sp))
    case TXA => SetA(s, s.x)
    case TXS => s.(sp := s.x)
    case TYA => SetA(s, s.y)
    case CLC => s.(f := s.f.(c := false))
    case CLD => s.(f := s.f.(d := false))
    case CLI => s.(f := s.f.(i := false))
    case CLV => s.(f := s.f.(v := false))
    case SEC => s.(f := s.f.(c := true))
    case SED => s.(f := s.f.(d := true))
    case SEI => s.(f := s.f.(i := true))
  }

  function Stored(op: StoreOp, s: Regs): Byte {
    match op
    case STA => s.a
    case STX => s.x case SHX => s.x
    case STY => s.y case SHY => s.y
    case _ => And(s.a, s.x)
  }

  /** SHA, SHX, SHY and SHS mask the value with the high byte of the base address plus one, and
      store to the page of that value when the index carries into the high byte. */
  function StoreMasked(op: StoreOp, mode: Mode, s: Cpu): Cpu {
    var value := And(Stored(op, s.r), High(Base(mode, s)) + 1);
    var target := if Crosses(mode, s) then Join(Low(Address(mode, s)), value) else Address(mode, s);
    s.(mem := s.mem[target := value], r := if op.SHS? then s.r.(sp := And(s.r.a, s.r.x)) else s.r)
  }

  function StoreOperand(op: StoreOp, mode: Mode, s: Cpu): Cpu {
    match op
    case SHA => StoreMasked(op, mode, s)
    case SHX => StoreMasked(op, mode, s)
    case SHY => StoreMasked(op, mode, s)
    case SHS => StoreMasked(op, mode, s)
    case _ => s.(mem := s.mem[Address(mode, s) := Stored(op, s.r)])
  }

  predicate Holds(cond: Condition, f: Flags) {
    match cond case Sign => f.n case Overflow => f.v case Carry => f.c case Zero => f.z
  }

  function SignExtend(v: Byte): int {
    if Negative(v) then v - 0x100 else v
  }

  function Skip(s: Cpu, length: nat): Cpu {
    s.(pc := Trunc(s.pc + length))
  }

  function Target(s: Cpu): Word {
    Trunc(Trunc(s.pc + 2) + SignExtend(Load(s.mem, Trunc(s.pc + 1))))
  }

  function Execute(i: Instr, s: Cpu): Cpu {
    match i
    case Read(op, mode) => Skip(s.(r := Operate(op, s.r, Load(s.mem, Address(mode, s)))), Length(mode))
    case Rmw(op, mode) =>
      var addr := Address(mode, s);
      var m := Modify(op, s.r, Load(s.mem, addr));
      Skip(s.(r := m.0, mem := s.mem[addr := m.1]), Length(mode))
    case Store(op, mode) => Skip(StoreOperand(op, mode, s), Length(mode))
    case Implied(op) => Skip(s.(r := Transfer(op, s.r)), 1)
    case Branch(cond, when) => if Holds(cond, s.r.f) == when then s.(pc := Target(s)) else Skip(s, 2)
    case BRK => Break(s, 0xfffe)
    case JSR =>
      var t := PushWord(s, Trunc(s.pc + 2));
      t.(pc := Join(Load(s.mem, Trunc(s.pc + 1)), Load(t.mem, Trunc(s.pc + 2))))
    case RTS => var r := PullWord(s); r.0.(pc := Trunc(r.1 + 1))
    case RTI =>
      var p := Pull(s);
      var r := PullWord(p.0);
      SetFlags(r.0, FromByte(p.1)).(pc := r.1)
    case JMP => s.(pc := LoadWord(s.mem, Trunc(s.pc + 1)))
    case JMP_IND =>
      var p2 := LoadWord(s.mem, Trunc(s.pc + 1));
      s.(pc := Join(Load(s.mem, p2), Load(s.mem, Join(Low(p2 + 1), High(p2)))))
    case PHP => Skip(Push(s, s.r.f.(b := true).ToByte()), 1)
    case PLP => var p := Pull(s); Skip(SetFlags(p.0, FromByte(p.1)), 1)
    case PHA => Skip(Push(s, s.r.a), 1)
    case PLA => var p := Pull(s); Skip(p.0.(r := SetA(p.0.r, p.1)), 1)
    case JAM => s
  }

  function Cycles(i: Instr, s: Cpu): nat {
    match i
    case Read(_, mode) => ReadCycles(mode) + Bit(Crosses(mode, s))
    case Rmw(_, mode) => StoreCycles(mode) + 2
    case Store(_, mode) => StoreCycles(mode)
    case Implied(_) => 2
    case Branch(cond, when) =>
      if Holds(cond, s.r.f) == when then 3 + Bit(High(Target(s)) != High(Trunc(s.pc + 2))) else 2
    case BRK => 7
    case JSR => 6 case RTS => 6 case RTI => 6
    case JMP => 3 case JMP_IND => 5
    case PHP => 3 case PHA => 3 case PLP => 4 case PLA => 4
    case JAM => 0
  }

  function Fetched(s: Cpu): Instr {
    Decode(Load(s.mem, s.pc))
  }

  /** An NMI that comes while BRK saves the state takes it over: only the vector changes. */
  function Perform(i: Instr, nmi: bool, s: Cpu): Cpu {
    if i.BRK? && nmi then Break(s, 0xfffa) else Execute(i, s)
  }

  function Step(s: Cpu, nmi: bool): Cpu {
    Perform(Fetched(s), nmi, s)
  }

  lemma UnmaskedStore(op: StoreOp, mode: Mode, s: Cpu)
    requires Unmasked(op)
    ensures Execute(Store(op, mode), s)
         == Cpu(s.r, Trunc(s.pc + Length(mode)), s.mem[Address(mode, s) := Stored(op, s.r)])
  {
  }
}
