/** What the 65816 instructions do that touch its modes, its index registers or its stack, as
    functions on an eager state.  Bit 5 of the status (`u`) is M and bit 4 (`b`) is X. */
module Spec65816 {
  import opened Words

  type LongMemory = map<int, Byte>

  const BANK := 0x1_0000

  function LoadLong(m: LongMemory, addr: int): Byte {
    if addr in m then m[addr] else 0
  }

  function LongWord(m: LongMemory, addr: int): Word {
    Join(LoadLong(m, addr), LoadLong(m, addr + 1))
  }

  /** The registers an instruction may use but that no mode depends on. */
  datatype Data = Data(c: Word, dpr: Word, dbr: Byte)

  datatype State = State(d: Data, x: Word, y: Word, sp: Word, pbr: Byte, pc: Word, emul: bool, f: Bits, mem: LongMemory)

  /** Are the index registers eight bits wide? */
  predicate Narrow(s: State) {
    s.emul || s.f.b
  }

  /** The stack stays in page one in emulation mode, and narrow index registers hold bytes. */
  predicate Modes(s: State) {
    (s.emul ==> 0x100 <= s.sp <= 0x1ff) && (Narrow(s) ==> s.x <= 0xff && s.y <= 0xff)
  }

  function Fit(s: State): State {
    if Narrow(s) then s.(x := Low(s.x), y := Low(s.y)) else s
  }

  function FitIndex(s: State, v: Word): Word {
    if Narrow(s) then Low(v) else v
  }

  // ---- Stack ---------------------------------------------------------------------------------

  function StackAt(emul: bool, sp: int): Word {
    if emul then 0x100 + Low(sp) else Trunc(sp)
  }

  function Push(s: State, v: Byte): State {
    s.(mem := s.mem[s.sp := v], sp := StackAt(s.emul, s.sp - 1))
  }

  function Pull(s: State): (State, Byte) {
    var sp := StackAt(s.emul, s.sp + 1);
    (s.(sp := sp), LoadLong(s.mem, sp))
  }

  function PushWord(s: State, w: Word): State {
    Push(Push(s, High(w)), Low(w))
  }

  function PullWord(s: State): (State, Word) {
    var lo := Pull(s);
    var hi := Pull(lo.0);
    (hi.0, Join(lo.1, hi.1))
  }

  /** The instructions the 6502 does not have put a word on the stack without wrapping inside
      page one: only the stack pointer is brought back there afterwards. */
  function PushUnwrapped(s: State, w: Word): State {
    s.(mem := s.mem[s.sp := High(w)][Trunc(s.sp - 1) := Low(w)], sp := StackAt(s.emul, s.sp - 2))
  }

  function Status(emul: bool, f: Bits): Byte {
    if emul then Pack(f.(u := true)) else Pack(f)
  }

  function SetStatus(s: State, v: Byte): State {
    Fit(s.(f := Unpack(v)))
  }

  function NZ(f: Bits, v: Word, narrow: bool): Bits {
    if narrow then f.(n := Negative(Low(v)), z := Low(v) == 0) else f.(n := v >= 0x8000, z := v == 0)
  }

  // ---- Control flow -----------------------------------------------------------------------------

  function Operand(s: State, k: nat): Byte {
    LoadLong(s.mem, Trunc(s.pc + k) + BANK * s.pbr)
  }

  function OperandWord(s: State): Word {
    Join(Operand(s, 1), Operand(s, 2))
  }

  function Skip(s: State, n: nat): State {
    s.(pc := Trunc(s.pc + n))
  }

  /** The frame of an interrupt; only native mode saves the program bank. */
  function Save(s: State): State {
    Push(PushWord(if s.emul then s else Push(s, s.pbr), s.pc), Status(s.emul, s.f))
  }

  datatype Vector = Vector(emulation: Word, native: Word)

  function Enter(s: State, vector: Vector): State {
    var t := Save(s);
    t.(f := t.f.(d := false, i := true), pbr := 0, pc := LongWord(t.mem, if s.emul then vector.emulation else vector.native))
  }

  function SetBreak(s: State, on: bool): State {
    if s.emul then s.(f := s.f.(b := on)) else s
  }

  /** NMI and IRQ. */
  function Interrupt(s: State, vector: Vector): State {
    Enter(SetBreak(s, false), vector)
  }

  /** BRK and COP. */
  function Software(s: State, vector: Vector): State {
    Enter(SetBreak(Skip(s, 2), true), vector)
  }

  function Jsr(s: State): State {
    PushWord(s, Trunc(s.pc + 2)).(pc := OperandWord(s))
  }

  /** The high byte of the address of JSR (nnnn,X) is fetched after the return address is pushed. */
  function JsrIndexed(s: State): State {
    var t := PushUnwrapped(s, Trunc(s.pc + 2));
    var ea := Trunc(Join(Operand(s, 1), Operand(t, 2)) + s.x);
    t.(pc := Join(LoadLong(t.mem, ea + BANK * s.pbr), LoadLong(t.mem, Trunc(ea + 1) + BANK * s.pbr)))
  }

  /** JSL; the bank byte of the target is fetched after the old bank is pushed. */
  function JsrLong(s: State): State {
    var t := s.(mem := s.mem[s.sp := s.pbr]);
    var w := Trunc(s.pc + 3);
    t.(mem := t.mem[Trunc(s.sp - 1) := High(w)][Trunc(s.sp - 2) := Low(w)],
       sp := StackAt(s.emul, s.sp - 3), pbr := Operand(t, 3), pc := OperandWord(s))
  }

  function Rts(s: State): State {
    var r := PullWord(s);
    r.0.(pc := Trunc(r.1 + 1))
  }

  function Rtl(s: State): State {
    s.(pc := Trunc(Join(LoadLong(s.mem, Trunc(s.sp + 1)), LoadLong(s.mem, Trunc(s.sp + 2))) + 1),
       pbr := LoadLong(s.mem, Trunc(s.sp + 3)), sp := StackAt(s.emul, s.sp + 3))
  }

  function Rti(s: State): State {
    var p := Pull(s);
    var r := PullWord(SetStatus(p.0, p.1));
    if s.emul then r.0.(pc := r.1)
    else
      var b := Pull(r.0);
      b.0.(pc := r.1, pbr := b.1)
  }

  // ---- Modes --------------------------------------------------------------------------------------

  function Xce(s: State): State {
    var t := Skip(s, 1);
    if s.f.c == s.emul then t
    else if s.f.c then
      t.(emul := true, f := s.f.(c := false, b := false), x := Low(s.x), y := Low(s.y), sp := StackAt(true, s.sp))
    else t.(emul := false, f := s.f.(c := true, u := true, b := true))
  }

  /** The bits of `mask` become `on`; M and X are out of reach in emulation mode. */
  function Masked(f: Bits, mask: Bits, on: bool, emul: bool): Bits {
    Bits(Pick(mask.n, on, f.n), Pick(mask.v, on, f.v), Pick(mask.u && !emul, on, f.u), Pick(mask.b && !emul, on, f.b),
         Pick(mask.d, on, f.d), Pick(mask.i, on, f.i), Pick(mask.z, on, f.z), Pick(mask.c, on, f.c))
  }

  predicate Pick(chosen: bool, on: bool, was: bool) {
    if chosen then on else was
  }

  function RepSep(s: State, on: bool): State {
    var mask := Unpack(Operand(s, 1));
    var t := Skip(s, 2).(f := Masked(s.f, mask, on, s.emul));
    if mask.b && on && !s.emul then t.(x := Low(s.x), y := Low(s.y)) else t
  }

  function Reset(s: State): State {
    var t := s.(emul := true, f := s.f.(b := false, i := true, d := false), x := Low(s.x), y := Low(s.y),
                sp := StackAt(true, s.sp - 3), d := s.d.(dpr := 0, dbr := 0), pbr := 0);
    t.(pc := LongWord(s.mem, 0xfffc))
  }

  /** A bank operand of a block move.  Only the last byte wraps its address inside the program bank. */
  function MoveBank(s: State, k: nat): Byte {
    LoadLong(s.mem, (if s.d.c == 0 then Trunc(s.pc + k) else s.pc + k) + BANK * s.pbr)
  }

  /** One byte of a block move; the program counter stays until the last one. */
  function Move(s: State, step: int): State {
    var last := s.d.c == 0;
    var to, from := MoveBank(s, 1), MoveBank(s, 2);
    s.(d := Data(Trunc(s.d.c - 1), s.d.dpr, to),
       x := FitIndex(s, Trunc(s.x + step)), y := FitIndex(s, Trunc(s.y + step)),
       pc := if last then Trunc(s.pc + 3) else s.pc,
       mem := s.mem[s.y + BANK * to := LoadLong(s.mem, s.x + BANK * from)])
  }

  // ---- Index registers and the remaining stack instructions ------------------------------------------

  datatype Index = X | Y

  function Get(s: State, r: Index): Word {
    if r.X? then s.x else s.y
  }

  function Set(s: State, r: Index, v: Word): State {
    var f := NZ(s.f, v, Narrow(s));
    if r.X? then s.(x := v, f := f) else s.(y := v, f := f)
  }

  /** The bitwise or with $0100. */
  function InPageOne(v: Word): Word {
    if v / 0x100 % 2 == 1 then v else v + 0x100
  }

  function PullIndex(s: State, r: Index): State {
    if Narrow(s) then
      var p := Pull(s);
      Set(p.0, r, p.1)
    else
      var p := PullWord(s);
      Set(p.0, r, p.1)
  }

  function PullDirect(s: State): State {
    var w := Join(LoadLong(s.mem, Trunc(s.sp + 1)), LoadLong(s.mem, Trunc(s.sp + 2)));
    s.(sp := StackAt(s.emul, s.sp + 2), d := s.d.(dpr := w), f := NZ(s.f, w, false))
  }

  function PullA(s: State): State {
    if s.emul || s.f.u then
      var p := Pull(s);
      p.0.(d := s.d.(c := Join(p.1, High(s.d.c))), f := NZ(s.f, p.1, true))
    else
      var p := PullWord(s);
      p.0.(d := s.d.(c := p.1), f := NZ(s.f, p.1, false))
  }

  function PullBank(s: State): State {
    var p := Pull(s);
    p.0.(d := s.d.(dbr := p.1), f := NZ(s.f, p.1, true))
  }

  function PushStatus(s: State): State {
    Push(s, if s.emul then Pack(s.f.(u := true, b := true)) else Pack(s.f))
  }

  function PushSized(s: State, v: Word, bits8: bool): State {
    if bits8 then Push(s, Low(v)) else PushWord(s, v)
  }

  function PullStatus(s: State): State {
    var p := Pull(s);
    SetStatus(p.0, p.1)
  }

  // ---- All of them ---------------------------------------------------------------------------------------

  /** The instructions and interrupts that touch the stack pointer, an index register or a width;
      a value that an addressing mode delivers comes with the address of the next instruction.
      `Other` stands for every other instruction. */
  datatype Op =
    | LDI(r: Index, value: Word, next: Word)        // LDX and LDY
    | INI(r: Index) | DEI(r: Index)                 // INX, INY, DEX and DEY
    | TAI(r: Index) | TSX | TXY | TYX | TXS | TCS
    | XCE | REP | SEP | PHP | PLP | PHA | PHI(r: Index) | PHB | PHK | PHD | PLA | PLI(r: Index) | PLB | PLD
    | PEA(value: Word, next: Word)                  // PEI and PER as well
    | JSR | JSR_IND_X | JSR_LONG | RTS | RTL | RTI
    | NMI | IRQ | BRK | COP | RES | MVN | MVP
    | Other(d: Data, pbr: Byte, pc: Word, f: Bits, mem: LongMemory)

  const NMI_VECTOR := Vector(0xfffa, 0xffea)
  const IRQ_VECTOR := Vector(0xfffe, 0xffee)
  const BRK_VECTOR := Vector(0xfffe, 0xffe6)
  const COP_VECTOR := Vector(0xfff4, 0xffe4)

  function ExecIndex(op: Op, s: State): State {
    match op
    case LDI(r, v, next) => Set(s.(pc := next), r, FitIndex(s, v))
    case INI(r) => Set(Skip(s, 1), r, FitIndex(s, Trunc(Get(s, r) + 1)))
    case DEI(r) => Set(Skip(s, 1), r, FitIndex(s, Trunc(Get(s, r) - 1)))
    case TAI(r) => Set(Skip(s, 1), r, FitIndex(s, s.d.c))
    case TSX => Set(Skip(s, 1), X, FitIndex(s, s.sp))
    case TXY => Set(Skip(s, 1), Y, s.x)
    case TYX => Set(Skip(s, 1), X, s.y)
    case TXS => Skip(s, 1).(sp := if s.emul then InPageOne(s.x) else s.x)
    case TCS => Skip(s, 1).(sp := if s.emul then StackAt(true, s.d.c) else s.d.c)
    case _ => s
  }

  function ExecPush(op: Op, s: State): State {
    match op
    case PHP => PushStatus(s)
    case PHA => PushSized(s, s.d.c, s.emul || s.f.u)
    case PHI(r) => PushSized(s, Get(s, r), Narrow(s))
    case PHB => Push(s, s.d.dbr)
    case PHK => Push(s, s.pbr)
    case PHD => PushUnwrapped(s, s.d.dpr)
    case _ => s
  }

  function ExecPull(op: Op, s: State): State {
    match op
    case PLP => PullStatus(s)
    case PLA => PullA(s)
    case PLI(r) => PullIndex(s, r)
    case PLB => PullBank(s)
    case PLD => PullDirect(s)
    case _ => s
  }

  predicate IsPull(op: Op) {
    op.PLP? || op.PLA? || op.PLI? || op.PLB? || op.PLD?
  }

  function ExecStack(op: Op, s: State): State {
    if op.PEA? then PushUnwrapped(s.(pc := op.next), op.value)
    else if IsPull(op) then ExecPull(op, Skip(s, 1))
    else ExecPush(op, Skip(s, 1))
  }

  function ExecJump(op: Op, s: State): State {
    match op
    case JSR => Jsr(s)
    case JSR_IND_X => JsrIndexed(s)
    case JSR_LONG => JsrLong(s)
    case RTS => Rts(s)
    case RTL => Rtl(s)
    case RTI => Rti(s)
    case NMI => Interrupt(s, NMI_VECTOR)
    case IRQ => Interrupt(s, IRQ_VECTOR)
    case BRK => Software(s, BRK_VECTOR)
    case COP => Software(s, COP_VECTOR)
    case RES => Reset(s)
    case _ => s
  }

  predicate IsIndexOp(op: Op) {
    op.LDI? || op.INI? || op.DEI? || op.TAI? || op.TSX? || op.TXY? || op.TYX? || op.TXS? || op.TCS?
  }

  predicate IsStackOp(op: Op) {
    op.PHP? || op.PLP? || op.PHA? || op.PHI? || op.PHB? || op.PHK? || op.PHD? || op.PLA? || op.PLI? || op.PLB? || op.PLD? || op.PEA?
  }

  function Exec(op: Op, s: State): State {
    if IsIndexOp(op) then ExecIndex(op, s)
    else if IsStackOp(op) then ExecStack(op, s)
    else match op
      case XCE => Xce(s)
      case REP => RepSep(s, false)
      case SEP => RepSep(s, true)
      case MVN => Move(s, 1)
      case MVP => Move(s, -1)
      case Other(d, pbr, pc, f, mem) => s.(d := d, pbr := pbr, pc := pc, f := f.(b := s.f.b), mem := mem)
      case _ => ExecJump(op, s)
  }

  ghost predicate LeadsTo(op: Op, s: State, t: State) {
    forall o {:trigger Exec(o, s)} :: o == op ==> t == Exec(o, s)
  }

  /** The outcome of an instruction, folded: facts about whole runs do not look into instructions. */
  ghost function Result(op: Op, s: State): (t: State)
    ensures LeadsTo(op, s, t)
  {
    assert LeadsTo(op, s, Exec(op, s));
    var t :| LeadsTo(op, s, t);
    t
  }

  lemma ResultIs(op: Op, s: State)
    ensures Result(op, s) == Exec(op, s)
  {
  }
}
