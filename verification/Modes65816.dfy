/** The mode invariant of the 65816: in emulation mode the stack pointer stays in page one, and
    while the index registers are eight bits wide they hold bytes. */
module Modes65816 {
  import opened Words
  import opened Spec65816

  lemma StackInPageOne(sp: int)
    ensures 0x100 <= StackAt(true, sp) <= 0x1ff
  {
  }

  lemma PageOneOr(v: Word)
    requires v <= 0xff
    ensures 0x100 <= InPageOne(v) <= 0x1ff
  {
  }

  lemma PushKeeps(s: State, v: Byte)
    requires Modes(s)
    ensures Modes(Push(s, v)) && Push(s, v).f == s.f && Push(s, v).emul == s.emul
  {
    StackInPageOne(s.sp - 1);
  }

  lemma PullKeeps(s: State)
    requires Modes(s)
    ensures Modes(Pull(s).0) && Pull(s).0.f == s.f && Pull(s).0.emul == s.emul
  {
    StackInPageOne(s.sp + 1);
  }

  lemma SetKeeps(s: State, r: Index, v: Word)
    requires Modes(s) && (Narrow(s) ==> v <= 0xff)
    ensures Modes(Set(s, r, v))
  {
    hide NZ;
    NarrowFlag(s.f, v, Narrow(s));
  }

  lemma NarrowFlag(f: Bits, v: Word, narrow: bool)
    ensures NZ(f, v, narrow).b == f.b
  {
  }

  lemma IndexKeeps(op: Op, s: State)
    requires Modes(s) && IsIndexOp(op)
    ensures Modes(ExecIndex(op, s))
  {
    hide StackAt, Trunc, InPageOne, Set;
    StackInPageOne(s.d.c);
    if s.x <= 0xff {
      PageOneOr(s.x);
    }
    match op
    case LDI(r, v, next) => SetKeeps(s.(pc := next), r, FitIndex(s, v));
    case INI(r) => SetKeeps(Skip(s, 1), r, FitIndex(s, Trunc(Get(s, r) + 1)));
    case DEI(r) => SetKeeps(Skip(s, 1), r, FitIndex(s, Trunc(Get(s, r) - 1)));
    case TAI(r) => SetKeeps(Skip(s, 1), r, FitIndex(s, s.d.c));
    case TSX => SetKeeps(Skip(s, 1), X, FitIndex(s, s.sp));
    case TXY => SetKeeps(Skip(s, 1), Y, s.x);
    case TYX => SetKeeps(Skip(s, 1), X, s.y);
    case TXS =>
    case TCS =>
  }

  lemma WordKeeps(s: State, w: Word)
    requires Modes(s)
    ensures Modes(PushWord(s, w)) && PushWord(s, w).f == s.f && PushWord(s, w).emul == s.emul
    ensures Modes(PullWord(s).0) && PullWord(s).0.f == s.f && PullWord(s).0.emul == s.emul
    ensures Modes(PushUnwrapped(s, w))
  {
    hide Push, Pull;
    PushKeeps(s, High(w));
    PushKeeps(Push(s, High(w)), Low(w));
    PullKeeps(s);
    PullKeeps(Pull(s).0);
    StackInPageOne(s.sp - 2);
  }

  lemma StatusKeeps(s: State, v: Byte)
    requires s.emul ==> 0x100 <= s.sp <= 0x1ff
    ensures Modes(SetStatus(s, v))
  {
    hide Unpack;
  }

  lemma PushOpKeeps(op: Op, s: State)
    requires Modes(s) && (op.PHP? || op.PHA? || op.PHI? || op.PHB? || op.PHK? || op.PHD? || op.PEA?)
    ensures Modes(ExecStack(op, s))
  {
    hide Push, PushWord, PushUnwrapped, Pack;
    var t := Skip(s, 1);
    match op
    case PHP => PushKeeps(t, if s.emul then Pack(s.f.(u := true, b := true)) else Pack(s.f));
    case PHA => PushKeeps(t, Low(s.d.c)); WordKeeps(t, s.d.c);
    case PHI(r) => PushKeeps(t, Low(Get(s, r))); WordKeeps(t, Get(s, r));
    case PHB => PushKeeps(t, s.d.dbr);
    case PHK => PushKeeps(t, s.pbr);
    case PHD => WordKeeps(t, s.d.dpr);
    case PEA(v, next) => WordKeeps(s.(pc := next), v);
  }

  lemma PullDirectKeeps(s: State)
    requires Modes(s)
    ensures Modes(PullDirect(s))
  {
    hide StackAt, NZ, LoadLong, Trunc;
    StackInPageOne(s.sp + 2);
    NarrowFlag(s.f, Join(LoadLong(s.mem, Trunc(s.sp + 1)), LoadLong(s.mem, Trunc(s.sp + 2))), false);
  }

  lemma PullDataKeeps(s: State)
    requires Modes(s)
    ensures Modes(PullA(s)) && Modes(PullBank(s))
  {
    hide Pull, PullWord, NZ;
    PullKeeps(s);
    WordKeeps(s, 0);
    NarrowFlag(s.f, Pull(s).1, true);
    NarrowFlag(s.f, PullWord(s).1, false);
  }

  lemma PullIndexKeeps(s: State, r: Index)
    requires Modes(s)
    ensures Modes(PullIndex(s, r))
  {
    hide Pull, PullWord, Set;
    PullKeeps(s);
    WordKeeps(s, 0);
    if Narrow(s) {
      SetKeeps(Pull(s).0, r, Pull(s).1);
    } else {
      SetKeeps(PullWord(s).0, r, PullWord(s).1);
    }
  }

  lemma PullOpKeeps(op: Op, s: State)
    requires Modes(s) && IsPull(op)
    ensures Modes(ExecPull(op, s))
  {
    hide Modes, PullA, PullBank, PullIndex, PullDirect, Pull, SetStatus;
    match op
    case PLP => PullStatusKeeps(s);
    case PLA => PullDataKeeps(s);
    case PLI(r) => PullIndexKeeps(s, r);
    case PLB => PullDataKeeps(s);
    case PLD => PullDirectKeeps(s);
  }

  lemma PullStatusKeeps(s: State)
    requires Modes(s)
    ensures Modes(PullStatus(s))
  {
    hide Pull, SetStatus;
    PullKeeps(s);
    StatusKeeps(Pull(s).0, Pull(s).1);
  }

  lemma EnterKeeps(s: State, vector: Vector)
    requires Modes(s)
    ensures Modes(Enter(s, vector))
  {
    hide Push, PushWord, Status, LongWord;
    var t := if s.emul then s else Push(s, s.pbr);
    PushKeeps(s, s.pbr);
    WordKeeps(t, s.pc);
    PushKeeps(PushWord(t, s.pc), Status(s.emul, s.f));
  }

  /** A change of the break flag is a change of X only in name: it happens in emulation mode. */
  lemma JumpKeeps(op: Op, s: State)
    requires Modes(s) && !IsIndexOp(op) && !IsStackOp(op)
    ensures Modes(ExecJump(op, s))
  {
    hide PushWord, PushUnwrapped, PullWord, StackAt, Enter, Rti, Operand, LoadLong, LongWord, Trunc;
    WordKeeps(s, Trunc(s.pc + 2));
    StackInPageOne(s.sp + 3);
    StackInPageOne(s.sp - 3);
    match op {
      case RTI => RtiKeeps(s);
      case NMI => EnterKeeps(SetBreak(s, false), NMI_VECTOR);
      case IRQ => EnterKeeps(SetBreak(s, false), IRQ_VECTOR);
      case BRK => EnterKeeps(SetBreak(Skip(s, 2), true), BRK_VECTOR);
      case COP => EnterKeeps(SetBreak(Skip(s, 2), true), COP_VECTOR);
      case _ =>
    }
  }

  lemma RtiKeeps(s: State)
    requires Modes(s)
    ensures Modes(Rti(s))
  {
    hide Pull, PullWord, SetStatus;
    PullKeeps(s);
    var t := SetStatus(Pull(s).0, Pull(s).1);
    StatusKeeps(Pull(s).0, Pull(s).1);
    WordKeeps(t, 0);
    PullKeeps(PullWord(t).0);
  }

  /** Every instruction, interrupt and reset keeps the invariant. */
  lemma ModesKept(op: Op, s: State)
    requires Modes(s)
    ensures Modes(Result(op, s))
  {
    ResultIs(op, s);
    ExecKeeps(op, s);
  }

  lemma ExecKeeps(op: Op, s: State)
    requires Modes(s)
    ensures Modes(Exec(op, s))
  {
    hide ExecIndex, ExecPush, ExecPull, ExecJump, LoadLong, StackAt, Unpack;
    if IsIndexOp(op) {
      IndexKeeps(op, s);
    } else if IsStackOp(op) {
      if IsPull(op) {
        PullOpKeeps(op, Skip(s, 1));
      } else {
        PushOpKeeps(op, s);
      }
    } else {
      JumpKeeps(op, s);
      StackInPageOne(s.sp);
    }
  }

  /** Reset establishes it from any state. */
  lemma ResetEstablishes(s: State)
    ensures Modes(Exec(RES, s)) && Exec(RES, s).emul
  {
    StackInPageOne(s.sp - 3);
  }

  ghost function RunOps(s: State, ops: seq<Op>): State {
    if ops == [] then s else Result(ops[|ops| - 1], RunOps(s, ops[..|ops| - 1]))
  }

  /** Every run keeps it. */
  lemma {:induction false} ModesHold(s: State, ops: seq<Op>)
    requires Modes(s)
    ensures Modes(RunOps(s, ops))
  {
    hide Modes;
    if ops != [] {
      ModesHold(s, ops[..|ops| - 1]);
      ModesKept(ops[|ops| - 1], RunOps(s, ops[..|ops| - 1]));
    }
  }

  /** So it holds in every state reachable from a reset, whatever state the reset found. */
  lemma ModesReachable(s: State, ops: seq<Op>)
    ensures Modes(RunOps(Exec(RES, s), ops))
  {
    hide Modes;
    ResetEstablishes(s);
    ModesHold(Exec(RES, s), ops);
  }
}
