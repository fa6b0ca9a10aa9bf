/** The 65816 core: the macros that touch its modes, index registers and stack, statement by
    statement, against Spec65816.  N and Z are kept lazily as in the 6510 cores. */
module Cpu65816 {
  import opened Words
  import opened LazyStatus
  import S = Spec65816
  import opened Spec65816

  ghost function EagerBits(p: Bits, flagN: Byte, flagZ: Byte): Bits {
    p.(n := Negative(flagN), z := flagZ == 0)
  }

  /** LOCAL_65816_STATUS. */
  function LocalStatus65816(p: Bits, flagN: Byte, flagZ: Byte): Byte {
    Pack(p.(n := p.n || Negative(flagN), z := p.z || flagZ == 0))
  }

  /** The low byte of a 16-bit result folded with its high byte is zero only if both are. */
  lemma Folded(v: Word)
    ensures Or(Low(v), High(v)) == 0 <==> v == 0
    ensures Negative(High(v)) <==> v >= 0x8000
  {
  }

  class Wdc65816 {
    var c: Word
    var x: Word
    var y: Word
    var sp: Word
    var dpr: Word
    var pbr: Byte
    var dbr: Byte
    var pc: Word
    var emul: bool
    var p: Bits
    var flagN: Byte
    var flagZ: Byte
    var mem: LongMemory

    ghost predicate Valid()
      reads this
    {
      Clean(p)
    }

    ghost function Abs(): State
      reads this
    {
      State(Data(c, dpr, dbr), x, y, sp, pbr, pc, emul, EagerBits(p, flagN, flagZ), mem)
    }

    predicate X8()
      reads this
      ensures X8() == Narrow(Abs())
    {
      emul || p.b
    }

    method SetNZ(val: Word, bits8: bool)
      modifies `flagN, `flagZ
      ensures EagerBits(p, flagN, flagZ) == NZ(old(EagerBits(p, flagN, flagZ)), val, bits8)
    {
      hide Or, High;
      if bits8 {
        flagZ, flagN := Low(val), Low(val);
      } else {
        Folded(val);
        flagN := High(val);
        flagZ := Or(Low(val), flagN);
      }
    }

    method Push(val: Byte)
      modifies `mem, `sp
      ensures Abs() == S.Push(old(Abs()), val)
    {
      mem := mem[sp := val];
      if emul {
        sp := 0x100 + Low(sp - 1);
      } else {
        sp := Trunc(sp - 1);
      }
    }

    method Pull() returns (val: Byte)
      modifies `sp
      ensures (Abs(), val) == S.Pull(old(Abs()))
    {
      sp := if emul then 0x100 + Low(sp + 1) else Trunc(sp + 1);
      val := LoadLong(mem, sp);
    }

    method PushWord(val: Word)
      modifies `mem, `sp
      ensures Abs() == S.PushWord(old(Abs()), val)
    {
      Push(High(val));
      Push(Low(val));
    }

    method PullWord() returns (val: Word)
      modifies `sp
      ensures (Abs(), val) == S.PullWord(old(Abs()))
    {
      var lo := Pull();
      var hi := Pull();
      val := Join(lo, hi);
    }

    /** PEA, PEI, PER, PHD and JSR (nnnn,X): a raw store, a raw decrement, then a push. */
    method PushUnwrapped(val: Word)
      modifies `mem, `sp
      ensures Abs() == S.PushUnwrapped(old(Abs()), val)
    {
      UnwrappedTwo(emul, sp);
      mem := mem[sp := High(val)];
      sp := Trunc(sp - 1);
      Push(Low(val));
    }

    /** LOCAL_SET_STATUS. */
    method SetFlags(val: Byte)
      modifies `p, `flagN, `flagZ
      ensures Valid() && EagerBits(p, flagN, flagZ) == Unpack(val)
    {
      hide Unpack, Negative;
      UnpackSign(val);
      p := Unpack(val).(n := false, z := false);
      flagZ := Bit(!Unpack(val).z);
      flagN := val;
    }

    /** LOCAL_SET_STATUS and the cut of the index registers that follows it. */
    method SetStatus(val: Byte)
      modifies `p, `flagN, `flagZ, `x, `y
      ensures Valid() && Abs() == S.SetStatus(old(Abs()), val)
    {
      hide Unpack, Low, Negative;
      SetFlags(val);
      if emul || p.b {
        x := Low(x);
        y := Low(y);
      }
    }

    method PushStatus()
      requires Valid()
      modifies `mem, `sp
      ensures Abs() == S.Push(old(Abs()), Status(emul, Abs().f))
    {
      if emul {
        Push(LocalStatus(p, flagN, flagZ));
      } else {
        Push(LocalStatus65816(p, flagN, flagZ));
      }
    }

    // ---- Interrupts ------------------------------------------------------------------------

    method SaveState()
      requires Valid()
      modifies `mem, `sp
      ensures Abs() == Save(old(Abs()))
    {
      hide S.Push, S.PushWord, Status;
      if !emul {
        Push(pbr);
      }
      PushWord(pc);
      PushStatus();
    }

    method Enter(vector: Vector)
      requires Valid()
      modifies this
      ensures Valid() && Abs() == S.Enter(old(Abs()), vector)
    {
      hide Save, LongWord;
      SaveState();
      Vectored(vector);
    }

    method Vectored(vector: Vector)
      requires Valid()
      modifies `p, `pc, `pbr
      ensures var s := old(Abs());
              Valid() && Abs() == s.(f := s.f.(d := false, i := true), pbr := 0,
                                     pc := LongWord(s.mem, if s.emul then vector.emulation else vector.native))
    {
      hide LongWord, EagerBits;
      MaskInterrupts();
      pc := LongWord(mem, if emul then vector.emulation else vector.native);
      pbr := 0;
    }

    method MaskInterrupts()
      requires Valid()
      modifies `p
      ensures Valid() && EagerBits(p, flagN, flagZ) == old(EagerBits(p, flagN, flagZ)).(d := false, i := true)
    {
      p := p.(i := true);
      p := p.(d := false);
    }

    /** NMI and IRQ. */
    method Interrupt(vector: Vector)
      requires Valid()
      modifies this
      ensures Valid() && Abs() == S.Interrupt(old(Abs()), vector)
    {
      if emul {
        p := p.(b := false);
      }
      Enter(vector);
    }

    /** BRK and COP. */
    method Software(vector: Vector)
      requires Valid()
      modifies this
      ensures Valid() && Abs() == S.Software(old(Abs()), vector)
    {
      hide S.Enter;
      IncPc(2);
      if emul {
        p := p.(b := true);
      }
      Enter(vector);
    }

    method IncPc(value: nat)
      modifies `pc
      ensures Abs() == S.Skip(old(Abs()), value)
    {
      pc := Trunc(pc + value);
    }

    method Rti()
      requires Valid()
      modifies this
      ensures Valid() && Abs() == S.Rti(old(Abs()))
    {
      var tmp := Pull();
      SetStatus(tmp);
      var w := PullWord();
      if !emul {
        pbr := Pull();
      }
      pc := w;
    }

    // ---- Subroutines -------------------------------------------------------------------------

    function Param(addr: int): Byte
      reads this
    {
      LoadLong(mem, addr + BANK * pbr)
    }

    method Jsr()
      requires Valid()
      modifies this
      ensures Valid() && Abs() == S.Jsr(old(Abs()))
    {
      hide LoadLong, Trunc, Join, High, Low, StackAt;
      var p1 := Param(Trunc(pc + 1));
      var p2 := Param(Trunc(pc + 2));
      IncPc(2);
      PushWord(pc);
      pc := Join(p1, p2);
    }

    method Rts()
      requires Valid()
      modifies this
      ensures Valid() && Abs() == S.Rts(old(Abs()))
    {
      hide S.PullWord;
      pc := PullWord();
      IncPc(1);
    }

    /** The operand of JSR (nnnn,X) and the return address on the stack. */
    method JsrIndexedPush() returns (target: Word)
      modifies `pc, `mem, `sp
      ensures var s := old(Abs());
              var t := S.PushUnwrapped(s, Trunc(s.pc + 2));
              Abs() == t.(pc := Trunc(s.pc + 2)) && target == Join(Operand(s, 1), Operand(t, 2))
    {
      var p1 := Param(Trunc(pc + 1));
      IncPc(2);
      PushUnwrapped(pc);
      var p2 := Param(pc);
      target := Join(p1, p2);
    }

    method JsrIndexed()
      requires Valid()
      modifies this
      ensures Valid() && Abs() == S.JsrIndexed(old(Abs()))
    {
      hide S.PushUnwrapped, LoadLong, Operand;
      var target := JsrIndexedPush();
      var ea: int := Trunc(target + x);
      pc := Join(Param(ea), Param(Trunc(ea + 1)));
    }

    /** The bank and the address of the call go on the stack, with the fetch of the new bank between them. */
    method JsrLongPush()
      modifies `mem, `sp, `pbr
      ensures var s := old(Abs());
              var t := s.mem[s.sp := s.pbr];
              Abs() == s.(mem := t[Trunc(s.sp - 1) := High(s.pc)][Trunc(s.sp - 2) := Low(s.pc)],
                          sp := StackAt(s.emul, s.sp - 3), pbr := LoadLong(t, s.pc + BANK * s.pbr))
    {
      hide LoadLong, StackAt, High, Low;
      UnwrappedThree(emul, sp);
      mem := mem[sp := pbr];
      sp := Trunc(sp - 1);
      pbr := Param(pc);
      mem := mem[sp := High(pc)];
      sp := Trunc(sp - 1);
      Push(Low(pc));
    }

    method JsrLong()
      requires Valid()
      modifies this
      ensures Valid() && Abs() == S.JsrLong(old(Abs()))
    {
      hide LoadLong, StackAt, High, Low, Trunc;
      var p1 := Param(Trunc(pc + 1));
      var p2 := Param(Trunc(pc + 2));
      IncPc(3);
      JsrLongPush();
      pc := Join(p1, p2);
    }

    method Rtl()
      requires Valid()
      modifies this
      ensures Valid() && Abs() == S.Rtl(old(Abs()))
    {
      hide LoadLong;
      UnwrappedThree(emul, sp);
      sp := Trunc(sp + 1);
      pc := LoadLong(mem, sp);
      sp := Trunc(sp + 1);
      pc := pc + 0x100 * LoadLong(mem, sp);
      sp := Trunc(sp + 1);
      pbr := LoadLong(mem, sp);
      if emul {
        sp := Low(sp) + 0x100;
      }
      IncPc(1);
    }

    // ---- Modes ---------------------------------------------------------------------------------

    method Xce()
      requires Valid()
      modifies this
      ensures Valid() && Abs() == S.Xce(old(Abs()))
    {
      hide Trunc, Low, StackAt;
      IncPc(1);
      if p.c != emul {
        if p.c {
          ToEmulation();
        } else {
          ToNative();
        }
      }
    }

    method ToEmulation()
      requires Valid()
      modifies `emul, `p, `x, `y, `sp
      ensures var s := old(Abs());
              Valid() && Abs() == s.(emul := true, f := s.f.(c := false, b := false), x := Low(s.x), y := Low(s.y),
                                     sp := StackAt(true, s.sp))
    {
      hide Low;
      emul := true;
      p := p.(c := false);
      p := p.(b := false);
      x := Low(x);
      y := Low(y);
      sp := 0x100 + Low(sp);
    }

    method ToNative()
      requires Valid()
      modifies `emul, `p
      ensures var s := old(Abs()); Valid() && Abs() == s.(emul := false, f := s.f.(c := true, u := true, b := true))
    {
      emul := false;
      p := p.(c := true);
      p := p.(u := true);
      p := p.(b := true);
    }

    /** The eight tests of REP and SEP on the flags. */
    method Mask(value: Bits, v: bool)
      modifies `p, `flagN, `flagZ
      ensures p.n == old(p.n) && p.z == old(p.z)
      ensures EagerBits(p, flagN, flagZ) == Masked(old(EagerBits(p, flagN, flagZ)), value, v, emul)
    {
      hide Pick, Masked;
      MaskLazily(p, value, v, emul, Negative(flagN), flagZ == 0);
      p := Masked(p, value.(n := false, z := false), v, emul);
      MaskNZ(value, v);
    }

    method MaskNZ(value: Bits, v: bool)
      modifies `flagN, `flagZ
      ensures Negative(flagN) == Pick(value.n, v, old(Negative(flagN))) && (flagZ == 0) == Pick(value.z, v, old(flagZ == 0))
    {
      if value.n {
        flagN := 0x80 * Bit(v);
      }
      if value.z {
        flagZ := Bit(!v);
      }
    }

    /** REP and SEP. */
    method RepSep(v: bool)
      requires Valid()
      modifies this
      ensures Valid() && Abs() == S.RepSep(old(Abs()), v)
    {
      hide Unpack, LoadLong, Trunc, Low, Masked;
      var value := Unpack(Param(Trunc(pc + 1)));
      IncPc(2);
      Mask(value, v);
      if value.b && !emul && v {
        x := Low(x);
        y := Low(y);
      }
    }

    method ResetStack()
      modifies `sp
      ensures Abs() == old(Abs()).(sp := StackAt(true, old(sp) - 3))
    {
      sp := 0x100 + Low(sp);
      LowDown(sp);
      LowDown(old(sp));
      sp := 0x100 + Low(sp - 1);
      sp := 0x100 + Low(sp - 1);
      sp := 0x100 + Low(sp - 1);
    }

    method ResetModes()
      requires Valid()
      modifies `p, `emul, `x, `y, `sp
      ensures Valid()
      ensures var s := old(Abs());
              Abs() == s.(emul := true, f := s.f.(b := false, i := true, d := false), x := Low(s.x), y := Low(s.y),
                          sp := StackAt(true, s.sp - 3))
    {
      hide Low, StackAt;
      p := p.(b := false);
      emul := true;
      x := Low(x);
      y := Low(y);
      ResetStack();
      p := p.(i := true);
      p := p.(d := false);
    }

    method Reset()
      requires Valid()
      modifies this
      ensures Valid() && Abs() == S.Reset(old(Abs()))
    {
      hide LongWord, Low, StackAt;
      ResetModes();
      dpr := 0;
      dbr := 0;
      pbr := 0;
      pc := LongWord(mem, 0xfffc);
    }

    // ---- Index registers -----------------------------------------------------------------------

    /** The assignment and the flags that end LDI, INCDECI, TRANSI, TXY, TYX and PLI. */
    method SetIndex(r: Index, v: Word)
      requires Valid()
      modifies `x, `y, `flagN, `flagZ
      ensures Valid() && Abs() == S.Set(old(Abs()), r, v)
    {
      hide NZ;
      if r.X? {
        x := v;
      } else {
        y := v;
      }
      SetNZ(v, X8());
    }

    method IndexOp(op: Op)
      requires Valid() && IsIndexOp(op)
      modifies this
      ensures Valid() && Abs() == ExecIndex(op, old(Abs()))
    {
      hide S.Set, Low, InPageOne, StackAt, Trunc;
      var v: Word;
      if op.TXS? || op.TCS? {
        TransferToStack(op);
        return;
      }
      if op.LDI? {
        pc := op.next;
        v := op.value;
      } else {
        IncPc(1);
        v := if op.INI? then Trunc((if op.r.X? then x else y) + 1)
             else if op.DEI? then Trunc((if op.r.X? then x else y) - 1)
             else if op.TAI? then c else if op.TSX? then sp else if op.TXY? then x else y;
      }
      if X8() && !op.TXY? && !op.TYX? {
        v := Low(v);
      }
      SetIndex(if op.TSX? || op.TYX? then X else if op.TXY? then Y else op.r, v);
    }

    method TransferToStack(op: Op)
      requires Valid() && (op.TXS? || op.TCS?)
      modifies `pc, `sp
      ensures Abs() == ExecIndex(op, old(Abs()))
    {
      IncPc(1);
      if emul {
        sp := if op.TXS? then InPageOne(x) else 0x100 + Low(c);
      } else {
        sp := if op.TXS? then x else c;
      }
    }

    // ---- Stack instructions ----------------------------------------------------------------------

    method Php()
      requires Valid()
      modifies `mem, `sp
      ensures Abs() == S.PushStatus(old(Abs()))
    {
      if emul {
        Push(LocalStatus(p.(b := true), flagN, flagZ));
      } else {
        Push(LocalStatus65816(p, flagN, flagZ));
      }
    }

    method Plp()
      requires Valid()
      modifies `sp, `p, `flagN, `flagZ, `x, `y
      ensures Valid() && Abs() == S.PullStatus(old(Abs()))
    {
      hide S.Pull, S.SetStatus;
      var s := Pull();
      SetStatus(s);
    }

    method Pld()
      requires Valid()
      modifies `sp, `dpr, `flagN, `flagZ
      ensures Valid() && Abs() == PullDirect(old(Abs()))
    {
      hide NZ, LoadLong;
      UnwrappedThree(emul, sp);
      UnwrappedUp(emul, sp);
      sp := Trunc(sp + 1);
      dpr := LoadLong(mem, sp);
      sp := Trunc(sp + 1);
      dpr := dpr + 0x100 * LoadLong(mem, sp);
      if emul {
        sp := Low(sp) + 0x100;
      }
      SetNZ(dpr, false);
    }

    method Plb()
      requires Valid()
      modifies `sp, `dbr, `flagN, `flagZ
      ensures Valid() && Abs() == PullBank(old(Abs()))
    {
      hide NZ, S.Pull;
      dbr := Pull();
      SetNZ(dbr, true);
    }

    method PullAccumulator()
      requires Valid()
      modifies `sp, `c, `flagN, `flagZ
      ensures Valid() && Abs() == S.PullA(old(Abs()))
    {
      hide NZ, S.Pull, S.PullWord;
      if emul || p.u {
        var v := Pull();
        c := Join(v, High(c));
        SetNZ(v, true);
      } else {
        c := PullWord();
        SetNZ(c, false);
      }
    }

    method PullIndexRegister(r: Index)
      requires Valid()
      modifies `sp, `x, `y, `flagN, `flagZ
      ensures Valid() && Abs() == S.PullIndex(old(Abs()), r)
    {
      hide S.Set, S.Pull, S.PullWord;
      var v: Word;
      if X8() {
        v := Pull();
      } else {
        v := PullWord();
      }
      SetIndex(r, v);
    }

    method PushValue(v: Word, bits8: bool)
      modifies `mem, `sp
      ensures Abs() == PushSized(old(Abs()), v, bits8)
    {
      if bits8 {
        Push(Low(v));
      } else {
        PushWord(v);
      }
    }

    method PushOp(op: Op)
      requires Valid() && IsStackOp(op) && !IsPull(op) && !op.PEA?
      modifies `mem, `sp
      ensures Valid() && Abs() == ExecPush(op, old(Abs()))
    {
      hide S.Push, S.PushUnwrapped, PushSized, S.PushStatus;
      if op.PHP? {
        Php();
      } else if op.PHA? {
        PushValue(c, emul || p.u);
      } else if op.PHI? {
        PushValue(if op.r.X? then x else y, X8());
      } else if op.PHB? {
        Push(dbr);
      } else if op.PHK? {
        Push(pbr);
      } else {
        PushUnwrapped(dpr);
      }
    }

    method PullOp(op: Op)
      requires Valid() && IsPull(op)
      modifies this
      ensures Valid() && Abs() == ExecPull(op, old(Abs()))
    {
      hide Abs, Valid, S.PullA, S.PullIndex, PullDirect, PullBank, S.PullStatus;
      if op.PLP? {
        Plp();
      } else if op.PLA? {
        PullAccumulator();
      } else if op.PLI? {
        PullIndexRegister(op.r);
      } else if op.PLB? {
        Plb();
      } else {
        Pld();
      }
    }

    /** PEA, PEI and PER. */
    method Pea(value: Word, next: Word)
      requires Valid()
      modifies this
      ensures Valid() && Abs() == S.PushUnwrapped(old(Abs()).(pc := next), value)
    {
      hide S.PushUnwrapped;
      pc := next;
      PushUnwrapped(value);
    }

    method StackOp(op: Op)
      requires Valid() && IsStackOp(op)
      modifies this
      ensures Valid() && Abs() == ExecStack(op, old(Abs()))
    {
      hide Abs, ExecPush, ExecPull, S.PushUnwrapped, S.Skip;
      if op.PEA? {
        Pea(op.value, op.next);
      } else if IsPull(op) {
        IncPc(1);
        PullOp(op);
      } else {
        IncPc(1);
        PushOp(op);
      }
    }

    // ---- Block moves -----------------------------------------------------------------------------

    /** p1 and the bank of the source, and the program counter behind the last move. */
    method MoveOperands() returns (p1: Byte)
      modifies `pc, `dbr
      ensures var s := old(Abs());
              p1 == MoveBank(s, 1)
              && Abs() == s.(d := s.d.(dbr := MoveBank(s, 2)), pc := if s.d.c == 0 then Trunc(s.pc + 3) else s.pc)
    {
      if c == 0 {
        IncPc(1);
        p1 := Param(pc);
        IncPc(1);
        dbr := Param(pc);
        IncPc(1);
      } else {
        p1 := Param(pc + 1);
        dbr := Param(pc + 2);
      }
    }

    method MoveIndices(step: int)
      modifies `x, `y
      ensures var s := old(Abs());
              Abs() == s.(x := FitIndex(s, Trunc(s.x + step)), y := FitIndex(s, Trunc(s.y + step)))
    {
      x := Trunc(x + step);
      y := Trunc(y + step);
      if X8() {
        x := Low(x);
        y := Low(y);
      }
    }

    /** MVN with step 1, MVP with step -1. */
    method Move(step: int)
      requires Valid()
      modifies this
      ensures Valid() && Abs() == S.Move(old(Abs()), step)
    {
      hide LoadLong, MoveBank, Trunc, Low;
      var p1 := MoveOperands();
      var tmp := LoadLong(mem, x + BANK * dbr);
      dbr := p1;
      mem := mem[y + BANK * dbr := tmp];
      MoveIndices(step);
      c := Trunc(c - 1);
    }

    // ---- Every instruction ---------------------------------------------------------------------------

    method JumpOp(op: Op)
      requires Valid() && (op.JSR? || op.JSR_IND_X? || op.JSR_LONG? || op.RTS? || op.RTL? || op.RTI?)
      modifies this
      ensures Valid() && Abs() == ExecJump(op, old(Abs()))
    {
      hide Abs, Valid, S.Jsr, S.JsrIndexed, S.JsrLong, S.Rts, S.Rtl, S.Rti;
      if op.JSR? {
        Jsr();
      } else if op.JSR_IND_X? {
        JsrIndexed();
      } else if op.JSR_LONG? {
        JsrLong();
      } else if op.RTS? {
        Rts();
      } else if op.RTL? {
        Rtl();
      } else {
        Rti();
      }
    }

    method EnterOp(op: Op)
      requires Valid() && (op.NMI? || op.IRQ? || op.BRK? || op.COP? || op.RES?)
      modifies this
      ensures Valid() && Abs() == ExecJump(op, old(Abs()))
    {
      hide Abs, Valid, S.Interrupt, S.Software, S.Reset;
      if op.NMI? {
        Interrupt(NMI_VECTOR);
      } else if op.IRQ? {
        Interrupt(IRQ_VECTOR);
      } else if op.BRK? {
        Software(BRK_VECTOR);
      } else if op.COP? {
        Software(COP_VECTOR);
      } else {
        Reset();
      }
    }

    method WidthOp(op: Op)
      requires Valid() && (op.XCE? || op.REP? || op.SEP? || op.MVN? || op.MVP? || op.Other?)
      modifies this
      ensures Valid() && Abs() == Exec(op, old(Abs()))
    {
      hide Abs, Valid, ExecIndex, ExecStack, ExecJump, S.Xce, S.RepSep, S.Move;
      if op.XCE? {
        Xce();
      } else if op.REP? {
        RepSep(false);
      } else if op.SEP? {
        RepSep(true);
      } else if op.MVN? {
        Move(1);
      } else if op.MVP? {
        Move(-1);
      } else {
        Assign(op.d, op.pbr, op.pc, op.f, op.mem);
      }
    }

    method AssignFlags(f: Bits)
      modifies `flagN, `flagZ, `p
      ensures Clean(p) && EagerBits(p, flagN, flagZ) == f.(b := old(p.b))
    {
      flagN, flagZ := 0x80 * Bit(f.n), Bit(!f.z);
      p := f.(n := false, z := false, b := p.b);
    }

    /** Whatever else an instruction may change. */
    method Assign(d: Data, bank: Byte, next: Word, f: Bits, memory: LongMemory)
      requires Valid()
      modifies `c, `dpr, `dbr, `pbr, `pc, `mem, `flagN, `flagZ, `p
      ensures Valid() && Abs() == old(Abs()).(d := d, pbr := bank, pc := next, f := f.(b := old(Abs()).f.b), mem := memory)
    {
      hide EagerBits;
      c, dpr, dbr, pbr, pc, mem := d.c, d.dpr, d.dbr, bank, next, memory;
      ShownB(p, flagN, flagZ);
      AssignFlags(f);
    }

    method Execute(op: Op)
      requires Valid()
      modifies this
      ensures Valid() && Abs() == Exec(op, old(Abs()))
    {
      hide Abs, Valid, ExecIndex, ExecStack, ExecJump, S.Xce, S.RepSep, S.Move;
      if IsIndexOp(op) {
        IndexOp(op);
      } else if IsStackOp(op) {
        StackOp(op);
      } else if op.XCE? || op.REP? || op.SEP? || op.MVN? || op.MVP? || op.Other? {
        WidthOp(op);
      } else if op.NMI? || op.IRQ? || op.BRK? || op.COP? || op.RES? {
        EnterOp(op);
      } else {
        JumpOp(op);
      }
    }
  }

  lemma ShownB(p: Bits, flagN: Byte, flagZ: Byte)
    ensures EagerBits(p, flagN, flagZ).b == p.b
  {
  }

  /** Single steps of the stack pointer, only the last one brought back to page one. */
  lemma UnwrappedTwo(emul: bool, sp: Word)
    ensures StackAt(emul, Trunc(sp - 1) - 1) == StackAt(emul, sp - 2)
  {
  }

  lemma UnwrappedThree(emul: bool, sp: Word)
    ensures Trunc(Trunc(sp - 1) - 1) == Trunc(sp - 2) && StackAt(emul, Trunc(sp - 2) - 1) == StackAt(emul, sp - 3)
    ensures Trunc(Trunc(sp + 1) + 1) == Trunc(sp + 2) && Trunc(Trunc(sp + 2) + 1) == Trunc(sp + 3)
    ensures StackAt(emul, sp + 3) == if emul then Low(Trunc(sp + 3)) + 0x100 else Trunc(sp + 3)
  {
  }

  lemma UnwrappedUp(emul: bool, sp: Word)
    ensures StackAt(emul, sp + 2) == if emul then Low(Trunc(sp + 2)) + 0x100 else Trunc(sp + 2)
  {
  }

  lemma LowDown(sp: int)
    ensures Low(sp - 3) == Low(0x100 + Low(0x100 + Low(0x100 + Low(sp) - 1) - 1) - 1)
  {
  }

  /** N and Z are masked where they live. */
  lemma MaskLazily(p: Bits, mask: Bits, on: bool, emul: bool, n: bool, z: bool)
    ensures var q := Masked(p, mask.(n := false, z := false), on, emul);
            q.n == p.n && q.z == p.z
            && Masked(p.(n := n, z := z), mask, on, emul) == q.(n := Pick(mask.n, on, n), z := Pick(mask.z, on, z))
  {
  }
}
