/** The 65816 stack in native mode, where it wraps at the end of bank 0: interrupts with RTI, far
    calls with RTL, calls with RTS and pushes with pulls nest as on a stack of frames. */
module NativeStack {
  import opened Words
  import opened Wrappers
  import opened Spec65816
  import opened Modes65816

  datatype Frame =
    | Return(w: Word)                              // JSR
    | Far(w: Word, bank: Byte)                     // JSR_LONG
    | Interrupted(f: Bits, w: Word, bank: Byte)    // NMI, IRQ, BRK and COP
    | Saved(data: seq<Byte>)                       // the push instructions

  function Bytes(fr: Frame): seq<Byte> {
    match fr
    case Return(w) => [Low(w), High(w)]
    case Far(w, bank) => [Low(w), High(w), bank]
    case Interrupted(f, w, bank) => [Pack(f), Low(w), High(w), bank]
    case Saved(data) => data
  }

  /** The d cells above sp, wrapping inside bank 0. */
  function Cells(m: LongMemory, sp: Word, d: nat): (r: seq<Byte>)
    ensures |r| == d
    decreases d
  {
    if d == 0 then [] else [LoadLong(m, Trunc(sp + 1))] + Cells(m, Trunc(sp + 1), d - 1)
  }

  /** The d bytes on top of the stack. */
  function Top(s: State, d: nat): seq<Byte> {
    Cells(s.mem, s.sp, d)
  }

  // ---- Pushing and pulling ------------------------------------------------------------------------

  lemma TopLength(s: State, d: nat)
    ensures |Top(s, d)| == d
  {
  }

  lemma SameTop(s: State, t: State, d: nat)
    requires s.mem == t.mem && s.sp == t.sp
    ensures Top(s, d) == Top(t, d)
  {
  }

  /** A write to a cell is not seen from the j-th cell above it, as long as the bank is not filled. */
  lemma {:induction false} CellsFrame(m: LongMemory, a: Word, v: Byte, j: nat, d: nat)
    requires j + d < BANK
    ensures Cells(m[a := v], Trunc(a + j), d) == Cells(m, Trunc(a + j), d)
    decreases d
  {
    if d > 0 {
      assert Trunc(Trunc(a + j) + 1) == Trunc(a + (j + 1)) != a;
      CellsFrame(m, a, v, j + 1, d - 1);
    }
  }

  lemma PushTop(s: State, v: Byte, d: nat)
    requires !s.emul && d < BANK
    ensures Top(Push(s, v), d + 1) == [v] + Top(s, d)
  {
    assert Trunc(Trunc(s.sp - 1) + 1) == s.sp == Trunc(s.sp + 0);
    CellsFrame(s.mem, s.sp, v, 0, d);
  }

  lemma PullTop(s: State, d: nat)
    requires !s.emul && d > 0
    ensures Pull(s).1 == Top(s, d)[0] && Top(Pull(s).0, d - 1) == Top(s, d)[1..]
  {
  }

  lemma Down(sp: Word, n: int, k: int)
    ensures Trunc(Trunc(sp - n) - k) == Trunc(sp - (n + k))
  {
    TruncAdd(sp - n, -k);
  }

  lemma Up(sp: Word, n: int, k: int)
    ensures Trunc(Trunc(sp + n) + k) == Trunc(sp + (n + k))
  {
    TruncAdd(sp + n, k);
  }

  lemma PushWordTop(s: State, w: Word, d: nat)
    requires !s.emul && d + 2 <= BANK
    ensures Top(PushWord(s, w), d + 2) == [Low(w), High(w)] + Top(s, d)
    ensures PushWord(s, w) == s.(mem := PushWord(s, w).mem, sp := Trunc(s.sp - 2))
  {
    hide Top;
    PushTop(s, High(w), d);
    PushTop(Push(s, High(w)), Low(w), d + 1);
    Down(s.sp, 1, 1);
    assert [Low(w)] + ([High(w)] + Top(s, d)) == [Low(w), High(w)] + Top(s, d);
  }

  lemma PullWordTop(s: State, d: nat)
    requires !s.emul && d >= 2
    ensures PullWord(s).1 == Join(Top(s, d)[0], Top(s, d)[1]) && Top(PullWord(s).0, d - 2) == Top(s, d)[2..]
    ensures PullWord(s).0 == s.(sp := Trunc(s.sp + 2))
  {
    TopLength(s, d);
    TopLength(Pull(s).0, d - 1);
    hide Top;
    PullTop(s, d);
    PullTop(Pull(s).0, d - 1);
    Up(s.sp, 1, 1);
  }

  /** In native mode nothing needs to be brought back to page one. */
  lemma UnwrappedIsWord(s: State, w: Word)
    requires !s.emul
    ensures PushUnwrapped(s, w) == PushWord(s, w)
  {
    Down(s.sp, 1, 1);
  }

  lemma SaveTop(s: State, d: nat)
    requires !s.emul && d + 4 <= BANK
    ensures Top(Save(s), d + 4) == Bytes(Interrupted(s.f, s.pc, s.pbr)) + Top(s, d)
    ensures Save(s) == s.(mem := Save(s).mem, sp := Trunc(s.sp - 4))
  {
    hide Top, Pack, PushWord;
    var t := Push(s, s.pbr);
    PushTop(s, s.pbr, d);
    PushWordTop(t, s.pc, d + 1);
    PushTop(PushWord(t, s.pc), Status(s.emul, s.f), d + 3);
    Down(s.sp, 1, 2);
    Down(s.sp, 3, 1);
    assert [Pack(s.f)] + ([Low(s.pc), High(s.pc)] + ([s.pbr] + Top(s, d))) == Bytes(Interrupted(s.f, s.pc, s.pbr)) + Top(s, d);
  }

  // ---- Frames -------------------------------------------------------------------------------------

  function Sized(v: Word, bits8: bool): seq<Byte> {
    if bits8 then [Low(v)] else [Low(v), High(v)]
  }

  function SavedBytes(s: State, op: Op): seq<Byte> {
    match op
    case PHP => [Pack(s.f)]
    case PHA => Sized(s.d.c, s.f.u)
    case PHI(r) => Sized(Get(s, r), s.f.b)
    case PHB => [s.d.dbr]
    case PHK => [s.pbr]
    case PHD => Sized(s.d.dpr, false)
    case PEA(v, _) => Sized(v, false)
    case _ => []
  }

  /** The frame an instruction or interrupt pushes. */
  function Pushed(s: State, op: Op): Option<Frame> {
    if op.NMI? || op.IRQ? then Some(Interrupted(s.f, s.pc, s.pbr))
    else if op.BRK? || op.COP? then Some(Interrupted(s.f, Trunc(s.pc + 2), s.pbr))
    else if op.JSR? || op.JSR_IND_X? then Some(Return(Trunc(s.pc + 2)))
    else if op.JSR_LONG? then Some(Far(Trunc(s.pc + 3), s.pbr))
    else if IsStackOp(op) && !IsPull(op) then Some(Saved(SavedBytes(s, op)))
    else None
  }

  function PullSize(s: State, op: Op): nat {
    match op
    case PLA => if s.f.u then 1 else 2
    case PLI(_) => if s.f.b then 1 else 2
    case PLD => 2
    case _ => 1
  }

  predicate IsPop(op: Op) {
    op.RTS? || op.RTL? || op.RTI? || IsPull(op)
  }

  /** Does the instruction take this frame off, and all of it? */
  predicate Pops(s: State, op: Op, fr: Frame) {
    match fr
    case Return(_) => op.RTS?
    case Far(_, _) => op.RTL?
    case Interrupted(_, _, _) => op.RTI?
    case Saved(data) => IsPull(op) && |data| == PullSize(s, op)
  }

  /** What pulling the frame in state s gives back in state t. */
  predicate Restores(s: State, t: State, fr: Frame) {
    match fr
    case Return(w) => t.pc == Trunc(w + 1) && t.pbr == s.pbr && t.f == s.f
    case Far(w, bank) => t.pc == Trunc(w + 1) && t.pbr == bank && t.f == s.f
    case Interrupted(f, w, bank) =>
      t.pc == w && t.pbr == bank && t.f == f && (if f.b then t.x == Low(s.x) && t.y == Low(s.y) else t.x == s.x && t.y == s.y)
    case Saved(_) => t.pbr == s.pbr
  }

  // ---- One instruction ----------------------------------------------------------------------------

  lemma InterruptPushes(s: State, vector: Vector, d: nat)
    requires !s.emul && d + 4 <= BANK
    ensures var t := Interrupt(s, vector);
            Top(t, d + 4) == Bytes(Interrupted(s.f, s.pc, s.pbr)) + Top(s, d) && t.sp == Trunc(s.sp - 4) && !t.emul
  {
    hide Top, Save, LongWord, Bytes;
    SaveTop(s, d);
    SameTop(Interrupt(s, vector), Save(s), d + 4);
  }

  lemma SoftwarePushes(s: State, vector: Vector, d: nat)
    requires !s.emul && d + 4 <= BANK
    ensures var t := Software(s, vector);
            Top(t, d + 4) == Bytes(Interrupted(s.f, Trunc(s.pc + 2), s.pbr)) + Top(s, d) && t.sp == Trunc(s.sp - 4) && !t.emul
  {
    hide Top, Save, LongWord, Bytes, Trunc;
    var u := Skip(s, 2);
    SaveTop(u, d);
    SameTop(u, s, d);
    SameTop(Software(s, vector), Save(u), d + 4);
  }

  lemma CallPushes(s: State, d: nat)
    requires !s.emul && d + 2 <= BANK
    ensures Top(Jsr(s), d + 2) == Bytes(Return(Trunc(s.pc + 2))) + Top(s, d) && Jsr(s).sp == Trunc(s.sp - 2) && !Jsr(s).emul
    ensures Top(JsrIndexed(s), d + 2) == Bytes(Return(Trunc(s.pc + 2))) + Top(s, d)
    ensures JsrIndexed(s).sp == Trunc(s.sp - 2) && !JsrIndexed(s).emul
  {
    hide Top, PushWord, PushUnwrapped, LoadLong, Operand, Trunc;
    var w := Trunc(s.pc + 2);
    PushWordTop(s, w, d);
    UnwrappedIsWord(s, w);
    SameTop(Jsr(s), PushWord(s, w), d + 2);
    SameTop(JsrIndexed(s), PushWord(s, w), d + 2);
  }

  /** JSR_LONG pushes the bank and then the word. */
  lemma FarIsPushes(s: State)
    requires !s.emul
    ensures var t := PushWord(Push(s, s.pbr), Trunc(s.pc + 3));
            JsrLong(s).mem == t.mem && JsrLong(s).sp == t.sp == Trunc(s.sp - 3) && !JsrLong(s).emul
  {
    hide LoadLong, Operand, Low, High;
    Down(s.sp, 1, 1);
    Down(s.sp, 2, 1);
  }

  lemma FarPushes(s: State, d: nat)
    requires !s.emul && d + 3 <= BANK
    ensures Top(JsrLong(s), d + 3) == Bytes(Far(Trunc(s.pc + 3), s.pbr)) + Top(s, d)
    ensures JsrLong(s).sp == Trunc(s.sp - 3) && !JsrLong(s).emul
  {
    hide Top, PushWord, JsrLong, Trunc;
    var w, u := Trunc(s.pc + 3), Push(s, s.pbr);
    FarIsPushes(s);
    PushTop(s, s.pbr, d);
    PushWordTop(u, w, d + 1);
    SameTop(JsrLong(s), PushWord(u, w), d + 3);
    assert [Low(w), High(w)] + ([s.pbr] + Top(s, d)) == [Low(w), High(w), s.pbr] + Top(s, d);
  }

  lemma SizedPushes(s: State, v: Word, bits8: bool, d: nat)
    requires !s.emul && d + |Sized(v, bits8)| <= BANK
    ensures var t := PushSized(s, v, bits8);
            Top(t, d + |Sized(v, bits8)|) == Sized(v, bits8) + Top(s, d) && t.sp == Trunc(s.sp - |Sized(v, bits8)|) && !t.emul
  {
    hide Top, PushWord;
    if bits8 {
      PushTop(s, Low(v), d);
    } else {
      PushWordTop(s, v, d);
    }
  }

  lemma StackPushes(s: State, op: Op, d: nat)
    requires !s.emul && IsStackOp(op) && !IsPull(op) && d + |SavedBytes(s, op)| <= BANK
    ensures var t := ExecStack(op, s);
            Top(t, d + |SavedBytes(s, op)|) == SavedBytes(s, op) + Top(s, d)
            && t.sp == Trunc(s.sp - |SavedBytes(s, op)|) && !t.emul
  {
    hide Top, Push, PushWord, PushUnwrapped, Pack, Trunc;
    var u := if op.PEA? then s.(pc := op.next) else Skip(s, 1);
    SameTop(s, u, d);
    match op {
      case PHP => ByteSaved(u, Pack(s.f), d);
      case PHA => SizedPushes(u, s.d.c, s.f.u, d);
      case PHI(r) => SizedPushes(u, Get(s, r), s.f.b, d);
      case PHB => ByteSaved(u, s.d.dbr, d);
      case PHK => ByteSaved(u, s.pbr, d);
      case PHD => UnwrappedIsWord(u, s.d.dpr); SizedPushes(u, s.d.dpr, false, d);
      case PEA(v, _) => UnwrappedIsWord(u, v); SizedPushes(u, v, false, d);
    }
  }

  lemma ByteSaved(s: State, v: Byte, d: nat)
    requires !s.emul && d + 1 <= BANK
    ensures Top(Push(s, v), d + 1) == [v] + Top(s, d) && Push(s, v).sp == Trunc(s.sp - 1) && !Push(s, v).emul
  {
    hide Top;
    PushTop(s, v, d);
  }

  /** t has the frame on top of what s had. */
  predicate Adds(s: State, t: State, fr: Frame, d: nat) {
    Top(t, d + |Bytes(fr)|) == Bytes(fr) + Top(s, d) && t.sp == Trunc(s.sp - |Bytes(fr)|) && !t.emul
  }

  lemma EnterAdds(s: State, op: Op, d: nat)
    requires !s.emul && d + 4 <= BANK && (op.NMI? || op.IRQ?)
    ensures Adds(s, Exec(op, s), Interrupted(s.f, s.pc, s.pbr), d)
  {
    hide Top, Interrupt, Trunc, Pack;
    InterruptPushes(s, NMI_VECTOR, d);
    InterruptPushes(s, IRQ_VECTOR, d);
  }

  lemma SoftwareAdds(s: State, op: Op, d: nat)
    requires !s.emul && d + 4 <= BANK && (op.BRK? || op.COP?)
    ensures Adds(s, Exec(op, s), Interrupted(s.f, Trunc(s.pc + 2), s.pbr), d)
  {
    hide Top, Software, Trunc, Pack;
    SoftwarePushes(s, BRK_VECTOR, d);
    SoftwarePushes(s, COP_VECTOR, d);
  }

  lemma CallAdds(s: State, op: Op, d: nat)
    requires !s.emul && d + 2 <= BANK && (op.JSR? || op.JSR_IND_X?)
    ensures Adds(s, Exec(op, s), Return(Trunc(s.pc + 2)), d)
  {
    hide Top, Jsr, JsrIndexed, Trunc;
    CallPushes(s, d);
  }

  lemma FarAdds(s: State, d: nat)
    requires !s.emul && d + 3 <= BANK
    ensures Adds(s, Exec(JSR_LONG, s), Far(Trunc(s.pc + 3), s.pbr), d)
  {
    hide Top, JsrLong, Trunc;
    FarPushes(s, d);
  }

  lemma StackAdds(s: State, op: Op, d: nat)
    requires !s.emul && IsStackOp(op) && !IsPull(op) && d + |SavedBytes(s, op)| <= BANK
    ensures Adds(s, Exec(op, s), Saved(SavedBytes(s, op)), d)
  {
    hide Top, ExecStack, Trunc, SavedBytes;
    StackPushes(s, op, d);
  }

  lemma Pushes(s: State, op: Op, fr: Frame, d: nat)
    requires !s.emul && Pushed(s, op) == Some(fr) && d + |Bytes(fr)| <= BANK
    ensures Adds(s, Result(op, s), fr, d)
  {
    hide Top, Exec, Adds, Trunc, Pack, SavedBytes;
    ResultIs(op, s);
    if op.NMI? || op.IRQ? {
      EnterAdds(s, op, d);
    } else if op.BRK? || op.COP? {
      SoftwareAdds(s, op, d);
    } else if op.JSR? || op.JSR_IND_X? {
      CallAdds(s, op, d);
    } else if op.JSR_LONG? {
      FarAdds(s, d);
    } else {
      StackAdds(s, op, d);
    }
  }

  lemma JoinHalves(w: Word)
    ensures Join(Low(w), High(w)) == w
  {
  }

  lemma ReturnPulls(s: State, w: Word, rest: seq<Byte>)
    requires !s.emul && Top(s, 2 + |rest|) == [Low(w), High(w)] + rest
    ensures var t := Rts(s);
            Restores(s, t, Return(w)) && Top(t, |rest|) == rest && t.sp == Trunc(s.sp + 2) && !t.emul
  {
    hide Top, PullWord, Low, High, Join, Trunc;
    PullWordTop(s, 2 + |rest|);
    JoinHalves(w);
    SameTop(Rts(s), PullWord(s).0, |rest|);
  }

  lemma FarPulls(s: State, w: Word, bank: Byte, rest: seq<Byte>)
    requires !s.emul && Top(s, 3 + |rest|) == [Low(w), High(w), bank] + rest
    ensures var t := Rtl(s);
            Restores(s, t, Far(w, bank)) && Top(t, |rest|) == rest && t.sp == Trunc(s.sp + 3) && !t.emul
  {
    hide Top, PullWord, Rtl, Low, High, Join, Trunc;
    var d := 3 + |rest|;
    PullWordTop(s, d);
    var u := PullWord(s).0;
    PullTop(u, d - 2);
    JoinHalves(w);
    FarIsPulls(s);
    SameTop(Rtl(s), Pull(u).0, |rest|);
  }

  /** RTL pulls the word and then the bank. */
  lemma FarIsPulls(s: State)
    requires !s.emul
    ensures var r := PullWord(s);
            var b := Pull(r.0);
            Rtl(s) == b.0.(pc := Trunc(r.1 + 1), pbr := b.1) && Rtl(s).sp == Trunc(s.sp + 3)
  {
    hide LoadLong, Join;
    Up(s.sp, 1, 1);
    Up(s.sp, 2, 1);
  }

  lemma InterruptedPulls(s: State, f: Bits, w: Word, bank: Byte, rest: seq<Byte>)
    requires !s.emul && Top(s, 4 + |rest|) == [Pack(f), Low(w), High(w), bank] + rest
    ensures var t := Rti(s);
            Restores(s, t, Interrupted(f, w, bank)) && Top(t, |rest|) == rest && t.sp == Trunc(s.sp + 4) && !t.emul
  {
    hide Top, Pack, Unpack, PullWord, Low, High, Join, Trunc;
    var d := 4 + |rest|;
    PullTop(s, d);
    UnpackPack(f);
    var p := Pull(s);
    var u := SetStatus(p.0, p.1);
    SameTop(p.0, u, d - 1);
    PullWordTop(u, d - 1);
    JoinHalves(w);
    var r := PullWord(u).0;
    PullTop(r, d - 3);
    Up(s.sp, 1, 2);
    Up(s.sp, 3, 1);
    SameTop(Rti(s), Pull(r).0, |rest|);
  }

  /** The pull instructions take as many bytes as their register is wide. */
  lemma SavedPulls(s: State, op: Op, d: nat)
    requires !s.emul && IsPull(op) && PullSize(s, op) <= d
    ensures var n := PullSize(s, op);
            var t := Result(op, s);
            Top(t, d - n) == Top(s, d)[n..] && t.sp == Trunc(s.sp + n) && !t.emul && t.pbr == s.pbr
  {
    hide Top, Exec, Trunc, ExecPull, Pull, PullWord;
    ResultIs(op, s);
    TopLength(s, d);
    var u := Skip(s, 1);
    PullsAreStackOps(s, op);
    PulledAlike(u, op);
    PullsLeave(u);
    SameTop(s, u, d);
    if PullSize(s, op) == 1 {
      OnePulled(u, d);
      SameTop(Exec(op, s), Pull(u).0, d - 1);
    } else {
      PullWordTop(u, d);
      SameTop(Exec(op, s), PullWord(u).0, d - 2);
    }
  }

  /** t comes from u by changes that leave the stack and the program bank alone. */
  predicate SameStack(t: State, u: State) {
    t.mem == u.mem && t.sp == u.sp && t.emul == u.emul && t.pbr == u.pbr
  }

  lemma IndexPulled(s: State, r: Index)
    requires !s.emul
    ensures SameStack(PullIndex(s, r), if s.f.b then Pull(s).0 else PullWord(s).0)
  {
    hide NZ, Trunc, LoadLong, Join;
  }

  lemma DataPulled(s: State)
    requires !s.emul
    ensures SameStack(PullA(s), if s.f.u then Pull(s).0 else PullWord(s).0)
    ensures SameStack(PullBank(s), Pull(s).0) && SameStack(PullStatus(s), Pull(s).0)
  {
    hide NZ, Trunc, LoadLong, Join, Unpack, Low, High;
  }

  lemma PullsLeave(s: State)
    requires !s.emul
    ensures Pull(s).0.mem == s.mem && !Pull(s).0.emul && Pull(s).0.pbr == s.pbr
    ensures PullWord(s).0.mem == s.mem && !PullWord(s).0.emul && PullWord(s).0.pbr == s.pbr && PullWord(s).0.sp == Trunc(s.sp + 2)
  {
    hide Trunc, LoadLong, Join;
    Up(s.sp, 1, 1);
  }

  /** A pull instruction moves the stack pointer as a pull of a byte or of a word does. */
  lemma PulledAlike(u: State, op: Op)
    requires !u.emul && IsPull(op)
    ensures SameStack(ExecPull(op, u), if PullSize(u, op) == 1 then Pull(u).0 else PullWord(u).0)
  {
    hide PullA, PullIndex, PullBank, PullStatus, PullDirect, Pull, PullWord, SameStack;
    DirectPulled(u);
    DataPulled(u);
    IndexPulled(u, if op.PLI? then op.r else X);
  }

  lemma PullsAreStackOps(s: State, op: Op)
    requires IsPull(op)
    ensures Exec(op, s) == ExecPull(op, Skip(s, 1)) && PullSize(s, op) == PullSize(Skip(s, 1), op)
  {
    hide ExecPull, ExecPush, ExecIndex, ExecJump;
  }

  lemma OnePulled(s: State, d: nat)
    requires !s.emul && d > 0
    ensures Top(Pull(s).0, d - 1) == Top(s, d)[1..] && Pull(s).0 == s.(sp := Trunc(s.sp + 1))
  {
    hide Top;
    PullTop(s, d);
  }

  lemma DirectPulled(s: State)
    requires !s.emul
    ensures SameStack(PullDirect(s), PullWord(s).0)
  {
    hide LoadLong, NZ, Trunc, Join;
    Up(s.sp, 1, 1);
  }

  /** s had the frame on top of `rest`; t has `rest`, and what the frame saved is back. */
  predicate Takes(s: State, t: State, fr: Frame, rest: seq<Byte>) {
    Restores(s, t, fr) && Top(t, |rest|) == rest && t.sp == Trunc(s.sp + |Bytes(fr)|) && !t.emul
  }

  lemma ReturnTakes(s: State, w: Word, rest: seq<Byte>)
    requires !s.emul && Top(s, 2 + |rest|) == [Low(w), High(w)] + rest
    ensures Takes(s, Exec(RTS, s), Return(w), rest)
  {
    hide Top, Rts, Trunc, Low, High, Restores;
    ReturnPulls(s, w, rest);
  }

  lemma FarTakes(s: State, w: Word, bank: Byte, rest: seq<Byte>)
    requires !s.emul && Top(s, 3 + |rest|) == [Low(w), High(w), bank] + rest
    ensures Takes(s, Exec(RTL, s), Far(w, bank), rest)
  {
    hide Top, Rtl, Trunc, Low, High, Restores;
    FarPulls(s, w, bank, rest);
  }

  lemma InterruptTakes(s: State, f: Bits, w: Word, bank: Byte, rest: seq<Byte>)
    requires !s.emul && Top(s, 4 + |rest|) == [Pack(f), Low(w), High(w), bank] + rest
    ensures Takes(s, Exec(RTI, s), Interrupted(f, w, bank), rest)
  {
    hide Top, Rti, Trunc, Low, High, Pack, Restores;
    InterruptedPulls(s, f, w, bank, rest);
  }

  lemma SavedTakes(s: State, op: Op, data: seq<Byte>, rest: seq<Byte>)
    requires !s.emul && IsPull(op) && |data| == PullSize(s, op) && Top(s, |data| + |rest|) == data + rest
    ensures Takes(s, Result(op, s), Saved(data), rest)
  {
    hide Top, Trunc, PullSize;
    SavedPulls(s, op, |data| + |rest|);
  }

  lemma Pulls(s: State, op: Op, fr: Frame, rest: seq<Byte>)
    requires !s.emul && Pops(s, op, fr) && Top(s, |Bytes(fr)| + |rest|) == Bytes(fr) + rest
    ensures Takes(s, Result(op, s), fr, rest)
  {
    hide Top, Exec, Takes, Trunc, Pack, Low, High;
    ResultIs(op, s);
    match fr {
      case Return(w) => ReturnTakes(s, w, rest);
      case Far(w, bank) => FarTakes(s, w, bank, rest);
      case Interrupted(f, w, bank) => InterruptTakes(s, f, w, bank, rest);
      case Saved(data) => SavedTakes(s, op, data, rest);
    }
  }

  // ---- Runs ---------------------------------------------------------------------------------------

  /** An instruction that pushes and pulls nothing stays in native mode and leaves the stack alone. */
  ghost predicate Neutral(s: State, op: Op, d: nat) {
    !Result(op, s).emul && Result(op, s).sp == s.sp && Top(Result(op, s), d) == Top(s, d)
  }

  function Flat(frames: seq<Frame>): seq<Byte> {
    if frames == [] then [] else Bytes(frames[0]) + Flat(frames[1..])
  }

  /** The frames after an instruction, if it is properly nested above `below` bytes. */
  ghost function Track(s: State, op: Op, frames: seq<Frame>, below: nat): Option<seq<Frame>> {
    var d := |Flat(frames)| + below;
    match Pushed(s, op)
    case Some(fr) => if d + |Bytes(fr)| <= BANK then Some([fr] + frames) else None
    case None =>
      if IsPop(op) then if frames != [] && Pops(s, op, frames[0]) then Some(frames[1..]) else None
      else if Neutral(s, op, d) then Some(frames) else None
  }

  ghost function TrackRun(s: State, ops: seq<Op>, below: nat): Option<seq<Frame>> {
    if ops == [] then Some([])
    else
      var before := ops[..|ops| - 1];
      match TrackRun(s, before, below)
      case None => None
      case Some(frames) => Track(RunOps(s, before), ops[|ops| - 1], frames, below)
  }

  /** The stack pointer after n single pushes. */
  function Lower(sp: Word, n: nat): Word {
    if n == 0 then sp else Trunc(Lower(sp, n - 1) - 1)
  }

  lemma {:induction false} LowerIs(sp: Word, n: nat)
    ensures Lower(sp, n) == Trunc(sp - n)
  {
    if n > 0 {
      LowerIs(sp, n - 1);
      Down(sp, n - 1, 1);
    } else {
      assert Trunc(sp) == sp;
    }
  }

  /** The frames, on top of `rest`, fill the stack from `base` downwards. */
  predicate Refines(s: State, frames: seq<Frame>, rest: seq<Byte>, base: Word) {
    !s.emul && Top(s, |Flat(frames)| + |rest|) == Flat(frames) + rest && s.sp == Lower(base, |Flat(frames)|)
  }

  lemma StepPushes(s: State, op: Op, fr: Frame, frames: seq<Frame>, rest: seq<Byte>, base: Word)
    requires Refines(s, frames, rest, base) && Pushed(s, op) == Some(fr)
    requires |Flat(frames)| + |rest| + |Bytes(fr)| <= BANK
    ensures Refines(Result(op, s), [fr] + frames, rest, base)
  {
    hide Bytes, Top, Trunc, Pushed, Lower, Flat;
    Pushes(s, op, fr, |Flat(frames)| + |rest|);
    FlatFirst(fr, frames);
    LowerMore(base, |Flat(frames)|, |Bytes(fr)|);
    assert Bytes(fr) + (Flat(frames) + rest) == Bytes(fr) + Flat(frames) + rest;
  }

  lemma FlatFirst(fr: Frame, frames: seq<Frame>)
    ensures Flat([fr] + frames) == Bytes(fr) + Flat(frames)
  {
    hide Bytes;
    assert ([fr] + frames)[1..] == frames;
  }

  lemma LowerMore(base: Word, n: nat, k: nat)
    ensures Trunc(Lower(base, n) - k) == Lower(base, n + k)
  {
    hide Lower, Trunc;
    LowerIs(base, n);
    LowerIs(base, n + k);
    Down(base, n, k);
  }

  lemma LowerLess(base: Word, n: nat, k: nat)
    ensures Trunc(Lower(base, n + k) + k) == Lower(base, n)
  {
    hide Lower, Trunc;
    LowerIs(base, n);
    LowerIs(base, n + k);
    Back(base, n + k, k);
  }

  /** Under the first frame there is the rest of the frames. */
  lemma FirstFrame(s: State, frames: seq<Frame>, rest: seq<Byte>, base: Word)
    requires Refines(s, frames, rest, base) && frames != []
    ensures Top(s, |Bytes(frames[0])| + |Flat(frames[1..]) + rest|) == Bytes(frames[0]) + (Flat(frames[1..]) + rest)
  {
    hide Bytes, Top, Lower;
    assert Flat(frames) + rest == Bytes(frames[0]) + (Flat(frames[1..]) + rest);
  }

  lemma PullRestores(s: State, op: Op, frames: seq<Frame>, rest: seq<Byte>, base: Word)
    requires Refines(s, frames, rest, base) && frames != [] && Pops(s, op, frames[0])
    ensures Restores(s, Result(op, s), frames[0])
  {
    hide Restores, Bytes, Top, Trunc, Pops, Lower;
    FirstFrame(s, frames, rest, base);
    Pulls(s, op, frames[0], Flat(frames[1..]) + rest);
  }

  lemma StepPulls(s: State, op: Op, frames: seq<Frame>, rest: seq<Byte>, base: Word)
    requires Refines(s, frames, rest, base) && frames != [] && Pops(s, op, frames[0])
    ensures Refines(Result(op, s), frames[1..], rest, base)
  {
    hide Restores, Bytes, Top, Trunc, Pops, Lower;
    var below, n := Flat(frames[1..]), |Bytes(frames[0])|;
    assert |Flat(frames)| == |below| + n;
    FirstFrame(s, frames, rest, base);
    Pulls(s, op, frames[0], below + rest);
    LowerLess(base, |below|, n);
  }

  lemma Back(sp: Word, n: int, k: int)
    ensures Trunc(Trunc(sp - n) + k) == Trunc(sp - (n - k))
  {
    TruncAdd(sp - n, k);
  }

  lemma Lifo(s: State, op: Op, frames: seq<Frame>, rest: seq<Byte>, base: Word)
    requires Refines(s, frames, rest, base)
    ensures var t := Track(s, op, frames, |rest|);
            t.Some? ==> Refines(Result(op, s), t.value, rest, base)
                        && (IsPop(op) ==> frames != [] && Restores(s, Result(op, s), frames[0]))
  {
    hide Bytes, Top, Trunc, Pushed, Pops, Restores;
    if Track(s, op, frames, |rest|).Some? {
      match Pushed(s, op) {
        case Some(fr) =>
          PushIsNoPop(s, op);
          StepPushes(s, op, fr, frames, rest, base);
        case None =>
          if IsPop(op) {
            StepPulls(s, op, frames, rest, base);
            PullRestores(s, op, frames, rest, base);
          }
      }
    }
  }

  lemma PushIsNoPop(s: State, op: Op)
    requires Pushed(s, op).Some?
    ensures !IsPop(op)
  {
  }

  /** Every properly nested run in native mode keeps bank 0 a stack, from any stack pointer. */
  lemma {:induction false} LifoRun(s: State, ops: seq<Op>, rest: seq<Byte>)
    requires !s.emul && Top(s, |rest|) == rest && TrackRun(s, ops, |rest|).Some?
    ensures Refines(RunOps(s, ops), TrackRun(s, ops, |rest|).value, rest, s.sp)
  {
    hide Top, Track;
    if ops != [] {
      var before := ops[..|ops| - 1];
      LifoRun(s, before, rest);
      Lifo(RunOps(s, before), ops[|ops| - 1], TrackRun(s, before, |rest|).value, rest, s.sp);
    }
  }

  /** The frame is back, the stack pointer is where it was and the bytes above it are untouched. */
  predicate Returned(s: State, u: State, t: State, fr: Frame, below: nat) {
    Restores(u, t, fr) && t.sp == s.sp && Top(t, below) == Top(s, below) && !t.emul
  }

  /** A push, a run that leaves no frame of its own behind, and the matching pull. */
  lemma Bracket(s: State, open: Op, fr: Frame, body: seq<Op>, close: Op, below: nat)
    requires !s.emul && Pushed(s, open) == Some(fr) && below + |Bytes(fr)| <= BANK
    requires TrackRun(Result(open, s), body, below + |Bytes(fr)|) == Some([])
    requires Pops(RunOps(Result(open, s), body), close, fr)
    ensures var u := RunOps(Result(open, s), body); Returned(s, u, Result(close, u), fr, below)
  {
    hide Restores, Bytes, Top, Trunc, Pops, Pushed;
    TopLength(s, below);
    var rest := Bytes(fr) + Top(s, below);
    Pushes(s, open, fr, below);
    LifoRun(Result(open, s), body, rest);
    var u := RunOps(Result(open, s), body);
    assert Flat([]) + rest == rest;
    Pulls(u, close, fr, Top(s, below));
    Back(s.sp, |Bytes(fr)|, |Bytes(fr)|);
    Up(s.sp, 0, 0);
    assert Trunc(s.sp) == s.sp;
  }

  /** An interrupt handler comes back to the interrupted instruction, bank and status, whatever
      banks, widths and nested interrupts it used; and the index registers are cut to bytes only
      if they were bytes when the interrupt came. */
  lemma HandlerReturns(s: State, op: Op, body: seq<Op>, below: nat)
    requires !s.emul && (op.NMI? || op.IRQ?) && below + 4 <= BANK
    requires TrackRun(Result(op, s), body, below + 4) == Some([])
    ensures var u := RunOps(Result(op, s), body);
            var t := Result(RTI, u);
            && t.pc == s.pc && t.pbr == s.pbr && t.f == s.f && t.sp == s.sp && !t.emul
            && (!s.f.b ==> t.x == u.x && t.y == u.y)
            && Top(t, below) == Top(s, below)
  {
    hide Top;
    Bracket(s, op, Interrupted(s.f, s.pc, s.pbr), body, RTI, below);
  }

  /** RTL comes back behind JSR_LONG, in the bank of the call. */
  lemma FarCallReturns(s: State, body: seq<Op>, below: nat)
    requires !s.emul && below + 3 <= BANK && TrackRun(Result(JSR_LONG, s), body, below + 3) == Some([])
    ensures var t := Result(RTL, RunOps(Result(JSR_LONG, s), body));
            t.pc == Trunc(s.pc + 4) && t.pbr == s.pbr && t.sp == s.sp && !t.emul && Top(t, below) == Top(s, below)
  {
    hide Top;
    Bracket(s, JSR_LONG, Far(Trunc(s.pc + 3), s.pbr), body, RTL, below);
    Up(0, s.pc + 3, 1);
  }

  lemma CallReturns(s: State, op: Op, body: seq<Op>, below: nat)
    requires !s.emul && (op.JSR? || op.JSR_IND_X?) && below + 2 <= BANK
    requires TrackRun(Result(op, s), body, below + 2) == Some([])
    ensures var u := RunOps(Result(op, s), body);
            var t := Result(RTS, u);
            t.pc == Trunc(s.pc + 3) && t.pbr == u.pbr && t.sp == s.sp && !t.emul && Top(t, below) == Top(s, below)
  {
    hide Top;
    Bracket(s, op, Return(Trunc(s.pc + 2)), body, RTS, below);
    Up(0, s.pc + 2, 1);
  }

  // ---- Far calls in emulation mode ----------------------------------------------------------------------

  /** An RTL right after the JSR_LONG comes back behind it. */
  predicate FarUndone(s: State) {
    var t := Rtl(JsrLong(s));
    t.pc == Trunc(s.pc + 4) && t.pbr == s.pbr && t.sp == s.sp
  }

  lemma FarInside(s: State)
    requires s.emul && 0x103 <= s.sp <= 0x1ff
    ensures FarUndone(s)
  {
    hide LoadLong, Operand, OperandWord, Low, High, Join;
    JoinHalves(Trunc(s.pc + 3));
    Stacked(s);
    FarRead(s);
  }

  /** Well inside page one nothing wraps. */
  lemma Stacked(s: State)
    requires s.emul && 0x103 <= s.sp <= 0x1ff
    ensures StackAt(true, s.sp - 3) == s.sp - 3 && StackAt(true, s.sp) == s.sp
    ensures Trunc(Trunc(s.pc + 3) + 1) == Trunc(s.pc + 4)
    ensures Trunc(s.sp - 2) == s.sp - 2 && Trunc(s.sp - 1) == s.sp - 1
  {
  }

  lemma FarRead(s: State)
    requires s.emul && 0x103 <= s.sp <= 0x1ff
    ensures var m := JsrLong(s).mem;
            var w := Trunc(s.pc + 3);
            LoadLong(m, s.sp) == s.pbr && LoadLong(m, s.sp - 1) == High(w) && LoadLong(m, s.sp - 2) == Low(w)
  {
    hide High, Low, Operand, OperandWord, StackAt;
  }

  /** In emulation mode the three bytes go below page one when the stack pointer is near its start,
      but they are looked for above it: whatever the memory, RTL undoes JSR_LONG exactly if the stack
      pointer is $0103 or more. */
  lemma FarCallEmulated(s: State)
    requires s.emul && 0x100 <= s.sp <= 0x1ff
    ensures (forall m :: FarUndone(s.(mem := m))) <==> s.sp >= 0x103
  {
    hide FarUndone;
    if s.sp >= 0x103 {
      forall m ensures FarUndone(s.(mem := m)) {
        FarInside(s.(mem := m));
      }
    } else {
      FarAstray(s);
    }
  }

  lemma FarAstray(s: State)
    requires s.emul && 0x100 <= s.sp < 0x103
    ensures !FarUndone(s.(mem := s.mem[s.sp + 0x100 := Low(s.pbr + 1)]))
  {
    hide High, Operand, OperandWord, Join;
    var u := s.(mem := s.mem[s.sp + 0x100 := Low(s.pbr + 1)]);
    var t := JsrLong(u);
    assert t.sp == s.sp + 0xfd;
    assert LoadLong(t.mem, s.sp + 0x100) == Low(s.pbr + 1) != s.pbr;
  }
}
