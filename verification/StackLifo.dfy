/** Page one as a stack.  Whatever the initial stack pointer, a properly nested run of pushes and
    pulls, calls, breaks and interrupts treats the wrapping page as a sequence of frames, as long
    as no more than 256 bytes are live. */
module StackLifo {
  import opened Words
  import opened Wrappers
  import opened Isa
  import opened LazyStatus
  import opened Runs

  /** What one push sequence leaves on the stack. */
  datatype Frame =
    | Return(w: Word)                    // JSR
    | Saved(v: Byte)                     // PHA
    | Status(f: Flags)                   // PHP
    | Interrupted(w: Word, f: Flags)     // BRK or an interrupt

  /** The bytes of a frame, the one pulled first in front. */
  function Bytes(fr: Frame): (r: seq<Byte>)
    ensures 1 <= |r| <= 3
  {
    match fr
    case Return(w) => [Low(w), High(w)]
    case Saved(v) => [v]
    case Status(f) => [f.ToByte()]
    case Interrupted(w, f) => [f.ToByte(), Low(w), High(w)]
  }

  function Flat(frames: seq<Frame>): seq<Byte> {
    if frames == [] then [] else Bytes(frames[0]) + Flat(frames[1..])
  }

  /** The d cells above sp, wrapping inside page one. */
  function Cells(m: Memory, sp: Byte, d: nat): (r: seq<Byte>)
    ensures |r| == d
    decreases d
  {
    if d == 0 then [] else [Load(m, 0x100 + Low(sp + 1))] + Cells(m, Low(sp + 1), d - 1)
  }

  /** The d bytes on top of the stack. */
  function Top(s: Cpu, d: nat): seq<Byte> {
    Cells(s.mem, s.r.sp, d)
  }

  /** A write to a cell is not seen from the j-th cell above it, as long as the page is not filled. */
  lemma {:induction false} CellsFrame(m: Memory, a: Byte, v: Byte, j: nat, d: nat)
    requires j + d < 256
    ensures Cells(m[0x100 + a := v], Low(a + j), d) == Cells(m, Low(a + j), d)
    decreases d
  {
    if d > 0 {
      assert Low(Low(a + j) + 1) == Low(a + (j + 1)) != a;
      CellsFrame(m, a, v, j + 1, d - 1);
    }
  }

  /** A write outside page one is not seen at all. */
  lemma {:induction false} CellsOutside(m: Memory, a: Word, v: Byte, sp: Byte, d: nat)
    requires High(a) != 1
    ensures Cells(m[a := v], sp, d) == Cells(m, sp, d)
    decreases d
  {
    if d > 0 {
      CellsOutside(m, a, v, Low(sp + 1), d - 1);
    }
  }

  lemma PushTop(s: Cpu, v: Byte, d: nat)
    requires d < 256
    ensures Top(Push(s, v), d + 1) == [v] + Top(s, d)
  {
    assert Low(Low(s.r.sp - 1) + 1) == s.r.sp == Low(s.r.sp + 0);
    CellsFrame(s.mem, s.r.sp, v, 0, d);
  }

  lemma PullTop(s: Cpu, d: nat)
    requires d > 0
    ensures Pull(s).1 == Top(s, d)[0] && Top(Pull(s).0, d - 1) == Top(s, d)[1..]
  {
  }

  lemma JoinHalves(w: Word)
    ensures Join(Low(w), High(w)) == w
  {
  }

  /** An instruction without a stack frame leaves the stack pointer and the live bytes alone. */
  ghost predicate Neutral(s: Cpu, e: Event, d: nat) {
    Next(s, e).r.sp == s.r.sp && Top(Next(s, e), d) == Top(s, d)
  }

  /** Instructions that have nothing to do with the stack: loads, transfers other than TXS,
      branches and jumps, and writes outside page one. */
  predicate Harmless(s: Cpu) {
    match Fetched(s)
    case Read(op, _) => !op.LAS?
    case Implied(op) => !op.TXS?
    case Rmw(_, mode) => High(Address(mode, s)) != 1
    case Store(op, mode) => Unmasked(op) && High(Address(mode, s)) != 1
    case Branch(_, _) => true
    case JMP => true case JMP_IND => true case _ => false
  }

  lemma HarmlessNeutral(s: Cpu, e: Event, d: nat)
    requires e.Instruction? && Harmless(s)
    ensures Neutral(s, e, d)
  {
    NextIs(s, e);
    HarmlessStep(s, e.nmi, d);
  }

  lemma HarmlessStep(s: Cpu, nmi: bool, d: nat)
    requires Harmless(s)
    ensures Step(s, nmi).r.sp == s.r.sp && Top(Step(s, nmi), d) == Top(s, d)
  {
    hide Decode, Address, And, Added, Subtracted, RotatedAnd, Isa.Shift;
    var i := Fetched(s);
    if i.Rmw? {
      var m := Modify(i.mop, s.r, Load(s.mem, Address(i.mode, s)));
      CellsOutside(s.mem, Address(i.mode, s), m.1, s.r.sp, d);
    } else if i.Store? {
      CellsOutside(s.mem, Address(i.mode, s), Stored(i.sop, s.r), s.r.sp, d);
      UnmaskedStore(i.sop, i.mode, s);
    }
  }

  /** The frame an event pushes. */
  function Pushed(s: Cpu, e: Event): Option<Frame> {
    match e
    case Accepted(_) => Some(Interrupted(s.pc, s.r.f.(b := false)))
    case Instruction(_, _, _) =>
      var i := Fetched(s);
      if i.BRK? then Some(Interrupted(Trunc(s.pc + 2), s.r.f.(b := true)))
      else if i.JSR? then Some(Return(Trunc(s.pc + 2)))
      else if i.PHA? then Some(Saved(s.r.a))
      else if i.PHP? then Some(Status(s.r.f.(b := true)))
      else None
  }

  /** The instruction that takes a frame off again. */
  function Popper(fr: Frame): Instr {
    match fr case Return(_) => RTS case Saved(_) => PLA case Status(_) => PLP case Interrupted(_, _) => RTI
  }

  predicate Pops(s: Cpu, e: Event) {
    e.Instruction? && (Fetched(s).RTS? || Fetched(s).PLA? || Fetched(s).PLP? || Fetched(s).RTI?)
  }

  /** The frames after an event, if it is properly nested above `below` bytes. */
  ghost function Track(s: Cpu, e: Event, frames: seq<Frame>, below: nat): Option<seq<Frame>> {
    var d := |Flat(frames)| + below;
    match Pushed(s, e)
    case Some(fr) => if d + |Bytes(fr)| <= 256 then Some([fr] + frames) else None
    case None =>
      if Pops(s, e) then
        if frames != [] && Popper(frames[0]) == Fetched(s) then Some(frames[1..]) else None
      else if d <= 256 && Neutral(s, e, d) then Some(frames) else None
  }

  /** Frames that a whole run leaves, if each event is properly nested. */
  ghost function TrackRun(s: Cpu, events: seq<Event>, below: nat): Option<seq<Frame>> {
    if events == [] then Some([])
    else
      var before := events[..|events| - 1];
      match TrackRun(s, before, below)
      case None => None
      case Some(frames) => Track(Run(s, before), events[|events| - 1], frames, below)
  }

  /** What pulling a frame gives back. */
  predicate Restores(t: Cpu, fr: Frame) {
    match fr
    case Return(w) => t.pc == Trunc(w + 1)
    case Saved(v) => t.r.a == v
    case Status(f) => t.r.f == f
    case Interrupted(w, f) => t.pc == w && t.r.f == f
  }

  // ---- One event -------------------------------------------------------------------------------

  lemma PushWordTop(s: Cpu, w: Word, d: nat)
    requires d + 2 <= 256
    ensures Top(PushWord(s, w), d + 2) == [Low(w), High(w)] + Top(s, d)
    ensures PushWord(s, w).r == s.r.(sp := Low(s.r.sp - 2))
  {
    PushTop(s, High(w), d);
    PushTop(Push(s, High(w)), Low(w), d + 1);
    assert Low(Low(s.r.sp - 1) - 1) == Low(s.r.sp - 2);
  }

  lemma EnterTop(s: Cpu, vector: Word, d: nat)
    requires d + 3 <= 256
    ensures Top(Enter(s, vector), d + 3) == Bytes(Interrupted(s.pc, s.r.f)) + Top(s, d)
    ensures Enter(s, vector).r.sp == Low(s.r.sp - 3)
  {
    PushWordTop(s, s.pc, d);
    var t := PushWord(s, s.pc);
    PushTop(t, s.r.f.ToByte(), d + 2);
    SameStack(Enter(s, vector), Push(t, t.r.f.ToByte()), d + 3);
    assert Low(Low(s.r.sp - 2) - 1) == Low(s.r.sp - 3);
  }

  /** Only the memory and the stack pointer matter. */
  lemma SameStack(s: Cpu, t: Cpu, d: nat)
    requires s.mem == t.mem && s.r.sp == t.r.sp
    ensures Top(s, d) == Top(t, d)
  {
  }

  lemma InterruptPushes(s: Cpu, vector: Word, d: nat)
    requires d + 3 <= 256
    ensures Top(Interrupt(s, vector), d + 3) == Bytes(Interrupted(s.pc, s.r.f.(b := false))) + Top(s, d)
    ensures Interrupt(s, vector).r.sp == Low(s.r.sp - 3)
  {
    var u := SetFlags(s, s.r.f.(b := false));
    assert Top(Enter(u, vector), d + 3) == Bytes(Interrupted(u.pc, u.r.f)) + Top(u, d) && Enter(u, vector).r.sp == Low(u.r.sp - 3) by {
      EnterTop(u, vector, d);
    }
    assert Top(u, d) == Top(s, d) by {
      SameStack(u, s, d);
    }
  }

  lemma BreakPushes(s: Cpu, vector: Word, d: nat)
    requires d + 3 <= 256
    ensures Top(Break(s, vector), d + 3) == Bytes(Interrupted(Trunc(s.pc + 2), s.r.f.(b := true))) + Top(s, d)
    ensures Break(s, vector).r.sp == Low(s.r.sp - 3)
  {
    var u := Skip(SetFlags(s, s.r.f.(b := true)), 2);
    assert Top(Enter(u, vector), d + 3) == Bytes(Interrupted(u.pc, u.r.f)) + Top(u, d) && Enter(u, vector).r.sp == Low(u.r.sp - 3) by {
      EnterTop(u, vector, d);
    }
    assert Top(u, d) == Top(s, d) by {
      SameStack(u, s, d);
    }
  }

  lemma CallPushes(s: Cpu, d: nat)
    requires d + 2 <= 256
    ensures Top(Execute(JSR, s), d + 2) == Bytes(Return(Trunc(s.pc + 2))) + Top(s, d)
    ensures Execute(JSR, s).r.sp == Low(s.r.sp - 2)
  {
    PushWordTop(s, Trunc(s.pc + 2), d);
    SameStack(Execute(JSR, s), PushWord(s, Trunc(s.pc + 2)), d + 2);
  }

  lemma SavePushes(i: Instr, s: Cpu, d: nat)
    requires d + 1 <= 256 && (i == PHA || i == PHP)
    ensures var v := if i == PHA then s.r.a else s.r.f.(b := true).ToByte();
            Top(Execute(i, s), d + 1) == [v] + Top(s, d)
    ensures Execute(i, s).r.sp == Low(s.r.sp - 1)
  {
    var v := if i == PHA then s.r.a else s.r.f.(b := true).ToByte();
    PushTop(s, v, d);
    SameStack(Execute(i, s), Push(s, v), d + 1);
  }

  lemma Pushes(s: Cpu, e: Event, d: nat)
    requires Pushed(s, e).Some? && d + |Bytes(Pushed(s, e).value)| <= 256
    ensures Top(Next(s, e), d + |Bytes(Pushed(s, e).value)|) == Bytes(Pushed(s, e).value) + Top(s, d)
    ensures Next(s, e).r.sp == Low(s.r.sp - |Bytes(Pushed(s, e).value)|)
  {
    hide Execute, Interrupt, Break, Decode, Low, Top, Flags.ToByte;
    NextIs(s, e);
    if e.Accepted? {
      InterruptPushes(s, e.vector, d);
    } else if Fetched(s).BRK? {
      BreakPushes(s, if e.nmi then 0xfffa else 0xfffe, d);
      BreakIs(s);
    } else if Fetched(s).JSR? {
      CallPushes(s, d);
    } else {
      SavePushes(Fetched(s), s, d);
    }
  }

  lemma BreakIs(s: Cpu)
    ensures Execute(BRK, s) == Break(s, 0xfffe)
  {
  }

  lemma PullWordTop(s: Cpu, d: nat)
    requires d >= 2
    ensures PullWord(s).1 == Join(Top(s, d)[0], Top(s, d)[1]) && Top(PullWord(s).0, d - 2) == Top(s, d)[2..]
    ensures PullWord(s).0.r == s.r.(sp := Low(s.r.sp + 2))
  {
    PullTop(s, d);
    PullTop(Pull(s).0, d - 1);
    assert Low(Low(s.r.sp + 1) + 1) == Low(s.r.sp + 2);
  }

  lemma ReturnPulls(s: Cpu, w: Word, rest: seq<Byte>)
    requires Top(s, 2 + |rest|) == Bytes(Return(w)) + rest
    ensures Execute(RTS, s).pc == Trunc(w + 1) && Top(Execute(RTS, s), |rest|) == rest
    ensures Execute(RTS, s).r.sp == Low(s.r.sp + 2)
  {
    hide Top, Low, High, Join;
    var r := PullWord(s);
    assert r.1 == w && Top(r.0, |rest|) == rest && r.0.r.sp == Low(s.r.sp + 2) by {
      PullWordTop(s, 2 + |rest|);
      JoinHalves(w);
    }
    SameStack(Execute(RTS, s), r.0, |rest|);
  }

  lemma SavedPulls(s: Cpu, v: Byte, rest: seq<Byte>)
    requires Top(s, 1 + |rest|) == [v] + rest
    ensures Execute(PLA, s).r.a == v && Execute(PLP, s).r.f == FromByte(v)
    ensures Top(Execute(PLA, s), |rest|) == Top(Execute(PLP, s), |rest|) == rest
    ensures Execute(PLA, s).r.sp == Execute(PLP, s).r.sp == Low(s.r.sp + 1)
  {
    hide Top, FromByte, Low;
    PullTop(s, 1 + |rest|);
    SameStack(Execute(PLA, s), Pull(s).0, |rest|);
    SameStack(Execute(PLP, s), Pull(s).0, |rest|);
  }

  lemma InterruptedPulls(s: Cpu, w: Word, f: Flags, rest: seq<Byte>)
    requires Top(s, 3 + |rest|) == Bytes(Interrupted(w, f)) + rest
    ensures Execute(RTI, s).pc == w && Execute(RTI, s).r.f == f && Top(Execute(RTI, s), |rest|) == rest
    ensures Execute(RTI, s).r.sp == Low(s.r.sp + 3)
  {
    hide Top, FromByte, Flags.ToByte, PullWord, Low, High, Join, Trunc;
    PullTop(s, 3 + |rest|);
    var t := Pull(s).0;
    PullWordTop(t, 2 + |rest|);
    JoinHalves(w);
    PulledStatus(f);
    SameStack(Execute(RTI, s), PullWord(t).0, |rest|);
    assert Low(Low(s.r.sp + 1) + 2) == Low(s.r.sp + 3);
  }

  lemma Pulls(s: Cpu, e: Event, fr: Frame, rest: seq<Byte>)
    requires e.Instruction? && Fetched(s) == Popper(fr) && Top(s, |Bytes(fr)| + |rest|) == Bytes(fr) + rest
    ensures Restores(Next(s, e), fr) && Top(Next(s, e), |rest|) == rest
    ensures Next(s, e).r.sp == Low(s.r.sp + |Bytes(fr)|)
  {
    hide Top, Decode, Execute, Flags.ToByte, FromByte, Low, High;
    NextIs(s, e);
    match fr {
      case Return(w) =>
        ReturnPulls(s, w, rest);
      case Saved(v) =>
        SavedPulls(s, v, rest);
      case Status(f) =>
        SavedPulls(s, f.ToByte(), rest);
        PulledStatus(f);
      case Interrupted(w, f) =>
        InterruptedPulls(s, w, f, rest);
    }
  }

  // ---- Runs --------------------------------------------------------------------------------------

  /** The frames `frames`, on top of `rest`, fill the stack from `base` downwards. */
  predicate Refines(s: Cpu, frames: seq<Frame>, rest: seq<Byte>, base: Byte) {
    && Top(s, |Flat(frames)| + |rest|) == Flat(frames) + rest
    && s.r.sp == Low(base - |Flat(frames)|)
  }

  lemma FlatPush(fr: Frame, frames: seq<Frame>)
    ensures Flat([fr] + frames) == Bytes(fr) + Flat(frames)
  {
    assert ([fr] + frames)[1..] == frames;
  }

  lemma StepPushes(s: Cpu, e: Event, frames: seq<Frame>, rest: seq<Byte>, base: Byte)
    requires Refines(s, frames, rest, base) && Pushed(s, e).Some?
    requires |Flat(frames)| + |rest| + |Bytes(Pushed(s, e).value)| <= 256
    ensures Refines(Next(s, e), [Pushed(s, e).value] + frames, rest, base)
  {
    hide Bytes, Decode, Low, Top;
    var fr := Pushed(s, e).value;
    Pushes(s, e, |Flat(frames)| + |rest|);
    FlatPush(fr, frames);
    DownAndUp(base, |Flat(frames)|, |Bytes(fr)|);
    assert Bytes(fr) + (Flat(frames) + rest) == Bytes(fr) + Flat(frames) + rest;
  }

  lemma DownAndUp(base: Byte, n: nat, k: nat)
    ensures Low(Low(base - (k + n)) + k) == Low(base - n)
    ensures Low(Low(base - n) - k) == Low(base - (k + n))
  {
    LowAdd(base - (k + n), k);
    var down: int := k;
    LowAdd(base - n, -down);
  }

  lemma StepPulls(s: Cpu, e: Event, frames: seq<Frame>, rest: seq<Byte>, base: Byte)
    requires Refines(s, frames, rest, base) && frames != [] && e.Instruction? && Fetched(s) == Popper(frames[0])
    ensures Refines(Next(s, e), frames[1..], rest, base) && Restores(Next(s, e), frames[0])
  {
    hide Restores, Bytes, Decode, Low, Top;
    var below := Flat(frames[1..]);
    assert |Flat(frames)| == |Bytes(frames[0])| + |below|;
    DownAndUp(base, |below|, |Bytes(frames[0])|);
    assert Flat(frames) + rest == Bytes(frames[0]) + (below + rest);
    Pulls(s, e, frames[0], below + rest);
  }

  /** One event on frames: the page changes as a stack would, and a pull gives back what its push saved. */
  lemma Lifo(s: Cpu, e: Event, frames: seq<Frame>, rest: seq<Byte>, base: Byte)
    requires Refines(s, frames, rest, base)
    ensures var t := Track(s, e, frames, |rest|);
            t.Some? ==> Refines(Next(s, e), t.value, rest, base)
                        && (Pops(s, e) ==> frames != [] && Restores(Next(s, e), frames[0]))
  {
    hide Bytes, Decode, Low, Top;
    if Track(s, e, frames, |rest|).Some? {
      if Pushed(s, e).Some? {
        StepPushes(s, e, frames, rest, base);
      } else if Pops(s, e) {
        StepPulls(s, e, frames, rest, base);
      }
    }
  }

  /** Every properly nested run keeps page one a stack, from any stack pointer. */
  lemma {:induction false} LifoRun(s: Cpu, events: seq<Event>, rest: seq<Byte>)
    requires Top(s, |rest|) == rest && TrackRun(s, events, |rest|).Some?
    ensures Refines(Run(s, events), TrackRun(s, events, |rest|).value, rest, s.r.sp)
  {
    if events != [] {
      var before := events[..|events| - 1];
      LifoRun(s, before, rest);
      Lifo(Run(s, before), events[|events| - 1], TrackRun(s, before, |rest|).value, rest, s.r.sp);
    }
  }

  lemma LifoBalanced(s: Cpu, events: seq<Event>, rest: seq<Byte>)
    requires Top(s, |rest|) == rest && TrackRun(s, events, |rest|) == Some([])
    ensures Top(Run(s, events), |rest|) == rest && Run(s, events).r.sp == s.r.sp
  {
    hide Top;
    LifoRun(s, events, rest);
    assert Flat([]) + rest == rest;
  }

  lemma TopLength(s: Cpu, d: nat)
    ensures |Top(s, d)| == d
  {
  }

  /** A push, a run that leaves no frame of its own behind, and the matching pull. */
  lemma Bracket(s: Cpu, open: Event, fr: Frame, body: seq<Event>, close: Event, below: nat)
    requires Pushed(s, open) == Some(fr) && below + |Bytes(fr)| <= 256
    requires TrackRun(Next(s, open), body, below + |Bytes(fr)|) == Some([])
    requires close.Instruction? && Fetched(Run(Next(s, open), body)) == Popper(fr)
    ensures Returned(s, Next(Run(Next(s, open), body), close), fr, below)
  {
    hide Decode, Restores, Bytes, Top;
    TopLength(s, below);
    var rest := Bytes(fr) + Top(s, below);
    Pushes(s, open, below);
    LifoBalanced(Next(s, open), body, rest);
    Pulls(Run(Next(s, open), body), close, fr, Top(s, below));
    DownAndUp(s.r.sp, 0, |Bytes(fr)|);
    assert Low(s.r.sp) == s.r.sp;
  }

  /** The frame is back, the stack pointer is where it was and the bytes under it are untouched. */
  predicate Returned(s: Cpu, t: Cpu, fr: Frame, below: nat) {
    Restores(t, fr) && t.r.sp == s.r.sp && Top(t, below) == Top(s, below)
  }

  /** A subroutine comes back behind its call. */
  lemma CallReturns(s: Cpu, call: Event, body: seq<Event>, close: Event, below: nat)
    requires call.Instruction? && Fetched(s) == JSR && below + 2 <= 256
    requires TrackRun(Next(s, call), body, below + 2) == Some([])
    requires close.Instruction? && Fetched(Run(Next(s, call), body)) == RTS
    ensures var t := Next(Run(Next(s, call), body), close);
            t.pc == Trunc(s.pc + 3) && t.r.sp == s.r.sp && Top(t, below) == Top(s, below)
  {
    hide Decode, Low, Top;
    Bracket(s, call, Return(Trunc(s.pc + 2)), body, close, below);
    TruncAdd(s.pc + 2, 1);
  }

  /** An interrupt handler comes back to the interrupted instruction with every flag but B. */
  lemma HandlerReturns(s: Cpu, vector: Word, body: seq<Event>, close: Event, below: nat)
    requires below + 3 <= 256 && TrackRun(Next(s, Accepted(vector)), body, below + 3) == Some([])
    requires close.Instruction? && Fetched(Run(Next(s, Accepted(vector)), body)) == RTI
    ensures var t := Next(Run(Next(s, Accepted(vector)), body), close);
            t.pc == s.pc && t.r.f == s.r.f.(b := false) && t.r.sp == s.r.sp && Top(t, below) == Top(s, below)
  {
    hide Decode, Low, Top, Flags.ToByte;
    Bracket(s, Accepted(vector), Interrupted(s.pc, s.r.f.(b := false)), body, close, below);
  }

  /** BRK is resumed two bytes on, even if an NMI took it over. */
  lemma BreakReturns(s: Cpu, software: Event, body: seq<Event>, close: Event, below: nat)
    requires software.Instruction? && Fetched(s) == BRK && below + 3 <= 256
    requires TrackRun(Next(s, software), body, below + 3) == Some([])
    requires close.Instruction? && Fetched(Run(Next(s, software), body)) == RTI
    ensures var t := Next(Run(Next(s, software), body), close);
            t.pc == Trunc(s.pc + 2) && t.r.f == s.r.f.(b := true) && t.r.sp == s.r.sp && Top(t, below) == Top(s, below)
  {
    hide Decode, Low, Top, Flags.ToByte;
    Bracket(s, software, Interrupted(Trunc(s.pc + 2), s.r.f.(b := true)), body, close, below);
  }
}
