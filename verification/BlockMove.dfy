/** MVN and MVP repeat themselves by leaving the program counter alone until the count runs out.
    Step 1 is MVN, step -1 is MVP. */
module BlockMove {
  import opened Words
  import opened Spec65816
  import opened Cpu65816

  function MoveTimes(s: State, k: nat, step: int): State {
    if k == 0 then s else Move(MoveTimes(s, k - 1, step), step)
  }

  lemma {:induction false} MoveSplits(s: State, j: nat, k: nat, step: int)
    ensures MoveTimes(MoveTimes(s, j, step), k, step) == MoveTimes(s, j + k, step)
  {
    hide Move;
    if k > 0 {
      MoveSplits(s, j, k - 1, step);
    }
  }

  /** The number of bytes a move still has to copy. */
  function Count(s: State): nat {
    s.d.c + 1
  }

  /** Whatever the bytes are, the count runs down by one a time, and the program counter advances
      with the last byte and not before. */
  lemma {:induction false} Counting(s: State, k: nat, step: int)
    requires k <= Count(s)
    ensures var t := MoveTimes(s, k, step);
            && t.d.c == Trunc(s.d.c - k) && t.d.dpr == s.d.dpr
            && t.pc == (if k < Count(s) then s.pc else Trunc(s.pc + 3))
            && t.pbr == s.pbr && t.sp == s.sp && t.emul == s.emul && t.f == s.f
  {
    if k > 0 {
      hide LoadLong, FitIndex;
      Counting(s, k - 1, step);
    }
  }

  /** The same state with another count. */
  function Counted(s: State, c: Word): State {
    s.(d := s.d.(c := c))
  }

  /** The last iteration and the ones before it read the same bank operands, whatever is in memory,
      exactly when the instruction does not straddle the end of its bank. */
  lemma OperandCells(s: State)
    ensures (forall m: LongMemory, c: Word, k: nat :: 1 <= k <= 2 ==>
              MoveBank(Counted(s, c).(mem := m), k) == MoveBank(Counted(s, 0).(mem := m), k))
            <==> s.pc <= 0xfffd
  {
    if s.pc > 0xfffd {
      var k := 0x1_0000 - s.pc;
      var m: LongMemory := map[s.pc + k + BANK * s.pbr := 1];
      assert Trunc(s.pc + k) == 0;
      assert MoveBank(Counted(s, 1).(mem := m), k) != MoveBank(Counted(s, 0).(mem := m), k);
    }
  }

  // ---- The copy as such ---------------------------------------------------------------------------

  /** The i-th cell from `start` upwards or downwards. */
  function At(start: int, step: int, i: int): int {
    if step == 1 then start + i else start - i
  }

  /** k bytes one after the other. */
  function Copy(m: LongMemory, to: int, from: int, step: int, k: nat): LongMemory {
    if k == 0 then m
    else
      var before := Copy(m, to, from, step, k - 1);
      before[At(to, step, k - 1) := LoadLong(before, At(from, step, k - 1))]
  }

  /** How far the destination is ahead of the source, in the direction of the move. */
  function Lead(to: int, from: int, step: int): int {
    if step == 1 then to - from else from - to
  }

  /** Where the i-th byte really comes from: a destination that runs ahead of the source overwrites
      source bytes before they are read, so that a pattern as long as the lead repeats. */
  function Origin(lead: int, i: nat): (r: nat)
    ensures r <= i && (lead > 0 ==> r < lead)
  {
    if 0 < lead <= i then Origin(lead, i - lead) else i
  }

  lemma {:induction false} CopyEffect(m: LongMemory, to: int, from: int, step: int, k: nat, i: nat)
    requires i < k
    ensures LoadLong(Copy(m, to, from, step, k), At(to, step, i))
         == LoadLong(m, At(from, step, Origin(Lead(to, from, step), i)))
  {
    var lead := Lead(to, from, step);
    if i < k - 1 {
      CopyEffect(m, to, from, step, k - 1, i);
    } else if 0 < lead <= i {
      assert At(from, step, i) == At(to, step, i - lead);
      CopyEffect(m, to, from, step, k - 1, i - lead);
    } else {
      CopyFrame(m, to, from, step, k - 1, At(from, step, i));
    }
  }

  /** Nothing outside the destination is written. */
  lemma {:induction false} CopyFrame(m: LongMemory, to: int, from: int, step: int, k: nat, a: int)
    requires forall i :: 0 <= i < k ==> a != At(to, step, i)
    ensures LoadLong(Copy(m, to, from, step, k), a) == LoadLong(m, a)
  {
    if k > 0 {
      CopyFrame(m, to, from, step, k - 1, a);
      assert a != At(to, step, k - 1);
    }
  }

  /** The destination holds what the source held before the move. */
  predicate Faithful(m: LongMemory, to: int, from: int, step: int, n: nat) {
    forall i :: 0 <= i < n ==> LoadLong(Copy(m, to, from, step, n), At(to, step, i)) == LoadLong(m, At(from, step, i))
  }

  /** A block move is a memmove, for every memory, exactly when the destination does not start
      inside the part of the source that is still to be read: MVN (MVP) is right for disjoint
      ranges and for destinations at or below (at or above) the source. */
  lemma FaithfulWhen(to: int, from: int, step: int, n: nat)
    ensures (forall m: LongMemory :: Faithful(m, to, from, step, n)) <==> !(0 < Lead(to, from, step) < n)
  {
    var lead := Lead(to, from, step);
    if 0 < lead < n {
      var m: LongMemory := map[to := 1];
      CopyEffect(m, to, from, step, n, lead);
      assert Origin(lead, lead) == 0 && At(from, step, lead) == to;
      assert !Faithful(m, to, from, step, n);
    } else {
      forall m: LongMemory ensures Faithful(m, to, from, step, n) {
        forall i | 0 <= i < n
          ensures LoadLong(Copy(m, to, from, step, n), At(to, step, i)) == LoadLong(m, At(from, step, i))
        {
          CopyEffect(m, to, from, step, n, i);
        }
      }
    }
  }

  // ---- The instruction ----------------------------------------------------------------------------

  /** What the i-th iteration finds in an index register that starts at v. */
  function IndexAt(s: State, v: Word, step: int, i: int): Word {
    FitIndex(s, Trunc(At(v, step, i)))
  }

  /** The bank operand that the i-th iteration reads. */
  function BankAt(s: State, k: nat, i: nat): Byte {
    MoveBank(Counted(s, Trunc(s.d.c - i)), k)
  }

  function Dest(s: State, step: int, i: nat): int {
    IndexAt(s, s.y, step, i) + BANK * BankAt(s, 1, i)
  }

  function Source(s: State, step: int, i: nat): int {
    IndexAt(s, s.x, step, i) + BANK * BankAt(s, 2, i)
  }

  /** The memory after k bytes, if the instruction stays what it was. */
  function Moved(s: State, step: int, k: nat): LongMemory {
    if k == 0 then s.mem
    else
      var before := Moved(s, step, k - 1);
      before[Dest(s, step, k - 1) := LoadLong(before, Source(s, step, k - 1))]
  }

  /** The cells of the instruction, wherever an iteration looks for them. */
  predicate InInstruction(s: State, a: int) {
    s.pc + BANK * s.pbr <= a <= s.pc + 2 + BANK * s.pbr || a == Trunc(s.pc + 1) + BANK * s.pbr || a == Trunc(s.pc + 2) + BANK * s.pbr
  }

  /** No byte of the instruction is overwritten while it is still needed. */
  predicate Regular(s: State, step: int) {
    (step == 1 || step == -1) && Modes(s) && forall i :: 0 <= i < s.d.c ==> !InInstruction(s, Dest(s, step, i))
  }

  lemma {:induction false} InstructionStays(s: State, step: int, j: nat, a: int)
    requires Regular(s, step) && j < Count(s) && InInstruction(s, a)
    ensures LoadLong(Moved(s, step, j), a) == LoadLong(s.mem, a)
  {
    hide InInstruction, Dest, Source;
    if j > 0 {
      InstructionStays(s, step, j - 1, a);
      assert !InInstruction(s, Dest(s, step, j - 1));
    }
  }

  lemma BanksStay(s: State, step: int, j: nat, t: State)
    requires Regular(s, step) && j < Count(s) && t.mem == Moved(s, step, j)
    requires t.d.c == s.d.c - j && t.pc == s.pc && t.pbr == s.pbr
    ensures MoveBank(t, 1) == BankAt(s, 1, j) && MoveBank(t, 2) == BankAt(s, 2, j)
  {
    hide Regular, Moved, Dest, Source, LoadLong;
    var b := BANK * s.pbr;
    InstructionStays(s, step, j, s.pc + 1 + b);
    InstructionStays(s, step, j, s.pc + 2 + b);
    InstructionStays(s, step, j, Trunc(s.pc + 1) + b);
    InstructionStays(s, step, j, Trunc(s.pc + 2) + b);
  }

  /** An index register that counts one at a time, cut to its width every time. */
  lemma IndexSteps(s: State, t: State, v: Word, step: int, j: nat)
    requires (step == 1 || step == -1) && t.emul == s.emul && t.f == s.f
    ensures FitIndex(t, Trunc(IndexAt(s, v, step, j) + step)) == IndexAt(s, v, step, j + 1)
  {
    hide Trunc, Low;
    TruncAdd(At(v, step, j), step);
    LowTrunc(At(v, step, j));
    LowTrunc(At(v, step, j + 1));
    LowTrunc(Low(At(v, step, j)) + step);
    LowAdd(At(v, step, j), step);
  }

  /** The state in the middle of a move: j bytes are copied, and the registers stand at the next one. */
  lemma {:induction false} Progress(s: State, j: nat, step: int)
    requires Regular(s, step) && j < Count(s)
    ensures var t := MoveTimes(s, j, step);
            && t.d.c == s.d.c - j && t.pc == s.pc && t.pbr == s.pbr && t.emul == s.emul && t.f == s.f
            && t.x == IndexAt(s, s.x, step, j) && t.y == IndexAt(s, s.y, step, j) && t.mem == Moved(s, step, j)
  {
    hide Regular, Move;
    if j > 0 {
      Progress(s, j - 1, step);
      OneMoved(MoveTimes(s, j - 1, step), step, s, j - 1);
    } else {
      IndexStarts(s, step);
    }
  }

  lemma IndexStarts(s: State, step: int)
    requires Regular(s, step)
    ensures IndexAt(s, s.x, step, 0) == s.x && IndexAt(s, s.y, step, 0) == s.y
  {
    hide Dest, InInstruction;
  }

  /** The j-th iteration; the last one moves the program counter on. */
  lemma OneMoved(t: State, step: int, s: State, j: nat)
    requires Regular(s, step) && j < Count(s)
    requires t.d.c == s.d.c - j && t.pc == s.pc && t.pbr == s.pbr && t.emul == s.emul && t.f == s.f
    requires t.x == IndexAt(s, s.x, step, j) && t.y == IndexAt(s, s.y, step, j) && t.mem == Moved(s, step, j)
    ensures var u := Move(t, step);
            && u.d.c == Trunc(s.d.c - j - 1) && u.d.dbr == BankAt(s, 1, j)
            && u.pc == (if j + 1 < Count(s) then s.pc else Trunc(s.pc + 3))
            && u.pbr == s.pbr && u.emul == s.emul && u.f == s.f
            && u.x == IndexAt(s, s.x, step, j + 1) && u.y == IndexAt(s, s.y, step, j + 1) && u.mem == Moved(s, step, j + 1)
  {
    hide LoadLong, MoveBank, BankAt, IndexAt, FitIndex, InInstruction;
    BanksStay(s, step, j, t);
    IndexSteps(s, t, s.x, step, j);
    IndexSteps(s, t, s.y, step, j);
  }

  /** What MVN and MVP do as a whole, Count(s) iterations long. */
  lemma MoveCompletes(s: State, step: int)
    requires Regular(s, step)
    ensures var n := Count(s);
            var t := MoveTimes(s, n, step);
            && t.d.c == 0xffff && t.d.dbr == BankAt(s, 1, n - 1) && t.pc == Trunc(s.pc + 3)
            && t.x == IndexAt(s, s.x, step, n) && t.y == IndexAt(s, s.y, step, n)
            && t.mem == Moved(s, step, n)
  {
    hide Regular, Move, Moved, BankAt, IndexAt;
    var n := Count(s);
    Progress(s, n - 1, step);
    OneMoved(MoveTimes(s, n - 1, step), step, s, n - 1);
  }

  /** Where the straight copy starts. */
  function To(s: State): int {
    s.y + BANK * MoveBank(s, 1)
  }

  function From(s: State): int {
    s.x + BANK * MoveBank(s, 2)
  }

  /** An index register counts from v for n bytes without wrapping around. */
  predicate InRange(s: State, v: Word, step: int, n: nat) {
    0 <= At(v, step, n - 1) <= (if Narrow(s) then 0xff else 0xffff) && v <= (if Narrow(s) then 0xff else 0xffff)
  }

  /** If the index ranges do not wrap and the instruction lies within its bank, the move is a copy
      between two ranges of cells. */
  lemma {:induction false} StraightMove(s: State, step: int, k: nat)
    requires (step == 1 || step == -1) && s.pc <= 0xfffd && k <= Count(s)
    requires InRange(s, s.x, step, Count(s)) && InRange(s, s.y, step, Count(s))
    ensures Moved(s, step, k) == Copy(s.mem, To(s), From(s), step, k)
  {
    hide LoadLong, MoveBank;
    if k > 0 {
      StraightMove(s, step, k - 1);
      StraightCells(s, step, k - 1);
    }
  }

  lemma StraightCells(s: State, step: int, i: nat)
    requires (step == 1 || step == -1) && s.pc <= 0xfffd && i < Count(s)
    requires InRange(s, s.x, step, Count(s)) && InRange(s, s.y, step, Count(s))
    ensures Dest(s, step, i) == At(To(s), step, i) && Source(s, step, i) == At(From(s), step, i)
  {
    hide LoadLong;
  }

  // ---- Interruptions --------------------------------------------------------------------------------

  /** Two states that differ at most in the memory cells of `cells`, the stack of a handler, say. */
  ghost predicate Alike(s: State, t: State, cells: set<int>) {
    t == s.(mem := t.mem) && forall a :: a !in cells ==> LoadLong(t.mem, a) == LoadLong(s.mem, a)
  }

  /** The cells one iteration reads: the opcode, the two banks and the source byte. */
  function Reads(s: State): set<int> {
    var b := BANK * s.pbr;
    {s.pc + b, (if s.d.c == 0 then Trunc(s.pc + 1) else s.pc + 1) + b, (if s.d.c == 0 then Trunc(s.pc + 2) else s.pc + 2) + b,
     s.x + BANK * MoveBank(s, 2)}
  }

  lemma AlikeStep(s: State, t: State, cells: set<int>, step: int)
    requires Alike(s, t, cells) && Reads(s) !! cells
    ensures Alike(Move(s, step), Move(t, step), cells)
  {
    assert MoveBank(s, 1) == MoveBank(t, 1) && MoveBank(s, 2) == MoveBank(t, 2);
    hide MoveBank;
  }

  /** A block move that is interrupted at any iteration boundary, by a handler that gives back every
      register and writes nothing but `cells`, ends as it would have without the interruption. */
  lemma {:induction false} Interrupted(s: State, t: State, cells: set<int>, k: nat, step: int)
    requires Alike(s, t, cells)
    requires forall j :: 0 <= j < k ==> Reads(MoveTimes(s, j, step)) !! cells
    ensures Alike(MoveTimes(s, k, step), MoveTimes(t, k, step), cells)
  {
    hide Move, Reads, Alike;
    if k > 0 {
      Interrupted(s, t, cells, k - 1, step);
      AlikeStep(MoveTimes(s, k - 1, step), MoveTimes(t, k - 1, step), cells, step);
    }
  }

  /** The same from the start of the move: interrupted after j iterations, k more complete it. */
  lemma InterruptedAt(s: State, j: nat, t: State, cells: set<int>, k: nat, step: int)
    requires Alike(MoveTimes(s, j, step), t, cells)
    requires forall i :: j <= i < j + k ==> Reads(MoveTimes(s, i, step)) !! cells
    ensures Alike(MoveTimes(s, j + k, step), MoveTimes(t, k, step), cells)
  {
    hide Move, Reads, Alike;
    var u := MoveTimes(s, j, step);
    forall i | 0 <= i < k ensures Reads(MoveTimes(u, i, step)) !! cells {
      MoveSplits(s, j, i, step);
    }
    Interrupted(u, t, cells, k, step);
    MoveSplits(s, j, k, step);
  }

  // ---- The core -----------------------------------------------------------------------------------

  /** The core keeps fetching the same instruction until the program counter moves on. */
  method RunMove(cpu: Wdc65816, step: int) returns (copied: nat)
    requires cpu.Valid()
    modifies cpu
    ensures cpu.Valid() && copied == Count(old(cpu.Abs()))
    ensures cpu.Abs() == MoveTimes(old(cpu.Abs()), copied, step)
  {
    hide Move;
    ghost var s := cpu.Abs();
    var start := cpu.pc;
    Counting(s, 1, step);
    cpu.Move(step);
    copied := 1;
    while cpu.pc == start
      invariant cpu.Valid() && 1 <= copied <= Count(s) && cpu.Abs() == MoveTimes(s, copied, step)
      invariant cpu.pc == start <==> copied < Count(s)
      decreases Count(s) - copied
    {
      Counting(s, copied + 1, step);
      cpu.Move(step);
      copied := copied + 1;
    }
  }
}
