/** What every run of the ACIA guarantees to whoever watches its bus and its line. */
module AciaTraces {
  import opened Words
  import opened Wrappers
  import opened Acia

  // ---- What every state satisfies ------------------------------------------------------------------

  predicate Timed(g: Board, p: Pace) {
    g.cps > 0.0 && p.mask > 0 && 0 <= p.ticks <= Longest(g.cps) && (g.cps >= 32915.0 ==> p.ticks >= 1)
  }

  /** The transmitter has three states, a byte that waits shows as a full data register, flags and
      queue agree, and the interrupt line follows the latch. */
  predicate Sound(g: Board, s: Chip) {
    && Timed(g, s.pace)
    && s.tx.state <= 2 && (s.tx.state == 2 ==> !s.status.tdre)
    && (s.tx.active <==> s.tx.due.Some?) && (s.rx.active ==> s.rx.due.Some?)
    && (s.lines.line <==> s.lines.irq) && (s.status.overrun ==> s.status.rdrf)
  }

  lemma PaceTimed(g: Board, r: Registers)
    requires g.cps > 0.0
    ensures Timed(g, PaceOf(g, r))
  {
    hide Ticks, Mask;
    TicksAtMost(g.cps, g.mode, r.ctrl, r.ectrl, r.cmd);
    TicksAtLeastOne(g.cps, g.mode, r.ctrl, r.ectrl, r.cmd);
  }

  /** set_acia_ticks also makes up for a receiver that was just switched on. */
  lemma RetimedSound(g: Board, s: Chip, clk: int)
    requires Sound(g, s.(rx := s.rx.(active := false))) && (s.rx.active || s.rx.due.Some? || Sound(g, s))
    ensures Sound(g, Retimed(g, s, clk))
  {
    hide Timed, PaceOf;
    assert g.cps > 0.0 by {
      Positive(g, s.pace);
    }
    PaceTimed(g, s.regs);
  }

  lemma Positive(g: Board, p: Pace)
    requires Timed(g, p)
    ensures g.cps > 0.0 && p.mask > 0
  {
  }

  lemma ShakenSound(g: Board, s: Chip, clk: int)
    requires Sound(g, s)
    ensures Sound(g, Shaken(g, s, clk))
  {
    hide Timed, PaceOf, TransmitControl, Dtr;
    RetimedSound(g, s.(rx := s.rx.(active := true)), clk);
  }

  lemma StatusSound(g: Board, s: Chip, clk: int)
    requires Sound(g, s)
    ensures Sound(g, StatusStored(g, s, clk))
  {
    hide Timed, Shaken;
    ShakenSound(g, s.(lines := Interrupted(s.lines.(open := s.lines.open && g.ip232), false),
                      status := s.status.(overrun := false), regs := s.regs.(cmd := s.regs.cmd / 0x20 * 0x20),
                      tx := Stopped(s.tx.(state := 0))), clk);
  }

  lemma CommandSound(g: Board, s: Chip, byte: Byte, clk: int, lineUp: bool)
    requires Sound(g, s)
    ensures Sound(g, CommandStored(g, s, byte, clk, lineUp))
  {
    hide Timed, Shaken, Retimed, TransmitControl, Dtr;
    var t := s.(regs := s.regs.(cmd := byte));
    if Dtr(byte) && !s.lines.open {
      var u := t.(lines := s.lines.(open := lineUp));
      OpenedSound(g, u, clk);
      ShakenSound(g, LineOpened(g, u, clk), clk);
    } else if s.lines.open && !Dtr(byte) && !g.ip232 {
      ShakenSound(g, t.(lines := s.lines.(open := false), tx := Stopped(s.tx)), clk);
    } else {
      ShakenSound(g, t, clk);
    }
  }

  lemma OpenedSound(g: Board, s: Chip, clk: int)
    requires Sound(g, s)
    ensures Sound(g, LineOpened(g, s, clk))
  {
    hide Timed, PaceOf, TransmitControl;
    RetimedSound(g, s.(rx := s.rx.(active := true)), clk);
  }

  lemma DataSound(g: Board, s: Chip, byte: Byte, clk: int)
    requires Sound(g, s)
    ensures Sound(g, DataStored(s, byte, clk)) && Sound(g, DataRead(s))
  {
    hide Timed;
  }

  lemma ControlSound(g: Board, s: Chip, byte: Byte, clk: int)
    requires Sound(g, s)
    ensures Sound(g, ControlStored(g, s, byte, clk)) && Sound(g, ExtendedStored(g, s, byte, clk))
  {
    hide Retimed, Timed;
    RetimedSound(g, s.(regs := s.regs.(ctrl := byte)), clk);
    RetimedSound(g, s.(regs := s.regs.(ectrl := byte)), clk);
  }

  lemma StoreSound(g: Board, s: Chip, addr: Word, byte: Byte, clk: int, lineUp: bool)
    requires Sound(g, s)
    ensures Sound(g, StoredOnce(g, s, addr, byte, clk, lineUp))
  {
    hide Sound, Retimed, StatusStored, CommandStored, DataStored, Register;
    DataSound(g, s, byte, clk);
    StatusSound(g, s, clk);
    CommandSound(g, s, byte, clk, lineUp);
    ControlSound(g, s, byte, clk);
  }

  lemma TransmitSound(g: Board, s: Chip, clk: int)
    requires Sound(g, s)
    ensures Sound(g, Transmitted(s, clk))
  {
    hide Timed, TransmitIrq;
  }

  lemma ReceiveSound(g: Board, s: Chip, clk: int, input: Option<Byte>)
    requires Sound(g, s)
    ensures s.pace.mask > 0 && Sound(g, Received(s, clk, input))
  {
    hide Timed, ReceiveIrq;
    Positive(g, s.pace);
  }

  lemma ReadSound(g: Board, s: Chip, addr: Word, dcd: bool, dsr: bool)
    requires Sound(g, s)
    ensures Sound(g, WasRead(g, s, addr, dcd, dsr))
  {
    hide Timed, Register, Status.ToByte;
  }

  lemma ResetSound(g: Board, s: Chip)
    requires Sound(g, s)
    ensures Sound(g, WasReset(g, s))
  {
    hide Longest, PaceOf;
    PaceTimed(g, Registers(0, 0, 0, 0));
  }

  lemma NextSound(g: Board, s: Chip, e: Event, clk: int)
    requires Sound(g, s)
    ensures Sound(g, Next(g, s, e, clk))
  {
    hide Timed, StoredOnce, WasRead, Transmitted, Received, WasReset;
    match e {
      case Store(addr, byte, rmw, lineUp) =>
        StoreSound(g, s, addr, s.regs.lastRead, clk - 1, lineUp);
        StoreSound(g, if rmw then StoredOnce(g, s, addr, s.regs.lastRead, clk - 1, lineUp) else s, addr, byte, clk, lineUp);
      case Read(addr, dcd, dsr) => ReadSound(g, s, addr, dcd, dsr);
      case TransmitFires => TransmitSound(g, s, clk);
      case ReceiveFires(input) => ReceiveSound(g, s, clk, input);
      case HardReset => ResetSound(g, s);
    }
  }

  lemma FreshSound(g: Board)
    requires g.cps > 0.0
    ensures Sound(g, FRESH)
  {
  }

  /** Every state of every run is sound. */
  lemma {:induction false} RunSound(g: Board, s: Chip, run: seq<Moment>)
    requires Sound(g, s)
    ensures Sound(g, RunOf(g, s, run))
  {
    hide Sound, Next;
    if run != [] {
      var before, m := run[..|run| - 1], run[|run| - 1];
      RunSound(g, s, before);
      NextSound(g, RunOf(g, s, before), m.event, m.clk);
    }
  }

  // ---- Transmitting: every byte on the line was stored, in order and once -----------------------------

  /** The bytes stored to the data register. */
  function Writes(trace: seq<Action>): seq<Byte> {
    if trace == [] then []
    else
      var a := trace[|trace| - 1];
      Writes(trace[..|trace| - 1]) + if a.Wrote? then [a.data] else []
  }

  /** The bytes put on the line, before masking. */
  function Puts(trace: seq<Action>): seq<Byte> {
    if trace == [] then []
    else
      var a := trace[|trace| - 1];
      Puts(trace[..|trace| - 1]) + if a.Put? then [a.data] else []
  }

  /** Can `few` be had from `all` by leaving some out? */
  predicate Within(few: seq<Byte>, all: seq<Byte>)
    decreases |all|
  {
    few == []
    || (all != []
        && ((few[|few| - 1] == all[|all| - 1] && Within(few[..|few| - 1], all[..|all| - 1])) || Within(few, all[..|all| - 1])))
  }

  lemma {:induction false} WithinMore(few: seq<Byte>, all: seq<Byte>, more: seq<Byte>)
    requires Within(few, all)
    ensures Within(few, all + more)
    decreases |more|
  {
    if more == [] {
      assert all + more == all;
    } else {
      var before := more[..|more| - 1];
      assert (all + more)[..|all + more| - 1] == all + before;
      WithinMore(few, all, before);
    }
  }

  lemma {:induction false} WithinBoth(few: seq<Byte>, all: seq<Byte>, more: seq<Byte>)
    requires Within(few, all)
    ensures Within(few + more, all + more)
    decreases |more|
  {
    if more == [] {
      assert all + more == all && few + more == few;
    } else {
      var before := more[..|more| - 1];
      assert (all + more)[..|all + more| - 1] == all + before;
      assert (few + more)[..|few + more| - 1] == few + before;
      WithinBoth(few, all, before);
    }
  }

  lemma {:induction false} WithinAfter(first: seq<Byte>, few: seq<Byte>, all: seq<Byte>)
    requires Within(few, all)
    ensures Within(first + few, first + all)
    decreases |all|
  {
    if few == [] {
      WithinBoth([], [], first);
      assert [] + first == first == first + few;
      WithinMore(first, first, all);
    } else {
      var shorter, last := all[..|all| - 1], all[|all| - 1];
      assert (first + all)[..|first + all| - 1] == first + shorter;
      if few[|few| - 1] == last && Within(few[..|few| - 1], shorter) {
        assert (first + few)[..|first + few| - 1] == first + few[..|few| - 1];
        WithinAfter(first, few[..|few| - 1], shorter);
      } else {
        WithinAfter(first, few, shorter);
      }
    }
  }

  lemma {:induction false} WithinThrough(few: seq<Byte>, some: seq<Byte>, all: seq<Byte>)
    requires Within(few, some) && Within(some, all)
    ensures Within(few, all)
    decreases |all|
  {
    if few != [] && some != [] {
      var fewer, fewest, shorter := some[..|some| - 1], few[..|few| - 1], all[..|all| - 1];
      if some[|some| - 1] == all[|all| - 1] && Within(fewer, shorter) {
        if few[|few| - 1] == some[|some| - 1] && Within(fewest, fewer) {
          WithinThrough(fewest, fewer, shorter);
        } else {
          WithinThrough(few, fewer, shorter);
        }
      } else {
        WithinThrough(few, some, shorter);
      }
    }
  }

  lemma {:induction false} TracesJoin(trace: seq<Action>, more: seq<Action>)
    ensures Writes(trace + more) == Writes(trace) + Writes(more) && Puts(trace + more) == Puts(trace) + Puts(more)
  {
    if more == [] {
      assert trace + more == trace;
    } else {
      var before := more[..|more| - 1];
      assert (trace + more)[..|trace + more| - 1] == trace + before;
      TracesJoin(trace, before);
    }
  }

  /** The byte that waits to be sent. */
  function Waiting(s: Chip): seq<Byte> {
    if s.tx.state == 2 then [s.tx.data] else []
  }

  lemma Passes(first: seq<Byte>, puts: seq<Byte>, waiting: seq<Byte>, later: seq<Byte>, start: seq<Byte>, writes: seq<Byte>, more: seq<Byte>)
    requires Within(first + waiting, start + writes) && Within(puts + later, waiting + more)
    ensures Within(first + puts + later, start + (writes + more))
  {
    hide Within;
    WithinAfter(first, puts + later, waiting + more);
    WithinBoth(first + waiting, start + writes, more);
    Regroup(first, puts, later);
    Regroup(first, waiting, more);
    Regroup(start, writes, more);
    WithinThrough(first + puts + later, first + waiting + more, start + (writes + more));
  }

  lemma Regroup(a: seq<Byte>, b: seq<Byte>, c: seq<Byte>)
    ensures a + (b + c) == a + b + c
  {
  }

  /** Only stores to the data register, commands, resets and the alarm concern the waiting byte. */
  lemma ShakenTx(g: Board, s: Chip, clk: int)
    ensures var t := Shaken(g, s, clk).tx; t.state == s.tx.state && t.data == s.tx.data
    ensures Retimed(g, s, clk).tx == s.tx
  {
    hide PaceOf;
  }

  lemma WaitingStored(g: Board, s: Chip, addr: Word, byte: Byte, clk: int, lineUp: bool)
    ensures var t := StoredOnce(g, s, addr, byte, clk, lineUp);
            Waiting(t) == []
            || Waiting(t) == if Register(g, addr) == 0 then [byte] else Waiting(s)
  {
    hide Shaken, Retimed, Dtr, TransmitControl, Register;
    match Register(g, addr) {
      case 1 => ShakenTx(g, s.(lines := Interrupted(s.lines.(open := s.lines.open && g.ip232), false),
                               status := s.status.(overrun := false), regs := s.regs.(cmd := s.regs.cmd / 0x20 * 0x20),
                               tx := Stopped(s.tx.(state := 0))), clk);
      case 2 => WaitingCommanded(g, s, byte, clk, lineUp);
      case 3 => ShakenTx(g, s.(regs := s.regs.(ctrl := byte)), clk);
      case 7 => ShakenTx(g, s.(regs := s.regs.(ectrl := byte)), clk);
      case _ =>
    }
  }

  lemma WaitingCommanded(g: Board, s: Chip, byte: Byte, clk: int, lineUp: bool)
    ensures Waiting(CommandStored(g, s, byte, clk, lineUp)) == [] || Waiting(CommandStored(g, s, byte, clk, lineUp)) == Waiting(s)
  {
    hide Shaken, Retimed, Dtr, TransmitControl;
    var t := s.(regs := s.regs.(cmd := byte));
    var u := t.(lines := s.lines.(open := lineUp));
    ShakenTx(g, u.(rx := u.rx.(active := true)), clk);
    ShakenTx(g, LineOpened(g, u, clk), clk);
    ShakenTx(g, t.(lines := s.lines.(open := false), tx := Stopped(s.tx)), clk);
    ShakenTx(g, t, clk);
  }

  lemma WithinSelf(a: seq<Byte>)
    ensures Within(a, a) && Within([], a)
  {
    WithinBoth([], [], a);
    assert [] + a == a;
  }

  /** One event: what goes out and what waits afterwards comes from what waited and what was stored. */
  lemma NextPasses(g: Board, s: Chip, e: Event, clk: int)
    requires Sound(g, s)
    ensures var seen := Seen(g, s, e, clk);
            Within(Puts(seen) + Waiting(Next(g, s, e, clk)), Waiting(s) + Writes(seen))
  {
    hide Sound, StoredOnce, WasRead, Transmitted, Received, WasReset, Within, Register, ReadValue, Sends;
    var t := Next(g, s, e, clk);
    match e {
      case Store(addr, byte, rmw, lineUp) =>
        var u := StoredOnce(g, s, addr, s.regs.lastRead, clk - 1, lineUp);
        StorePasses(g, s, addr, s.regs.lastRead, clk - 1, lineUp);
        StorePasses(g, if rmw then u else s, addr, byte, clk, lineUp);
        if rmw {
          TracesJoin(StoreSeen(g, addr, s.regs.lastRead), StoreSeen(g, addr, byte));
          Passes([], [], Waiting(u), Waiting(t), Waiting(s), Writes(StoreSeen(g, addr, s.regs.lastRead)), Writes(StoreSeen(g, addr, byte)));
        } else {
          assert [] + StoreSeen(g, addr, byte) == StoreSeen(g, addr, byte);
        }
        StoresPutNothing(g, addr, s.regs.lastRead, byte, rmw);
      case Read(addr, dcd, dsr) => OthersWait(g, s, e, clk); OthersSeen(g, s, e, clk); NothingPasses(Seen(g, s, e, clk), Waiting(s), Waiting(t));
      case TransmitFires => TransmitPasses(g, s, clk);
      case ReceiveFires(input) => OthersWait(g, s, e, clk); OthersSeen(g, s, e, clk); NothingPasses(Seen(g, s, e, clk), Waiting(s), Waiting(t));
      case HardReset => OthersWait(g, s, e, clk); OthersSeen(g, s, e, clk); NothingPasses(Seen(g, s, e, clk), Waiting(s), Waiting(t));
    }
  }

  lemma StoresPutNothing(g: Board, addr: Word, first: Byte, byte: Byte, rmw: bool)
    ensures Puts((if rmw then StoreSeen(g, addr, first) else []) + StoreSeen(g, addr, byte)) == []
  {
    hide Register;
    TracesJoin(if rmw then StoreSeen(g, addr, first) else [], StoreSeen(g, addr, byte));
  }

  lemma StorePasses(g: Board, s: Chip, addr: Word, byte: Byte, clk: int, lineUp: bool)
    ensures Within([] + Waiting(StoredOnce(g, s, addr, byte, clk, lineUp)), Waiting(s) + Writes(StoreSeen(g, addr, byte)))
  {
    hide StoredOnce, Register, Within;
    var t := StoredOnce(g, s, addr, byte, clk, lineUp);
    WaitingStored(g, s, addr, byte, clk, lineUp);
    var writes := Writes(StoreSeen(g, addr, byte));
    WithinSelf(Waiting(s) + writes);
    WithinSelf(writes);
    WithinSelf(Waiting(s));
    assert [] + Waiting(t) == Waiting(t);
    if Waiting(t) != [] {
      if Register(g, addr) == 0 {
        OneWrite(byte);
        WithinAfter(Waiting(s), [], []);
        NoneBefore(Waiting(s), [byte]);
      } else {
        WithinMore(Waiting(s), Waiting(s), writes);
      }
    }
  }

  lemma OneWrite(byte: Byte)
    ensures Writes([Wrote(byte)]) == [byte]
  {
    assert [Wrote(byte)][..0] == [];
  }

  lemma NoneBefore(first: seq<Byte>, few: seq<Byte>)
    ensures Within(few, first + few)
  {
    WithinSelf(first);
    WithinBoth([], first, few);
    assert [] + few == few;
  }

  lemma TransmitPasses(g: Board, s: Chip, clk: int)
    requires Sound(g, s)
    ensures var seen := Seen(g, s, TransmitFires, clk);
            Within(Puts(seen) + Waiting(Transmitted(s, clk)), Waiting(s) + Writes(seen))
  {
    hide Within, TransmitIrq, Timed;
    Positive(g, s.pace);
    assert Waiting(Transmitted(s, clk)) == [];
    WithinSelf(Waiting(s));
    assert Waiting(s) + [] == Waiting(s);
    if Sends(s) {
      OnePut(s, clk);
      assert [s.tx.data] + [] == [s.tx.data];
    } else {
      assert Puts([]) + [] == [];
    }
  }

  lemma OnePut(s: Chip, clk: int)
    requires s.pace.mask > 0
    ensures var seen := [Put(s.tx.data % s.pace.mask, s.tx.data, clk, s.pace.ticks)]; Puts(seen) == [s.tx.data] && Writes(seen) == []
  {
    var seen := [Put(s.tx.data % s.pace.mask, s.tx.data, clk, s.pace.ticks)];
    assert seen[..0] == [];
  }

  /** What is neither sent nor stored leaves the waiting byte alone or forgets it. */
  lemma NothingPasses(seen: seq<Action>, was: seq<Byte>, now: seq<Byte>)
    requires Puts(seen) == Writes(seen) == [] && (now == [] || now == was)
    ensures Within(Puts(seen) + now, was + Writes(seen))
  {
    hide Within;
    WithinSelf(was);
    assert [] + now == now && was + [] == was;
  }

  lemma OthersWait(g: Board, s: Chip, e: Event, clk: int)
    requires e.Read? || e.ReceiveFires? || e.HardReset?
    ensures Waiting(Next(g, s, e, clk)) == [] || Waiting(Next(g, s, e, clk)) == Waiting(s)
  {
    hide PaceOf, Register, Status.ToByte;
  }

  lemma OthersSeen(g: Board, s: Chip, e: Event, clk: int)
    requires e.Read? || e.ReceiveFires? || e.HardReset?
    ensures Puts(Seen(g, s, e, clk)) == [] && Writes(Seen(g, s, e, clk)) == []
  {
    hide Register, ReadValue;
    var seen := Seen(g, s, e, clk);
    assert |seen| <= 1 && (seen != [] ==> seen[..0] == [] && !seen[0].Wrote? && !seen[0].Put?);
  }

  /** Whatever happens, the bytes that went out are a subsequence of the byte that waited at first
      and the bytes stored since: nothing is invented, reordered or sent twice. */
  lemma {:induction false} TransmitConservation(g: Board, s: Chip, run: seq<Moment>)
    requires Sound(g, s)
    ensures Within(Puts(Trace(g, s, run)) + Waiting(RunOf(g, s, run)), Waiting(s) + Writes(Trace(g, s, run)))
    ensures Within(Puts(Trace(g, s, run)), Waiting(s) + Writes(Trace(g, s, run)))
  {
    hide Sound, Next, Seen, Within, Waiting;
    if run == [] {
      WithinSelf(Waiting(s));
      assert [] + Waiting(s) == Waiting(s) == Waiting(s) + [];
    } else {
      var before, m := run[..|run| - 1], run[|run| - 1];
      var u := RunOf(g, s, before);
      TransmitConservation(g, s, before);
      RunSound(g, s, before);
      NextPasses(g, u, m.event, m.clk);
      var first, seen := Trace(g, s, before), Seen(g, u, m.event, m.clk);
      TracesJoin(first, seen);
      Passes(Puts(first), Puts(seen), Waiting(u), Waiting(RunOf(g, s, run)), Waiting(s), Writes(first), Writes(seen));
    }
    var puts := Puts(Trace(g, s, run));
    WithinSelf(puts);
    WithinMore(puts, puts, Waiting(RunOf(g, s, run)));
    WithinThrough(puts, puts + Waiting(RunOf(g, s, run)), Waiting(s) + Writes(Trace(g, s, run)));
  }

  // ---- Pacing: the line is never driven faster than it can go -----------------------------------------

  /** A store to the command or status register or a reset begins a new period. */
  predicate Restarts(a: Action) {
    a.Cleared? || a.Commanded? || a.ResetDone?
  }

  /** When the last character of the current period is over, if there is one. */
  function LastOver(trace: seq<Action>): Option<int> {
    if trace == [] then None
    else
      var a := trace[|trace| - 1];
      if a.Put? then Some(a.clk + a.ticks) else if Restarts(a) then None else LastOver(trace[..|trace| - 1])
  }

  /** Within a period a character begins only when the one before it is over. */
  predicate Paced(trace: seq<Action>) {
    trace == []
    || (var before, a := trace[..|trace| - 1], trace[|trace| - 1];
        Paced(before) && (a.Put? && LastOver(before).Some? ==> a.clk >= LastOver(before).value))
  }

  /** The transmitter will not send before the last character is over. */
  predicate Patient(over: Option<int>, tx: Transmitter, now: int) {
    over.Some? ==> over.value <= if tx.due.Some? then tx.due.value else now
  }

  lemma OverMore(trace: seq<Action>, a: Action)
    ensures LastOver(trace + [a]) == if a.Put? then Some(a.clk + a.ticks) else if Restarts(a) then None else LastOver(trace)
  {
    assert (trace + [a])[..|trace|] == trace && (trace + [a])[|trace|] == a;
  }

  lemma Calm(trace: seq<Action>, a: Action)
    requires Paced(trace) && (a.Put? && LastOver(trace).Some? ==> a.clk >= LastOver(trace).value)
    ensures Paced(trace + [a])
    ensures LastOver(trace + [a]) == if a.Put? then Some(a.clk + a.ticks) else if Restarts(a) then None else LastOver(trace)
  {
    hide LastOver;
    OverMore(trace, a);
    assert (trace + [a])[..|trace|] == trace && (trace + [a])[|trace|] == a;
  }

  /** One store: it is seen as at most one action, none of which is on the line. */
  lemma StoreCalm(g: Board, trace: seq<Action>, s: Chip, addr: Word, byte: Byte, clk: int, lineUp: bool, now: int)
    requires Sound(g, s) && Paced(trace) && Patient(LastOver(trace), s.tx, now) && now <= clk + 1
    ensures var more := trace + StoreSeen(g, addr, byte);
            Paced(more) && Patient(LastOver(more), StoredOnce(g, s, addr, byte, clk, lineUp).tx, now)
  {
    hide Sound, Paced, LastOver, Retimed, StatusStored, CommandStored, Register, Dtr;
    match Register(g, addr) {
      case 0 => Calm(trace, Wrote(byte)); ActiveIsDue(g, s);
      case 1 => Calm(trace, Cleared);
      case 2 => Calm(trace, Commanded);
      case 3 => ShakenTx(g, s.(regs := s.regs.(ctrl := byte)), clk);
      case 7 => ShakenTx(g, s.(regs := s.regs.(ectrl := byte)), clk);
      case _ =>
    }
    assert trace + [] == trace;
  }

  lemma ActiveIsDue(g: Board, s: Chip)
    requires Sound(g, s)
    ensures s.tx.active <==> s.tx.due.Some?
    ensures s.pace.mask > 0 && s.pace.ticks >= 0
  {
  }

  lemma NextCalm(g: Board, trace: seq<Action>, s: Chip, e: Event, clk: int, now: int)
    requires Sound(g, s) && Paced(trace) && Patient(LastOver(trace), s.tx, now) && now <= clk && Possible(s, e, clk)
    ensures var more := trace + Seen(g, s, e, clk); Paced(more) && Patient(LastOver(more), Next(g, s, e, clk).tx, clk)
  {
    hide Sound, Paced, LastOver, StoredOnce, Register, ReadValue, Patient;
    match e {
      case Store(addr, byte, rmw, lineUp) => StoresCalm(g, trace, s, addr, byte, rmw, clk, lineUp, now);
      case Read(addr, dcd, dsr) => ReadCalm(g, trace, s, addr, dcd, dsr, clk, now);
      case TransmitFires => TransmitCalm(g, trace, s, clk, now);
      case ReceiveFires(input) => ReceiveCalm(g, trace, s, input, clk, now);
      case HardReset => Calm(trace, ResetDone); NoneOver(Next(g, s, e, clk).tx, clk);
    }
  }

  lemma NoneOver(tx: Transmitter, now: int)
    ensures Patient(None, tx, now)
  {
  }

  lemma StoresCalm(g: Board, trace: seq<Action>, s: Chip, addr: Word, byte: Byte, rmw: bool, clk: int, lineUp: bool, now: int)
    requires Sound(g, s) && Paced(trace) && Patient(LastOver(trace), s.tx, now) && now <= clk
    ensures var more := trace + Seen(g, s, Store(addr, byte, rmw, lineUp), clk);
            Paced(more) && Patient(LastOver(more), Stored(g, s, addr, byte, clk, rmw, lineUp).tx, clk)
  {
    hide Sound, Paced, LastOver, StoredOnce, StoreSeen, Register;
    var u := if rmw then StoredOnce(g, s, addr, s.regs.lastRead, clk - 1, lineUp) else s;
    var first := if rmw then StoreSeen(g, addr, s.regs.lastRead) else [];
    if rmw {
      StoreCalm(g, trace, s, addr, s.regs.lastRead, clk - 1, lineUp, now);
      StoreSound(g, s, addr, s.regs.lastRead, clk - 1, lineUp);
    } else {
      assert trace + first == trace;
    }
    StoreCalm(g, trace + first, u, addr, byte, clk, lineUp, now);
    assert trace + first + StoreSeen(g, addr, byte) == trace + (first + StoreSeen(g, addr, byte));
  }

  lemma ReadCalm(g: Board, trace: seq<Action>, s: Chip, addr: Word, dcd: bool, dsr: bool, clk: int, now: int)
    requires Paced(trace) && Patient(LastOver(trace), s.tx, now) && now <= clk
    ensures var more := trace + Seen(g, s, Read(addr, dcd, dsr), clk); Paced(more) && Patient(LastOver(more), WasRead(g, s, addr, dcd, dsr).tx, clk)
  {
    hide Paced, LastOver, Register, ReadValue, Status.ToByte;
    assert trace + [] == trace;
    if Register(g, addr) == 0 {
      Calm(trace, Took(ReadValue(g, s, addr, dcd, dsr)));
    }
  }

  lemma ReceiveCalm(g: Board, trace: seq<Action>, s: Chip, input: Option<Byte>, clk: int, now: int)
    requires Sound(g, s) && Paced(trace) && Patient(LastOver(trace), s.tx, now) && now <= clk
    ensures var more := trace + Seen(g, s, ReceiveFires(input), clk); Paced(more) && Patient(LastOver(more), Next(g, s, ReceiveFires(input), clk).tx, clk)
  {
    hide Sound, Paced, LastOver, ReceiveIrq;
    assert trace + [] == trace;
    if s.lines.open && input.Some? {
      Calm(trace, Heard(input.value, s.pace.mask));
    }
  }

  lemma TransmitCalm(g: Board, trace: seq<Action>, s: Chip, clk: int, now: int)
    requires Sound(g, s) && Paced(trace) && Patient(LastOver(trace), s.tx, now) && now <= clk && Possible(s, TransmitFires, clk)
    ensures var more := trace + Seen(g, s, TransmitFires, clk); Paced(more) && Patient(LastOver(more), Transmitted(s, clk).tx, clk)
  {
    hide Sound, Paced, LastOver, TransmitIrq;
    ActiveIsDue(g, s);
    assert trace + [] == trace;
    if Sends(s) {
      Calm(trace, Put(s.tx.data % s.pace.mask, s.tx.data, clk, s.pace.ticks));
    }
  }

  /** In every run on a clock that does not go back the line is paced, whatever data and control
      stores there are. */
  lemma {:induction false} TransmitPacing(g: Board, s: Chip, start: int, run: seq<Moment>)
    requires Sound(g, s) && Proper(g, s, start, run)
    ensures Paced(Trace(g, s, run)) && Patient(LastOver(Trace(g, s, run)), RunOf(g, s, run).tx, Latest(start, run))
  {
    hide Sound, Next, Seen, Possible, Patient;
    if run == [] {
      NoneOver(s.tx, start);
    } else {
      var before, m := run[..|run| - 1], run[|run| - 1];
      TransmitPacing(g, s, start, before);
      RunSound(g, s, before);
      NextCalm(g, Trace(g, s, before), RunOf(g, s, before), m.event, m.clk, Latest(start, before));
    }
  }

  // ---- Receiving: a mailbox for one byte ----------------------------------------------------------------

  /** A mailbox: what arrives while it is full is lost, and that it was lost shows until the box is
      emptied or the sign is taken down. */
  datatype Box = Box(full: bool, byte: Byte, overrun: bool)

  function Delivered(b: Box, a: Action): Box {
    match a
    case Heard(byte, mask) => if b.full || mask == 0 then b.(overrun := b.overrun || b.full) else Box(true, byte % mask, b.overrun)
    case Took(_) => b.(full := false, overrun := false)
    case Cleared => b.(overrun := false)
    case ResetDone => b.(full := false, overrun := false)
    case _ => b
  }

  function BoxAfter(b: Box, trace: seq<Action>): Box {
    if trace == [] then b else Delivered(BoxAfter(b, trace[..|trace| - 1]), trace[|trace| - 1])
  }

  function BoxOf(s: Chip): Box {
    Box(s.status.rdrf, s.rx.data, s.status.overrun)
  }

  lemma {:induction false} BoxesJoin(b: Box, trace: seq<Action>, more: seq<Action>)
    ensures BoxAfter(b, trace + more) == BoxAfter(BoxAfter(b, trace), more)
  {
    hide Delivered;
    if more == [] {
      assert trace + more == trace;
    } else {
      var before := more[..|more| - 1];
      assert (trace + more)[..|trace + more| - 1] == trace + before;
      BoxesJoin(b, trace, before);
    }
  }

  lemma BoxOne(b: Box, a: Action)
    ensures BoxAfter(b, [a]) == Delivered(b, a) && BoxAfter(b, []) == b
  {
    assert [a][..0] == [];
  }

  lemma ShakenBox(g: Board, s: Chip, clk: int)
    ensures BoxOf(Shaken(g, s, clk)) == BoxOf(s) && BoxOf(Retimed(g, s, clk)) == BoxOf(s)
  {
    hide PaceOf;
  }

  lemma CommandBox(g: Board, s: Chip, byte: Byte, clk: int, lineUp: bool)
    ensures BoxOf(CommandStored(g, s, byte, clk, lineUp)) == BoxOf(s)
  {
    hide Shaken, Retimed, Dtr, TransmitControl;
    var t := s.(regs := s.regs.(cmd := byte));
    var u := t.(lines := s.lines.(open := lineUp));
    ShakenBox(g, u.(rx := u.rx.(active := true)), clk);
    ShakenBox(g, LineOpened(g, u, clk), clk);
    ShakenBox(g, t.(lines := s.lines.(open := false), tx := Stopped(s.tx)), clk);
    ShakenBox(g, t, clk);
  }

  lemma StatusBox(g: Board, s: Chip, clk: int)
    ensures BoxOf(StatusStored(g, s, clk)) == Delivered(BoxOf(s), Cleared)
  {
    hide Shaken;
    ShakenBox(g, s.(lines := Interrupted(s.lines.(open := s.lines.open && g.ip232), false),
                    status := s.status.(overrun := false), regs := s.regs.(cmd := s.regs.cmd / 0x20 * 0x20),
                    tx := Stopped(s.tx.(state := 0))), clk);
  }

  lemma ControlBox(g: Board, s: Chip, byte: Byte, clk: int)
    ensures BoxOf(ControlStored(g, s, byte, clk)) == BoxOf(ExtendedStored(g, s, byte, clk)) == BoxOf(s)
  {
    hide Retimed;
    ShakenBox(g, s.(regs := s.regs.(ctrl := byte)), clk);
    ShakenBox(g, s.(regs := s.regs.(ectrl := byte)), clk);
  }

  lemma StoreBox(g: Board, s: Chip, addr: Word, byte: Byte, clk: int, lineUp: bool)
    ensures BoxOf(StoredOnce(g, s, addr, byte, clk, lineUp)) == BoxAfter(BoxOf(s), StoreSeen(g, addr, byte))
  {
    hide StatusStored, CommandStored, ControlStored, ExtendedStored, Register, Dtr, BoxAfter;
    BoxOne(BoxOf(s), Wrote(byte));
    BoxOne(BoxOf(s), Cleared);
    BoxOne(BoxOf(s), Commanded);
    StatusBox(g, s, clk);
    CommandBox(g, s, byte, clk, lineUp);
    ControlBox(g, s, byte, clk);
  }

  lemma StoresBox(g: Board, s: Chip, addr: Word, byte: Byte, rmw: bool, clk: int, lineUp: bool)
    ensures BoxOf(Stored(g, s, addr, byte, clk, rmw, lineUp)) == BoxAfter(BoxOf(s), Seen(g, s, Store(addr, byte, rmw, lineUp), clk))
  {
    hide StoredOnce, StoreSeen, BoxAfter, BoxOf;
    var u := if rmw then StoredOnce(g, s, addr, s.regs.lastRead, clk - 1, lineUp) else s;
    StoreBox(g, s, addr, s.regs.lastRead, clk - 1, lineUp);
    StoreBox(g, u, addr, byte, clk, lineUp);
    var first := if rmw then StoreSeen(g, addr, s.regs.lastRead) else [];
    BoxesJoin(BoxOf(s), first, StoreSeen(g, addr, byte));
    assert [] + StoreSeen(g, addr, byte) == StoreSeen(g, addr, byte);
  }

  lemma AlarmBox(g: Board, s: Chip, clk: int, input: Option<Byte>)
    requires Sound(g, s)
    ensures BoxOf(Transmitted(s, clk)) == BoxAfter(BoxOf(s), Seen(g, s, TransmitFires, clk))
    ensures BoxOf(Next(g, s, ReceiveFires(input), clk)) == BoxAfter(BoxOf(s), Seen(g, s, ReceiveFires(input), clk))
  {
    hide Sound, BoxAfter, ReceiveIrq, TransmitIrq;
    ActiveIsDue(g, s);
    BoxOne(BoxOf(s), Put(s.tx.data % s.pace.mask, s.tx.data, clk, s.pace.ticks));
    if s.lines.open && input.Some? {
      BoxOne(BoxOf(s), Heard(input.value, s.pace.mask));
    }
  }

  lemma ReadBox(g: Board, s: Chip, addr: Word, dcd: bool, dsr: bool, clk: int)
    ensures BoxOf(WasRead(g, s, addr, dcd, dsr)) == BoxAfter(BoxOf(s), Seen(g, s, Read(addr, dcd, dsr), clk))
  {
    hide BoxAfter, Register, ReadValue, Status.ToByte;
    BoxOne(BoxOf(s), Took(ReadValue(g, s, addr, dcd, dsr)));
  }

  lemma NextBox(g: Board, s: Chip, e: Event, clk: int)
    requires Sound(g, s)
    ensures BoxOf(Next(g, s, e, clk)) == BoxAfter(BoxOf(s), Seen(g, s, e, clk))
  {
    hide Sound, Stored, WasRead, Transmitted, Received, BoxAfter, PaceOf;
    match e {
      case Store(addr, byte, rmw, lineUp) => StoresBox(g, s, addr, byte, rmw, clk, lineUp);
      case Read(addr, dcd, dsr) => ReadBox(g, s, addr, dcd, dsr, clk);
      case TransmitFires => AlarmBox(g, s, clk, None);
      case ReceiveFires(input) => AlarmBox(g, s, clk, input);
      case HardReset => BoxOne(BoxOf(s), ResetDone);
    }
  }

  /** A read of the data register shows what is in the box. */
  predicate Honest(b: Box, trace: seq<Action>) {
    forall i :: 0 <= i < |trace| && trace[i].Took? ==> trace[i].byte == BoxAfter(b, trace[..i]).byte
  }

  lemma HonestMore(b: Box, trace: seq<Action>, more: seq<Action>)
    requires Honest(b, trace) && forall a :: a in more && a.Took? ==> |more| == 1 && a.byte == BoxAfter(b, trace).byte
    ensures Honest(b, trace + more)
  {
    hide BoxAfter;
    forall i | 0 <= i < |trace + more| && (trace + more)[i].Took? ensures (trace + more)[i].byte == BoxAfter(b, (trace + more)[..i]).byte {
      assert i < |trace| ==> (trace + more)[..i] == trace[..i];
      assert i >= |trace| ==> (trace + more)[i] in more && (trace + more)[..|trace|] == trace;
    }
  }

  lemma SeenTook(g: Board, s: Chip, e: Event, clk: int, a: Action)
    requires a in Seen(g, s, e, clk) && a.Took?
    ensures |Seen(g, s, e, clk)| == 1 && a.byte == s.rx.data
  {
    hide Register;
  }

  /** The receiver is a mailbox, in every run: the flags and the latch are those of the box that gets
      what is fetched from the line, and reads of the data register show it. */
  lemma {:induction false} ReceiverIsMailbox(g: Board, s: Chip, run: seq<Moment>)
    requires Sound(g, s)
    ensures BoxOf(RunOf(g, s, run)) == BoxAfter(BoxOf(s), Trace(g, s, run)) && Honest(BoxOf(s), Trace(g, s, run))
  {
    hide Sound, Next, Seen, Honest;
    if run == [] {
      assert Honest(BoxOf(s), []) by { EmptyHonest(BoxOf(s)); }
    } else {
      var before, m := run[..|run| - 1], run[|run| - 1];
      var u := RunOf(g, s, before);
      ReceiverIsMailbox(g, s, before);
      RunSound(g, s, before);
      NextBox(g, u, m.event, m.clk);
      var seen := Seen(g, u, m.event, m.clk);
      BoxesJoin(BoxOf(s), Trace(g, s, before), seen);
      forall a | a in seen && a.Took? ensures |seen| == 1 && a.byte == BoxAfter(BoxOf(s), Trace(g, s, before)).byte {
        SeenTook(g, u, m.event, m.clk, a);
      }
      HonestMore(BoxOf(s), Trace(g, s, before), seen);
    }
  }

  lemma EmptyHonest(b: Box)
    ensures Honest(b, [])
  {
  }

  /** The bytes that a box has taken in. */
  function Accepted(b: Box, trace: seq<Action>): seq<Byte> {
    if trace == [] then []
    else
      var before, a := trace[..|trace| - 1], trace[|trace| - 1];
      Accepted(b, before) + if a.Heard? && a.mask > 0 && !BoxAfter(b, before).full then [a.byte % a.mask] else []
  }

  /** The bytes that left it: those read while it was full and those that a reset threw away. */
  function Removed(b: Box, trace: seq<Action>): seq<Byte> {
    if trace == [] then []
    else
      var before, a := trace[..|trace| - 1], trace[|trace| - 1];
      Removed(b, before) + if a.Took? && BoxAfter(b, before).full then [a.byte]
                           else if a.ResetDone? then Inside(BoxAfter(b, before)) else []
  }

  function Inside(b: Box): seq<Byte> {
    if b.full then [b.byte] else []
  }

  function Fetches(trace: seq<Action>): nat {
    if trace == [] then 0 else Fetches(trace[..|trace| - 1]) + if trace[|trace| - 1].Heard? then 1 else 0
  }

  /** How many bytes came while the box was full. */
  function Lost(b: Box, trace: seq<Action>): nat {
    if trace == [] then 0
    else
      var before, a := trace[..|trace| - 1], trace[|trace| - 1];
      Lost(b, before) + if a.Heard? && BoxAfter(b, before).full then 1 else 0
  }

  /** What comes from the line fits under some mask. */
  predicate Masked(trace: seq<Action>) {
    forall a :: a in trace && a.Heard? ==> a.mask > 0
  }

  /** What was in the box at first and what it took in since is what left it and what is in it now. */
  predicate Conserved(b: Box, trace: seq<Action>) {
    Inside(b) + Accepted(b, trace) == Removed(b, trace) + Inside(BoxAfter(b, trace))
    && Fetches(trace) == |Accepted(b, trace)| + Lost(b, trace)
  }

  lemma {:induction false} BoxConservation(b: Box, trace: seq<Action>)
    requires Honest(b, trace) && Masked(trace)
    ensures Conserved(b, trace)
  {
    if trace != [] {
      var before, a := trace[..|trace| - 1], trace[|trace| - 1];
      assert forall i :: 0 <= i < |before| ==> before[i] == trace[i] && before[..i] == trace[..i];
      BoxConservation(b, before);
      assert a in trace && trace[..|before|] == before;
      OneMore(b, before, a);
    }
  }

  lemma OneMore(b: Box, before: seq<Action>, a: Action)
    requires a.Heard? ==> a.mask > 0
    requires Inside(b) + Accepted(b, before) == Removed(b, before) + Inside(BoxAfter(b, before))
    requires a.Took? ==> a.byte == BoxAfter(b, before).byte
    ensures var was := BoxAfter(b, before);
            var accepted := if a.Heard? && !was.full then [a.byte % a.mask] else [];
            var removed := if a.Took? && was.full then [a.byte] else if a.ResetDone? then Inside(was) else [];
            Inside(b) + (Accepted(b, before) + accepted) == Removed(b, before) + removed + Inside(Delivered(was, a))
  {
    hide Accepted, Removed, BoxAfter;
    var was, accepted, removed := BoxAfter(b, before), Accepted(b, before), Removed(b, before);
    NoneMore(accepted);
    NoneMore(removed);
    NoneMore(removed + Inside(was));
    if a.Heard? && !was.full {
      Regroup(Inside(b), accepted, [a.byte % a.mask]);
    } else if a.Took? || a.ResetDone? {
      assert Inside(Delivered(was, a)) == [];
    } else {
      assert Inside(Delivered(was, a)) == Inside(was);
    }
  }

  lemma NoneMore(a: seq<Byte>)
    ensures a + [] == a
  {
  }

  lemma SeenMasked(g: Board, s: Chip, e: Event, clk: int)
    requires Sound(g, s)
    ensures Masked(Seen(g, s, e, clk))
  {
    hide Sound, Register, ReadValue;
    ActiveIsDue(g, s);
  }

  lemma {:induction false} TraceMasked(g: Board, s: Chip, run: seq<Moment>)
    requires Sound(g, s)
    ensures Masked(Trace(g, s, run))
  {
    hide Sound, Next, Seen;
    if run != [] {
      var before, m := run[..|run| - 1], run[|run| - 1];
      TraceMasked(g, s, before);
      RunSound(g, s, before);
      SeenMasked(g, RunOf(g, s, before), m.event, m.clk);
    }
  }

  /** In every run: a byte fetched from the line was taken in or came while the register was full, and
      what was in the register at first and what it took in since is, in order and once each, what the
      program read, what a reset threw away, and what is in it now. */
  lemma ReceiveConservation(g: Board, s: Chip, run: seq<Moment>)
    requires Sound(g, s)
    ensures var b, trace := BoxOf(s), Trace(g, s, run);
            Inside(b) + Accepted(b, trace) == Removed(b, trace) + Inside(BoxOf(RunOf(g, s, run)))
            && Fetches(trace) == |Accepted(b, trace)| + Lost(b, trace)
  {
    hide Sound, Honest, Masked, Trace, Accepted, Removed, Fetches, Lost, BoxAfter, RunOf;
    ReceiverIsMailbox(g, s, run);
    TraceMasked(g, s, run);
    BoxConservation(BoxOf(s), Trace(g, s, run));
  }

  predicate Clears(a: Action) {
    a.Took? || a.Cleared? || a.ResetDone?
  }

  predicate LostSince(b: Box, trace: seq<Action>, i: int) {
    0 <= i < |trace| && trace[i].Heard? && BoxAfter(b, trace[..i]).full && forall j :: i < j < |trace| ==> !Clears(trace[j])
  }

  /** A byte was lost since the data register was read, the status register stored to or the chip reset;
      or overrun showed at first and nothing of that has happened since. */
  ghost predicate Overran(b: Box, trace: seq<Action>) {
    (b.overrun && forall a :: a in trace ==> !Clears(a)) || exists i :: LostSince(b, trace, i)
  }

  /** Overrun shows exactly then. */
  lemma {:induction false} OverrunMeans(b: Box, trace: seq<Action>)
    ensures BoxAfter(b, trace).overrun <==> Overran(b, trace)
  {
    hide LostSince, Clears;
    if trace == [] {
      LostNone(b);
    } else {
      var before, a := trace[..|trace| - 1], trace[|trace| - 1];
      OverrunMeans(b, before);
      assert trace == before + [a];
      assert (forall c :: c in trace ==> !Clears(c)) <==> (forall c :: c in before ==> !Clears(c)) && !Clears(a);
      LostMore(b, before, a);
      OverrunNext(b, before, a);
    }
  }

  lemma LostNone(b: Box)
    ensures forall i :: !LostSince(b, [], i)
  {
  }

  lemma LostInside(b: Box, trace: seq<Action>, i: int)
    requires LostSince(b, trace, i)
    ensures 0 <= i < |trace|
  {
  }

  lemma OverrunNext(b: Box, before: seq<Action>, a: Action)
    ensures BoxAfter(b, before + [a]).overrun
            <==> (BoxAfter(b, before).overrun && !Clears(a)) || (a.Heard? && BoxAfter(b, before).full)
  {
    assert (before + [a])[..|before|] == before;
  }

  lemma LostMore(b: Box, before: seq<Action>, a: Action)
    ensures (exists i :: LostSince(b, before + [a], i))
            <==> ((exists i :: LostSince(b, before, i)) && !Clears(a)) || (a.Heard? && BoxAfter(b, before).full)
  {
    hide LostSince, Clears, BoxAfter;
    var trace := before + [a];
    LostAtLast(b, before, a);
    if i :| LostSince(b, trace, i) {
      LostInside(b, trace, i);
      if i < |before| {
        LostEarlier(b, before, a, i);
      }
    }
    if i :| LostSince(b, before, i) {
      LostInside(b, before, i);
      LostEarlier(b, before, a, i);
    }
  }

  lemma LostAtLast(b: Box, before: seq<Action>, a: Action)
    ensures LostSince(b, before + [a], |before|) <==> a.Heard? && BoxAfter(b, before).full
  {
    hide BoxAfter;
    assert (before + [a])[..|before|] == before && (before + [a])[|before|] == a;
  }

  lemma LostEarlier(b: Box, before: seq<Action>, a: Action, i: nat)
    requires i < |before|
    ensures LostSince(b, before + [a], i) <==> LostSince(b, before, i) && !Clears(a)
  {
    hide BoxAfter, Clears;
    var trace := before + [a];
    assert trace[..i] == before[..i] && trace[i] == before[i] && trace[|before|] == a;
    if LostSince(b, before, i) && !Clears(a) {
      forall j | i < j < |trace| ensures !Clears(trace[j]) {
        assert j < |before| ==> trace[j] == before[j];
      }
    }
    if LostSince(b, trace, i) {
      forall j | i < j < |before| ensures !Clears(before[j]) {
        assert trace[j] == before[j];
      }
    }
  }

  /** While the box is full its byte stays. */
  lemma {:induction false} LatchStable(b: Box, trace: seq<Action>)
    requires b.full && forall a :: a in trace ==> !a.Took? && !a.ResetDone?
    ensures BoxAfter(b, trace).full && BoxAfter(b, trace).byte == b.byte
  {
    if trace != [] {
      assert trace[|trace| - 1] in trace;
      LatchStable(b, trace[..|trace| - 1]);
    }
  }

  // ---- The receive alarm after RTS is dropped --------------------------------------------------------------

  function Firings(run: seq<Moment>): nat {
    if run == [] then 0 else Firings(run[..|run| - 1]) + if run[|run| - 1].event.ReceiveFires? then 1 else 0
  }

  /** A command that raises RTS or opens the line switches the receiver on, be it for a moment. */
  predicate EnablesOnce(g: Board, s: Chip, addr: Word, byte: Byte) {
    Register(g, addr) == 2 && (TransmitControl(byte) != 0 || (Dtr(byte) && !s.lines.open))
  }

  predicate Enables(g: Board, s: Chip, e: Event, clk: int) {
    e.Store?
    && (if e.rmw then
          EnablesOnce(g, s, e.addr, s.regs.lastRead)
          || EnablesOnce(g, StoredOnce(g, s, e.addr, s.regs.lastRead, clk - 1, e.lineUp), e.addr, e.byte)
        else EnablesOnce(g, s, e.addr, e.byte))
  }

  /** No event of the run switches the receiver on. */
  predicate NeverEnabled(g: Board, s: Chip, run: seq<Moment>) {
    run == []
    || (var before, m := run[..|run| - 1], run[|run| - 1];
        NeverEnabled(g, s, before) && !Enables(g, RunOf(g, s, before), m.event, m.clk))
  }

  function Pending(s: Chip): nat {
    if s.rx.due.Some? then 1 else 0
  }

  lemma ClearedCommand(cmd: Byte)
    ensures !Dtr(cmd / 0x20 * 0x20) && TransmitControl(cmd / 0x20 * 0x20) == 0
  {
  }

  lemma StoreLeavesOff(g: Board, s: Chip, addr: Word, byte: Byte, clk: int, lineUp: bool)
    requires !s.rx.active && !EnablesOnce(g, s, addr, byte)
    ensures StoredOnce(g, s, addr, byte, clk, lineUp).rx == s.rx
  {
    hide PaceOf, Register, Dtr, TransmitControl;
    ClearedCommand(s.regs.cmd);
  }

  lemma NextLeavesOff(g: Board, s: Chip, e: Event, clk: int)
    requires !s.rx.active && !Enables(g, s, e, clk) && Possible(s, e, clk) && Sound(g, s)
    ensures var t := Next(g, s, e, clk);
            !t.rx.active && Pending(t) + (if e.ReceiveFires? then 1 else 0) <= Pending(s)
  {
    hide Sound, StoredOnce, Register, EnablesOnce, PaceOf, ReceiveIrq, TransmitIrq, Status.ToByte;
    ActiveIsDue(g, s);
    if e.Store? {
      if e.rmw {
        StoreLeavesOff(g, s, e.addr, s.regs.lastRead, clk - 1, e.lineUp);
        StoreLeavesOff(g, StoredOnce(g, s, e.addr, s.regs.lastRead, clk - 1, e.lineUp), e.addr, e.byte, clk, e.lineUp);
      } else {
        StoreLeavesOff(g, s, e.addr, e.byte, clk, e.lineUp);
      }
    }
  }

  /** A receive alarm left pending when RTS was dropped fires at most once more unless the receiver
      is switched on again. */
  lemma {:induction false} StrayFiresOnce(g: Board, s: Chip, start: int, run: seq<Moment>)
    requires Sound(g, s) && !s.rx.active && Proper(g, s, start, run) && NeverEnabled(g, s, run)
    ensures !RunOf(g, s, run).rx.active && Firings(run) + Pending(RunOf(g, s, run)) <= Pending(s)
  {
    hide Sound, Next, Enables, Possible;
    if run != [] {
      var before, m := run[..|run| - 1], run[|run| - 1];
      StrayFiresOnce(g, s, start, before);
      RunSound(g, s, before);
      NextLeavesOff(g, RunOf(g, s, before), m.event, m.clk);
    }
  }
}
