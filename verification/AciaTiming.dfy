/** When the character time of the ACIA is the one its registers ask for, and when its transmit
    alarm is set for a later clock; for both the exact conditions under which they are not. */
module AciaTiming {
  import opened Words
  import opened Wrappers
  import opened Acia
  import opened AciaTraces

  // ---- The character time ----------------------------------------------------------------------------

  /** The pace is the one that the registers ask for. */
  predicate UpToDate(g: Board, s: Chip) {
    s.pace == PaceOf(g, s.regs)
  }

  /** The command leaves the length of a character alone, opens the line, or switches the receiver on. */
  predicate Refreshes(g: Board, s: Chip, byte: Byte) {
    Ticks(g.cps, g.mode, s.regs.ctrl, s.regs.ectrl, byte) == Ticks(g.cps, g.mode, s.regs.ctrl, s.regs.ectrl, s.regs.cmd)
    || (Dtr(byte) && !s.lines.open) || (TransmitControl(byte) != 0 && !s.rx.active)
  }

  lemma ShakenPace(g: Board, s: Chip, clk: int)
    ensures var t := Shaken(g, s, clk);
            t.regs == s.regs && t.pace == if TransmitControl(s.regs.cmd) != 0 && !s.rx.active then PaceOf(g, s.regs) else s.pace
  {
    hide PaceOf, TransmitControl, Dtr;
  }

  /** Exactly those command stores keep the character time right. */
  lemma CommandPace(g: Board, s: Chip, byte: Byte, clk: int, lineUp: bool)
    requires UpToDate(g, s)
    ensures UpToDate(g, CommandStored(g, s, byte, clk, lineUp)) <==> Refreshes(g, s, byte)
  {
    hide Ticks, Mask, TransmitControl, Dtr, Shaken;
    var t := s.(regs := s.regs.(cmd := byte));
    ShakenPace(g, LineOpened(g, t.(lines := s.lines.(open := lineUp)), clk), clk);
    ShakenPace(g, t.(lines := s.lines.(open := false), tx := Stopped(s.tx)), clk);
    ShakenPace(g, t, clk);
  }

  /** Parity that is switched on while the receiver runs: eleven bits are timed as ten. */
  lemma StaleParity()
    ensures var g, regs := Board(960000.0, Normal, false), Registers(0x09, 0x1e, 0, 0);
            var s := FRESH.(regs := regs, rx := Receiver(0, true, Some(1000)), lines := Lines(true, false, false, true, true),
                            pace := PaceOf(g, regs));
            var t := CommandStored(g, s, 0x29, 0, true);
            UpToDate(g, s) && t.pace.ticks == 1000 && PaceOf(g, t.regs).ticks == 1100
  {
  }

  /** A programmed reset keeps the parity bit. */
  lemma ClearedTicks(g: Board, r: Registers)
    ensures PaceOf(g, r.(cmd := r.cmd / 0x20 * 0x20)) == PaceOf(g, r)
  {
    hide Bps, Mask;
    assert r.cmd / 0x20 * 0x20 / 0x20 == r.cmd / 0x20;
  }

  lemma StatusPace(g: Board, s: Chip, clk: int)
    requires UpToDate(g, s)
    ensures UpToDate(g, StatusStored(g, s, clk))
  {
    hide PaceOf, Shaken;
    ClearedTicks(g, s.regs);
    ShakenPace(g, s.(lines := Interrupted(s.lines.(open := s.lines.open && g.ip232), false),
                     status := s.status.(overrun := false), regs := s.regs.(cmd := s.regs.cmd / 0x20 * 0x20),
                     tx := Stopped(s.tx.(state := 0))), clk);
  }

  /** Every store but a command store that does not refresh it. */
  lemma StorePace(g: Board, s: Chip, addr: Word, byte: Byte, clk: int, lineUp: bool)
    requires UpToDate(g, s)
    ensures UpToDate(g, StoredOnce(g, s, addr, byte, clk, lineUp)) <==> (Register(g, addr) == 2 ==> Refreshes(g, s, byte))
  {
    hide PaceOf, Register, StatusStored, CommandStored, Refreshes, Dtr;
    StatusPace(g, s, clk);
    CommandPace(g, s, byte, clk, lineUp);
  }

  /** Every command byte that the event stores refreshes the character time. */
  predicate Fresh(g: Board, s: Chip, e: Event, clk: int) {
    e.Store? && Register(g, e.addr) == 2 ==>
      if e.rmw then Refreshes(g, s, s.regs.lastRead) && Refreshes(g, StoredOnce(g, s, e.addr, s.regs.lastRead, clk - 1, e.lineUp), e.byte)
      else Refreshes(g, s, e.byte)
  }

  lemma NextPace(g: Board, s: Chip, e: Event, clk: int)
    requires UpToDate(g, s) && Fresh(g, s, e, clk)
    ensures UpToDate(g, Next(g, s, e, clk))
  {
    hide Ticks, Mask, StoredOnce, Register, Refreshes, ReceiveIrq, TransmitIrq, Status.ToByte;
    if e.Store? {
      if e.rmw {
        StorePace(g, s, e.addr, s.regs.lastRead, clk - 1, e.lineUp);
        StorePace(g, StoredOnce(g, s, e.addr, s.regs.lastRead, clk - 1, e.lineUp), e.addr, e.byte, clk, e.lineUp);
      } else {
        StorePace(g, s, e.addr, e.byte, clk, e.lineUp);
      }
    }
  }

  predicate AlwaysFresh(g: Board, s: Chip, run: seq<Moment>) {
    run == []
    || (var before, m := run[..|run| - 1], run[|run| - 1];
        AlwaysFresh(g, s, before) && Fresh(g, RunOf(g, s, before), m.event, m.clk))
  }

  /** In a run without such a command store the character time is always that of the registers. */
  lemma {:induction false} PaceOfRun(g: Board, s: Chip, run: seq<Moment>)
    requires UpToDate(g, s) && AlwaysFresh(g, s, run)
    ensures UpToDate(g, RunOf(g, s, run))
  {
    hide UpToDate, Fresh, Next;
    if run != [] {
      var before, m := run[..|run| - 1], run[|run| - 1];
      PaceOfRun(g, s, before);
      NextPace(g, RunOf(g, s, before), m.event, m.clk);
    }
  }

  // ---- The transmit alarm ------------------------------------------------------------------------------

  /** The transmit alarm, if it is pending, is set for a later clock. */
  predicate Later(t: Transmitter, clk: int) {
    t.due.Some? ==> t.due.value > clk
  }

  /** A store to the data register leaves it so, unless a read-modify-write instruction starts an idle
      transmitter: its first store, a cycle early, sets the alarm for the clock of the second. */
  lemma DataStoreDue(g: Board, s: Chip, addr: Word, byte: Byte, clk: int, rmw: bool, lineUp: bool)
    requires Sound(g, s) && Register(g, addr) == 0 && Later(s.tx, clk)
    ensures Later(Stored(g, s, addr, byte, clk, rmw, lineUp).tx, clk) <==> !(rmw && Dtr(s.regs.cmd) && !s.tx.active)
  {
    hide Register, Dtr, Timed;
    ActiveIsDue(g, s);
  }

  lemma RmwDueAtOnce()
    ensures var g, s := Board(1000000.0, Normal, false), FRESH.(regs := Registers(1, 0, 0, 0));
            Sound(g, s) && Stored(g, s, 0, 0x41, 10, true, true).tx.due == Some(10)
            && Stored(g, s, 0, 0x41, 10, false, true).tx.due == Some(11)
  {
  }
}
