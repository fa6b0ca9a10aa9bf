/** The 6551 as the emulator keeps it: a struct whose fields the register accesses and the two alarm
    callbacks update in place, and two alarms in an alarm context that they set and unset. */
module AciaChip {
  import opened Words
  import opened Wrappers
  import opened AlarmQueue
  import opened Acia
  import opened AciaTraces

  function DueTime(q: map<Alarm, Clock>, a: Alarm): Option<int> {
    if a in q then Some(q[a]) else None
  }

  /** As long as no more alarms exist than can be pending, there is always room for one of them. */
  lemma {:induction false} Room(list: seq<Alarm>, q: map<Alarm, Clock>, a: Alarm)
    requires (forall b :: b in q ==> b in list) && a in list && a !in q
    ensures |q| < |list|
  {
    var rest := set b | b in list && b != a;
    Fewer(q.Keys, rest);
    Listed(list, rest, a);
  }

  lemma {:induction false} Fewer(s: set<Alarm>, t: set<Alarm>)
    requires s <= t
    ensures |s| <= |t|
  {
    if s != {} {
      var a :| a in s;
      Fewer(s - {a}, t - {a});
    }
  }

  lemma {:induction false} Listed(list: seq<Alarm>, s: set<Alarm>, a: Alarm)
    requires a in list && a !in s && forall b :: b in s ==> b in list
    ensures |s| < |list|
  {
    var last := list[|list| - 1];
    var before := list[..|list| - 1];
    assert list == before + [last];
    if a in before {
      Listed(before, s - {last}, a);
    } else {
      Smaller(before, s);
    }
  }

  lemma {:induction false} Smaller(list: seq<Alarm>, s: set<Alarm>)
    requires forall b :: b in s ==> b in list
    ensures |s| <= |list|
  {
    if list != [] {
      var last, before := list[|list| - 1], list[..|list| - 1];
      assert list == before + [last];
      Smaller(before, s - {last});
    } else {
      assert s == {};
    }
  }

  class Mos6551 {
    const board: Board
    const context: AlarmContext
    const txAlarm: Alarm
    const rxAlarm: Alarm
    var open: bool             // a non-negative file descriptor
    var inTx: nat
    var irq: bool
    var line: bool             // the interrupt line, for a chip that is wired to one
    var cmd: Byte
    var ctrl: Byte
    var ectrl: Byte
    var rxdata: Byte
    var txdata: Byte
    var status: Status
    var mask: nat
    var ticks: int
    var activeTx: bool
    var activeRx: bool
    var rts: bool
    var dtr: bool
    var lastRead: Byte

    /** acia_preinit and myacia_init. */
    constructor (board: Board, context: AlarmContext)
      requires context.Valid() && |context.list| + 2 <= MAX_PENDING_ALARMS && board.cps > 0.0
      modifies context, context.pending, context.list
      ensures Wired() && Abs() == FRESH && Sound(board, Abs()) && this.board == board && this.context == context
      ensures context.list == [rxAlarm, txAlarm] + old(context.list) && context.queue == old(context.queue)
      ensures fresh(txAlarm) && fresh(rxAlarm)
    {
      hide AlarmContext.Valid;
      PendingOld(context);
      FreshSound(board);
      this.board, this.context := board, context;
      open, inTx, irq, line := false, 0, false, false;
      cmd, ctrl, ectrl, rxdata, txdata, lastRead := 0, 0, 0, 0, 0, 0;
      status := Status(false, false, false, false, false, false, false);
      mask, ticks := 1, 21111;
      activeTx, activeRx, rts, dtr := false, false, false, false;
      var tx := context.New();
      var rx := context.New();
      txAlarm, rxAlarm := tx, rx;
    }

    static lemma PendingOld(context: AlarmContext)
      requires context.Valid()
      ensures forall a :: a in context.queue ==> a in context.list
    {
      assert forall a :: a in context.queue ==> a in context.Index();
    }

    ghost function Abs(): Chip
      reads this, context
    {
      Chip(Transmitter(inTx, txdata, activeTx, DueTime(context.queue, txAlarm)),
           Receiver(rxdata, activeRx, DueTime(context.queue, rxAlarm)),
           Lines(open, irq, line, rts, dtr), Registers(cmd, ctrl, ectrl, lastRead), status, Pace(ticks, mask))
    }

    /** Both alarms are in the context, which has no more alarms than can be pending. */
    ghost predicate Wired()
      reads this, context, context.pending, context.list
    {
      && context.Valid() && txAlarm in context.list && rxAlarm in context.list && txAlarm != rxAlarm
      && |context.list| <= MAX_PENDING_ALARMS && Timed(board, Pace(ticks, mask))
    }

    /** The alarms of the other chips. */
    ghost function Others(): map<Alarm, Clock>
      reads context
    {
      context.queue - {txAlarm, rxAlarm}
    }

    /** The clock is far enough from its end for another character. */
    predicate InTime(clk: int) {
      0 <= clk && clk + Longest(board.cps) <= CLOCK_MAX
    }

    // ---- The two alarms ----------------------------------------------------------------------------

    lemma HasRoom(alarm: Alarm)
      requires Wired() && alarm in context.list
      ensures alarm in context.queue || |context.queue| < MAX_PENDING_ALARMS
    {
      hide Timed;
      assert forall b :: b in context.queue ==> b in context.Index();
      if alarm !in context.queue {
        Room(context.list, context.queue, alarm);
      }
    }

    method SetTx(clk: int)
      requires Wired() && 0 <= clk <= CLOCK_MAX
      modifies context, context.pending, context.list
      ensures Wired() && context.list == old(context.list) && Others() == old(Others())
      ensures context.queue == old(context.queue)[txAlarm := clk]
      ensures Abs() == old(Abs()).(tx := old(Abs().tx).(due := Some(clk)))
    {
      hide Timed, AlarmContext.Valid;
      HasRoom(txAlarm);
      context.Set(txAlarm, clk);
    }

    method UnsetTx()
      requires Wired()
      modifies context, context.pending, context.list
      ensures Wired() && context.list == old(context.list) && Others() == old(Others())
      ensures context.queue == Without(old(context.queue), txAlarm)
      ensures Abs() == old(Abs()).(tx := old(Abs().tx).(due := None))
    {
      hide Timed, AlarmContext.Valid;
      context.Unset(txAlarm);
    }

    method SetRx(clk: int)
      requires Wired() && 0 <= clk <= CLOCK_MAX
      modifies context, context.pending, context.list
      ensures Wired() && context.list == old(context.list) && Others() == old(Others())
      ensures context.queue == old(context.queue)[rxAlarm := clk]
      ensures Abs() == old(Abs()).(rx := old(Abs().rx).(due := Some(clk)))
    {
      hide Timed, AlarmContext.Valid;
      HasRoom(rxAlarm);
      context.Set(rxAlarm, clk);
    }

    method UnsetRx()
      requires Wired()
      modifies context, context.pending, context.list
      ensures Wired() && context.list == old(context.list) && Others() == old(Others())
      ensures context.queue == Without(old(context.queue), rxAlarm)
      ensures Abs() == old(Abs()).(rx := old(Abs().rx).(due := None))
    {
      hide Timed, AlarmContext.Valid;
      context.Unset(rxAlarm);
    }

    // ---- Speed and handshake -------------------------------------------------------------------------

    method FrameSize() returns (bits: nat, limit: nat)
      ensures bits == FrameBits(ctrl, cmd) && limit == Mask(ctrl)
    {
      bits := 8 - ctrl / 0x20 % 4;
      limit := if bits == 8 then 0x100 else if bits == 7 then 0x80 else if bits == 6 then 0x40 else 0x20;
      bits := bits + 1 + cmd / 0x20 % 2 + if ctrl >= 0x80 then 2 else 1;
    }

    method NewPace()
      requires board.cps > 0.0
      modifies `ticks, `mask
      ensures Pace(ticks, mask) == PaceOf(board, Registers(cmd, ctrl, ectrl, lastRead)) && Timed(board, Pace(ticks, mask))
    {
      hide FrameBits, Mask, Bps, Timed;
      PaceTimed(board, Registers(cmd, ctrl, ectrl, lastRead));
      var bits;
      bits, mask := FrameSize();
      ticks := (board.cps / Bps(board.mode, ctrl, ectrl) * bits as real).Floor;
    }

    /** The length of a character is a length of time on this clock. */
    lemma TicksFit(clk: int)
      requires Timed(board, Pace(ticks, mask)) && InTime(clk)
      ensures 0 <= clk <= clk + ticks <= CLOCK_MAX && clk + 1 <= CLOCK_MAX && board.cps > 0.0
    {
    }

    /** set_acia_ticks. */
    method SetTicks(clk: int)
      requires Wired() && InTime(clk)
      modifies `ticks, `mask, context, context.pending, context.list
      ensures Wired() && context.list == old(context.list) && Others() == old(Others())
      ensures Abs() == Retimed(board, old(Abs()), clk)
    {
      hide Timed, PaceOf, AlarmContext.Valid, InTime;
      TicksFit(clk);
      NewPace();
      TicksFit(clk);
      if activeRx {
        SetRx(clk + ticks);
      }
    }

    method StartReceiver(clk: int)
      requires Wired() && InTime(clk)
      modifies `activeRx, `ticks, `mask, context, context.pending, context.list
      ensures Wired() && context.list == old(context.list) && Others() == old(Others())
      ensures Abs() == ReceiverOn(board, old(Abs()), clk)
    {
      hide Timed, AlarmContext.Valid, InTime, Retimed;
      activeRx := true;
      SetTicks(clk);
    }

    method StartTransmitter(due: int)
      requires Wired() && 0 <= due <= CLOCK_MAX
      modifies `activeTx, context, context.pending, context.list
      ensures Wired() && context.list == old(context.list) && Others() == old(Others())
      ensures Abs() == old(Abs()).(tx := SetOff(old(Abs().tx), due)) && context.queue == old(context.queue)[txAlarm := due]
    {
      hide Timed, AlarmContext.Valid;
      SetTx(due);
      activeTx := true;
    }

    method StopTransmitter()
      requires Wired()
      modifies `activeTx, context, context.pending, context.list
      ensures Wired() && context.list == old(context.list) && Others() == old(Others())
      ensures Abs() == old(Abs()).(tx := Stopped(old(Abs().tx))) && context.queue == Without(old(context.queue), txAlarm)
    {
      hide Timed, AlarmContext.Valid;
      UnsetTx();
      activeTx := false;
    }

    method Silence()
      requires Wired()
      modifies `activeRx, `activeTx, context, context.pending, context.list
      ensures Wired() && context.list == old(context.list) && Others() == old(Others())
      ensures var s := old(Abs()); Abs() == if s.rx.active then s.(rx := s.rx.(active := false), tx := Stopped(s.tx)) else s
    {
      hide Timed, AlarmContext.Valid;
      if activeRx {
        activeRx := false;
        StopTransmitter();
      }
    }

    method Enable(clk: int)
      requires Wired() && InTime(clk)
      modifies `activeRx, `activeTx, `ticks, `mask, context, context.pending, context.list
      ensures Wired() && context.list == old(context.list) && Others() == old(Others())
      ensures var s := old(Abs());
              var r := if s.rx.active then s else ReceiverOn(board, s, clk);
              Abs() == if s.tx.active then r else r.(tx := SetOff(s.tx, clk + r.pace.ticks))
    {
      hide Timed, AlarmContext.Valid, InTime, Retimed;
      ShakenTx(board, Abs().(rx := Abs().rx.(active := true)), clk);
      if !activeRx {
        StartReceiver(clk);
      }
      TicksFit(clk);
      if !activeTx {
        StartTransmitter(clk + ticks);
      }
    }

    /** acia_set_handshake_lines. */
    method SetHandshakeLines(clk: int)
      requires Wired() && InTime(clk)
      modifies `activeRx, `activeTx, `rts, `dtr, `ticks, `mask, context, context.pending, context.list
      ensures Wired() && context.list == old(context.list) && Others() == old(Others())
      ensures Abs() == Shaken(board, old(Abs()), clk)
    {
      hide Timed, AlarmContext.Valid, InTime, PaceOf, TransmitControl, Dtr;
      if TransmitControl(cmd) == 0 {
        rts := false;
        Silence();
      } else {
        rts := true;
        Enable(clk);
      }
      dtr := Dtr(cmd);
    }

    // ---- Stores ----------------------------------------------------------------------------------------

    /** A store to the data register. */
    method StoreData(byte: Byte, clk: int)
      requires Wired() && InTime(clk)
      modifies `txdata, `inTx, `activeTx, `status, context, context.pending, context.list
      ensures Wired() && context.list == old(context.list) && Others() == old(Others())
      ensures Abs() == DataStored(old(Abs()), byte, clk)
    {
      hide Timed, AlarmContext.Valid, InTime, Dtr;
      TicksFit(clk);
      txdata := byte;
      if Dtr(cmd) {
        inTx := 2;
        if !activeTx {
          StartTransmitter(clk + 1);
        }
        status := status.(tdre := false);
      }
    }

    method LowerIrq()
      modifies `line, `irq
      ensures Abs() == old(Abs()).(lines := Interrupted(old(Abs().lines), false))
    {
      line := false;
      irq := false;
    }

    method CloseLine()
      modifies `open
      ensures Abs() == old(Abs()).(lines := old(Abs().lines).(open := false))
    {
      open := false;
    }

    /** What the programmed reset does to the registers. */
    method ClearRegisters()
      modifies `status, `cmd, `inTx
      ensures var s := old(Abs());
              Abs() == s.(status := s.status.(overrun := false), regs := s.regs.(cmd := s.regs.cmd / 0x20 * 0x20),
                          tx := s.tx.(state := 0))
    {
      status := status.(overrun := false);
      cmd := cmd / 0x20 * 0x20;
      inTx := 0;
    }

    /** A store to the status register is a programmed reset. */
    method StoreStatus(clk: int)
      requires Wired() && InTime(clk)
      modifies this, context, context.pending, context.list
      ensures Wired() && context.list == old(context.list) && Others() == old(Others())
      ensures Abs() == StatusStored(board, old(Abs()), clk)
    {
      hide Timed, AlarmContext.Valid, InTime, Shaken;
      if open && !board.ip232 {
        CloseLine();
      }
      ClearRegisters();
      LowerIrq();
      StopTransmitter();
      SetHandshakeLines(clk);
    }

    method OpenLine(clk: int)
      requires Wired() && InTime(clk)
      modifies this, context, context.pending, context.list
      ensures Wired() && context.list == old(context.list) && Others() == old(Others())
      ensures Abs() == LineOpened(board, old(Abs()), clk)
    {
      hide Timed, AlarmContext.Valid, InTime, Retimed, TransmitControl;
      ShakenTx(board, Abs().(rx := Abs().rx.(active := true)), clk);
      RetimedRest(board, Abs().(rx := Abs().rx.(active := true)), clk);
      StartReceiver(clk);
      TicksFit(clk);
      if TransmitControl(cmd) == 1 {
        StartTransmitter(clk + ticks);
        inTx := 0;
      }
    }

    /** A store to the command register; `lineUp` is whether the line can be opened if it has to be. */
    method StoreCommand(byte: Byte, clk: int, lineUp: bool)
      requires Wired() && InTime(clk)
      modifies this, context, context.pending, context.list
      ensures Wired() && context.list == old(context.list) && Others() == old(Others())
      ensures Abs() == CommandStored(board, old(Abs()), byte, clk, lineUp)
    {
      hide Timed, AlarmContext.Valid, InTime, Shaken, LineOpened, Dtr;
      cmd := byte;
      if Dtr(cmd) && !open {
        open := lineUp;
        OpenLine(clk);
      } else if open && !Dtr(cmd) && !board.ip232 {
        StopTransmitter();
        open := false;
      }
      SetHandshakeLines(clk);
    }

    /** A store to the control register. */
    method StoreControl(byte: Byte, clk: int)
      requires Wired() && InTime(clk)
      modifies this, context, context.pending, context.list
      ensures Wired() && context.list == old(context.list) && Others() == old(Others())
      ensures Abs() == ControlStored(board, old(Abs()), byte, clk)
    {
      hide Timed, AlarmContext.Valid, InTime, Retimed;
      ctrl := byte;
      SetTicks(clk);
    }

    /** A store to the enhanced control register. */
    method StoreExtended(byte: Byte, clk: int)
      requires Wired() && InTime(clk)
      modifies this, context, context.pending, context.list
      ensures Wired() && context.list == old(context.list) && Others() == old(Others())
      ensures Abs() == ExtendedStored(board, old(Abs()), byte, clk)
    {
      hide Timed, AlarmContext.Valid, InTime, Retimed;
      if ctrl % 16 == 0 {
        ectrl := byte;
        SetTicks(clk);
      }
    }

    /** One store, and what is seen of it on the bus. */
    method StoreOnce(addr: Word, byte: Byte, clk: int, lineUp: bool) returns (seen: seq<Action>)
      requires Wired() && InTime(clk)
      modifies this, context, context.pending, context.list
      ensures Wired() && context.list == old(context.list) && Others() == old(Others())
      ensures Abs() == StoredOnce(board, old(Abs()), addr, byte, clk, lineUp) && seen == StoreSeen(board, addr, byte)
    {
      hide Timed, AlarmContext.Valid, InTime, Register, DataStored, StatusStored, CommandStored, ControlStored, ExtendedStored;
      seen := [];
      match Register(board, addr) {
        case 0 => StoreData(byte, clk); seen := [Wrote(byte)];
        case 1 => StoreStatus(clk); seen := [Cleared];
        case 2 => StoreCommand(byte, clk, lineUp); seen := [Commanded];
        case 3 => StoreControl(byte, clk);
        case 7 => StoreExtended(byte, clk);
        case _ =>
      }
    }

    /** myacia_store; a read-modify-write instruction stores what it has read a cycle earlier. */
    method Store(addr: Word, byte: Byte, clk: int, rmw: bool, lineUp: bool) returns (seen: seq<Action>)
      requires Wired() && InTime(clk) && (rmw ==> clk > 0)
      modifies this, context, context.pending, context.list
      ensures Wired() && context.list == old(context.list) && Others() == old(Others())
      ensures Abs() == Stored(board, old(Abs()), addr, byte, clk, rmw, lineUp)
      ensures seen == Seen(board, old(Abs()), Acia.Store(addr, byte, rmw, lineUp), clk)
    {
      hide Timed, AlarmContext.Valid, StoredOnce, StoreSeen;
      var first := [];
      if rmw {
        first := StoreOnce(addr, lastRead, clk - 1, lineUp);
      }
      var second := StoreOnce(addr, byte, clk, lineUp);
      seen := first + second;
    }

    // ---- Reads -----------------------------------------------------------------------------------------

    method ReadData()
      modifies `status, `lastRead
      ensures Abs() == DataRead(old(Abs())) && lastRead == rxdata
    {
      status := status.(overrun := false, parity := false, framing := false, rdrf := false);
      lastRead := rxdata;
    }

    /** A read of the status register shows the modem lines and takes the interrupt back. */
    method ReadStatus(dcd: bool, dsr: bool)
      modifies `status, `lastRead, `irq, `line
      ensures Abs() == StatusRead(old(Abs()), dcd, dsr)
    {
      hide Status.ToByte;
      status := status.(dcd := dcd, dsr := dsr);
      var c := status.ToByte(irq);
      line := false;
      irq := false;
      lastRead := c;
    }

    /** myacia_read. */
    method Read(addr: Word, dcd: bool, dsr: bool) returns (r: Byte)
      modifies `status, `lastRead, `irq, `line
      ensures Abs() == WasRead(board, old(Abs()), addr, dcd, dsr) && r == ReadValue(board, old(Abs()), addr, dcd, dsr)
    {
      hide Register, DataRead, StatusRead;
      match Register(board, addr) {
        case 0 => ReadData(); r := lastRead;
        case 1 => ReadStatus(dcd, dsr); r := lastRead;
        case 2 => lastRead := cmd; r := cmd;
        case 3 => lastRead := ctrl; r := ctrl;
        case 7 => r := Low(ectrl + if ctrl % 16 == 0 then 4 else 0);
        case _ => r := 0xff;
      }
    }

    // ---- Alarms and reset --------------------------------------------------------------------------------

    /** The byte goes out if there is one to send and the line is open. */
    method SendByte() returns (sent: Option<Byte>)
      requires mask > 0
      modifies `status
      ensures Abs() == old(Abs()).(status := if Sends(old(Abs())) then old(status).(tdre := true) else old(status))
      ensures sent == if Sends(old(Abs())) then Some(txdata % mask) else None
    {
      sent := None;
      if inTx == 2 && open {
        sent := Some(txdata % mask);
        status := status.(tdre := true);
      }
    }

    method RaiseIrq()
      modifies `line, `irq
      ensures Abs() == old(Abs()).(lines := Interrupted(old(Abs().lines), true))
    {
      line := true;
      irq := true;
    }

    /** The transmitter goes on to its next state and sets its alarm again, or stops. */
    method Reschedule(clk: int)
      requires Wired() && InTime(clk)
      modifies `inTx, `activeTx, context, context.pending, context.list
      ensures Wired() && context.list == old(context.list) && Others() == old(Others())
      ensures var s := old(Abs());
              var t := if s.tx.state != 0 then s.tx.(state := s.tx.state - 1) else s.tx;
              Abs() == s.(tx := if t.state != 0 || TransmitIrq(s) then SetOff(t, clk + s.pace.ticks) else Stopped(t))
      ensures context.queue == if inTx != 0 || TransmitControl(cmd) == 1 then old(context.queue)[txAlarm := clk + ticks]
                               else Without(old(context.queue), txAlarm)
    {
      hide Timed, AlarmContext.Valid, InTime, TransmitControl;
      TicksFit(clk);
      if inTx != 0 {
        inTx := inTx - 1;
      }
      if inTx != 0 || TransmitControl(cmd) == 1 {
        StartTransmitter(clk + ticks);
      } else {
        StopTransmitter();
      }
    }

    /** int_acia_tx. */
    method TransmitAlarm(clk: int) returns (sent: Option<Byte>)
      requires Wired() && InTime(clk)
      modifies this, context, context.pending, context.list
      ensures Wired() && context.list == old(context.list) && Others() == old(Others()) && ticks == old(ticks)
      ensures Abs() == Transmitted(old(Abs()), clk)
      ensures sent == if Sends(old(Abs())) then Some(old(txdata) % old(mask)) else None
      ensures context.queue == if inTx != 0 || TransmitControl(cmd) == 1 then old(context.queue)[txAlarm := clk + ticks]
                               else Without(old(context.queue), txAlarm)
    {
      hide Timed, AlarmContext.Valid, InTime, TransmitControl, Others;
      Positive(board, Pace(ticks, mask));
      sent := SendByte();
      if TransmitControl(cmd) == 1 {
        RaiseIrq();
      }
      Reschedule(clk);
    }

    method Latch(byte: Byte)
      requires mask > 0
      modifies `rxdata, `status
      ensures var s := old(Abs());
              Abs() == if s.status.rdrf then s.(status := s.status.(overrun := true)) else s.(rx := s.rx.(data := byte % mask))
    {
      if !status.rdrf {
        rxdata := byte % mask;
      } else {
        status := status.(overrun := true);
      }
    }

    /** A byte has come from the line; a full data register keeps what it has. */
    method Fetch(byte: Byte)
      requires mask > 0
      modifies `rxdata, `status, `irq, `line
      ensures Abs() == Fetched(old(Abs()), byte)
    {
      hide ReceiveIrq;
      Latch(byte);
      if ReceiveIrq(cmd) {
        RaiseIrq();
      }
      status := status.(rdrf := true);
    }

    /** int_acia_rx; `input` is what the line has, if it is asked. */
    method ReceiveAlarm(clk: int, input: Option<Byte>) returns (got: Option<Byte>)
      requires Wired() && InTime(clk)
      modifies this, context, context.pending, context.list
      ensures Wired() && context.list == old(context.list) && Others() == old(Others()) && ticks == old(ticks)
      ensures old(mask) > 0 && Abs() == Received(old(Abs()), clk, input) && got == if old(open) then input else None
      ensures context.queue == if activeRx then old(context.queue)[rxAlarm := clk + ticks] else Without(old(context.queue), rxAlarm)
    {
      hide Timed, AlarmContext.Valid, InTime, Fetched, Others;
      TicksFit(clk);
      Positive(board, Pace(ticks, mask));
      FetchKeeps(Abs(), if input.Some? then input.value else 0);
      got := None;
      if open {
        got := input;
        if input.Some? {
          Fetch(input.value);
        }
      }
      if activeRx {
        SetRx(clk + ticks);
      } else {
        UnsetRx();
      }
    }

    /** myacia_reset. */
    method Reset(clk: int)
      requires Wired() && InTime(clk)
      modifies this, context, context.pending, context.list
      ensures Wired() && context.list == old(context.list) && Others() == old(Others())
      ensures Abs() == WasReset(board, old(Abs()))
    {
      hide Timed, AlarmContext.Valid, InTime, PaceOf;
      ResetRegisters(clk);
      UnsetTx();
      UnsetRx();
      ResetFields();
      DropLines();
    }

    method ResetRegisters(clk: int)
      requires Wired() && InTime(clk)
      modifies this, context, context.pending, context.list
      ensures Wired() && context.list == old(context.list) && Others() == old(Others())
      ensures var s, t := old(Abs()), Abs();
              t == s.(regs := Registers(0, 0, 0, s.regs.lastRead), pace := PaceOf(board, Registers(0, 0, 0, 0)), rx := t.rx)
              && t.rx.data == s.rx.data
    {
      hide Timed, AlarmContext.Valid, InTime, PaceOf, Retimed;
      cmd, ctrl, ectrl := 0, 0, 0;
      ZeroPace(board, lastRead);
      RetimedRest(board, Abs(), clk);
      SetTicks(clk);
    }

    method DropLines()
      modifies `rts, `dtr, `open, `line, `irq
      ensures Abs() == old(Abs()).(lines := Lines(false, false, false, false, false))
    {
      rts, dtr := false, false;
      open := false;
      line := false;
      irq := false;
    }

    method ResetFields()
      modifies `status, `inTx, `activeTx, `activeRx
      ensures var s := old(Abs());
              Abs() == s.(tx := s.tx.(state := 0, active := false), rx := s.rx.(active := false),
                          status := Status(false, false, false, false, true, true, s.status.dsr))
    {
      status := Status(false, false, false, false, true, true, status.dsr);
      inTx := 0;
      activeTx := false;
      activeRx := false;
    }
  }

  lemma ZeroPace(g: Board, lastRead: Byte)
    ensures PaceOf(g, Registers(0, 0, 0, lastRead)) == PaceOf(g, Registers(0, 0, 0, 0))
  {
  }

  /** What set_acia_ticks and a fetch leave alone. */
  lemma RetimedRest(g: Board, s: Chip, clk: int)
    ensures var t := Retimed(g, s, clk); t == s.(pace := PaceOf(g, s.regs), rx := t.rx) && t.rx.data == s.rx.data && t.rx.active == s.rx.active
  {
  }

  lemma FetchKeeps(s: Chip, byte: Byte)
    requires s.pace.mask > 0
    ensures var t := Fetched(s, byte); t == s.(status := t.status, rx := t.rx, lines := t.lines) && t.rx.active == s.rx.active && t.rx.due == s.rx.due
  {
  }
}
