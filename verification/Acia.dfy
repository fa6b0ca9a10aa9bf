/** The 6551 ACIA as functions on its registers: what each register access, each firing alarm and
    reset does, and what of it can be seen from outside.  The chip that updates its fields in place
    is in AciaChip. */
module Acia {
  import opened Words
  import opened Wrappers

  datatype Mode = Normal | SwiftLink | Turbo232

  // ---- Speed ----------------------------------------------------------------------------------------

  function BpsTable(n: Byte): real {
    match n
    case 1 => 50.0 case 2 => 75.0 case 3 => 109.92 case 4 => 134.58 case 5 => 150.0 case 6 => 300.0
    case 7 => 600.0 case 8 => 1200.0 case 9 => 1800.0 case 10 => 2400.0 case 11 => 3600.0 case 12 => 4800.0
    case 13 => 7200.0 case 14 => 9600.0 case 15 => 19200.0 case _ => 10.0
  }

  function TurboTable(n: Byte): real {
    match n case 0 => 230400.0 case 1 => 115200.0 case 2 => 57600.0 case _ => 28800.0
  }

  /** get_acia_bps. */
  function Bps(mode: Mode, ctrl: Byte, ectrl: Byte): (r: real)
    ensures 10.0 <= r <= 230400.0
  {
    match mode
    case Normal => BpsTable(ctrl % 16)
    case SwiftLink => BpsTable(ctrl % 16) * 2.0
    case Turbo232 => if ctrl % 16 == 0 then TurboTable(ectrl % 4) else BpsTable(ctrl % 16) * 2.0
  }

  function DataBits(ctrl: Byte): nat {
    8 - ctrl / 0x20 % 4
  }

  /** Start, data, parity and stop bits. */
  function FrameBits(ctrl: Byte, cmd: Byte): (r: nat)
    ensures 7 <= r <= 12
  {
    DataBits(ctrl) + 1 + cmd / 0x20 % 2 + (if ctrl >= 0x80 then 2 else 1)
  }

  /** Cycles per character, as the cast to int truncates it. */
  function Ticks(cps: real, mode: Mode, ctrl: Byte, ectrl: Byte, cmd: Byte): int {
    (cps / Bps(mode, ctrl, ectrl) * FrameBits(ctrl, cmd) as real).Floor
  }

  lemma TicksPositive(cps: real, bps: real, bits: real)
    requires cps > 0.0 && bps > 0.0 && bits > 0.0
    ensures cps / bps * bits > 0.0
    ensures (cps / bps * bits).Floor >= 1 <==> cps * bits >= bps
  {
    var q := cps / bps;
    assert q * bps == cps;
    assert q * bits * bps == cps * bits;
    if q * bits >= 1.0 {
      assert q * bits * bps >= 1.0 * bps;
    } else {
      assert q * bits * bps < 1.0 * bps;
    }
  }

  /** A character takes a cycle or more exactly if the machine is not slower than the line.  A clock
      of 32915 Hz is fast enough for every setting of the registers. */
  lemma TicksAtLeastOne(cps: real, mode: Mode, ctrl: Byte, ectrl: Byte, cmd: Byte)
    requires cps > 0.0
    ensures Ticks(cps, mode, ctrl, ectrl, cmd) >= 0
    ensures Ticks(cps, mode, ctrl, ectrl, cmd) >= 1 <==> cps * FrameBits(ctrl, cmd) as real >= Bps(mode, ctrl, ectrl)
    ensures cps >= 32915.0 ==> Ticks(cps, mode, ctrl, ectrl, cmd) >= 1
  {
    hide Bps, FrameBits;
    var bits, bps := FrameBits(ctrl, cmd) as real, Bps(mode, ctrl, ectrl);
    TicksPositive(cps, bps, bits);
    if cps >= 32915.0 {
      assert cps * bits >= 32915.0 * bits >= 32915.0 * 7.0;
    }
  }

  /** The longest character of a machine: the one a chip starts with, or twelve bits at 10 bps. */
  function Longest(cps: real): int {
    var slow := (cps * 1.2).Floor;
    if slow > 21111 then slow else 21111
  }

  lemma TicksAtMost(cps: real, mode: Mode, ctrl: Byte, ectrl: Byte, cmd: Byte)
    requires cps > 0.0
    ensures 0 <= Ticks(cps, mode, ctrl, ectrl, cmd) <= Longest(cps)
  {
    hide Bps, FrameBits;
    Slowest(cps, Bps(mode, ctrl, ectrl), FrameBits(ctrl, cmd) as real);
  }

  lemma Slowest(cps: real, bps: real, bits: real)
    requires cps > 0.0 && bps >= 10.0 && 0.0 <= bits <= 12.0
    ensures 0 <= (cps / bps * bits).Floor <= (cps * 1.2).Floor
  {
    var q := Quotient(cps, bps);
    Product(q, bps - 10.0);
    Product(q, 12.0 - bits);
    Product(q, bits);
    assert q * (bps - 10.0) == q * bps - q * 10.0 && q * (12.0 - bits) == q * 12.0 - q * bits;
  }

  lemma Quotient(x: real, y: real) returns (q: real)
    requires x > 0.0 && y > 0.0
    ensures q == x / y && q * y == x && q > 0.0
  {
    q := x / y;
  }

  lemma Product(x: real, y: real)
    requires x >= 0.0 && y >= 0.0
    ensures x * y >= 0.0
  {
  }

  // ---- The chip ------------------------------------------------------------------------------------

  datatype Status = Status(parity: bool, framing: bool, overrun: bool, rdrf: bool, tdre: bool, dcd: bool, dsr: bool) {
    function ToByte(irq: bool): Byte {
      Pack(Bits(irq, dsr, dcd, tdre, rdrf, overrun, framing, parity))
    }
  }

  predicate Dtr(cmd: Byte) {
    cmd % 2 == 1
  }

  predicate ReceiveIrq(cmd: Byte) {
    cmd / 2 % 2 == 0
  }

  /** 0: no RTS, 1: with interrupt, 2: without interrupt, 3: break. */
  function TransmitControl(cmd: Byte): Byte {
    cmd / 4 % 4
  }

  /** One more than the data mask. */
  function Mask(ctrl: Byte): (r: nat)
    ensures r > 0
  {
    match DataBits(ctrl) case 8 => 0x100 case 7 => 0x80 case 6 => 0x40 case _ => 0x20
  }

  /** The machine a chip is built into; `ip232` is whether its line is a socket that stays open. */
  datatype Board = Board(cps: real, mode: Mode, ip232: bool)

  /** The transmitter: idle, a character on its way, or a byte waiting as well; `due` is what the
      alarm context holds for its alarm. */
  datatype Transmitter = Transmitter(state: nat, data: Byte, active: bool, due: Option<int>)

  datatype Receiver = Receiver(data: Byte, active: bool, due: Option<int>)

  /** `open` is whether there is a file descriptor; `irq` is the interrupt latch and `line` the
      interrupt line of a chip that is wired to one. */
  datatype Lines = Lines(open: bool, irq: bool, line: bool, rts: bool, dtr: bool)

  datatype Registers = Registers(cmd: Byte, ctrl: Byte, ectrl: Byte, lastRead: Byte)

  /** Cycles per character, and one more than the data mask. */
  datatype Pace = Pace(ticks: int, mask: nat)

  datatype Chip = Chip(tx: Transmitter, rx: Receiver, lines: Lines, regs: Registers, status: Status, pace: Pace)

  /** After acia_preinit; the data mask lets nothing through before the first reset. */
  const FRESH := Chip(Transmitter(0, 0, false, None), Receiver(0, false, None), Lines(false, false, false, false, false),
                      Registers(0, 0, 0, 0), Status(false, false, false, false, false, false, false), Pace(21111, 1))

  function PaceOf(g: Board, r: Registers): Pace {
    Pace(Ticks(g.cps, g.mode, r.ctrl, r.ectrl, r.cmd), Mask(r.ctrl))
  }

  /** set_acia_ticks. */
  function Retimed(g: Board, s: Chip, clk: int): Chip {
    var p := PaceOf(g, s.regs);
    s.(pace := p, rx := if s.rx.active then s.rx.(due := Some(clk + p.ticks)) else s.rx)
  }

  function Interrupted(l: Lines, on: bool): Lines {
    l.(irq := on, line := on)
  }

  function SetOff(t: Transmitter, due: int): Transmitter {
    t.(due := Some(due), active := true)
  }

  function Stopped(t: Transmitter): Transmitter {
    t.(due := None, active := false)
  }

  function ReceiverOn(g: Board, s: Chip, clk: int): Chip {
    Retimed(g, s.(rx := s.rx.(active := true)), clk)
  }

  /** acia_set_handshake_lines.  Without RTS a running receiver ends with its current character, and
      the transmitter ends with it at once. */
  function Shaken(g: Board, s: Chip, clk: int): Chip {
    var cmd := s.regs.cmd;
    var t := if TransmitControl(cmd) == 0 then
               if s.rx.active then s.(rx := s.rx.(active := false), tx := Stopped(s.tx)) else s
             else
               var r := if s.rx.active then s else ReceiverOn(g, s, clk);
               if s.tx.active then r else r.(tx := SetOff(s.tx, clk + r.pace.ticks));
    t.(lines := s.lines.(rts := TransmitControl(cmd) != 0, dtr := Dtr(cmd)))
  }

  // ---- Register accesses ---------------------------------------------------------------------------

  function DataStored(s: Chip, byte: Byte, clk: int): Chip {
    var t := s.tx.(data := byte);
    if !Dtr(s.regs.cmd) then s.(tx := t)
    else
      var u := t.(state := 2);
      s.(tx := if t.active then u else SetOff(u, clk + 1), status := s.status.(tdre := false))
  }

  /** A store to the status register is a programmed reset. */
  function StatusStored(g: Board, s: Chip, clk: int): Chip {
    Shaken(g, s.(lines := Interrupted(s.lines.(open := s.lines.open && g.ip232), false),
                 status := s.status.(overrun := false), regs := s.regs.(cmd := s.regs.cmd / 0x20 * 0x20),
                 tx := Stopped(s.tx.(state := 0))), clk)
  }

  function LineOpened(g: Board, s: Chip, clk: int): Chip {
    var t := ReceiverOn(g, s, clk);
    if TransmitControl(s.regs.cmd) == 1 then t.(tx := SetOff(s.tx.(state := 0), clk + t.pace.ticks)) else t
  }

  /** `lineUp` is whether the line can be opened if it has to be. */
  function CommandStored(g: Board, s: Chip, byte: Byte, clk: int, lineUp: bool): Chip {
    var t := s.(regs := s.regs.(cmd := byte));
    var u := if Dtr(byte) && !s.lines.open then LineOpened(g, t.(lines := s.lines.(open := lineUp)), clk)
             else if s.lines.open && !Dtr(byte) && !g.ip232 then t.(lines := s.lines.(open := false), tx := Stopped(s.tx))
             else t;
    Shaken(g, u, clk)
  }

  function ControlStored(g: Board, s: Chip, byte: Byte, clk: int): Chip {
    Retimed(g, s.(regs := s.regs.(ctrl := byte)), clk)
  }

  /** The enhanced control register is only there while the control register says so. */
  function ExtendedStored(g: Board, s: Chip, byte: Byte, clk: int): Chip {
    if s.regs.ctrl % 16 == 0 then Retimed(g, s.(regs := s.regs.(ectrl := byte)), clk) else s
  }

  function Register(g: Board, addr: Word): Byte {
    if g.mode.Turbo232? then addr % 8 else addr % 4
  }

  function StoredOnce(g: Board, s: Chip, addr: Word, byte: Byte, clk: int, lineUp: bool): Chip {
    match Register(g, addr)
    case 0 => DataStored(s, byte, clk)
    case 1 => StatusStored(g, s, clk)
    case 2 => CommandStored(g, s, byte, clk, lineUp)
    case 3 => ControlStored(g, s, byte, clk)
    case 7 => ExtendedStored(g, s, byte, clk)
    case _ => s
  }

  /** A read-modify-write instruction stores what was read last a cycle earlier. */
  function Stored(g: Board, s: Chip, addr: Word, byte: Byte, clk: int, rmw: bool, lineUp: bool): Chip {
    StoredOnce(g, if rmw then StoredOnce(g, s, addr, s.regs.lastRead, clk - 1, lineUp) else s, addr, byte, clk, lineUp)
  }

  function DataRead(s: Chip): Chip {
    s.(status := s.status.(overrun := false, parity := false, framing := false, rdrf := false),
       regs := s.regs.(lastRead := s.rx.data))
  }

  function StatusRead(s: Chip, dcd: bool, dsr: bool): Chip {
    var st := s.status.(dcd := dcd, dsr := dsr);
    s.(status := st, lines := Interrupted(s.lines, false), regs := s.regs.(lastRead := st.ToByte(s.lines.irq)))
  }

  /** A register that is read, and the value of the read. */
  function WasRead(g: Board, s: Chip, addr: Word, dcd: bool, dsr: bool): Chip {
    match Register(g, addr)
    case 0 => DataRead(s)
    case 1 => StatusRead(s, dcd, dsr)
    case 2 => s.(regs := s.regs.(lastRead := s.regs.cmd))
    case 3 => s.(regs := s.regs.(lastRead := s.regs.ctrl))
    case _ => s
  }

  function ReadValue(g: Board, s: Chip, addr: Word, dcd: bool, dsr: bool): Byte {
    match Register(g, addr)
    case 0 => WasRead(g, s, addr, dcd, dsr).regs.lastRead
    case 1 => WasRead(g, s, addr, dcd, dsr).regs.lastRead
    case 2 => s.regs.cmd
    case 3 => s.regs.ctrl
    case 7 => Low(s.regs.ectrl + if s.regs.ctrl % 16 == 0 then 4 else 0)
    case _ => 0xff
  }

  // ---- Alarms and reset ----------------------------------------------------------------------------

  predicate Sends(s: Chip) {
    s.tx.state == 2 && s.lines.open
  }

  predicate TransmitIrq(s: Chip) {
    TransmitControl(s.regs.cmd) == 1
  }

  /** int_acia_tx. */
  function Transmitted(s: Chip, clk: int): Chip {
    var t := if s.tx.state != 0 then s.tx.(state := s.tx.state - 1) else s.tx;
    s.(status := if Sends(s) then s.status.(tdre := true) else s.status,
       lines := if TransmitIrq(s) then Interrupted(s.lines, true) else s.lines,
       tx := if t.state != 0 || TransmitIrq(s) then SetOff(t, clk + s.pace.ticks) else Stopped(t))
  }

  /** A byte is fetched from the line; if the data register is full it is lost. */
  function Fetched(s: Chip, byte: Byte): Chip
    requires s.pace.mask > 0
  {
    s.(status := s.status.(rdrf := true, overrun := s.status.overrun || s.status.rdrf),
       rx := if s.status.rdrf then s.rx else s.rx.(data := byte % s.pace.mask),
       lines := if ReceiveIrq(s.regs.cmd) then Interrupted(s.lines, true) else s.lines)
  }

  /** int_acia_rx. */
  function Received(s: Chip, clk: int, input: Option<Byte>): Chip
    requires s.pace.mask > 0
  {
    var t := if s.lines.open && input.Some? then Fetched(s, input.value) else s;
    t.(rx := t.rx.(due := if s.rx.active then Some(clk + s.pace.ticks) else None))
  }

  /** myacia_reset. */
  function WasReset(g: Board, s: Chip): Chip {
    Chip(Transmitter(0, s.tx.data, false, None), Receiver(s.rx.data, false, None), Lines(false, false, false, false, false),
         Registers(0, 0, 0, s.regs.lastRead), Status(false, false, false, false, true, true, s.status.dsr),
         PaceOf(g, Registers(0, 0, 0, 0)))
  }

  // ---- Runs ----------------------------------------------------------------------------------------

  datatype Event =
    | Store(addr: Word, byte: Byte, rmw: bool, lineUp: bool)
    | Read(addr: Word, dcd: bool, dsr: bool)
    | TransmitFires
    | ReceiveFires(input: Option<Byte>)
    | HardReset

  function Next(g: Board, s: Chip, e: Event, clk: int): Chip {
    match e
    case Store(addr, byte, rmw, lineUp) => Stored(g, s, addr, byte, clk, rmw, lineUp)
    case Read(addr, dcd, dsr) => WasRead(g, s, addr, dcd, dsr)
    case TransmitFires => Transmitted(s, clk)
    case ReceiveFires(input) => if s.pace.mask > 0 then Received(s, clk, input) else s
    case HardReset => WasReset(g, s)
  }

  /** An alarm fires when it is pending and its time has come. */
  predicate Possible(s: Chip, e: Event, clk: int) {
    && (e.TransmitFires? ==> s.tx.due.Some? && s.tx.due.value <= clk)
    && (e.ReceiveFires? ==> s.rx.due.Some? && s.rx.due.value <= clk)
  }

  datatype Moment = Moment(clk: int, event: Event)

  function RunOf(g: Board, s: Chip, run: seq<Moment>): Chip {
    if run == [] then s
    else
      var m := run[|run| - 1];
      Next(g, RunOf(g, s, run[..|run| - 1]), m.event, m.clk)
  }

  /** The clock does not go back, and alarms fire when they can. */
  predicate Proper(g: Board, s: Chip, start: int, run: seq<Moment>) {
    run == []
    || (var before, m := run[..|run| - 1], run[|run| - 1];
        Proper(g, s, start, before) && Latest(start, before) <= m.clk && Possible(RunOf(g, s, before), m.event, m.clk))
  }

  function Latest(start: int, run: seq<Moment>): int {
    if run == [] then start else run[|run| - 1].clk
  }

  // ---- What can be seen from outside -----------------------------------------------------------------

  /** A store to the data register, a byte on the line (with the data register it came from, the time
      and the length of a character then), a byte fetched from the line and the data mask then, a read
      of the data register, a store to the status register, a store to the command register, a reset. */
  datatype Action =
    | Wrote(data: Byte)
    | Put(byte: Byte, data: Byte, clk: int, ticks: int)
    | Heard(byte: Byte, mask: nat)
    | Took(byte: Byte)
    | Cleared | Commanded | ResetDone

  function StoreSeen(g: Board, addr: Word, byte: Byte): seq<Action> {
    match Register(g, addr) case 0 => [Wrote(byte)] case 1 => [Cleared] case 2 => [Commanded] case _ => []
  }

  function Seen(g: Board, s: Chip, e: Event, clk: int): seq<Action> {
    match e
    case Store(addr, byte, rmw, _) => (if rmw then StoreSeen(g, addr, s.regs.lastRead) else []) + StoreSeen(g, addr, byte)
    case Read(addr, dcd, dsr) => if Register(g, addr) == 0 then [Took(ReadValue(g, s, addr, dcd, dsr))] else []
    case TransmitFires => if Sends(s) && s.pace.mask > 0 then [Put(s.tx.data % s.pace.mask, s.tx.data, clk, s.pace.ticks)] else []
    case ReceiveFires(input) => if s.lines.open && input.Some? then [Heard(input.value, s.pace.mask)] else []
    case HardReset => [ResetDone]
  }

  /** Everything that is seen of a run, in order. */
  function Trace(g: Board, s: Chip, run: seq<Moment>): seq<Action> {
    if run == [] then []
    else
      var before, m := run[..|run| - 1], run[|run| - 1];
      Trace(g, s, before) + Seen(g, RunOf(g, s, before), m.event, m.clk)
  }
}
