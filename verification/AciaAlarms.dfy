/** The ACIA as a client of the alarm scheduler: its two callbacks meet the drain contract, and whole
    runs of register accesses and drains keep every promise of AciaTraces. */
module AciaAlarms {
  import opened Words
  import opened Wrappers
  import opened AlarmQueue
  import opened AlarmDrain
  import opened Acia
  import opened AciaTraces
  import opened AciaChip

  // ---- The callbacks ---------------------------------------------------------------------------------

  /** What a callback does to the queue: its alarm is set again or unset. */
  function Setting(a: Alarm, due: Option<int>): seq<Command>
    requires due.Some? ==> 0 <= due.value <= CLOCK_MAX
  {
    match due case Some(clk) => [SetAt(a, clk)] case None => [Clear(a)]
  }

  lemma SettingObeyed(q: Queue, a: Alarm, due: Option<int>)
    requires a in q && (due.Some? ==> 0 <= due.value <= CLOCK_MAX)
    ensures ObeyAll(q, Setting(a, due)) == match due case Some(clk) => q[a := clk] case None => Without(q, a)
  {
    var cs := Setting(a, due);
    assert cs[..0] == [];
    assert ObeyAll(q, cs[..0]) == q;
  }

  lemma SettingMeets(a: Alarm, due: Option<int>, clk: int)
    requires due.Some? ==> 0 <= due.value <= CLOCK_MAX
    ensures Meets(Setting(a, due), a, clk) <==> (due.Some? ==> due.value > clk)
    ensures forall c :: c in Setting(a, due) ==> c.alarm == a
  {
    var cs := Setting(a, due);
    assert cs[0] in cs && cs[0].alarm == a;
  }

  /** The transmit callback, run when its alarm is pending.  It meets the drain contract exactly if a
      character takes a cycle or more or it does not set its alarm again. */
  method TransmitCallback(chip: Mos6551, clk: int) returns (sent: Option<Byte>, ghost cs: seq<Command>)
    requires chip.Wired() && chip.InTime(clk) && chip.txAlarm in chip.context.queue
    modifies chip, chip.context, chip.context.pending, chip.context.list
    ensures chip.Wired() && chip.context.list == old(chip.context.list) && chip.ticks == old(chip.ticks)
    ensures chip.Abs() == Transmitted(old(chip.Abs()), clk)
    ensures sent == if Sends(old(chip.Abs())) then Some(old(chip.txdata) % old(chip.mask)) else None
    ensures old(chip.mask) > 0 && chip.context.queue == ObeyAll(old(chip.context.queue), cs)
    ensures Meets(cs, chip.txAlarm, clk) <==> chip.ticks >= 1 || chip.txAlarm !in chip.context.queue
    ensures chip.ticks >= 1 ==> Lawful(cs, chip.txAlarm, clk, chip.context.list)
  {
    hide Timed, AlarmContext.Valid, Mos6551.InTime, Transmitted, Meets, ObeyAll, Setting;
    chip.TicksFit(clk);
    Positive(chip.board, Pace(chip.ticks, chip.mask));
    ghost var q := chip.context.queue;
    sent := chip.TransmitAlarm(clk);
    ghost var due := if chip.inTx != 0 || TransmitControl(chip.cmd) == 1 then Some(clk + chip.ticks) else None;
    cs := Setting(chip.txAlarm, due);
    SettingObeyed(q, chip.txAlarm, due);
    SettingMeets(chip.txAlarm, due, clk);
  }

  method ReceiveCallback(chip: Mos6551, clk: int, input: Option<Byte>) returns (got: Option<Byte>, ghost cs: seq<Command>)
    requires chip.Wired() && chip.InTime(clk) && chip.rxAlarm in chip.context.queue
    modifies chip, chip.context, chip.context.pending, chip.context.list
    ensures chip.Wired() && chip.context.list == old(chip.context.list) && chip.ticks == old(chip.ticks)
    ensures old(chip.mask) > 0 && chip.Abs() == Received(old(chip.Abs()), clk, input) && got == if old(chip.open) then input else None
    ensures chip.context.queue == ObeyAll(old(chip.context.queue), cs)
    ensures Meets(cs, chip.rxAlarm, clk) <==> chip.ticks >= 1 || chip.rxAlarm !in chip.context.queue
    ensures chip.ticks >= 1 ==> Lawful(cs, chip.rxAlarm, clk, chip.context.list)
  {
    hide Timed, AlarmContext.Valid, Mos6551.InTime, Received, Meets, ObeyAll, Setting;
    chip.TicksFit(clk);
    ghost var q := chip.context.queue;
    got := chip.ReceiveAlarm(clk, input);
    ghost var due := if chip.activeRx then Some(clk + chip.ticks) else None;
    cs := Setting(chip.rxAlarm, due);
    SettingObeyed(q, chip.rxAlarm, due);
    SettingMeets(chip.rxAlarm, due, clk);
  }

  // ---- A drain ---------------------------------------------------------------------------------------

  /** The callbacks of a drain as they were, one after the other. */
  function Replay(cmds: seq<seq<Command>>): (nat, Alarm) -> seq<Command> {
    (n: nat, a: Alarm) => if n < |cmds| then cmds[n] else []
  }

  /** Only what the callbacks did counts. */
  lemma {:induction false} SameReaction(q: Queue, log: seq<Dispatched>, f: (nat, Alarm) -> seq<Command>, g: (nat, Alarm) -> seq<Command>, clk: int)
    requires forall n: nat, a :: n < |log| ==> f(n, a) == g(n, a)
    ensures Effects(q, log, f) == Effects(q, log, g) && (Drains(q, log, f, clk) <==> Drains(q, log, g, clk))
  {
    hide ObeyAll, Fires, Meets;
    if log != [] {
      SameReaction(q, log[..|log| - 1], f, g, clk);
    }
  }

  lemma DrainsNext(q: Queue, log: seq<Dispatched>, cmds: seq<seq<Command>>, d: Dispatched, cs: seq<Command>, clk: int)
    requires |cmds| == |log| && Drains(q, log, Replay(cmds), clk) && Fires(Effects(q, log, Replay(cmds)), d, clk) && Meets(cs, d.alarm, clk)
    ensures Drains(q, log + [d], Replay(cmds + [cs]), clk)
    ensures Effects(q, log + [d], Replay(cmds + [cs])) == ObeyAll(Effects(q, log, Replay(cmds)), cs)
  {
    hide ObeyAll, Fires, Meets, Drains, Effects;
    SameReaction(q, log, Replay(cmds), Replay(cmds + [cs]), clk);
    DrainsMore(q, log, d, Replay(cmds + [cs]), clk);
  }

  /** What the dispatches of a drain are to the chip. */
  function Firings(log: seq<Dispatched>, tx: Alarm, rx: Alarm, clk: int, inputs: nat -> Option<Byte>): seq<Moment> {
    if log == [] then []
    else
      var n, a := |log| - 1, log[|log| - 1].alarm;
      Firings(log[..n], tx, rx, clk, inputs)
      + if a == tx then [Moment(clk, TransmitFires)] else if a == rx then [Moment(clk, ReceiveFires(inputs(n)))] else []
  }

  lemma FiringsMore(log: seq<Dispatched>, d: Dispatched, tx: Alarm, rx: Alarm, clk: int, inputs: nat -> Option<Byte>)
    ensures Firings(log + [d], tx, rx, clk, inputs) == Firings(log, tx, rx, clk, inputs)
         + if d.alarm == tx then [Moment(clk, TransmitFires)] else if d.alarm == rx then [Moment(clk, ReceiveFires(inputs(|log|)))] else []
  {
    assert (log + [d])[..|log|] == log;
  }

  /** The other chips keep the drain contract and leave the alarms of the ACIA alone. */
  ghost predicate Polite(others: (nat, Alarm) -> seq<Command>, clk: int, list: seq<Alarm>, tx: Alarm, rx: Alarm) {
    forall n: nat, a :: a in list && a != tx && a != rx ==>
      Lawful(others(n, a), a, clk, list) && !Touches(others(n, a), tx) && !Touches(others(n, a), rx)
  }

  /** The moments of a run so far, what was seen of them, and the chip after them. */
  ghost predicate Follows(g: Board, s: Chip, start: int, run: seq<Moment>, seen: seq<Action>, t: Chip) {
    t == RunOf(g, s, run) && seen == Trace(g, s, run) && Proper(g, s, start, run)
  }

  lemma FollowsNone(g: Board, s: Chip, start: int)
    ensures Follows(g, s, start, [], [], s)
  {
  }

  lemma FollowsMore(g: Board, s: Chip, start: int, run: seq<Moment>, seen: seq<Action>, t: Chip, m: Moment)
    requires Follows(g, s, start, run, seen, t) && Latest(start, run) <= m.clk && Possible(t, m.event, m.clk)
    ensures Follows(g, s, start, run + [m], seen + Seen(g, t, m.event, m.clk), Next(g, t, m.event, m.clk))
    ensures Latest(start, run + [m]) == m.clk
  {
    hide Next, Seen, Possible;
    assert (run + [m])[..|run|] == run;
  }

  /** Settings of other alarms do not concern the chip. */
  lemma {:induction false} Undisturbed(q: Queue, cs: seq<Command>, a: Alarm)
    requires !Touches(cs, a)
    ensures DueTime(ObeyAll(q, cs), a) == DueTime(q, a)
  {
    if cs != [] {
      var before, last := cs[..|cs| - 1], cs[|cs| - 1];
      assert cs == before + [last] && last in cs;
      Undisturbed(q, before, a);
    }
  }

  /** One dispatch, as the chip sees it. */
  method DispatchOne(chip: Mos6551, clk: int, a: Alarm, others: seq<Command>, input: Option<Byte>)
    returns (ghost cs: seq<Command>, more: seq<Moment>, seen: seq<Action>)
    requires chip.Wired() && chip.InTime(clk) && chip.ticks >= 1 && a in chip.context.list
    requires a in chip.context.queue && chip.context.queue[a] <= clk
    requires a != chip.txAlarm && a != chip.rxAlarm ==>
               Lawful(others, a, clk, chip.context.list) && !Touches(others, chip.txAlarm) && !Touches(others, chip.rxAlarm)
    modifies chip, chip.context, chip.context.pending, chip.context.list
    ensures chip.Wired() && chip.context.list == old(chip.context.list) && chip.ticks == old(chip.ticks)
    ensures Lawful(cs, a, clk, chip.context.list) && chip.context.queue == ObeyAll(old(chip.context.queue), cs)
    ensures a != chip.txAlarm && a != chip.rxAlarm ==> cs == others
    ensures more == if a == chip.txAlarm then [Moment(clk, TransmitFires)]
                    else if a == chip.rxAlarm then [Moment(clk, ReceiveFires(input))] else []
    ensures more == [] ==> chip.Abs() == old(chip.Abs()) && seen == []
    ensures more != [] ==> Possible(old(chip.Abs()), more[0].event, clk) && seen == Seen(chip.board, old(chip.Abs()), more[0].event, clk)
                           && chip.Abs() == Next(chip.board, old(chip.Abs()), more[0].event, clk)
  {
    hide Timed, AlarmContext.Valid, Mos6551.InTime, Transmitted, Received, Lawful, ObeyAll, Touches;
    if a == chip.txAlarm {
      var byte, clkNow, ticks := chip.txdata, clk, chip.ticks;
      var sent;
      sent, cs := TransmitCallback(chip, clk);
      more := [Moment(clk, TransmitFires)];
      seen := if sent.Some? then [Put(sent.value, byte, clkNow, ticks)] else [];
    } else if a == chip.rxAlarm {
      var mask := chip.mask;
      var got;
      got, cs := ReceiveCallback(chip, clk, input);
      more := [Moment(clk, ReceiveFires(input))];
      seen := if got.Some? then [Heard(got.value, mask)] else [];
    } else {
      cs := others;
      OthersQuiet(chip, cs, a, clk);
      PerformAll(chip.context, others);
      more, seen := [], [];
    }
  }

  lemma OthersQuiet(chip: Mos6551, cs: seq<Command>, a: Alarm, clk: int)
    requires Lawful(cs, a, clk, chip.context.list) && !Touches(cs, chip.txAlarm) && !Touches(cs, chip.rxAlarm)
    ensures forall c :: c in cs ==> c.alarm in chip.context.list
    ensures var q := chip.context.queue;
            DueTime(ObeyAll(q, cs), chip.txAlarm) == DueTime(q, chip.txAlarm) && DueTime(ObeyAll(q, cs), chip.rxAlarm) == DueTime(q, chip.rxAlarm)
  {
    hide Touches, ObeyAll;
    Undisturbed(chip.context.queue, cs, chip.txAlarm);
    Undisturbed(chip.context.queue, cs, chip.rxAlarm);
  }

  /** PROCESS_ALARMS on a machine with an ACIA and other chips: a drain in the sense of AlarmDrain, in
      which the chip goes through the firings of its alarms, and after which nothing is due. */
  method ProcessAlarms(chip: Mos6551, clk: int, others: (nat, Alarm) -> seq<Command>, inputs: nat -> Option<Byte>)
    returns (log: seq<Dispatched>, ghost cmds: seq<seq<Command>>, run: seq<Moment>, seen: seq<Action>)
    requires chip.Wired() && chip.InTime(clk) && chip.ticks >= 1
    requires Polite(others, clk, chip.context.list, chip.txAlarm, chip.rxAlarm)
    modifies chip, chip.context, chip.context.pending, chip.context.list
    ensures chip.Wired() && chip.context.list == old(chip.context.list) && chip.ticks == old(chip.ticks)
    ensures |cmds| == |log| && Drains(old(chip.context.queue), log, Replay(cmds), clk)
    ensures chip.context.queue == Effects(old(chip.context.queue), log, Replay(cmds))
    ensures forall i :: 0 <= i < |log| && log[i].alarm != chip.txAlarm && log[i].alarm != chip.rxAlarm ==> cmds[i] == others(i, log[i].alarm)
    ensures forall a :: a in chip.context.queue ==> chip.context.queue[a] > clk
    ensures run == Firings(log, chip.txAlarm, chip.rxAlarm, clk, inputs)
    ensures Follows(chip.board, old(chip.Abs()), clk, run, seen, chip.Abs())
  {
    hide Timed, AlarmContext.Valid, Drains, Effects, ObeyAll, DueSet, Meets, Fires, Replay, Firings, Follows, Touches, Next, Seen, Possible;
    ghost var q, s := chip.context.queue, chip.Abs();
    log, cmds, run, seen := [], [], [], [];
    Start(q, s, chip, clk, inputs);
    while clk >= chip.context.nextClk
      invariant chip.Wired() && chip.context.list == old(chip.context.list) && chip.ticks == old(chip.ticks)
      invariant |cmds| == |log| && Drains(q, log, Replay(cmds), clk) && chip.context.queue == Effects(q, log, Replay(cmds))
      invariant forall i :: 0 <= i < |log| && log[i].alarm != chip.txAlarm && log[i].alarm != chip.rxAlarm ==> cmds[i] == others(i, log[i].alarm)
      invariant run == Firings(log, chip.txAlarm, chip.rxAlarm, clk, inputs) && Latest(clk, run) == clk
      invariant Follows(chip.board, s, clk, run, seen, chip.Abs())
      decreases |DueSet(chip.context.queue, clk)|
    {
      ghost var before, was := chip.context.queue, chip.Abs();
      var d := TakeNext(chip.context, clk);
      Firing(before, d, clk);
      FiringsMore(log, d, chip.txAlarm, chip.rxAlarm, clk, inputs);
      ghost var cs;
      var more, latest;
      cs, more, latest := DispatchOne(chip, clk, d.alarm, others(|log|, d.alarm), inputs(|log|));
      FewerDue(before, cs, d.alarm, clk);
      DrainsNext(q, log, cmds, d, cs, clk);
      if more != [] {
        FollowsMore(chip.board, s, clk, run, seen, was, more[0]);
        assert more == [more[0]];
      } else {
        assert run + more == run && seen + latest == seen;
      }
      log, cmds, run, seen := log + [d], cmds + [cs], run + more, seen + latest;
    }
    chip.context.NextIsEarliest();
  }

  lemma Firing(q: Queue, d: Dispatched, clk: int)
    requires Fires(q, d, clk)
    ensures d.alarm in q && q[d.alarm] <= clk
  {
  }

  lemma Start(q: Queue, s: Chip, chip: Mos6551, clk: int, inputs: nat -> Option<Byte>)
    ensures Drains(q, [], Replay([]), clk) && Effects(q, [], Replay([])) == q
    ensures Firings([], chip.txAlarm, chip.rxAlarm, clk, inputs) == [] && Follows(chip.board, s, clk, [], [], s)
  {
  }

  // ---- Whole runs ------------------------------------------------------------------------------------

  /** What happens to the machine at a clock: the CPU uses a register or resets the chip, the other
      chips set and unset their alarms, or the CPU drains its alarms while the other chips and the
      line do what they do. */
  datatype Step =
    | Access(e: Event)
    | Settings(cs: seq<Command>)
    | Drained(others: (nat, Alarm) -> seq<Command>, inputs: nat -> Option<Byte>)

  datatype Timely = At(clk: int, step: Step)

  /** What a step did: to the chip, and the dispatches of a drain with the settings of their callbacks. */
  datatype Outcome = Outcome(part: seq<Moment>, log: seq<Dispatched>, cmds: seq<seq<Command>>)

  /** Settings of alarms of this context that are not the chip's. */
  predicate Elsewhere(cs: seq<Command>, list: seq<Alarm>, tx: Alarm, rx: Alarm) {
    (forall c :: c in cs ==> c.alarm in list) && !Touches(cs, tx) && !Touches(cs, rx)
  }

  ghost predicate Allowed(chip: Mos6551, t: Timely)
    reads chip.context
  {
    && chip.InTime(t.clk)
    && match t.step
       case Access(e) => !e.TransmitFires? && !e.ReceiveFires? && (e.Store? && e.rmw ==> t.clk > 0)
       case Settings(cs) => Elsewhere(cs, chip.context.list, chip.txAlarm, chip.rxAlarm)
       case Drained(others, _) => Polite(others, t.clk, chip.context.list, chip.txAlarm, chip.rxAlarm)
  }

  /** A drain from queue to queue: what it dispatched is to the chip the firings of its alarms with the
      bytes that the line offered; the other callbacks did what they do; and nothing is due afterwards. */
  ghost predicate Drainage(q: Queue, r: Queue, d: Outcome, clk: int, others: (nat, Alarm) -> seq<Command>,
                           inputs: nat -> Option<Byte>, tx: Alarm, rx: Alarm)
  {
    && d.part == Firings(d.log, tx, rx, clk, inputs)
    && |d.cmds| == |d.log| && Drains(q, d.log, Replay(d.cmds), clk) && r == Effects(q, d.log, Replay(d.cmds))
    && (forall i :: 0 <= i < |d.log| && d.log[i].alarm != tx && d.log[i].alarm != rx ==> d.cmds[i] == others(i, d.log[i].alarm))
    && (forall a :: a in r ==> r[a] > clk)
  }

  /** What one step does to the queue and the chip: an access is one moment and leaves the alarms of the
      others alone, settings of the others are not felt by the chip, and a drain is a drain. */
  ghost predicate StepDone(q: Queue, r: Queue, t: Timely, d: Outcome, tx: Alarm, rx: Alarm) {
    match t.step
    case Access(e) => d == Outcome([Moment(t.clk, e)], [], []) && r - {tx, rx} == q - {tx, rx}
    case Settings(cs) => d == Outcome([], [], []) && r == ObeyAll(q, cs)
    case Drained(others, inputs) => Drainage(q, r, d, t.clk, others, inputs, tx, rx)
  }

  /** The queue holds what the chip knows of its two alarms. */
  predicate Holds(q: Queue, s: Chip, tx: Alarm, rx: Alarm) {
    DueTime(q, tx) == s.tx.due && DueTime(q, rx) == s.rx.due
  }

  function Flat(done: seq<Outcome>): seq<Moment> {
    if done == [] then [] else Flat(done[..|done| - 1]) + done[|done| - 1].part
  }

  lemma {:induction false} RunsJoin(g: Board, s: Chip, start: int, first: seq<Moment>, more: seq<Moment>)
    ensures RunOf(g, s, first + more) == RunOf(g, RunOf(g, s, first), more)
    ensures Trace(g, s, first + more) == Trace(g, s, first) + Trace(g, RunOf(g, s, first), more)
    ensures Latest(start, first + more) == Latest(Latest(start, first), more)
    ensures Proper(g, s, start, first + more) <==> Proper(g, s, start, first) && Proper(g, RunOf(g, s, first), Latest(start, first), more)
  {
    hide Next, Seen, Possible;
    if more == [] {
      assert first + more == first;
    } else {
      var before := more[..|more| - 1];
      assert (first + more)[..|first + more| - 1] == first + before;
      RunsJoin(g, s, start, first, before);
    }
  }

  lemma FollowsPart(g: Board, s: Chip, start: int, run: seq<Moment>, seen: seq<Action>, t: Chip, clk: int,
                    part: seq<Moment>, more: seq<Action>, u: Chip)
    requires Follows(g, s, start, run, seen, t) && Latest(start, run) <= clk && Follows(g, t, clk, part, more, u)
    requires forall m :: m in part ==> m.clk == clk
    ensures Follows(g, s, start, run + part, seen + more, u)
    ensures Latest(start, run + part) <= clk
  {
    RunsJoin(g, s, start, run, part);
    ProperFrom(g, t, Latest(start, run), clk, part);
  }

  /** A run may begin earlier. */
  lemma {:induction false} ProperFrom(g: Board, s: Chip, earlier: int, start: int, run: seq<Moment>)
    requires Proper(g, s, start, run) && earlier <= start
    ensures Proper(g, s, earlier, run) && Latest(earlier, run) <= Latest(start, run)
  {
    hide Next, Possible;
    if run != [] {
      ProperFrom(g, s, earlier, start, run[..|run| - 1]);
    }
  }

  lemma {:induction false} FiringsFire(log: seq<Dispatched>, tx: Alarm, rx: Alarm, clk: int, inputs: nat -> Option<Byte>)
    ensures forall m :: m in Firings(log, tx, rx, clk, inputs) ==> m.clk == clk && (m.event.TransmitFires? || m.event.ReceiveFires?)
  {
    if log != [] {
      FiringsFire(log[..|log| - 1], tx, rx, clk, inputs);
    }
  }

  /** One step. */
  method DoStep(chip: Mos6551, t: Timely) returns (ghost d: Outcome, part: seq<Moment>, log: seq<Dispatched>, seen: seq<Action>)
    requires chip.Wired() && Sound(chip.board, chip.Abs()) && chip.board.cps >= 32915.0 && Allowed(chip, t)
    modifies chip, chip.context, chip.context.pending, chip.context.list
    ensures chip.Wired() && chip.context.list == old(chip.context.list)
    ensures d.part == part && d.log == log
    ensures StepDone(old(chip.context.queue), chip.context.queue, t, d, chip.txAlarm, chip.rxAlarm)
    ensures forall m :: m in part ==> m.clk == t.clk
    ensures Follows(chip.board, old(chip.Abs()), t.clk, part, seen, chip.Abs())
  {
    hide AlarmContext.Valid, Mos6551.InTime, Acia.Next, Acia.Seen, Follows, Polite, Drains, Effects, Firings, Replay, ObeyAll, Touches;
    part, log, seen := [], [], [];
    ghost var cmds: seq<seq<Command>> := [];
    FollowsNone(chip.board, chip.Abs(), t.clk);
    match t.step {
      case Access(e) =>
        FollowsMore(chip.board, chip.Abs(), t.clk, [], [], chip.Abs(), Moment(t.clk, e));
        seen := DoAccess(chip, e, t.clk);
        part := [Moment(t.clk, e)];
        assert [] + part == part && [] + seen == seen;
      case Settings(cs) =>
        DoSettings(chip, cs);
      case Drained(others, inputs) =>
        log, cmds, part, seen := ProcessAlarms(chip, t.clk, others, inputs);
        FiringsFire(log, chip.txAlarm, chip.rxAlarm, t.clk, inputs);
    }
    d := Outcome(part, log, cmds);
  }

  /** Other chips set and unset their alarms, for whatever clock. */
  method DoSettings(chip: Mos6551, cs: seq<Command>)
    requires chip.Wired() && Elsewhere(cs, chip.context.list, chip.txAlarm, chip.rxAlarm)
    modifies chip.context, chip.context.pending, chip.context.list
    ensures chip.Wired() && chip.context.list == old(chip.context.list)
    ensures chip.context.queue == ObeyAll(old(chip.context.queue), cs) && chip.Abs() == old(chip.Abs())
  {
    hide AlarmContext.Valid, ObeyAll, Touches, Timed;
    Undisturbed(chip.context.queue, cs, chip.txAlarm);
    Undisturbed(chip.context.queue, cs, chip.rxAlarm);
    PerformAll(chip.context, cs);
  }

  method DoAccess(chip: Mos6551, e: Event, clk: int) returns (seen: seq<Action>)
    requires chip.Wired() && chip.InTime(clk) && !e.TransmitFires? && !e.ReceiveFires? && (e.Store? && e.rmw ==> clk > 0)
    modifies chip, chip.context, chip.context.pending, chip.context.list
    ensures chip.Wired() && chip.context.list == old(chip.context.list) && chip.Others() == old(chip.Others())
    ensures chip.Abs() == Next(chip.board, old(chip.Abs()), e, clk) && seen == Seen(chip.board, old(chip.Abs()), e, clk)
  {
    hide AlarmContext.Valid, Mos6551.InTime, Stored, WasRead, WasReset, ReadValue, Register, Timed;
    match e {
      case Store(addr, byte, rmw, lineUp) => seen := chip.Store(addr, byte, clk, rmw, lineUp);
      case Read(addr, dcd, dsr) =>
        var r := chip.Read(addr, dcd, dsr);
        seen := if Register(chip.board, addr) == 0 then [Took(r)] else [];
      case HardReset => chip.Reset(clk); seen := [ResetDone];
    }
  }

  /** What is promised of everything that was seen of a chip that went from s to t. */
  ghost predicate Promised(g: Board, s: Chip, t: Chip, seen: seq<Action>) {
    && Sound(g, t)
    && Within(Puts(seen), Waiting(s) + Writes(seen)) && Paced(seen)
    && BoxOf(t) == BoxAfter(BoxOf(s), seen) && Honest(BoxOf(s), seen) && Conserved(BoxOf(s), seen)
    && (t.status.overrun <==> Overran(BoxOf(s), seen))
  }

  /** The queue and the chip before and after each step, and what the step did. */
  ghost predicate Stepwise(g: Board, s: Chip, queues: seq<Queue>, steps: seq<Timely>, done: seq<Outcome>, tx: Alarm, rx: Alarm) {
    && |queues| == |done| + 1 && |done| <= |steps|
    && (forall i :: 0 <= i < |done| ==> StepDone(queues[i], queues[i + 1], steps[i], done[i], tx, rx))
    && (forall i :: 0 <= i <= |done| ==> Holds(queues[i], RunOf(g, s, Flat(done[..i])), tx, rx))
  }

  lemma StepwiseMore(g: Board, s: Chip, queues: seq<Queue>, steps: seq<Timely>, done: seq<Outcome>, tx: Alarm, rx: Alarm,
                     q: Queue, d: Outcome)
    requires Stepwise(g, s, queues, steps, done, tx, rx) && |done| < |steps|
    requires StepDone(queues[|done|], q, steps[|done|], d, tx, rx) && Holds(q, RunOf(g, s, Flat(done + [d])), tx, rx)
    ensures Stepwise(g, s, queues + [q], steps, done + [d], tx, rx)
  {
    hide StepDone, Holds, RunOf, Flat;
    var after, more := queues + [q], done + [d];
    forall i | 0 <= i < |more| ensures StepDone(after[i], after[i + 1], steps[i], more[i], tx, rx) {
      assert i < |done| ==> after[i + 1] == queues[i + 1];
    }
    forall i | 0 <= i <= |more| ensures Holds(after[i], RunOf(g, s, Flat(more[..i])), tx, rx) {
      assert if i <= |done| then more[..i] == done[..i] else more[..i] == more;
    }
  }

  lemma StepwiseNone(g: Board, s: Chip, q: Queue, steps: seq<Timely>, tx: Alarm, rx: Alarm)
    requires Holds(q, s, tx, rx)
    ensures Stepwise(g, s, [q], steps, [], tx, rx)
  {
    assert forall i :: 0 <= i <= 0 ==> RunOf(g, s, Flat([][..i])) == s;
  }

  /** Any run of register accesses, settings of other chips and drains on a clock that does not go back,
      on a machine of 32915 Hz or more.  Every step does to queue and chip what it should, with the bytes
      that the line offered, and everything that was seen keeps the promises of AciaTraces. */
  method Run(chip: Mos6551, start: int, steps: seq<Timely>)
    returns (logs: seq<seq<Dispatched>>, seen: seq<Action>, ghost done: seq<Outcome>, ghost queues: seq<Queue>)
    requires chip.Wired() && Sound(chip.board, chip.Abs()) && chip.board.cps >= 32915.0
    requires forall i :: 0 <= i < |steps| ==> Allowed(chip, steps[i]) && start <= steps[i].clk
    requires forall i, j :: 0 <= i < j < |steps| ==> steps[i].clk <= steps[j].clk
    modifies chip, chip.context, chip.context.pending, chip.context.list
    ensures chip.Wired() && |done| == |logs| == |steps| && forall i :: 0 <= i < |logs| ==> logs[i] == done[i].log
    ensures Stepwise(chip.board, old(chip.Abs()), queues, steps, done, chip.txAlarm, chip.rxAlarm)
    ensures queues[0] == old(chip.context.queue) && queues[|steps|] == chip.context.queue
    ensures Follows(chip.board, old(chip.Abs()), start, Flat(done), seen, chip.Abs())
    ensures Promised(chip.board, old(chip.Abs()), chip.Abs(), seen)
  {
    hide AlarmContext.Valid, Mos6551.InTime, Follows, Polite, StepDone, Stepwise, Holds, Timed, Sound, Promised, Elsewhere;
    ghost var s := chip.Abs();
    logs, seen, done, queues := [], [], [], [chip.context.queue];
    FollowsNone(chip.board, s, start);
    ChipHolds(chip);
    StepwiseNone(chip.board, s, chip.context.queue, steps, chip.txAlarm, chip.rxAlarm);
    var i := 0;
    while i < |steps|
      invariant 0 <= i <= |steps| && |done| == |logs| == i && |queues| == i + 1
      invariant forall j :: 0 <= j < i ==> logs[j] == done[j].log
      invariant chip.Wired() && chip.context.list == old(chip.context.list)
      invariant queues[0] == old(chip.context.queue) && queues[i] == chip.context.queue
      invariant Follows(chip.board, s, start, Flat(done), seen, chip.Abs())
      invariant i < |steps| ==> Latest(start, Flat(done)) <= steps[i].clk
      invariant Stepwise(chip.board, s, queues, steps, done, chip.txAlarm, chip.rxAlarm)
    {
      FollowsIs(chip.board, s, start, Flat(done), seen, chip.Abs());
      RunSound(chip.board, s, Flat(done));
      assert Allowed(chip, steps[i]);
      ghost var was := chip.Abs();
      ghost var d;
      var part, log, more;
      d, part, log, more := DoStep(chip, steps[i]);
      FollowsPart(chip.board, s, start, Flat(done), seen, was, steps[i].clk, part, more, chip.Abs());
      assert Flat(done + [d]) == Flat(done) + part by { FlatMore(done, d); }
      FollowsIs(chip.board, s, start, Flat(done + [d]), seen + more, chip.Abs());
      ChipHolds(chip);
      StepwiseMore(chip.board, s, queues, steps, done, chip.txAlarm, chip.rxAlarm, chip.context.queue, d);
      logs, seen, done, queues := logs + [log], seen + more, done + [d], queues + [chip.context.queue];
      i := i + 1;
    }
    Conclude(chip.board, s, start, Flat(done), seen, chip.Abs());
  }

  lemma FollowsIs(g: Board, s: Chip, start: int, run: seq<Moment>, seen: seq<Action>, t: Chip)
    requires Follows(g, s, start, run, seen, t)
    ensures t == RunOf(g, s, run)
  {
  }

  lemma FlatMore(done: seq<Outcome>, d: Outcome)
    ensures Flat(done + [d]) == Flat(done) + d.part
  {
    assert (done + [d])[..|done|] == done;
  }

  lemma ChipHolds(chip: Mos6551)
    ensures Holds(chip.context.queue, chip.Abs(), chip.txAlarm, chip.rxAlarm)
  {
  }

  lemma Conclude(g: Board, s: Chip, start: int, run: seq<Moment>, seen: seq<Action>, t: Chip)
    requires Sound(g, s) && Follows(g, s, start, run, seen, t)
    ensures Promised(g, s, t, seen)
  {
    hide Sound, Within, Puts, Writes, Paced, BoxAfter, Honest, Waiting, Trace, RunOf, Proper, Accepted, Removed, Fetches, Lost, Overran;
    RunSound(g, s, run);
    TransmitConservation(g, s, run);
    TransmitPacing(g, s, start, run);
    ReceiverIsMailbox(g, s, run);
    ReceiveConservation(g, s, run);
    OverrunMeans(BoxOf(s), seen);
  }
}
