/** The loop in which a CPU core dispatches its alarms, `while (CLK >= next) dispatch(CLK)`, with
    the callbacks as environment: each dispatched alarm answers with a list of settings. */
module AlarmDrain {
  import opened AlarmQueue

  /** What a callback may do to the queue. */
  datatype Command = SetAt(alarm: Alarm, clk: Clock) | Clear(alarm: Alarm)

  datatype Dispatched = Dispatched(alarm: Alarm, due: Clock, offset: nat)

  type Queue = map<Alarm, Clock>

  function Obey(q: Queue, c: Command): Queue {
    match c
    case SetAt(a, clk) => if a in q || |q| < MAX_PENDING_ALARMS then q[a := clk] else q
    case Clear(a) => Without(q, a)
  }

  function ObeyAll(q: Queue, cs: seq<Command>): Queue {
    if cs == [] then q else Obey(ObeyAll(q, cs[..|cs| - 1]), cs[|cs| - 1])
  }

  predicate Touches(cs: seq<Command>, a: Alarm) {
    exists c :: c in cs && c.alarm == a
  }

  /** The drain contract: the callback of `a` resets or unsets `a`, and sets nothing for a time
      that has come. */
  predicate Meets(cs: seq<Command>, a: Alarm, clk: int) {
    Touches(cs, a) && forall c :: c in cs && c.SetAt? ==> c.clk > clk
  }

  predicate Due(q: Queue, a: Alarm, clk: int) {
    a in q && q[a] <= clk
  }

  function DueSet(q: Queue, clk: int): set<Alarm> {
    set a | a in q && q[a] <= clk
  }

  // ---- One callback ---------------------------------------------------------------------------

  /** Settings that are never for a time that has come make nothing due and leave untouched alarms alone. */
  lemma {:induction false} ObeyKeeps(q: Queue, cs: seq<Command>, clk: int, a: Alarm)
    requires forall c :: c in cs && c.SetAt? ==> c.clk > clk
    ensures Due(ObeyAll(q, cs), a, clk) ==> Due(q, a, clk) && ObeyAll(q, cs)[a] == q[a] && !Touches(cs, a)
    ensures !Touches(cs, a) ==> (a in ObeyAll(q, cs) <==> a in q) && (a in q ==> ObeyAll(q, cs)[a] == q[a])
  {
    if cs != [] {
      var before, last := cs[..|cs| - 1], cs[|cs| - 1];
      assert cs == before + [last];
      ObeyKeeps(q, before, clk, a);
    }
  }

  /** The measure of the loop: fewer alarms are due after a callback that meets the contract. */
  lemma FewerDue(q: Queue, cs: seq<Command>, a: Alarm, clk: int)
    requires Meets(cs, a, clk) && Due(q, a, clk)
    ensures DueSet(ObeyAll(q, cs), clk) <= DueSet(q, clk) - {a}
    ensures |DueSet(ObeyAll(q, cs), clk)| < |DueSet(q, clk)|
  {
    var r := DueSet(ObeyAll(q, cs), clk);
    forall b | b in r ensures b in DueSet(q, clk) - {a} {
      ObeyKeeps(q, cs, clk, b);
    }
    Subset(r, DueSet(q, clk) - {a});
  }

  lemma {:induction false} Subset(s: set<Alarm>, t: set<Alarm>)
    requires s <= t
    ensures |s| <= |t|
  {
    if s != {} {
      var a :| a in s;
      Subset(s - {a}, t - {a});
    }
  }

  // ---- The loop --------------------------------------------------------------------------------

  /** The effects of the callbacks, one after the other; `react` is what the n-th one does. */
  function Effects(q: Queue, log: seq<Dispatched>, react: (nat, Alarm) -> seq<Command>): Queue {
    if log == [] then q
    else ObeyAll(Effects(q, log[..|log| - 1], react), react(|log| - 1, log[|log| - 1].alarm))
  }

  /** A dispatch takes an earliest alarm of the queue, and its time has come. */
  predicate Fires(q: Queue, d: Dispatched, clk: int) {
    Due(q, d.alarm, clk) && d.due == q[d.alarm] && d.offset == clk - d.due && forall a :: a in q ==> d.due <= q[a]
  }

  /** A drain as the cached minimum drives it, with callbacks that meet the contract. */
  ghost predicate Drains(q: Queue, log: seq<Dispatched>, react: (nat, Alarm) -> seq<Command>, clk: int) {
    log == []
    || (var before, d := log[..|log| - 1], log[|log| - 1];
        Drains(q, before, react, clk)
        && Fires(Effects(q, before, react), d, clk)
        && Meets(react(|before|, d.alarm), d.alarm, clk))
  }

  predicate Logged(log: seq<Dispatched>, a: Alarm) {
    exists i :: 0 <= i < |log| && log[i].alarm == a
  }

  /** Did the callback of another alarm touch `a`? */
  predicate Disturbed(log: seq<Dispatched>, react: (nat, Alarm) -> seq<Command>, a: Alarm) {
    exists i :: 0 <= i < |log| && log[i].alarm != a && Touches(react(i, log[i].alarm), a)
  }

  lemma LogGrows(log: seq<Dispatched>, react: (nat, Alarm) -> seq<Command>, a: Alarm)
    requires log != []
    ensures var before, d := log[..|log| - 1], log[|log| - 1];
            && (Logged(log, a) <==> Logged(before, a) || d.alarm == a)
            && (Disturbed(log, react, a) <==>
                Disturbed(before, react, a) || (d.alarm != a && Touches(react(|before|, d.alarm), a)))
  {
    var before := log[..|log| - 1];
    assert forall i :: 0 <= i < |before| ==> before[i] == log[i];
  }

  /** What is still due in the middle of a drain: what was due at first and has neither been
      dispatched nor been touched by the callback of another alarm. */
  lemma {:induction false} StillDue(q: Queue, log: seq<Dispatched>, react: (nat, Alarm) -> seq<Command>, clk: int, a: Alarm)
    requires Drains(q, log, react, clk)
    ensures Due(Effects(q, log, react), a, clk) <==> Due(q, a, clk) && !Logged(log, a) && !Disturbed(log, react, a)
    ensures Due(Effects(q, log, react), a, clk) ==> Effects(q, log, react)[a] == q[a]
  {
    if log != [] {
      var before, d := log[..|log| - 1], log[|log| - 1];
      StillDue(q, before, react, clk, a);
      LogGrows(log, react, a);
      ObeyKeeps(Effects(q, before, react), react(|before|, d.alarm), clk, a);
    }
  }

  /** Dispatches happen in order of their times, with offset CLK - due, and never twice for an alarm. */
  ghost predicate Orderly(q: Queue, log: seq<Dispatched>, clk: int) {
    && (forall i :: 0 <= i < |log| ==>
         Due(q, log[i].alarm, clk) && log[i].due == q[log[i].alarm] && log[i].offset == clk - log[i].due)
    && (forall i, j :: 0 <= i < j < |log| ==> log[i].due <= log[j].due && log[i].alarm != log[j].alarm)
  }

  /** The next dispatch extends an orderly log. */
  lemma InOrder(q: Queue, before: seq<Dispatched>, d: Dispatched, react: (nat, Alarm) -> seq<Command>, clk: int)
    requires Drains(q, before, react, clk) && Orderly(q, before, clk) && Fires(Effects(q, before, react), d, clk)
    ensures Orderly(q, before + [d], clk)
  {
    StillDue(q, before, react, clk, d.alarm);
    if before != [] {
      var earlier, last := before[..|before| - 1], before[|before| - 1];
      StillDue(q, earlier, react, clk, d.alarm);
      LogGrows(before, react, d.alarm);
      assert last.due <= d.due;
    }
  }

  lemma {:induction false} DrainOrder(q: Queue, log: seq<Dispatched>, react: (nat, Alarm) -> seq<Command>, clk: int)
    requires Drains(q, log, react, clk)
    ensures Orderly(q, log, clk)
  {
    if log != [] {
      var before := log[..|log| - 1];
      DrainOrder(q, before, react, clk);
      InOrder(q, before, log[|log| - 1], react, clk);
      assert before + [log[|log| - 1]] == log;
    }
  }

  /** Once nothing is due any more, every alarm that was due has been dispatched, once, or had been
      taken back by another callback; and no other alarm has been dispatched. */
  lemma EveryDueAlarm(q: Queue, log: seq<Dispatched>, react: (nat, Alarm) -> seq<Command>, clk: int, a: Alarm)
    requires Drains(q, log, react, clk) && forall b :: b in Effects(q, log, react) ==> Effects(q, log, react)[b] > clk
    ensures Due(q, a, clk) ==> Logged(log, a) || Disturbed(log, react, a)
    ensures Logged(log, a) ==> Due(q, a, clk)
    ensures !Disturbed(log, react, a) ==> (Logged(log, a) <==> Due(q, a, clk))
  {
    StillDue(q, log, react, clk, a);
    DrainOrder(q, log, react, clk);
  }

  lemma DrainsNone(q: Queue, react: (nat, Alarm) -> seq<Command>, clk: int)
    ensures Drains(q, [], react, clk) && Effects(q, [], react) == q
  {
  }

  lemma DrainsMore(q: Queue, log: seq<Dispatched>, d: Dispatched, react: (nat, Alarm) -> seq<Command>, clk: int)
    requires Drains(q, log, react, clk) && Fires(Effects(q, log, react), d, clk)
    requires Meets(react(|log|, d.alarm), d.alarm, clk)
    ensures Drains(q, log + [d], react, clk)
    ensures Effects(q, log + [d], react) == ObeyAll(Effects(q, log, react), react(|log|, d.alarm))
  {
    assert (log + [d])[..|log|] == log;
  }

  /** alarm_context_dispatch with its offset. */
  method TakeNext(context: AlarmContext, clk: int) returns (d: Dispatched)
    requires context.Valid() && context.nextClk <= clk < CLOCK_MAX
    ensures Fires(context.queue, d, clk) && Due(context.queue, d.alarm, clk) && d.alarm in context.list
  {
    var alarm, offset := context.Dispatch(clk);
    d := Dispatched(alarm, clk - offset, offset);
  }

  /** One turn of the loop. */
  method DrainOne(context: AlarmContext, clk: int, react: (nat, Alarm) -> seq<Command>, n: nat) returns (d: Dispatched)
    requires context.Valid() && context.nextClk <= clk < CLOCK_MAX
    requires forall a :: a in context.list ==> Lawful(react(n, a), a, clk, context.list)
    modifies context, context.pending, context.list
    ensures context.Valid() && context.list == old(context.list)
    ensures Fires(old(context.queue), d, clk) && Meets(react(n, d.alarm), d.alarm, clk)
    ensures context.queue == ObeyAll(old(context.queue), react(n, d.alarm))
  {
    hide ObeyAll, AlarmContext.Valid, Fires;
    d := TakeNext(context, clk);
    PerformAll(context, react(n, d.alarm));
  }

  /** The contract of a callback that knows only the alarms of its context. */
  predicate Lawful(cs: seq<Command>, a: Alarm, clk: int, list: seq<Alarm>) {
    Meets(cs, a, clk) && forall c :: c in cs ==> c.alarm in list
  }

  /** PROCESS_ALARMS. */
  method Drain(context: AlarmContext, clk: int, react: (nat, Alarm) -> seq<Command>) returns (log: seq<Dispatched>)
    requires context.Valid() && clk < CLOCK_MAX
    requires forall n: nat, a :: a in context.list ==> Lawful(react(n, a), a, clk, context.list)
    modifies context, context.pending, context.list
    ensures context.Valid() && context.list == old(context.list)
    ensures Drains(old(context.queue), log, react, clk) && context.queue == Effects(old(context.queue), log, react)
    ensures forall a :: a in context.queue ==> context.queue[a] > clk
  {
    hide Drains, Effects, ObeyAll, DueSet, AlarmContext.Valid, Meets;
    log := [];
    ghost var q := context.queue;
    DrainsNone(q, react, clk);
    while clk >= context.nextClk
      invariant context.Valid() && context.list == old(context.list)
      invariant Drains(q, log, react, clk) && context.queue == Effects(q, log, react)
      decreases |DueSet(context.queue, clk)|
    {
      ghost var before := context.queue;
      var d := DrainOne(context, clk, react, |log|);
      FewerDue(before, react(|log|, d.alarm), d.alarm, clk);
      DrainsMore(q, log, d, react, clk);
      log := log + [d];
    }
    context.NextIsEarliest();
  }

  method Perform(context: AlarmContext, c: Command)
    requires context.Valid() && c.alarm in context.list
    modifies context, context.pending, context.list
    ensures context.Valid() && context.list == old(context.list) && context.queue == Obey(old(context.queue), c)
  {
    match c
    case SetAt(alarm, clk) => context.Set(alarm, clk);
    case Clear(alarm) => context.Unset(alarm);
  }

  /** Any sequence of settings acts on the alarm context as it does on the map. */
  method PerformAll(context: AlarmContext, cs: seq<Command>)
    requires context.Valid() && forall c :: c in cs ==> c.alarm in context.list
    modifies context, context.pending, context.list
    ensures context.Valid() && context.list == old(context.list) && context.queue == ObeyAll(old(context.queue), cs)
  {
    var i := 0;
    while i < |cs|
      invariant 0 <= i <= |cs|
      invariant context.Valid() && context.list == old(context.list)
      invariant context.queue == ObeyAll(old(context.queue), cs[..i])
    {
      assert cs[..i + 1][..i] == cs[..i];
      Perform(context, cs[i]);
      i := i + 1;
    }
    assert cs[..i] == cs;
  }
}
