/** The interpreter loop around the lumped-clock core: alarms are processed before every opcode
    fetch and in the middle of BRK and of interrupts.  The loop returns what it dispatched at each
    of these points, and no alarm is ever dispatched more than seven cycles late. */
module MainLoop {
  import opened Words
  import opened Isa
  import opened Runs
  import opened MosCpu
  import opened AlarmQueue
  import opened AlarmDrain
  import LumpedCore

  /** What the chips do: the alarms they set while the CPU runs up to the k-th pause, seen from the
      clock of the pause before, and what their callbacks do in the k-th pause. */
  datatype Environment = Environment(sets: (nat, int) -> seq<Command>, react: (nat, int, nat, Alarm) -> seq<Command>)

  /** No alarm is set for a time that has come. */
  predicate Later(cs: seq<Command>, clk: int, list: seq<Alarm>) {
    forall c :: c in cs ==> c.alarm in list && (c.SetAt? ==> c.clk > clk)
  }

  ghost predicate Punctual(env: Environment, list: seq<Alarm>) {
    && (forall k: nat, clk: int :: Later(env.sets(k, clk), clk, list))
    && (forall k: nat, clk: int, n: nat, a :: a in list ==> Lawful(env.react(k, clk, n, a), a, clk, list))
  }

  /** No alarm is due. */
  predicate Quiet(q: Queue, clk: int) {
    forall a :: a in q ==> q[a] > clk
  }

  // ---- Pauses ------------------------------------------------------------------------------------

  /** The clock when the CPU went on after the last pause and when it pauses now. */
  datatype Interval = Interval(from: int, to: int)

  /** A pause of the CPU and what PROCESS_ALARMS dispatches in it. */
  datatype Pause = Pause(at: Interval, log: seq<Dispatched>)

  function Reaction(env: Environment, k: nat, clk: int): (nat, Alarm) -> seq<Command> {
    (n: nat, a: Alarm) => env.react(k, clk, n, a)
  }

  /** The queue as the k-th pause finds it and as it leaves it. */
  function Found(q: Queue, env: Environment, k: nat, p: Pause): Queue {
    ObeyAll(q, env.sets(k, p.at.from))
  }

  function Left(q: Queue, env: Environment, k: nat, p: Pause): Queue {
    Effects(Found(q, env, k, p), p.log, Reaction(env, k, p.at.to))
  }

  /** The log is a drain of the queue that the pause finds, and it leaves nothing that is due. */
  ghost predicate Processes(q: Queue, env: Environment, k: nat, p: Pause) {
    Drains(Found(q, env, k, p), p.log, Reaction(env, k, p.at.to), p.at.to) && Quiet(Left(q, env, k, p), p.at.to)
  }

  /** The queue after some pauses, the first of which is the k-th of the run. */
  function QueueAfter(q: Queue, env: Environment, k: nat, ps: seq<Pause>): Queue {
    if ps == [] then q
    else Left(QueueAfter(q, env, k, ps[..|ps| - 1]), env, k + |ps| - 1, ps[|ps| - 1])
  }

  /** Each pause takes over the queue that the one before it left. */
  ghost predicate Chained(q: Queue, env: Environment, k: nat, ps: seq<Pause>) {
    ps == []
    || (Chained(q, env, k, ps[..|ps| - 1])
        && Processes(QueueAfter(q, env, k, ps[..|ps| - 1]), env, k + |ps| - 1, ps[|ps| - 1]))
  }

  function Times(ps: seq<Pause>): (r: seq<Interval>)
    ensures |r| == |ps|
  {
    if ps == [] then [] else Times(ps[..|ps| - 1]) + [ps[|ps| - 1].at]
  }

  // ---- The drain points of the core --------------------------------------------------------------

  /** BRK and interrupts pause half-way as well. */
  predicate Halves(s: Cpu, e: Event) {
    e.Accepted? || Fetched(s).BRK?
  }

  function Points(s: Cpu, e: Event, clk: int): seq<Interval> {
    if Halves(s, e) then [Interval(clk, clk + 5), Interval(clk + 5, clk + 7)] else [Interval(clk, clk + Duration(s, e))]
  }

  ghost function RunPoints(s: Cpu, events: seq<Event>, clk: int): seq<Interval> {
    if events == [] then []
    else
      var before := events[..|events| - 1];
      RunPoints(s, before, clk) + Points(Run(s, before), events[|events| - 1], clk + Elapsed(s, before))
  }

  /** The intervals fill the time between two clocks without a gap, and none is longer than eight cycles. */
  predicate Fills(times: seq<Interval>, from: int, to: int) {
    if times == [] then from == to
    else
      var last := times[|times| - 1];
      last.to == to && last.from <= last.to <= last.from + 8 && Fills(times[..|times| - 1], from, last.from)
  }

  lemma AtMostEight(i: Instr, s: Cpu)
    ensures Cycles(i, s) <= 8
    ensures Cycles(i, s) == 8 <==> i.Rmw? && (i.mode.IndX? || i.mode.IndY?)
  {
    hide Crosses, Target, Holds;
  }

  lemma FillsMore(times: seq<Interval>, from: int, to: int, next: Interval)
    requires Fills(times, from, to) && next.from == to <= next.to <= to + 8
    ensures Fills(times + [next], from, next.to)
  {
    assert (times + [next])[..|times|] == times;
  }

  lemma FillsNone(clk: int)
    ensures Fills([], clk, clk)
  {
  }

  lemma HalvesSeven(s: Cpu, e: Event)
    ensures Halves(s, e) ==> Duration(s, e) == 7
    ensures Duration(s, e) <= 8
  {
    hide Cycles, Decode;
    AtMostEight(Fetched(s), s);
    BreakSeven(s);
  }

  lemma BreakSeven(s: Cpu)
    ensures Cycles(BRK, s) == 7
  {
  }

  lemma FillsPoints(times: seq<Interval>, clk: int, now: int, u: Cpu, e: Event)
    requires Fills(times, clk, now)
    ensures Fills(times + Points(u, e, now), clk, now + Duration(u, e))
  {
    hide Fills, Duration, Halves;
    HalvesSeven(u, e);
    if Halves(u, e) {
      var first, second := Interval(now, now + 5), Interval(now + 5, now + 7);
      FillsMore(times, clk, now, first);
      FillsMore(times + [first], clk, now + 5, second);
      assert times + [first] + [second] == times + [first, second];
    } else {
      FillsMore(times, clk, now, Interval(now, now + Duration(u, e)));
    }
  }

  /** Consecutive drain points are at most eight cycles apart, in every run. */
  lemma {:induction false} PointsFill(s: Cpu, events: seq<Event>, clk: int)
    ensures Fills(RunPoints(s, events, clk), clk, clk + Elapsed(s, events))
  {
    hide Fills, Duration, Points, Run;
    if events == [] {
      FillsNone(clk);
    } else {
      var before := events[..|events| - 1];
      PointsFill(s, before, clk);
      FillsPoints(RunPoints(s, before, clk), clk, clk + Elapsed(s, before), Run(s, before), events[|events| - 1]);
    }
  }

  // ---- Chains of pauses --------------------------------------------------------------------------

  lemma {:induction false} ChainJoins(q: Queue, env: Environment, k: nat, ps: seq<Pause>, more: seq<Pause>)
    ensures QueueAfter(q, env, k, ps + more) == QueueAfter(QueueAfter(q, env, k, ps), env, k + |ps|, more)
    ensures Chained(q, env, k, ps + more) <==> Chained(q, env, k, ps) && Chained(QueueAfter(q, env, k, ps), env, k + |ps|, more)
    ensures Times(ps + more) == Times(ps) + Times(more)
  {
    hide Processes, Left;
    if more == [] {
      assert ps + more == ps;
    } else {
      var before := more[..|more| - 1];
      assert (ps + more)[..|ps + more| - 1] == ps + before;
      ChainJoins(q, env, k, ps, before);
    }
  }

  lemma LaterKeeps(q: Queue, cs: seq<Command>, clk: int, list: seq<Alarm>)
    requires Later(cs, clk, list) && Quiet(q, clk)
    ensures Quiet(ObeyAll(q, cs), clk)
  {
    forall a | a in ObeyAll(q, cs) ensures ObeyAll(q, cs)[a] > clk {
      ObeyKeeps(q, cs, clk, a);
    }
  }

  predicate Prompt(log: seq<Dispatched>) {
    forall d :: d in log ==> d.offset <= 7
  }

  lemma DrainPrompt(q: Queue, log: seq<Dispatched>, react: (nat, Alarm) -> seq<Command>, from: int, to: int)
    requires Drains(q, log, react, to) && to <= from + 8 && Quiet(q, from)
    ensures Prompt(log)
  {
    hide Drains;
    DrainOrder(q, log, react, to);
  }

  /** Nothing is due when the CPU goes on after a pause. */
  lemma QuietAfter(q: Queue, env: Environment, k: nat, ps: seq<Pause>, from: int, to: int)
    requires Chained(q, env, k, ps) && Fills(Times(ps), from, to) && Quiet(q, from)
    ensures Quiet(QueueAfter(q, env, k, ps), to)
  {
    hide ObeyAll, Drains, Effects;
  }

  /** The lateness bound: whatever the chips do, if they are punctual, each pause of a chain that
      fills the time of the CPU dispatches nothing more than seven cycles late. */
  lemma {:induction false} ChainPrompt(q: Queue, env: Environment, list: seq<Alarm>, k: nat, ps: seq<Pause>, from: int, to: int)
    requires Punctual(env, list) && Chained(q, env, k, ps) && Fills(Times(ps), from, to) && Quiet(q, from)
    ensures forall p :: p in ps ==> Prompt(p.log)
  {
    hide Punctual, ObeyAll, Drains, Effects, Prompt;
    if ps != [] {
      var before, p := ps[..|ps| - 1], ps[|ps| - 1];
      assert ps == before + [p];
      ChainPrompt(q, env, list, k, before, from, p.at.from);
      QuietAfter(q, env, k, before, from, p.at.from);
      PausePrompt(QueueAfter(q, env, k, before), env, list, k + |before|, p);
    }
  }

  lemma PausePrompt(q: Queue, env: Environment, list: seq<Alarm>, k: nat, p: Pause)
    requires Punctual(env, list) && Processes(q, env, k, p) && Quiet(q, p.at.from) && p.at.to <= p.at.from + 8
    ensures Prompt(p.log)
  {
    hide ObeyAll, Drains, Effects, Prompt;
    LaterKeeps(q, env.sets(k, p.at.from), p.at.from, list);
    DrainPrompt(Found(q, env, k, p), p.log, Reaction(env, k, p.at.to), p.at.from, p.at.to);
  }

  /** When the i-th event begins, at its opcode fetch or at the interrupt, nothing is due. */
  lemma NothingDueAtFetch(q: Queue, env: Environment, ps: seq<Pause>, s: Cpu, events: seq<Event>, clk: int, i: nat)
    requires Chained(q, env, 0, ps) && Times(ps) == RunPoints(s, events, clk) && Quiet(q, clk) && i <= |events|
    ensures var n := |RunPoints(s, events[..i], clk)|;
            n <= |ps| && Quiet(QueueAfter(q, env, 0, ps[..n]), clk + Elapsed(s, events[..i]))
  {
    hide Points, Elapsed, Quiet, Fills, Chained, Run, RunPoints, QueueAfter, Times;
    PointsPrefix(s, events, clk, i);
    var points := RunPoints(s, events[..i], clk);
    var first, later := ps[..|points|], ps[|points|..];
    assert first + later == ps;
    ChainJoins(q, env, 0, first, later);
    assert Times(first) == points;
    PointsFill(s, events[..i], clk);
    QuietAfter(q, env, 0, first, clk, clk + Elapsed(s, events[..i]));
  }

  lemma {:induction false} PointsPrefix(s: Cpu, events: seq<Event>, clk: int, i: nat)
    requires i <= |events|
    ensures RunPoints(s, events[..i], clk) <= RunPoints(s, events, clk)
  {
    hide Points, Elapsed, Run;
    if i < |events| {
      var before := events[..|events| - 1];
      assert before[..i] == events[..i];
      PointsPrefix(s, before, clk, i);
    } else {
      assert events[..i] == events;
    }
  }

  // ---- The loop ----------------------------------------------------------------------------------

  /** The chips' settings since the last pause, and PROCESS_ALARMS. */
  method ProcessAlarms(context: AlarmContext, env: Environment, k: nat, from: int, to: int) returns (p: Pause)
    requires context.Valid() && Punctual(env, context.list) && to < CLOCK_MAX
    modifies context, context.pending, context.list
    ensures context.Valid() && context.list == old(context.list)
    ensures p.at == Interval(from, to) && Processes(old(context.queue), env, k, p)
    ensures context.queue == Left(old(context.queue), env, k, p)
  {
    hide AlarmContext.Valid, Drains, Effects, Lawful, ObeyAll;
    PerformAll(context, env.sets(k, from));
    var log := Drain(context, to, Reaction(env, k, to));
    p := Pause(Interval(from, to), log);
  }

  lemma OnePause(q: Queue, env: Environment, k: nat, p: Pause)
    requires Processes(q, env, k, p)
    ensures Chained(q, env, k, [p]) && QueueAfter(q, env, k, [p]) == Left(q, env, k, p) && Times([p]) == [p.at]
  {
    hide Processes, Left;
    assert [p][..0] == [];
    assert Chained(q, env, k, []) && QueueAfter(q, env, k, []) == q;
  }

  method FetchBreak(c: Mos6510, e: Event)
    requires c.Valid() && Fetched(c.Abs()) == BRK
    modifies c
    ensures c.Valid() && c.Abs() == Save(Skip(SetFlags(old(c.Abs()), old(c.Abs()).r.f.(b := true)), 2))
    ensures c.clk == old(c.clk) + 5
  {
    hide Save, Decode;
    var ins, p1, p2 := LumpedCore.FetchOpcode(c, e.Instruction? && e.lumpedCached);
    LumpedCore.BreakFetched(ins);
    LumpedCore.BrkSave(c);
  }

  /** The first five cycles of an event that pauses half-way save the state. */
  method FirstHalf(c: Mos6510, e: Event) returns (vector: Word)
    requires c.Valid() && Halves(c.Abs(), e)
    modifies c
    ensures c.Valid() && c.clk == old(c.clk) + 5 && Jump(c.Abs(), vector) == Next(old(c.Abs()), e)
  {
    hide Decode, Save, Isa.Jump;
    NextIs(c.Abs(), e);
    if e.Accepted? {
      LumpedCore.InterruptSave(c);
      vector := e.vector;
    } else {
      FetchBreak(c, e);
      vector := if e.nmi then 0xfffa else 0xfffe;
    }
  }

  method Divided(c: Mos6510, context: AlarmContext, e: Event, env: Environment, k: nat) returns (ps: seq<Pause>)
    requires c.Valid() && context.Valid() && Punctual(env, context.list)
    requires c.clk + 8 < CLOCK_MAX && Halves(c.Abs(), e)
    modifies c, context, context.pending, context.list
    ensures c.Valid() && c.Abs() == Next(old(c.Abs()), e) && c.clk == old(c.clk) + 7
    ensures context.Valid() && context.list == old(context.list)
    ensures Chained(old(context.queue), env, k, ps) && context.queue == QueueAfter(old(context.queue), env, k, ps)
    ensures Times(ps) == [Interval(old(c.clk), old(c.clk) + 5), Interval(old(c.clk) + 5, old(c.clk) + 7)]
  {
    hide AlarmContext.Valid, Punctual, Isa.Jump, Processes, Left, Chained, QueueAfter, Times;
    var from := c.clk;
    ghost var q := context.queue;
    var vector := FirstHalf(c, e);
    var first := ProcessAlarms(context, env, k, from, from + 5);
    OnePause(q, env, k, first);
    q := context.queue;
    LumpedCore.Vector(c, vector);
    var second := ProcessAlarms(context, env, k + 1, from + 5, from + 7);
    OnePause(q, env, k + 1, second);
    ps := [first] + [second];
    ChainJoins(old(context.queue), env, k, [first], [second]);
  }

  method Turn(c: Mos6510, context: AlarmContext, e: Event, env: Environment, k: nat) returns (ps: seq<Pause>)
    requires c.Valid() && context.Valid() && Punctual(env, context.list)
    requires c.clk + 8 < CLOCK_MAX && !Jams(c.Abs(), e)
    modifies c, context, context.pending, context.list
    ensures c.Valid() && c.Abs() == Next(old(c.Abs()), e) && c.clk == old(c.clk) + Duration(old(c.Abs()), e)
    ensures context.Valid() && context.list == old(context.list)
    ensures Chained(old(context.queue), env, k, ps) && context.queue == QueueAfter(old(context.queue), env, k, ps)
    ensures Times(ps) == Points(old(c.Abs()), e, old(c.clk))
  {
    hide AlarmContext.Valid, Punctual, Isa.Perform, DecodeAt, Cycles, Processes, Left, Chained, QueueAfter, Times;
    HalvesSeven(c.Abs(), e);
    NextIs(c.Abs(), e);
    if e.Accepted? || Decode(Load(c.mem, Trunc(c.pc))).BRK? {
      ps := Divided(c, context, e, env, k);
    } else {
      var from := c.clk;
      ghost var q := context.queue;
      var _ := LumpedCore.Step(c, e.lumpedCached, e.nmi);
      var p := ProcessAlarms(context, env, k, from, c.clk);
      OnePause(q, env, k, p);
      ps := [p];
    }
  }

  /** The loop, for every program, every sequence of accepted interrupts and every punctual
      environment.  Its pauses are those of the core, each drains what the one before it and the
      chips have left, and nothing is dispatched more than seven cycles late. */
  method Loop(c: Mos6510, context: AlarmContext, events: seq<Event>, env: Environment) returns (ps: seq<Pause>)
    requires c.Valid() && context.Valid() && Punctual(env, context.list) && Quiet(context.queue, c.clk)
    requires Smooth(c.Abs(), events) && c.clk + 8 * |events| < CLOCK_MAX
    modifies c, context, context.pending, context.list
    ensures c.Valid() && c.Abs() == Run(old(c.Abs()), events) && c.clk == old(c.clk) + Elapsed(old(c.Abs()), events)
    ensures context.Valid() && context.list == old(context.list)
    ensures Chained(old(context.queue), env, 0, ps) && context.queue == QueueAfter(old(context.queue), env, 0, ps)
    ensures Times(ps) == RunPoints(old(c.Abs()), events, old(c.clk))
    ensures Quiet(context.queue, c.clk) && forall p :: p in ps ==> Prompt(p.log)
  {
    hide AlarmContext.Valid, Punctual, Quiet, Run, Elapsed, Smooth, Prompt, Duration, Processes, Left, Chained, QueueAfter, Times, Points, RunPoints, Fills;
    ghost var s, clk, q := c.Abs(), c.clk, context.queue;
    ps := [];
    LoopNone(s, events, clk, q, env);
    var i := 0;
    while i < |events|
      invariant 0 <= i <= |events|
      invariant c.Valid() && c.Abs() == Run(s, events[..i]) && c.clk == clk + Elapsed(s, events[..i])
      invariant c.clk <= clk + 8 * i
      invariant context.Valid() && context.list == old(context.list)
      invariant Chained(q, env, 0, ps) && context.queue == QueueAfter(q, env, 0, ps)
      invariant Times(ps) == RunPoints(s, events[..i], clk)
    {
      SmoothPrefix(s, events, i + 1);
      RunExtends(s, events, i);
      HalvesSeven(c.Abs(), events[i]);
      PointsExtend(s, events, clk, i);
      ghost var before := context.queue;
      var more := Turn(c, context, events[i], env, |ps|);
      ChainJoins(q, env, 0, ps, more);
      ps := ps + more;
      i := i + 1;
    }
    assert events[..i] == events;
    PointsFill(s, events, clk);
    QuietAfter(q, env, 0, ps, clk, c.clk);
    ChainPrompt(q, env, context.list, 0, ps, clk, c.clk);
  }

  lemma LoopNone(s: Cpu, events: seq<Event>, clk: int, q: Queue, env: Environment)
    ensures Run(s, events[..0]) == s && Elapsed(s, events[..0]) == 0 && RunPoints(s, events[..0], clk) == []
    ensures Chained(q, env, 0, []) && QueueAfter(q, env, 0, []) == q && Times([]) == []
  {
  }

  lemma PointsExtend(s: Cpu, events: seq<Event>, clk: int, i: nat)
    requires i < |events|
    ensures RunPoints(s, events[..i + 1], clk)
         == RunPoints(s, events[..i], clk) + Points(Run(s, events[..i]), events[i], clk + Elapsed(s, events[..i]))
  {
    hide Points, Run, Elapsed;
    assert events[..i + 1][..i] == events[..i];
  }
}
