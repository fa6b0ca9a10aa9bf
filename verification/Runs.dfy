/** Runs of the 6510: what happens between two turns of the interpreter loop, and the state and
    the time any sequence of it leads to. */
module Runs {
  import opened Words
  import opened Isa

  /** What the interpreter loop does next: run an instruction, each core fetching it from cached
      memory or not and an NMI taking over if it is BRK or not, or take an interrupt that was accepted. */
  datatype Event = Instruction(lumpedCached: bool, steppedCached: bool, nmi: bool) | Accepted(vector: Word)

  predicate Jams(s: Cpu, e: Event) {
    e.Instruction? && Fetched(s).JAM?
  }

  function Outcome(s: Cpu, e: Event): Cpu {
    match e
    case Instruction(_, _, nmi) => Step(s, nmi)
    case Accepted(vector) => Interrupt(s, vector)
  }

  ghost predicate LeadsTo(s: Cpu, e: Event, t: Cpu) {
    forall d {:trigger Outcome(s, d)} :: d == e ==> t == Outcome(s, d)
  }

  /** The outcome of an event, folded: facts about whole runs do not look into instructions. */
  ghost function Next(s: Cpu, e: Event): (t: Cpu)
    ensures LeadsTo(s, e, t)
  {
    assert LeadsTo(s, e, Outcome(s, e));
    var t :| LeadsTo(s, e, t);
    t
  }

  lemma NextIs(s: Cpu, e: Event)
    ensures Next(s, e) == Outcome(s, e)
  {
  }

  function Duration(s: Cpu, e: Event): nat {
    match e
    case Instruction(_, _, _) => Cycles(Fetched(s), s)
    case Accepted(_) => 7
  }

  ghost function Run(s: Cpu, events: seq<Event>): Cpu {
    if events == [] then s else Next(Run(s, events[..|events| - 1]), events[|events| - 1])
  }

  ghost function Elapsed(s: Cpu, events: seq<Event>): nat {
    if events == [] then 0
    else
      var before := events[..|events| - 1];
      Elapsed(s, before) + Duration(Run(s, before), events[|events| - 1])
  }

  /** No opcode that jams the processor is executed. */
  ghost predicate Smooth(s: Cpu, events: seq<Event>) {
    events == []
    || (Smooth(s, events[..|events| - 1]) && !Jams(Run(s, events[..|events| - 1]), events[|events| - 1]))
  }

  /** A run may be cut anywhere. */
  lemma {:induction false} RunSplits(s: Cpu, first: seq<Event>, second: seq<Event>)
    ensures Run(s, first + second) == Run(Run(s, first), second)
    ensures Elapsed(s, first + second) == Elapsed(s, first) + Elapsed(Run(s, first), second)
  {
    if second == [] {
      assert first + second == first;
    } else {
      var before := second[..|second| - 1];
      assert (first + second)[..|first + second| - 1] == first + before;
      RunSplits(s, first, before);
    }
  }

  lemma RunExtends(s: Cpu, events: seq<Event>, k: nat)
    requires k < |events|
    ensures Run(s, events[..k + 1]) == Next(Run(s, events[..k]), events[k])
    ensures Elapsed(s, events[..k + 1]) == Elapsed(s, events[..k]) + Duration(Run(s, events[..k]), events[k])
    ensures Smooth(s, events[..k + 1]) <==> Smooth(s, events[..k]) && !Jams(Run(s, events[..k]), events[k])
  {
    assert events[..k + 1][..k] == events[..k];
  }

  lemma {:induction false} SmoothPrefix(s: Cpu, events: seq<Event>, k: nat)
    requires k <= |events| && Smooth(s, events)
    ensures Smooth(s, events[..k])
  {
    if k < |events| {
      var before := events[..|events| - 1];
      assert before[..k] == events[..k];
      SmoothPrefix(s, before, k);
    } else {
      assert events[..k] == events;
    }
  }

  lemma SmoothUpTo(s: Cpu, events: seq<Event>, k: nat)
    requires k <= |events| && Smooth(s, events[..k])
    requires k < |events| ==> !Smooth(s, events[..k + 1])
    ensures k == |events| <==> Smooth(s, events)
  {
    if k == |events| {
      assert events[..k] == events;
    } else if Smooth(s, events) {
      SmoothPrefix(s, events, k + 1);
    }
  }
}
