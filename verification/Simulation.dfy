/** The two 6510 cores simulate each other over whole runs: started alike, they agree on every
    register, on memory and on the clock after every instruction and interrupt, for every
    program.  They agree because both refine the reference machine of Isa. */
module Simulation {
  import opened Words
  import opened Isa
  import opened MosCpu
  import opened Runs
  import LumpedCore
  import SteppedCore

  method LumpedEvent(c: Mos6510, e: Event)
    requires c.Valid() && !Jams(c.Abs(), e)
    modifies c
    ensures c.Valid() && c.Abs() == Next(old(c.Abs()), e)
    ensures c.clk == old(c.clk) + Duration(old(c.Abs()), e)
  {
    NextIs(c.Abs(), e);
    match e
    case Instruction(cached, _, nmi) => var _ := LumpedCore.Step(c, cached, nmi);
    case Accepted(vector) => LumpedCore.DoInterrupt(c, vector);
  }

  method SteppedEvent(c: Mos6510, e: Event)
    requires c.Valid() && !Jams(c.Abs(), e)
    modifies c
    ensures c.Valid() && c.Abs() == Next(old(c.Abs()), e)
    ensures c.clk == old(c.clk) + Duration(old(c.Abs()), e)
  {
    NextIs(c.Abs(), e);
    match e
    case Instruction(_, cached, nmi) => var _ := SteppedCore.Step(c, cached, nmi);
    case Accepted(vector) => SteppedCore.DoInterrupt(c, vector);
  }

  method BothEvent(lumped: Mos6510, stepped: Mos6510, e: Event)
    requires lumped != stepped && lumped.Valid() && stepped.Valid()
    requires lumped.Abs() == stepped.Abs() && lumped.clk == stepped.clk
    requires !Jams(lumped.Abs(), e)
    modifies lumped, stepped
    ensures lumped.Valid() && stepped.Valid()
    ensures lumped.Abs() == stepped.Abs() == Next(old(lumped.Abs()), e)
    ensures lumped.clk == stepped.clk == old(lumped.clk) + Duration(old(lumped.Abs()), e)
  {
    LumpedEvent(lumped, e);
    SteppedEvent(stepped, e);
  }

  method WouldJam(c: Mos6510, e: Event) returns (jammed: bool)
    ensures jammed == Jams(c.Abs(), e)
  {
    jammed := e.Instruction? && Decode(Load(c.mem, Trunc(c.pc))).JAM?;
  }

  /** Both machines are in the state that the reference machine reaches by these events. */
  ghost predicate Agree(lumped: Mos6510, stepped: Mos6510, s: Cpu, clk: nat, events: seq<Event>)
    reads lumped, stepped
  {
    && lumped.Valid() && stepped.Valid()
    && lumped.Abs() == stepped.Abs() == Run(s, events)
    && lumped.clk == stepped.clk == clk + Elapsed(s, events)
  }

  /** Both cores through the same events, until one of them would jam; they then jam together. */
  method Lockstep(lumped: Mos6510, stepped: Mos6510, events: seq<Event>) returns (done: nat)
    requires lumped != stepped && lumped.Valid() && stepped.Valid()
    requires lumped.Abs() == stepped.Abs() && lumped.clk == stepped.clk
    modifies lumped, stepped
    ensures done <= |events| && Agree(lumped, stepped, old(lumped.Abs()), old(lumped.clk), events[..done])
    ensures Smooth(old(lumped.Abs()), events[..done])
    ensures done < |events| ==> !Smooth(old(lumped.Abs()), events[..done + 1])
    ensures done == |events| <==> Smooth(old(lumped.Abs()), events)
  {
    ghost var s, clk := lumped.Abs(), lumped.clk;
    done := 0;
    var jammed := false;
    while done < |events| && !jammed
      invariant done <= |events| && Agree(lumped, stepped, s, clk, events[..done])
      invariant Smooth(s, events[..done]) && (jammed ==> done < |events| && !Smooth(s, events[..done + 1]))
      decreases |events| - done, !jammed
    {
      jammed := WouldJam(lumped, events[done]);
      RunExtends(s, events, done);
      if !jammed {
        BothEvent(lumped, stepped, events[done]);
        done := done + 1;
      }
    }
    SmoothUpTo(s, events, done);
  }
}
