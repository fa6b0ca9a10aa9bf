/** The opcode switch of the lumped-clock core, and its agreement with the opcode matrix. */
module LumpedSwitch {
  import opened Words
  import opened Isa

  // ---- The opcode switch ---------------------------------------------------------------

  /** How an operand is loaded, named after the macro that loads it. */
  datatype LoadMacro =
    | Operand | LoadZero | LoadZeroX | LoadZeroY | LoadAbs | LoadAbsX | LoadAbsY | LoadIndX | LoadIndY

  /** The address argument of a store or a read-modify-write macro. */
  datatype AddrMacro = P1 | P1X | P1Y | P2 | IndirectX

  /** Which register the load and store functions passed to a macro add to its address. */
  datatype Indexing = Plain | PlusX | PlusY

  datatype Macro =
    | Value(op: ReadOp, load: LoadMacro, clkInc: nat, pcInc: nat)
    | Change(mop: RmwOp, addr: AddrMacro, clkInc: nat, pcInc: nat, indexing: Indexing)
    | ChangeIndY(mop: RmwOp)
    | Put(sop: StoreOp, addr: AddrMacro, clkInc: nat, pcInc: nat, indexing: Indexing)
    | PutIndY | ShaIndY | PutMasked(sop: StoreOp, indexing: Indexing)
    | Single(iop: ImpliedOp) | BranchIf(cond: Condition, when: bool)
    | Brk | Jsr | Rti | Rts | Jmp | JmpInd | Php | Plp | Pha | Pla | Jam

  /** The switch over the opcode, with the clock and program counter increments it passes on. */
  function Switch(ins: Byte): Macro {
    SwitchAt(ins / 0x20, ins)
  }

  function SwitchAt(row: Byte, ins: Byte): Macro {
    match row
    case 0 => Switch0(ins) case 1 => Switch1(ins) case 2 => Switch2(ins) case 3 => Switch3(ins)
    case 4 => Switch4(ins) case 5 => Switch5(ins) case 6 => Switch6(ins) case _ => Switch7(ins)
  }

  function Switch0(ins: Byte): Macro {
    match ins
    case 0x00 => Brk case 0x01 => Value(ORA, LoadIndX, 1, 2) case 0x03 => Change(SLO, IndirectX, 1 + 2, 2, Plain)
    case 0x04 => Value(NOOP, LoadZero, 1, 2) case 0x05 => Value(ORA, LoadZero, 1, 2)
    case 0x06 => Change(ASL, P1, 0, 2, Plain) case 0x07 => Change(SLO, P1, 0, 2, Plain) case 0x08 => Php
    case 0x09 => Value(ORA, Operand, 0, 2) case 0x0a => Single(ASL_A) case 0x0b => Value(ANC, Operand, 0, 2)
    case 0x0c => Value(NOOP, LoadAbs, 1, 3) case 0x0d => Value(ORA, LoadAbs, 1, 3)
    case 0x0e => Change(ASL, P2, 0, 3, Plain) case 0x0f => Change(SLO, P2, 0, 3, Plain) case 0x10 => BranchIf(Sign, false)
    case 0x11 => Value(ORA, LoadIndY, 1, 2) case 0x13 => ChangeIndY(SLO) case 0x14 => Value(NOOP, LoadZeroX, 2, 2)
    case 0x15 => Value(ORA, LoadZeroX, 2, 2) case 0x16 => Change(ASL, P1X, 1, 2, Plain)
    case 0x17 => Change(SLO, P1X, 1, 2, Plain) case 0x18 => Single(CLC) case 0x19 => Value(ORA, LoadAbsY, 1, 3)
    case 0x1a => Single(NOP) case 0x1b => Change(SLO, P2, 0, 3, PlusY) case 0x1c => Value(NOOP, LoadAbsX, 1, 3)
    case 0x1d => Value(ORA, LoadAbsX, 1, 3) case 0x1e => Change(ASL, P2, 0, 3, PlusX)
    case 0x1f => Change(SLO, P2, 0, 3, PlusX) case _ => Jam
  }

  function Switch1(ins: Byte): Macro {
    match ins
    case 0x20 => Jsr case 0x21 => Value(AND, LoadIndX, 1, 2) case 0x23 => Change(RLA, IndirectX, 1 + 2, 2, Plain)
    case 0x24 => Value(BIT, LoadZero, 1, 2) case 0x25 => Value(AND, LoadZero, 1, 2)
    case 0x26 => Change(ROL, P1, 0, 2, Plain) case 0x27 => Change(RLA, P1, 0, 2, Plain) case 0x28 => Plp
    case 0x29 => Value(AND, Operand, 0, 2) case 0x2a => Single(ROL_A) case 0x2b => Value(ANC, Operand, 0, 2)
    case 0x2c => Value(BIT, LoadAbs, 1, 3) case 0x2d => Value(AND, LoadAbs, 1, 3)
    case 0x2e => Change(ROL, P2, 0, 3, Plain) case 0x2f => Change(RLA, P2, 0, 3, Plain) case 0x30 => BranchIf(Sign, true)
    case 0x31 => Value(AND, LoadIndY, 1, 2) case 0x33 => ChangeIndY(RLA) case 0x34 => Value(NOOP, LoadZeroX, 2, 2)
    case 0x35 => Value(AND, LoadZeroX, 2, 2) case 0x36 => Change(ROL, P1X, 1, 2, Plain)
    case 0x37 => Change(RLA, P1X, 1, 2, Plain) case 0x38 => Single(SEC) case 0x39 => Value(AND, LoadAbsY, 1, 3)
    case 0x3a => Single(NOP) case 0x3b => Change(RLA, P2, 0, 3, PlusY) case 0x3c => Value(NOOP, LoadAbsX, 1, 3)
    case 0x3d => Value(AND, LoadAbsX, 1, 3) case 0x3e => Change(ROL, P2, 0, 3, PlusX)
    case 0x3f => Change(RLA, P2, 0, 3, PlusX) case _ => Jam
  }

  function Switch2(ins: Byte): Macro {
    match ins
    case 0x40 => Rti case 0x41 => Value(EOR, LoadIndX, 1, 2) case 0x43 => Change(SRE, IndirectX, 1 + 2, 2, Plain)
    case 0x44 => Value(NOOP, LoadZero, 1, 2) case 0x45 => Value(EOR, LoadZero, 1, 2)
    case 0x46 => Change(LSR, P1, 0, 2, Plain) case 0x47 => Change(SRE, P1, 0, 2, Plain) case 0x48 => Pha
    case 0x49 => Value(EOR, Operand, 0, 2) case 0x4a => Single(LSR_A) case 0x4b => Value(ASR, Operand, 0, 2)
    case 0x4c => Jmp case 0x4d => Value(EOR, LoadAbs, 1, 3) case 0x4e => Change(LSR, P2, 0, 3, Plain)
    case 0x4f => Change(SRE, P2, 0, 3, Plain) case 0x50 => BranchIf(Overflow, false)
    case 0x51 => Value(EOR, LoadIndY, 1, 2) case 0x53 => ChangeIndY(SRE) case 0x54 => Value(NOOP, LoadZeroX, 2, 2)
    case 0x55 => Value(EOR, LoadZeroX, 2, 2) case 0x56 => Change(LSR, P1X, 1, 2, Plain)
    case 0x57 => Change(SRE, P1X, 1, 2, Plain) case 0x58 => Single(CLI) case 0x59 => Value(EOR, LoadAbsY, 1, 3)
    case 0x5a => Single(NOP) case 0x5b => Change(SRE, P2, 0, 3, PlusY) case 0x5c => Value(NOOP, LoadAbsX, 1, 3)
    case 0x5d => Value(EOR, LoadAbsX, 1, 3) case 0x5e => Change(LSR, P2, 0, 3, PlusX)
    case 0x5f => Change(SRE, P2, 0, 3, PlusX) case _ => Jam
  }

  function Switch3(ins: Byte): Macro {
    match ins
    case 0x60 => Rts case 0x61 => Value(ADC, LoadIndX, 1, 2) case 0x63 => Change(RRA, IndirectX, 1 + 2, 2, Plain)
    case 0x64 => Value(NOOP, LoadZero, 1, 2) case 0x65 => Value(ADC, LoadZero, 1, 2)
    case 0x66 => Change(ROR, P1, 0, 2, Plain) case 0x67 => Change(RRA, P1, 0, 2, Plain) case 0x68 => Pla
    case 0x69 => Value(ADC, Operand, 0, 2) case 0x6a => Single(ROR_A) case 0x6b => Value(ARR, Operand, 0, 2)
    case 0x6c => JmpInd case 0x6d => Value(ADC, LoadAbs, 1, 3) case 0x6e => Change(ROR, P2, 0, 3, Plain)
    case 0x6f => Change(RRA, P2, 0, 3, Plain) case 0x70 => BranchIf(Overflow, true) case 0x71 => Value(ADC, LoadIndY, 1, 2)
    case 0x73 => ChangeIndY(RRA) case 0x74 => Value(NOOP, LoadZeroX, 2, 2) case 0x75 => Value(ADC, LoadZeroX, 2, 2)
    case 0x76 => Change(ROR, P1X, 1, 2, Plain) case 0x77 => Change(RRA, P1X, 1, 2, Plain) case 0x78 => Single(SEI)
    case 0x79 => Value(ADC, LoadAbsY, 1, 3) case 0x7a => Single(NOP) case 0x7b => Change(RRA, P2, 0, 3, PlusY)
    case 0x7c => Value(NOOP, LoadAbsX, 1, 3) case 0x7d => Value(ADC, LoadAbsX, 1, 3)
    case 0x7e => Change(ROR, P2, 0, 3, PlusX) case 0x7f => Change(RRA, P2, 0, 3, PlusX) case _ => Jam
  }

  function Switch4(ins: Byte): Macro {
    match ins
    case 0x80 | 0x82 | 0x89 => Value(NOOP, Operand, 0, 2) case 0x81 => Put(STA, IndirectX, 3 + 1, 2, Plain)
    case 0x83 => Put(SAX, IndirectX, 3 + 1, 2, Plain) case 0x84 => Put(STY, P1, 1, 2, Plain)
    case 0x85 => Put(STA, P1, 1, 2, Plain) case 0x86 => Put(STX, P1, 1, 2, Plain)
    case 0x87 => Put(SAX, P1, 1, 2, Plain) case 0x88 => Single(DEY) case 0x8a => Single(TXA)
    case 0x8b => Value(ANE, Operand, 0, 2) case 0x8c => Put(STY, P2, 1, 3, Plain)
    case 0x8d => Put(STA, P2, 1, 3, Plain) case 0x8e => Put(STX, P2, 1, 3, Plain)
    case 0x8f => Put(SAX, P2, 1, 3, Plain) case 0x90 => BranchIf(Carry, false) case 0x91 => PutIndY
    case 0x93 => ShaIndY case 0x94 => Put(STY, P1X, 2, 2, Plain) case 0x95 => Put(STA, P1X, 2, 2, Plain)
    case 0x96 => Put(STX, P1Y, 2, 2, Plain) case 0x97 => Put(SAX, P1Y, 2, 2, Plain) case 0x98 => Single(TYA)
    case 0x99 => Put(STA, P2, 2, 3, PlusY) case 0x9a => Single(TXS) case 0x9b => PutMasked(SHS, PlusY)
    case 0x9c => PutMasked(SHY, PlusX) case 0x9d => Put(STA, P2, 2, 3, PlusX) case 0x9e => PutMasked(SHX, PlusY)
    case 0x9f => PutMasked(SHA, PlusY) case _ => Jam
  }

  function Switch5(ins: Byte): Macro {
    match ins
    case 0xa0 => Value(LDY, Operand, 0, 2) case 0xa1 => Value(LDA, LoadIndX, 1, 2)
    case 0xa2 => Value(LDX, Operand, 0, 2) case 0xa3 => Value(LAX, LoadIndX, 1, 2)
    case 0xa4 => Value(LDY, LoadZero, 1, 2) case 0xa5 => Value(LDA, LoadZero, 1, 2)
    case 0xa6 => Value(LDX, LoadZero, 1, 2) case 0xa7 => Value(LAX, LoadZero, 1, 2) case 0xa8 => Single(TAY)
    case 0xa9 => Value(LDA, Operand, 0, 2) case 0xaa => Single(TAX) case 0xab => Value(LXA, Operand, 0, 2)
    case 0xac => Value(LDY, LoadAbs, 1, 3) case 0xad => Value(LDA, LoadAbs, 1, 3)
    case 0xae => Value(LDX, LoadAbs, 1, 3) case 0xaf => Value(LAX, LoadAbs, 1, 3) case 0xb0 => BranchIf(Carry, true)
    case 0xb1 => Value(LDA, LoadIndY, 1, 2) case 0xb3 => Value(LAX, LoadIndY, 1, 2)
    case 0xb4 => Value(LDY, LoadZeroX, 2, 2) case 0xb5 => Value(LDA, LoadZeroX, 2, 2)
    case 0xb6 => Value(LDX, LoadZeroY, 2, 2) case 0xb7 => Value(LAX, LoadZeroY, 2, 2) case 0xb8 => Single(CLV)
    case 0xb9 => Value(LDA, LoadAbsY, 1, 3) case 0xba => Single(TSX) case 0xbb => Value(LAS, LoadAbsY, 1, 3)
    case 0xbc => Value(LDY, LoadAbsX, 1, 3) case 0xbd => Value(LDA, LoadAbsX, 1, 3)
    case 0xbe => Value(LDX, LoadAbsY, 1, 3) case 0xbf => Value(LAX, LoadAbsY, 1, 3) case _ => Jam
  }

  function Switch6(ins: Byte): Macro {
    match ins
    case 0xc0 => Value(CPY, Operand, 0, 2) case 0xc1 => Value(CMP, LoadIndX, 1, 2)
    case 0xc2 => Value(NOOP, Operand, 0, 2) case 0xc3 => Change(DCP, IndirectX, 1 + 2, 2, Plain)
    case 0xc4 => Value(CPY, LoadZero, 1, 2) case 0xc5 => Value(CMP, LoadZero, 1, 2)
    case 0xc6 => Change(DEC, P1, 0, 2, Plain) case 0xc7 => Change(DCP, P1, 0, 2, Plain) case 0xc8 => Single(INY)
    case 0xc9 => Value(CMP, Operand, 0, 2) case 0xca => Single(DEX) case 0xcb => Value(SBX, Operand, 0, 2)
    case 0xcc => Value(CPY, LoadAbs, 1, 3) case 0xcd => Value(CMP, LoadAbs, 1, 3)
    case 0xce => Change(DEC, P2, 0, 3, Plain) case 0xcf => Change(DCP, P2, 0, 3, Plain) case 0xd0 => BranchIf(Zero, false)
    case 0xd1 => Value(CMP, LoadIndY, 1, 2) case 0xd3 => ChangeIndY(DCP) case 0xd4 => Value(NOOP, LoadZeroX, 2, 2)
    case 0xd5 => Value(CMP, LoadZeroX, 2, 2) case 0xd6 => Change(DEC, P1X, 1, 2, Plain)
    case 0xd7 => Change(DCP, P1X, 1, 2, Plain) case 0xd8 => Single(CLD) case 0xd9 => Value(CMP, LoadAbsY, 1, 3)
    case 0xda => Single(NOP) case 0xdb => Change(DCP, P2, 0, 3, PlusY) case 0xdc => Value(NOOP, LoadAbsX, 1, 3)
    case 0xdd => Value(CMP, LoadAbsX, 1, 3) case 0xde => Change(DEC, P2, 0, 3, PlusX)
    case 0xdf => Change(DCP, P2, 0, 3, PlusX) case _ => Jam
  }

  function Switch7(ins: Byte): Macro {
    match ins
    case 0xe0 => Value(CPX, Operand, 0, 2) case 0xe1 => Value(SBC, LoadIndX, 1, 2)
    case 0xe2 => Value(NOOP, Operand, 0, 2) case 0xe3 => Change(ISB, IndirectX, 1 + 2, 2, Plain)
    case 0xe4 => Value(CPX, LoadZero, 1, 2) case 0xe5 => Value(SBC, LoadZero, 1, 2)
    case 0xe6 => Change(INC, P1, 0, 2, Plain) case 0xe7 => Change(ISB, P1, 0, 2, Plain) case 0xe8 => Single(INX)
    case 0xe9 | 0xeb => Value(SBC, Operand, 0, 2) case 0xea | 0xfa => Single(NOP)
    case 0xec => Value(CPX, LoadAbs, 1, 3) case 0xed => Value(SBC, LoadAbs, 1, 3)
    case 0xee => Change(INC, P2, 0, 3, Plain) case 0xef => Change(ISB, P2, 0, 3, Plain) case 0xf0 => BranchIf(Zero, true)
    case 0xf1 => Value(SBC, LoadIndY, 1, 2) case 0xf3 => ChangeIndY(ISB) case 0xf4 => Value(NOOP, LoadZeroX, 2, 2)
    case 0xf5 => Value(SBC, LoadZeroX, 2, 2) case 0xf6 => Change(INC, P1X, 1, 2, Plain)
    case 0xf7 => Change(ISB, P1X, 1, 2, Plain) case 0xf8 => Single(SED) case 0xf9 => Value(SBC, LoadAbsY, 1, 3)
    case 0xfb => Change(ISB, P2, 0, 3, PlusY) case 0xfc => Value(NOOP, LoadAbsX, 1, 3)
    case 0xfd => Value(SBC, LoadAbsX, 1, 3) case 0xfe => Change(INC, P2, 0, 3, PlusX)
    case 0xff => Change(ISB, P2, 0, 3, PlusX) case _ => Jam
  }

  function LoadMode(load: LoadMacro): Mode {
    match load
    case Operand => Imm case LoadZero => Zp case LoadZeroX => ZpX case LoadZeroY => ZpY case LoadAbs => Abs
    case LoadAbsX => AbsX case LoadAbsY => AbsY case LoadIndX => IndX case LoadIndY => IndY
  }

  /** The cycles a load macro charges, page crossing apart. */
  function LoadClk(load: LoadMacro): nat {
    match load case LoadIndX => 3 case LoadIndY => 2 case _ => 0
  }

  /** Only absolute addresses are combined with indexed accesses. */
  predicate Meaningful(addr: AddrMacro, indexing: Indexing) {
    indexing.Plain? || addr.P2?
  }

  function AddrMode(addr: AddrMacro, indexing: Indexing): Mode {
    match addr
    case P1 => Zp case P1X => ZpX case P1Y => ZpY case IndirectX => IndX
    case P2 => match indexing case Plain => Abs case PlusX => AbsX case PlusY => AbsY
  }

  function LoadFor(mode: Mode): LoadMacro {
    match mode
    case Imm => Operand case Zp => LoadZero case ZpX => LoadZeroX case ZpY => LoadZeroY case Abs => LoadAbs
    case AbsX => LoadAbsX case AbsY => LoadAbsY case IndX => LoadIndX case IndY => LoadIndY
  }

  function AddrFor(mode: Mode): AddrMacro {
    match mode case Zp => P1 case ZpX => P1X case ZpY => P1Y case IndX => IndirectX case _ => P2
  }

  function IndexingFor(mode: Mode): Indexing {
    match mode case AbsX => PlusX case AbsY => PlusY case _ => Plain
  }

  /** What the prefix of a read-modify-write opcode charges before the macro starts. */
  function RmwClk(mode: Mode): nat {
    match mode case ZpX => 1 case ZpY => 1 case IndX => 3 case _ => 0
  }

  /** The macro an instruction needs: its increments are what its cycles leave after the cycles
      of the fetch and of the load. */
  function MacroFor(i: Instr): Macro {
    match i
    case Read(op, mode) =>
      Value(op, LoadFor(mode), ReadCycles(mode) - LoadClk(LoadFor(mode)) - Length(mode), Length(mode))
    case Rmw(op, mode) =>
      if mode.IndY? then ChangeIndY(op)
      else Change(op, AddrFor(mode), RmwClk(mode), Length(mode), IndexingFor(mode))
    case Store(op, mode) =>
      if mode.IndY? then (if op.SHA? then ShaIndY else PutIndY)
      else if Unmasked(op) then Put(op, AddrFor(mode), StoreCycles(mode) - Length(mode), Length(mode), IndexingFor(mode))
      else PutMasked(op, IndexingFor(mode))
    case Implied(op) => Single(op)
    case Branch(cond, when) => BranchIf(cond, when)
    case BRK => Brk case JSR => Jsr case RTI => Rti case RTS => Rts case JMP => Jmp case JMP_IND => JmpInd
    case PHP => Php case PHA => Pha case PLP => Plp case PLA => Pla case JAM => Jam
  }

  /** The switch and the opcode matrix agree on the opcode of this row, column and block. */
  predicate Agrees(ins: Byte, row: Byte, column: Byte, block: Byte) {
    ins == 32 * row + 4 * column + block && row < 8 && column < 8 && block < 4
    ==> SwitchAt(row, ins) == MacroFor(DecodeAt(row, column, block))
  }

  lemma SwitchRow0Low(ins: Byte, column: Byte, block: Byte)
    requires column < 4
    ensures Agrees(ins, 0, column, block)
  {
    if block == 0 {
    } else if block == 1 {
    } else if block == 2 {
    }
  }

  lemma SwitchRow0High(ins: Byte, column: Byte, block: Byte)
    requires column >= 4
    ensures Agrees(ins, 0, column, block)
  {
    if block == 0 {
    } else if block == 1 {
    } else if block == 2 {
    }
  }

  lemma SwitchRow1Low(ins: Byte, column: Byte, block: Byte)
    requires column < 4
    ensures Agrees(ins, 1, column, block)
  {
    if block == 0 {
    } else if block == 1 {
    } else if block == 2 {
    }
  }

  lemma SwitchRow1High(ins: Byte, column: Byte, block: Byte)
    requires column >= 4
    ensures Agrees(ins, 1, column, block)
  {
    if block == 0 {
    } else if block == 1 {
    } else if block == 2 {
    }
  }

  lemma SwitchRow2Low(ins: Byte, column: Byte, block: Byte)
    requires column < 4
    ensures Agrees(ins, 2, column, block)
  {
    if block == 0 {
    } else if block == 1 {
    } else if block == 2 {
    }
  }

  lemma SwitchRow2High(ins: Byte, column: Byte, block: Byte)
    requires column >= 4
    ensures Agrees(ins, 2, column, block)
  {
    if block == 0 {
    } else if block == 1 {
    } else if block == 2 {
    }
  }

  lemma SwitchRow3Low(ins: Byte, column: Byte, block: Byte)
    requires column < 4
    ensures Agrees(ins, 3, column, block)
  {
    if block == 0 {
    } else if block == 1 {
    } else if block == 2 {
    }
  }

  lemma SwitchRow3High(ins: Byte, column: Byte, block: Byte)
    requires column >= 4
    ensures Agrees(ins, 3, column, block)
  {
    if block == 0 {
    } else if block == 1 {
    } else if block == 2 {
    }
  }

  lemma SwitchRow4Low(ins: Byte, column: Byte, block: Byte)
    requires column < 4
    ensures Agrees(ins, 4, column, block)
  {
    if block == 0 {
    } else if block == 1 {
    } else if block == 2 {
    }
  }

  lemma SwitchRow4High(ins: Byte, column: Byte, block: Byte)
    requires column >= 4
    ensures Agrees(ins, 4, column, block)
  {
    if block == 0 {
    } else if block == 1 {
    } else if block == 2 {
    }
  }

  lemma SwitchRow5Low(ins: Byte, column: Byte, block: Byte)
    requires column < 4
    ensures Agrees(ins, 5, column, block)
  {
    if block == 0 {
    } else if block == 1 {
    } else if block == 2 {
    }
  }

  lemma SwitchRow5High(ins: Byte, column: Byte, block: Byte)
    requires column >= 4
    ensures Agrees(ins, 5, column, block)
  {
    if block == 0 {
    } else if block == 1 {
    } else if block == 2 {
    }
  }

  lemma SwitchRow6Low(ins: Byte, column: Byte, block: Byte)
    requires column < 4
    ensures Agrees(ins, 6, column, block)
  {
    if block == 0 {
    } else if block == 1 {
    } else if block == 2 {
    }
  }

  lemma SwitchRow6High(ins: Byte, column: Byte, block: Byte)
    requires column >= 4
    ensures Agrees(ins, 6, column, block)
  {
    if block == 0 {
    } else if block == 1 {
    } else if block == 2 {
    }
  }

  lemma SwitchRow7Low(ins: Byte, column: Byte, block: Byte)
    requires column < 4
    ensures Agrees(ins, 7, column, block)
  {
    if block == 0 {
    } else if block == 1 {
    } else if block == 2 {
    }
  }

  lemma SwitchRow7High(ins: Byte, column: Byte, block: Byte)
    requires column >= 4
    ensures Agrees(ins, 7, column, block)
  {
    if block == 0 {
    } else if block == 1 {
    } else if block == 2 {
    }
  }

  lemma RowsAgree(ins: Byte, row: Byte, column: Byte, block: Byte)
    ensures Agrees(ins, row, column, block)
  {
    hide MacroFor, SwitchAt;
    if column < 4 {
      SwitchRow0Low(ins, column, block);
      SwitchRow1Low(ins, column, block);
      SwitchRow2Low(ins, column, block);
      SwitchRow3Low(ins, column, block);
      SwitchRow4Low(ins, column, block);
      SwitchRow5Low(ins, column, block);
      SwitchRow6Low(ins, column, block);
      SwitchRow7Low(ins, column, block);
    } else {
      SwitchRow0High(ins, column, block);
      SwitchRow1High(ins, column, block);
      SwitchRow2High(ins, column, block);
      SwitchRow3High(ins, column, block);
      SwitchRow4High(ins, column, block);
      SwitchRow5High(ins, column, block);
      SwitchRow6High(ins, column, block);
      SwitchRow7High(ins, column, block);
    }
  }

  lemma SwitchDecodes(ins: Byte)
    ensures Switch(ins) == MacroFor(Decode(ins))
  {
    OpcodeParts(ins);
    RowsAgree(ins, ins / 32, ins / 4 % 8, ins % 4);
  }
}
