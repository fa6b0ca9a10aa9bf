/** The opcode switch of the cycle-stepped core, and its agreement with the opcode matrix. */
module SteppedSwitch {
  import opened Words
  import opened Isa

  // ---- The opcode switch ---------------------------------------------------------------

  /** The access sequences that fetch an operand. */
  datatype GetMacro =
    | GetImm | GetZero | GetZeroX | GetZeroY | GetAbs | GetAbsX | GetAbsY | GetIndX | GetIndY
    | GetAbsXRmw | GetAbsYRmw | GetIndYRmw

  /** The access sequences that store a result. */
  datatype SetMacro =
    | SetZero | SetZeroX | SetZeroY | SetAbs | SetAbsX | SetAbsY | SetIndX | SetIndY
    | SetZeroRmw | SetZeroXRmw | SetAbsRmw | SetAbsXRmw | SetAbsYRmw | SetIndRmw

  datatype Macro =
    | Value(op: ReadOp, get: GetMacro, pcInc: nat)
    | Change(mop: RmwOp, pcInc: nat, get: GetMacro, put: SetMacro)
    | Put(sop: StoreOp, put: SetMacro, pcInc: nat)
    | ShaIndY | PutMasked(sop: StoreOp)
    | Single(iop: ImpliedOp) | BranchIf(cond: Condition, when: bool)
    | Brk | Jsr | Rti | Rts | Jmp | JmpInd | Php | Plp | Pha | Pla | Jam

  /** The switch over the opcode. */
  function Switch(ins: Byte): Macro {
    SwitchAt(ins / 0x20, ins)
  }

  function SwitchAt(row: Byte, ins: Byte): Macro {
    match row
    case 0 => Switch0(ins) case 1 => Switch1(ins) case 2 => Switch2(ins) case 3 => Switch3(ins)
    case 4 => Switch4(ins) case 5 => Switch5(ins) case 6 => Switch6(ins) case _ => Switch7(ins)
  }

  function Switch0(ins: Byte): Macro {
    match ins
    case 0x00 => Brk case 0x01 => Value(ORA, GetIndX, 2) case 0x03 => Change(SLO, 2, GetIndX, SetIndRmw)
    case 0x04 => Value(NOOP, GetZero, 2) case 0x05 => Value(ORA, GetZero, 2)
    case 0x06 => Change(ASL, 2, GetZero, SetZeroRmw) case 0x07 => Change(SLO, 2, GetZero, SetZeroRmw) case 0x08 => Php
    case 0x09 => Value(ORA, GetImm, 2) case 0x0a => Single(ASL_A) case 0x0b => Value(ANC, GetImm, 2)
    case 0x0c => Value(NOOP, GetAbs, 3) case 0x0d => Value(ORA, GetAbs, 3) case 0x0e => Change(ASL, 3, GetAbs, SetAbsRmw)
    case 0x0f => Change(SLO, 3, GetAbs, SetAbsRmw) case 0x10 => BranchIf(Sign, false) case 0x11 => Value(ORA, GetIndY, 2)
    case 0x13 => Change(SLO, 2, GetIndYRmw, SetIndRmw) case 0x14 => Value(NOOP, GetZeroX, 2)
    case 0x15 => Value(ORA, GetZeroX, 2) case 0x16 => Change(ASL, 2, GetZeroX, SetZeroXRmw)
    case 0x17 => Change(SLO, 2, GetZeroX, SetZeroXRmw) case 0x18 => Single(CLC) case 0x19 => Value(ORA, GetAbsY, 3)
    case 0x1a => Single(NOP) case 0x1b => Change(SLO, 3, GetAbsYRmw, SetAbsYRmw) case 0x1c => Value(NOOP, GetAbsX, 3)
    case 0x1d => Value(ORA, GetAbsX, 3) case 0x1e => Change(ASL, 3, GetAbsXRmw, SetAbsXRmw)
    case 0x1f => Change(SLO, 3, GetAbsXRmw, SetAbsXRmw) case _ => Jam
  }

  function Switch1(ins: Byte): Macro {
    match ins
    case 0x20 => Jsr case 0x21 => Value(AND, GetIndX, 2) case 0x23 => Change(RLA, 2, GetIndX, SetIndRmw)
    case 0x24 => Value(BIT, GetZero, 2) case 0x25 => Value(AND, GetZero, 2)
    case 0x26 => Change(ROL, 2, GetZero, SetZeroRmw) case 0x27 => Change(RLA, 2, GetZero, SetZeroRmw) case 0x28 => Plp
    case 0x29 => Value(AND, GetImm, 2) case 0x2a => Single(ROL_A) case 0x2b => Value(ANC, GetImm, 2)
    case 0x2c => Value(BIT, GetAbs, 3) case 0x2d => Value(AND, GetAbs, 3) case 0x2e => Change(ROL, 3, GetAbs, SetAbsRmw)
    case 0x2f => Change(RLA, 3, GetAbs, SetAbsRmw) case 0x30 => BranchIf(Sign, true) case 0x31 => Value(AND, GetIndY, 2)
    case 0x33 => Change(RLA, 2, GetIndYRmw, SetIndRmw) case 0x34 => Value(NOOP, GetZeroX, 2)
    case 0x35 => Value(AND, GetZeroX, 2) case 0x36 => Change(ROL, 2, GetZeroX, SetZeroXRmw)
    case 0x37 => Change(RLA, 2, GetZeroX, SetZeroXRmw) case 0x38 => Single(SEC) case 0x39 => Value(AND, GetAbsY, 3)
    case 0x3a => Single(NOP) case 0x3b => Change(RLA, 3, GetAbsYRmw, SetAbsYRmw) case 0x3c => Value(NOOP, GetAbsX, 3)
    case 0x3d => Value(AND, GetAbsX, 3) case 0x3e => Change(ROL, 3, GetAbsXRmw, SetAbsXRmw)
    case 0x3f => Change(RLA, 3, GetAbsXRmw, SetAbsXRmw) case _ => Jam
  }

  function Switch2(ins: Byte): Macro {
    match ins
    case 0x40 => Rti case 0x41 => Value(EOR, GetIndX, 2) case 0x43 => Change(SRE, 2, GetIndX, SetIndRmw)
    case 0x44 => Value(NOOP, GetZero, 2) case 0x45 => Value(EOR, GetZero, 2)
    case 0x46 => Change(LSR, 2, GetZero, SetZeroRmw) case 0x47 => Change(SRE, 2, GetZero, SetZeroRmw) case 0x48 => Pha
    case 0x49 => Value(EOR, GetImm, 2) case 0x4a => Single(LSR_A) case 0x4b => Value(ASR, GetImm, 2) case 0x4c => Jmp
    case 0x4d => Value(EOR, GetAbs, 3) case 0x4e => Change(LSR, 3, GetAbs, SetAbsRmw)
    case 0x4f => Change(SRE, 3, GetAbs, SetAbsRmw) case 0x50 => BranchIf(Overflow, false)
    case 0x51 => Value(EOR, GetIndY, 2) case 0x53 => Change(SRE, 2, GetIndYRmw, SetIndRmw)
    case 0x54 => Value(NOOP, GetZeroX, 2) case 0x55 => Value(EOR, GetZeroX, 2)
    case 0x56 => Change(LSR, 2, GetZeroX, SetZeroXRmw) case 0x57 => Change(SRE, 2, GetZeroX, SetZeroXRmw)
    case 0x58 => Single(CLI) case 0x59 => Value(EOR, GetAbsY, 3) case 0x5a => Single(NOP)
    case 0x5b => Change(SRE, 3, GetAbsYRmw, SetAbsYRmw) case 0x5c => Value(NOOP, GetAbsX, 3)
    case 0x5d => Value(EOR, GetAbsX, 3) case 0x5e => Change(LSR, 3, GetAbsXRmw, SetAbsXRmw)
    case 0x5f => Change(SRE, 3, GetAbsXRmw, SetAbsXRmw) case _ => Jam
  }

  function Switch3(ins: Byte): Macro {
    match ins
    case 0x60 => Rts case 0x61 => Value(ADC, GetIndX, 2) case 0x63 => Change(RRA, 2, GetIndX, SetIndRmw)
    case 0x64 => Value(NOOP, GetZero, 2) case 0x65 => Value(ADC, GetZero, 2)
    case 0x66 => Change(ROR, 2, GetZero, SetZeroRmw) case 0x67 => Change(RRA, 2, GetZero, SetZeroRmw) case 0x68 => Pla
    case 0x69 => Value(ADC, GetImm, 2) case 0x6a => Single(ROR_A) case 0x6b => Value(ARR, GetImm, 2)
    case 0x6c => JmpInd case 0x6d => Value(ADC, GetAbs, 3) case 0x6e => Change(ROR, 3, GetAbs, SetAbsRmw)
    case 0x6f => Change(RRA, 3, GetAbs, SetAbsRmw) case 0x70 => BranchIf(Overflow, true)
    case 0x71 => Value(ADC, GetIndY, 2) case 0x73 => Change(RRA, 2, GetIndYRmw, SetIndRmw)
    case 0x74 => Value(NOOP, GetZeroX, 2) case 0x75 => Value(ADC, GetZeroX, 2)
    case 0x76 => Change(ROR, 2, GetZeroX, SetZeroXRmw) case 0x77 => Change(RRA, 2, GetZeroX, SetZeroXRmw)
    case 0x78 => Single(SEI) case 0x79 => Value(ADC, GetAbsY, 3) case 0x7a => Single(NOP)
    case 0x7b => Change(RRA, 3, GetAbsYRmw, SetAbsYRmw) case 0x7c => Value(NOOP, GetAbsX, 3)
    case 0x7d => Value(ADC, GetAbsX, 3) case 0x7e => Change(ROR, 3, GetAbsXRmw, SetAbsXRmw)
    case 0x7f => Change(RRA, 3, GetAbsXRmw, SetAbsXRmw) case _ => Jam
  }

  function Switch4(ins: Byte): Macro {
    match ins
    case 0x80 | 0x82 | 0x89 => Value(NOOP, GetImm, 2) case 0x81 => Put(STA, SetIndX, 2)
    case 0x83 => Put(SAX, SetIndX, 2) case 0x84 => Put(STY, SetZero, 2) case 0x85 => Put(STA, SetZero, 2)
    case 0x86 => Put(STX, SetZero, 2) case 0x87 => Put(SAX, SetZero, 2) case 0x88 => Single(DEY)
    case 0x8a => Single(TXA) case 0x8b => Value(ANE, GetImm, 2) case 0x8c => Put(STY, SetAbs, 3)
    case 0x8d => Put(STA, SetAbs, 3) case 0x8e => Put(STX, SetAbs, 3) case 0x8f => Put(SAX, SetAbs, 3)
    case 0x90 => BranchIf(Carry, false) case 0x91 => Put(STA, SetIndY, 2) case 0x93 => ShaIndY
    case 0x94 => Put(STY, SetZeroX, 2) case 0x95 => Put(STA, SetZeroX, 2) case 0x96 => Put(STX, SetZeroY, 2)
    case 0x97 => Put(SAX, SetZeroY, 2) case 0x98 => Single(TYA) case 0x99 => Put(STA, SetAbsY, 3)
    case 0x9a => Single(TXS) case 0x9b => PutMasked(SHS) case 0x9c => PutMasked(SHY)
    case 0x9d => Put(STA, SetAbsX, 3) case 0x9e => PutMasked(SHX) case 0x9f => PutMasked(SHA) case _ => Jam
  }

  function Switch5(ins: Byte): Macro {
    match ins
    case 0xa0 => Value(LDY, GetImm, 2) case 0xa1 => Value(LDA, GetIndX, 2) case 0xa2 => Value(LDX, GetImm, 2)
    case 0xa3 => Value(LAX, GetIndX, 2) case 0xa4 => Value(LDY, GetZero, 2) case 0xa5 => Value(LDA, GetZero, 2)
    case 0xa6 => Value(LDX, GetZero, 2) case 0xa7 => Value(LAX, GetZero, 2) case 0xa8 => Single(TAY)
    case 0xa9 => Value(LDA, GetImm, 2) case 0xaa => Single(TAX) case 0xab => Value(LXA, GetImm, 2)
    case 0xac => Value(LDY, GetAbs, 3) case 0xad => Value(LDA, GetAbs, 3) case 0xae => Value(LDX, GetAbs, 3)
    case 0xaf => Value(LAX, GetAbs, 3) case 0xb0 => BranchIf(Carry, true) case 0xb1 => Value(LDA, GetIndY, 2)
    case 0xb3 => Value(LAX, GetIndY, 2) case 0xb4 => Value(LDY, GetZeroX, 2) case 0xb5 => Value(LDA, GetZeroX, 2)
    case 0xb6 => Value(LDX, GetZeroY, 2) case 0xb7 => Value(LAX, GetZeroY, 2) case 0xb8 => Single(CLV)
    case 0xb9 => Value(LDA, GetAbsY, 3) case 0xba => Single(TSX) case 0xbb => Value(LAS, GetAbsY, 3)
    case 0xbc => Value(LDY, GetAbsX, 3) case 0xbd => Value(LDA, GetAbsX, 3) case 0xbe => Value(LDX, GetAbsY, 3)
    case 0xbf => Value(LAX, GetAbsY, 3) case _ => Jam
  }

  function Switch6(ins: Byte): Macro {
    match ins
    case 0xc0 => Value(CPY, GetImm, 2) case 0xc1 => Value(CMP, GetIndX, 2) case 0xc2 => Value(NOOP, GetImm, 2)
    case 0xc3 => Change(DCP, 2, GetIndX, SetIndRmw) case 0xc4 => Value(CPY, GetZero, 2)
    case 0xc5 => Value(CMP, GetZero, 2) case 0xc6 => Change(DEC, 2, GetZero, SetZeroRmw)
    case 0xc7 => Change(DCP, 2, GetZero, SetZeroRmw) case 0xc8 => Single(INY) case 0xc9 => Value(CMP, GetImm, 2)
    case 0xca => Single(DEX) case 0xcb => Value(SBX, GetImm, 2) case 0xcc => Value(CPY, GetAbs, 3)
    case 0xcd => Value(CMP, GetAbs, 3) case 0xce => Change(DEC, 3, GetAbs, SetAbsRmw)
    case 0xcf => Change(DCP, 3, GetAbs, SetAbsRmw) case 0xd0 => BranchIf(Zero, false) case 0xd1 => Value(CMP, GetIndY, 2)
    case 0xd3 => Change(DCP, 2, GetIndYRmw, SetIndRmw) case 0xd4 => Value(NOOP, GetZeroX, 2)
    case 0xd5 => Value(CMP, GetZeroX, 2) case 0xd6 => Change(DEC, 2, GetZeroX, SetZeroXRmw)
    case 0xd7 => Change(DCP, 2, GetZeroX, SetZeroXRmw) case 0xd8 => Single(CLD) case 0xd9 => Value(CMP, GetAbsY, 3)
    case 0xda => Single(NOP) case 0xdb => Change(DCP, 3, GetAbsYRmw, SetAbsYRmw) case 0xdc => Value(NOOP, GetAbsX, 3)
    case 0xdd => Value(CMP, GetAbsX, 3) case 0xde => Change(DEC, 3, GetAbsXRmw, SetAbsXRmw)
    case 0xdf => Change(DCP, 3, GetAbsXRmw, SetAbsXRmw) case _ => Jam
  }

  function Switch7(ins: Byte): Macro {
    match ins
    case 0xe0 => Value(CPX, GetImm, 2) case 0xe1 => Value(SBC, GetIndX, 2) case 0xe2 => Value(NOOP, GetImm, 2)
    case 0xe3 => Change(ISB, 2, GetIndX, SetIndRmw) case 0xe4 => Value(CPX, GetZero, 2)
    case 0xe5 => Value(SBC, GetZero, 2) case 0xe6 => Change(INC, 2, GetZero, SetZeroRmw)
    case 0xe7 => Change(ISB, 2, GetZero, SetZeroRmw) case 0xe8 => Single(INX) case 0xe9 | 0xeb => Value(SBC, GetImm, 2)
    case 0xea | 0xfa => Single(NOP) case 0xec => Value(CPX, GetAbs, 3) case 0xed => Value(SBC, GetAbs, 3)
    case 0xee => Change(INC, 3, GetAbs, SetAbsRmw) case 0xef => Change(ISB, 3, GetAbs, SetAbsRmw)
    case 0xf0 => BranchIf(Zero, true) case 0xf1 => Value(SBC, GetIndY, 2)
    case 0xf3 => Change(ISB, 2, GetIndYRmw, SetIndRmw) case 0xf4 => Value(NOOP, GetZeroX, 2)
    case 0xf5 => Value(SBC, GetZeroX, 2) case 0xf6 => Change(INC, 2, GetZeroX, SetZeroXRmw)
    case 0xf7 => Change(ISB, 2, GetZeroX, SetZeroXRmw) case 0xf8 => Single(SED) case 0xf9 => Value(SBC, GetAbsY, 3)
    case 0xfb => Change(ISB, 3, GetAbsYRmw, SetAbsYRmw) case 0xfc => Value(NOOP, GetAbsX, 3)
    case 0xfd => Value(SBC, GetAbsX, 3) case 0xfe => Change(INC, 3, GetAbsXRmw, SetAbsXRmw)
    case 0xff => Change(ISB, 3, GetAbsXRmw, SetAbsXRmw) case _ => Jam
  }


  function GetMode(get: GetMacro): Mode {
    match get
    case GetImm => Imm case GetZero => Zp case GetZeroX => ZpX case GetZeroY => ZpY case GetAbs => Abs
    case GetAbsX => AbsX case GetAbsY => AbsY case GetIndX => IndX case GetIndY => IndY
    case GetAbsXRmw => AbsX case GetAbsYRmw => AbsY case GetIndYRmw => IndY
  }

  function GetFor(mode: Mode): GetMacro {
    match mode
    case Imm => GetImm case Zp => GetZero case ZpX => GetZeroX case ZpY => GetZeroY case Abs => GetAbs
    case AbsX => GetAbsX case AbsY => GetAbsY case IndX => GetIndX case IndY => GetIndY
  }

  function GetForRmw(mode: Mode): GetMacro {
    match mode case AbsX => GetAbsXRmw case AbsY => GetAbsYRmw case IndY => GetIndYRmw case _ => GetFor(mode)
  }

  function SetFor(mode: Mode): SetMacro {
    match mode
    case Zp => SetZero case ZpX => SetZeroX case ZpY => SetZeroY case AbsX => SetAbsX case AbsY => SetAbsY
    case IndX => SetIndX case IndY => SetIndY case _ => SetAbs
  }

  function SetForRmw(mode: Mode): SetMacro {
    match mode
    case Zp => SetZeroRmw case ZpX => SetZeroXRmw case AbsX => SetAbsXRmw case AbsY => SetAbsYRmw
    case IndX => SetIndRmw case IndY => SetIndRmw case _ => SetAbsRmw
  }

  /** The macro an instruction needs. */
  function MacroFor(i: Instr): Macro {
    match i
    case Read(op, mode) => Value(op, GetFor(mode), Length(mode))
    case Rmw(op, mode) => Change(op, Length(mode), GetForRmw(mode), SetForRmw(mode))
    case Store(op, mode) =>
      if Unmasked(op) then Put(op, SetFor(mode), Length(mode))
      else if mode.IndY? then ShaIndY else PutMasked(op)
    case Implied(op) => Single(op)
    case Branch(cond, when) => BranchIf(cond, when)
    case BRK => Brk case JSR => Jsr case RTI => Rti case RTS => Rts case JMP => Jmp case JMP_IND => JmpInd
    case PHP => Php case PHA => Pha case PLP => Plp case PLA => Pla case JAM => Jam
  }

  /** The switch and the opcode matrix agree on the opcode of this row, column and block. */
  predicate Agrees(ins: Byte, row: Byte, column: Byte, block: Byte) {
    ins == 32 * row + 4 * column + block && row < 8 && column < 8 && block < 4
    ==> SwitchAt(row, ins) == MacroFor(DecodeAt(row, column, block))
  }

  lemma SwitchRow0(ins: Byte, column: Byte, block: Byte)
    ensures Agrees(ins, 0, column, block)
  {
    if block == 0 {
    } else if block == 1 {
    } else if block == 2 {
    } else if block == 3 {
    }
  }

  lemma SwitchRow1(ins: Byte, column: Byte, block: Byte)
    ensures Agrees(ins, 1, column, block)
  {
    if block == 0 {
    } else if block == 1 {
    } else if block == 2 {
    } else if block == 3 {
    }
  }

  lemma SwitchRow2(ins: Byte, column: Byte, block: Byte)
    ensures Agrees(ins, 2, column, block)
  {
    if block == 0 {
    } else if block == 1 {
    } else if block == 2 {
    } else if block == 3 {
    }
  }

  lemma SwitchRow3(ins: Byte, column: Byte, block: Byte)
    ensures Agrees(ins, 3, column, block)
  {
    if block == 0 {
    } else if block == 1 {
    } else if block == 2 {
    } else if block == 3 {
    }
  }

  lemma SwitchRow4(ins: Byte, column: Byte, block: Byte)
    ensures Agrees(ins, 4, column, block)
  {
    if block == 0 {
    } else if block == 1 {
    } else if block == 2 {
    } else if block == 3 {
    }
  }

  lemma SwitchRow5(ins: Byte, column: Byte, block: Byte)
    ensures Agrees(ins, 5, column, block)
  {
    if block == 0 {
    } else if block == 1 {
    } else if block == 2 {
    } else if block == 3 {
    }
  }

  lemma SwitchRow6(ins: Byte, column: Byte, block: Byte)
    ensures Agrees(ins, 6, column, block)
  {
    if block == 0 {
    } else if block == 1 {
    } else if block == 2 {
    } else if block == 3 {
    }
  }

  lemma SwitchRow7(ins: Byte, column: Byte, block: Byte)
    ensures Agrees(ins, 7, column, block)
  {
    if block == 0 {
    } else if block == 1 {
    } else if block == 2 {
    } else if block == 3 {
    }
  }

  lemma RowsAgree(ins: Byte, row: Byte, column: Byte, block: Byte)
    ensures Agrees(ins, row, column, block)
  {
    SwitchRow0(ins, column, block);
    SwitchRow1(ins, column, block);
    SwitchRow2(ins, column, block);
    SwitchRow3(ins, column, block);
    SwitchRow4(ins, column, block);
    SwitchRow5(ins, column, block);
    SwitchRow6(ins, column, block);
    SwitchRow7(ins, column, block);
  }

  lemma SwitchDecodes(ins: Byte)
    ensures Switch(ins) == MacroFor(Decode(ins))
  {
    OpcodeParts(ins);
    RowsAgree(ins, ins / 32, ins / 4 % 8, ins % 4);
  }
}
