/** The table of three-byte opcodes that both cores carry, and what a fetch leaves behind. */
module FetchTable {
  import opened Words
  import opened Isa

  /** fetch_tab: the opcodes whose third byte is fetched with the first two. */
  predicate FetchTab(ins: Byte) {
    ins / 4 % 4 == 3 || ins % 32 == 0x19 || ins % 32 == 0x1b
  }

  /** Three bytes are fetched exactly for the instructions that use the third, JSR and JAM apart. */
  predicate ThreeBytes(i: Instr) {
    match i
    case Read(_, mode) => Length(mode) == 3
    case Rmw(_, mode) => Length(mode) == 3
    case Store(_, mode) => Length(mode) == 3
    case JMP => true case JMP_IND => true case _ => false
  }

  lemma FetchTabParts(ins: Byte, row: Byte, column: Byte, block: Byte)
    requires ins == 32 * row + 4 * column + block && row < 8 && column < 8 && block < 4
    ensures FetchTab(ins) <==> column == 3 || column == 7 || (column == 6 && (block == 1 || block == 3))
  {
    var q := if column < 4 then 2 * row else 2 * row + 1;
    assert ins / 4 == 4 * q + (if column < 4 then column else column - 4);
    assert ins % 32 == 4 * column + block;
  }

  lemma FetchTabAgrees(ins: Byte, row: Byte, column: Byte, block: Byte)
    requires ins == 32 * row + 4 * column + block && row < 8 && column < 8 && block < 4
    ensures FetchTab(ins) == ThreeBytes(DecodeAt(row, column, block))
  {
    hide FetchTab;
    FetchTabParts(ins, row, column, block);
    if block == 0 {
    } else if block == 1 {
    } else if block == 2 {
    } else {
    }
  }

  lemma FetchTabDecodes(ins: Byte)
    ensures FetchTab(ins) == ThreeBytes(Decode(ins))
  {
    OpcodeParts(ins);
    FetchTabAgrees(ins, ins / 32, ins / 4 % 8, ins % 4);
  }

  function FetchClk(i: Instr): nat {
    if ThreeBytes(i) then 3 else 2
  }

  /** p1 and p2 were fetched from behind the opcode; p2 is whole when three bytes were. */
  ghost predicate Operands(s: Cpu, length: nat, p1: Byte, p2: Word) {
    p1 == Load(s.mem, Trunc(s.pc + 1)) && (length == 3 ==> p2 == LoadWord(s.mem, Trunc(s.pc + 1)))
  }
}
