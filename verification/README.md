# VICE processor cores, alarm scheduler and ACIA: a verified model

This project models four connected pieces of the VICE emulator and proves how they behave over
whole runs.

* **Two 6510 cores.** `src/6510core.c` adds its cycles to the clock in lumps; the core of
  `src/6510dtvcore.c` (as `src/c64/c64cpusc.c` configures it) ticks after every access. Both are
  written here as methods on a mutable processor (`LumpedCore`, `SteppedCore`), macro by macro, with
  their two 256-case switches as tables. Both are proved to refine one eager reference machine
  (`Isa`), which decodes opcodes from their bit fields and follows the text of neither core. So the
  cores simulate each other (`Simulation`), and what is proved of the reference machine, such as the
  stack discipline (`StackLifo`), holds of both. What the macros of each core do with an operand is
  in `LumpedOps` and `SteppedOps`, statement by statement as each file has it; `MosCpu` and
  `MosArithmetic` hold what the two files write in the same words: lazy flags, ADC, SBC, ARR, the
  flag instructions and the stack.
* **The alarm scheduler** of `src/alarm.h` and `src/alarm.c` (`AlarmQueue`): pending array with
  swap-removal, back pointers, cached minimum and the doubly linked list, as classes that refine a map
  from alarms to clocks. `AlarmDrain` is the dispatch loop of the cores with arbitrary callbacks that
  meet a contract, `MainLoop` the interpreter loop around it, which returns what each of its drain
  points dispatched.
* **The 6551 ACIA** of `src/aciacore.c`: `Acia` says what every register access, alarm and reset does
  and what is seen of it, `AciaTraces` what every run guarantees to whoever watches, `AciaTiming` when
  its character time and its transmit alarm are right, `AciaChip` is the struct updated in place with
  its two alarms in an alarm context, and `AciaAlarms` runs it under the scheduler among other chips.
* **The 65816 core** (`Spec65816`, `Cpu65816`, `Modes65816`, `NativeStack`, `BlockMove`): modes and
  widths, native and emulation stack, interrupts, and the block moves that repeat themselves.
* **Decimal arithmetic** of the 6510, the 65C02 and the 65816 (`MosArithmetic`, `Adders`,
  `Subtracters`), written in three different ways in the sources, against digit by digit addition and
  subtraction; and multi-byte numbers of any length (`Chains`).

## Conventions

Bytes, words and clocks are bounded integers, and C's truncations and wrap-arounds are written out.
Memory is flat: 64K cells for the 6510, addresses being truncated to 16 bits, and cells numbered by
integers for the 65816; a cell never written reads as zero. No cycles are stolen, and the accepted
interrupt with its vector is an input. Where a callback, the modem line or an addressing mode
supplies a value, it is a parameter.

## Main results

* `Simulation.Lockstep`: the two 6510 cores simulate each other over every run.
* `StackLifo.LifoRun`, `NativeStack.LifoRun`: page one and, on the 65816, bank 0 are stacks of frames.
* `AlarmQueue.AlarmContext.Set` and `Unset`, `AlarmDrain.Drain` with `EveryDueAlarm`: the queue is a map,
  and a drain dispatches exactly what is due, in order.
* `MainLoop.Loop`, `ChainPrompt` and `NothingDueAtFetch`: dispatches are at most seven cycles late.
* `AciaAlarms.Run` with `AciaTraces.TransmitConservation`, `TransmitPacing`, `ReceiverIsMailbox`,
  `ReceiveConservation`, `OverrunMeans` and `RunSound`: the ACIA under the scheduler.
* `AciaTiming.CommandPace` with `PaceOfRun`, and `DataStoreDue`: when its timing is right.
* `Modes65816.ModesReachable`, `BlockMove.MoveCompletes` and `FaithfulWhen`: modes and block moves.
* `Chains.AddBytes`, `AddWords`, `SubBytes`, `AddChainExact`, `SubChainExact` and `RoundTrip`: decimal
  numbers of any length on three processors.

## What the proofs found

* The lumped core's RTS leaves the raw program counter at $10000 after pulling $FFFF, where the stepped
  core wraps to 0. Program counters are compared modulo 64K, as every memory access reads them.
* `src/c64/c64cpusc.c:42` disables the rewind of the two fetch cycles, so the cores' clocks differ by
  two once an opcode jams them. The simulation ends there.
* The 65C02's decimal SBC differs from the 6510's exactly when the low digits differ by less than -10
  (`Subtracters.Sbc65C02`); packed decimal operands never do.
* The 65816's 16-bit decimal SBC masks the 8-bit accumulator and is right exactly when the high byte
  is zero (`Subtracters.WordRightWhen`).
* A block move is a memmove exactly when the destination does not lead into the source
  (`BlockMove.FaithfulWhen`); if it does, the lead repeats (`BlockMove.CopyEffect`). An MVN that
  straddles the end of its bank reads its operands from two different places (`BlockMove.OperandCells`).
* `alarm_context_time_warp` keeps the cached minimum exactly when the amount is zero, or an alarm is
  pending in the cached slot and the clocks wrap around all or none; on an empty queue it shifts the
  sentinel (`AlarmQueue.WarpEarliest`).
* In emulation mode the 65816's JSR_LONG pushes below page one when the stack pointer is near its
  start, and RTL looks above it (`NativeStack.FarCallEmulated`).
* A store to the ACIA's command register that changes the length of a character leaves the character
  time stale unless it opens the line or switches the receiver on (`AciaTiming.CommandPace`, with the
  input of `StaleParity`), so pacing is stated for the ticks in force.
* A store to the ACIA's data register leaves the transmit alarm for a later clock unless it is by a
  read-modify-write instruction with DTR up and an idle transmitter; then the alarm is set for the
  current clock (`AciaTiming.DataStoreDue`, with the input of `RmwDueAtOnce`).

## Model

| member | source | states |
|---|---|---|
| Simulation.Lockstep | src/6510core.c:2454-3467 | Run-level simulation: the lumped and the cycle-stepped core, started with equal registers, flags, memory and clock, are equal in all of them after every event of every sequence of instructions and accepted interrupts, whichever fetch path each takes; they stop together at the first jamming opcode and complete exactly the runs without one |
| Simulation.BothEvent | src/6510dtvcore.c:1845-2790 | One instruction or interrupt of either core, from equal states, gives equal states and equal clocks |
| Simulation.LumpedEvent | src/6510core.c:2306-2345 | The lumped core refines the reference machine on one event, clock included |
| Simulation.SteppedEvent | src/6510dtvcore.c:354-457 | The cycle-stepped core refines the reference machine on one event, clock included |
| Runs.RunSplits | src/6510core.c:2306-2345 | A run may be cut at any instruction boundary: states compose and elapsed times add |
| Runs.SmoothUpTo | src/6510core.c:2463-2483 | A run that goes smoothly up to k and jams there goes smoothly as a whole exactly if k is its end |
| LumpedSwitch.SwitchDecodes | src/6510core.c:2454-3467 | All 256 cases of the opcode switch, with the clock and program counter increments they pass on, name the operation and addressing mode that the opcode's bit fields give |
| SteppedSwitch.SwitchDecodes | src/6510dtvcore.c:1845-2790 | The same for the independently written switch of the cycle-stepped core |
| FetchTable.FetchTabDecodes | src/6510core.c:2016-2036 | The table of opcodes whose third byte is fetched at once holds exactly the instructions that use three bytes, JSR apart |
| Isa.DecodeProper | src/6510core.c:2454-3467 | No opcode combines a write with a mode that has no address |
| LumpedCore.Step | src/6510core.c:2306-3467 | One instruction of the lumped core is one step of the reference machine and takes its cycles, page crossings and taken branches included; a jam leaves every register and the clock alone |
| LumpedCore.Dispatch | src/6510core.c:2454-3467 | Every macro with its arguments executes the instruction it stands for |
| LumpedCore.FetchOpcode | src/6510core.c:2064-2253 | Cached and uncached fetch deliver the same opcode and operands in the same time |
| LumpedCore.LoadIndexed | src/6510core.c:549-579 | An indexed load reads base plus index modulo 64K and costs one more cycle exactly if the high byte of the address changes |
| LumpedCore.LoadOperand | src/6510core.c:549-610 | Each load macro reads the cell of its addressing mode, pointers wrapping inside page zero, in the cycles of the mode |
| LumpedCore.ValueMacro | src/6510core.c:758-791 | Load, operate, advance: a read instruction of the reference machine |
| LumpedCore.ChangeMacro | src/6510core.c:929-943 | A read-modify-write macro stores the modified byte at its operand's address, whatever it stores in between, and takes three cycles on top of its addressing |
| LumpedCore.Rewrite | src/6510core.c:929-943 | Writing the old byte back first changes nothing in the end |
| LumpedCore.ChangeIndYMacro | src/6510core.c:1844-1865 | The (zp),Y read-modify-write macros |
| LumpedCore.PutMacro | src/6510core.c:1909-1924 | STA, STX, STY and SAX in every mode |
| LumpedCore.PutIndYMacro | src/6510core.c:1926-1944 | STA (zp),Y |
| LumpedCore.StoreShifted | src/6510core.c:671-714 | SHA, SHX, SHY and SHS store the value masked with the high byte plus one, to the page of that value when the index crosses a page |
| LumpedCore.PutMaskedYMacro | src/6510core.c:1769-1804 | SHA and SHX, absolute |
| LumpedCore.ShyMacro | src/6510core.c:1806-1813 | SHY |
| LumpedCore.ShsMacro | src/6510core.c:1815-1822 | SHS stores and loads the stack pointer |
| LumpedCore.ShaIndYMacro | src/6510core.c:1778-1795 | SHA (zp),Y |
| LumpedCore.BranchMacro | src/6510core.c:978-996 | A taken branch goes to the next instruction plus the signed offset, one cycle later and two if that is on another page |
| LumpedCore.SaveState | src/6510core.c:457-461 | Program counter and eager status byte go on the stack, high byte first |
| LumpedCore.InterruptSave | src/6510core.c:436-464 | An accepted interrupt up to its alarm processing: break flag down, state saved, five cycles |
| LumpedCore.BrkSave | src/6510core.c:998-1010 | BRK up to its alarm processing: two bytes skipped, break flag up, state saved |
| LumpedCore.DoInterrupt | src/6510core.c:436-480 | An accepted interrupt as a whole takes seven cycles and leaves the flags but I and B alone |
| LumpedCore.BrkMacro | src/6510core.c:998-1038 | BRK as a whole, with its own vector or that of an NMI that takes it over |
| LumpedCore.JsrMacro | src/6510core.c:1284-1301 | JSR pushes the address of its last byte and fetches that byte after the pushes |
| LumpedCore.RtsMacro | src/6510core.c:1671-1684 | RTS goes one past the pulled address; the raw program counter is not wrapped, so pulling $FFFF leaves $10000 |
| LumpedCore.RtiMacro | src/6510core.c:1657-1669 | RTI takes the flags before the address |
| LumpedCore.JmpIndMacro | src/6510core.c:1267-1282 | The indirect jump does not carry into the high byte of its pointer |
| SteppedCore.Step | src/6510dtvcore.c:1845-2790 | One instruction of the cycle-stepped core, with a tick after every access, is one step of the reference machine in the same number of cycles |
| SteppedCore.FetchOpcode | src/c64/c64cpusc.c:123-181 | Cached and uncached fetch deliver the same opcode and operands in the same time |
| SteppedCore.Locate | src/6510dtvcore.c:466-690 | Each access sequence ends at the address of its mode, and idles exactly on a page crossing before a read and always before a write |
| SteppedCore.Get | src/6510dtvcore.c:466-690 | The load sequences deliver the operand in the cycles of the mode |
| SteppedCore.SetRmw | src/6510dtvcore.c:563-698 | The storing half of a read-modify-write instruction ends with the new byte at the address it recomputes |
| SteppedCore.RmwSequences | src/6510dtvcore.c:563-698 | The loading and the storing sequence of each read-modify-write mode meet at the same address |
| SteppedCore.SetOperand | src/6510dtvcore.c:559-690 | The store sequences of STA, STX, STY and SAX |
| SteppedCore.SetAbsShI | src/6510dtvcore.c:700-720 | The masked store of SHA, SHX, SHY and SHS without a stolen cycle |
| SteppedCore.ValueMacro | src/6510dtvcore.c:739-771 | A read instruction of the reference machine |
| SteppedCore.ChangeMacro | src/6510dtvcore.c:918-946 | A read-modify-write instruction of the reference machine |
| SteppedCore.BranchMacro | src/6510dtvcore.c:986-1007 | Branches, as in the lumped core |
| SteppedCore.DoIrqBrk | src/6510dtvcore.c:313-349 | The state is saved and the vector, which an NMI in between may change, taken in five single cycles |
| SteppedCore.DoInterrupt | src/6510dtvcore.c:354-400 | An accepted interrupt in seven single cycles |
| SteppedCore.BrkMacro | src/6510dtvcore.c:1009-1017 | BRK, with its own vector or that of an NMI that takes it over |
| SteppedCore.JsrMacro | src/6510dtvcore.c:1201-1220 | JSR |
| SteppedCore.RtsMacro | src/6510dtvcore.c:1495-1512 | RTS; here the return address is a 16-bit variable and wraps |
| SteppedCore.RtiMacro | src/6510dtvcore.c:1476-1493 | RTI |
| SteppedCore.JmpIndMacro | src/6510dtvcore.c:1184-1199 | The indirect jump |
| LazyStatus.StatusIsEager | src/6510core.c:150-224 | The status byte assembled from reg_p, flag_n and flag_z equals the byte of the eager flags exactly if reg_p claims no N or Z that the last result does not show |
| LazyStatus.PulledStatus | src/6510core.c:212-224 | Pushing the status and pulling it gives every flag back |
| MosCpu.Mos6510.SetStatus | src/6510core.c:212-214 | Setting the status keeps N and Z out of reg_p and makes the eager flags those of the byte |
| LumpedOps.Operate | src/6510core.c:758-1745 | Every macro of the lumped core that takes a loaded value keeps N and Z out of reg_p and leaves the registers and flags of the eager machine |
| LumpedOps.Modify | src/6510core.c:929-1885 | So does every read-modify-write macro, and what it hands to the store is, cut to a byte, what the eager machine stores |
| LumpedOps.Transfer | src/6510core.c:945-2011 | Accumulator shifts, transfers, counts and flag instructions of the lumped core |
| LumpedOps.SloMacro | src/6510core.c:1824-1842 | SLO with the shifted value in a byte |
| LumpedOps.RlaMacro | src/6510core.c:1509-1526 | RLA: the accumulator meets a nine-bit value |
| LumpedOps.RraMacro | src/6510core.c:1606-1625 | RRA: the carry enters as bit 7 of the shifted value, and the bit that falls out is the carry of the addition |
| LumpedOps.RolA | src/6510core.c:1566-1575 | ROL A: N, Z and C all come from nine bits that hold the old carry |
| LumpedOps.RorA | src/6510core.c:1596-1604 | ROR A shifts the whole status register in, of which only the carry stays in the byte |
| SteppedOps.Operate | src/6510dtvcore.c:739-1559 | The macros of the cycle-stepped core that take a loaded value, written independently |
| SteppedOps.Modify | src/6510dtvcore.c:918-1637 | Its read-modify-write macros: the value handed to the store may have nine bits, its low byte is what the eager machine stores |
| SteppedOps.Transfer | src/6510dtvcore.c:929-1684 | Its accumulator shifts, transfers, counts and flag instructions |
| SteppedOps.SloMacro | src/6510dtvcore.c:1613-1624 | SLO with a nine-bit value whose ninth bit the accumulator and the store drop |
| SteppedOps.RlaMacro | src/6510dtvcore.c:1398-1408 | RLA: the accumulator meets a nine-bit value |
| SteppedOps.RraMacro | src/6510dtvcore.c:1456-1470 | RRA: the carry enters as a ninth bit before the shift, and N and Z are set twice |
| SteppedOps.RolA | src/6510dtvcore.c:1421-1429 | ROL A: the carry comes from nine bits without the old one, N and Z from the accumulator |
| SteppedOps.RorA | src/6510dtvcore.c:1446-1454 | ROR A shifts the whole status register in |
| MosCpu.HighBits | src/6510core.c:1596-1604 | Of a status register shifted left by seven only the carry meets the accumulator |
| MosCpu.OrLow | src/6510dtvcore.c:1613-1624 | Or-ing nine bits into a byte gives what or-ing their low byte gives |
| MosArithmetic.Adc | src/6510core.c:758-791 | Binary and decimal ADC on all operands is the digit by digit sum, with V and N taken between the digits and Z from the binary sum |
| MosArithmetic.Sbc | src/6510core.c:1704-1733 | Binary and decimal SBC on all operands is the digit by digit difference with the flags of the binary one |
| MosArithmetic.Arr | src/6510core.c:896-927 | ARR in both modes: rotation, its two adjustments and their flags |
| Words.PageCrossed | src/6510core.c:549-579 | Low byte plus index above $FF is the same as a change of the high byte |
| Words.UnpackPack | src/6510core.c:150-224 | The bits of a status byte made from bits are those bits |
| Words.PackUnpack | src/6510core.c:150-224 | The status byte made from the bits of a byte is that byte |
| Words.PackInjective | src/6510core.c:150-224 | Two status bytes are equal exactly if all their flags are |
| StackLifo.LifoRun | src/6510core.c:370-375 | From any stack pointer, every properly nested run whose live bytes fit in page one keeps it a sequence of frames: the wrapping page holds exactly the bytes of the frames over what was there, and the stack pointer counts them |
| StackLifo.Lifo | src/6510core.c:370-375 | One event pushes, pulls or leaves the frames, and each pull gives back what its push saved |
| StackLifo.Bracket | src/6510core.c:370-375 | A push, any balanced run and the matching pull restore the frame, the stack pointer and every byte above |
| StackLifo.CallReturns | src/6510core.c:1284-1301 | RTS lands at its JSR plus three with the stack pointer of the call |
| StackLifo.HandlerReturns | src/6510core.c:456-478 | RTI restores the interrupted program counter, the stack pointer and every flag but B |
| StackLifo.BreakReturns | src/6510core.c:998-1038 | RTI after BRK resumes two bytes on, even if an NMI took it over |
| StackLifo.HarmlessNeutral | src/6510core.c:370-375 | Loads, transfers other than TXS, branches, jumps and writes outside page one leave the stack alone |
| StackLifo.Pushes | src/6510core.c:370-375 | What JSR, PHA, PHP, BRK and interrupts put on the stack |
| StackLifo.Pulls | src/6510core.c:1657-1684 | What RTS, PLA, PLP and RTI take off and give back |
| AlarmQueue.AlarmContext.Set | src/alarm.h:146-185 | Setting an alarm updates the map alarm to clock and keeps slots and back pointers inverse and the cached minimum right; a full queue refuses a new alarm and changes nothing |
| AlarmQueue.AlarmContext.Unset | src/alarm.c:167-207 | Unsetting an alarm removes it from the map and nothing else, through the swap with the last slot |
| AlarmQueue.AlarmContext.UpdateNextPending | src/alarm.h:110-129 | The scan finds the earliest clock, and a slot that holds it whenever there is one |
| AlarmQueue.AlarmContext.Add | src/alarm.h:155-175 | Adding updates the cache exactly if the new alarm is earlier |
| AlarmQueue.AlarmContext.Change | src/alarm.h:176-184 | The conditional rescan is enough to keep the cache right |
| AlarmQueue.AlarmContext.Remove | src/alarm.c:181-199 | Removal of one of several alarms |
| AlarmQueue.AlarmContext.RemoveOnly | src/alarm.c:200-206 | Removal of the only alarm puts the sentinel back |
| AlarmQueue.AlarmContext.Dispatch | src/alarm.h:131-144 | The callback that is called is that of an earliest alarm, with the clock minus its time |
| AlarmQueue.AlarmContext.NextIsEarliest | src/alarm.h:105-108 | The cached clock is the minimum of the map, and below CLOCK_MAX some alarm has it |
| AlarmQueue.AlarmContext.New | src/alarm.c:105-137 | A new alarm is at the head of the list and not pending; the queue is untouched |
| AlarmQueue.AlarmContext.Destroy | src/alarm.c:139-165 | A destroyed alarm leaves list and queue, the links of all others staying doubly linked in order |
| AlarmQueue.AlarmContext.Unlink | src/alarm.c:151-160 | The pointer surgery deletes one element of the list, wherever it is |
| AlarmQueue.AlarmContext.DestroyAll | src/alarm.c:59-77 | Destroying the context terminates and destroys every alarm once, in list order, leaving none pending |
| AlarmQueue.AlarmContext.constructor | src/alarm.c:49-57 | An empty context is valid whatever the uninitialised index holds |
| AlarmQueue.AlarmContext.TimeWarp | src/alarm.c:79-101 | Shifting all clocks, in 64-bit arithmetic, shifts the map; the context stays valid exactly if the amount is zero, or the cached slot holds the cached clock and the pending clocks wrap around all or none |
| AlarmQueue.WarpEarliest | src/alarm.c:79-101 | That is the exact condition under which the shifted cached clock is the earliest shifted clock and its slot holds it; on an empty queue the sentinel itself is shifted and it is not |
| AlarmQueue.CountSlots | src/alarm.h:155-171 | As many slots are used as alarms are pending |
| AlarmQueue.Vacate | src/alarm.c:181-193 | Swap-removal keeps slots and back pointers inverse |
| AlarmQueue.EarliestVacated | src/alarm.c:195-199 | Unless the removed slot is the cached one, the cache stays right if it follows the moved entry |
| AlarmQueue.EarliestOverwrite | src/alarm.h:179-183 | A change that is not earlier than the cached clock and not in the cached slot needs no rescan |
| AlarmDrain.Drain | src/6510core.c:139-143 | With lawful callbacks the loop terminates, its dispatches and their effects are those of the abstract drain, and every alarm left is later than the clock |
| AlarmDrain.FewerDue | src/6510core.c:139-143 | The measure: a lawful callback leaves strictly fewer alarms due |
| AlarmDrain.DrainOrder | src/6510core.c:139-143 | Dispatches come in nondecreasing order of time, with offset clock minus time, never twice for an alarm |
| AlarmDrain.StillDue | src/6510core.c:139-143 | Midway, an alarm is due exactly if it was at first and has neither been dispatched nor touched by the callback of another |
| AlarmDrain.EveryDueAlarm | src/6510core.c:139-143 | After a drain the dispatched alarms are exactly those that were due and that no other callback took back |
| AlarmDrain.ObeyKeeps | src/6510core.c:139-143 | Settings for later times make nothing due and leave alarms they do not name alone |
| AlarmDrain.PerformAll | src/alarm.h:146-185 | Every sequence of settings acts on the alarm context as on the map |
| AlarmDrain.InOrder | src/6510core.c:139-143 | The next dispatch extends an orderly log |
| MainLoop.Loop | src/6510core.c:2306-2345 | For every program, run of accepted interrupts and environment that sets alarms only for later times, the loop returns what each of its pauses dispatched: the pauses are exactly the drain points of the core, each one drains the queue that the one before it and the chips left, nothing is dispatched more than seven cycles late, and nothing is due at the end |
| MainLoop.ChainPrompt | src/6510core.c:139-143 | The lateness bound: in every chain of pauses at most eight cycles apart, with punctual chips, every dispatch offset is at most seven |
| MainLoop.NothingDueAtFetch | src/6510core.c:2306-2345 | When any event of a run begins, at its opcode fetch or interrupt, no alarm is due |
| MainLoop.PointsFill | src/6510core.c:436-480 | The drain points of every run, those in the middle of BRK and interrupts included, follow each other without a gap at most eight cycles apart |
| MainLoop.QuietAfter | src/6510core.c:139-143 | A pause leaves nothing that is due |
| MainLoop.Turn | src/6510core.c:2306-2345 | One instruction or interrupt with its pauses: where they are, what they drain and the queue they leave |
| MainLoop.Divided | src/6510core.c:456-478 | BRK and interrupts pause after five cycles, with the state saved, and again after two more |
| MainLoop.ProcessAlarms | src/6510core.c:139-143 | The settings of the chips since the last pause reach the queue, and the pause dispatches what the abstract drain does |
| MainLoop.AtMostEight | src/6510core.c:2454-3467 | No instruction takes more than eight cycles, and eight are taken exactly by read-modify-write with an indirect address |
| MainLoop.DrainPrompt | src/6510core.c:139-143 | The lateness of a drain is bounded by the distance to the one before |
| AciaAlarms.Run | src/aciacore.c:935-1272 | Any run of register accesses, resets, settings of other chips for whatever clock and drains, on a machine of 32915 Hz or more: from queue to queue every access happens and leaves other alarms alone, settings of others do not touch the chip, every drain is a drain of the queue that was left, fires the alarms of the chip in its order with the bytes that the line offered and leaves nothing due; and what is seen on the bus and the line keeps both conservation laws, pacing, the mailbox and the meaning of OVERRUN |
| AciaAlarms.ProcessAlarms | src/6510core.c:139-143 | A drain of a context with the ACIA and other chips terminates, is a drain in the sense of AlarmDrain, takes the chip through the firings of its alarms, and leaves nothing due, if a character takes a cycle or more |
| AciaAlarms.TransmitCallback | src/aciacore.c:1162-1199 | The transmit callback, on the real queue, meets the drain contract exactly if the ticks in force are at least one or it unsets its alarm |
| AciaAlarms.ReceiveCallback | src/aciacore.c:1225-1272 | So does the receive callback |
| AciaTraces.TransmitConservation | src/aciacore.c:955-971 | In every run the bytes put on the line, before masking, are a subsequence of the byte that waited at first and the bytes stored to the data register since: none is invented, reordered or sent twice |
| AciaTraces.TransmitPacing | src/aciacore.c:1155-1159 | In every run on a monotone clock, two bytes on the line with no reset, command or status store between them are at least the ticks in force at the first apart |
| AciaTraces.ReceiverIsMailbox | src/aciacore.c:1225-1272 | In every run RDRF, the latch and OVERRUN are those of a one-byte mailbox that gets what is fetched from the line, and a data register read returns its byte |
| AciaTraces.ReceiveConservation | src/aciacore.c:1069-1073 | In every run: bytes fetched from the line are bytes accepted plus bytes that came while RDRF was set, and the byte in the register at first and those accepted since are, in order and once each, those read while RDRF was set or thrown away by a reset and the one still in it |
| AciaTraces.BoxConservation | src/aciacore.c:1225-1256 | The same of the mailbox, for every honest trace of bytes that fit under a mask |
| AciaTraces.OverrunMeans | src/aciacore.c:1225-1256 | OVERRUN is set exactly if a byte was lost since the last data register read, status register store or reset, or it was set at first and there was none of these |
| AciaTiming.CommandPace | src/aciacore.c:1000-1023 | With the character time that the registers ask for in force, a command store leaves it so exactly if the number of cycles stays the same, or it raises DTR on a closed line, or it raises RTS while the receiver is off |
| AciaTiming.StaleParity | src/aciacore.c:618-632 | Parity switched on while the receiver runs: at 9600 bps and 960 kHz eleven bits still take 1000 cycles where they should take 1100 |
| AciaTiming.StorePace | src/aciacore.c:953-1034 | Of all register stores only that command store leaves the character time behind; the programmed reset keeps the parity bit |
| AciaTiming.PaceOfRun | src/aciacore.c:935-1272 | In every run without such a command store the character time is that of the registers |
| AciaTiming.DataStoreDue | src/aciacore.c:935-971 | A store to the data register leaves a pending transmit alarm later than the clock, or sets it so, exactly if it is not by a read-modify-write instruction with DTR up and the transmitter idle |
| AciaTiming.RmwDueAtOnce | src/aciacore.c:935-971 | On such a chip at clock 10 the read-modify-write store sets the alarm for clock 10, the plain store for clock 11 |
| AciaTraces.LatchStable | src/aciacore.c:1246-1252 | The received byte stays while RDRF is set |
| AciaTraces.StrayFiresOnce | src/aciacore.c:602-614 | A receive alarm left pending when RTS is dropped fires at most once more unless a command store raises RTS or opens the line |
| AciaTraces.RunSound | src/aciacore.c:935-1272 | In every state of every run in_tx is 0, 1 or 2, DR_WRITTEN implies that TDRE is clear, alarm_active_tx holds exactly if the transmit alarm is pending, alarm_active_rx implies that the receive alarm is, the line follows the latch, and OVERRUN implies RDRF |
| AciaTraces.NextSound | src/aciacore.c:935-1272 | Every register access, firing alarm and reset keeps that |
| AciaTraces.NextPasses | src/aciacore.c:1162-1199 | One event: what goes out and what waits afterwards comes from what waited and what was stored |
| AciaTraces.NextBox | src/aciacore.c:1225-1272 | One event does to the receiver what it does to the mailbox |
| Acia.TicksAtLeastOne | src/aciacore.c:347-421 | A character takes at least one cycle exactly if clock times frame bits is at least the line rate; 32915 Hz suffice for every setting |
| Acia.TicksAtMost | src/aciacore.c:347-421 | No character takes longer than twelve bits at 10 bps |
| AciaChip.Mos6551.constructor | src/aciacore.c:664-674 | A new chip has its two alarms in the context, neither pending, the state of acia_preinit, and the invariant of every run |
| AciaChip.Mos6551.SetTicks | src/aciacore.c:374-436 | set_acia_ticks on the struct and the queue is the re-timing of the specification, a running receive alarm moved to the new time |
| AciaChip.Mos6551.SetHandshakeLines | src/aciacore.c:596-661 | RTS, DTR, both active flags and both alarms follow the command register; dropping RTS leaves the receive alarm pending and unsets the transmit alarm |
| AciaChip.Mos6551.StoreData | src/aciacore.c:955-971 | A data store waits for the transmitter if DTR is up, and sets its alarm only if it is idle |
| AciaChip.Mos6551.StoreStatus | src/aciacore.c:972-995 | The programmed reset forgets the waiting byte, clears OVERRUN, takes the interrupt back and stops both directions |
| AciaChip.Mos6551.StoreCommand | src/aciacore.c:1000-1023 | A command store opens or closes the line, starts what starts with it and sets the handshake lines |
| AciaChip.Mos6551.StoreControl | src/aciacore.c:996-999 | A control store changes pace and receive alarm and never the transmit alarm |
| AciaChip.Mos6551.StoreExtended | src/aciacore.c:1024-1029 | The enhanced control register exists only while the control register selects it |
| AciaChip.Mos6551.Store | src/aciacore.c:935-953 | A read-modify-write instruction stores the byte read before it as well, a cycle earlier |
| AciaChip.Mos6551.Read | src/aciacore.c:1043-1102 | Every register read with its side effects |
| AciaChip.Mos6551.TransmitAlarm | src/aciacore.c:1162-1199 | A byte is sent exactly if one waits and the line is open; the alarm is set a character on unless there is nothing left to do, and the queue changes in nothing else |
| AciaChip.Mos6551.ReceiveAlarm | src/aciacore.c:1225-1272 | A fetched byte is latched or lost, and a disabled receiver does not set its alarm again |
| AciaChip.Mos6551.Reset | src/aciacore.c:677-714 | A reset takes both alarms out of the queue, the interrupt back and every register to its default |
| AciaChip.Room | src/alarm.h:155-171 | With no more alarms registered than can be pending, setting one is never refused |
| Adders.Adc65C02 | src/65c02core.c:540-572 | The 65C02 adds all operands in both modes as the 6510 does, V included; N and Z show the result |
| Adders.Adc65816Byte | src/65816core.c:1362-1388 | So does the 65816 with an 8-bit accumulator |
| Adders.Adc65816Word | src/65816core.c:1389-1421 | The 65816 with a 16-bit accumulator gives the bytes and carry of two 8-bit additions, binary and decimal |
| Subtracters.Sbc65C02 | src/65c02core.c:1203-1226 | The 65C02 subtracts as the 6510 does exactly if it is not in decimal mode with a low digit difference below -10; C and V always agree |
| Subtracters.CorrectedRight | src/65c02core.c:1203-1226 | The corrected binary difference is the packed decimal one exactly if the low digit does not borrow twice |
| Subtracters.Disagree65C02 | src/65c02core.c:1203-1226 | $00 - $0F in decimal mode is $8B on the 65C02 and $9B on the 6510 |
| Subtracters.Sbc65816Byte | src/65816core.c:2275-2296 | The 65816 with an 8-bit accumulator subtracts all operands as the 6510 does |
| Subtracters.Sbc65816Word | src/65816core.c:2296-2316 | With a 16-bit accumulator binary subtraction is exact, and decimal subtraction takes its minuend from the low byte alone |
| Subtracters.WordRightWhen | src/65816core.c:2300-2309 | So the 16-bit decimal subtraction gives the right result and carry exactly if the high byte of the accumulator is zero |
| Subtracters.WordWrong | src/65816core.c:2300-2309 | 1000 - 1 is 999, but the masked accumulator gives 9999 and a borrow |
| Chains.AddChainExact | src/6510core.c:758-791 | A chain of n ADCs over packed decimal (or binary) bytes gives packed bytes whose value plus 100^n (256^n) times the carry is the exact sum |
| Chains.SubChainExact | src/6510core.c:1704-1733 | A chain of n SBCs gives packed bytes whose value minus 100^n (256^n) times the borrow is the exact difference |
| Chains.RoundTrip | src/6510core.c:1704-1733 | Subtracting the addend again restores the original bytes at every length, the final borrow being the carry of the sum |
| Chains.ByteRoundTrip | src/6510core.c:1704-1733 | One byte there and back |
| Chains.AddBytes | src/65c02core.c:540-572 | Chains of 6510, 65C02 and 65816 8-bit additions of any length give the same bytes and carry, for all operands in both modes |
| Chains.AddWords | src/65816core.c:1389-1421 | Half as many 65816 16-bit additions give them too |
| Chains.SubBytes | src/65c02core.c:1203-1226 | Chains of subtractions agree in the final carry always, and in the bytes exactly if no byte of a decimal 65C02 chain corrects its low digit twice |
| Chains.PackedNeverDoubles | src/65c02core.c:1203-1226 | Packed decimal operands never do |
| BlockMove.MoveCompletes | src/65816core.c:1925-1956 | MVN and MVP from count C, the state keeping the mode invariant, move C+1 bytes, each between the cells that its index values and bank operands name, indices wrapping at their width; they end with C=$FFFF, DBR the last destination bank, PC three on modulo 64K and the indices C+1 steps on, if no byte but the last lands on the instruction |
| BlockMove.StraightMove | src/65816core.c:1925-1956 | If the index ranges do not wrap and the instruction does not straddle the end of its bank, that is a copy between two ranges of cells |
| BlockMove.Counting | src/65816core.c:1925-1956 | Whatever is copied, the count runs down by one and the program counter moves with the last byte and not before |
| BlockMove.RunMove | src/65816core.c:1925-1956 | The repeated instruction terminates after exactly C+1 iterations |
| BlockMove.CopyEffect | src/65816core.c:1925-1956 | Every destination byte, for every overlap: a destination ahead of the source receives a repeating pattern as long as its lead |
| BlockMove.CopyFrame | src/65816core.c:1925-1956 | Nothing outside the destination is written |
| BlockMove.FaithfulWhen | src/65816core.c:1925-1956 | A block move is a memmove for every memory exactly if the destination does not start inside the source still to be read |
| BlockMove.InterruptedAt | src/65816core.c:1925-1956 | Interrupting the move at any iteration boundary, with a handler that restores the registers and writes only cells the move does not read, changes nothing else |
| BlockMove.MoveSplits | src/65816core.c:1925-1956 | A move may be cut at any iteration boundary |
| BlockMove.InstructionStays | src/65816core.c:1925-1956 | No cell of the instruction is overwritten while it repeats, if no byte but the last lands on it |
| BlockMove.Progress | src/65816core.c:1925-1956 | Where the count, the indices and the memory stand after j bytes, and that the program counter stays |
| BlockMove.OperandCells | src/65816core.c:1929-1938 | The last iteration and the ones before it read the same bank operands, for every memory and count, exactly if the instruction does not straddle the end of its bank |
| Modes65816.ModesReachable | src/65816core.c:2183-2210 | After a reset of any state and any instructions, interrupts and resets, emulation mode keeps the stack in page one and narrow index registers hold bytes |
| Modes65816.ModesHold | src/65816core.c:318-330 | Every run from a state with that invariant keeps it |
| Modes65816.ModesKept | src/65816core.c:318-330 | Every instruction that touches the stack pointer, an index register or a width, every interrupt and reset keeps that invariant, those that move the stack pointer past the page and bring it back included; for the rest the case Other says that the sources write none of these registers |
| Modes65816.ResetEstablishes | src/65816core.c:2183-2210 | Reset establishes it from any state |
| NativeStack.LifoRun | src/65816core.c:1861-1879 | In native mode, from any stack pointer, every properly nested run of pushes, calls and interrupts keeps bank 0 a stack of frames |
| NativeStack.Bracket | src/65816core.c:2217-2273 | A push, any balanced run and the matching pull restore the frame, the stack pointer and every byte above |
| NativeStack.HandlerReturns | src/65816core.c:1724-1754 | NMI or IRQ and RTI restore PC, PBR, P and SP around any balanced handler, and index registers that were 16 bits wide are not cut |
| NativeStack.FarCallReturns | src/65816core.c:2243-2260 | RTL comes back four bytes after its JSR_LONG in the calling bank, with SP restored |
| NativeStack.FarCallEmulated | src/65816core.c:1861-1879 | In emulation mode RTL undoes JSR_LONG, whatever the memory, exactly if the stack pointer is $0103 or more |
| NativeStack.CallReturns | src/65816core.c:1828-1859 | RTS comes back three bytes after its JSR, with SP restored |
| Cpu65816.Wdc65816.Execute | src/65816core.c:1362-2545 | Each modelled macro, statement by statement on raw registers and lazy flags, does what its specification says |
| Cpu65816.Wdc65816.SetNZ | src/65816core.c:143-151 | The lazy flags of 8-bit and 16-bit results show N and Z of the whole result |
| Cpu65816.Folded | src/65816core.c:143-151 | A 16-bit result is zero exactly if its low byte or-ed with its high byte is |
| Cpu65816.Wdc65816.SetFlags | src/65816core.c:218-220 | Setting the status keeps N and Z out of reg_p, and the flags the core then sees, wide or narrow, are those of the byte |
| Cpu65816.Wdc65816.PushStatus | src/65816core.c:229-235 | The pushed byte is that of the eager flags, with the unused bit set in emulation mode |
| Cpu65816.Wdc65816.PushUnwrapped | src/65816core.c:1998-2064 | The second byte of a pushed word may leave page one in emulation mode, the stack pointer may not |
| Cpu65816.Wdc65816.JsrLong | src/65816core.c:1861-1879 | JSR_LONG fetches the new bank after the old one is on the stack |
| Cpu65816.Wdc65816.JsrIndexed | src/65816core.c:1842-1859 | JSR (nnnn,X) fetches the high byte of its operand after pushing the return address |

## Left out

- Simulation.Lockstep: program counters are compared modulo 64K, memory is flat, no cycles are stolen; the clock of a jammed core is not compared.
- JAM itself, ROM traps at opcode $02, C64DTV register remapping, drive CPU byte-ready hooks and 8502 refresh cycles.
- Interrupt recognition and its delays: which interrupt is accepted when, and NMI taking over an IRQ, is the vector parameter; whether an NMI takes over BRK is an input too.
- The RDY-dependent variants of ANE, LXA and the SHx stores, and side effects of dummy accesses on I/O.
- MosCpu.Mos6510.SetStatus: what both 6510 cores write in the same words (this, ADC, SBC, ARR, flag instructions, push and pull) is modelled once, so a future divergence of their texts would not show.
- The 65C02 and 65816 cores beyond the modelled macros: their addressing modes deliver operands as parameters, and all instructions that touch neither stack nor index registers nor widths are the one case `Other`.
- Clock cycles of the 65816 and 65C02, LOAD_INT_ADDR rerouting of the SuperCPU, WAI and STP.
- BlockMove.MoveCompletes: demands that no byte but the last overwrites the instruction, because from then on another instruction runs; the count and the program counter are covered without that (BlockMove.Counting).
- BlockMove.FaithfulWhen: like BlockMove.CopyEffect, is about ranges of cells that do not wrap inside their bank; what a wrapping move does is BlockMove.MoveCompletes.
- SteppedCore.DoIrqBrk: the alarms processed and the NMI noticed in its middle are the vector parameter.
- Modes65816.ModesKept: that the instructions of the case `Other` write none of the registers concerned is taken from the sources, not proved from their addressing modes.
- NativeStack.LifoRun: is about native mode; in emulation mode the exact reach of a far call is NativeStack.FarCallEmulated, and nested runs there are not claimed.
- Adders.Adc65816Word: claims result and carry; its decimal overflow flag compares the 8-bit accumulator with a 16-bit sum.
- Subtracters.Sbc65816Word: claims result and carry.
- AlarmQueue.AlarmContext.Dispatch: demands a cached clock below CLOCK_MAX, because at CLOCK_MAX the loop of the cores cannot tell an alarm from an empty queue.
- AlarmDrain.Drain: the clock stands still during a drain; callbacks that steal cycles or create alarms are not modelled.
- AciaChip.Mos6551.constructor: demands that no more than 256 alarms are registered, so that the queue never refuses the two of the chip; and clocks are taken to be a character short of 2^64.
- AciaAlarms.Run: the interrupt line is that of a chip wired to one; acia_set_irq and acia_set_mode at run time, snapshots and dumps are left out.
- AciaChip.Mos6551.SetTicks: the double arithmetic of the character time is exact real arithmetic here.
- ACIA echo, framing and parity errors, which the source does not generate either.
- Resources, command lines, logging, monitor, profiler, tracing, attach and autostart.
