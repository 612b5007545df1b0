# Atari 2600 emulator core: CPU, bus and TIA registers

This project models, and proves properties of, the core of a browser-based Atari 2600 emulator. The core has four parts:

- **The 6502/6507 CPU** (Rust, compiled to WebAssembly). It is a cycle-stepped state machine. Each call to `clock` advances it by one CPU cycle, and every memory access goes through a host `Device`. This part covers:
  - the helpers (`adc`, `compare`, `increment`, `decrement`, `set_negative_zero_flags`, stack push and pop, the PC fetch);
  - the micro-steps of every addressing mode, including page-crossing dummy reads, the JMP-indirect page wrap and relative branches;
  - the stack instructions, JSR's return-address pushes and the interrupt-entry sequence;
  - `clock` and `new_cpu`.
- **The interrupt vectors**: the address each interrupt kind is dispatched through.
- **The console bus decoder** (`Atari2600.read_byte`/`write_byte`, JavaScript). It works as follows:
  - It masks the address to the 13 pins the 6507 has.
  - It splits the result into the TIA window (a stub), 128 bytes of RAM, unused space, the PIA ports and the cartridge ROM.
  - It keeps the decoder's off-by-one index arithmetic.
- **The TIA video chip's register file** (JavaScript). There are two copies: the module `tia.js` and an inline copy in `atari2600.js`.
  - The read path packs collision latches into bits 6 and 7, decoded from the low four address bits.
  - The write path sets sizes, colours, enables, reflections, vertical delays, motion values and the 20-bit playfield word, and handles the clear strobes.
  - As modelled, the two copies differ only in the audio registers, which in the inline copy fall through into GRP0. As written, the module copy also differs in one more way: its latch reads, colour writes and HM* writes call `static` helpers through `this`, and so throw (see "Left out").

## Modelling choices

**Modules and files:**

| module | file | contents |
|---|---|---|
| `CpuRegisters` | `registers.dfy` | register file and status flags |
| `Alu` | `alu.dfy` | arithmetic helpers as functions of the operands and the old status byte |
| `Addressing` | `addressing.dfy` | address arithmetic |
| `Stack` | `stack.dfy` | the stack as a value, with the push/pull round trips |
| `Interrupts` | `interrupts.dfy` | interrupt kinds and vectors |
| `Opcodes` | `opcodes.dfy` | opcode descriptors |
| `CpuStates` | `cpu_state.dfy` | the micro-step state machine's states |
| `Memory` | `memory.dfy` | the host `Device` |
| `Mos6507` | `cpu.dfy` | the `Cpu` class |
| `Console` | `atari2600.dfy` | the bus decoder |
| `TiaFields` | `tia_fields.dfy` | field decoding of TIA register values |
| `Video` | `tia.dfy` | the TIA register file |
| `Wrappers` | `wrappers.dfy` | `Option` |

**The CPU:**
- Rust's `u8` and `u16` are integer subtypes. Every `wrapping_add`/`wrapping_sub` is written out, and the status register is a `bv8`.
- The `Cpu` is a class. Its methods update `registers`, `state`, `cycles` and `polledInterrupt` in place, and each method's `ensures` gives the new state in terms of the old one.
- The host `Device` is a class with a total 64 KiB `map` and a trace of every read, write and interrupt poll, so dummy reads are observable.
- A `panic!` in a micro-step is the outcome `Panicked`. `Clock` then leaves `state` and `cycles` unchanged. Device accesses made before the panic stay in place, as in the source.
- The opcode table, each operation's instruction type and `Opcode::execute` live in modules that are not part of this model. They are given to the `Cpu` as an `InstructionSet` value:
  - `execute` is a function from the opcode, the registers, the operand and the address to the new registers and the next state;
  - the micro-step methods state their results in terms of it.

**The bus and the TIA:**
- The decoder's addresses and values are JavaScript numbers (`int`). Its RAM is an `array` updated in place.
- A read past the end of the RAM or ROM yields JavaScript's `undefined`, here `None`.
- TIA data values are 32-bit words below 0x100 (`DataByte`), because JavaScript's bitwise operators work on 32-bit integers. The bound below 0x100 is the 6507's 8-bit data bus: the only writer hands over a `u8` (src/lib.rs:23-24).
- The TIA object's 25 fields keep their source names. They are grouped into six records (sync, playfield, objects, motion, latches, colours). `WriteByte` reassigns the group that a write touches.
- The pure function `Written` gives the new values of all fields. The class's `WriteByte` is proved to produce exactly that.

## Model

| member | source | states |
|---|---|---|
| `Interrupts.Offset` | src/cpu/interrupts.rs:13-20 | NMI is dispatched through 0xFFFA, RESET through 0xFFFC, and IRQ and BRK both through 0xFFFE; every vector lies in the last page, below 0xFFFF |
| `Interrupts.OffsetIgnoresCycle` | src/cpu/interrupts.rs:13-19 | the vector depends on the interrupt kind only, never on the cycle it carries |
| `Interrupts.VectorHighByteFollows` | src/cpu/mod.rs:374-384 | reading a vector's high byte at offset + 1 never wraps around the address space |
| `CpuRegisters.SetFlag` | src/cpu/mod.rs:136-150 | switching a flag on or off sets exactly those bits as asked and keeps every other status bit |
| `CpuRegisters.WrappingIncrement` | src/cpu/mod.rs:115-118 | the stack pointer's step up is addition of one modulo 256 |
| `CpuRegisters.WrappingDecrement` | src/cpu/mod.rs:110-113 | the stack pointer's step down is subtraction of one modulo 256 |
| `CpuRegisters.WrappingSteps` | src/cpu/mod.rs:110-118 | the stack pointer's step up and step down undo each other, wrap-around included |
| `Alu.Signed` | src/cpu/mod.rs:735-738 | a byte read as `i8` lies in -128..127, is non-negative exactly when bit 7 is clear, and is congruent to the byte modulo 256 |
| `Alu.NegativeZeroFlags` | src/cpu/mod.rs:175-182 | Z is set iff the value is 0 and N iff its bit 7 is set; every other flag is kept |
| `Alu.CarryIn` | src/cpu/mod.rs:128-135 | the carry added by `adc` is 1 exactly when C is set and 0 otherwise |
| `Alu.AddWithCarry` | src/cpu/mod.rs:127-151 | A becomes (A + operand + C) mod 256; C iff that sum exceeds 255; Z iff the new A is 0; N iff the new A is at least 0x80; D, I, B and bit 5 are kept |
| `Alu.AddFlags` | src/cpu/mod.rs:136-150 | the four flag updates of `adc` set V, Z, N and C exactly as given and keep the other bits |
| `Alu.AddWithCarryOverflowIsSignedOverflow` | src/cpu/mod.rs:136-139 | the V flag computed from sign bits is set iff the signed sum of A, the operand and the carry leaves -128..127 |
| `Alu.Compare` | src/cpu/mod.rs:153-159 | C iff register >= operand; Z iff they are equal; N is bit 7 of their wrapped difference; the other flags are kept |
| `Alu.Increment` | src/cpu/mod.rs:168-173 | the result is value + 1 mod 256; Z iff the value was 0xFF; N iff the result is at least 0x80; other flags kept |
| `Alu.Decrement` | src/cpu/mod.rs:161-166 | the result is value - 1 mod 256; Z iff the value was 1; N iff the result is at least 0x80; other flags kept |
| `Alu.NegativeZeroFlagsOverwrite` | src/cpu/mod.rs:175-182 | a second N/Z update completely overwrites the first |
| `Alu.IncrementUndoesDecrement` | src/cpu/mod.rs:161-173 | incrementing the result of a decrement gives back the value, with the N/Z flags of that value |
| `Addressing.Address` | src/cpu/mod.rs:266-266 | the assembled address has the low byte as its low byte and the high byte as its high byte |
| `Addressing.AddressRoundTrip` | src/cpu/mod.rs:929-931 | assembling an address from two bytes and splitting it again are inverse operations, both ways |
| `Addressing.NextUndoesPrevious` | src/cpu/mod.rs:945-962 | the return address JSR pushes (PC - 1) and the increment of RTS (+ 1) undo each other, wrapping at 0 and 0xFFFF |
| `Addressing.IndexedAddress` | src/cpu/mod.rs:266-267 | an indexed address is the base address plus the index, modulo 65536 |
| `Addressing.UncarriedAddress` | src/cpu/mod.rs:273-274 | the first-read address keeps the base's high byte |
| `Addressing.UncarriedAddressWrongIffCrossesPage` | src/cpu/mod.rs:265-315 | the first-read address equals the correct one iff adding the index does not carry out of the low byte; when it does carry, it is exactly one page too low |
| `Addressing.ZeroPageIndexed` | src/cpu/mod.rs:794-800 | a zero-page indexed address stays in page zero: (low + index) mod 256 |
| `Addressing.IndirectJumpHighByteAddress` | src/cpu/mod.rs:503-516 | indirect JMP reads the target's high byte from the pointer's own page |
| `Addressing.IndirectJumpPageWrap` | src/cpu/mod.rs:503-516 | the high byte comes from pointer + 1, except when the pointer ends a page; then it comes from the start of that same page |
| `Addressing.BranchTarget` | src/cpu/mod.rs:735-738 | a taken branch goes to PC plus the sign-extended offset, modulo 65536 |
| `Addressing.BranchCondition` | src/cpu/mod.rs:696-730 | BCC and BCS test C, BEQ and BNE test Z, BMI and BPL test N, BVC and BVS test V; BCS, BEQ, BMI and BVS are taken when their flag is set, the other four when it is clear; every other operation has no condition (the source panics) |
| `Addressing.BranchPairsComplementary` | src/cpu/mod.rs:696-728 | BCC/BCS, BEQ/BNE, BMI/BPL and BVC/BVS are complementary for every status |
| `Addressing.StackAddress` | src/cpu/mod.rs:110-118 | every stack access lies in page 1, at the address whose low byte is SP |
| `Addressing.PushedStatus` | src/cpu/mod.rs:357-366 | the pushed status keeps every flag but bits 4 and 5; bit 5 is set; bit 4 is set iff the interrupt is BRK |
| `Addressing.RestoredStatus` | src/cpu/mod.rs:909-916 | PLP and RTI keep every pulled bit except bits 4 and 5, which are clear |
| `Addressing.StatusRoundTrip` | src/cpu/mod.rs:357-366 | pulling back a status pushed on interrupt entry restores every flag except bits 4 and 5 |
| `Stack.PushStaysOnPageOne` | src/cpu/mod.rs:110-113 | a push changes no byte outside page 1 |
| `Stack.Push` | src/cpu/mod.rs:110-113 | a push stores the byte at 0x0100 + SP and nowhere else, then SP steps down by one modulo 256 |
| `Stack.Pull` | src/cpu/mod.rs:115-118 | a pull steps SP up by one modulo 256 and returns the byte at 0x0100 + the new SP; memory is unchanged |
| `Stack.PullUndoesPush` | src/cpu/mod.rs:110-118 | a pop right after a push returns the pushed byte and restores SP |
| `Stack.PullsUndoTwoPushes` | src/cpu/mod.rs:110-118 | two pops return two pushed bytes in reverse order and restore SP, whatever SP was (wrap-around included) |
| `Stack.PullsUndoThreePushes` | src/cpu/mod.rs:110-118 | three pops return three pushed bytes in reverse order and restore SP |
| `Stack.InterruptFrameRoundTrip` | src/cpu/mod.rs:327-370 | after interrupt entry pushes PCH, PCL and the status, RTI's pulls give back the interrupted PC, SP, and every flag but bits 4 and 5 |
| `Stack.SubroutineFrameRoundTrip` | src/cpu/mod.rs:929-969 | after JSR pushes PC - 1, RTS's pulls and increment give back the PC that JSR pushed from, and SP |
| `Memory.Device.constructor` | src/lib.rs:16-28 | a device holds a byte at every address and starts with an empty access trace |
| `Memory.Device.ReadByte` | src/lib.rs:20-21 | a read returns the stored byte, changes no memory, and is recorded in the trace |
| `Memory.Device.WriteByte` | src/lib.rs:23-24 | a write stores the byte at the address and nowhere else, and is recorded in the trace |
| `Memory.Device.PollForInterrupts` | src/lib.rs:26-28 | a poll is recorded in the trace; its answer is not used |
| `Mos6507.Cpu.constructor` | src/cpu/mod.rs:1011-1025 | a new CPU fetches its first opcode from the address in the RESET vector, with the given cycle count, the cycle counter at 1 and no polled interrupt |
| `Mos6507.Cpu.PushToStack` | src/cpu/mod.rs:110-113 | memory and SP become those of a stack push, and only the stack slot is written |
| `Mos6507.Cpu.PopFromStack` | src/cpu/mod.rs:115-118 | the value and the new SP are those of a stack pull; memory is unchanged |
| `Mos6507.Cpu.ReadAndIncProgramCounter` | src/cpu/mod.rs:120-125 | returns the byte at PC, and PC advances by one with wrap-around |
| `Mos6507.Cpu.Adc` | src/cpu/mod.rs:127-151 | A and the status become those of `AddWithCarry`; X, Y, SP and PC are kept |
| `Mos6507.Cpu.Compare` | src/cpu/mod.rs:153-159 | only the status register changes, as `Alu.Compare` gives it; the compared register is not written |
| `Mos6507.Cpu.Decrement` | src/cpu/mod.rs:161-166 | returns the decremented value and sets the status as `Alu.Decrement` gives it |
| `Mos6507.Cpu.Increment` | src/cpu/mod.rs:168-173 | returns the incremented value and sets the status as `Alu.Increment` gives it |
| `Mos6507.Cpu.SetNegativeZeroFlags` | src/cpu/mod.rs:175-182 | only N and Z change, as `NegativeZeroFlags` gives them |
| `Mos6507.Cpu.StepInterruptHandler` | src/cpu/mod.rs:321-386 | the seven interrupt cycles, each with its new registers, memory, trace and next state (`InterruptStepped`). Two internal cycles read PC. The status push re-polls, lets a pending interrupt override IRQ and BRK (never NMI or RESET), pushes PCH, PCL and the status byte, and sets I. PC is loaded from the vector, low byte first. Only the status push clears the polled interrupt |
| `Mos6507.Cpu.StepFetchOpcode` | src/cpu/mod.rs:390-412 | fetches the opcode at PC, advances PC, and chooses the throwaway read (accumulator or implied mode) or operand fetching |
| `Mos6507.Cpu.StepThrowawayRead` | src/cpu/mod.rs:874-884 | reads the byte at PC and discards it (only BRK advances PC), then executes |
| `Mos6507.Cpu.NextAbsoluteModeState` | src/cpu/mod.rs:184-232 | low byte, high byte, then jumps and writes execute at once with the address; every other instruction reads the operand at the address first |
| `Mos6507.Cpu.NextAbsoluteIndexedModeState` | src/cpu/mod.rs:234-319 | a Read takes an extra cycle with a dummy read at the uncarried address iff the index crosses a page; a ReadModifyWrite always does; any other instruction reads the uncarried address and executes with the correct one; a high byte before a low byte panics |
| `Mos6507.Cpu.NextIndirectModeState` | src/cpu/mod.rs:454-518 | the pointer's two bytes, the target's low byte, then the target's high byte read with the page-wrap bug, and the jump |
| `Mos6507.Cpu.NextIndirectXIndexedModeState` | src/cpu/mod.rs:519-603 | the (zp,X) cycles: the pointer byte; a cycle with no bus access; the target's low and high bytes from page zero at pointer + X and pointer + X + 1; then the operand at the target. A write executes as soon as the target is known |
| `Mos6507.Cpu.NextIndirectYIndexedModeState` | src/cpu/mod.rs:604-691 | the (zp),Y cycles: the target's bytes from page zero at the pointer and pointer + 1, then Y is added. A write always reads the uncarried address first. Any other instruction reads the uncarried address and takes one more cycle iff Y crosses a page |
| `Mos6507.Cpu.NextRelativeModeState` | src/cpu/mod.rs:692-750 | a non-branch panics; an untaken branch goes back to fetching; a taken branch executes now, or takes one more cycle iff the target is on another page |
| `Mos6507.Cpu.NextZeroPageModeState` | src/cpu/mod.rs:751-779 | the address byte, then the operand at $00LL; a write reads it in the same cycle as the address byte |
| `Mos6507.Cpu.NextZeroPageIndexedModeState` | src/cpu/mod.rs:780-867 | the address byte, a dummy read of the unindexed address, then the operand at the indexed address within page zero; a write completes one cycle early |
| `Mos6507.Cpu.ReadImmediate` | src/cpu/mod.rs:445-453 | the operand is the byte at PC, executed with its own address |
| `Mos6507.Cpu.StepReadingOperand` | src/cpu/mod.rs:413-873 | operand fetching dispatches on the addressing mode to that mode's step (`OperandStep`): X indexes the X modes and Y the Y modes, and memory is unchanged. It panics exactly in the accumulator and implied modes, in an indexed mode with the high byte first, and in relative mode for a non-branch; a panic in the accumulator or implied mode touches nothing |
| `Mos6507.Cpu.StepPreIncrementStackPointer` | src/cpu/mod.rs:890-899 | PLA, PLP and RTI pull a register next; RTS pulls PCL; anything else panics |
| `Mos6507.Cpu.StepPullRegisterFromStack` | src/cpu/mod.rs:900-924 | PLA pulls A and sets N/Z from it; PLP and RTI pull the status without bits 4 and 5; PLA and PLP poll and fetch next, RTI goes on to pull PCL; anything else panics and changes nothing (`PulledRegister`) |
| `Mos6507.Cpu.StepPla` | src/cpu/mod.rs:901-906 | PLA's pull cycle: the poll and the stack read are traced, A and N/Z come from the pulled byte, SP steps up, and the opcode fetch follows |
| `Mos6507.Cpu.StepPlp` | src/cpu/mod.rs:907-913 | PLP's pull cycle: the poll and the stack read are traced, the status becomes the pulled byte without bits 4 and 5, SP steps up, and the opcode fetch follows |
| `Mos6507.Cpu.StepRti` | src/cpu/mod.rs:914-919 | RTI's status pull: the status becomes the pulled byte without bits 4 and 5, SP steps up, and PCL is pulled next |
| `Mos6507.Cpu.PullAccumulator` | src/cpu/mod.rs:901-906 | A becomes the pulled byte, with N and Z of that byte, and SP steps up |
| `Mos6507.Cpu.PullStatus` | src/cpu/mod.rs:907-916 | the status becomes the pulled byte without bits 4 and 5, and SP steps up |
| `Mos6507.Cpu.StepPullPCHFromStack` | src/cpu/mod.rs:929-944 | PC is assembled from the pulled PCL and PCH and SP steps up; RTS then increments PC; RTI polls and fetches; anything else panics after the read (`PulledPCH`) |
| `Mos6507.Cpu.StepCpu` | src/cpu/mod.rs:388-1006 | one instruction cycle: each of the fifteen micro-steps is given with its new registers, memory, trace and outcome (`Stepped`), and it panics exactly at `StepPanics` states. Stack pushes and pulls move SP by one with wrap-around. JSR pushes PC - 1, high byte first. A dummy write step only clears its flag; the real one polls before it writes |
| `Mos6507.Cpu.StepStackCycle` | src/cpu/mod.rs:885-1006 | the stack and return micro-steps of `step_cpu`, each as `Stepped` gives it |
| `Mos6507.Cpu.StepWriteReturnAddress` | src/cpu/mod.rs:951-969 | JSR pushes PC - 1, high byte then low byte, and then sets PC |
| `Mos6507.Cpu.StepWritingResult` | src/cpu/mod.rs:984-1004 | a dummy write changes nothing but the flag; the real write polls first, then stores the byte |
| `Mos6507.Cpu.Clock` | src/cpu/mod.rs:1029-1044 | one clock cycle: the step taken is exactly the CPU micro-step or interrupt cycle of the old state, with its new registers, memory and trace (`Took`). It panics exactly at `StepPanics` states, and then state, cycles and the polled interrupt stay. Otherwise the cycle count grows by one (wrapping as a `u32`). A step that lands on an opcode fetch while an interrupt is pending goes to `InternalOps1` of that interrupt and clears it; any other step becomes the new state, with the pending interrupt kept (cleared by the status push) |
| `Mos6507.Cpu.Step` | src/cpu/mod.rs:1031-1034 | the dispatch of `clock` to `step_cpu` or `step_interrupt_handler` on the current state (`Took`) |
| `Mos6507.Cpu.Settle` | src/cpu/mod.rs:1036-1043 | after a step: an opcode fetch with an interrupt pending becomes `InternalOps1` of it and clears it; otherwise the step's state stands; the cycle count grows by one modulo 2^32 |
| `Mos6507.Cpu.Execute` | src/cpu/mod.rs:229-229 | the registers and the next state become those the instruction set's `execute` returns for the old registers |
| `Mos6507.ResolveInterrupt` | src/cpu/mod.rs:342-355 | a polled interrupt overrides IRQ and BRK; NMI and RESET always stand; with nothing polled the interrupt stands |
| `Mos6507.StepPanics` | src/cpu/mod.rs:413-944 | only operand reads and the pull micro-steps can panic; an operand at a fixed, zero-page or immediate address is always read; RTS and RTI never panic before their pulls |
| `Console.Masked` | www/src/emulator/atari2600.js:9-9 | the masked address lies in 0..0x1FFF and differs from the address by a multiple of 0x2000 |
| `Console.WindowOf` | www/src/emulator/atari2600.js:11-21 | an address is in the RAM window iff it is in 0x80..0xFF, and in the ROM window iff it is at least 0x1000 |
| `Console.ReadAt` | www/src/emulator/atari2600.js:8-26 | a read yields nothing exactly at 0xFF (one past the RAM) and at ROM addresses past the image |
| `Console.RamAfterWrite` | www/src/emulator/atari2600.js:28-46 | a write keeps the RAM's size and changes at most the one index the address maps to |
| `Console.ReadMirrors` | www/src/emulator/atari2600.js:8-9 | a read depends only on the address modulo 0x2000 |
| `Console.WriteMirrors` | www/src/emulator/atari2600.js:28-29 | a write depends only on the address modulo 0x2000 |
| `Console.RamRoundTrip` | www/src/emulator/atari2600.js:13-34 | for 0x80..0xFE, reading back a written address gives the value's low byte |
| `Console.RamSlotZeroIsNeverUsed` | www/src/emulator/atari2600.js:33-34 | no write reaches `ram[0]`; 0x80 writes `ram[1]` |
| `Console.TopOfRamWindowIsOutOfRange` | www/src/emulator/atari2600.js:13-14 | 0xFF indexes past the 128-byte RAM: a write there is dropped and a read yields nothing |
| `Console.WritesOutsideRamWindowChangeNothing` | www/src/emulator/atari2600.js:31-43 | a write outside 0x80..0xFF leaves the RAM unchanged |
| `Console.StubWindowsReadZero` | www/src/emulator/atari2600.js:11-25 | the TIA, unused and PIA windows read 0 |
| `Console.RomReads` | www/src/emulator/atari2600.js:21-22 | a read at or above 0x1000 returns `rom[masked - 0xFFF]`: the first ROM byte is never read, and 0x1FFF reads past a 4 KiB image |
| `Console.RamWritesToOtherAddressesDoNotInterfere` | www/src/emulator/atari2600.js:28-34 | a write changes no read of another masked address |
| `Console.RamAfterWrites` | www/src/emulator/atari2600.js:28-46 | a sequence of writes keeps the RAM's size, and one that never touches 0x80..0xFE leaves the RAM as it was |
| `Console.LastWrite` | www/src/emulator/atari2600.js:28-34 | there is a last value for a reduced address iff some write in the sequence went to that address |
| `Console.ReadSeesLastWrite` | www/src/emulator/atari2600.js:8-34 | RAM at 0x80..0xFE behaves as memory: after any sequence of writes, a read returns the low byte of the last value written to the same reduced address, or what it read before if no write went there |
| `Console.Atari2600.constructor` | www/src/emulator/atari2600.js:2-6 | the RAM is 128 zero bytes and the ROM is the given image |
| `Console.Atari2600.ReadByte` | www/src/emulator/atari2600.js:8-26 | the in-place decoder reads exactly what `ReadAt` gives for the current RAM |
| `Console.Atari2600.WriteByte` | www/src/emulator/atari2600.js:28-46 | the RAM array becomes `RamAfterWrite` of its old contents; nothing else is written |
| `TiaFields.ReadCxLatch` | www/src/emulator/tia.js:55-55 | only bits 6 and 7 can be set: bit 6 iff the first latch, bit 7 iff the second |
| `TiaFields.Signed4HighBit` | www/src/emulator/tia.js:57-61 | 0 when bit 7 is clear, otherwise minus bits 4..6; always in -7..0 |
| `TiaFields.Signed4HighBitIsNotTwosComplement` | www/src/emulator/tia.js:57-61 | 0xF0 (-1 as a signed nibble) gives -7 and 0x10 (+1) gives 0 |
| `TiaFields.ColorOf` | www/src/emulator/tia.js:50-53 | luminance 0..7 from bits 1..3 and hue 0..15 from bits 4..7; together they rebuild the value without bit 0 |
| `TiaFields.Pf0` | www/src/emulator/tia.js:147-150 | PF0 keeps bits 0..15, clears bits 16..19 and puts the value's high nibble at bits 20..23 |
| `TiaFields.Pf1` | www/src/emulator/tia.js:151-154 | PF1 puts the value at bits 8..15, keeps bits 0..7 and 16..19, and clears bits 20 and up |
| `TiaFields.Pf2` | www/src/emulator/tia.js:155-158 | PF2 puts the value at bits 0..7, keeps bits 8..19 and clears bits 20 and up |
| `TiaFields.Pf0Idempotent` | www/src/emulator/tia.js:147-150 | writing PF0 twice with one value is writing it once |
| `TiaFields.Pf1Idempotent` | www/src/emulator/tia.js:151-154 | writing PF1 twice with one value is writing it once |
| `TiaFields.Pf2Idempotent` | www/src/emulator/tia.js:155-158 | writing PF2 twice with one value is writing it once |
| `TiaFields.Pf0LostAfterPf1OrPf2` | www/src/emulator/tia.js:147-158 | a PF1 or PF2 write erases everything a PF0 write stored, while PF1 and PF2 keep each other's bits |
| `Video.PowerOn` | www/src/emulator/tia.js:5-36 | the constructor gives every array the shape the read and write paths index |
| `Video.ReadRegister` | www/src/emulator/tia.js:63-103 | as in the inline copy (www/src/emulator/atari2600.js:119-159), where `read_cxlatch` is callable: bits 0..5 always read 0 and 0x08..0x0F read 0; each of 0x00..0x07 (low nibble) reports in bits 6 and 7 exactly its two collision latches: M0 and M1 against P0/P1 and against PF/BL, P0 and P1 against PF/BL, BL against PF in bit 7 only, and M0-M1/P0-P1 |
| `Video.PlayfieldWritten` | www/src/emulator/tia.js:138-158 | only CTRLPF and PF0..PF2 change the playfield fields; CTRLPF keeps the playfield word, and PF0, PF1 and PF2 change only the word, as `Pf0`, `Pf1` and `Pf2` give it |
| `Video.WrittenNusiz` | www/src/emulator/tia.js:38-41 | NUSIZ stores player size bits 0..2 and missile size bits 4..6 (each 0..7) for one object, leaving the other object and every other field alone |
| `Video.WrittenCtrlpf` | www/src/emulator/tia.js:43-48 | CTRLPF sets reflection, score colour and priority from bits 0, 1, 2 and ball size 0..3 from bits 4..5, leaving the playfield word alone |
| `Video.ReadDecodesLowNibble` | www/src/emulator/tia.js:63-103 | a read depends only on the address's low four bits; 0x08..0x0F read 0; no read sets bits 0..5 |
| `Video.UnreadLatchesDoNotMatter` | www/src/emulator/tia.js:63-98 | no read reaches missile 1's last latch or player 1's last latch |
| `Video.MotionWritten` | www/src/emulator/tia.js:189-226 | HMP0, HMP1, HMM0, HMM1 and HMBL each store the decoded nibble in their own slot and leave the other four; HMCLR gives all-zero motion; no other address changes the motion values |
| `Video.SyncWritten` | www/src/emulator/tia.js:107-116 | each sync write changes one flag only: VSYNC sets `vsyncFlag`, VBLANK `vblankFlag`, each from bit 1; WSYNC raises the wait request; other addresses change nothing |
| `Video.SyncWriteUsesOnlyBitOne` | www/src/emulator/tia.js:107-116 | only bit 1 of the value matters; WSYNC ignores the value; once raised, the wait request stays raised |
| `Video.ColorsWritten` | www/src/emulator/tia.js:126-137 | COLUP0, COLUP1 and COLUPF each store the value's colour in their own slot and leave the others; the background colour never changes |
| `Video.AudioWritten` | www/src/emulator/atari2600.js:222-231 | audio writes change nothing in the module copy and set GRP0 in the inline copy |
| `Video.ObjectsWritten` | www/src/emulator/tia.js:120-212 | object writes keep the two-element arrays two elements long |
| `Video.ObjectsWritePlayerSizes` | www/src/emulator/tia.js:38-41 | NUSIZ0 and NUSIZ1 store bits 0..2 as their own player's size; no other address changes a player size |
| `Video.ObjectsWriteMissileSizes` | www/src/emulator/tia.js:38-41 | NUSIZ0 and NUSIZ1 store bits 4..6 as their own missile's size; no other address changes a missile size |
| `Video.ObjectsWriteReflect` | www/src/emulator/tia.js:141-146 | REFP0 and REFP1 each store bit 3 in their own player's flag; no other address changes reflection |
| `Video.ObjectsWriteGraphics` | www/src/emulator/tia.js:166-179 | GRP0 and GRP1 store the whole byte in their own player; the audio registers also write GRP0 in the inline copy and nothing in the module copy; no other address changes the graphics |
| `Video.ObjectsWriteEnables` | www/src/emulator/tia.js:180-212 | ENAM0, ENAM1 and ENABL store bit 1, and VDELP0, VDELP1 and VDELBL bit 0, each in its own flag; no other address changes those flags |
| `Video.Written` | www/src/emulator/tia.js:105-235 | a write keeps the field shapes; only CXCLR changes the collision latches, and it clears every one of them; no write changes the background colour |
| `Video.NoOpWritesChangeNothing` | www/src/emulator/tia.js:159-235 | RSYNC, RESP0..RESBL, RESMP0/1, HMOVE, COLUBK, undefined addresses, and in the module copy the audio registers, change no field |
| `Video.HmclrZeroesMotion` | www/src/emulator/tia.js:220-226 | HMCLR zeroes exactly the five motion values and nothing else |
| `Video.CxclrClearsEveryRead` | www/src/emulator/tia.js:227-231 | after CXCLR every address reads 0, in either copy |
| `Video.OnlyCxclrChangesReads` | www/src/emulator/tia.js:105-235 | no write other than CXCLR changes what any read returns |
| `Video.CopiesDifferOnlyInAudio` | www/src/emulator/atari2600.js:161-291 | the two copies agree on every write but the audio registers, where the inline copy behaves as a GRP0 write and the module copy does nothing |
| `Video.NusizWriteIdempotent` | www/src/emulator/tia.js:120-125 | writing NUSIZ0/1 twice with one value is writing it once |
| `Video.AudioWriteIdempotent` | www/src/emulator/atari2600.js:222-231 | writing an audio register twice with one value is writing it once, in either copy |
| `Video.GraphicsWriteIdempotent` | www/src/emulator/tia.js:174-188 | writing GRP0/1 or ENAM0/1/ENABL twice with one value is writing it once |
| `Video.FlagWriteIdempotent` | www/src/emulator/tia.js:141-212 | writing REFP0/1 or VDELP0/1/VDELBL twice with one value is writing it once |
| `Video.ObjectsWriteIdempotent` | www/src/emulator/tia.js:120-212 | every object-register write is idempotent |
| `Video.MotionWriteIdempotent` | www/src/emulator/tia.js:189-226 | every motion-register write is idempotent |
| `Video.PlayfieldWriteIdempotent` | www/src/emulator/tia.js:138-158 | CTRLPF and PF0..PF2 writes are idempotent |
| `Video.WriteIdempotent` | www/src/emulator/tia.js:105-235 | every TIA register write is idempotent: writing one value twice is writing it once |
| `Video.WrittenAll` | www/src/emulator/tia.js:105-235 | a sequence of writes keeps the field shapes and the background colour, and one without CXCLR leaves the collision latches as they were |
| `Video.ClearedLatchesReadZero` | www/src/emulator/tia.js:63-98 | with every latch clear, every address reads 0 |
| `Video.LatchesStayCleared` | www/src/emulator/tia.js:105-235 | once the latches are clear they stay clear, whatever sequence of writes follows: no write sets a latch |
| `Video.ReadsStayZeroFromPowerOn` | www/src/emulator/tia.js:5-235 | from power-on, after any sequence of writes, every TIA read returns 0 in either copy, because nothing in the shown code sets a collision latch |
| `Video.Tia.constructor` | www/src/emulator/tia.js:5-36 | a new TIA holds the power-on values of every field |
| `Video.Tia.WriteNusiz` | www/src/emulator/tia.js:38-41 | the object fields become `WrittenNusiz` of their old values |
| `Video.Tia.WriteCtrlpf` | www/src/emulator/tia.js:43-48 | the playfield fields become `WrittenCtrlpf` of their old values |
| `Video.Tia.WriteByte` | www/src/emulator/tia.js:105-235 | as in the inline copy (www/src/emulator/atari2600.js:161-291), where the colour and motion helpers are callable: the fields become `Written` of their old values; the call raises exactly for COLUBK; the array shapes are kept |
| `Video.Tia.ReadByte` | www/src/emulator/tia.js:63-103 | a read returns `ReadRegister` of the latches, so bits 0..5 are always clear |
| `Video.Tia.WriteObjects` | www/src/emulator/tia.js:120-212 | the object fields become `ObjectsWritten` of their old values |
| `Video.Tia.WriteMotion` | www/src/emulator/tia.js:189-226 | the motion fields become `MotionWritten` of their old values |

## Left out

**Source defects the model does not reproduce:**
- The TIA's static helpers. `write_color`, `read_cxlatch` and `signed_4_high_bit` are `static` in `tia.js` but called through `this` (www/src/emulator/tia.js:50-61, 68, 127, 190). On an instance those lookups find nothing, so the calls would throw.
  - The model treats them as the plain functions the inline copy has (instance methods there).
- The colour objects. The constructors call `Color()` without `new` (www/src/emulator/tia.js:33-35, www/src/emulator/atari2600.js:89-91). For a class this throws.
  - The model starts every colour at luminance 0 and hue 0, the values `Color`'s constructor sets.

**Source behaviour kept as written:**
- COLUBK. It hands the boolean `playFieldColor` to `write_color` instead of a colour object (www/src/emulator/tia.js:135-136). In a class body (strict mode), storing a property on a boolean throws.
  - The model reports this write as raising and changes no state.
  - No write ever reaches `backgroundColor`.
- `write_color` aliasing. `write_color` updates the colour object in place. In the model a colour is a value, and the colour field is replaced instead. The TIA never shares one colour object between two fields, so nothing is lost.
- Other defects:
  - the PF0 nibble at bits 20..23, which PF1 and PF2 erase;
  - the sign-magnitude reading of the motion nibble;
  - the decoder's off-by-one RAM and ROM indices.

Each of these kept defects has a lemma above.

**CPU scope:**
- `Opcode::execute`, `OPCODE_TABLE`, `instruction_type`, `Registers::new` and `StatusFlags` are in modules that are not part of this model.
  - The first three are parameters of the CPU (`InstructionSet`). Their effect on the device (memory writes done inside `execute`) is not modelled; the model records only the registers and next state they return.
  - The flag positions are the 6502's own.
  - The registers other than PC start at a given value.
- `Mos6507.Cpu.Clock`: the cycle counter wraps at 2^32, as a Rust release build does. A debug build would panic on overflow; that is not modelled.
- `cpu_cycle_counter` is only initialised by the source and is not otherwise used.
- `poll_for_interrupts` on the device: the host only logs it and its answer is unused, so only the call is recorded in the trace. Nothing in the shown code ever sets `polled_interrupt` to a pending interrupt. The model still allows any value, so the interrupt-override paths are covered.
- `Memory.Device` models the host's `read_byte`/`write_byte` as a plain memory. In the source the device is the console itself (www/src/emulator/atari2600.js:3 passes `this` to `new_cpu`), so the CPU's accesses go through the decoder of `Console.Atari2600`. The model does not compose the two. Under that wiring:
  - the stack page 0x0100..0x01FF falls in the decoder's unused window (www/src/emulator/atari2600.js:14-15, 33-34): pushes are dropped and pulls read 0. `Stack.PullUndoesPush`, `Stack.InterruptFrameRoundTrip` and `Stack.SubroutineFrameRoundTrip` hold for a plain-memory device only;
  - `new_cpu` reads the RESET vector (src/cpu/mod.rs:1015-1016) inside the console constructor, before `this.rom` is assigned (www/src/emulator/atari2600.js:3 before 5), so that read throws. Even with a ROM in place, 0xFFFC masks to 0x1FFC and reads `rom[0xFFD]`. `Mos6507.Cpu.constructor` reads the vector from the plain-memory device.
- `Opcode::execute` is assumed to leave `polled_interrupt` and `cycles` alone: the model's `InstructionSet.execute` returns only the registers and the next state. The opcodes module that defines it is not part of this model.

**Console, TIA and host:**
- The console constructor's `wasm.new_cpu` call is a foreign call.
- The bus decoder does not forward TIA or PIA accesses (stubs in the source).
- Logging: every `console.log`/`console.error` and the `info!` calls.
- `console_error_panic_hook`: host tooling, not part of the core.
- The draw loop, frame scheduling, position resets, HMOVE, RESMP, audio and collision detection do not exist in the shown code; only their stubs are modelled.
- The colour palette (`tia_color`) is not part of this model.
- The TIA's 25 fields are grouped into six records. This changes no behaviour: each write replaces exactly the fields the source assigns.
- `Video.ObjectsWritten`: its own contract states only the shapes. The per-register effects are stated by the lemmas `ObjectsWritePlayerSizes`, `ObjectsWriteMissileSizes`, `ObjectsWriteReflect`, `ObjectsWriteGraphics` and `ObjectsWriteEnables`, which are kept apart to keep each proof small.
- TIA values of 0x100 and above, or negative ones, are not modelled. GRP0 and GRP1 store the value unmasked (www/src/emulator/tia.js:175, 178; www/src/emulator/atari2600.js:230, 233), but the only writer is the CPU's `write_byte` with a `u8` value (src/lib.rs:23-24).
- A JavaScript `-0` from `signed_4_high_bit` (a clear bit 7 times `-1`) is the number 0 here.
