/**
 * The cycle-stepped 6502/6507 core: a register file, the current micro-step state
 * and a cycle counter. `Clock` advances the core by exactly one CPU cycle; every
 * memory access of that cycle goes through the `Device`.
 */
module Mos6507 {
  import opened Wrappers
  import opened CpuRegisters
  import opened Interrupts
  import opened Opcodes
  import opened CpuStates
  import opened Addressing
  import opened Memory
  import opened Stack
  import Alu

  /** The Rust `u32` of the cycle counter. */
  type u32 = c: int | 0 <= c < 0x1_0000_0000

  /**
   * What one cycle can change outside the state machine: the register file, the
   * device's memory and its access trace. The step predicates below relate the
   * values before a cycle to the values after it.
   */
  datatype Machine = Machine(registers: Registers, mem: map<u16, u8>, trace: seq<Access>)

  class Cpu {
    var state: State
    var registers: Registers
    var cycles: u32
    var cpuCycleCounter: u8
    var polledInterrupt: Option<Interrupt>
    const isa: InstructionSet

    /**
     * `new_cpu`: the core starts fetching an opcode at the address held in the RESET
     * vector. `Registers::new` is not part of this model: the other registers'
     * starting values are given as `initial`.
     */
    constructor (initialCycles: u32, device: Device, isa: InstructionSet, initial: Registers)
      requires device.Valid()
      modifies device`trace
      ensures state == CpuStep(FetchOpcode)
      ensures registers == initial.(programCounter := Address(device.mem[0xFFFC], device.mem[0xFFFD]))
      ensures cycles == initialCycles && cpuCycleCounter == 1 && polledInterrupt == None
      ensures this.isa == isa
      ensures device.trace == old(device.trace) + [ReadAccess(0xFFFC), ReadAccess(0xFFFD)]
    {
      var low := device.ReadByte(Offset(Reset(0)));
      var high := device.ReadByte(NextAddress(Offset(Reset(0))));
      state := CpuStep(FetchOpcode);
      registers := initial.(programCounter := Address(low, high));
      cycles := initialCycles;
      cpuCycleCounter := 1;
      polledInterrupt := None;
      this.isa := isa;
    }

    /** The registers, memory and trace as they are now. */
    function Now(device: Device): Machine
      reads this`registers, device
    {
      Machine(registers, device.mem, device.trace)
    }

    // ---------------------------------------------------------------- helpers

    /** `push_to_stack`: write at `0x0100 | SP`, then SP wraps downward by one. */
    method PushToStack(device: Device, value: u8)
      requires device.Valid()
      modifies this`registers, device
      ensures device.Valid()
      ensures StackState(device.mem, registers.stackPointer) ==
        Push(StackState(old(device.mem), old(registers.stackPointer)), value)
      ensures registers == old(registers).(stackPointer := registers.stackPointer)
      ensures device.trace == old(device.trace) + [WriteAccess(StackAddress(old(registers.stackPointer)), value)]
    {
      device.WriteByte(StackAddress(registers.stackPointer), value);
      registers := registers.(stackPointer := WrappingDecrement(registers.stackPointer));
    }

    /** `pop_from_stack`: SP wraps upward by one, then the byte at `0x0100 | SP` is read. */
    method PopFromStack(device: Device) returns (value: u8)
      requires device.Valid()
      modifies this`registers, device`trace
      ensures device.Valid()
      ensures device.mem == old(device.mem)
      ensures Pull(StackState(device.mem, old(registers.stackPointer))) ==
        Pulled(StackState(device.mem, registers.stackPointer), value)
      ensures registers == old(registers).(stackPointer := registers.stackPointer)
      ensures device.trace == old(device.trace) + [ReadAccess(StackAddress(registers.stackPointer))]
    {
      registers := registers.(stackPointer := WrappingIncrement(registers.stackPointer));
      value := device.ReadByte(StackAddress(registers.stackPointer));
    }

    /** `read_and_inc_program_counter`: read the byte at PC, then PC wraps upward by one. */
    method ReadAndIncProgramCounter(device: Device) returns (value: u8)
      requires device.Valid()
      modifies this`registers, device`trace
      ensures value == device.mem[old(registers.programCounter)]
      ensures registers == old(registers).(programCounter := NextAddress(old(registers.programCounter)))
      ensures device.trace == old(device.trace) + [ReadAccess(old(registers.programCounter))]
    {
      value := device.ReadByte(registers.programCounter);
      registers := registers.(programCounter := NextAddress(registers.programCounter));
    }

    /** `adc`: A and the flags become those of `Alu.AddWithCarry`; X, Y, SP and PC are kept. */
    method Adc(operand: u8)
      modifies this`registers
      ensures var r := Alu.AddWithCarry(old(registers.a), operand, old(registers.statusRegister));
        registers == old(registers).(a := r.value, statusRegister := r.status)
    {
      var r := Alu.AddWithCarry(registers.a, operand, registers.statusRegister);
      registers := registers.(a := r.value, statusRegister := r.status);
    }

    /** `compare`: only the status register changes; the compared register is left as it was. */
    method Compare(operand: u8, register: u8)
      modifies this`registers
      ensures registers == old(registers).(statusRegister := Alu.Compare(operand, register, old(registers.statusRegister)))
    {
      registers := registers.(statusRegister := Alu.Compare(operand, register, registers.statusRegister));
    }

    /** `decrement`: returns the value minus one and sets N and Z from it. */
    method Decrement(value: u8) returns (result: u8)
      modifies this`registers
      ensures var r := Alu.Decrement(value, old(registers.statusRegister));
        result == r.value && registers == old(registers).(statusRegister := r.status)
    {
      var r := Alu.Decrement(value, registers.statusRegister);
      registers := registers.(statusRegister := r.status);
      result := r.value;
    }

    /** `increment`: returns the value plus one and sets N and Z from it. */
    method Increment(value: u8) returns (result: u8)
      modifies this`registers
      ensures var r := Alu.Increment(value, old(registers.statusRegister));
        result == r.value && registers == old(registers).(statusRegister := r.status)
    {
      var r := Alu.Increment(value, registers.statusRegister);
      registers := registers.(statusRegister := r.status);
      result := r.value;
    }

    /** `set_negative_zero_flags`. */
    method SetNegativeZeroFlags(operand: u8)
      modifies this`registers
      ensures registers == old(registers).(statusRegister := Alu.NegativeZeroFlags(operand, old(registers.statusRegister)))
    {
      registers := registers.(statusRegister := Alu.NegativeZeroFlags(operand, registers.statusRegister));
    }

    /** `Opcode::execute`, which belongs to the instruction set. */
    method Execute(opcode: Opcode, value: Option<u8>, address: Option<u16>) returns (next: State)
      modifies this`registers
      ensures Executed(registers, next) == isa.execute(opcode, old(registers), value, address)
    {
      var e := isa.execute(opcode, registers, value, address);
      registers := e.registers;
      next := e.next;
    }

    // ------------------------------------------------------ interrupt entry

    /** A push of one byte: stored at `0x0100 | SP`, SP moved down, the write traced. */
    ghost predicate PushedByte(before: Machine, after: Machine, value: u8)
    {
      var sp := before.registers.stackPointer;
      && after.mem == before.mem[StackAddress(sp) := value]
      && after.trace == before.trace + [WriteAccess(StackAddress(sp), value)]
      && after.registers == before.registers.(stackPointer := WrappingDecrement(sp))
    }

    /**
     * One cycle of interrupt entry: two internal cycles, push PCH, push PCL, push the
     * status byte (re-polling first: a pending interrupt overrides IRQ and BRK, never
     * NMI or RESET), then load PC from the vector, low byte first.
     */
    ghost predicate InterruptStepped(before: Machine, after: Machine, polled: Option<Interrupt>, s: InterruptState, next: State)
    {
      && Total(after.mem)
      && match s
         case InternalOps1(i) =>
           && next == InterruptStep(InternalOps2(i))
           && after.registers == before.registers && after.mem == before.mem && after.trace == before.trace
         case InternalOps2(i) =>
           && next == InterruptStep(PushPCH(i))
           && after.registers == before.registers && after.mem == before.mem && after.trace == before.trace
         case PushPCH(i) =>
           next == InterruptStep(PushPCL(i)) && PushedByte(before, after, HighByte(before.registers.programCounter))
         case PushPCL(i) =>
           next == InterruptStep(PushStatusRegister(i)) && PushedByte(before, after, LowByte(before.registers.programCounter))
         case PushStatusRegister(i) =>
           var resolved := ResolveInterrupt(i, polled);
           var pushed := PushedStatus(resolved.IrqBrk?, before.registers.statusRegister) as int;
           var sp := before.registers.stackPointer;
           && next == InterruptStep(PullIRQVecHigh(resolved))
           && after.mem == before.mem[StackAddress(sp) := pushed]
           && after.trace == before.trace + [PollAccess(false), WriteAccess(StackAddress(sp), pushed)]
           && after.registers == before.registers.(
                stackPointer := WrappingDecrement(sp),
                statusRegister := before.registers.statusRegister | InterruptDisableFlag)
         case PullIRQVecHigh(i) =>
           && next == InterruptStep(PullIRQVecLow(i))
           && after.registers == before.registers.(programCounter := after.mem[Offset(i)])
           && after.mem == before.mem
           && after.trace == before.trace + [ReadAccess(Offset(i))]
         case PullIRQVecLow(i) =>
           && next == CpuStep(FetchOpcode)
           && after.registers == before.registers.(programCounter :=
                Address(LowByte(before.registers.programCounter), after.mem[NextAddress(Offset(i))]))
           && after.mem == before.mem
           && after.trace == before.trace + [ReadAccess(NextAddress(Offset(i)))]
    }

    /** `step_interrupt_handler`: one cycle of interrupt entry; only the status push clears the polled interrupt. */
    method StepInterruptHandler(device: Device, s: InterruptState) returns (next: State)
      requires device.Valid()
      modifies this`registers, this`polledInterrupt, device
      ensures InterruptStepped(old(Now(device)), Now(device), old(polledInterrupt), s, next)
      ensures s.PushStatusRegister? ==> polledInterrupt == None
      ensures !s.PushStatusRegister? ==> polledInterrupt == old(polledInterrupt)
    {
      match s
      case InternalOps1(i) =>
        next := InterruptStep(InternalOps2(i));
      case InternalOps2(i) =>
        next := InterruptStep(PushPCH(i));
      case PushPCH(i) =>
        PushToStack(device, HighByte(registers.programCounter));
        next := InterruptStep(PushPCL(i));
      case PushPCL(i) =>
        PushToStack(device, LowByte(registers.programCounter));
        next := InterruptStep(PushStatusRegister(i));
      case PushStatusRegister(i) =>
        device.PollForInterrupts(false);
        var resolved := ResolveInterrupt(i, polledInterrupt);
        polledInterrupt := None;
        PushToStack(device, PushedStatus(resolved.IrqBrk?, registers.statusRegister) as int);
        registers := registers.(statusRegister := registers.statusRegister | InterruptDisableFlag);
        next := InterruptStep(PullIRQVecHigh(resolved));
      case PullIRQVecHigh(i) =>
        var low := device.ReadByte(Offset(i));
        registers := registers.(programCounter := low);
        next := InterruptStep(PullIRQVecLow(i));
      case PullIRQVecLow(i) =>
        var high := device.ReadByte(NextAddress(Offset(i)));
        registers := registers.(programCounter := Address(LowByte(registers.programCounter), high));
        next := CpuStep(FetchOpcode);
    }

    // ------------------------------------------------------ instruction steps

    /** The opcode fetch: read at PC, PC moves on, and the opcode's addressing mode picks the next cycle. */
    ghost predicate FetchedOpcode(before: Machine, after: Machine, next: State)
    {
      var pc := before.registers.programCounter;
      && Total(after.mem)
      && var opcode := isa.table(after.mem[pc]);
      && after.registers == before.registers.(programCounter := NextAddress(pc))
      && after.trace == before.trace + [ReadAccess(pc)]
      && next == CpuStep(
           match opcode.addressMode
           case Accumulator => ThrowawayRead(opcode, Some(before.registers.a))
           case Implied => ThrowawayRead(opcode, None)
           case _ => StartReading(opcode))
    }

    /** Cycle 1: fetch the opcode at PC and choose the instruction's next cycle by its addressing mode. */
    method StepFetchOpcode(device: Device) returns (next: State)
      requires device.Valid()
      modifies this`registers, device`trace
      ensures FetchedOpcode(old(Now(device)), Now(device), next)
    {
      var code := ReadAndIncProgramCounter(device);
      var opcode := isa.table(code);
      match opcode.addressMode
      case Accumulator =>
        next := CpuStep(ThrowawayRead(opcode, Some(registers.a)));
      case Implied =>
        next := CpuStep(ThrowawayRead(opcode, None));
      case _ =>
        next := CpuStep(StartReading(opcode));
    }

    /** The dummy read of implied and accumulator modes, then `execute`; BRK's read also advances PC. */
    ghost predicate ThrewAway(before: Machine, after: Machine, opcode: Opcode, operand: Option<u8>, next: State)
    {
      var pc := before.registers.programCounter;
      var read := if opcode.operation == BRK then before.registers.(programCounter := NextAddress(pc)) else before.registers;
      && after.trace == before.trace + [ReadAccess(pc)]
      && Executed(after.registers, next) == isa.execute(opcode, read, operand, None)
    }

    /**
     * Cycle 2 of implied and accumulator modes: read the byte at PC and discard it.
     * Only BRK also advances PC past it.
     */
    method StepThrowawayRead(device: Device, opcode: Opcode, operand: Option<u8>) returns (next: State)
      requires device.Valid()
      modifies this`registers, device`trace
      ensures ThrewAway(old(Now(device)), Now(device), opcode, operand, next)
    {
      if opcode.operation == BRK {
        var _ := ReadAndIncProgramCounter(device);
      } else {
        var _ := device.ReadByte(registers.programCounter);
      }
      next := Execute(opcode, operand, None);
    }

    /** One absolute-mode cycle, by which address bytes are already known. */
    ghost predicate AbsoluteModeStep(before: Machine, after: Machine, opcode: Opcode, low: Option<u8>, high: Option<u8>, next: State)
    {
      var pc := before.registers.programCounter;
      var fetched := before.registers.(programCounter := NextAddress(pc));
      var kind := isa.instructionType(opcode.operation);
      && Total(after.mem)
      && (low.None? ==>
            && after.registers == fetched
            && after.trace == before.trace + [ReadAccess(pc)]
            && next == CpuStep(ReadingOperand(opcode, Some(after.mem[pc]), high, None, None, None, false)))
      && (low.Some? && high.None? ==>
            && after.trace == before.trace + [ReadAccess(pc)]
            && (if kind == Jump || kind == Write then
                  Executed(after.registers, next) == isa.execute(opcode, fetched, None, Some(Address(low.value, after.mem[pc])))
                else
                  after.registers == fetched
                  && next == CpuStep(ReadingOperand(opcode, low, Some(after.mem[pc]), None, None, None, false))))
      && (low.Some? && high.Some? ==>
            var address := Address(low.value, high.value);
            && after.trace == before.trace + [ReadAccess(address)]
            && Executed(after.registers, next) == isa.execute(opcode, before.registers, Some(after.mem[address]), Some(address)))
    }

    /** Absolute mode: low byte, high byte, then (except for jumps and writes) the operand at $HHLL. */
    method NextAbsoluteModeState(device: Device, opcode: Opcode, low: Option<u8>, high: Option<u8>)
      returns (next: State)
      requires device.Valid()
      modifies this`registers, device`trace
      ensures AbsoluteModeStep(old(Now(device)), Now(device), opcode, low, high, next)
    {
      match (low, high)
      case (None, _) =>
        var b := ReadAndIncProgramCounter(device);
        next := CpuStep(ReadingOperand(opcode, Some(b), high, None, None, None, false));
      case (Some(lowByte), None) =>
        var highByte := ReadAndIncProgramCounter(device);
        var kind := isa.instructionType(opcode.operation);
        if kind == Jump || kind == Write {
          next := Execute(opcode, None, Some(Address(lowByte, highByte)));
        } else {
          next := CpuStep(ReadingOperand(opcode, low, Some(highByte), None, None, None, false));
        }
      case (Some(lowByte), Some(highByte)) =>
        var address := Address(lowByte, highByte);
        var value := device.ReadByte(address);
        next := Execute(opcode, Some(value), Some(address));
    }

    /** One absolute-indexed cycle with the given index register's value. */
    ghost predicate AbsoluteIndexedModeStep(
      before: Machine, after: Machine, opcode: Opcode, low: Option<u8>, high: Option<u8>, checkedPageBoundary: bool, index: u8, out: Outcome)
    {
      var pc := before.registers.programCounter;
      && Total(after.mem)
      && (low.None? && high.Some? <==> out.Panicked?)
      && (low.None? && high.None? ==>
            && after.registers == before.registers.(programCounter := NextAddress(pc))
            && after.trace == before.trace + [ReadAccess(pc)]
            && out == Continue(CpuStep(ReadingOperand(opcode, Some(after.mem[pc]), None, None, None, None, false))))
      && (low.Some? && high.None? ==>
            && after.registers == before.registers.(programCounter := NextAddress(pc))
            && after.trace == before.trace + [ReadAccess(pc)]
            && out == Continue(CpuStep(ReadingOperand(opcode, low, Some(after.mem[pc]), None, None, None, false))))
      && (low.Some? && high.Some? ==>
            var correct := IndexedAddress(low.value, high.value, index);
            var uncarried := UncarriedAddress(low.value, high.value, index);
            var kind := isa.instructionType(opcode.operation);
            var extraCycle := Continue(CpuStep(ReadingOperand(opcode, low, high, None, None, None, true)));
            && out.Continue?
            && (if checkedPageBoundary || (kind == Read && !CrossesPage(low.value, index)) then
                  after.trace == before.trace + [ReadAccess(correct)]
                  && Executed(after.registers, out.next) == isa.execute(opcode, before.registers, Some(after.mem[correct]), Some(correct))
                else if kind == Read || kind == ReadModifyWrite then
                  after.trace == before.trace + [ReadAccess(uncarried)]
                  && after.registers == before.registers && out == extraCycle
                else
                  after.trace == before.trace + [ReadAccess(uncarried)]
                  && Executed(after.registers, out.next) == isa.execute(opcode, before.registers, Some(after.mem[uncarried]), Some(correct))))
    }

    /**
     * Absolute X/Y-indexed mode. In its third cycle a Read instruction whose index
     * crosses a page first reads the un-carried address and takes one more cycle;
     * a ReadModifyWrite instruction always does so; any other instruction reads the
     * un-carried address and completes with the corrected one.
     */
    method NextAbsoluteIndexedModeState(
      device: Device, opcode: Opcode, low: Option<u8>, high: Option<u8>, checkedPageBoundary: bool, index: u8)
      returns (out: Outcome)
      requires device.Valid()
      modifies this`registers, device`trace
      ensures AbsoluteIndexedModeStep(old(Now(device)), Now(device), opcode, low, high, checkedPageBoundary, index, out)
    {
      match (low, high)
      case (None, None) =>
        var b := ReadAndIncProgramCounter(device);
        out := Continue(CpuStep(ReadingOperand(opcode, Some(b), high, None, None, None, false)));
      case (Some(_), None) =>
        var b := ReadAndIncProgramCounter(device);
        out := Continue(CpuStep(ReadingOperand(opcode, low, Some(b), None, None, None, false)));
      case (Some(lowByte), Some(highByte)) =>
        var correct := IndexedAddress(lowByte, highByte, index);
        UncarriedAddressWrongIffCrossesPage(lowByte, highByte, index);
        if checkedPageBoundary {
          var value := device.ReadByte(correct);
          var next := Execute(opcode, Some(value), Some(correct));
          out := Continue(next);
        } else {
          var firstRead := UncarriedAddress(lowByte, highByte, index);
          match isa.instructionType(opcode.operation)
          case Read =>
            if correct == firstRead {
              var value := device.ReadByte(correct);
              var next := Execute(opcode, Some(value), Some(correct));
              out := Continue(next);
            } else {
              var _ := device.ReadByte(firstRead);
              out := Continue(CpuStep(ReadingOperand(opcode, low, high, None, None, None, true)));
            }
          case ReadModifyWrite =>
            var _ := device.ReadByte(firstRead);
            out := Continue(CpuStep(ReadingOperand(opcode, low, high, None, None, None, true)));
          case _ =>
            var value := device.ReadByte(firstRead);
            var next := Execute(opcode, Some(value), Some(correct));
            out := Continue(next);
        }
      case (None, Some(_)) =>
        out := Panicked;
    }

    /** One cycle of JMP indirect. */
    ghost predicate IndirectModeStep(
      before: Machine, after: Machine, opcode: Opcode, indirectLow: Option<u8>, indirectHigh: Option<u8>, low: Option<u8>, next: State)
    {
      var pc := before.registers.programCounter;
      && Total(after.mem)
      && (indirectLow.None? ==>
            && after.registers == before.registers.(programCounter := NextAddress(pc))
            && after.trace == before.trace + [ReadAccess(pc)]
            && next == CpuStep(ReadingOperand(opcode, None, None, None, Some(after.mem[pc]), None, false)))
      && (indirectLow.Some? && indirectHigh.None? ==>
            && after.registers == before.registers.(programCounter := NextAddress(pc))
            && after.trace == before.trace + [ReadAccess(pc)]
            && next == CpuStep(ReadingOperand(opcode, None, None, None, indirectLow, Some(after.mem[pc]), false)))
      && (indirectLow.Some? && indirectHigh.Some? && low.None? ==>
            var pointer := Address(indirectLow.value, indirectHigh.value);
            && after.registers == before.registers
            && after.trace == before.trace + [ReadAccess(pointer)]
            && next == CpuStep(ReadingOperand(opcode, Some(after.mem[pointer]), None, None, indirectLow, indirectHigh, false)))
      && (indirectLow.Some? && indirectHigh.Some? && low.Some? ==>
            var highAddress := IndirectJumpHighByteAddress(indirectLow.value, indirectHigh.value);
            && after.trace == before.trace + [ReadAccess(highAddress)]
            && Executed(after.registers, next) ==
                 isa.execute(opcode, before.registers, None, Some(Address(low.value, after.mem[highAddress]))))
    }

    /**
     * Indirect mode (JMP only): pointer low, pointer high, target low byte from the
     * pointer, target high byte from the pointer's low byte plus one within the same page.
     */
    method NextIndirectModeState(
      device: Device, opcode: Opcode, indirectLow: Option<u8>, indirectHigh: Option<u8>, low: Option<u8>)
      returns (next: State)
      requires device.Valid()
      modifies this`registers, device`trace
      ensures IndirectModeStep(old(Now(device)), Now(device), opcode, indirectLow, indirectHigh, low, next)
    {
      match (indirectLow, indirectHigh, low)
      case (None, _, _) =>
        var b := ReadAndIncProgramCounter(device);
        next := CpuStep(ReadingOperand(opcode, None, None, None, Some(b), None, false));
      case (Some(_), None, _) =>
        var b := ReadAndIncProgramCounter(device);
        next := CpuStep(ReadingOperand(opcode, None, None, None, indirectLow, Some(b), false));
      case (Some(pointerLow), Some(pointerHigh), None) =>
        var b := device.ReadByte(Address(pointerLow, pointerHigh));
        next := CpuStep(ReadingOperand(opcode, Some(b), None, None, indirectLow, indirectHigh, false));
      case (Some(pointerLow), Some(pointerHigh), Some(lowByte)) =>
        var highByte := device.ReadByte(IndirectJumpHighByteAddress(pointerLow, pointerHigh));
        next := Execute(opcode, None, Some(Address(lowByte, highByte)));
    }

    /** One (Indirect,X) cycle. */
    ghost predicate IndirectXIndexedModeStep(
      before: Machine, after: Machine, opcode: Opcode, indirectLow: Option<u8>, pointer: Option<u8>,
      low: Option<u8>, high: Option<u8>, indirectHigh: Option<u8>, next: State)
    {
      var pc := before.registers.programCounter;
      && Total(after.mem)
      && (indirectLow.None? ==>
            && after.registers == before.registers.(programCounter := NextAddress(pc))
            && after.trace == before.trace + [ReadAccess(pc)]
            && next == CpuStep(ReadingOperand(opcode, low, high, None, Some(after.mem[pc]), indirectHigh, false)))
      && (indirectLow.Some? && pointer.None? ==>
            && after.registers == before.registers && after.trace == before.trace
            && next == CpuStep(ReadingOperand(opcode, low, high, indirectLow, indirectLow, indirectHigh, false)))
      && (indirectLow.Some? && pointer.Some? && low.None? ==>
            var address := ZeroPageIndexed(indirectLow.value, before.registers.x);
            && after.registers == before.registers
            && after.trace == before.trace + [ReadAccess(address)]
            && next == CpuStep(ReadingOperand(opcode, Some(after.mem[address]), high, pointer, indirectLow, indirectHigh, false)))
      && (indirectLow.Some? && pointer.Some? && low.Some? && high.None? ==>
            var highPointer := (indirectLow.value + before.registers.x + 1) % 0x100;
            var target := Address(low.value, after.mem[highPointer]);
            && after.trace == before.trace + [ReadAccess(highPointer)]
            && (if isa.instructionType(opcode.operation) == Write then
                  Executed(after.registers, next) == isa.execute(opcode, before.registers, None, Some(target))
                else
                  after.registers == before.registers
                  && next == CpuStep(ReadingOperand(opcode, low, Some(after.mem[highPointer]), pointer, indirectLow, Some(highPointer), false))))
      && (indirectLow.Some? && pointer.Some? && low.Some? && high.Some? ==>
            var address := Address(low.value, high.value);
            && after.trace == before.trace + [ReadAccess(address)]
            && Executed(after.registers, next) == isa.execute(opcode, before.registers, Some(after.mem[address]), Some(address)))
    }

    /**
     * (Indirect,X) mode: zero-page pointer, pointer plus X (no bus access in this
     * model's source), target low and high bytes from page zero with wrap-around, then
     * the operand unless the instruction only writes.
     */
    method NextIndirectXIndexedModeState(
      device: Device, opcode: Opcode, indirectLow: Option<u8>, pointer: Option<u8>,
      low: Option<u8>, high: Option<u8>, indirectHigh: Option<u8>)
      returns (next: State)
      requires device.Valid()
      modifies this`registers, device`trace
      ensures IndirectXIndexedModeStep(old(Now(device)), Now(device), opcode, indirectLow, pointer, low, high, indirectHigh, next)
    {
      match (indirectLow, pointer, low, high)
      case (None, _, _, _) =>
        var b := ReadAndIncProgramCounter(device);
        next := CpuStep(ReadingOperand(opcode, low, high, None, Some(b), indirectHigh, false));
      case (Some(_), None, _, _) =>
        next := CpuStep(ReadingOperand(opcode, low, high, indirectLow, indirectLow, indirectHigh, false));
      case (Some(pointerLow), Some(_), None, _) =>
        var b := device.ReadByte(ZeroPageIndexed(pointerLow, registers.x));
        next := CpuStep(ReadingOperand(opcode, Some(b), high, pointer, indirectLow, indirectHigh, false));
      case (Some(pointerLow), Some(_), Some(lowByte), None) =>
        var highPointer := (pointerLow as int + registers.x + 1) % 0x100;
        var highByte := device.ReadByte(highPointer);
        if isa.instructionType(opcode.operation) == Write {
          next := Execute(opcode, None, Some(Address(lowByte, highByte)));
        } else {
          next := CpuStep(ReadingOperand(opcode, low, Some(highByte), pointer, indirectLow, Some(highPointer), false));
        }
      case (Some(_), Some(_), Some(lowByte), Some(highByte)) =>
        var address := Address(lowByte, highByte);
        var value := device.ReadByte(address);
        next := Execute(opcode, Some(value), Some(address));
    }

    /** One (Indirect),Y cycle. */
    ghost predicate IndirectYIndexedModeStep(
      before: Machine, after: Machine, opcode: Opcode, indirectLow: Option<u8>, low: Option<u8>, high: Option<u8>,
      indirectHigh: Option<u8>, checkedPageBoundary: bool, next: State)
    {
      var pc := before.registers.programCounter;
      && Total(after.mem)
      && (indirectLow.None? ==>
            && after.registers == before.registers.(programCounter := NextAddress(pc))
            && after.trace == before.trace + [ReadAccess(pc)]
            && next == CpuStep(ReadingOperand(opcode, low, high, None, Some(after.mem[pc]), indirectHigh, false)))
      && (indirectLow.Some? && low.None? ==>
            && after.registers == before.registers
            && after.trace == before.trace + [ReadAccess(indirectLow.value)]
            && next == CpuStep(ReadingOperand(opcode, Some(after.mem[indirectLow.value]), high, None, indirectLow, indirectHigh, false)))
      && (indirectLow.Some? && low.Some? && high.None? ==>
            var highPointer := (indirectLow.value + 1) % 0x100;
            && after.registers == before.registers
            && after.trace == before.trace + [ReadAccess(highPointer)]
            && next == CpuStep(ReadingOperand(opcode, low, Some(after.mem[highPointer]), indirectLow, indirectLow, indirectHigh, false)))
      && (indirectLow.Some? && low.Some? && high.Some? ==>
            var y := before.registers.y;
            var correct := IndexedAddress(low.value, high.value, y);
            var uncarried := UncarriedAddress(low.value, high.value, y);
            if isa.instructionType(opcode.operation) == Write then
              after.trace == before.trace + [ReadAccess(uncarried)]
              && Executed(after.registers, next) == isa.execute(opcode, before.registers, None, Some(correct))
            else if checkedPageBoundary || !CrossesPage(low.value, y) then
              after.trace == before.trace + [ReadAccess(correct)]
              && Executed(after.registers, next) == isa.execute(opcode, before.registers, Some(after.mem[correct]), Some(correct))
            else
              after.trace == before.trace + [ReadAccess(uncarried)]
              && after.registers == before.registers
              && next == CpuStep(ReadingOperand(opcode, low, high, None, indirectLow, indirectHigh, true)))
    }

    /**
     * (Indirect),Y mode: zero-page pointer, target low and high bytes from page zero,
     * then Y is added. A write always reads the un-carried address first; any other
     * instruction does so, and takes one more cycle, only when Y crosses a page.
     */
    method NextIndirectYIndexedModeState(
      device: Device, opcode: Opcode, indirectLow: Option<u8>, low: Option<u8>, high: Option<u8>,
      indirectHigh: Option<u8>, checkedPageBoundary: bool)
      returns (next: State)
      requires device.Valid()
      modifies this`registers, device`trace
      ensures IndirectYIndexedModeStep(old(Now(device)), Now(device), opcode, indirectLow, low, high, indirectHigh, checkedPageBoundary, next)
    {
      match (indirectLow, low, high)
      case (None, _, _) =>
        var b := ReadAndIncProgramCounter(device);
        next := CpuStep(ReadingOperand(opcode, low, high, None, Some(b), indirectHigh, false));
      case (Some(pointerLow), None, _) =>
        var b := device.ReadByte(pointerLow);
        next := CpuStep(ReadingOperand(opcode, Some(b), high, None, indirectLow, indirectHigh, false));
      case (Some(pointerLow), Some(lowByte), None) =>
        var b := device.ReadByte((pointerLow as int + 1) % 0x100);
        next := CpuStep(ReadingOperand(opcode, low, Some(b), Some(pointerLow), indirectLow, indirectHigh, false));
      case (Some(_), Some(lowByte), Some(highByte)) =>
        var dummyAddress := UncarriedAddress(lowByte, highByte, registers.y);
        var address := IndexedAddress(lowByte, highByte, registers.y);
        UncarriedAddressWrongIffCrossesPage(lowByte, highByte, registers.y);
        if isa.instructionType(opcode.operation) == Write {
          var _ := device.ReadByte(dummyAddress);
          next := Execute(opcode, None, Some(address));
        } else if checkedPageBoundary || dummyAddress == address {
          var value := device.ReadByte(address);
          next := Execute(opcode, Some(value), Some(address));
        } else {
          var _ := device.ReadByte(dummyAddress);
          next := CpuStep(ReadingOperand(opcode, low, high, None, indirectLow, indirectHigh, true));
        }
    }

    /** The relative-mode cycle: the offset is read and the branch condition decides. */
    ghost predicate RelativeModeStep(before: Machine, after: Machine, opcode: Opcode, out: Outcome)
    {
      var pc := before.registers.programCounter;
      var fetched := before.registers.(programCounter := NextAddress(pc));
      var taken := BranchCondition(opcode.operation, before.registers.statusRegister);
      && Total(after.mem)
      && var operand := after.mem[pc];
      && var target := BranchTarget(NextAddress(pc), operand);
      && after.trace == before.trace + [ReadAccess(pc)]
      && (taken.None? <==> out.Panicked?)
      && (taken == Some(false) ==> after.registers == fetched && out == Continue(CpuStep(FetchOpcode)))
      && (taken == Some(true) && BranchChangesPage(NextAddress(pc), target) ==>
            after.registers == fetched
            && out == Continue(CpuStep(BranchCrossesPageBoundary(opcode, Some(target), Some(operand)))))
      && (taken == Some(true) && !BranchChangesPage(NextAddress(pc), target) ==>
            out.Continue?
            && Executed(after.registers, out.next) == isa.execute(opcode, fetched, Some(operand), Some(target)))
    }

    /**
     * Relative mode: read the offset; an untaken branch goes straight back to fetching,
     * a taken one completes now unless its target is on another page, which costs one
     * more cycle. An operation that is not a branch panics.
     */
    method NextRelativeModeState(device: Device, opcode: Opcode) returns (out: Outcome)
      requires device.Valid()
      modifies this`registers, device`trace
      ensures RelativeModeStep(old(Now(device)), Now(device), opcode, out)
    {
      var operand := ReadAndIncProgramCounter(device);
      match BranchCondition(opcode.operation, registers.statusRegister)
      case None =>
        out := Panicked;
      case Some(taken) =>
        if !taken {
          out := Continue(CpuStep(FetchOpcode));
        } else {
          var target := BranchTarget(registers.programCounter, operand);
          if BranchChangesPage(registers.programCounter, target) {
            out := Continue(CpuStep(BranchCrossesPageBoundary(opcode, Some(target), Some(operand))));
          } else {
            var next := Execute(opcode, Some(operand), Some(target));
            out := Continue(next);
          }
        }
    }

    /** One zero-page cycle. */
    ghost predicate ZeroPageModeStep(before: Machine, after: Machine, opcode: Opcode, low: Option<u8>, next: State)
    {
      var pc := before.registers.programCounter;
      var fetched := before.registers.(programCounter := NextAddress(pc));
      && Total(after.mem)
      && (low.None? ==>
            var address := after.mem[pc];
            if isa.instructionType(opcode.operation) == Write then
              after.trace == before.trace + [ReadAccess(pc), ReadAccess(address)]
              && Executed(after.registers, next) == isa.execute(opcode, fetched, Some(after.mem[address]), Some(address))
            else
              after.trace == before.trace + [ReadAccess(pc)]
              && after.registers == fetched
              && next == CpuStep(ReadingOperand(opcode, Some(address), None, None, None, None, false)))
      && (low.Some? ==>
            && after.trace == before.trace + [ReadAccess(low.value)]
            && Executed(after.registers, next) == isa.execute(opcode, before.registers, Some(after.mem[low.value]), Some(low.value)))
    }

    /** Zero-page mode: the address byte, then the operand at $00LL (a write reads it at once). */
    method NextZeroPageModeState(device: Device, opcode: Opcode, low: Option<u8>) returns (next: State)
      requires device.Valid()
      modifies this`registers, device`trace
      ensures ZeroPageModeStep(old(Now(device)), Now(device), opcode, low, next)
    {
      match low
      case None =>
        var operand := ReadAndIncProgramCounter(device);
        if isa.instructionType(opcode.operation) == Write {
          var value := device.ReadByte(operand);
          next := Execute(opcode, Some(value), Some(operand));
        } else {
          next := CpuStep(ReadingOperand(opcode, Some(operand), None, None, None, None, false));
        }
      case Some(lowByte) =>
        var value := device.ReadByte(lowByte);
        next := Execute(opcode, Some(value), Some(lowByte));
    }

    /** One zero-page-indexed cycle, indexed by X when `isX` and by Y otherwise. */
    ghost predicate ZeroPageIndexedModeStep(before: Machine, after: Machine, opcode: Opcode, low: Option<u8>, high: Option<u8>, isX: bool, next: State)
    {
      var pc := before.registers.programCounter;
      var index := if isX then before.registers.x else before.registers.y;
      && Total(after.mem)
      && (low.None? ==>
            && after.registers == before.registers.(programCounter := NextAddress(pc))
            && after.trace == before.trace + [ReadAccess(pc)]
            && next == CpuStep(ReadingOperand(opcode, Some(after.mem[pc]), None, None, None, None, false)))
      && (low.Some? && high.None? ==>
            var address := ZeroPageIndexed(low.value, index);
            if isa.instructionType(opcode.operation) == Write then
              after.trace == before.trace + [ReadAccess(low.value), ReadAccess(address)]
              && Executed(after.registers, next) ==
                   isa.execute(opcode, before.registers, if isX then Some(after.mem[address]) else None, Some(address))
            else
              after.trace == before.trace + [ReadAccess(low.value)]
              && after.registers == before.registers
              && next == CpuStep(ReadingOperand(opcode, low, Some(0), None, None, None, false)))
      && (low.Some? && high.Some? ==>
            var address := ZeroPageIndexed(low.value, index);
            && after.trace == before.trace + [ReadAccess(address)]
            && Executed(after.registers, next) == isa.execute(opcode, before.registers, Some(after.mem[address]), Some(address)))
    }

    /**
     * Zero-page X- or Y-indexed mode: the address byte, a dummy read of the un-indexed
     * address, then the operand at the indexed address, wrapping within page zero.
     * A write completes one cycle early; with X it is handed the byte it read, with Y not.
     */
    method NextZeroPageIndexedModeState(device: Device, opcode: Opcode, low: Option<u8>, high: Option<u8>, isX: bool)
      returns (next: State)
      requires device.Valid()
      modifies this`registers, device`trace
      ensures ZeroPageIndexedModeStep(old(Now(device)), Now(device), opcode, low, high, isX, next)
    {
      var index := if isX then registers.x else registers.y;
      match (low, high)
      case (None, _) =>
        var b := ReadAndIncProgramCounter(device);
        next := CpuStep(ReadingOperand(opcode, Some(b), None, None, None, None, false));
      case (Some(lowByte), None) =>
        var _ := device.ReadByte(lowByte);
        if isa.instructionType(opcode.operation) == Write {
          var address := ZeroPageIndexed(lowByte, index);
          var value := device.ReadByte(address);
          next := Execute(opcode, if isX then Some(value) else None, Some(address));
        } else {
          next := CpuStep(ReadingOperand(opcode, low, Some(0), None, None, None, false));
        }
      case (Some(lowByte), Some(_)) =>
        var address := ZeroPageIndexed(lowByte, index);
        var value := device.ReadByte(address);
        next := Execute(opcode, Some(value), Some(address));
    }

    /** The immediate-mode cycle: the operand is the byte at PC, and PC is its address. */
    ghost predicate ImmediateStep(before: Machine, after: Machine, opcode: Opcode, next: State)
    {
      var pc := before.registers.programCounter;
      && Total(after.mem)
      && after.trace == before.trace + [ReadAccess(pc)]
      && Executed(after.registers, next) ==
           isa.execute(opcode, before.registers.(programCounter := NextAddress(pc)), Some(after.mem[pc]), Some(pc))
    }

    /** Immediate mode: the operand is the byte at PC, and its address is handed on too. */
    method ReadImmediate(device: Device, opcode: Opcode) returns (next: State)
      requires device.Valid()
      modifies this`registers, device`trace
      ensures ImmediateStep(old(Now(device)), Now(device), opcode, next)
    {
      var operand := ReadAndIncProgramCounter(device);
      next := Execute(opcode, Some(operand), Some(PreviousAddress(registers.programCounter)));
    }

    /**
     * One cycle of operand fetching: the addressing mode picks the step, X or Y is the
     * index its name says, and implied and accumulator modes panic here.
     */
    ghost predicate OperandStep(before: Machine, after: Machine, s: CpuState, out: Outcome)
    {
      && s.ReadingOperand?
      && Total(after.mem)
      && after.mem == before.mem
      && match s.opcode.addressMode
         case Absolute =>
           out.Continue? && AbsoluteModeStep(before, after, s.opcode, s.addressLowByte, s.addressHighByte, out.next)
         case AbsoluteXIndexed =>
           AbsoluteIndexedModeStep(before, after, s.opcode, s.addressLowByte, s.addressHighByte, s.checkedPageBoundary, before.registers.x, out)
         case AbsoluteYIndexed =>
           AbsoluteIndexedModeStep(before, after, s.opcode, s.addressLowByte, s.addressHighByte, s.checkedPageBoundary, before.registers.y, out)
         case Immediate =>
           out.Continue? && ImmediateStep(before, after, s.opcode, out.next)
         case Indirect =>
           out.Continue? && IndirectModeStep(before, after, s.opcode, s.indirectAddressLowByte, s.indirectAddressHighByte, s.addressLowByte, out.next)
         case IndirectXIndexed =>
           out.Continue? && IndirectXIndexedModeStep(
             before, after, s.opcode, s.indirectAddressLowByte, s.pointer, s.addressLowByte, s.addressHighByte, s.indirectAddressHighByte, out.next)
         case IndirectYIndexed =>
           out.Continue? && IndirectYIndexedModeStep(
             before, after, s.opcode, s.indirectAddressLowByte, s.addressLowByte, s.addressHighByte, s.indirectAddressHighByte,
             s.checkedPageBoundary, out.next)
         case Relative =>
           RelativeModeStep(before, after, s.opcode, out)
         case ZeroPage =>
           out.Continue? && ZeroPageModeStep(before, after, s.opcode, s.addressLowByte, out.next)
         case ZeroPageXIndexed =>
           out.Continue? && ZeroPageIndexedModeStep(before, after, s.opcode, s.addressLowByte, s.addressHighByte, true, out.next)
         case ZeroPageYIndexed =>
           out.Continue? && ZeroPageIndexedModeStep(before, after, s.opcode, s.addressLowByte, s.addressHighByte, false, out.next)
         case Accumulator =>
           out.Panicked? && after.registers == before.registers && after.trace == before.trace
         case Implied =>
           out.Panicked? && after.registers == before.registers && after.trace == before.trace
    }

    /** `step_cpu`'s `ReadingOperand` arm: dispatch on the addressing mode. */
    method StepReadingOperand(device: Device, s: CpuState) returns (out: Outcome)
      requires device.Valid() && s.ReadingOperand?
      modifies this`registers, device`trace
      ensures OperandStep(old(Now(device)), Now(device), s, out)
      ensures out.Panicked? <==> StepPanics(s)
    {
      var next: State;
      match s.opcode.addressMode
      case Absolute =>
        next := NextAbsoluteModeState(device, s.opcode, s.addressLowByte, s.addressHighByte);
        out := Continue(next);
      case AbsoluteXIndexed =>
        out := NextAbsoluteIndexedModeState(device, s.opcode, s.addressLowByte, s.addressHighByte, s.checkedPageBoundary, registers.x);
      case AbsoluteYIndexed =>
        out := NextAbsoluteIndexedModeState(device, s.opcode, s.addressLowByte, s.addressHighByte, s.checkedPageBoundary, registers.y);
      case Immediate =>
        next := ReadImmediate(device, s.opcode);
        out := Continue(next);
      case Indirect =>
        next := NextIndirectModeState(device, s.opcode, s.indirectAddressLowByte, s.indirectAddressHighByte, s.addressLowByte);
        out := Continue(next);
      case IndirectXIndexed =>
        next := NextIndirectXIndexedModeState(
          device, s.opcode, s.indirectAddressLowByte, s.pointer, s.addressLowByte, s.addressHighByte, s.indirectAddressHighByte);
        out := Continue(next);
      case IndirectYIndexed =>
        next := NextIndirectYIndexedModeState(
          device, s.opcode, s.indirectAddressLowByte, s.addressLowByte, s.addressHighByte, s.indirectAddressHighByte, s.checkedPageBoundary);
        out := Continue(next);
      case Relative =>
        out := NextRelativeModeState(device, s.opcode);
      case ZeroPage =>
        next := NextZeroPageModeState(device, s.opcode, s.addressLowByte);
        out := Continue(next);
      case ZeroPageXIndexed =>
        next := NextZeroPageIndexedModeState(device, s.opcode, s.addressLowByte, s.addressHighByte, true);
        out := Continue(next);
      case ZeroPageYIndexed =>
        next := NextZeroPageIndexedModeState(device, s.opcode, s.addressLowByte, s.addressHighByte, false);
        out := Continue(next);
      case Accumulator =>
        out := Panicked;
      case Implied =>
        out := Panicked;
    }

    // ------------------------------------------------------ stack instructions

    /** PLA, PLP and RTI pull a register next; RTS pulls PCL; anything else panics. */
    method StepPreIncrementStackPointer(operation: Operation) returns (out: Outcome)
      ensures operation in {PLA, PLP, RTI} ==> out == Continue(CpuStep(PullRegisterFromStack(operation)))
      ensures operation == RTS ==> out == Continue(CpuStep(PullPCLFromStack(operation)))
      ensures out.Panicked? <==> operation !in {PLA, PLP, RTI, RTS}
    {
      match operation
      case PLA => out := Continue(CpuStep(PullRegisterFromStack(operation)));
      case PLP => out := Continue(CpuStep(PullRegisterFromStack(operation)));
      case RTI => out := Continue(CpuStep(PullRegisterFromStack(operation)));
      case RTS => out := Continue(CpuStep(PullPCLFromStack(operation)));
      case _ => out := Panicked;
    }

    /**
     * The pull cycle of PLA, PLP and RTI: PLA loads A and sets N and Z from it; PLP
     * and RTI load the status register without bits 4 and 5. PLA and PLP poll first.
     */
    ghost predicate PulledRegister(before: Machine, after: Machine, operation: Operation, out: Outcome)
    {
      var sp := WrappingIncrement(before.registers.stackPointer);
      && Total(after.mem)
      && after.mem == before.mem
      && match operation
         case PLA =>
           var pulled := after.mem[StackAddress(sp)];
           && after.registers == before.registers.(stackPointer := sp, a := pulled,
                statusRegister := Alu.NegativeZeroFlags(pulled, before.registers.statusRegister))
           && after.trace == before.trace + [PollAccess(true), ReadAccess(StackAddress(sp))]
           && out == Continue(CpuStep(FetchOpcode))
         case PLP =>
           && after.registers == before.registers.(stackPointer := sp, statusRegister := RestoredStatus(after.mem[StackAddress(sp)] as bv8))
           && after.trace == before.trace + [PollAccess(true), ReadAccess(StackAddress(sp))]
           && out == Continue(CpuStep(FetchOpcode))
         case RTI =>
           && after.registers == before.registers.(stackPointer := sp, statusRegister := RestoredStatus(after.mem[StackAddress(sp)] as bv8))
           && after.trace == before.trace + [ReadAccess(StackAddress(sp))]
           && out == Continue(CpuStep(PullPCLFromStack(RTI)))
         case _ =>
           out.Panicked? && after.registers == before.registers && after.trace == before.trace
    }

    /** `step_cpu`'s `PullRegisterFromStack` arm. */
    method StepPullRegisterFromStack(device: Device, operation: Operation) returns (out: Outcome)
      requires device.Valid()
      modifies this`registers, device`trace
      ensures PulledRegister(old(Now(device)), Now(device), operation, out)
    {
      if operation == PLA {
        out := StepPla(device);
      } else if operation == PLP {
        out := StepPlp(device);
      } else if operation == RTI {
        out := StepRti(device);
      } else {
        out := Panicked;
      }
    }

    /** PLA's cycle: poll, then pull A. */
    method StepPla(device: Device) returns (out: Outcome)
      requires device.Valid()
      modifies this`registers, device`trace
      ensures PulledRegister(old(Now(device)), Now(device), PLA, out)
    {
      device.PollForInterrupts(true);
      PullAccumulator(device);
      out := Continue(CpuStep(FetchOpcode));
    }

    /** PLP's cycle: poll, then pull the status register. */
    method StepPlp(device: Device) returns (out: Outcome)
      requires device.Valid()
      modifies this`registers, device`trace
      ensures PulledRegister(old(Now(device)), Now(device), PLP, out)
    {
      device.PollForInterrupts(true);
      PullStatus(device);
      out := Continue(CpuStep(FetchOpcode));
    }

    /** RTI's status pull, without a poll; PCL is pulled next. */
    method StepRti(device: Device) returns (out: Outcome)
      requires device.Valid()
      modifies this`registers, device`trace
      ensures PulledRegister(old(Now(device)), Now(device), RTI, out)
    {
      PullStatus(device);
      out := Continue(CpuStep(PullPCLFromStack(RTI)));
    }

    /** PLA's pull: A gets the pulled byte, and N and Z are set from it. */
    method PullAccumulator(device: Device)
      requires device.Valid()
      modifies this`registers, device`trace
      ensures var sp := WrappingIncrement(old(registers.stackPointer));
        var pulled := device.mem[StackAddress(sp)];
        && registers == old(registers).(stackPointer := sp, a := pulled,
             statusRegister := Alu.NegativeZeroFlags(pulled, old(registers.statusRegister)))
        && device.trace == old(device.trace) + [ReadAccess(StackAddress(sp))]
      ensures device.mem == old(device.mem)
    {
      var value := PopFromStack(device);
      registers := registers.(a := value);
      SetNegativeZeroFlags(registers.a);
    }

    /** The status pull PLP and RTI share: bits 4 and 5 of the pulled byte are dropped. */
    method PullStatus(device: Device)
      requires device.Valid()
      modifies this`registers, device`trace
      ensures var sp := WrappingIncrement(old(registers.stackPointer));
        && registers == old(registers).(stackPointer := sp, statusRegister := RestoredStatus(device.mem[StackAddress(sp)] as bv8))
        && device.trace == old(device.trace) + [ReadAccess(StackAddress(sp))]
      ensures device.mem == old(device.mem)
    {
      var value := PopFromStack(device);
      registers := registers.(statusRegister := RestoredStatus(value as bv8));
    }

    /**
     * The PCH pull of RTS and RTI: PC is set from the two pulled bytes, before the
     * operation is even looked at; RTS then spends a cycle incrementing PC, RTI polls
     * and goes back to fetching. Any other operation panics after the pull.
     */
    ghost predicate PulledPCH(before: Machine, after: Machine, operation: Operation, pcl: u8, out: Outcome)
    {
      var sp := WrappingIncrement(before.registers.stackPointer);
      && Total(after.mem)
      && after.mem == before.mem
      && after.registers == before.registers.(stackPointer := sp, programCounter := Address(pcl, after.mem[StackAddress(sp)]))
      && (out.Panicked? <==> operation !in {RTS, RTI})
      && (operation == RTS ==>
            after.trace == before.trace + [ReadAccess(StackAddress(sp))]
            && out == Continue(CpuStep(IncrementProgramCounter)))
      && (operation == RTI ==>
            after.trace == before.trace + [ReadAccess(StackAddress(sp)), PollAccess(true)]
            && out == Continue(CpuStep(FetchOpcode)))
      && (out.Panicked? ==> after.trace == before.trace + [ReadAccess(StackAddress(sp))])
    }

    /** `step_cpu`'s `PullPCHFromStack` arm. */
    method StepPullPCHFromStack(device: Device, operation: Operation, pcl: u8) returns (out: Outcome)
      requires device.Valid()
      modifies this`registers, device`trace
      ensures PulledPCH(old(Now(device)), Now(device), operation, pcl, out)
    {
      var pch := PopFromStack(device);
      registers := registers.(programCounter := Address(pcl, pch));
      if operation == RTS {
        out := Continue(CpuStep(IncrementProgramCounter));
      } else if operation == RTI {
        device.PollForInterrupts(true);
        out := Continue(CpuStep(FetchOpcode));
      } else {
        out := Panicked;
      }
    }

    /**
     * One cycle of the instruction in progress, micro-step by micro-step: the new
     * registers, memory and trace, and the outcome. The steps that only read leave
     * memory as it was.
     */
    ghost predicate Stepped(before: Machine, after: Machine, s: CpuState, out: Outcome)
    {
      && Total(after.mem)
      && match s
         case FetchOpcode =>
           out.Continue? && FetchedOpcode(before, after, out.next) && after.mem == before.mem
         case ReadingOperand(_, _, _, _, _, _, _) =>
           OperandStep(before, after, s, out)
         case ThrowawayRead(opcode, operand) =>
           out.Continue? && ThrewAway(before, after, opcode, operand, out.next) && after.mem == before.mem
         case PushRegisterOnStack(value) =>
           out == Continue(CpuStep(FetchOpcode)) && PushedByte(before, after, value)
         case PreIncrementStackPointer(operation) =>
           && after.registers == before.registers && after.mem == before.mem && after.trace == before.trace
           && (operation in {PLA, PLP, RTI} ==> out == Continue(CpuStep(PullRegisterFromStack(operation))))
           && (operation == RTS ==> out == Continue(CpuStep(PullPCLFromStack(operation))))
         case PullRegisterFromStack(operation) =>
           PulledRegister(before, after, operation, out)
         case PullPCLFromStack(operation) =>
           var sp := WrappingIncrement(before.registers.stackPointer);
           && after.registers == before.registers.(stackPointer := sp)
           && after.mem == before.mem
           && after.trace == before.trace + [ReadAccess(StackAddress(sp))]
           && out == Continue(CpuStep(PullPCHFromStack(operation, after.mem[StackAddress(sp)])))
         case PullPCHFromStack(operation, pcl) =>
           PulledPCH(before, after, operation, pcl, out)
         case IncrementProgramCounter =>
           && after.registers == before.registers.(programCounter := NextAddress(before.registers.programCounter))
           && after.mem == before.mem
           && after.trace == before.trace + [PollAccess(true)]
           && out == Continue(CpuStep(FetchOpcode))
         case WritePCHToStack(address) =>
           && PushedByte(before, after, HighByte(PreviousAddress(before.registers.programCounter)))
           && out == Continue(CpuStep(WritePCLToStack(address)))
         case WritePCLToStack(address) =>
           && PushedByte(before, after, LowByte(PreviousAddress(before.registers.programCounter)))
           && out == Continue(CpuStep(SetProgramCounter(address, false)))
         case SetProgramCounter(address, _) =>
           && after.registers == before.registers.(programCounter := address)
           && after.mem == before.mem
           && after.trace == before.trace + [PollAccess(true)]
           && out == Continue(CpuStep(FetchOpcode))
         case BranchCrossesPageBoundary(opcode, target, operand) =>
           && after.mem == before.mem && after.trace == before.trace
           && out.Continue?
           && Executed(after.registers, out.next) == isa.execute(opcode, before.registers, operand, target)
         case WritingResult(address, value, dummy) =>
           && after.registers == before.registers
           && (if dummy then
                 after.mem == before.mem && after.trace == before.trace
                 && out == Continue(CpuStep(WritingResult(address, value, false)))
               else
                 after.mem == before.mem[address := value]
                 && after.trace == before.trace + [PollAccess(true), WriteAccess(address, value)]
                 && out == Continue(CpuStep(FetchOpcode)))
    }

    /** `step_cpu`: one cycle of the instruction in progress. */
    method StepCpu(device: Device, s: CpuState) returns (out: Outcome)
      requires device.Valid()
      modifies this`registers, device
      ensures Stepped(old(Now(device)), Now(device), s, out)
      ensures out.Panicked? <==> StepPanics(s)
    {
      if s.FetchOpcode? {
        var next := StepFetchOpcode(device);
        out := Continue(next);
      } else if s.ReadingOperand? {
        out := StepReadingOperand(device, s);
      } else if s.ThrowawayRead? {
        var next := StepThrowawayRead(device, s.opcode, s.operand);
        out := Continue(next);
      } else if s.BranchCrossesPageBoundary? {
        var next := Execute(s.opcode, s.operand, s.target);
        out := Continue(next);
      } else if s.WritingResult? {
        var next := StepWritingResult(device, s.address, s.value, s.dummy);
        out := Continue(next);
      } else {
        out := StepStackCycle(device, s);
      }
    }

    /** The `step_cpu` arms of the stack instructions (PHA, PHP, PLA, PLP, JSR, RTS, RTI). */
    method StepStackCycle(device: Device, s: CpuState) returns (out: Outcome)
      requires device.Valid()
      requires !(s.FetchOpcode? || s.ReadingOperand? || s.ThrowawayRead? || s.BranchCrossesPageBoundary? || s.WritingResult?)
      modifies this`registers, device
      ensures Stepped(old(Now(device)), Now(device), s, out)
      ensures out.Panicked? <==> StepPanics(s)
    {
      if s.PushRegisterOnStack? {
        PushToStack(device, s.value);
        out := Continue(CpuStep(FetchOpcode));
      } else if s.PreIncrementStackPointer? {
        out := StepPreIncrementStackPointer(s.operation);
      } else if s.PullRegisterFromStack? {
        out := StepPullRegisterFromStack(device, s.operation);
      } else if s.PullPCLFromStack? {
        var pcl := PopFromStack(device);
        out := Continue(CpuStep(PullPCHFromStack(s.operation, pcl)));
      } else if s.PullPCHFromStack? {
        out := StepPullPCHFromStack(device, s.operation, s.pcl);
      } else if s.IncrementProgramCounter? {
        device.PollForInterrupts(true);
        registers := registers.(programCounter := NextAddress(registers.programCounter));
        out := Continue(CpuStep(FetchOpcode));
      } else if s.WritePCHToStack? || s.WritePCLToStack? {
        var next := StepWriteReturnAddress(device, s);
        out := Continue(next);
      } else {
        device.PollForInterrupts(true);
        registers := registers.(programCounter := s.address);
        out := Continue(CpuStep(FetchOpcode));
      }
    }

    /** JSR's two pushes of the return address, PC minus one: high byte first, then low byte. */
    method StepWriteReturnAddress(device: Device, s: CpuState) returns (next: State)
      requires device.Valid() && (s.WritePCHToStack? || s.WritePCLToStack?)
      modifies this`registers, device
      ensures device.Valid()
      ensures var returnAddress := PreviousAddress(old(registers.programCounter));
        PushedByte(old(Now(device)), Now(device), if s.WritePCHToStack? then HighByte(returnAddress) else LowByte(returnAddress))
      ensures next == CpuStep(if s.WritePCHToStack? then WritePCLToStack(s.address) else SetProgramCounter(s.address, false))
    {
      if s.WritePCHToStack? {
        PushToStack(device, HighByte(PreviousAddress(registers.programCounter)));
        next := CpuStep(WritePCLToStack(s.address));
      } else {
        PushToStack(device, LowByte(PreviousAddress(registers.programCounter)));
        next := CpuStep(SetProgramCounter(s.address, false));
      }
    }

    /** A dummy write step only clears the flag; the real one polls, then stores the byte. */
    method StepWritingResult(device: Device, address: u16, value: u8, dummy: bool) returns (next: State)
      requires device.Valid()
      modifies device
      ensures device.Valid()
      ensures dummy ==>
        && device.mem == old(device.mem) && device.trace == old(device.trace)
        && next == CpuStep(WritingResult(address, value, false))
      ensures !dummy ==>
        && device.mem == old(device.mem)[address := value]
        && device.trace == old(device.trace) + [PollAccess(true), WriteAccess(address, value)]
        && next == CpuStep(FetchOpcode)
    {
      if dummy {
        next := CpuStep(WritingResult(address, value, false));
      } else {
        device.PollForInterrupts(true);
        device.WriteByte(address, value);
        next := CpuStep(FetchOpcode);
      }
    }

    // ------------------------------------------------------------ the clock

    /**
     * `clock`: one CPU cycle. The current state takes one step (`step`); if that lands
     * on an opcode fetch while an interrupt is pending, interrupt entry starts instead
     * and the pending interrupt is cleared. The cycle counter grows by exactly one,
     * wrapping like the source's `u32` release build. A step that panics stops the
     * cycle where the source's panic would: state, counter and pending interrupt are
     * left as they were.
     */
    method Clock(device: Device) returns (step: Outcome)
      requires device.Valid()
      modifies this, device
      ensures device.Valid()
      ensures Took(old(Now(device)), Now(device), old(polledInterrupt), old(state), step)
      ensures step.Panicked? <==> old(state).CpuStep? && StepPanics(old(state).cpuState)
      ensures step.Panicked? ==>
        state == old(state) && cycles == old(cycles) && polledInterrupt == old(polledInterrupt)
      ensures step.Continue? ==>
        // The pending interrupt once the step is done: only the status push clears it.
        var pending := if old(state).InterruptStep? && old(state).interruptState.PushStatusRegister?
          then None else old(polledInterrupt);
        && cycles == (old(cycles) + 1) % 0x1_0000_0000
        && (if step.next == CpuStep(FetchOpcode) && pending.Some? then
              state == InterruptStep(InternalOps1(pending.value)) && polledInterrupt == None
            else
              state == step.next && polledInterrupt == pending)
      ensures cpuCycleCounter == old(cpuCycleCounter)
    {
      step := Step(device);
      if step.Continue? {
        Settle(step.next);
      }
    }

    /** The second half of `clock`: take a pending interrupt at an opcode fetch, and count the cycle. */
    method Settle(next: State)
      modifies this`state, this`polledInterrupt, this`cycles
      ensures cycles == (old(cycles) + 1) % 0x1_0000_0000
      ensures if next == CpuStep(FetchOpcode) && old(polledInterrupt).Some? then
          state == InterruptStep(InternalOps1(old(polledInterrupt).value)) && polledInterrupt == None
        else
          state == next && polledInterrupt == old(polledInterrupt)
    {
      state := next;
      if state == CpuStep(FetchOpcode) && polledInterrupt.Some? {
        var interrupt := polledInterrupt.value;
        polledInterrupt := None;
        state := InterruptStep(InternalOps1(interrupt));
      }
      cycles := (cycles + 1) % 0x1_0000_0000;
    }

    /** The step `clock` takes from a given state and pending interrupt: a CPU micro-step or an interrupt-entry cycle. */
    ghost predicate Took(before: Machine, after: Machine, polled: Option<Interrupt>, from: State, step: Outcome)
    {
      match from
      case CpuStep(s) => Stepped(before, after, s, step)
      case InterruptStep(s) => step.Continue? && InterruptStepped(before, after, polled, s, step.next)
    }

    /** The first half of `clock`: the match on the current state. */
    method Step(device: Device) returns (step: Outcome)
      requires device.Valid()
      modifies this`registers, this`polledInterrupt, device
      ensures device.Valid()
      ensures Took(old(Now(device)), Now(device), old(polledInterrupt), old(state), step)
      ensures step.Panicked? <==> old(state).CpuStep? && StepPanics(old(state).cpuState)
      ensures old(state).InterruptStep? && old(state).interruptState.PushStatusRegister? ==> polledInterrupt == None
      ensures !(old(state).InterruptStep? && old(state).interruptState.PushStatusRegister?) ==>
        polledInterrupt == old(polledInterrupt)
    {
      match state {
        case CpuStep(s) =>
          step := StepCpu(device, s);
        case InterruptStep(s) =>
          var next := StepInterruptHandler(device, s);
          step := Continue(next);
      }
    }
  }

  /**
   * The micro-steps at which the source panics: reading an operand in implied or
   * accumulator mode, an indexed address whose high byte is known before its low
   * byte, a relative-mode operation that is not a branch, and a stack micro-step
   * reached by an instruction that does not use it.
   */
  predicate StepPanics(s: CpuState)
    // Only operand reads and the pull micro-steps can panic; every other step always continues.
    ensures StepPanics(s) ==> s.ReadingOperand? || s.PreIncrementStackPointer? || s.PullRegisterFromStack? || s.PullPCHFromStack?
    // An operand at a fixed or zero-page address, or an immediate one, is always read.
    ensures s.ReadingOperand? && s.opcode.addressMode in {Absolute, Immediate, Indirect, IndirectXIndexed, IndirectYIndexed, ZeroPage, ZeroPageXIndexed, ZeroPageYIndexed} ==> !StepPanics(s)
    // The return instructions never panic on the way back.
    ensures s.PreIncrementStackPointer? && s.operation in {RTS, RTI} ==> !StepPanics(s)
  {
    match s
    case ReadingOperand(opcode, low, high, _, _, _, _) =>
      || opcode.addressMode in {Accumulator, Implied}
      || (opcode.addressMode in {AbsoluteXIndexed, AbsoluteYIndexed} && low.None? && high.Some?)
      || (opcode.addressMode == Relative && !opcode.operation.IsBranch())
    case PreIncrementStackPointer(operation) => operation !in {PLA, PLP, RTI, RTS}
    case PullRegisterFromStack(operation) => operation !in {PLA, PLP, RTI}
    case PullPCHFromStack(operation, _) => operation !in {RTS, RTI}
    case _ => false
  }

  /**
   * The interrupt actually taken at the status push: a pending interrupt polled in
   * the meantime replaces IRQ and BRK, while NMI and RESET always stand.
   */
  function ResolveInterrupt(current: Interrupt, polled: Option<Interrupt>): (r: Interrupt)
    ensures current.Nmi? || current.Reset? || polled.None? ==> r == current
    ensures (current.Irq? || current.IrqBrk?) && polled.Some? ==> r == polled.value
  {
    match (current, polled)
    case (_, None) => current
    case (Nmi(_), _) => current
    case (Reset(_), _) => current
    case (IrqBrk(_), Some(interrupt)) => interrupt
    case (Irq(_), Some(interrupt)) => interrupt
  }
}
