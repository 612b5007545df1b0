/**
 * The states of the cycle-stepped CPU core. Each clock cycle moves the core from
 * one state to the next; an instruction is a walk through these states, and an
 * interrupt is the seven-state walk of `InterruptState`.
 */
module CpuStates {
  import opened Wrappers
  import opened CpuRegisters
  import opened Interrupts
  import opened Opcodes

  datatype InterruptState =
    | InternalOps1(interrupt: Interrupt)
    | InternalOps2(interrupt: Interrupt)
    | PushPCH(interrupt: Interrupt)
    | PushPCL(interrupt: Interrupt)
    | PushStatusRegister(interrupt: Interrupt)
    | PullIRQVecLow(interrupt: Interrupt)
    | PullIRQVecHigh(interrupt: Interrupt)

  /** One cycle of an instruction, carrying the bytes fetched so far. */
  datatype CpuState =
    | FetchOpcode
      // Implied and accumulator modes: read the next byte and discard it.
    | ThrowawayRead(opcode: Opcode, operand: Option<u8>)
      // Operand and address fetching for every other mode.
    | ReadingOperand(
        opcode: Opcode,
        addressLowByte: Option<u8>,
        addressHighByte: Option<u8>,
        pointer: Option<u8>,
        indirectAddressLowByte: Option<u8>,
        indirectAddressHighByte: Option<u8>,
        checkedPageBoundary: bool)
      // The extra cycle of a taken branch whose target is on another page.
    | BranchCrossesPageBoundary(opcode: Opcode, target: Option<u16>, operand: Option<u8>)
    | PushRegisterOnStack(value: u8)
    | PreIncrementStackPointer(operation: Operation)
    | PullRegisterFromStack(operation: Operation)
    | PullPCLFromStack(operation: Operation)
    | PullPCHFromStack(operation: Operation, pcl: u8)
    | IncrementProgramCounter
    | WritePCHToStack(address: u16)
    | WritePCLToStack(address: u16)
    | SetProgramCounter(address: u16, wasBranchInstruction: bool)
    | WritingResult(address: u16, value: u8, dummy: bool)

  datatype State =
    | InterruptStep(interruptState: InterruptState)
    | CpuStep(cpuState: CpuState)

  /** The first operand cycle of an instruction: nothing fetched yet. */
  function StartReading(opcode: Opcode): CpuState {
    ReadingOperand(opcode, None, None, None, None, None, false)
  }

  /** What `Opcode::execute` leaves behind: the register file and the next state. */
  datatype Executed = Executed(registers: Registers, next: State)

  /**
   * The parts of the CPU that live in the source's `opcodes` module: the opcode
   * table, each operation's instruction type, and `execute`, which finishes an
   * instruction once its operand and address are known.
   */
  datatype InstructionSet = InstructionSet(
    table: u8 -> Opcode,
    instructionType: Operation -> InstructionType,
    execute: (Opcode, Registers, Option<u8>, Option<u16>) -> Executed)

  /** The result of one step: the next state, or a panic of the source's `panic!`. */
  datatype Outcome = Continue(next: State) | Panicked
}
