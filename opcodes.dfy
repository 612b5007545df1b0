/**
 * The opcode descriptors that the micro-step engine dispatches on. The source's
 * `opcodes` module (the table, each operation's instruction type and its
 * `execute`) is not part of this model: the engine only sees an operation's
 * name, its addressing mode and its instruction type.
 */
module Opcodes {

  /** The 56 documented 6502 operations. */
  datatype Operation =
    | ADC | AND | ASL | BCC | BCS | BEQ | BIT | BMI | BNE | BPL | BRK | BVC | BVS | CLC
    | CLD | CLI | CLV | CMP | CPX | CPY | DEC | DEX | DEY | EOR | INC | INX | INY | JMP
    | JSR | LDA | LDX | LDY | LSR | NOP | ORA | PHA | PHP | PLA | PLP | ROL | ROR | RTI
    | RTS | SBC | SEC | SED | SEI | STA | STX | STY | TAX | TAY | TSX | TXA | TXS | TYA
  {
    predicate IsBranch() {
      this in {BCC, BCS, BEQ, BMI, BNE, BPL, BVC, BVS}
    }
  }

  /** How an operation uses the addressed memory; the engine distinguishes these four. */
  datatype InstructionType = Read | ReadModifyWrite | Write | Jump | Other

  datatype AddressingMode =
    | Accumulator | Implied | Immediate
    | Absolute | AbsoluteXIndexed | AbsoluteYIndexed
    | Indirect | IndirectXIndexed | IndirectYIndexed
    | Relative
    | ZeroPage | ZeroPageXIndexed | ZeroPageYIndexed

  datatype Opcode = Opcode(operation: Operation, addressMode: AddressingMode)
}
