/**
 * The 6502 register file and the bit layout of its status register.
 * The source's `registers` and `status_flags` modules are not part of this model;
 * the flag positions below are the 6502's own.
 */
module CpuRegisters {

  /** Rust's `u8` and `u16`; every wrapping operation is written out with `%`. */
  type u8 = x: int | 0 <= x < 0x100
  type u16 = x: int | 0 <= x < 0x1_0000

  const CarryFlag: bv8 := 0x01
  const ZeroFlag: bv8 := 0x02
  const InterruptDisableFlag: bv8 := 0x04
  const DecimalFlag: bv8 := 0x08
  const BreakFlag: bv8 := 0x10
  const UnusedFlag: bv8 := 0x20
  const OverflowFlag: bv8 := 0x40
  const NegativeFlag: bv8 := 0x80

  datatype Registers = Registers(
    a: u8,
    x: u8,
    y: u8,
    stackPointer: u8,
    programCounter: u16,
    statusRegister: bv8)

  predicate Contains(status: bv8, flag: bv8) {
    status & flag == flag
  }

  /** `StatusFlags::set`: switch the given flag bits on or off, keeping all others. */
  function SetFlag(status: bv8, flag: bv8, on: bool): (r: bv8)
    ensures r & !flag == status & !flag
    ensures on ==> r & flag == flag
    ensures !on ==> r & flag == 0
  {
    if on then status | flag else status & !flag
  }

  /** `u8::wrapping_add(1)` and `u8::wrapping_sub(1)`: the stack pointer's steps. */
  function WrappingIncrement(b: u8): (r: u8)
    ensures r == (b + 1) % 0x100
  {
    if b == 0xFF then 0 else b + 1
  }

  function WrappingDecrement(b: u8): (r: u8)
    ensures r == (b + 0xFF) % 0x100
  {
    if b == 0 then 0xFF else b - 1
  }

  /** The two steps undo each other. */
  lemma WrappingSteps(b: u8)
    ensures WrappingIncrement(WrappingDecrement(b)) == b && WrappingDecrement(WrappingIncrement(b)) == b
  {
  }

  /** Bit 7 of a byte: the 6502's negative bit. */
  predicate Bit7(n: int) {
    (n / 0x80) % 2 == 1
  }
}
