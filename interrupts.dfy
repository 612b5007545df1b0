/**
 * The four interrupt kinds of the 6502 and the address of the vector each one is
 * dispatched through.
 */
module Interrupts {
  import opened CpuRegisters

  /** `ClockCycle` is a 32-bit unsigned count of system clock cycles. */
  type ClockCycle = c: int | 0 <= c < 0x1_0000_0000

  datatype Interrupt =
    | Nmi(cycle: ClockCycle)
    | Irq(cycle: ClockCycle)
    | IrqBrk(cycle: ClockCycle)
    | Reset(cycle: ClockCycle)

  /**
   * The address of the low byte of the interrupt's vector; the high byte follows it.
   * Every vector lies in the last page of memory, so adding one never wraps.
   */
  function Offset(i: Interrupt): (r: u16)
    ensures r >= 0xFF00 && r < 0xFFFF
    ensures r == 0xFFFA <==> i.Nmi?
    ensures r == 0xFFFC <==> i.Reset?
    ensures r == 0xFFFE <==> i.Irq? || i.IrqBrk?
  {
    match i
    case Nmi(_) => 0xFFFA
    case Irq(_) => 0xFFFE
    case IrqBrk(_) => 0xFFFE
    case Reset(_) => 0xFFFC
  }

  /** The vector depends only on the kind of interrupt, never on the cycle it was raised at. */
  lemma OffsetIgnoresCycle(i: Interrupt, c: ClockCycle)
    ensures Offset(i) == Offset(i.(cycle := c))
  {
  }

  /** The high byte of a vector is read from the very next address, without wrap-around. */
  lemma VectorHighByteFollows(i: Interrupt)
    ensures (Offset(i) + 1) % 0x1_0000 == Offset(i) + 1
  {
  }
}
