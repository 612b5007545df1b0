/**
 * The address arithmetic of the CPU's micro-steps: little-endian address
 * assembly, indexed addressing with and without the carry into the high byte,
 * the page-wrapping pointer of indirect JMP, relative branch targets, the stack
 * page, and the status byte pushed on interrupt entry and restored by PLP/RTI.
 */
module Addressing {
  import opened CpuRegisters
  import opened Opcodes
  import opened Alu
  import opened Wrappers

  /** `low as u16 | (high as u16) << 8`. */
  function Address(low: u8, high: u8): (r: u16)
    ensures r % 256 == low && r / 256 == high
  {
    low + high * 0x100
  }

  function LowByte(address: u16): u8 { address % 0x100 }
  function HighByte(address: u16): u8 { address / 0x100 }

  /** `wrapping_add(1)` and `wrapping_sub(1)` on a 16-bit address. */
  function NextAddress(address: u16): u16 { (address + 1) % 0x1_0000 }
  function PreviousAddress(address: u16): u16 { (address + 0xFFFF) % 0x1_0000 }

  /** Assembling an address and splitting it again gives back the two bytes, and vice versa. */
  lemma AddressRoundTrip(low: u8, high: u8, address: u16)
    ensures LowByte(Address(low, high)) == low && HighByte(Address(low, high)) == high
    ensures Address(LowByte(address), HighByte(address)) == address
  {
  }

  /** Stepping an address back and then forward (or the other way round) gives it back. */
  lemma {:induction false} NextUndoesPrevious(address: u16)
    ensures NextAddress(PreviousAddress(address)) == address
    ensures PreviousAddress(NextAddress(address)) == address
  {
    if address == 0 {
      assert PreviousAddress(address) == 0xFFFF;
    } else {
      assert PreviousAddress(address) == address - 1;
    }
    if address == 0xFFFF {
      assert NextAddress(address) == 0;
    } else {
      assert NextAddress(address) == address + 1;
    }
  }

  /** `(low as u16 | high << 8).wrapping_add(index)`: the address an indexed access means. */
  function IndexedAddress(low: u8, high: u8, index: u8): (r: u16)
    ensures r == (high * 256 + low + index) % 0x1_0000
  {
    (Address(low, high) + index) % 0x1_0000
  }

  /** `low.wrapping_add(index) | high << 8`: the address the 6502 puts on the bus before fixing the carry. */
  function UncarriedAddress(low: u8, high: u8, index: u8): (r: u16)
    ensures HighByte(r) == high
  {
    Address((low + index) % 0x100, high)
  }

  /** Adding the index to the low byte carries into the high byte. */
  predicate CrossesPage(low: u8, index: u8) {
    low + index > 0xFF
  }

  /**
   * The uncarried address is the right one exactly when the index does not cross
   * a page; when it does, it is one page (256 bytes) too low, modulo the address space.
   */
  lemma {:induction false} UncarriedAddressWrongIffCrossesPage(low: u8, high: u8, index: u8)
    ensures UncarriedAddress(low, high, index) == IndexedAddress(low, high, index) <==> !CrossesPage(low, index)
    ensures CrossesPage(low, index) ==>
      (UncarriedAddress(low, high, index) + 0x100) % 0x1_0000 == IndexedAddress(low, high, index)
  {
    var sum := low + index + high * 256;
    assert Address(low, high) + index == sum;
    if CrossesPage(low, index) {
      assert (low + index) % 0x100 == low + index - 256;
      assert UncarriedAddress(low, high, index) == sum - 256;
      if high == 0xFF {
        assert sum % 0x1_0000 == sum - 0x1_0000;
      } else {
        assert sum % 0x1_0000 == sum;
      }
    } else {
      assert (low + index) % 0x100 == low + index;
      assert sum % 0x1_0000 == sum;
    }
  }

  /** Zero-page indexed addresses wrap within page zero: `low.wrapping_add(index) as u16`. */
  function ZeroPageIndexed(low: u8, index: u8): (r: u16)
    ensures r < 0x100 && r == (low + index) % 256
  {
    (low + index) % 0x100
  }

  /**
   * Indirect JMP reads the target's high byte from the pointer's low byte plus one,
   * without carrying into the pointer's high byte (the 6502's page-wrap bug).
   */
  function IndirectJumpHighByteAddress(pointerLow: u8, pointerHigh: u8): (r: u16)
    ensures HighByte(r) == pointerHigh
  {
    Address((pointerLow + 1) % 0x100, pointerHigh)
  }

  /**
   * The high byte comes from the byte after the pointer except when the pointer is the
   * last byte of a page; then it comes from the first byte of that same page.
   */
  lemma IndirectJumpPageWrap(pointerLow: u8, pointerHigh: u8)
    ensures pointerLow < 0xFF ==>
      IndirectJumpHighByteAddress(pointerLow, pointerHigh) == Address(pointerLow, pointerHigh) + 1
    ensures pointerLow == 0xFF ==>
      IndirectJumpHighByteAddress(pointerLow, pointerHigh) == Address(0, pointerHigh)
  {
  }

  /** `pc.wrapping_add((operand as i8) as u16)`: the target of a taken relative branch. */
  function BranchTarget(pc: u16, operand: u8): (r: u16)
    ensures r == (pc + Signed(operand)) % 0x1_0000
  {
    var extended := if operand < 0x80 then operand else operand + 0xFF00;
    (pc + extended) % 0x1_0000
  }

  /** A taken branch takes an extra cycle iff the target lies on another page. */
  predicate BranchChangesPage(pc: u16, target: u16) {
    HighByte(target) != HighByte(pc)
  }

  /**
   * The condition tested by each conditional branch, or `None` for an operation that
   * is not a branch (on which the source panics).
   */
  function BranchCondition(operation: Operation, status: bv8): (r: Option<bool>)
    ensures r.Some? <==> operation.IsBranch()
    // Each branch tests its own flag: C for BCC/BCS, Z for BEQ/BNE, N for BMI/BPL, V for BVC/BVS.
    ensures operation in {BCC, BCS} ==> r == Some(Contains(status, CarryFlag) == (operation == BCS))
    ensures operation in {BEQ, BNE} ==> r == Some(Contains(status, ZeroFlag) == (operation == BEQ))
    ensures operation in {BMI, BPL} ==> r == Some(Contains(status, NegativeFlag) == (operation == BMI))
    ensures operation in {BVC, BVS} ==> r == Some(Contains(status, OverflowFlag) == (operation == BVS))
  {
    match operation
    case BCC => Some(!Contains(status, CarryFlag))
    case BCS => Some(Contains(status, CarryFlag))
    case BEQ => Some(Contains(status, ZeroFlag))
    case BMI => Some(Contains(status, NegativeFlag))
    case BNE => Some(!Contains(status, ZeroFlag))
    case BPL => Some(!Contains(status, NegativeFlag))
    case BVC => Some(!Contains(status, OverflowFlag))
    case BVS => Some(Contains(status, OverflowFlag))
    case _ => None
  }

  /** The branches come in complementary pairs: for any status, exactly one of each pair is taken. */
  lemma BranchPairsComplementary(status: bv8)
    ensures BranchCondition(BCC, status).value == !BranchCondition(BCS, status).value
    ensures BranchCondition(BEQ, status).value == !BranchCondition(BNE, status).value
    ensures BranchCondition(BMI, status).value == !BranchCondition(BPL, status).value
    ensures BranchCondition(BVC, status).value == !BranchCondition(BVS, status).value
  {
  }

  /** The stack lives in page one: `stack_pointer as u16 | 0x0100`. */
  function StackAddress(stackPointer: u8): (r: u16)
    ensures 0x100 <= r < 0x200 && LowByte(r) == stackPointer
  {
    0x100 + stackPointer
  }

  /**
   * The status byte pushed on interrupt entry: BRK pushes it with bits 4 and 5 set,
   * every other interrupt with bit 5 set and bit 4 (break) clear.
   */
  function PushedStatus(isBrk: bool, status: bv8): (r: bv8)
    ensures r & 0xCF == status & 0xCF
    ensures r & UnusedFlag == UnusedFlag
    ensures r & BreakFlag == BreakFlag <==> isBrk
  {
    if isBrk then status | 0x30 else (status | 0x20) & 0xEF
  }

  /** PLP and RTI keep every pulled bit except bits 4 and 5, which they clear. */
  function RestoredStatus(pulled: bv8): (r: bv8)
    ensures r & 0x30 == 0
    ensures r & 0xCF == pulled & 0xCF
  {
    pulled & 0xCF
  }

  /** Pulling back a status byte pushed on interrupt entry restores every flag but bits 4 and 5. */
  lemma StatusRoundTrip(isBrk: bool, status: bv8)
    ensures RestoredStatus(PushedStatus(isBrk, status)) == status & 0xCF
  {
  }
}
