/**
 * The arithmetic helpers of the CPU core: add-with-carry, compare, increment,
 * decrement and the negative/zero flag update they share. Each is a function of
 * the operands and the old status byte; the `Cpu` class applies them to its
 * register file.
 */
module Alu {
  import opened CpuRegisters

  /** The value of a byte read as a two's-complement signed number. */
  function Signed(b: u8): (r: int)
    ensures -128 <= r < 128
    ensures r >= 0 <==> b < 0x80
    ensures (r + 256) % 256 == b
  {
    if b < 0x80 then b else b - 256
  }

  /** `set_negative_zero_flags`: Z iff the value is zero, N is its bit 7, all other flags kept. */
  function NegativeZeroFlags(value: u8, status: bv8): (r: bv8)
    ensures Contains(r, ZeroFlag) <==> value == 0
    ensures Contains(r, NegativeFlag) <==> value >= 0x80
    ensures r & 0x7D == status & 0x7D
  {
    SetFlag(SetFlag(status, ZeroFlag, value == 0), NegativeFlag, Bit7(value))
  }

  datatype AluResult = AluResult(value: u8, status: bv8)

  function CarryIn(status: bv8): (c: int)
    ensures c == 0 || c == 1
    ensures c == 1 <==> Contains(status, CarryFlag)
  {
    if Contains(status, CarryFlag) then 1 else 0
  }

  /**
   * `adc`: A + operand + C computed in 16 bits; V when A and the operand both differ
   * in bit 7 from the 16-bit result (`(A ^ r) & (op ^ r) & 0x80`), Z and N from the new A,
   * C when the sum exceeds a byte. The decimal flag is not consulted.
   */
  function AddWithCarry(a: u8, operand: u8, status: bv8): (r: AluResult)
    ensures var sum := a + operand + CarryIn(status);
      && r.value == sum % 256
      && (Contains(r.status, CarryFlag) <==> sum > 255)
    ensures Contains(r.status, ZeroFlag) <==> r.value == 0
    ensures Contains(r.status, NegativeFlag) <==> r.value >= 0x80
    ensures r.status & 0x3C == status & 0x3C
  {
    var result := a + operand + CarryIn(status);
    var value := result % 0x100;
    var overflow := Bit7(a) != Bit7(result) && Bit7(operand) != Bit7(result);
    AluResult(value, AddFlags(status, overflow, value == 0, Bit7(value), result > 0xFF))
  }

  /** The four `set` calls of `adc`, in the source's order: V, Z, N, then C. */
  function AddFlags(status: bv8, overflow: bool, zero: bool, negative: bool, carry: bool): (r: bv8)
    ensures Contains(r, OverflowFlag) <==> overflow
    ensures Contains(r, ZeroFlag) <==> zero
    ensures Contains(r, NegativeFlag) <==> negative
    ensures Contains(r, CarryFlag) <==> carry
    ensures r & 0x3C == status & 0x3C
  {
    SetFlag(SetFlag(SetFlag(SetFlag(status, OverflowFlag, overflow), ZeroFlag, zero), NegativeFlag, negative), CarryFlag, carry)
  }

  /**
   * The overflow flag that `adc` computes from sign bits is exactly signed overflow:
   * the two's-complement sum of A, the operand and the carry leaves -128..127.
   */
  lemma AddWithCarryOverflowIsSignedOverflow(a: u8, operand: u8, status: bv8)
    ensures var signedSum := Signed(a) + Signed(operand) + CarryIn(status);
      Contains(AddWithCarry(a, operand, status).status, OverflowFlag) <==> !(-128 <= signedSum < 128)
  {
    var result := a + operand + CarryIn(status);
    Bit7Below512(a);
    Bit7Below512(operand);
    Bit7Below512(result);
  }

  /** Bit 7 of a number below 512, by range. */
  lemma Bit7Below512(n: int)
    requires 0 <= n < 512
    ensures Bit7(n) <==> (0x80 <= n < 0x100 || 0x180 <= n)
  {
  }

  /** `compare`: C iff the register is at least the operand; N and Z from their wrapped difference. */
  function Compare(operand: u8, register: u8, status: bv8): (r: bv8)
    ensures Contains(r, CarryFlag) <==> register >= operand
    ensures Contains(r, ZeroFlag) <==> register == operand
    ensures Contains(r, NegativeFlag) <==> (register - operand) % 256 >= 128
    ensures r & 0x7C == status & 0x7C
  {
    NegativeZeroFlags((register - operand) % 0x100, SetFlag(status, CarryFlag, register >= operand))
  }

  /** `increment`: the value plus one, wrapping at 256, with N and Z of the result. */
  function Increment(value: u8, status: bv8): (r: AluResult)
    ensures r.value == (value + 1) % 256
    ensures Contains(r.status, ZeroFlag) <==> value == 0xFF
    ensures Contains(r.status, NegativeFlag) <==> r.value >= 0x80
    ensures r.status & 0x7D == status & 0x7D
  {
    var result := (value + 1) % 0x100;
    AluResult(result, NegativeZeroFlags(result, status))
  }

  /** `decrement`: the value minus one, wrapping at 0, with N and Z of the result. */
  function Decrement(value: u8, status: bv8): (r: AluResult)
    ensures r.value == (value + 255) % 256
    ensures Contains(r.status, ZeroFlag) <==> value == 0x01
    ensures Contains(r.status, NegativeFlag) <==> r.value >= 0x80
    ensures r.status & 0x7D == status & 0x7D
  {
    var result := (value - 1) % 0x100;
    AluResult(result, NegativeZeroFlags(result, status))
  }

  /** A second N/Z update overwrites the first one completely. */
  lemma NegativeZeroFlagsOverwrite(first: u8, second: u8, status: bv8)
    ensures NegativeZeroFlags(second, NegativeZeroFlags(first, status)) == NegativeZeroFlags(second, status)
  {
    var z1, n1, z2, n2 := first == 0, Bit7(first), second == 0, Bit7(second);
    assert SetFlag(SetFlag(SetFlag(SetFlag(status, ZeroFlag, z1), NegativeFlag, n1), ZeroFlag, z2), NegativeFlag, n2)
      == SetFlag(SetFlag(status, ZeroFlag, z2), NegativeFlag, n2);
  }

  /** Incrementing undoes decrementing, value and flags alike. */
  lemma {:induction false} IncrementUndoesDecrement(value: u8, status: bv8)
    ensures var d := Decrement(value, status);
      Increment(d.value, d.status) == AluResult(value, NegativeZeroFlags(value, status))
  {
    var d := Decrement(value, status);
    assert d.value == if value == 0 then 0xFF else value - 1;
    assert (d.value + 1) % 0x100 == value;
    NegativeZeroFlagsOverwrite(d.value, value, status);
  }
}
