/**
 * The bit-field decoding of the TIA's register values: collision-latch packing,
 * the motion nibble, colour, and the three playfield registers' places in the
 * 20-bit playfield word.
 */
module TiaFields {
  /**
   * A byte from the data bus. JavaScript's bitwise operators work on 32-bit
   * integers, so the value is held as a 32-bit word below 0x100.
   */
  type DataByte = v: bv32 | v < 0x100

  /** One colour register: luminance 0..7 and hue 0..15. */
  datatype Color = Color(luminance: bv32, color: bv32)

  /** `read_cxlatch`: bit 6 from the first latch, bit 7 from the second, nothing else. */
  function ReadCxLatch(bit6: bool, bit7: bool): (r: DataByte)
    ensures r & 0x3F == 0
    ensures r & 0x40 != 0 <==> bit6
    ensures r & 0x80 != 0 <==> bit7
  {
    (if bit6 then 0x40 else 0) | (if bit7 then 0x80 else 0)
  }

  /**
   * `signed_4_high_bit`: zero when bit 7 is clear, otherwise minus bits 4..6. The
   * result always lies in -7..0.
   */
  function Signed4HighBit(value: DataByte): (r: int)
    ensures -7 <= r <= 0
    ensures value & 0x80 == 0 ==> r == 0
    ensures value & 0x80 != 0 ==> r == -(((value >> 4) & 7) as int)
  {
    var sign := -(((value & 0xFF) >> 7) as int);
    var unsignedPortion := ((value & 0x70) >> 4) as int;
    unsignedPortion * sign
  }

  /**
   * The motion value is not the high nibble read as a 4-bit two's-complement number:
   * 0xF0 (-1 in two's complement) gives -7, and 0x10 (+1) gives 0.
   */
  lemma Signed4HighBitIsNotTwosComplement()
    ensures Signed4HighBit(0xF0) == -7
    ensures Signed4HighBit(0x10) == 0
  {
  }

  /** `write_color`: luminance from bits 1..3, hue from bits 4..7; bit 0 is dropped. */
  function ColorOf(value: DataByte): (r: Color)
    ensures r.luminance <= 7 && r.color <= 15
    ensures r.color * 16 + r.luminance * 2 == value & 0xFE
  {
    Color((value & 0x0E) >> 1, (value & 0xF0) >> 4)
  }

  /** PF0: bits 0..15 kept, bits 16..19 cleared, the value's high nibble at bits 20..23, nothing above. */
  function Pf0(register: bv32, value: DataByte): (r: bv32)
    ensures r & 0xFFFF == register & 0xFFFF
    ensures r & 0xF_0000 == 0
    ensures r >> 20 == value >> 4
  {
    var kept, nibble := register & 0xFFFF, (value & 0xF0) << 16;
    assert kept & 0xFFFF == register & 0xFFFF && nibble & 0xFFFF == 0;
    assert kept & 0xF_0000 == 0 && nibble & 0xF_0000 == 0;
    assert kept >> 20 == 0 && nibble >> 20 == value >> 4;
    kept | nibble
  }

  /** PF1: bits 8..15 hold the value, bits 0..7 and 16..19 are kept, bits 20 and up are cleared. */
  function Pf1(register: bv32, value: DataByte): (r: bv32)
    ensures r & 0xF_00FF == register & 0xF_00FF
    ensures (r >> 8) & 0xFF == value
    ensures r >> 20 == 0
  {
    var kept, byte := register & 0xF_00FF, (value & 0xFF) << 8;
    assert kept & 0xF_00FF == register & 0xF_00FF && byte & 0xF_00FF == 0;
    assert (kept >> 8) & 0xFF == 0 && (byte >> 8) & 0xFF == value;
    assert kept >> 20 == 0 && byte >> 20 == 0;
    kept | byte
  }

  /** PF2: bits 0..7 hold the value, bits 8..19 are kept, bits 20 and up are cleared. */
  function Pf2(register: bv32, value: DataByte): (r: bv32)
    ensures r & 0xF_FF00 == register & 0xF_FF00
    ensures r & 0xFF == value
    ensures r >> 20 == 0
  {
    var kept, byte := register & 0xF_FF00, value & 0xFF;
    assert kept & 0xF_FF00 == register & 0xF_FF00 && byte & 0xF_FF00 == 0;
    assert kept & 0xFF == 0 && byte & 0xFF == value;
    assert kept >> 20 == 0 && byte >> 20 == 0;
    kept | byte
  }

  /** Writing PF0, PF1 or PF2 twice with the same value is the same as writing it once. */
  lemma Pf0Idempotent(register: bv32, value: DataByte)
    ensures Pf0(Pf0(register, value), value) == Pf0(register, value)
  {
    assert Pf0(register, value) & 0xFFFF == register & 0xFFFF;
  }

  lemma Pf1Idempotent(register: bv32, value: DataByte)
    ensures Pf1(Pf1(register, value), value) == Pf1(register, value)
  {
    assert Pf1(register, value) & 0xF_00FF == register & 0xF_00FF;
  }

  lemma Pf2Idempotent(register: bv32, value: DataByte)
    ensures Pf2(Pf2(register, value), value) == Pf2(register, value)
  {
    assert Pf2(register, value) & 0xF_FF00 == register & 0xF_FF00;
  }

  /**
   * PF0's nibble sits at bits 20..23, which the PF1 and PF2 masks clear: once PF1 or
   * PF2 is written, nothing of the PF0 write is left, while PF1 and PF2 survive each other.
   */
  lemma Pf0LostAfterPf1OrPf2(register: bv32, v0: DataByte, v: DataByte)
    ensures Pf1(Pf0(register, v0), v) == Pf1(register & 0xFFFF, v)
    ensures Pf2(Pf0(register, v0), v) == Pf2(register & 0xFFFF, v)
    ensures Pf2(Pf1(register, v0), v) & 0xFF00 == Pf1(register, v0) & 0xFF00
    ensures Pf1(Pf2(register, v0), v) & 0xFF == Pf2(register, v0) & 0xFF
  {
  }

}
