/**
 * The console's bus decoder. Only 13 address lines reach the 6507, so every
 * address is first reduced to 0x0000..0x1FFF (`address & 0x1FFF`, which for every
 * integer is its Euclidean remainder by 0x2000). The reduced address is then split
 * into windows: TIA (stubbed, reads 0), 128 bytes of RAM, unused space, the PIA
 * ports, unused space again, and the cartridge ROM from 0x1000 up.
 *
 * The RAM and ROM windows index with `- 0x7F` and `- 0xFFF`, one less than the
 * window bases. The model keeps that: 0x80 reaches `ram[1]`, `ram[0]` is never
 * reached, and 0xFF indexes one past the 128-byte array (a read yields JavaScript's
 * `undefined`, here `None`; a write is dropped by the typed array).
 */
module Console {
  import opened Wrappers

  type byte = x: int | 0 <= x < 0x100

  const RamSize: nat := 128

  /** The windows of the 13-bit address space, in the order the decoder tests them. */
  datatype Window = TiaWindow | RamWindow | UnusedLow | PiaWindow | UnusedHigh | RomWindow

  /** The address the 13 connected pins see. */
  function Masked(address: int): (r: int)
    ensures 0 <= r < 0x2000
    ensures (address - r) % 0x2000 == 0
  {
    address % 0x2000
  }

  /** The window a reduced address falls in. */
  function WindowOf(masked: int): (w: Window)
    ensures w == RamWindow <==> 0x80 <= masked < 0x100
    ensures w == RomWindow <==> masked >= 0x1000
  {
    if masked < 0x80 then TiaWindow
    else if masked < 0x100 then RamWindow
    else if masked < 0x280 then UnusedLow
    else if masked < 0x298 then PiaWindow
    else if masked < 0x1000 then UnusedHigh
    else RomWindow
  }

  /** The RAM index an address in the RAM window reaches. */
  function RamIndex(masked: int): int {
    masked - 0x7F
  }

  /** The ROM index an address in the ROM window reaches. */
  function RomIndex(masked: int): int {
    masked - 0xFFF
  }

  /**
   * `read_byte` over the RAM contents and the ROM image. `None` is an index past the
   * end of the RAM array or of the ROM image; every window but RAM and ROM reads 0.
   */
  function ReadAt(ram: seq<byte>, rom: seq<byte>, address: int): (r: Option<byte>)
    requires |ram| == RamSize
    ensures r.None? <==>
      || Masked(address) == 0xFF
      || (Masked(address) >= 0x1000 && RomIndex(Masked(address)) >= |rom|)
  {
    var masked := Masked(address);
    match WindowOf(masked)
    case RamWindow =>
      var i := RamIndex(masked);
      if i < |ram| then Some(ram[i]) else None
    case RomWindow =>
      var i := RomIndex(masked);
      if i < |rom| then Some(rom[i]) else None
    case _ => Some(0)
  }

  /**
   * The RAM contents after `write_byte`: an address in the RAM window stores
   * `value & 0xFF` (for an integer, its Euclidean remainder by 256) at its index
   * when that index is inside the array; every other write leaves the RAM as it was.
   */
  function RamAfterWrite(ram: seq<byte>, address: int, value: int): (r: seq<byte>)
    requires |ram| == RamSize
    ensures |r| == |ram|
    ensures forall i :: 0 <= i < |ram| && i != RamIndex(Masked(address)) ==> r[i] == ram[i]
  {
    var masked := Masked(address);
    var i := RamIndex(masked);
    if WindowOf(masked) == RamWindow && i < |ram| then ram[i := value % 0x100] else ram
  }

  /** Reads only see the 13 connected address bits. */
  lemma ReadMirrors(ram: seq<byte>, rom: seq<byte>, address: int, k: int)
    requires |ram| == RamSize
    ensures ReadAt(ram, rom, address) == ReadAt(ram, rom, Masked(address))
    ensures ReadAt(ram, rom, address + k * 0x2000) == ReadAt(ram, rom, address)
  {
    assert Masked(address + k * 0x2000) == Masked(address);
  }

  /** Writes only see the 13 connected address bits. */
  lemma WriteMirrors(ram: seq<byte>, address: int, value: int, k: int)
    requires |ram| == RamSize
    ensures RamAfterWrite(ram, address, value) == RamAfterWrite(ram, Masked(address), value)
    ensures RamAfterWrite(ram, address + k * 0x2000, value) == RamAfterWrite(ram, address, value)
  {
    assert Masked(address + k * 0x2000) == Masked(address);
  }

  /** For 0x80..0xFE, reading back a written address gives the value's low byte. */
  lemma RamRoundTrip(ram: seq<byte>, rom: seq<byte>, address: int, value: int)
    requires |ram| == RamSize && 0x80 <= Masked(address) <= 0xFE
    ensures ReadAt(RamAfterWrite(ram, address, value), rom, address) == Some(value % 0x100)
  {
  }

  /** The index arithmetic is one off: 0x80 reaches `ram[1]` and no address reaches `ram[0]`. */
  lemma RamSlotZeroIsNeverUsed(ram: seq<byte>, address: int, value: int)
    requires |ram| == RamSize
    ensures RamAfterWrite(ram, address, value)[0] == ram[0]
    ensures Masked(address) == 0x80 ==> RamAfterWrite(ram, address, value) == ram[1 := value % 0x100]
  {
  }

  /** 0xFF (and each of its mirrors) indexes one past the array: a write there is dropped and a read yields nothing. */
  lemma TopOfRamWindowIsOutOfRange(ram: seq<byte>, rom: seq<byte>, address: int, value: int)
    requires |ram| == RamSize && Masked(address) == 0xFF
    ensures RamAfterWrite(ram, address, value) == ram
    ensures ReadAt(ram, rom, address) == None
  {
  }

  /** A write outside 0x80..0xFF leaves the RAM unchanged; ROM, TIA and PIA writes are only logged. */
  lemma WritesOutsideRamWindowChangeNothing(ram: seq<byte>, address: int, value: int)
    requires |ram| == RamSize && !(0x80 <= Masked(address) <= 0xFF)
    ensures RamAfterWrite(ram, address, value) == ram
  {
  }

  /** The TIA window, the unused windows and the PIA ports read 0. */
  lemma StubWindowsReadZero(ram: seq<byte>, rom: seq<byte>, address: int)
    requires |ram| == RamSize
    requires Masked(address) < 0x80 || 0x100 <= Masked(address) < 0x1000
    ensures ReadAt(ram, rom, address) == Some(0)
  {
  }

  /**
   * A read at 0x1000 or above returns `rom[masked - 0xFFF]`: the first ROM byte is never
   * read, and the last address reads past a 4 KiB image.
   */
  lemma RomReads(ram: seq<byte>, rom: seq<byte>, address: int)
    requires |ram| == RamSize && Masked(address) >= 0x1000
    ensures 1 <= RomIndex(Masked(address)) <= 0x1000
    ensures RomIndex(Masked(address)) < |rom| ==> ReadAt(ram, rom, address) == Some(rom[RomIndex(Masked(address))])
    ensures |rom| == 0x1000 && Masked(address) == 0x1FFF ==> ReadAt(ram, rom, address) == None
  {
  }

  /** A read returns the RAM byte that the last write to the same RAM address stored, whatever was written elsewhere. */
  lemma {:induction false} RamWritesToOtherAddressesDoNotInterfere(ram: seq<byte>, rom: seq<byte>, a: int, b: int, value: int)
    requires |ram| == RamSize && Masked(a) != Masked(b)
    ensures ReadAt(RamAfterWrite(ram, b, value), rom, a) == ReadAt(ram, rom, a)
  {
    var ma, mb := Masked(a), Masked(b);
    if WindowOf(ma) == RamWindow && RamIndex(ma) < RamSize {
      assert RamIndex(ma) != RamIndex(mb);
      assert RamAfterWrite(ram, b, value)[RamIndex(ma)] == ram[RamIndex(ma)];
    }
  }

  /** The RAM contents after a sequence of `write_byte` calls, in order. */
  function RamAfterWrites(ram: seq<byte>, writes: seq<(int, int)>): (r: seq<byte>)
    requires |ram| == RamSize
    ensures |r| == RamSize
    ensures (forall i :: 0 <= i < |writes| ==> !(0x80 <= Masked(writes[i].0) <= 0xFE)) ==> r == ram
    decreases |writes|
  {
    if writes == [] then ram
    else
      var last := writes[|writes| - 1];
      RamAfterWrite(RamAfterWrites(ram, writes[..|writes| - 1]), last.0, last.1)
  }

  /** The low byte of the last value written to a reduced address, if any write reached it. */
  function LastWrite(writes: seq<(int, int)>, masked: int): (r: Option<byte>)
    ensures r.Some? <==> exists i :: 0 <= i < |writes| && Masked(writes[i].0) == masked
    decreases |writes|
  {
    if writes == [] then None
    else
      var last := writes[|writes| - 1];
      if Masked(last.0) == masked then Some(last.1 % 0x100)
      else
        var earlier := LastWrite(writes[..|writes| - 1], masked);
        assert forall i :: 0 <= i < |writes| - 1 ==> writes[..|writes| - 1][i] == writes[i];
        earlier
  }

  /**
   * RAM behaves as a memory at 0x80..0xFE (and their mirrors): a read returns the low
   * byte of the last value written to the same reduced address, or, if there was none,
   * what it read before the writes.
   */
  lemma {:induction false} ReadSeesLastWrite(ram: seq<byte>, rom: seq<byte>, writes: seq<(int, int)>, address: int)
    requires |ram| == RamSize && 0x80 <= Masked(address) <= 0xFE
    ensures ReadAt(RamAfterWrites(ram, writes), rom, address) ==
      match LastWrite(writes, Masked(address))
      case Some(v) => Some(v)
      case None => ReadAt(ram, rom, address)
    decreases |writes|
  {
    if writes != [] {
      var earlier := writes[..|writes| - 1];
      var last := writes[|writes| - 1];
      var before := RamAfterWrites(ram, earlier);
      if Masked(last.0) == Masked(address) {
        WriteMirrors(before, last.0, last.1, 0);
        RamRoundTrip(before, rom, Masked(address), last.1);
        ReadMirrors(RamAfterWrite(before, last.0, last.1), rom, address, 0);
      } else {
        RamWritesToOtherAddressesDoNotInterfere(before, rom, address, last.0, last.1);
        ReadSeesLastWrite(ram, rom, earlier, address);
      }
    }
  }

  /** The console: its 128 bytes of RAM, updated in place, and the cartridge image. */
  class Atari2600 {
    const ram: array<byte>
    const rom: seq<byte>

    /** The RAM starts zeroed, as a fresh `Uint8Array` does. */
    constructor (rom: seq<byte>)
      ensures fresh(ram) && ram.Length == RamSize
      ensures forall i :: 0 <= i < RamSize ==> ram[i] == 0
      ensures this.rom == rom
    {
      this.ram := new byte[RamSize](_ => 0);
      this.rom := rom;
    }

    /** `read_byte`. */
    function ReadByte(address: int): (r: Option<byte>)
      reads ram
      requires ram.Length == RamSize
      ensures r == ReadAt(ram[..], rom, address)
    {
      var masked := address % 0x2000;
      if masked < 0x80 then Some(0)
      else if masked < 0x100 then
        if masked - 0x7F < ram.Length then Some(ram[masked - 0x7F]) else None
      else if masked < 0x1000 then Some(0)
      else if masked - 0xFFF < |rom| then Some(rom[masked - 0xFFF])
      else None
    }

    /** `write_byte`: stores into the RAM array in place; nothing else is written. */
    method WriteByte(address: int, value: int)
      requires ram.Length == RamSize
      modifies ram
      ensures ram[..] == RamAfterWrite(old(ram[..]), address, value)
    {
      var masked := address % 0x2000;
      if masked < 0x80 {
      } else if masked < 0x100 {
        if masked - 0x7F < ram.Length {
          ram[masked - 0x7F] := value % 0x100;
        }
      }
    }
  }
}
