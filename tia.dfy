/**
 * The TIA video chip's register file: its read path (collision latches packed
 * into bits 6 and 7, decoded from the low four address bits) and its write path
 * (an undecoded switch over the register addresses that sets sizes, colours,
 * enables, reflections, vertical delays, motion values, the 20-bit playfield
 * register, and the clear strobes).
 *
 * The repository holds two copies of this class: the module `tia.js` and an inline
 * copy in `atari2600.js`. They differ in one place: in the inline copy the six
 * audio registers fall through into GRP0. `TiaCopy` says which copy is meant.
 *
 * The object's 25 fields are kept in six groups; each field keeps its source name.
 */
module Video {
  import opened TiaFields

  datatype TiaCopy = ModuleCopy | InlineCopy

  /** VSYNC, VBLANK, and the wait request that the WSYNC strobe sends to the CPU. */
  datatype Sync = Sync(vsyncFlag: bool, vblankFlag: bool, sendingRdySignalToCpu: bool)

  /** The playfield word and the fields CTRLPF sets, the ball size among them. */
  datatype Playfield = Playfield(
    playFieldRegister: bv32,
    playFieldReflection: bool,
    playFieldColor: bool,
    playFieldBallPriority: bool,
    ballSize: bv32)

  /** Per-object sizes, graphics, enables, reflections and vertical delays. */
  datatype Objects = Objects(
    playerSizes: seq<bv32>,
    missileSizes: seq<bv32>,
    players: seq<DataByte>,
    missilesEnabled: seq<bool>,
    ballEnabled: bool,
    playerReflect: seq<bool>,
    verticalDelayPlayer: seq<bool>,
    verticalDelayBall: bool)

  /** The horizontal motion values of the two players, the two missiles and the ball. */
  datatype Motion = Motion(horizontalMotionPlayer: seq<int>, horizontalMotionMissile: seq<int>, horizontalMotionBall: int)

  /**
   * The collision latches: per missile P0, P1, BL, PF, M*; per player BL, PF, P*;
   * and the ball-playfield latch.
   */
  datatype Latches = Latches(
    missileCollisionLatches: seq<seq<bool>>,
    playerCollisionLatches: seq<seq<bool>>,
    ballPlayingFieldCollisionLatch: bool)

  datatype Colors = Colors(playerAndMissileColors: seq<Color>, playFieldAndBallColor: Color, backgroundColor: Color)

  /** The values of all the fields of a TIA object. */
  datatype TiaRegs = TiaRegs(sync: Sync, playfield: Playfield, objects: Objects, motion: Motion, latches: Latches, colors: Colors)

  predicate ObjectsWellFormed(o: Objects) {
    && |o.playerSizes| == 2 && |o.missileSizes| == 2 && |o.players| == 2
    && |o.missilesEnabled| == 2 && |o.playerReflect| == 2 && |o.verticalDelayPlayer| == 2
  }

  /** The latch grids are 2x5 (missiles) and 2x3 (players). */
  predicate LatchesWellFormed(l: Latches) {
    && |l.missileCollisionLatches| == 2
    && |l.missileCollisionLatches[0]| == 5 && |l.missileCollisionLatches[1]| == 5
    && |l.playerCollisionLatches| == 2
    && |l.playerCollisionLatches[0]| == 3 && |l.playerCollisionLatches[1]| == 3
  }

  predicate MotionWellFormed(m: Motion) {
    |m.horizontalMotionPlayer| == 2 && |m.horizontalMotionMissile| == 2
  }

  /** The shapes the constructor gives the arrays. */
  predicate WellFormed(regs: TiaRegs) {
    && ObjectsWellFormed(regs.objects)
    && MotionWellFormed(regs.motion)
    && LatchesWellFormed(regs.latches)
    && |regs.colors.playerAndMissileColors| == 2
  }

  const ClearedLatches: Latches :=
    Latches([[false, false, false, false, false], [false, false, false, false, false]],
            [[false, false, false], [false, false, false]],
            false)

  const ClearedMotion: Motion := Motion([0, 0], [0, 0], 0)

  /** Every field as the constructor leaves it. */
  function PowerOn(): (r: TiaRegs)
    ensures WellFormed(r)
  {
    TiaRegs(
      Sync(false, false, false),
      Playfield(0, false, false, false, 0),
      Objects([0, 0], [0, 0], [0, 0], [false, false], false, [false, false], [false, false], false),
      ClearedMotion,
      ClearedLatches,
      Colors([Color(0, 0), Color(0, 0)], Color(0, 0), Color(0, 0)))
  }

  // ------------------------------------------------------------ field writes

  /** `write_nusiz`: player size from bits 0..2, missile size from bits 4..6 of object `ix`. */
  function WrittenNusiz(o: Objects, ix: int, value: DataByte): (r: Objects)
    requires ObjectsWellFormed(o) && 0 <= ix < 2
    ensures ObjectsWellFormed(r)
    ensures r.playerSizes[ix] <= 7 && r.missileSizes[ix] <= 7
    ensures r.playerSizes[ix] == value & 0x07 && r.missileSizes[ix] << 4 == value & 0x70
    ensures r.playerSizes[1 - ix] == o.playerSizes[1 - ix] && r.missileSizes[1 - ix] == o.missileSizes[1 - ix]
    ensures r == o.(playerSizes := r.playerSizes, missileSizes := r.missileSizes)
  {
    o.(playerSizes := o.playerSizes[ix := value & 0x07],
       missileSizes := o.missileSizes[ix := (value >> 4) & 0x07])
  }

  /** `write_ctrlpf`: reflection, score colour and priority from bits 0, 1, 2; ball size 0..3 from bits 4..5. */
  function WrittenCtrlpf(p: Playfield, value: DataByte): (r: Playfield)
    ensures r.ballSize <= 3 && r.ballSize << 4 == value & 0x30
    ensures r.playFieldReflection <==> value & 0x01 != 0
    ensures r.playFieldColor <==> value & 0x02 != 0
    ensures r.playFieldBallPriority <==> value & 0x04 != 0
    ensures r.playFieldRegister == p.playFieldRegister
  {
    p.(playFieldReflection := value & 0x01 == 0x01,
       playFieldColor := value & 0x02 == 0x02,
       playFieldBallPriority := value & 0x04 == 0x04,
       ballSize := (value & 0x30) >> 4)
  }

  // ------------------------------------------------------------ read path

  /**
   * `read_byte`: only the low four address bits are decoded (`address & 0b1111`,
   * which for every integer is its Euclidean remainder by 16); 0x00..0x07 read a pair
   * of collision latches, 0x08..0x0F read 0. Only the latches are read.
   */
  function ReadRegister(latches: Latches, address: int): (r: DataByte)
    requires LatchesWellFormed(latches)
    ensures r & 0x3F == 0
    ensures address % 16 >= 8 ==> r == 0
    ensures var m := latches.missileCollisionLatches;
      var p := latches.playerCollisionLatches;
      && (address % 16 == 0x00 ==> (r & 0x40 != 0 <==> m[0][0]) && (r & 0x80 != 0 <==> m[0][1]))
      && (address % 16 == 0x01 ==> (r & 0x40 != 0 <==> m[1][0]) && (r & 0x80 != 0 <==> m[1][1]))
      && (address % 16 == 0x02 ==> (r & 0x40 != 0 <==> p[0][0]) && (r & 0x80 != 0 <==> p[0][1]))
      && (address % 16 == 0x03 ==> (r & 0x40 != 0 <==> p[1][0]) && (r & 0x80 != 0 <==> p[1][1]))
      && (address % 16 == 0x04 ==> (r & 0x40 != 0 <==> m[0][2]) && (r & 0x80 != 0 <==> m[0][3]))
      && (address % 16 == 0x05 ==> (r & 0x40 != 0 <==> m[1][2]) && (r & 0x80 != 0 <==> m[1][3]))
      && (address % 16 == 0x06 ==> r & 0x40 == 0 && (r & 0x80 != 0 <==> latches.ballPlayingFieldCollisionLatch))
      && (address % 16 == 0x07 ==> (r & 0x40 != 0 <==> m[0][4]) && (r & 0x80 != 0 <==> p[0][2]))
  {
    var m := latches.missileCollisionLatches;
    var p := latches.playerCollisionLatches;
    match address % 16
    case 0x00 => ReadCxLatch(m[0][0], m[0][1])
    case 0x01 => ReadCxLatch(m[1][0], m[1][1])
    case 0x02 => ReadCxLatch(p[0][0], p[0][1])
    case 0x03 => ReadCxLatch(p[1][0], p[1][1])
    case 0x04 => ReadCxLatch(m[0][2], m[0][3])
    case 0x05 => ReadCxLatch(m[1][2], m[1][3])
    case 0x06 => ReadCxLatch(false, latches.ballPlayingFieldCollisionLatch)
    case 0x07 => ReadCxLatch(m[0][4], p[0][2])
    case _ => 0
  }

  /**
   * A read depends only on the address's low four bits; 0x08..0x0F (INPT* and
   * undefined) read 0; and a read never sets bits 0..5.
   */
  lemma ReadDecodesLowNibble(latches: Latches, address: int)
    requires LatchesWellFormed(latches)
    ensures ReadRegister(latches, address) == ReadRegister(latches, address % 16)
    ensures address % 16 >= 8 ==> ReadRegister(latches, address) == 0
    ensures ReadRegister(latches, address) & 0x3F == 0
  {
  }

  /** No read reaches missile 1's M* latch or player 1's P* latch. */
  lemma UnreadLatchesDoNotMatter(latches: Latches, address: int, b1: bool, b2: bool)
    requires LatchesWellFormed(latches)
    ensures
      var other := latches.(
        missileCollisionLatches := latches.missileCollisionLatches[1 := latches.missileCollisionLatches[1][4 := b1]],
        playerCollisionLatches := latches.playerCollisionLatches[1 := latches.playerCollisionLatches[1][2 := b2]]);
      LatchesWellFormed(other) && ReadRegister(other, address) == ReadRegister(latches, address)
  {
  }

  // ------------------------------------------------------------ write path

  /** The address whose write raises: COLUBK hands a boolean to `write_color`. */
  predicate WriteRaises(address: int) {
    address == 0x09
  }

  /** The new motion group after a write to an HM* register or to HMCLR. */
  function MotionWritten(m: Motion, address: int, value: DataByte): (r: Motion)
    requires MotionWellFormed(m)
    ensures MotionWellFormed(r)
    ensures address == 0x2B ==> r == ClearedMotion
    ensures !(0x20 <= address <= 0x24 || address == 0x2B) ==> r == m
    // HMP0, HMP1, HMM0, HMM1 and HMBL each store the decoded nibble in their own slot only.
    ensures address != 0x2B ==>
      && r.horizontalMotionPlayer[0] == (if address == 0x20 then Signed4HighBit(value) else m.horizontalMotionPlayer[0])
      && r.horizontalMotionPlayer[1] == (if address == 0x21 then Signed4HighBit(value) else m.horizontalMotionPlayer[1])
      && r.horizontalMotionMissile[0] == (if address == 0x22 then Signed4HighBit(value) else m.horizontalMotionMissile[0])
      && r.horizontalMotionMissile[1] == (if address == 0x23 then Signed4HighBit(value) else m.horizontalMotionMissile[1])
      && r.horizontalMotionBall == (if address == 0x24 then Signed4HighBit(value) else m.horizontalMotionBall)
  {
    match address
    case 0x20 => m.(horizontalMotionPlayer := m.horizontalMotionPlayer[0 := Signed4HighBit(value)])
    case 0x21 => m.(horizontalMotionPlayer := m.horizontalMotionPlayer[1 := Signed4HighBit(value)])
    case 0x22 => m.(horizontalMotionMissile := m.horizontalMotionMissile[0 := Signed4HighBit(value)])
    case 0x23 => m.(horizontalMotionMissile := m.horizontalMotionMissile[1 := Signed4HighBit(value)])
    case 0x24 => m.(horizontalMotionBall := Signed4HighBit(value))
    case 0x2B => ClearedMotion
    case _ => m
  }

  /** The new sync group after a write to VSYNC, VBLANK or WSYNC. */
  function SyncWritten(sync: Sync, address: int, value: DataByte): (r: Sync)
    ensures r.vsyncFlag == if address == 0x00 then value & 0x02 != 0 else sync.vsyncFlag
    ensures r.vblankFlag == if address == 0x01 then value & 0x02 != 0 else sync.vblankFlag
    ensures r.sendingRdySignalToCpu == (address == 0x02 || sync.sendingRdySignalToCpu)
  {
    match address
    case 0x00 => sync.(vsyncFlag := value & 0x02 != 0)
    case 0x01 => sync.(vblankFlag := value & 0x02 != 0)
    case 0x02 => sync.(sendingRdySignalToCpu := true)
    case _ => sync
  }

  /**
   * Of the value written, VSYNC and VBLANK look only at bit 1, and WSYNC at nothing;
   * once WSYNC has raised the wait request, no sync write lowers it.
   */
  lemma SyncWriteUsesOnlyBitOne(sync: Sync, address: int, value: DataByte)
    ensures SyncWritten(sync, address, value) == SyncWritten(sync, address, value & 0x02)
    ensures SyncWritten(sync, 0x02, value) == SyncWritten(sync, 0x02, 0)
    ensures sync.sendingRdySignalToCpu ==> SyncWritten(sync, address, value).sendingRdySignalToCpu
  {
  }

  /** The new colour group after a write to COLUP0, COLUP1 or COLUPF; COLUBK never gets here. */
  function ColorsWritten(colors: Colors, address: int, value: DataByte): (r: Colors)
    requires |colors.playerAndMissileColors| == 2
    ensures |r.playerAndMissileColors| == 2
    ensures r.playerAndMissileColors[0] == if address == 0x06 then ColorOf(value) else colors.playerAndMissileColors[0]
    ensures r.playerAndMissileColors[1] == if address == 0x07 then ColorOf(value) else colors.playerAndMissileColors[1]
    ensures r.playFieldAndBallColor == if address == 0x08 then ColorOf(value) else colors.playFieldAndBallColor
    ensures r.backgroundColor == colors.backgroundColor
  {
    match address
    case 0x06 => colors.(playerAndMissileColors := colors.playerAndMissileColors[0 := ColorOf(value)])
    case 0x07 => colors.(playerAndMissileColors := colors.playerAndMissileColors[1 := ColorOf(value)])
    case 0x08 => colors.(playFieldAndBallColor := ColorOf(value))
    case _ => colors
  }

  /** The new playfield group after a write to CTRLPF or PF0..PF2. */
  function PlayfieldWritten(p: Playfield, address: int, value: DataByte): (r: Playfield)
    ensures address !in {0x0A, 0x0D, 0x0E, 0x0F} ==> r == p
    ensures address == 0x0A ==> r.playFieldRegister == p.playFieldRegister
    ensures address in {0x0D, 0x0E, 0x0F} ==> r == p.(playFieldRegister := r.playFieldRegister)
    // Each of PF0, PF1 and PF2 replaces only its own bits of the word (see the contracts of Pf0, Pf1, Pf2).
    ensures address == 0x0D ==> r.playFieldRegister == Pf0(p.playFieldRegister, value)
    ensures address == 0x0E ==> r.playFieldRegister == Pf1(p.playFieldRegister, value)
    ensures address == 0x0F ==> r.playFieldRegister == Pf2(p.playFieldRegister, value)
  {
    match address
    case 0x0A => WrittenCtrlpf(p, value)
    case 0x0D => p.(playFieldRegister := Pf0(p.playFieldRegister, value))
    case 0x0E => p.(playFieldRegister := Pf1(p.playFieldRegister, value))
    case 0x0F => p.(playFieldRegister := Pf2(p.playFieldRegister, value))
    case _ => p
  }

  /** AUDC0..AUDV1: only logged in the module copy; in the inline copy the case falls through into GRP0. */
  function AudioWritten(o: Objects, value: DataByte, copy: TiaCopy): (r: Objects)
    requires ObjectsWellFormed(o)
    ensures ObjectsWellFormed(r)
    ensures copy == ModuleCopy ==> r == o
    ensures copy == InlineCopy ==> r == o.(players := [value, o.players[1]])
  {
    match copy
    case ModuleCopy => o
    case InlineCopy => o.(players := o.players[0 := value])
  }

  /** The new object group after a write to NUSIZ*, REFP*, GRP*, EN*, VDEL* or an audio register. */
  function ObjectsWritten(o: Objects, address: int, value: DataByte, copy: TiaCopy): (r: Objects)
    requires ObjectsWellFormed(o)
    ensures ObjectsWellFormed(r)
  {
    match address
    case 0x04 => WrittenNusiz(o, 0, value)
    case 0x05 => WrittenNusiz(o, 1, value)
    case 0x0B => o.(playerReflect := o.playerReflect[0 := value & 0x08 != 0])
    case 0x0C => o.(playerReflect := o.playerReflect[1 := value & 0x08 != 0])
    case 0x15 => AudioWritten(o, value, copy)
    case 0x16 => AudioWritten(o, value, copy)
    case 0x17 => AudioWritten(o, value, copy)
    case 0x18 => AudioWritten(o, value, copy)
    case 0x19 => AudioWritten(o, value, copy)
    case 0x1A => AudioWritten(o, value, copy)
    case 0x1B => o.(players := o.players[0 := value])
    case 0x1C => o.(players := o.players[1 := value])
    case 0x1D => o.(missilesEnabled := o.missilesEnabled[0 := value & 0x02 != 0])
    case 0x1E => o.(missilesEnabled := o.missilesEnabled[1 := value & 0x02 != 0])
    case 0x1F => o.(ballEnabled := value & 0x02 != 0)
    case 0x25 => o.(verticalDelayPlayer := o.verticalDelayPlayer[0 := value & 0x01 != 0])
    case 0x26 => o.(verticalDelayPlayer := o.verticalDelayPlayer[1 := value & 0x01 != 0])
    case 0x27 => o.(verticalDelayBall := value & 0x01 != 0)
    case _ => o
  }

  /** NUSIZ0 and NUSIZ1 store bits 0..2 as their player's size; no other address touches it. */
  lemma ObjectsWritePlayerSizes(o: Objects, address: int, value: DataByte, copy: TiaCopy)
    requires ObjectsWellFormed(o)
    ensures var r := ObjectsWritten(o, address, value, copy);
      && (r.playerSizes[0] == if address == 0x04 then value & 0x07 else o.playerSizes[0])
      && (r.playerSizes[1] == if address == 0x05 then value & 0x07 else o.playerSizes[1])
  {
    var r := ObjectsWritten(o, address, value, copy);
    if address !in {0x04, 0x05} {
      assert r.playerSizes == o.playerSizes;
    }
  }

  /** NUSIZ0 and NUSIZ1 store bits 4..6 as their missile's size; no other address touches it. */
  lemma ObjectsWriteMissileSizes(o: Objects, address: int, value: DataByte, copy: TiaCopy)
    requires ObjectsWellFormed(o)
    ensures var r := ObjectsWritten(o, address, value, copy);
      && (r.missileSizes[0] == if address == 0x04 then (value >> 4) & 0x07 else o.missileSizes[0])
      && (r.missileSizes[1] == if address == 0x05 then (value >> 4) & 0x07 else o.missileSizes[1])
  {
    var r := ObjectsWritten(o, address, value, copy);
    if address !in {0x04, 0x05} {
      assert r.missileSizes == o.missileSizes;
    }
  }

  /** REFP0 and REFP1 take bit 3, and no other address touches reflection. */
  lemma ObjectsWriteReflect(o: Objects, address: int, value: DataByte, copy: TiaCopy)
    requires ObjectsWellFormed(o)
    ensures var r := ObjectsWritten(o, address, value, copy);
      && (r.playerReflect[0] == if address == 0x0B then value & 0x08 != 0 else o.playerReflect[0])
      && (r.playerReflect[1] == if address == 0x0C then value & 0x08 != 0 else o.playerReflect[1])
  {
    var r := ObjectsWritten(o, address, value, copy);
    if address !in {0x0B, 0x0C} {
      assert r.playerReflect == o.playerReflect;
    }
  }

  /** What GRP0 and GRP1 write, and what the audio registers write in each copy. */
  lemma ObjectsWriteGraphics(o: Objects, address: int, value: DataByte, copy: TiaCopy)
    requires ObjectsWellFormed(o)
    ensures var r := ObjectsWritten(o, address, value, copy);
    // GRP0 (and, in the inline copy, every audio register) and GRP1 store the whole byte.
      && (r.players[0] == if address == 0x1B || (copy == InlineCopy && 0x15 <= address <= 0x1A) then value else o.players[0])
      && (r.players[1] == if address == 0x1C then value else o.players[1])
  {
  }

  /** What ENAM0, ENAM1, ENABL, VDELP0, VDELP1 and VDELBL write, and that no other address touches them. */
  lemma ObjectsWriteEnables(o: Objects, address: int, value: DataByte, copy: TiaCopy)
    requires ObjectsWellFormed(o)
    ensures var r := ObjectsWritten(o, address, value, copy);
    // ENAM0, ENAM1 and ENABL take bit 1.
      && (r.missilesEnabled[0] == if address == 0x1D then value & 0x02 != 0 else o.missilesEnabled[0])
      && (r.missilesEnabled[1] == if address == 0x1E then value & 0x02 != 0 else o.missilesEnabled[1])
      && (r.ballEnabled == if address == 0x1F then value & 0x02 != 0 else o.ballEnabled)
    // VDELP0, VDELP1 and VDELBL take bit 0.
      && (r.verticalDelayPlayer[0] == if address == 0x25 then value & 0x01 != 0 else o.verticalDelayPlayer[0])
      && (r.verticalDelayPlayer[1] == if address == 0x26 then value & 0x01 != 0 else o.verticalDelayPlayer[1])
      && (r.verticalDelayBall == if address == 0x27 then value & 0x01 != 0 else o.verticalDelayBall)
  {
    var r := ObjectsWritten(o, address, value, copy);
    if address !in {0x1D, 0x1E, 0x1F, 0x25, 0x26, 0x27} {
      assert r.missilesEnabled == o.missilesEnabled && r.verticalDelayPlayer == o.verticalDelayPlayer;
    }
  }

  /** The addresses `ObjectsWritten` acts on. */
  predicate IsObjectsAddress(address: int) {
    address in {0x04, 0x05, 0x0B, 0x0C, 0x25, 0x26, 0x27} || 0x15 <= address <= 0x1F
  }

  /** The addresses `MotionWritten` acts on. */
  predicate IsMotionAddress(address: int) {
    0x20 <= address <= 0x24 || address == 0x2B
  }

  /**
   * `write_byte`: the address is compared whole (no masking). Unknown addresses,
   * the strobes that are not implemented (RSYNC, RESP0..RESBL, RESMP0/1, HMOVE),
   * and COLUBK, which raises before storing anything, change nothing. The audio
   * registers change nothing in the module copy and set GRP0 in the inline copy.
   * Only CXCLR touches the collision latches, and nothing writes the background colour.
   */
  function Written(regs: TiaRegs, address: int, value: DataByte, copy: TiaCopy): (r: TiaRegs)
    requires WellFormed(regs)
    ensures WellFormed(r)
    ensures address != 0x2C ==> r.latches == regs.latches
    ensures address == 0x2C ==> r == regs.(latches := ClearedLatches)
    ensures r.colors.backgroundColor == regs.colors.backgroundColor
  {
    if IsObjectsAddress(address) then
      regs.(objects := ObjectsWritten(regs.objects, address, value, copy))
    else if IsMotionAddress(address) then
      regs.(motion := MotionWritten(regs.motion, address, value))
    else if 0x00 <= address <= 0x02 then
      regs.(sync := SyncWritten(regs.sync, address, value))
    else if 0x06 <= address <= 0x08 then
      regs.(colors := ColorsWritten(regs.colors, address, value))
    else if address == 0x0A || 0x0D <= address <= 0x0F then
      regs.(playfield := PlayfieldWritten(regs.playfield, address, value))
    else if address == 0x2C then
      regs.(latches := ClearedLatches)
    else
      regs
  }

  /** The write addresses whose case does nothing (in the module copy, the audio registers too). */
  predicate WriteIsNoOp(address: int, copy: TiaCopy) {
    || address == 0x03 || address == 0x09
    || 0x10 <= address <= 0x14 || 0x28 <= address <= 0x2A
    || (copy == ModuleCopy && 0x15 <= address <= 0x1A)
    || address < 0 || address > 0x2C
  }

  /** Stub, raising and undefined writes change no state. */
  lemma {:induction false} NoOpWritesChangeNothing(regs: TiaRegs, address: int, value: DataByte, copy: TiaCopy)
    requires WellFormed(regs) && WriteIsNoOp(address, copy)
    ensures Written(regs, address, value, copy) == regs
  {
    if 0x15 <= address <= 0x1A {
      assert ObjectsWritten(regs.objects, address, value, copy) == regs.objects;
    }
  }

  /** HMCLR zeroes exactly the five motion values. */
  lemma HmclrZeroesMotion(regs: TiaRegs, value: DataByte, copy: TiaCopy)
    requires WellFormed(regs)
    ensures var r := Written(regs, 0x2B, value, copy);
      && r.motion.horizontalMotionPlayer == [0, 0] && r.motion.horizontalMotionMissile == [0, 0]
      && r.motion.horizontalMotionBall == 0
      && r == regs.(motion := r.motion)
  {
  }

  /** After CXCLR every address reads 0, in either copy. */
  lemma {:induction false} CxclrClearsEveryRead(regs: TiaRegs, value: DataByte, copy: TiaCopy, address: int)
    requires WellFormed(regs)
    ensures ReadRegister(Written(regs, 0x2C, value, copy).latches, address) == 0
  {
    ClearedLatchesReadZero(address);
  }

  /** No write but CXCLR changes what any read returns. */
  lemma OnlyCxclrChangesReads(regs: TiaRegs, address: int, value: DataByte, copy: TiaCopy, readAddress: int)
    requires WellFormed(regs) && address != 0x2C
    ensures ReadRegister(Written(regs, address, value, copy).latches, readAddress) == ReadRegister(regs.latches, readAddress)
  {
  }

  /**
   * The two copies agree on every write but the six audio registers; there the
   * inline copy behaves as a GRP0 write and the module copy does nothing.
   */
  lemma {:induction false} CopiesDifferOnlyInAudio(regs: TiaRegs, address: int, value: DataByte)
    requires WellFormed(regs)
    ensures !(0x15 <= address <= 0x1A) ==>
      Written(regs, address, value, ModuleCopy) == Written(regs, address, value, InlineCopy)
    ensures 0x15 <= address <= 0x1A ==>
      && Written(regs, address, value, InlineCopy) == Written(regs, 0x1B, value, InlineCopy)
      && Written(regs, address, value, ModuleCopy) == regs
  {
    if 0x15 <= address <= 0x1A {
      assert ObjectsWritten(regs.objects, address, value, ModuleCopy) == regs.objects;
      assert ObjectsWritten(regs.objects, address, value, InlineCopy) == ObjectsWritten(regs.objects, 0x1B, value, InlineCopy);
    }
  }

  /** The idempotence of `ObjectsWritten`, one group of addresses at a time. */
  lemma NusizWriteIdempotent(o: Objects, address: int, value: DataByte, copy: TiaCopy)
    requires ObjectsWellFormed(o) && (address == 0x04 || address == 0x05)
    ensures ObjectsWritten(ObjectsWritten(o, address, value, copy), address, value, copy) == ObjectsWritten(o, address, value, copy)
  {
  }

  lemma AudioWriteIdempotent(o: Objects, address: int, value: DataByte, copy: TiaCopy)
    requires ObjectsWellFormed(o) && 0x15 <= address <= 0x1A
    ensures ObjectsWritten(ObjectsWritten(o, address, value, copy), address, value, copy) == ObjectsWritten(o, address, value, copy)
  {
  }

  lemma GraphicsWriteIdempotent(o: Objects, address: int, value: DataByte, copy: TiaCopy)
    requires ObjectsWellFormed(o) && 0x1B <= address <= 0x1F
    ensures ObjectsWritten(ObjectsWritten(o, address, value, copy), address, value, copy) == ObjectsWritten(o, address, value, copy)
  {
  }

  lemma FlagWriteIdempotent(o: Objects, address: int, value: DataByte, copy: TiaCopy)
    requires ObjectsWellFormed(o) && address in {0x0B, 0x0C, 0x25, 0x26, 0x27}
    ensures ObjectsWritten(ObjectsWritten(o, address, value, copy), address, value, copy) == ObjectsWritten(o, address, value, copy)
  {
  }

  /** Writing the same value to an object register twice is writing it once. */
  lemma {:induction false} ObjectsWriteIdempotent(o: Objects, address: int, value: DataByte, copy: TiaCopy)
    requires ObjectsWellFormed(o)
    ensures ObjectsWritten(ObjectsWritten(o, address, value, copy), address, value, copy) == ObjectsWritten(o, address, value, copy)
  {
    if address == 0x04 || address == 0x05 {
      NusizWriteIdempotent(o, address, value, copy);
    } else if 0x15 <= address <= 0x1A {
      AudioWriteIdempotent(o, address, value, copy);
    } else if 0x1B <= address <= 0x1F {
      GraphicsWriteIdempotent(o, address, value, copy);
    } else if address in {0x0B, 0x0C, 0x25, 0x26, 0x27} {
      FlagWriteIdempotent(o, address, value, copy);
    }
  }

  /** Writing the same value to a motion register twice is writing it once. */
  lemma MotionWriteIdempotent(m: Motion, address: int, value: DataByte)
    requires MotionWellFormed(m)
    ensures MotionWritten(MotionWritten(m, address, value), address, value) == MotionWritten(m, address, value)
  {
  }

  /** Writing the same value to CTRLPF or a PF register twice is writing it once. */
  lemma {:induction false} PlayfieldWriteIdempotent(p: Playfield, address: int, value: DataByte)
    ensures PlayfieldWritten(PlayfieldWritten(p, address, value), address, value) == PlayfieldWritten(p, address, value)
  {
    if address == 0x0D {
      Pf0Idempotent(p.playFieldRegister, value);
    } else if address == 0x0E {
      Pf1Idempotent(p.playFieldRegister, value);
    } else if address == 0x0F {
      Pf2Idempotent(p.playFieldRegister, value);
    }
  }

  /** Every register write is idempotent: writing the same value twice is writing it once. */
  lemma {:induction false} WriteIdempotent(regs: TiaRegs, address: int, value: DataByte, copy: TiaCopy)
    requires WellFormed(regs)
    ensures Written(Written(regs, address, value, copy), address, value, copy) == Written(regs, address, value, copy)
  {
    if IsObjectsAddress(address) {
      ObjectsWriteIdempotent(regs.objects, address, value, copy);
    } else if IsMotionAddress(address) {
      MotionWriteIdempotent(regs.motion, address, value);
    } else if address == 0x0A || 0x0D <= address <= 0x0F {
      PlayfieldWriteIdempotent(regs.playfield, address, value);
    }
  }

  // ------------------------------------------------------------ write sequences

  /** The field values after a sequence of `write_byte` calls, in order. */
  function WrittenAll(regs: TiaRegs, writes: seq<(int, DataByte)>, copy: TiaCopy): (r: TiaRegs)
    requires WellFormed(regs)
    ensures WellFormed(r)
    ensures r.colors.backgroundColor == regs.colors.backgroundColor
    ensures (forall i :: 0 <= i < |writes| ==> writes[i].0 != 0x2C) ==> r.latches == regs.latches
    decreases |writes|
  {
    if writes == [] then regs
    else WrittenAll(Written(regs, writes[0].0, writes[0].1, copy), writes[1..], copy)
  }

  /** The cleared latches read 0 at every address. */
  lemma ClearedLatchesReadZero(address: int)
    ensures ReadRegister(ClearedLatches, address) == 0
  {
    var m := ClearedLatches.missileCollisionLatches;
    var p := ClearedLatches.playerCollisionLatches;
    assert !m[0][0] && !m[0][1] && !m[0][2] && !m[0][3] && !m[0][4];
    assert !m[1][0] && !m[1][1] && !m[1][2] && !m[1][3];
    assert !p[0][0] && !p[0][1] && !p[0][2] && !p[1][0] && !p[1][1];
  }

  /** Once cleared, the latches stay cleared whatever is written: no write sets a latch. */
  lemma {:induction false} LatchesStayCleared(regs: TiaRegs, writes: seq<(int, DataByte)>, copy: TiaCopy)
    requires WellFormed(regs) && regs.latches == ClearedLatches
    ensures WrittenAll(regs, writes, copy).latches == ClearedLatches
    decreases |writes|
  {
    if writes != [] {
      LatchesStayCleared(Written(regs, writes[0].0, writes[0].1, copy), writes[1..], copy);
    }
  }

  /**
   * Collision detection does not exist, so nothing ever sets a latch: from power-on,
   * after any sequence of writes, every address reads 0, in either copy.
   */
  lemma ReadsStayZeroFromPowerOn(writes: seq<(int, DataByte)>, copy: TiaCopy, address: int)
    ensures ReadRegister(WrittenAll(PowerOn(), writes, copy).latches, address) == 0
  {
    LatchesStayCleared(PowerOn(), writes, copy);
    ClearedLatchesReadZero(address);
  }

  // ------------------------------------------------------------ the chip object

  /** A TIA object: its field groups are updated in place by `WriteByte`. */
  class Tia {
    var sync: Sync
    var playfield: Playfield
    var objects: Objects
    var motion: Motion
    var latches: Latches
    var colors: Colors
    /** Which of the two copies of the class this object is. */
    const copy: TiaCopy

    /** The current values of all fields. */
    function Snapshot(): TiaRegs
      reads this
    {
      TiaRegs(sync, playfield, objects, motion, latches, colors)
    }

    ghost predicate Valid()
      reads this
    {
      WellFormed(Snapshot())
    }

    constructor (copy: TiaCopy)
      ensures Valid() && Snapshot() == PowerOn() && this.copy == copy
    {
      sync := Sync(false, false, false);
      playfield := Playfield(0, false, false, false, 0);
      objects := Objects([0, 0], [0, 0], [0, 0], [false, false], false, [false, false], [false, false], false);
      motion := Motion([0, 0], [0, 0], 0);
      latches := ClearedLatches;
      colors := Colors([Color(0, 0), Color(0, 0)], Color(0, 0), Color(0, 0));
      this.copy := copy;
    }

    /** `read_byte`: the latches only are read, and bits 0..5 are always clear. */
    function ReadByte(address: int): (r: DataByte)
      reads this
      requires Valid()
      ensures r == ReadRegister(latches, address)
      ensures r & 0x3F == 0
    {
      ReadRegister(latches, address)
    }

    /** `write_nusiz`. */
    method WriteNusiz(ix: int, value: DataByte)
      requires Valid() && 0 <= ix < 2
      modifies this`objects
      ensures objects == WrittenNusiz(old(objects), ix, value)
    {
      objects := objects.(playerSizes := objects.playerSizes[ix := value & 0x07]);
      objects := objects.(missileSizes := objects.missileSizes[ix := (value >> 4) & 0x07]);
    }

    /** `write_ctrlpf`. */
    method WriteCtrlpf(value: DataByte)
      modifies this`playfield
      ensures playfield == WrittenCtrlpf(old(playfield), value)
    {
      playfield := playfield.(playFieldReflection := value & 0x01 == 0x01);
      playfield := playfield.(playFieldColor := value & 0x02 == 0x02);
      playfield := playfield.(playFieldBallPriority := value & 0x04 == 0x04);
      playfield := playfield.(ballSize := (value & 0x30) >> 4);
    }

    /**
     * `write_byte`. The new field values are those `Written` gives; `raised` reports
     * the write that throws (COLUBK), which stores nothing.
     */
    method WriteByte(address: int, value: DataByte) returns (raised: bool)
      requires Valid()
      modifies this
      ensures Valid()
      ensures raised <==> WriteRaises(address)
      ensures Snapshot() == Written(old(Snapshot()), address, value, copy)
    {
      raised := false;
      if IsObjectsAddress(address) {
        WriteObjects(address, value);
      } else if IsMotionAddress(address) {
        WriteMotion(address, value);
      } else {
        match address
        case 0x00 => sync := sync.(vsyncFlag := value & 0x02 != 0);
        case 0x01 => sync := sync.(vblankFlag := value & 0x02 != 0);
        case 0x02 => sync := sync.(sendingRdySignalToCpu := true);
        case 0x06 => colors := colors.(playerAndMissileColors := colors.playerAndMissileColors[0 := ColorOf(value)]);
        case 0x07 => colors := colors.(playerAndMissileColors := colors.playerAndMissileColors[1 := ColorOf(value)]);
        case 0x08 => colors := colors.(playFieldAndBallColor := ColorOf(value));
        case 0x09 => raised := true;
        case 0x0A => WriteCtrlpf(value);
        case 0x0D => playfield := playfield.(playFieldRegister := Pf0(playfield.playFieldRegister, value));
        case 0x0E => playfield := playfield.(playFieldRegister := Pf1(playfield.playFieldRegister, value));
        case 0x0F => playfield := playfield.(playFieldRegister := Pf2(playfield.playFieldRegister, value));
        case 0x2C => latches := ClearedLatches;
        case _ =>
      }
    }

    /** The `write_byte` cases that store into the object group. */
    method WriteObjects(address: int, value: DataByte)
      requires Valid() && IsObjectsAddress(address)
      modifies this`objects
      ensures objects == ObjectsWritten(old(objects), address, value, copy)
    {
      match address
      case 0x04 => WriteNusiz(0, value);
      case 0x05 => WriteNusiz(1, value);
      case 0x0B => objects := objects.(playerReflect := objects.playerReflect[0 := value & 0x08 != 0]);
      case 0x0C => objects := objects.(playerReflect := objects.playerReflect[1 := value & 0x08 != 0]);
      case 0x1B => objects := objects.(players := objects.players[0 := value]);
      case 0x1C => objects := objects.(players := objects.players[1 := value]);
      case 0x1D => objects := objects.(missilesEnabled := objects.missilesEnabled[0 := value & 0x02 != 0]);
      case 0x1E => objects := objects.(missilesEnabled := objects.missilesEnabled[1 := value & 0x02 != 0]);
      case 0x1F => objects := objects.(ballEnabled := value & 0x02 != 0);
      case 0x25 => objects := objects.(verticalDelayPlayer := objects.verticalDelayPlayer[0 := value & 0x01 != 0]);
      case 0x26 => objects := objects.(verticalDelayPlayer := objects.verticalDelayPlayer[1 := value & 0x01 != 0]);
      case 0x27 => objects := objects.(verticalDelayBall := value & 0x01 != 0);
      case _ =>
        // AUDC0..AUDV1: only logged in the module copy; the inline copy falls through into GRP0.
        if copy == InlineCopy {
          objects := objects.(players := objects.players[0 := value]);
        }
    }

    /** The `write_byte` cases that store into the motion group: HMP0..HMBL and HMCLR. */
    method WriteMotion(address: int, value: DataByte)
      requires Valid() && IsMotionAddress(address)
      modifies this`motion
      ensures motion == MotionWritten(old(motion), address, value)
    {
      match address
      case 0x20 => motion := motion.(horizontalMotionPlayer := motion.horizontalMotionPlayer[0 := Signed4HighBit(value)]);
      case 0x21 => motion := motion.(horizontalMotionPlayer := motion.horizontalMotionPlayer[1 := Signed4HighBit(value)]);
      case 0x22 => motion := motion.(horizontalMotionMissile := motion.horizontalMotionMissile[0 := Signed4HighBit(value)]);
      case 0x23 => motion := motion.(horizontalMotionMissile := motion.horizontalMotionMissile[1 := Signed4HighBit(value)]);
      case 0x24 => motion := motion.(horizontalMotionBall := Signed4HighBit(value));
      case _ =>
        motion := motion.(horizontalMotionPlayer := motion.horizontalMotionPlayer[0 := 0]);
        motion := motion.(horizontalMotionPlayer := motion.horizontalMotionPlayer[1 := 0]);
        motion := motion.(horizontalMotionMissile := motion.horizontalMotionMissile[0 := 0]);
        motion := motion.(horizontalMotionMissile := motion.horizontalMotionMissile[1 := 0]);
        motion := motion.(horizontalMotionBall := 0);
    }
  }
}
