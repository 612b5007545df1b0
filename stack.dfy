/**
 * The hardware stack on page 1 as a value: the memory and the stack pointer.
 * A push stores at `0x0100 | SP` and then moves SP down by one with wrap-around;
 * a pull moves SP up by one and then loads from `0x0100 | SP`. The lemmas show
 * that a pull undoes a push, and that the frames pushed by interrupt entry and
 * by JSR are taken back apart by RTI and RTS.
 */
module Stack {
  import opened CpuRegisters
  import opened Addressing

  datatype StackState = StackState(mem: map<u16, u8>, pointer: u8)

  datatype Pulled = Pulled(stack: StackState, value: u8)

  /** Every address holds a byte. */
  predicate Total(mem: map<u16, u8>) {
    forall a: u16 :: a in mem
  }

  /** Store at `0x0100 | SP`, then SP moves down by one with wrap-around; nothing else changes. */
  function Push(s: StackState, value: u8): (r: StackState)
    ensures r.mem.Keys == s.mem.Keys + {StackAddress(s.pointer)}
    ensures r.mem[StackAddress(s.pointer)] == value
    ensures forall a :: a in s.mem && a != StackAddress(s.pointer) ==> r.mem[a] == s.mem[a]
    ensures r.pointer == (s.pointer + 0xFF) % 0x100
  {
    StackState(s.mem[StackAddress(s.pointer) := value], WrappingDecrement(s.pointer))
  }

  /** SP moves up by one with wrap-around, then the byte at `0x0100 | SP` is read; memory is unchanged. */
  function Pull(s: StackState): (r: Pulled)
    requires StackAddress(WrappingIncrement(s.pointer)) in s.mem
    ensures r.stack.mem == s.mem
    ensures r.stack.pointer == (s.pointer + 1) % 0x100
    ensures r.value == s.mem[0x100 + r.stack.pointer]
  {
    var pointer := WrappingIncrement(s.pointer);
    Pulled(s.(pointer := pointer), s.mem[StackAddress(pointer)])
  }

  /** A push writes only page 1: every address outside 0x0100..0x01FF keeps its byte. */
  lemma PushStaysOnPageOne(s: StackState, value: u8, a: u16)
    requires a in s.mem && (a < 0x100 || a > 0x1FF)
    ensures a in Push(s, value).mem && Push(s, value).mem[a] == s.mem[a]
  {
  }

  /** A pull returns the byte just pushed and restores SP; only the pushed slot changed. */
  lemma PullUndoesPush(s: StackState, value: u8)
    requires Total(s.mem)
    ensures Total(Push(s, value).mem)
    ensures Pull(Push(s, value)).value == value
    ensures Pull(Push(s, value)).stack.pointer == s.pointer
    ensures Pull(Push(s, value)).stack.mem == s.mem[StackAddress(s.pointer) := value]
  {
  }

  /** Two pushes in a row use two different slots. */
  lemma PointerSteps(p: u8)
    ensures StackAddress(p) != StackAddress(WrappingDecrement(p))
    ensures StackAddress(p) != StackAddress(WrappingDecrement(WrappingDecrement(p)))
  {
  }

  /** Two pulls give back two pushed bytes in the opposite order and restore SP. */
  lemma {:induction false} PullsUndoTwoPushes(s: StackState, first: u8, second: u8)
    requires Total(s.mem)
    ensures var pushed := Push(Push(s, first), second);
      var pull1 := Pull(pushed);
      var pull2 := Pull(pull1.stack);
      && pull1.value == second && pull2.value == first
      && pull2.stack.pointer == s.pointer
  {
    var s1 := Push(s, first);
    var s2 := Push(s1, second);
    PointerSteps(s.pointer);
    assert s2.mem[StackAddress(s1.pointer)] == second;
    assert s2.mem[StackAddress(s.pointer)] == first;
  }

  /** Three pulls give back three pushed bytes in the opposite order and restore SP. */
  lemma {:induction false} PullsUndoThreePushes(s: StackState, first: u8, second: u8, third: u8)
    requires Total(s.mem)
    ensures var pushed := Push(Push(Push(s, first), second), third);
      var pull1 := Pull(pushed);
      var pull2 := Pull(pull1.stack);
      var pull3 := Pull(pull2.stack);
      && pull1.value == third && pull2.value == second && pull3.value == first
      && pull3.stack.pointer == s.pointer
  {
    var s1 := Push(s, first);
    var s2 := Push(s1, second);
    var s3 := Push(s2, third);
    PointerSteps(s.pointer);
    PointerSteps(s1.pointer);
    assert s3.mem[StackAddress(s2.pointer)] == third;
    assert s3.mem[StackAddress(s1.pointer)] == second;
    assert s3.mem[StackAddress(s.pointer)] == first;
  }

  /**
   * Interrupt entry pushes PCH, PCL and the status byte; RTI pulls the status byte,
   * PCL and PCH. Afterwards SP is back where it was, PC is the interrupted PC, and the
   * status register holds every flag but bits 4 and 5, which are clear.
   */
  lemma {:induction false} InterruptFrameRoundTrip(s: StackState, pc: u16, status: bv8, isBrk: bool)
    requires Total(s.mem)
    ensures
      var pushed := Push(Push(Push(s, HighByte(pc)), LowByte(pc)), PushedStatus(isBrk, status) as int);
      var statusPull := Pull(pushed);
      var pclPull := Pull(statusPull.stack);
      var pchPull := Pull(pclPull.stack);
      && RestoredStatus(statusPull.value as bv8) == status & 0xCF
      && Address(pclPull.value, pchPull.value) == pc
      && pchPull.stack.pointer == s.pointer
  {
    var pushedStatus := PushedStatus(isBrk, status);
    PullsUndoThreePushes(s, HighByte(pc), LowByte(pc), pushedStatus as int);
    assert (pushedStatus as int) as bv8 == pushedStatus;
    StatusRoundTrip(isBrk, status);
    AddressRoundTrip(0, 0, pc);
  }

  /**
   * JSR pushes the high and then the low byte of PC minus one; RTS pulls them in the
   * other order and adds one. The result is the PC JSR started from, with SP restored.
   */
  lemma {:induction false} SubroutineFrameRoundTrip(s: StackState, pc: u16)
    requires Total(s.mem)
    ensures
      var returnAddress := PreviousAddress(pc);
      var pushed := Push(Push(s, HighByte(returnAddress)), LowByte(returnAddress));
      var pclPull := Pull(pushed);
      var pchPull := Pull(pclPull.stack);
      && NextAddress(Address(pclPull.value, pchPull.value)) == pc
      && pchPull.stack.pointer == s.pointer
  {
    var returnAddress := PreviousAddress(pc);
    PullsUndoTwoPushes(s, HighByte(returnAddress), LowByte(returnAddress));
    AddressRoundTrip(0, 0, returnAddress);
    NextUndoesPrevious(pc);
  }
}
