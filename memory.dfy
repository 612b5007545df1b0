/**
 * The host `Device` as the CPU core sees it: a 64 KiB byte-addressed memory.
 * Every access is also recorded in a trace, so that the dummy reads of the 6502's
 * addressing modes and the interrupt polls are observable.
 */
module Memory {
  import opened CpuRegisters

  datatype Access =
    | ReadAccess(address: u16)
    | WriteAccess(address: u16, value: u8)
    | PollAccess(clearLines: bool)

  class Device {
    var mem: map<u16, u8>
    var trace: seq<Access>

    /** Every one of the 65536 addresses holds a byte. */
    ghost predicate Valid()
      reads this
    {
      forall a: u16 :: a in mem
    }

    constructor (contents: map<u16, u8>)
      requires forall a: u16 :: a in contents
      ensures Valid() && mem == contents && trace == []
    {
      mem := contents;
      trace := [];
    }

    /** `read_byte`: the byte at the address; memory is unchanged, the read is traced. */
    method ReadByte(address: u16) returns (value: u8)
      requires Valid()
      modifies this`trace
      ensures value == mem[address]
      ensures trace == old(trace) + [ReadAccess(address)]
    {
      value := mem[address];
      trace := trace + [ReadAccess(address)];
    }

    /** `write_byte`: store the byte at the address, nothing else changes. */
    method WriteByte(address: u16, value: u8)
      requires Valid()
      modifies this
      ensures Valid()
      ensures mem == old(mem)[address := value]
      ensures trace == old(trace) + [WriteAccess(address, value)]
    {
      mem := mem[address := value];
      trace := trace + [WriteAccess(address, value)];
    }

    /** `poll_for_interrupts`: the host's answer is not used by the core, so only the call is recorded. */
    method PollForInterrupts(clearLines: bool)
      modifies this`trace
      ensures trace == old(trace) + [PollAccess(clearLines)]
    {
      trace := trace + [PollAccess(clearLines)];
    }
  }
}
