/**
 * The device as the driver sees it through its bus interface: the seven
 * time-keeping registers, single-register reads and writes, and burst
 * transfers whose buffer starts with the first register's address. Any
 * transfer may fail with a bus error; a failed transfer is taken to leave
 * the registers as they were. Every transfer the driver starts is recorded
 * with its outcome, so that a contract can say which transfers it makes and
 * how its result follows from theirs.
 */
module Interface {
  import opened Base

  /** One bus transfer: a single register, or a burst of `count` registers
      from `start` on; `ok` tells whether it succeeded. */
  datatype Transfer =
    | ReadReg(address: u8, ok: bool)
    | WriteReg(address: u8, ok: bool)
    | ReadBurst(start: u8, count: nat, ok: bool)
    | WriteBurst(start: u8, count: nat, ok: bool)

  class Device {
    /** Registers RTCSEC..RTCYEAR of the chip. */
    const regs: array<u8>
    /** The transfers issued so far, oldest first, with their outcomes. */
    ghost var log: seq<Transfer>

    ghost predicate Valid() {
      regs.Length == BLOCK_LEN
    }

    constructor (initial: seq<u8>)
      requires |initial| == BLOCK_LEN
      ensures Valid() && fresh(regs)
      ensures regs[..] == initial && log == []
    {
      regs := new u8[BLOCK_LEN](i requires 0 <= i < BLOCK_LEN => initial[i]);
      log := [];
    }

    /** `read_register`: one register, or a bus error. */
    method ReadRegister(address: u8) returns (r: Result<u8>)
      requires Valid() && (address as int) < BLOCK_LEN
      modifies this
      ensures log == old(log) + [ReadReg(address, r.Ok?)]
      ensures r.Ok? ==> r.value == regs[address]
      ensures r.Err? ==> r.error == Comm
    {
      var ok: bool := *;
      log := log + [ReadReg(address, ok)];
      if !ok {
        return Err(Comm);
      }
      r := Ok(regs[address]);
    }

    /** `write_register`: one register, or a bus error. */
    method WriteRegister(address: u8, value: u8) returns (r: Result<()>)
      requires Valid() && (address as int) < BLOCK_LEN
      modifies this, regs
      ensures log == old(log) + [WriteReg(address, r.Ok?)]
      ensures r.Ok? ==> regs[..] == old(regs[..])[address as int := value]
      ensures r.Err? ==> r.error == Comm && regs[..] == old(regs[..])
    {
      var ok: bool := *;
      log := log + [WriteReg(address, ok)];
      if !ok {
        return Err(Comm);
      }
      regs[address] := value;
      r := Ok(());
    }

    /** `read_data`: `buffer[0]` names the first register; on success
        `buffer[1..]` holds that register and the ones after it. */
    method ReadData(buffer: array<u8>) returns (r: Result<()>)
      requires Valid() && buffer != regs && buffer.Length >= 1
      requires buffer[0] as int + buffer.Length - 1 <= BLOCK_LEN
      modifies this, buffer
      ensures log == old(log) + [ReadBurst(old(buffer[0]), buffer.Length - 1, r.Ok?)]
      ensures r.Ok? ==> buffer[0] == old(buffer[0])
      ensures r.Ok? ==> buffer[1..] == regs[old(buffer[0]) as int .. old(buffer[0]) as int + buffer.Length - 1]
      ensures r.Err? ==> r.error == Comm
    {
      var ok: bool := *;
      log := log + [ReadBurst(buffer[0], buffer.Length - 1, ok)];
      if !ok {
        return Err(Comm);
      }
      var start := buffer[0] as int;
      forall i | 1 <= i < buffer.Length {
        buffer[i] := regs[start + i - 1];
      }
      assert forall k :: 0 <= k < buffer.Length - 1 ==> buffer[1..][k] == regs[start + k];
      r := Ok(());
    }

    /** `write_data`: `buffer[0]` names the first register; on success the
        values `buffer[1..]` replace that register and the ones after it. */
    method WriteData(buffer: array<u8>) returns (r: Result<()>)
      requires Valid() && buffer != regs && buffer.Length >= 1
      requires buffer[0] as int + buffer.Length - 1 <= BLOCK_LEN
      modifies this, regs
      ensures log == old(log) + [WriteBurst(buffer[0], buffer.Length - 1, r.Ok?)]
      ensures r.Ok? ==> regs[..] == old(regs[..buffer[0]]) + buffer[1..] + old(regs[buffer[0] as int + buffer.Length - 1..])
      ensures r.Err? ==> r.error == Comm && regs[..] == old(regs[..])
    {
      var ok: bool := *;
      log := log + [WriteBurst(buffer[0], buffer.Length - 1, ok)];
      if !ok {
        return Err(Comm);
      }
      var start := buffer[0] as int;
      forall i | start <= i < start + buffer.Length - 1 {
        regs[i] := buffer[i - start + 1];
      }
      r := Ok(());
    }
  }
}
