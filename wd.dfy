/*
 * Watchdog subdevices (lib/wd.c): base clock, a status/control register
 * (bit 0 reports the state, bit 1 arms the watchdog) and the counter.
 */
module Watchdog {
  import opened FlinkLib
  import opened Errors
  import opened Registers
  import opened Types
  import opened Valid
  import opened LowLevel

  const BASECLOCK_OFFSET: u32 := HEADER_SIZE + SUBHEADER_SIZE
  const STATUS_REG_OFFSET: u32 := HEADER_SIZE + SUBHEADER_SIZE + REGISTER_WITH
  const COUNTER_OFFSET: u32 := HEADER_SIZE + SUBHEADER_SIZE + 2 * REGISTER_WITH
  const STATUS_BIT: BitIndex := 0
  const ARM_BIT: BitIndex := 1

  /**
   * Arming and reading the status touch different bits of one register,
   * and neither overlaps the counter or base-clock register.
   */
  lemma RegisterMap()
    ensures STATUS_REG_OFFSET == 36 && COUNTER_OFFSET == 40 && BASECLOCK_OFFSET == 32
    ensures STATUS_BIT != ARM_BIT
    ensures BASECLOCK_OFFSET + 4 <= STATUS_REG_OFFSET && STATUS_REG_OFFSET + 4 <= COUNTER_OFFSET
  {
  }

  /** flink_wd_get_baseclock. */
  method GetBaseclock(sub: Subdevice, baseClk: array?<bv8>, io: Io, err: ErrorState) returns (r: int)
    requires baseClk != null ==> 4 <= baseClk.Length
    requires -1 <= io.xfer.ret <= 4
    modifies baseClk, FileOf(sub.parent), err
    ensures WordRead(sub, BASECLOCK_OFFSET, baseClk, io, err, r)
  {
    var n := FlinkRead(sub, BASECLOCK_OFFSET, REGISTER_WITH, baseClk, io, err);
    if n != REGISTER_WITH {
      err.LibcError();
      return EXIT_ERROR;
    }
    return EXIT_SUCCESS;
  }

  /**
   * flink_wd_get_status as written: it passes the address of its own
   * pointer parameter to flink_read_bit, so the bit lands in that local
   * and the caller's status byte is never written. For the same reason a
   * null status pointer is not reported.
   */
  method GetStatus(sub: Subdevice, status: array?<u8>, io: BitIo, err: ErrorState) returns (r: int)
    modifies FileOf(sub.parent), err
    ensures r == EXIT_SUCCESS <==> BitReaches(sub, io) && io.op.ret >= 0
    ensures sub.parent != null ==>
      sub.parent.file.st == BitFileState(old(sub.parent.file.st), sub, true, ReadSingleBit(STATUS_REG_OFFSET, STATUS_BIT, 0), io)
    ensures status != null ==> status[..] == old(status[..])
    ensures err.errno == BitErrno(old(err.errno), sub, true, io)
    ensures err.flinkErrno == if r == EXIT_SUCCESS then old(err.flinkErrno) else err.errno
  {
    var local := new u8[1];
    var b := FlinkReadBit(sub, STATUS_REG_OFFSET, STATUS_BIT, local, io, err);
    if b != 0 {
      err.LibcError();
      return EXIT_ERROR;
    }
    return EXIT_SUCCESS;
  }

  /** flink_wd_get_status as evidently intended: the status bit is stored in the caller's byte. */
  method GetStatusFixed(sub: Subdevice, status: array?<u8>, io: BitIo, err: ErrorState) returns (r: int)
    requires status != null ==> 1 <= status.Length
    modifies status, FileOf(sub.parent), err
    ensures BitRead(sub, STATUS_REG_OFFSET, STATUS_BIT, status, io, err, r)
  {
    var b := FlinkReadBit(sub, STATUS_REG_OFFSET, STATUS_BIT, status, io, err);
    if b != 0 {
      err.LibcError();
      return EXIT_ERROR;
    }
    return EXIT_SUCCESS;
  }

  /** flink_wd_set_counter: load the watchdog counter. */
  method SetCounter(sub: Subdevice, counter: bv32, io: Io, err: ErrorState) returns (r: int)
    requires -1 <= io.xfer.ret <= 4
    modifies FileOf(sub.parent), err
    ensures WordWritten(sub, COUNTER_OFFSET, WordBytes(counter), io, err, r)
  {
    var n := FlinkWrite(sub, COUNTER_OFFSET, REGISTER_WITH, Some(WordBytes(counter)), io, err);
    if n != REGISTER_WITH {
      err.LibcError();
      return EXIT_ERROR;
    }
    return EXIT_SUCCESS;
  }

  /** flink_wd_arm: set the arm bit. */
  method Arm(sub: Subdevice, io: BitIo, err: ErrorState) returns (r: int)
    modifies FileOf(sub.parent), err
    ensures BitWritten(sub, STATUS_REG_OFFSET, ARM_BIT, 1, io, err, r)
  {
    var w := FlinkWriteBit(sub, STATUS_REG_OFFSET, ARM_BIT, 1, io, err);
    if w != 0 {
      err.LibcError();
      return EXIT_ERROR;
    }
    return EXIT_SUCCESS;
  }
}
