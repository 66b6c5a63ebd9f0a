/*
 * The register accessors of the first library generation (lib/flink.c):
 * digital I/O, PWM, counter and analog input, each addressed by device
 * handle and subdevice index. Every accessor first checks the device and,
 * except where noted, that the index is below the table size.
 */
module LegacyIo {
  import opened FlinkLib
  import opened Errors
  import opened Registers
  import opened Legacy
  import Dio

  const BANK_CHANNELS := Dio.BANK_CHANNELS

  // ---------------------------------------------------------------------
  // Outcomes

  /** The call was refused before any system call, with code recorded in flink_errno. */
  twostate predicate Refused(dev: LegacyDevice?, err: ErrorState, code: int)
    reads FileOf(dev), err
  {
    err.flinkErrno == code && err.errno == old(err.errno) && (dev != null ==> dev.file.st == old(dev.file.st))
  }

  /**
   * An accessor read the 4-byte register at offset of subdevice id into
   * out. Every accessor reports a failure by calling libc_error, so after a
   * failed accessor flink_errno equals errno.
   */
  twostate predicate WordRead(dev: LegacyDevice, id: u8, offset: u32, out: array?<bv8>, io: Io, err: ErrorState, r: int)
    requires out != null ==> 4 <= out.Length
    requires io.xfer.ret <= 4
    reads dev.file, out, err
  {
    && (r == EXIT_SUCCESS || r == EXIT_ERROR)
    && (r == EXIT_SUCCESS <==> out != null && Reaches(dev, offset, io) && io.xfer.ret == 4)
    && dev.file.st == ReadFileState(old(dev.file.st), dev, id, offset, 4, out != null, io)
    && (out != null ==> out[..] == Filled(old(out[..]), old(dev.file.st.mem), dev, id, offset, io))
    && err.errno == TransferErrno(old(err.errno), dev, offset, out != null, io)
    && err.flinkErrno == if r == EXIT_SUCCESS then old(err.flinkErrno) else err.errno
  }

  /** An accessor wrote the register value data (4 bytes) at offset of subdevice id. */
  twostate predicate WordWritten(dev: LegacyDevice, id: u8, offset: u32, data: seq<bv8>, io: Io, err: ErrorState, r: int)
    requires |data| == 4 && io.xfer.ret <= 4
    reads dev.file, err
  {
    && (r == EXIT_SUCCESS || r == EXIT_ERROR)
    && (r == EXIT_SUCCESS <==> Reaches(dev, offset, io) && io.xfer.ret == 4)
    && dev.file.st == WriteFileState(old(dev.file.st), dev, id, offset, 4, Some(data), io)
    && err.errno == TransferErrno(old(err.errno), dev, offset, true, io)
    && err.flinkErrno == if r == EXIT_SUCCESS then old(err.flinkErrno) else err.errno
  }

  /** An accessor read bit of the register at offset of subdevice id into out[0]. */
  twostate predicate BitRead(dev: LegacyDevice, id: u8, offset: u32, bit: BitIndex, out: array?<u8>, io: BitIo,
                             err: ErrorState, r: int)
    requires out != null ==> 1 <= out.Length
    reads dev.file, out, err
  {
    && (r == EXIT_SUCCESS || r == EXIT_ERROR)
    && (r == EXIT_SUCCESS <==> out != null && BitReaches(dev, io) && io.op.ret >= 0)
    && dev.file.st == BitFileState(old(dev.file.st), dev, id, out != null, ReadSingleBit(offset, bit, 0), io)
    && (out != null ==>
          out[..] == if r == EXIT_SUCCESS
                     then old(out[..])[0 := BitValue(old(dev.file.st.mem), id, offset, bit)]
                     else old(out[..]))
    && err.errno == BitErrno(old(err.errno), dev, out != null, io)
    && err.flinkErrno == if r == EXIT_SUCCESS then old(err.flinkErrno) else err.errno
  }

  /** An accessor wrote value (nonzero sets) to bit of the register at offset of subdevice id. */
  twostate predicate BitWritten(dev: LegacyDevice, id: u8, offset: u32, bit: BitIndex, value: u8, io: BitIo,
                                err: ErrorState, r: int)
    reads dev.file, err
  {
    && (r == EXIT_SUCCESS || r == EXIT_ERROR)
    && (r == EXIT_SUCCESS <==> BitReaches(dev, io) && io.op.ret >= 0)
    && dev.file.st == BitFileState(old(dev.file.st), dev, id, true, WriteSingleBit(offset, bit, value), io)
    && err.errno == BitErrno(old(err.errno), dev, true, io)
    && err.flinkErrno == if r == EXIT_SUCCESS then old(err.flinkErrno) else err.errno
  }

  /** The subdevice index passes the range check of a valid device. */
  predicate Indexed(dev: LegacyDevice?, id: u8)
    reads dev
  {
    ValidDev(dev) && id < dev.nofSubdevices
  }

  /** The table entry of an index that passed the range check exists. */
  predicate HasEntry(dev: LegacyDevice?, id: u8)
    reads dev
  {
    Indexed(dev, id) ==> dev.subdevices != null && id < dev.subdevices.Length
  }

  // ---------------------------------------------------------------------
  // Register layout

  /** The first register after the headers: base clock, resolution, or the first bit bank. */
  const FIRST_REGISTER: u32 := HEADER_SIZE + SUBHEADER_SIZE

  /** The bit of its register that a GPIO channel owns. */
  function ChannelBit(channel: u32): (bit: BitIndex)
    ensures channel == BANK_CHANNELS * (channel / BANK_CHANNELS) + bit
  {
    channel % BANK_CHANNELS
  }

  /** The GPIO direction register as written: the register index is added unscaled. */
  function DirectionOffset(channel: u32): u32 {
    FIRST_REGISTER + channel / BANK_CHANNELS
  }

  /** The GPIO value register as written: register counts are added unscaled, plus 4 for a partial bank. */
  function ValueOffset(nofChannels: u32, channel: u32): u32 {
    var offset := FIRST_REGISTER + nofChannels / BANK_CHANNELS + channel / BANK_CHANNELS;
    if nofChannels % BANK_CHANNELS != 0 then offset + 4 else offset
  }

  /** The GPIO direction register with the register index scaled to bytes. */
  function DirectionOffsetFixed(channel: u32): u32 {
    FIRST_REGISTER + REGISTER_WITH * (channel / BANK_CHANNELS)
  }

  /** The GPIO value register with register counts scaled to bytes. */
  function ValueOffsetFixed(nofChannels: u32, channel: u32): u32 {
    var offset := FIRST_REGISTER + REGISTER_WITH * (nofChannels / BANK_CHANNELS) + REGISTER_WITH * (channel / BANK_CHANNELS);
    if nofChannels % BANK_CHANNELS != 0 then offset + 4 else offset
  }

  /** The PWM period register of a channel, in uint32_t arithmetic. */
  function PeriodOffset(channel: u32): u32 {
    U32(FIRST_REGISTER + PWM_FIRSTPWM_OFFSET + REGISTER_WITH * channel)
  }

  /** The PWM high-time register of a channel: the period bank is skipped. */
  function HightimeOffset(nofChannels: u32, channel: u32): u32 {
    U32(FIRST_REGISTER + PWM_FIRSTPWM_OFFSET + nofChannels * REGISTER_WITH + REGISTER_WITH * channel)
  }

  /** The counter register of a channel. */
  function CountOffset(channel: u32): u32 {
    U32(FIRST_REGISTER + REGISTER_WITH * channel)
  }

  /** The analog-input value register of a channel as written. */
  function AnalogValueOffset(channel: u32): u32 {
    U32(FIRST_REGISTER + REGISTER_WITH * channel)
  }

  /** The analog-input value register with the bank start ANALOG_INPUT_FIRST_VALUE_OFFSET applied. */
  function AnalogValueOffsetFixed(channel: u32): u32 {
    U32(FIRST_REGISTER + ANALOG_INPUT_FIRST_VALUE_OFFSET + REGISTER_WITH * channel)
  }

  // ---------------------------------------------------------------------
  // Properties of the layout

  /**
   * As written the GPIO offsets are not register offsets: with 32 channels
   * the value register of channel 0 starts one byte into the direction
   * register, and with 64 channels the direction register of channel 32
   * starts one byte after that of channel 0.
   */
  lemma GpioOffsetsOverlap()
    ensures DirectionOffset(0) == 32 && ValueOffset(32, 0) == 33
    ensures DirectionOffset(32) == 33 && ValueOffset(64, 0) == 34
    ensures DirectionOffset(0) < ValueOffset(32, 0) < DirectionOffset(0) + REGISTER_WITH
  {
  }

  /** Below 32 channels the written and the corrected GPIO offsets agree. */
  lemma GpioAgreeBelow32(n: u32, c: u32)
    requires c < n < BANK_CHANNELS
    ensures DirectionOffset(c) == DirectionOffsetFixed(c) == FIRST_REGISTER
    ensures ValueOffset(n, c) == ValueOffsetFixed(n, c) == FIRST_REGISTER + REGISTER_WITH
  {
  }

  /**
   * With the correction, the GPIO banks are whole registers: the direction
   * bank holds ceil(n/32) registers, the value bank follows it, channels
   * share a register exactly when they share its bank index, and no
   * direction register overlaps a value register.
   */
  lemma GpioFixedLayout(n: u32, c: u32, d: u32)
    requires c < n && d < n
    ensures DirectionOffsetFixed(c) % 4 == 0 && ValueOffsetFixed(n, c) % 4 == 0
    ensures ValueOffsetFixed(n, c) == DirectionOffsetFixed(c) + REGISTER_WITH * ((n + 31) / 32)
    ensures DirectionOffsetFixed(c) + REGISTER_WITH <= ValueOffsetFixed(n, d)
    ensures DirectionOffsetFixed(c) == DirectionOffsetFixed(d) <==> c / 32 == d / 32
  {
    BankIndexBelow(n, c);
    BankIndexBelow(n, d);
  }

  /** A channel below n lies in one of the ceil(n/32) banks. */
  lemma BankIndexBelow(n: nat, c: nat)
    requires c < n
    ensures (n + 31) / 32 == n / 32 + (if n % 32 != 0 then 1 else 0)
    ensures c / 32 < (n + 31) / 32
  {
    assert c / 32 <= (n - 1) / 32;
  }

  /**
   * The PWM high-time bank starts exactly 4n bytes after the period bank;
   * without wrap-around the two banks are disjoint.
   */
  lemma PwmBanks(n: u32, c: u32, d: u32)
    ensures HightimeOffset(n, c) == U32(PeriodOffset(c) + REGISTER_WITH * n)
    ensures FIRST_REGISTER + PWM_FIRSTPWM_OFFSET + 8 * n <= 0x1_0000_0000 && c < n && d < n ==>
      PeriodOffset(c) == 36 + 4 * c && HightimeOffset(n, c) == PeriodOffset(c) + 4 * n &&
      PeriodOffset(c) + REGISTER_WITH <= HightimeOffset(n, d)
  {
    U32Shift(FIRST_REGISTER + PWM_FIRSTPWM_OFFSET + REGISTER_WITH * c, REGISTER_WITH * n);
  }

  /** Reducing before or after adding a value gives the same uint32_t. */
  lemma U32Shift(x: int, y: int)
    requires x >= 0 && y >= 0
    ensures U32(U32(x) + y) == U32(x + y)
  {
    var q := x / 0x1_0000_0000;
    assert x == q * 0x1_0000_0000 + U32(x);
    assert x + y == q * 0x1_0000_0000 + (U32(x) + y);
  }

  /**
   * As written, channel 0 of an analog input reads the resolution register,
   * and channel c reads the register that channel c - 1 would have with the
   * bank start applied.
   */
  lemma AnalogValueClash(c: u32)
    requires FIRST_REGISTER + ANALOG_INPUT_FIRST_VALUE_OFFSET + REGISTER_WITH * c < 0x1_0000_0000
    ensures AnalogValueOffset(0) == FIRST_REGISTER
    ensures c >= 1 ==> AnalogValueOffset(c) == AnalogValueOffsetFixed(c - 1)
  {
  }

  /**
   * With the bank start applied and without wrap-around, no value register
   * overlaps the resolution register and different channels have disjoint
   * registers, 4 bytes apart.
   */
  lemma AnalogValueFixedLayout(c: u32, d: u32)
    requires FIRST_REGISTER + ANALOG_INPUT_FIRST_VALUE_OFFSET + REGISTER_WITH * c < 0x1_0000_0000
    requires FIRST_REGISTER + ANALOG_INPUT_FIRST_VALUE_OFFSET + REGISTER_WITH * d < 0x1_0000_0000
    ensures AnalogValueOffsetFixed(c) >= FIRST_REGISTER + REGISTER_WITH
    ensures AnalogValueOffsetFixed(c) == FIRST_REGISTER + ANALOG_INPUT_FIRST_VALUE_OFFSET + 4 * c
    ensures c != d ==> AnalogValueOffsetFixed(c) + 4 <= AnalogValueOffsetFixed(d) ||
                       AnalogValueOffsetFixed(d) + 4 <= AnalogValueOffsetFixed(c)
  {
  }

  /** A value set on a GPIO channel reads back at the same register and bit, normalised to 0 or 1. */
  lemma DioValueReadBack(s: FileState, dev: LegacyDevice, id: u8, n: u32, channel: u32, value: u8, io: BitIo)
    requires BitReaches(dev, io) && io.op.ret >= 0
    ensures var v: u8 := if value != 0 then 1 else 0;
      BitValue(BitFileState(s, dev, id, true, WriteSingleBit(ValueOffset(n, channel), ChannelBit(channel), v), io).mem,
               id, ValueOffset(n, channel), ChannelBit(channel)) == v
  {
    var v: u8 := if value != 0 then 1 else 0;
    BitWriteThenRead(s, dev, id, ValueOffset(n, channel), ChannelBit(channel), v, io);
  }

  // ---------------------------------------------------------------------
  // Digital I/O

  /** flink_dio_set_direction: write the output flag to the channel's direction bit. */
  method DioSetDirection(dev: LegacyDevice?, id: u8, channel: u32, output: u8, io: BitIo, err: ErrorState)
    returns (r: int)
    modifies FileOf(dev), err
    ensures !ValidDev(dev) ==> r == EXIT_ERROR && Refused(dev, err, FLINK_EINVALDEV)
    ensures ValidDev(dev) && !Indexed(dev, id) ==> r == EXIT_ERROR && Refused(dev, err, FLINK_EINVALSUBDEV)
    ensures Indexed(dev, id) ==> BitWritten(dev, id, DirectionOffset(channel), ChannelBit(channel), output, io, err, r)
  {
    if !ValidDev(dev) {
      err.FlinkError(FLINK_EINVALDEV);
      return EXIT_ERROR;
    }
    if id >= dev.nofSubdevices {
      err.FlinkError(FLINK_EINVALSUBDEV);
      return EXIT_ERROR;
    }
    var w := FlinkWriteBit(dev, id, DirectionOffset(channel), ChannelBit(channel), Some(output), io, err);
    if w != 0 {
      err.LibcError();
      return EXIT_ERROR;
    }
    return EXIT_SUCCESS;
  }

  /** flink_dio_set_value: write 1 for any nonzero value, else 0, to the channel's value bit. */
  method DioSetValue(dev: LegacyDevice?, id: u8, channel: u32, value: u8, io: BitIo, err: ErrorState)
    returns (r: int)
    requires HasEntry(dev, id)
    modifies FileOf(dev), err
    ensures !ValidDev(dev) ==> r == EXIT_ERROR && Refused(dev, err, FLINK_EINVALDEV)
    ensures ValidDev(dev) && !Indexed(dev, id) ==> r == EXIT_ERROR && Refused(dev, err, FLINK_EINVALSUBDEV)
    ensures Indexed(dev, id) ==>
      BitWritten(dev, id, ValueOffset(dev.subdevices[id].nofChannels, channel), ChannelBit(channel),
                 if value != 0 then 1 else 0, io, err, r)
  {
    var val: u8 := if value != 0 then 1 else 0;
    if !ValidDev(dev) {
      err.FlinkError(FLINK_EINVALDEV);
      return EXIT_ERROR;
    }
    if id >= dev.nofSubdevices {
      err.FlinkError(FLINK_EINVALSUBDEV);
      return EXIT_ERROR;
    }
    var offset := ValueOffset(dev.subdevices[id].nofChannels, channel);
    var w := FlinkWriteBit(dev, id, offset, ChannelBit(channel), Some(val), io, err);
    if w != 0 {
      err.LibcError();
      return EXIT_ERROR;
    }
    return EXIT_SUCCESS;
  }

  /** flink_dio_get_value: read the channel's value bit into value[0]. */
  method DioGetValue(dev: LegacyDevice?, id: u8, channel: u32, value: array?<u8>, io: BitIo, err: ErrorState)
    returns (r: int)
    requires HasEntry(dev, id)
    requires value != null ==> 1 <= value.Length
    modifies value, FileOf(dev), err
    ensures !ValidDev(dev) ==> r == EXIT_ERROR && Refused(dev, err, FLINK_EINVALDEV) && (value != null ==> unchanged(value))
    ensures ValidDev(dev) && !Indexed(dev, id) ==>
      r == EXIT_ERROR && Refused(dev, err, FLINK_EINVALSUBDEV) && (value != null ==> unchanged(value))
    ensures Indexed(dev, id) ==>
      BitRead(dev, id, ValueOffset(dev.subdevices[id].nofChannels, channel), ChannelBit(channel), value, io, err, r)
  {
    if !ValidDev(dev) {
      err.FlinkError(FLINK_EINVALDEV);
      return EXIT_ERROR;
    }
    if id >= dev.nofSubdevices {
      err.FlinkError(FLINK_EINVALSUBDEV);
      return EXIT_ERROR;
    }
    var offset := ValueOffset(dev.subdevices[id].nofChannels, channel);
    var g := FlinkReadBit(dev, id, offset, ChannelBit(channel), value, io, err);
    if g != 0 {
      err.LibcError();
      return EXIT_ERROR;
    }
    return EXIT_SUCCESS;
  }

  // ---------------------------------------------------------------------
  // PWM

  /** flink_pwm_get_baseclock: read the base-clock register. The index is not range-checked. */
  method PwmGetBaseclock(dev: LegacyDevice?, id: u8, frequency: array?<bv8>, io: Io, err: ErrorState)
    returns (r: int)
    requires frequency != null ==> 4 <= frequency.Length
    requires -1 <= io.xfer.ret <= 4
    modifies frequency, FileOf(dev), err
    ensures !ValidDev(dev) ==>
      r == EXIT_ERROR && Refused(dev, err, FLINK_EINVALDEV) && (frequency != null ==> unchanged(frequency))
    ensures ValidDev(dev) ==> WordRead(dev, id, FIRST_REGISTER, frequency, io, err, r)
  {
    if !ValidDev(dev) {
      err.FlinkError(FLINK_EINVALDEV);
      return EXIT_ERROR;
    }
    var n := FlinkRead(dev, id, FIRST_REGISTER, REGISTER_WITH, frequency, io, err);
    if n != REGISTER_WITH {
      err.LibcError();
      return EXIT_ERROR;
    }
    return EXIT_SUCCESS;
  }

  /** flink_pwm_set_period: write the period register of a channel. The index is not range-checked. */
  method PwmSetPeriod(dev: LegacyDevice?, id: u8, channel: u32, period: bv32, io: Io, err: ErrorState)
    returns (r: int)
    requires -1 <= io.xfer.ret <= 4
    modifies FileOf(dev), err
    ensures !ValidDev(dev) ==> r == EXIT_ERROR && Refused(dev, err, FLINK_EINVALDEV)
    ensures ValidDev(dev) ==> WordWritten(dev, id, PeriodOffset(channel), WordBytes(period), io, err, r)
  {
    if !ValidDev(dev) {
      err.FlinkError(FLINK_EINVALDEV);
      return EXIT_ERROR;
    }
    var n := FlinkWrite(dev, id, PeriodOffset(channel), REGISTER_WITH, Some(WordBytes(period)), io, err);
    if n != REGISTER_WITH {
      err.LibcError();
      return EXIT_ERROR;
    }
    return EXIT_SUCCESS;
  }

  /** flink_pwm_set_hightime: write the high-time register of a channel. */
  method PwmSetHightime(dev: LegacyDevice?, id: u8, channel: u32, hightime: bv32, io: Io, err: ErrorState)
    returns (r: int)
    requires HasEntry(dev, id)
    requires -1 <= io.xfer.ret <= 4
    modifies FileOf(dev), err
    ensures !ValidDev(dev) ==> r == EXIT_ERROR && Refused(dev, err, FLINK_EINVALDEV)
    ensures ValidDev(dev) && !Indexed(dev, id) ==> r == EXIT_ERROR && Refused(dev, err, FLINK_EINVALSUBDEV)
    ensures Indexed(dev, id) ==>
      WordWritten(dev, id, HightimeOffset(dev.subdevices[id].nofChannels, channel), WordBytes(hightime), io, err, r)
  {
    if !ValidDev(dev) {
      err.FlinkError(FLINK_EINVALDEV);
      return EXIT_ERROR;
    }
    if id >= dev.nofSubdevices {
      err.FlinkError(FLINK_EINVALSUBDEV);
      return EXIT_ERROR;
    }
    var offset := HightimeOffset(dev.subdevices[id].nofChannels, channel);
    var n := FlinkWrite(dev, id, offset, REGISTER_WITH, Some(WordBytes(hightime)), io, err);
    if n != REGISTER_WITH {
      err.LibcError();
      return EXIT_ERROR;
    }
    return EXIT_SUCCESS;
  }

  // ---------------------------------------------------------------------
  // Counter

  /** flink_counter_set_mode: not implemented; it fails without touching anything. */
  method CounterSetMode(dev: LegacyDevice?, id: u8, mode: u8) returns (r: int)
    ensures r == EXIT_ERROR
  {
    return EXIT_ERROR;
  }

  /** flink_counter_get_count: read the counter register of a channel. */
  method CounterGetCount(dev: LegacyDevice?, id: u8, channel: u32, data: array?<bv8>, io: Io, err: ErrorState)
    returns (r: int)
    requires data != null ==> 4 <= data.Length
    requires -1 <= io.xfer.ret <= 4
    modifies data, FileOf(dev), err
    ensures !ValidDev(dev) ==> r == EXIT_ERROR && Refused(dev, err, FLINK_EINVALDEV) && (data != null ==> unchanged(data))
    ensures ValidDev(dev) && !Indexed(dev, id) ==>
      r == EXIT_ERROR && Refused(dev, err, FLINK_EINVALSUBDEV) && (data != null ==> unchanged(data))
    ensures Indexed(dev, id) ==> WordRead(dev, id, CountOffset(channel), data, io, err, r)
  {
    if !ValidDev(dev) {
      err.FlinkError(FLINK_EINVALDEV);
      return EXIT_ERROR;
    }
    if id >= dev.nofSubdevices {
      err.FlinkError(FLINK_EINVALSUBDEV);
      return EXIT_ERROR;
    }
    var n := FlinkRead(dev, id, CountOffset(channel), REGISTER_WITH, data, io, err);
    if n != REGISTER_WITH {
      err.LibcError();
      return EXIT_ERROR;
    }
    return EXIT_SUCCESS;
  }

  // ---------------------------------------------------------------------
  // Analog input

  /** flink_analog_in_get_resolution: read the resolution register. */
  method AnalogInGetResolution(dev: LegacyDevice?, id: u8, resolution: array?<bv8>, io: Io, err: ErrorState)
    returns (r: int)
    requires resolution != null ==> 4 <= resolution.Length
    requires -1 <= io.xfer.ret <= 4
    modifies resolution, FileOf(dev), err
    ensures !ValidDev(dev) ==>
      r == EXIT_ERROR && Refused(dev, err, FLINK_EINVALDEV) && (resolution != null ==> unchanged(resolution))
    ensures ValidDev(dev) && !Indexed(dev, id) ==>
      r == EXIT_ERROR && Refused(dev, err, FLINK_EINVALSUBDEV) && (resolution != null ==> unchanged(resolution))
    ensures Indexed(dev, id) ==> WordRead(dev, id, FIRST_REGISTER, resolution, io, err, r)
  {
    if !ValidDev(dev) {
      err.FlinkError(FLINK_EINVALDEV);
      return EXIT_ERROR;
    }
    if id >= dev.nofSubdevices {
      err.FlinkError(FLINK_EINVALSUBDEV);
      return EXIT_ERROR;
    }
    var n := FlinkRead(dev, id, FIRST_REGISTER, REGISTER_WITH, resolution, io, err);
    if n != REGISTER_WITH {
      err.LibcError();
      return EXIT_ERROR;
    }
    return EXIT_SUCCESS;
  }

  /** flink_analog_in_get_value: read the value register of a channel, as the source computes it. */
  method AnalogInGetValue(dev: LegacyDevice?, id: u8, channel: u32, value: array?<bv8>, io: Io, err: ErrorState)
    returns (r: int)
    requires value != null ==> 4 <= value.Length
    requires -1 <= io.xfer.ret <= 4
    modifies value, FileOf(dev), err
    ensures !ValidDev(dev) ==> r == EXIT_ERROR && Refused(dev, err, FLINK_EINVALDEV) && (value != null ==> unchanged(value))
    ensures ValidDev(dev) && !Indexed(dev, id) ==>
      r == EXIT_ERROR && Refused(dev, err, FLINK_EINVALSUBDEV) && (value != null ==> unchanged(value))
    ensures Indexed(dev, id) ==> WordRead(dev, id, AnalogValueOffset(channel), value, io, err, r)
  {
    if !ValidDev(dev) {
      err.FlinkError(FLINK_EINVALDEV);
      return EXIT_ERROR;
    }
    if id >= dev.nofSubdevices {
      err.FlinkError(FLINK_EINVALSUBDEV);
      return EXIT_ERROR;
    }
    var n := FlinkRead(dev, id, AnalogValueOffset(channel), REGISTER_WITH, value, io, err);
    if n != REGISTER_WITH {
      err.LibcError();
      return EXIT_ERROR;
    }
    return EXIT_SUCCESS;
  }

  // ---------------------------------------------------------------------
  // Subdevice reset

  /** flink_subdevice_reset: set the reset bit of the configuration register of subdevice id. */
  method SubdeviceReset(dev: LegacyDevice?, id: u8, io: BitIo, err: ErrorState) returns (r: int)
    modifies FileOf(dev), err
    ensures !ValidDev(dev) ==> r == EXIT_ERROR && Refused(dev, err, FLINK_EINVALDEV)
    ensures ValidDev(dev) && !Indexed(dev, id) ==> r == EXIT_ERROR && Refused(dev, err, FLINK_EINVALSUBDEV)
    ensures Indexed(dev, id) ==> BitWritten(dev, id, CONFIG_OFFSET, RESET_BIT, 1, io, err, r)
  {
    if !ValidDev(dev) {
      err.FlinkError(FLINK_EINVALDEV);
      return EXIT_ERROR;
    }
    if id >= dev.nofSubdevices {
      err.FlinkError(FLINK_EINVALSUBDEV);
      return EXIT_ERROR;
    }
    var w := FlinkWriteBit(dev, id, CONFIG_OFFSET, RESET_BIT, Some(1), io, err);
    if w != 0 {
      err.LibcError();
      return EXIT_ERROR;
    }
    return EXIT_SUCCESS;
  }
}
