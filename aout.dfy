/*
 * Analog-output subdevices (lib/aout.c): a resolution register and one
 * value register per channel.
 */
module AnalogOut {
  import opened FlinkLib
  import opened Errors
  import opened Registers
  import opened Types
  import opened LowLevel

  const RESOLUTION_OFFSET: u32 := HEADER_SIZE + SUBHEADER_SIZE

  /** Start of the value bank. */
  const VALUE_BASE := HEADER_SIZE + SUBHEADER_SIZE + ANALOG_OUTPUT_FIRST_VALUE_OFFSET

  /** The output value register of a channel. */
  function ValueOffset(channel: u32): u32 {
    U32(VALUE_BASE + channel * REGISTER_WITH)
  }

  /** Without wrap-around, output registers are consecutive, distinct per channel. */
  lemma ValuesConsecutive(c: u32, d: u32)
    requires VALUE_BASE + 4 * c + 4 <= 0x1_0000_0000 && VALUE_BASE + 4 * d + 4 <= 0x1_0000_0000
    ensures ValueOffset(c) == VALUE_BASE + 4 * c
    ensures c != d ==> ValueOffset(c) + 4 <= ValueOffset(d) || ValueOffset(d) + 4 <= ValueOffset(c)
  {
  }

  /** flink_analog_out_get_resolution. */
  method GetResolution(sub: Subdevice, resolution: array?<bv8>, io: Io, err: ErrorState) returns (r: int)
    requires resolution != null ==> 4 <= resolution.Length
    requires -1 <= io.xfer.ret <= 4
    modifies resolution, FileOf(sub.parent), err
    ensures WordRead(sub, RESOLUTION_OFFSET, resolution, io, err, r)
  {
    var n := FlinkRead(sub, RESOLUTION_OFFSET, REGISTER_WITH, resolution, io, err);
    if n != REGISTER_WITH {
      err.LibcError();
      return EXIT_ERROR;
    }
    return EXIT_SUCCESS;
  }

  /** flink_analog_out_set_value: write the output value of a channel. */
  method SetValue(sub: Subdevice, channel: u32, value: bv32, io: Io, err: ErrorState) returns (r: int)
    requires -1 <= io.xfer.ret <= 4
    modifies FileOf(sub.parent), err
    ensures WordWritten(sub, ValueOffset(channel), WordBytes(value), io, err, r)
  {
    var n := FlinkWrite(sub, ValueOffset(channel), REGISTER_WITH, Some(WordBytes(value)), io, err);
    if n != REGISTER_WITH {
      err.LibcError();
      return EXIT_ERROR;
    }
    return EXIT_SUCCESS;
  }
}
