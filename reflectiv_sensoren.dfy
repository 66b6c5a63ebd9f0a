/*
 * The second reflective-sensor variant (lib/reflectivSensoren.c): a
 * resolution register and one value register per channel.
 */
module ReflectivSensoren {
  import opened FlinkLib
  import opened Errors
  import opened Registers
  import opened Types
  import opened LowLevel

  const RESOLUTION_OFFSET: u32 := HEADER_SIZE + SUBHEADER_SIZE

  /** Start of the value bank. */
  const VALUE_BASE := HEADER_SIZE + SUBHEADER_SIZE + REFLECTIV_SENSOR_FIRST_VALUE_OFFSET

  /** The digitised value of a channel. */
  function ValueOffset(channel: u32): u32 {
    U32(VALUE_BASE + channel * REGISTER_WITH)
  }

  /** Without wrap-around, channel values are consecutive registers, distinct per channel. */
  lemma ValuesConsecutive(c: u32, d: u32)
    requires VALUE_BASE + 4 * c + 4 <= 0x1_0000_0000 && VALUE_BASE + 4 * d + 4 <= 0x1_0000_0000
    ensures ValueOffset(c) == VALUE_BASE + 4 * c
    ensures c != d ==> ValueOffset(c) + 4 <= ValueOffset(d) || ValueOffset(d) + 4 <= ValueOffset(c)
  {
  }

  /** flink_reflectivsensor_get_resolution. */
  method GetResolution(sub: Subdevice, resolution: array?<bv8>, io: Io, err: ErrorState) returns (r: int)
    requires resolution != null ==> 4 <= resolution.Length
    requires -1 <= io.xfer.ret <= 4
    modifies resolution, FileOf(sub.parent), err
    ensures WordRead(sub, RESOLUTION_OFFSET, resolution, io, err, r)
  {
    var n := FlinkRead(sub, RESOLUTION_OFFSET, REGISTER_WITH, resolution, io, err);
    if n != REGISTER_WITH {
      err.LibcError();
      return EXIT_ERROR;
    }
    return EXIT_SUCCESS;
  }

  /** flink_reflectivsensor_get_value. */
  method GetValue(sub: Subdevice, channel: u32, value: array?<bv8>, io: Io, err: ErrorState) returns (r: int)
    requires value != null ==> 4 <= value.Length
    requires -1 <= io.xfer.ret <= 4
    modifies value, FileOf(sub.parent), err
    ensures WordRead(sub, ValueOffset(channel), value, io, err, r)
  {
    var n := FlinkRead(sub, ValueOffset(channel), REGISTER_WITH, value, io, err);
    if n != REGISTER_WITH {
      err.LibcError();
      return EXIT_ERROR;
    }
    return EXIT_SUCCESS;
  }
}
