/*
 * Reflective-sensor subdevices (lib/reflectiveSensor.c): a resolution
 * register, then three banks of one 32-bit register per channel holding
 * the measured value, the upper and the lower interrupt level.
 */
module ReflectiveSensor {
  import opened FlinkLib
  import opened Errors
  import opened Registers
  import opened Types
  import opened LowLevel

  const RESOLUTION_OFFSET: u32 := HEADER_SIZE + SUBHEADER_SIZE

  /** Start of the value bank. */
  const VALUE_BASE := HEADER_SIZE + SUBHEADER_SIZE + REFLECTIVE_SENSOR_FIRST_VALUE_OFFSET

  /** The measured value of a channel. */
  function ValueOffset(channel: u32): u32 {
    U32(VALUE_BASE + channel * REGISTER_WITH)
  }

  /** The upper interrupt level of a channel: after the n value registers. */
  function UpperLevelOffset(n: u32, channel: u32): u32 {
    U32(U32(VALUE_BASE + REGISTER_WITH * n) + channel * REGISTER_WITH)
  }

  /** The lower interrupt level of a channel: after the value and upper-level banks. */
  function LowerLevelOffset(n: u32, channel: u32): u32 {
    U32(U32(VALUE_BASE + 2 * REGISTER_WITH * n) + channel * REGISTER_WITH)
  }

  /** All three banks of a subdevice with n channels fit below 2^32. */
  predicate LayoutFits(n: u32) {
    VALUE_BASE + 3 * REGISTER_WITH * n <= 0x1_0000_0000
  }

  /**
   * When the banks fit, the value, upper and lower registers of channel c
   * lie in consecutive, non-overlapping banks, channel c at the c-th place
   * of each.
   */
  lemma BanksBackToBack(n: u32, c: u32)
    requires LayoutFits(n) && c < n
    ensures ValueOffset(c) == VALUE_BASE + 4 * c
    ensures UpperLevelOffset(n, c) == VALUE_BASE + 4 * n + 4 * c
    ensures LowerLevelOffset(n, c) == VALUE_BASE + 8 * n + 4 * c
    ensures ValueOffset(c) + 4 <= UpperLevelOffset(n, 0) && UpperLevelOffset(n, c) + 4 <= LowerLevelOffset(n, 0)
    ensures LowerLevelOffset(n, c) + 4 <= VALUE_BASE + 12 * n
  {
  }

  /** The upper (upper == true) or lower interrupt level of a channel. */
  function LevelOffset(n: u32, upper: bool, channel: u32): u32 {
    if upper then UpperLevelOffset(n, channel) else LowerLevelOffset(n, channel)
  }

  /**
   * After a whole write of the upper or lower level of channel c, a whole
   * read of it returns the value written; every other level register and
   * every value register reads as it did.
   */
  lemma LevelReadBack(s: FileState, sub: Subdevice, upper: bool, c: u32, upper': bool, d: u32, level: bv32,
                      io1: Io, io2: Io, before: seq<bv8>)
    requires LayoutFits(sub.nofChannels) && c < sub.nofChannels && d < sub.nofChannels
    requires |before| == 4 && io1.xfer.ret <= 4 && io2.xfer.ret <= 4
    ensures var n := sub.nofChannels;
      var m := WriteFileState(s, sub, LevelOffset(n, upper, c), 4, Some(WordBytes(level)), io1).mem;
      && (Reaches(sub, LevelOffset(n, upper, c), io1) && io1.xfer.ret == 4 &&
          Reaches(sub, LevelOffset(n, upper, c), io2) && io2.xfer.ret == 4 ==>
            WordOf(Filled(before, m, sub, LevelOffset(n, upper, c), io2)) == level)
      && (upper != upper' || c != d ==>
            Filled(before, m, sub, LevelOffset(n, upper', d), io2) == Filled(before, s.mem, sub, LevelOffset(n, upper', d), io2))
      && Filled(before, m, sub, ValueOffset(d), io2) == Filled(before, s.mem, sub, ValueOffset(d), io2)
  {
    var n := sub.nofChannels;
    var off := LevelOffset(n, upper, c);
    if Reaches(sub, off, io1) && io1.xfer.ret == 4 && Reaches(sub, off, io2) && io2.xfer.ret == 4 {
      WriteThenRead(s, sub, off, WordBytes(level), io1, io2, before);
      WordBytesRoundTrip(level);
    }
    BanksBackToBack(n, c);
    BanksBackToBack(n, d);
    if upper != upper' || c != d {
      WriteLeavesOthers(s, sub, off, WordBytes(level), io1, LevelOffset(n, upper', d), io2, before);
    }
    WriteLeavesOthers(s, sub, off, WordBytes(level), io1, ValueOffset(d), io2, before);
  }

  /** flink_reflectivesensor_get_resolution: the number of resolvable steps. */
  method GetResolution(sub: Subdevice, resolution: array?<bv8>, io: Io, err: ErrorState) returns (r: int)
    requires resolution != null ==> 4 <= resolution.Length
    requires -1 <= io.xfer.ret <= 4
    modifies resolution, FileOf(sub.parent), err
    ensures WordRead(sub, RESOLUTION_OFFSET, resolution, io, err, r)
  {
    var n := FlinkRead(sub, RESOLUTION_OFFSET, REGISTER_WITH, resolution, io, err);
    if n != REGISTER_WITH {
      err.LibcError();
      return EXIT_ERROR;
    }
    return EXIT_SUCCESS;
  }

  /** flink_reflectivesensor_get_value: the digitised input of a channel. */
  method GetValue(sub: Subdevice, channel: u32, value: array?<bv8>, io: Io, err: ErrorState) returns (r: int)
    requires value != null ==> 4 <= value.Length
    requires -1 <= io.xfer.ret <= 4
    modifies value, FileOf(sub.parent), err
    ensures WordRead(sub, ValueOffset(channel), value, io, err, r)
  {
    var n := FlinkRead(sub, ValueOffset(channel), REGISTER_WITH, value, io, err);
    if n != REGISTER_WITH {
      err.LibcError();
      return EXIT_ERROR;
    }
    return EXIT_SUCCESS;
  }

  /** flink_reflectivesensor_set_upper_level_int: the level above which an interrupt is raised. */
  method SetUpperLevelInt(sub: Subdevice, channel: u32, value: bv32, io: Io, err: ErrorState) returns (r: int)
    requires -1 <= io.xfer.ret <= 4
    modifies FileOf(sub.parent), err
    ensures WordWritten(sub, UpperLevelOffset(sub.nofChannels, channel), WordBytes(value), io, err, r)
  {
    var n := FlinkWrite(sub, UpperLevelOffset(sub.nofChannels, channel), REGISTER_WITH, Some(WordBytes(value)), io, err);
    if n != REGISTER_WITH {
      err.LibcError();
      return EXIT_ERROR;
    }
    return EXIT_SUCCESS;
  }

  /** flink_reflectivesensor_get_upper_level_int. */
  method GetUpperLevelInt(sub: Subdevice, channel: u32, value: array?<bv8>, io: Io, err: ErrorState) returns (r: int)
    requires value != null ==> 4 <= value.Length
    requires -1 <= io.xfer.ret <= 4
    modifies value, FileOf(sub.parent), err
    ensures WordRead(sub, UpperLevelOffset(sub.nofChannels, channel), value, io, err, r)
  {
    var n := FlinkRead(sub, UpperLevelOffset(sub.nofChannels, channel), REGISTER_WITH, value, io, err);
    if n != REGISTER_WITH {
      err.LibcError();
      return EXIT_ERROR;
    }
    return EXIT_SUCCESS;
  }

  /** flink_reflectivesensor_set_lower_level_int: the level below which an interrupt is raised. */
  method SetLowerLevelInt(sub: Subdevice, channel: u32, value: bv32, io: Io, err: ErrorState) returns (r: int)
    requires -1 <= io.xfer.ret <= 4
    modifies FileOf(sub.parent), err
    ensures WordWritten(sub, LowerLevelOffset(sub.nofChannels, channel), WordBytes(value), io, err, r)
  {
    var n := FlinkWrite(sub, LowerLevelOffset(sub.nofChannels, channel), REGISTER_WITH, Some(WordBytes(value)), io, err);
    if n != REGISTER_WITH {
      err.LibcError();
      return EXIT_ERROR;
    }
    return EXIT_SUCCESS;
  }

  /** flink_reflectivesensor_get_lower_level_int. */
  method GetLowerLevelInt(sub: Subdevice, channel: u32, value: array?<bv8>, io: Io, err: ErrorState) returns (r: int)
    requires value != null ==> 4 <= value.Length
    requires -1 <= io.xfer.ret <= 4
    modifies value, FileOf(sub.parent), err
    ensures WordRead(sub, LowerLevelOffset(sub.nofChannels, channel), value, io, err, r)
  {
    var n := FlinkRead(sub, LowerLevelOffset(sub.nofChannels, channel), REGISTER_WITH, value, io, err);
    if n != REGISTER_WITH {
      err.LibcError();
      return EXIT_ERROR;
    }
    return EXIT_SUCCESS;
  }
}
