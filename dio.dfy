/*
 * Digital I/O subdevices (lib/dio.c). The register file of a DIO subdevice
 * holds, after the headers and the base clock, one bank of direction bits,
 * one bank of value bits (one bit per channel, 32 channels per register)
 * and one 32-bit debounce register per channel.
 */
module Dio {
  import opened FlinkLib
  import opened Errors
  import opened Registers
  import opened Types
  import opened Valid
  import opened LowLevel

  /** Channels per register: one bit each. */
  const BANK_CHANNELS: u32 := REGISTER_WITH * 8

  /** Offset of the base-clock register. */
  const BASECLOCK_OFFSET: u32 := HEADER_SIZE + SUBHEADER_SIZE

  /** First register of the direction bank. */
  const DIRECTION_BASE: u32 := HEADER_SIZE + SUBHEADER_SIZE + 4

  /** The bit of its register that a channel owns in each bank. */
  function ChannelBit(channel: u32): BitIndex {
    channel % BANK_CHANNELS
  }

  /** The direction register of a channel. */
  function DirectionOffset(channel: u32): u32 {
    U32(DIRECTION_BASE + (channel / BANK_CHANNELS) * REGISTER_WITH)
  }

  /**
   * The size in bytes of one bit bank: whole registers for nofChannels
   * channels, computed in uint32_t so that 0 channels wraps around.
   */
  function BankBytes(nofChannels: u32): u32 {
    U32((U32(nofChannels - 1) / BANK_CHANNELS + 1) * REGISTER_WITH)
  }

  /** The value register of a channel: the direction bank is skipped. */
  function ValueOffset(nofChannels: u32, channel: u32): u32 {
    U32(DIRECTION_BASE + BankBytes(nofChannels) + (channel / BANK_CHANNELS) * REGISTER_WITH)
  }

  /** The debounce register of a channel: both bit banks are skipped. */
  function DebounceOffset(nofChannels: u32, channel: u32): u32 {
    U32(DIRECTION_BASE + U32(BankBytes(nofChannels) * 2) + U32(channel * REGISTER_WITH))
  }

  /** A bank is the number of registers needed for all channels, rounded up. */
  lemma BankBytesRoundsUp(n: u32)
    requires n >= 1
    ensures BankBytes(n) == 4 * ((n + 31) / 32)
    ensures 32 * (BankBytes(n) / 4 - 1) < n <= 32 * (BankBytes(n) / 4)
  {
  }

  lemma BankBytesExamples()
    ensures BankBytes(1) == 4 && BankBytes(32) == 4 && BankBytes(33) == 8 && BankBytes(128) == 16
  {
  }

  /**
   * With no channels nofChannels - 1 wraps to 0xFFFFFFFF and the bank would
   * be 512 MiB; validate_flink_subdev rejects such subdevices first.
   */
  lemma BankBytesNoChannels(sub: Subdevice)
    ensures BankBytes(0) == 0x2000_0000
    ensures ValidateFlinkSubdev(sub) ==> sub.nofChannels >= 1
  {
  }

  /** The whole register file of a DIO subdevice with n channels fits below 2^32. */
  predicate LayoutFits(n: u32) {
    n >= 1 && DIRECTION_BASE + 2 * ((n + 31) / 32) * 4 + 4 * n <= 0x1_0000_0000
  }

  /** When the layout fits, no offset computation wraps around. */
  lemma OffsetsExact(n: u32, c: u32)
    requires LayoutFits(n) && c < n
    ensures BankBytes(n) == 4 * ((n + 31) / 32)
    ensures DirectionOffset(c) == DIRECTION_BASE + 4 * (c / 32)
    ensures ValueOffset(n, c) == DIRECTION_BASE + BankBytes(n) + 4 * (c / 32)
    ensures DebounceOffset(n, c) == DIRECTION_BASE + 2 * BankBytes(n) + 4 * c
  {
    BankBytesRoundsUp(n);
    assert c / 32 < (n + 31) / 32;
  }

  /**
   * For every channel of a subdevice whose layout fits, its direction
   * register lies in the direction bank, its value register in the value
   * bank and its debounce register after both: the three banks never
   * overlap.
   */
  lemma BanksDisjoint(n: u32, c: u32)
    requires LayoutFits(n) && c < n
    ensures DIRECTION_BASE <= DirectionOffset(c) && DirectionOffset(c) + 4 <= DIRECTION_BASE + BankBytes(n)
    ensures DIRECTION_BASE + BankBytes(n) <= ValueOffset(n, c)
    ensures ValueOffset(n, c) + 4 <= DIRECTION_BASE + 2 * BankBytes(n)
    ensures DIRECTION_BASE + 2 * BankBytes(n) <= DebounceOffset(n, c)
    ensures DebounceOffset(n, c) + 4 <= DIRECTION_BASE + 2 * BankBytes(n) + 4 * n
  {
    OffsetsExact(n, c);
    assert c / 32 < (n + 31) / 32;
  }

  /**
   * Two distinct channels never share a (register, bit) pair in a bit bank,
   * and never share or overlap a debounce register.
   */
  lemma ChannelsDistinct(n: u32, c: u32, d: u32)
    requires LayoutFits(n) && c < n && d < n && c != d
    ensures DirectionOffset(c) != DirectionOffset(d) || ChannelBit(c) != ChannelBit(d)
    ensures ValueOffset(n, c) != ValueOffset(n, d) || ChannelBit(c) != ChannelBit(d)
    ensures DebounceOffset(n, c) + 4 <= DebounceOffset(n, d) || DebounceOffset(n, d) + 4 <= DebounceOffset(n, c)
  {
    OffsetsExact(n, c);
    OffsetsExact(n, d);
    if c / 32 == d / 32 {
      assert c == 32 * (c / 32) + c % 32 && d == 32 * (d / 32) + d % 32;
    }
  }

  /** Two value registers are the same register or do not overlap. */
  lemma ValueRegistersApart(n: u32, c: u32, d: u32)
    requires LayoutFits(n) && c < n && d < n
    ensures ValueOffset(n, c) == ValueOffset(n, d) ||
            ValueOffset(n, c) + 4 <= ValueOffset(n, d) || ValueOffset(n, d) + 4 <= ValueOffset(n, c)
  {
    OffsetsExact(n, c);
    OffsetsExact(n, d);
  }

  /**
   * After flink_dio_set_value on channel c, flink_dio_get_value on c reads
   * 1 for a nonzero value and 0 otherwise, and the value of every other
   * channel d is what it was.
   */
  lemma ValueReadBack(s: FileState, sub: Subdevice, c: u32, d: u32, value: u8, io: BitIo)
    requires LayoutFits(sub.nofChannels) && c < sub.nofChannels && d < sub.nofChannels
    ensures var n := sub.nofChannels;
      var v: u8 := if value != 0 then 1 else 0;
      var m := BitFileState(s, sub, true, WriteSingleBit(ValueOffset(n, c), ChannelBit(c), v), io).mem;
      && (BitReaches(sub, io) && io.op.ret >= 0 ==> BitValue(m, sub, ValueOffset(n, c), ChannelBit(c)) == v)
      && (c != d ==> BitValue(m, sub, ValueOffset(n, d), ChannelBit(d)) == BitValue(s.mem, sub, ValueOffset(n, d), ChannelBit(d)))
  {
    var n := sub.nofChannels;
    var v: u8 := if value != 0 then 1 else 0;
    if BitReaches(sub, io) && io.op.ret >= 0 {
      BitWriteThenRead(s, sub, ValueOffset(n, c), ChannelBit(c), v, io);
    }
    if c != d {
      ValueRegistersApart(n, c, d);
      ChannelsDistinct(n, c, d);
      BitWriteLeavesOthers(s, sub, ValueOffset(n, c), ChannelBit(c), v, io, ValueOffset(n, d), ChannelBit(d));
    }
  }

  /**
   * After flink_dio_set_debounce on channel c, a whole flink_dio_get_debounce
   * on c reads the value written, and the debounce register of every other
   * channel d reads as it did.
   */
  lemma DebounceReadBack(s: FileState, sub: Subdevice, c: u32, d: u32, debounce: bv32, io1: Io, io2: Io,
                         before: seq<bv8>)
    requires LayoutFits(sub.nofChannels) && c < sub.nofChannels && d < sub.nofChannels
    requires |before| == 4 && io1.xfer.ret <= 4 && io2.xfer.ret <= 4
    ensures var n := sub.nofChannels;
      var m := WriteFileState(s, sub, DebounceOffset(n, c), 4, Some(WordBytes(debounce)), io1).mem;
      && (Reaches(sub, DebounceOffset(n, c), io1) && io1.xfer.ret == 4 &&
          Reaches(sub, DebounceOffset(n, c), io2) && io2.xfer.ret == 4 ==>
            WordOf(Filled(before, m, sub, DebounceOffset(n, c), io2)) == debounce)
      && (c != d ==> Filled(before, m, sub, DebounceOffset(n, d), io2) == Filled(before, s.mem, sub, DebounceOffset(n, d), io2))
  {
    var n := sub.nofChannels;
    if Reaches(sub, DebounceOffset(n, c), io1) && io1.xfer.ret == 4 &&
       Reaches(sub, DebounceOffset(n, c), io2) && io2.xfer.ret == 4 {
      WriteThenRead(s, sub, DebounceOffset(n, c), WordBytes(debounce), io1, io2, before);
      WordBytesRoundTrip(debounce);
    }
    if c != d {
      ChannelsDistinct(n, c, d);
      WriteLeavesOthers(s, sub, DebounceOffset(n, c), WordBytes(debounce), io1, DebounceOffset(n, d), io2, before);
    }
  }

  /** flink_dio_get_baseclock: read the base clock in Hz. */
  method GetBaseclock(sub: Subdevice, frequency: array?<bv8>, io: Io, err: ErrorState) returns (r: int)
    requires frequency != null ==> 4 <= frequency.Length
    requires -1 <= io.xfer.ret <= 4
    modifies frequency, FileOf(sub.parent), err
    ensures WordRead(sub, BASECLOCK_OFFSET, frequency, io, err, r)
  {
    var n := FlinkRead(sub, BASECLOCK_OFFSET, REGISTER_WITH, frequency, io, err);
    if n != REGISTER_WITH {
      err.LibcError();
      return EXIT_ERROR;
    }
    return EXIT_SUCCESS;
  }

  /** flink_dio_set_direction: make a channel an output (nonzero) or an input (0). */
  method SetDirection(sub: Subdevice, channel: u32, output: u8, io: BitIo, err: ErrorState) returns (r: int)
    modifies FileOf(sub.parent), err
    ensures BitWritten(sub, DirectionOffset(channel), ChannelBit(channel), output, io, err, r)
  {
    var w := FlinkWriteBit(sub, DirectionOffset(channel), ChannelBit(channel), output, io, err);
    if w != 0 {
      err.LibcError();
      return EXIT_ERROR;
    }
    return EXIT_SUCCESS;
  }

  /** flink_dio_set_value: drive an output channel high (nonzero) or low (0). */
  method SetValue(sub: Subdevice, channel: u32, value: u8, io: BitIo, err: ErrorState) returns (r: int)
    modifies FileOf(sub.parent), err
    ensures BitWritten(sub, ValueOffset(sub.nofChannels, channel), ChannelBit(channel),
                       if value != 0 then 1 else 0, io, err, r)
  {
    var val: u8 := if value != 0 then 1 else 0;
    var w := FlinkWriteBit(sub, ValueOffset(sub.nofChannels, channel), ChannelBit(channel), val, io, err);
    if w != 0 {
      err.LibcError();
      return EXIT_ERROR;
    }
    return EXIT_SUCCESS;
  }

  /** flink_dio_get_value: read the level of a channel (0 or 1) into value[0]. */
  method GetValue(sub: Subdevice, channel: u32, value: array?<u8>, io: BitIo, err: ErrorState) returns (r: int)
    requires value != null ==> 1 <= value.Length
    modifies value, FileOf(sub.parent), err
    ensures BitRead(sub, ValueOffset(sub.nofChannels, channel), ChannelBit(channel), value, io, err, r)
  {
    var b := FlinkReadBit(sub, ValueOffset(sub.nofChannels, channel), ChannelBit(channel), value, io, err);
    if b != 0 {
      err.LibcError();
      return EXIT_ERROR;
    }
    return EXIT_SUCCESS;
  }

  /** flink_dio_set_debounce: write the debounce time of a channel, in base-clock ticks. */
  method SetDebounce(sub: Subdevice, channel: u32, debounce: bv32, io: Io, err: ErrorState) returns (r: int)
    requires -1 <= io.xfer.ret <= 4
    modifies FileOf(sub.parent), err
    ensures WordWritten(sub, DebounceOffset(sub.nofChannels, channel), WordBytes(debounce), io, err, r)
  {
    var n := FlinkWrite(sub, DebounceOffset(sub.nofChannels, channel), REGISTER_WITH, Some(WordBytes(debounce)), io, err);
    if n != REGISTER_WITH {
      err.LibcError();
      return EXIT_ERROR;
    }
    return EXIT_SUCCESS;
  }

  /** flink_dio_get_debounce: read the debounce time of a channel. */
  method GetDebounce(sub: Subdevice, channel: u32, debounce: array?<bv8>, io: Io, err: ErrorState) returns (r: int)
    requires debounce != null ==> 4 <= debounce.Length
    requires -1 <= io.xfer.ret <= 4
    modifies debounce, FileOf(sub.parent), err
    ensures WordRead(sub, DebounceOffset(sub.nofChannels, channel), debounce, io, err, r)
  {
    var n := FlinkRead(sub, DebounceOffset(sub.nofChannels, channel), REGISTER_WITH, debounce, io, err);
    if n != REGISTER_WITH {
      err.LibcError();
      return EXIT_ERROR;
    }
    return EXIT_SUCCESS;
  }
}
