/*
 * Stepper-motor subdevices (lib/stepperMotor.c). After the headers the
 * register file holds eight blocks of per-channel 32-bit registers, one
 * block per local register kind, each block one register per channel.
 */
module StepperMotor {
  import opened FlinkLib
  import opened Errors
  import opened Registers
  import opened Types
  import opened LowLevel

  /** Offset of the base-clock register. */
  const BASECLOCK_OFFSET: u32 := HEADER_SIZE + SUBHEADER_SIZE

  // The local register kinds, numbered in block order.
  const LOCAL_CONF_OFFSET: u32 := 0
  const LOCAL_CONF_SET_ATOMIC_OFFSET: u32 := 1
  const LOCAL_CONF_RESET_ATOMIC_OFFSET: u32 := 2
  const PRESCALER_START_OFFSET: u32 := 3
  const PRESCALER_TOP_OFFSET: u32 := 4
  const ACCELERATION_OFFSET: u32 := 5
  const STEPS_TO_DO_OFFSET: u32 := 6
  const STEPS_DONE_OFFSET: u32 := 7

  /** Number of local register kinds, hence of register blocks. */
  const NOF_LOCAL_REGISTERS := 8

  /** The register of kind reg for a channel of a subdevice with n channels, in uint32_t arithmetic. */
  function RegisterOffset(n: u32, reg: u32, channel: u32): u32 {
    U32(HEADER_SIZE + SUBHEADER_SIZE + STEPPER_MOTOR_FIRST_CONF_OFFSET + n * REGISTER_WITH * reg + REGISTER_WITH * channel)
  }

  /** All eight blocks of a subdevice with n channels fit below 2^32. */
  predicate LayoutFits(n: u32) {
    HEADER_SIZE + SUBHEADER_SIZE + STEPPER_MOTOR_FIRST_CONF_OFFSET + REGISTER_WITH * NOF_LOCAL_REGISTERS * n <= 0x1_0000_0000
  }

  lemma MulMonotone(n: nat, a: nat, b: nat)
    requires a <= b
    ensures n * a <= n * b
  {
    assert n * b - n * a == n * (b - a);
  }

  /**
   * Register index n*reg + channel: distinct (kind, channel) pairs get
   * distinct indices, all below 8n.
   */
  lemma {:induction false} IndexInjective(n: nat, r1: nat, c1: nat, r2: nat, c2: nat)
    requires r1 < NOF_LOCAL_REGISTERS && r2 < NOF_LOCAL_REGISTERS && c1 < n && c2 < n
    ensures n * r1 + c1 < NOF_LOCAL_REGISTERS * n
    ensures n * r1 + c1 == n * r2 + c2 ==> r1 == r2 && c1 == c2
  {
    MulMonotone(n, r1 + 1, NOF_LOCAL_REGISTERS);
    if r1 < r2 {
      MulMonotone(n, r1 + 1, r2);
    } else if r2 < r1 {
      MulMonotone(n, r2 + 1, r1);
    }
  }

  /** Without wrap-around the register of (reg, channel) is the index-th register after the block start. */
  lemma RegisterOffsetLinear(n: u32, reg: u32, channel: u32)
    requires LayoutFits(n) && reg < NOF_LOCAL_REGISTERS && channel < n
    ensures RegisterOffset(n, reg, channel) ==
      HEADER_SIZE + SUBHEADER_SIZE + STEPPER_MOTOR_FIRST_CONF_OFFSET + 4 * (n * reg + channel)
    ensures RegisterOffset(n, reg, channel) + 4 <=
      HEADER_SIZE + SUBHEADER_SIZE + STEPPER_MOTOR_FIRST_CONF_OFFSET + 4 * NOF_LOCAL_REGISTERS * n
  {
    IndexInjective(n, reg, channel, reg, channel);
    assert n * REGISTER_WITH * reg == 4 * (n * reg);
  }

  /**
   * Within a subdevice whose blocks fit, two different (kind, channel)
   * pairs address registers that do not overlap.
   */
  lemma RegistersDisjoint(n: u32, r1: u32, c1: u32, r2: u32, c2: u32)
    requires LayoutFits(n)
    requires r1 < NOF_LOCAL_REGISTERS && r2 < NOF_LOCAL_REGISTERS && c1 < n && c2 < n
    requires r1 != r2 || c1 != c2
    ensures RegisterOffset(n, r1, c1) + 4 <= RegisterOffset(n, r2, c2) ||
            RegisterOffset(n, r2, c2) + 4 <= RegisterOffset(n, r1, c1)
  {
    RegisterOffsetLinear(n, r1, c1);
    RegisterOffsetLinear(n, r2, c2);
    IndexInjective(n, r1, c1, r2, c2);
  }

  /**
   * After a whole write of register (r1, c1) with stepper_motor_set, a whole
   * stepper_motor_get of it reads the value written, and every other
   * register (r2, c2) of the subdevice reads as it did.
   */
  lemma RegisterReadBack(s: FileState, sub: Subdevice, r1: u32, c1: u32, r2: u32, c2: u32, data: bv32,
                         io1: Io, io2: Io, before: seq<bv8>)
    requires LayoutFits(sub.nofChannels)
    requires r1 < NOF_LOCAL_REGISTERS && r2 < NOF_LOCAL_REGISTERS && c1 < sub.nofChannels && c2 < sub.nofChannels
    requires |before| == 4 && io1.xfer.ret <= 4 && io2.xfer.ret <= 4
    ensures var n := sub.nofChannels;
      var m := WriteFileState(s, sub, RegisterOffset(n, r1, c1), 4, Some(WordBytes(data)), io1).mem;
      && (Reaches(sub, RegisterOffset(n, r1, c1), io1) && io1.xfer.ret == 4 &&
          Reaches(sub, RegisterOffset(n, r1, c1), io2) && io2.xfer.ret == 4 ==>
            WordOf(Filled(before, m, sub, RegisterOffset(n, r1, c1), io2)) == data)
      && (r1 != r2 || c1 != c2 ==>
            Filled(before, m, sub, RegisterOffset(n, r2, c2), io2) == Filled(before, s.mem, sub, RegisterOffset(n, r2, c2), io2))
  {
    var n := sub.nofChannels;
    if Reaches(sub, RegisterOffset(n, r1, c1), io1) && io1.xfer.ret == 4 &&
       Reaches(sub, RegisterOffset(n, r1, c1), io2) && io2.xfer.ret == 4 {
      WriteThenRead(s, sub, RegisterOffset(n, r1, c1), WordBytes(data), io1, io2, before);
      WordBytesRoundTrip(data);
    }
    if r1 != r2 || c1 != c2 {
      RegistersDisjoint(n, r1, c1, r2, c2);
      WriteLeavesOthers(s, sub, RegisterOffset(n, r1, c1), WordBytes(data), io1, RegisterOffset(n, r2, c2), io2, before);
    }
  }

  /** flink_stepperMotor_set: write data to the register of kind reg of a channel. */
  method Set(sub: Subdevice, channel: u32, reg: u32, data: bv32, io: Io, err: ErrorState) returns (r: int)
    requires -1 <= io.xfer.ret <= 4
    modifies FileOf(sub.parent), err
    ensures WordWritten(sub, RegisterOffset(sub.nofChannels, reg, channel), WordBytes(data), io, err, r)
  {
    var offset := RegisterOffset(sub.nofChannels, reg, channel);
    var n := FlinkWrite(sub, offset, REGISTER_WITH, Some(WordBytes(data)), io, err);
    if n != REGISTER_WITH {
      err.LibcError();
      return EXIT_ERROR;
    }
    return EXIT_SUCCESS;
  }

  /** flink_stepperMotor_get: read the register of kind reg of a channel. */
  method Get(sub: Subdevice, channel: u32, reg: u32, data: array?<bv8>, io: Io, err: ErrorState) returns (r: int)
    requires data != null ==> 4 <= data.Length
    requires -1 <= io.xfer.ret <= 4
    modifies data, FileOf(sub.parent), err
    ensures WordRead(sub, RegisterOffset(sub.nofChannels, reg, channel), data, io, err, r)
  {
    var offset := RegisterOffset(sub.nofChannels, reg, channel);
    var n := FlinkRead(sub, offset, REGISTER_WITH, data, io, err);
    if n != REGISTER_WITH {
      err.LibcError();
      return EXIT_ERROR;
    }
    return EXIT_SUCCESS;
  }

  /** flink_stepperMotor_get_baseclock: read the base clock in Hz. */
  method GetBaseclock(sub: Subdevice, frequency: array?<bv8>, io: Io, err: ErrorState) returns (r: int)
    requires frequency != null ==> 4 <= frequency.Length
    requires -1 <= io.xfer.ret <= 4
    modifies frequency, FileOf(sub.parent), err
    ensures WordRead(sub, BASECLOCK_OFFSET, frequency, io, err, r)
  {
    var n := FlinkRead(sub, BASECLOCK_OFFSET, REGISTER_WITH, frequency, io, err);
    if n != REGISTER_WITH {
      err.LibcError();
      return EXIT_ERROR;
    }
    return EXIT_SUCCESS;
  }

  method SetLocalConfigReg(sub: Subdevice, channel: u32, config: bv32, io: Io, err: ErrorState) returns (r: int)
    requires -1 <= io.xfer.ret <= 4
    modifies FileOf(sub.parent), err
    ensures WordWritten(sub, RegisterOffset(sub.nofChannels, LOCAL_CONF_OFFSET, channel), WordBytes(config), io, err, r)
  {
    r := Set(sub, channel, LOCAL_CONF_OFFSET, config, io, err);
  }

  method GetLocalConfigReg(sub: Subdevice, channel: u32, config: array?<bv8>, io: Io, err: ErrorState) returns (r: int)
    requires config != null ==> 4 <= config.Length
    requires -1 <= io.xfer.ret <= 4
    modifies config, FileOf(sub.parent), err
    ensures WordRead(sub, RegisterOffset(sub.nofChannels, LOCAL_CONF_OFFSET, channel), config, io, err, r)
  {
    r := Get(sub, channel, LOCAL_CONF_OFFSET, config, io, err);
  }

  method SetLocalConfigRegBitsAtomic(sub: Subdevice, channel: u32, configSet: bv32, io: Io, err: ErrorState) returns (r: int)
    requires -1 <= io.xfer.ret <= 4
    modifies FileOf(sub.parent), err
    ensures WordWritten(sub, RegisterOffset(sub.nofChannels, LOCAL_CONF_SET_ATOMIC_OFFSET, channel),
                        WordBytes(configSet), io, err, r)
  {
    r := Set(sub, channel, LOCAL_CONF_SET_ATOMIC_OFFSET, configSet, io, err);
  }

  method ResetLocalConfigRegBitsAtomic(sub: Subdevice, channel: u32, configReset: bv32, io: Io, err: ErrorState) returns (r: int)
    requires -1 <= io.xfer.ret <= 4
    modifies FileOf(sub.parent), err
    ensures WordWritten(sub, RegisterOffset(sub.nofChannels, LOCAL_CONF_RESET_ATOMIC_OFFSET, channel),
                        WordBytes(configReset), io, err, r)
  {
    r := Set(sub, channel, LOCAL_CONF_RESET_ATOMIC_OFFSET, configReset, io, err);
  }

  method SetPrescalerStart(sub: Subdevice, channel: u32, prescaler: bv32, io: Io, err: ErrorState) returns (r: int)
    requires -1 <= io.xfer.ret <= 4
    modifies FileOf(sub.parent), err
    ensures WordWritten(sub, RegisterOffset(sub.nofChannels, PRESCALER_START_OFFSET, channel), WordBytes(prescaler), io, err, r)
  {
    r := Set(sub, channel, PRESCALER_START_OFFSET, prescaler, io, err);
  }

  method GetPrescalerStart(sub: Subdevice, channel: u32, prescaler: array?<bv8>, io: Io, err: ErrorState) returns (r: int)
    requires prescaler != null ==> 4 <= prescaler.Length
    requires -1 <= io.xfer.ret <= 4
    modifies prescaler, FileOf(sub.parent), err
    ensures WordRead(sub, RegisterOffset(sub.nofChannels, PRESCALER_START_OFFSET, channel), prescaler, io, err, r)
  {
    r := Get(sub, channel, PRESCALER_START_OFFSET, prescaler, io, err);
  }

  method SetPrescalerTop(sub: Subdevice, channel: u32, prescaler: bv32, io: Io, err: ErrorState) returns (r: int)
    requires -1 <= io.xfer.ret <= 4
    modifies FileOf(sub.parent), err
    ensures WordWritten(sub, RegisterOffset(sub.nofChannels, PRESCALER_TOP_OFFSET, channel), WordBytes(prescaler), io, err, r)
  {
    r := Set(sub, channel, PRESCALER_TOP_OFFSET, prescaler, io, err);
  }

  method GetPrescalerTop(sub: Subdevice, channel: u32, prescaler: array?<bv8>, io: Io, err: ErrorState) returns (r: int)
    requires prescaler != null ==> 4 <= prescaler.Length
    requires -1 <= io.xfer.ret <= 4
    modifies prescaler, FileOf(sub.parent), err
    ensures WordRead(sub, RegisterOffset(sub.nofChannels, PRESCALER_TOP_OFFSET, channel), prescaler, io, err, r)
  {
    r := Get(sub, channel, PRESCALER_TOP_OFFSET, prescaler, io, err);
  }

  method SetAcceleration(sub: Subdevice, channel: u32, acceleration: bv32, io: Io, err: ErrorState) returns (r: int)
    requires -1 <= io.xfer.ret <= 4
    modifies FileOf(sub.parent), err
    ensures WordWritten(sub, RegisterOffset(sub.nofChannels, ACCELERATION_OFFSET, channel), WordBytes(acceleration), io, err, r)
  {
    r := Set(sub, channel, ACCELERATION_OFFSET, acceleration, io, err);
  }

  method GetAcceleration(sub: Subdevice, channel: u32, acceleration: array?<bv8>, io: Io, err: ErrorState) returns (r: int)
    requires acceleration != null ==> 4 <= acceleration.Length
    requires -1 <= io.xfer.ret <= 4
    modifies acceleration, FileOf(sub.parent), err
    ensures WordRead(sub, RegisterOffset(sub.nofChannels, ACCELERATION_OFFSET, channel), acceleration, io, err, r)
  {
    r := Get(sub, channel, ACCELERATION_OFFSET, acceleration, io, err);
  }

  method SetStepsToDo(sub: Subdevice, channel: u32, steps: bv32, io: Io, err: ErrorState) returns (r: int)
    requires -1 <= io.xfer.ret <= 4
    modifies FileOf(sub.parent), err
    ensures WordWritten(sub, RegisterOffset(sub.nofChannels, STEPS_TO_DO_OFFSET, channel), WordBytes(steps), io, err, r)
  {
    r := Set(sub, channel, STEPS_TO_DO_OFFSET, steps, io, err);
  }

  method GetStepsToDo(sub: Subdevice, channel: u32, steps: array?<bv8>, io: Io, err: ErrorState) returns (r: int)
    requires steps != null ==> 4 <= steps.Length
    requires -1 <= io.xfer.ret <= 4
    modifies steps, FileOf(sub.parent), err
    ensures WordRead(sub, RegisterOffset(sub.nofChannels, STEPS_TO_DO_OFFSET, channel), steps, io, err, r)
  {
    r := Get(sub, channel, STEPS_TO_DO_OFFSET, steps, io, err);
  }

  method GetStepsHaveDone(sub: Subdevice, channel: u32, steps: array?<bv8>, io: Io, err: ErrorState) returns (r: int)
    requires steps != null ==> 4 <= steps.Length
    requires -1 <= io.xfer.ret <= 4
    modifies steps, FileOf(sub.parent), err
    ensures WordRead(sub, RegisterOffset(sub.nofChannels, STEPS_DONE_OFFSET, channel), steps, io, err, r)
  {
    r := Get(sub, channel, STEPS_DONE_OFFSET, steps, io, err);
  }

  /**
   * flink_steppermotor_global_step_reset: set the global step-reset bit of
   * the configuration register. Unlike flink_subdevice_reset it does not
   * check the subdevice itself first.
   */
  method GlobalStepReset(sub: Subdevice, io: BitIo, err: ErrorState) returns (r: int)
    modifies FileOf(sub.parent), err
    ensures BitWritten(sub, CONFIG_OFFSET, GLOBAL_STEP_RESET, 1, io, err, r)
  {
    var w := FlinkWriteBit(sub, CONFIG_OFFSET, GLOBAL_STEP_RESET, 1, io, err);
    if w != 0 {
      err.LibcError();
      return EXIT_ERROR;
    }
    return EXIT_SUCCESS;
  }
}
