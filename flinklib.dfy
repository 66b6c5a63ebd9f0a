/*
 * Register layout constants and fixed-width integer types shared by the
 * fLink userspace library (include/flinklib.h).
 */
module FlinkLib {

  /** C fixed-width unsigned integers, as mathematical integers in range. */
  type u8 = x: int | 0 <= x < 0x100
  type u16 = x: int | 0 <= x < 0x1_0000
  type u32 = x: int | 0 <= x < 0x1_0000_0000

  /** Non-negative values of a C int. */
  type CIntNat = x: int | 0 <= x < 0x8000_0000

  /** A bit position inside one 32-bit register. */
  type BitIndex = b: int | 0 <= b < 32

  datatype Option<T> = None | Some(value: T)

  /** Conversion of any integer to uint32_t: reduction modulo 2^32. */
  function U32(x: int): (r: u32)
    ensures 0 <= x < 0x1_0000_0000 ==> r == x
    ensures (r - x) % 0x1_0000_0000 == 0
  {
    x % 0x1_0000_0000
  }

  /** Conversion of any integer to uint8_t: reduction modulo 2^8. */
  function U8(x: int): (r: u8)
    ensures 0 <= x < 0x100 ==> r == x
    ensures (r - x) % 0x100 == 0
  {
    x % 0x100
  }

  // Sizes and offsets of the memory-mapped subdevice header, in bytes.
  const REGISTER_WITH: u32 := 4
  const HEADER_SIZE: u32 := 16
  const SUBHEADER_SIZE: u32 := 16
  const STATUS_OFFSET: u32 := 0x10
  const CONFIG_OFFSET: u32 := 0x14
  const PWM_BASECLK_OFFSET: u32 := 0
  const PWM_FIRSTPWM_OFFSET: u32 := 4
  const ANALOG_INPUT_FIRST_VALUE_OFFSET: u32 := 4
  const WD_FIRST_COUNTER_OFFSET: u32 := 4
  const RESET_BIT: BitIndex := 0

  const EXIT_SUCCESS := 0
  const EXIT_ERROR := -1

  // Offsets defined in a header that is not part of this model; only
  // their C types are known.
  const STEPPER_MOTOR_FIRST_CONF_OFFSET: u32
  const REFLECTIVE_SENSOR_FIRST_VALUE_OFFSET: u32
  const REFLECTIV_SENSOR_FIRST_VALUE_OFFSET: u32
  const ANALOG_OUTPUT_FIRST_VALUE_OFFSET: u32
  /**
   * Length in bytes of the description string held by an info subdevice;
   * it bounds a loop counter of type int.
   */
  const INFO_DESC_SIZE: CIntNat
  /** Configuration bit that resets the step counters of all motors. */
  const GLOBAL_STEP_RESET: BitIndex
}
