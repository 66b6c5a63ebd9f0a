# fLink userspace library — a Dafny model

fLink is an FPGA interface. A Linux driver exposes each fLink device as a
character device file. Its functions ("subdevices") are addressed by a
subdevice id. Each subdevice has a byte-addressed register file: a 16-byte
header, a 16-byte subheader, then function-specific 32-bit registers. The
userspace library wraps the driver's system calls.

- `open`, `close`, `ioctl`, `lseek`, `read` and `write` are the calls used.
- The ioctl commands select a subdevice, count subdevices, describe one
  subdevice, and read or write one register bit.
- Subdevice accessors compute register offsets from the channel number and
  the subdevice's channel count.
- Failures are recorded in a thread-local error number, `flink_errno`.

This project models that library in Dafny, in two generations.

**The current library** (`lib/*.c`) uses handle types:
- `flink_dev` becomes the class `Types.Device`; its table size and table
  pointer are updated in place.
- `flink_subdev` becomes the value type `Types.Subdevice`.

It covers:
- the validity checks (`Valid`);
- the error table and error reporting (`Errors`);
- the ioctl path (`Control`);
- the byte and single-bit transfers (`LowLevel`);
- device open, close and discovery (`Base`);
- the function-specific accessors: digital I/O (`Dio`), stepper motor
  (`StepperMotor`), both reflective-sensor variants (`ReflectiveSensor`,
  `ReflectivSensoren`), watchdog (`Watchdog`), analog output (`AnalogOut`)
  and the info subdevice (`Info`).

**The first generation** (`lib/flink.c` with `include/flinklib.h`)
addresses subdevices by device handle plus table index. It is modelled in
`Legacy` (transport and discovery) and `LegacyIo` (register accessors).

**The device file** is modelled in `Registers` as the class
`Registers.DeviceFile`:
- register memory per subdevice: bytes that were never written read as zero;
- the kernel's selected subdevice and file position;
- how many descriptors are open, and a log of the system calls received.

Every system call takes an `Answer` (return value, errno) as a parameter,
so that every failure path of the library can be reached and is
specified. Buffers the library writes through a pointer are `array?`
values, with `null` for a null pointer. Buffers it only reads are
`Option<seq<bv8>>`.

Every accessor is proved against the transfer it issues:
- which register (subdevice, offset) it touches;
- the register memory and call log of the device file afterwards;
- the caller's buffer afterwards;
- the return value;
- `errno` and `flink_errno`.

The layout lemmas prove, per subdevice type, that the offset formulas
place different channels and different register kinds in disjoint
registers, within stated bounds. The transfer lemmas prove read-back: a
register or bit written through the library reads back as written.

`validate_flink_dev` and `validate_flink_subdev` (lib/valid.c:17-29) are
the predicates `Valid.ValidateFlinkDev` and `Valid.ValidateFlinkSubdev`,
whose cases the lemmas `Valid.ValidateFlinkDevCases` and
`Valid.ValidateFlinkSubdevCases` spell out.
They are used in the contracts of every transfer. `valid_dev` of the first
generation is `Legacy.ValidDev`.

In the table, an accessor that "reads" or "writes" a register or bit
satisfies one of `LowLevel.WordRead`, `LowLevel.WordWritten`,
`LowLevel.BitRead` or `LowLevel.BitWritten` (`LegacyIo` has its own four).
Each predicate fixes the whole outcome of the transfer:
- the result is success exactly when the checks pass, select and seek
  succeed, and the data call moves all 4 bytes (or the bit ioctl succeeds);
- the device file afterwards is the one the transfer functions give;
- the caller's buffer afterwards: exactly the register's bytes or the bit
  on success, otherwise only what arrived;
- errno afterwards;
- flink_errno afterwards: unchanged on success, errno on failure.

## Model

| member | source | states |
|---|---|---|
| Errors.CodeMeaning | lib/error.h:20-28 | exactly the nine library codes FLINK_NOERROR..FLINK_WRONGSUBDEVT have a documented meaning |
| Errors.StrErrorOver | lib/error.c:36-41 | a code inside the table's range gets the table entry at code - FLINK_NOERROR; every other code is handed to the platform's strerror |
| Errors.StrErrorShifted | lib/error.c:23-41 | as written the table has 8 entries; FLINK_ENOTSUPPORTED gets "Not supportedInvalid device"; FLINK_EINVALDEV..FLINK_UNKNOWNIOCTL get the meaning of the next code; FLINK_WRONGSUBDEVT falls through to strerror |
| Errors.StrError | lib/error.c:36-41 | as written: FLINK_NOERROR..FLINK_UNKNOWNIOCTL get a message of the table; every other code, FLINK_WRONGSUBDEVT included, gets the platform's strerror |
| Errors.StrErrorFixed | lib/error.c:23-41 | with the table corrected: every library code gets a message of the table; every other code gets the platform's strerror |
| Errors.StrErrorFixedMatchesCodes | lib/error.c:23-41 | with the missing comma restored, every library code gets its own meaning and every other code goes to strerror |
| Errors.PerrorLine | lib/error.c:43-46 | the line written is prefix, ": ", the message of the error, newline; a null prefix becomes "flinklib" |
| Errors.ErrorState.constructor | lib/error.c:20 | flink_errno starts out 0 |
| Errors.ErrorState.FlinkError | lib/error.c:55-60 | flink_error records exactly the given code; errno is untouched |
| Errors.ErrorState.LibcError | lib/error.c:48-53 | libc_error copies errno into flink_errno |
| Registers.WordBytesRoundTrip | lib/stepperMotor.c:57 | the register value is recovered from its 4 bytes |
| Registers.WordOfRoundTrip | lib/stepperMotor.c:68-85 | the 4 bytes read are recovered from the register value they form |
| Registers.MaskDisjoint | lib/lowlevel.c:200-206 | masks of different bits share no bit |
| Registers.SetBitReadBack | lib/lowlevel.c:200-206 | setting or clearing one bit changes that bit to the value and leaves the other 31 unchanged |
| Registers.StoreByte | lib/lowlevel.c:146-153 | storing a byte changes exactly that address |
| Registers.Bytes | lib/lowlevel.c:99-106 | the n bytes read are the bytes at offset, offset+1, … of the subdevice |
| Registers.StoreBytesAt | lib/lowlevel.c:146-153 | after a write every byte of the stored range holds its new value and every other byte its old one |
| Registers.StoreBytesReadBack | lib/lowlevel.c:99-153 | bytes written read back; a range disjoint from the write (or in another subdevice) reads as before |
| Registers.StoreWordReadBack | lib/lowlevel.c:99-153 | a register written whole reads back as the value written |
| Registers.StoreBitReadBack | lib/lowlevel.c:200-239 | a single-bit write makes the bit read back as written and leaves the register's other bits unchanged |
| Registers.Code | include/flinkioctl.h:18-25 | every command has a request code between 0x10 and 0x31 |
| Registers.CodeInjective | include/flinkioctl.h:18-25 | commands with equal request codes are the same command |
| Registers.ErrnoAfter | lib/lowlevel.c:54-57 | a failing system call sets errno; a successful one keeps it |
| Registers.IoctlReply | lib/lowlevel.c:189-194 | the driver answers READ_NOF_SUBDEVICES with the table size, READ_SUBDEVICE_INFO with the descriptor of the id, and READ_SINGLE_BIT with the addressed bit of the selected subdevice; other commands come back unchanged |
| Registers.IoctlState | lib/lowlevel.c:54 | an ioctl is logged. A failed one changes nothing else. A successful select changes the selection and exclusivity. A successful WRITE_SINGLE_BIT changes exactly that bit of the selected subdevice. Queries change nothing |
| Registers.SeekState | lib/lowlevel.c:94 | lseek changes no register, selection, exclusivity or open count and is logged; on success the position becomes the kernel's answer, on failure it is kept |
| Registers.ReadState | lib/lowlevel.c:100 | read changes no register and advances the position by the bytes transferred |
| Registers.WriteState | lib/lowlevel.c:147 | a write of n bytes stores exactly the first n bytes at the position of the selected subdevice and advances it by n; a failed write stores nothing |
| Registers.DeviceFile.constructor | lib/base.c:124 | the device file before open: nothing selected, position 0, no descriptor open, empty call log |
| Registers.DeviceFile.Open | lib/base.c:124-129 | open returns the answer and counts one more open descriptor when it succeeds |
| Registers.DeviceFile.Close | lib/base.c:156 | close releases one descriptor |
| Registers.DeviceFile.DoIoctl | lib/lowlevel.c:54 | ioctl returns the answer, updates the file state per IoctlState, and returns the driver's reply on success |
| Registers.DeviceFile.Lseek | lib/lowlevel.c:94 | lseek returns the answer and updates the position per SeekState |
| Registers.DeviceFile.DoRead | lib/lowlevel.c:100 | read into a null buffer fails with EFAULT. Otherwise exactly the bytes at the position arrive at the front of the buffer, and the rest of the buffer is unchanged |
| Registers.DeviceFile.DoWrite | lib/lowlevel.c:147 | write from a null pointer fails with EFAULT and stores nothing; otherwise the file state follows WriteState |
| Types.Entry | lib/base.c:90-96 | a discovered entry has its table index as id, the parent device, and the channel count and unique id the driver reported |
| Types.Device.constructor | lib/base.c:116-124 | a fresh handle has the opened descriptor, no subdevices and no table |
| Control.FlinkIoctl | lib/lowlevel.c:44-60 | an invalid device fails with FLINK_EINVALDEV and issues no call. Otherwise the result is the driver's; a failure copies errno into flink_errno |
| Control.SelectCmd | lib/base.c:207-208 | the select command carries the id and is exclusive exactly for a nonzero flag |
| Valid.ValidateFlinkDevCases | lib/valid.c:17-22 | only a non-null handle passes; descriptor 0 is rejected; every other descriptor passes, including the -1 of a failed open |
| Valid.ValidateFlinkSubdevCases | lib/valid.c:24-29 | passes exactly when the subdevice has a parent and at least one channel |
| Control.SelectOnEffect | lib/base.c:206-215 | a selection changes no register and no position. When it succeeds the kernel addresses the subdevice, exclusively exactly when asked. When it fails the selection is unchanged |
| Control.SubdeviceSelect | lib/base.c:206-215 | success exactly when the parent is valid and the driver accepts; every failure leaves errno in flink_errno |
| LowLevel.Issued | lib/lowlevel.c:71-107 | a transfer issues at most select, seek and data calls; all three exactly when the checks pass and select and seek succeed |
| LowLevel.ReadFileStateEffect | lib/lowlevel.c:71-107 | a read never changes a register. Its calls are select, seek, read up to the first failure. A successful read leaves the subdevice selected and the position after the data |
| LowLevel.WriteFileStateEffect | lib/lowlevel.c:118-154 | a write stores exactly the bytes the kernel accepted, at the requested offset of the subdevice, and only when all earlier steps succeeded. A null pointer changes nothing |
| LowLevel.WriteThenRead | lib/lowlevel.c:71-154 | a register written whole by flink_write reads back whole by flink_read |
| LowLevel.WriteLeavesOthers | lib/lowlevel.c:71-154 | a 4-byte write leaves every register that does not overlap it reading back as before |
| LowLevel.FlinkRead | lib/lowlevel.c:71-107 | the null check comes first (FLINK_ENULLPTR), then the subdevice check (FLINK_EINVALDEV), then select (FLINK_EINVALSUBDEV). After that, seek and read failures leave errno in flink_errno. The result is the number of bytes transferred, and the buffer receives exactly those bytes |
| LowLevel.FlinkWrite | lib/lowlevel.c:118-154 | the same checks, in the same order, as FlinkRead; the device file afterwards is WriteFileState; the result is the number of bytes accepted |
| LowLevel.BitFileStateEffect | lib/lowlevel.c:165-239 | a bit read changes no register. A bit write that reaches the driver sets (nonzero value) or clears the bit of that subdevice, and a failed one changes nothing |
| LowLevel.BitWriteThenRead | lib/lowlevel.c:165-239 | a bit written through the driver reads back as 1 exactly when the value written was nonzero |
| LowLevel.BitWriteLeavesOthers | lib/lowlevel.c:165-239 | a bit write leaves every other bit of the same register, and every bit of a non-overlapping register, as it was |
| LowLevel.FlinkReadBit | lib/lowlevel.c:165-197 | the checks come in source order with their codes. On success the caller's byte receives the bit of the register at offset; on failure the buffer is unchanged |
| LowLevel.FlinkWriteBit | lib/lowlevel.c:208-239 | the subdevice check comes first, then select; success exactly when the bit ioctl succeeds; the file state follows BitFileState |
| Base.DiscoveredCount | lib/base.c:49-61 | the table size is the driver's count; a failed count is -1 stored in uint8_t, so 255 |
| Base.FirstFailure | lib/base.c:90-94 | the first id whose descriptor query fails (or the count): all earlier queries succeed, and it fails |
| Base.InfoCalls | lib/base.c:90-96 | discovery up to k issues exactly the READ_SUBDEVICE_INFO queries for ids 0..k-1, in order |
| Base.ReadNofSubdevices | lib/base.c:49-61 | returns the driver's count for a valid device, -1 otherwise, with errno copied into flink_errno on failure |
| Base.GetSubdevices | lib/base.c:69-99 | an invalid device gives FLINK_EINVALDEV and no change. A failed allocation gives size 0, no table and ENOMEM. Otherwise the table has the discovered count of entries, and the first failing query ends discovery with its result and errno. Entries before it are filled; the rest keep only their zeroes |
| Base.QueryDescriptors | lib/base.c:89-98 | the discovery loop fills entries up to the first failing query, issues exactly the queries up to and including that one, and returns its result, or the count when none fails |
| Base.QueryEntry | lib/base.c:91-95 | one pass gives the entry its id, queries the driver once, and fills the entry from the answer when the query succeeds |
| Base.TableComplete | lib/base.c:89-98 | a table filled up to its length is the completed discovery |
| Base.FirstFailureAt | lib/base.c:90-94 | any index before which all queries succeed and at which one fails is FirstFailure |
| Base.DiscoveredEntries | lib/base.c:90-96 | in a discovered table the entry at index i has id i, points back to the device and holds descriptor i |
| Base.FlinkOpen | lib/base.c:113-138 | the handle is non-null exactly when malloc, open (descriptor > 0) and discovery all succeed, and then it is discovered. Every failure reports its own error code. A failed open leaves no descriptor open. Registers are never changed |
| Base.FlinkClose | lib/base.c:146-159 | a valid device is closed and its descriptor released; an invalid one gives FLINK_EINVALDEV and changes nothing |
| Base.GetNofSubdevices | lib/base.c:167-175 | the table size of a valid device, else -1 with FLINK_EINVALDEV |
| Base.SubdeviceReset | lib/base.c:183-197 | an invalid subdevice gives FLINK_EINVALSUBDEV with no call; otherwise the reset bit of the configuration register is set |
| Base.ByIdAcceptsPastEnd | lib/base.c:231-235 | as written the id check also accepts the id equal to the table size, and only that extra id |
| Base.GetSubdeviceById | lib/base.c:223-238 | as written: a result exactly when the device is valid and id <= table size; errors FLINK_EINVALDEV and FLINK_EINVALSUBDEV |
| Base.GetSubdeviceByIdFixed | lib/base.c:223-238 | with the comparison corrected: a result exactly for ids below the table size, and on a discovered device it is the entry whose id is id |
| Base.GetSubdeviceByUniqueId | lib/base.c:246-263 | the first entry with the unique id, or none when no entry has it (no error); an invalid device gives FLINK_EINVALDEV |
| Base.GetId | lib/base.c:270-272 | for an entry made from a driver descriptor, reports the id of the entry discovery made |
| Base.GetFunction | lib/base.c:279-281 | for an entry made from a driver descriptor, reports the descriptor's function id |
| Base.GetSubfunction | lib/base.c:288-290 | for an entry made from a driver descriptor, reports the descriptor's subfunction id |
| Base.GetFunctionVersion | lib/base.c:297-299 | for an entry made from a driver descriptor, reports the descriptor's function version |
| Base.GetBaseAddr | lib/base.c:306-308 | for an entry made from a driver descriptor, reports the descriptor's base address |
| Base.GetMemSize | lib/base.c:315-317 | for an entry made from a driver descriptor, reports the descriptor's memory size |
| Base.GetNofChannels | lib/base.c:324-326 | for an entry made from a driver descriptor, reports the descriptor's channel count |
| Base.GetUniqueId | lib/base.c:333-335 | for an entry made from a driver descriptor, reports the descriptor's unique id |
| Base.GettersReportDescriptor | lib/base.c:270-335 | on a discovered device the getters of entry i report the descriptor the driver gave for subdevice i |
| Dio.BankBytesRoundsUp | lib/dio.c:95 | a bit bank is the number of whole registers needed for the channels: 4 * ceil(n/32) bytes |
| Dio.BankBytesExamples | lib/dio.c:95 | banks of 1, 32, 33 and 128 channels are 4, 4, 8 and 16 bytes |
| Dio.BankBytesNoChannels | lib/dio.c:95 | with 0 channels the uint32_t arithmetic wraps to a 512 MiB bank, but validate_flink_subdev guarantees at least one channel |
| Dio.OffsetsExact | lib/dio.c:62-182 | for a layout that fits, no offset computation wraps: direction, value and debounce offsets are their exact formulas |
| Dio.BanksDisjoint | lib/dio.c:62-182 | the direction, value and debounce banks are consecutive and never overlap, and each channel's register lies in its bank |
| Dio.ChannelsDistinct | lib/dio.c:62-182 | two channels never share a (register, bit) in a bit bank nor overlapping debounce registers |
| Dio.ValueRegistersApart | lib/dio.c:88-136 | two channels' value registers are the same register or do not overlap |
| Dio.ValueReadBack | lib/dio.c:88-136 | a value set on a channel reads back as 1 for a nonzero value and 0 otherwise; the value of every other channel is unchanged |
| Dio.DebounceReadBack | lib/dio.c:145-182 | a debounce set on a channel reads back as written; the debounce of every other channel is unchanged |
| Dio.GetBaseclock | lib/dio.c:40-53 | reads the base-clock register |
| Dio.SetDirection | lib/dio.c:62-79 | writes the output flag to the channel's bit of its direction register |
| Dio.SetValue | lib/dio.c:88-108 | writes 1 for any nonzero value, else 0, to the channel's bit of its value register |
| Dio.GetValue | lib/dio.c:117-136 | reads the channel's bit of its value register into the caller's byte |
| Dio.SetDebounce | lib/dio.c:145-159 | writes the channel's debounce register |
| Dio.GetDebounce | lib/dio.c:168-182 | reads the channel's debounce register |
| StepperMotor.IndexInjective | lib/stepperMotor.c:52-54 | register index n*kind + channel is below 8n and distinct for distinct (kind, channel) |
| StepperMotor.RegisterOffsetLinear | lib/stepperMotor.c:52-54 | without wrap-around the register of (kind, channel) is the (n*kind + channel)-th register of the block area |
| StepperMotor.RegistersDisjoint | lib/stepperMotor.c:52-54 | different (kind, channel) pairs address non-overlapping registers |
| StepperMotor.RegisterReadBack | lib/stepperMotor.c:45-85 | a register set for a (kind, channel) reads back as written; the register of every other (kind, channel) is unchanged |
| StepperMotor.Set | lib/stepperMotor.c:45-62 | writes the register of the kind and channel; success exactly when 4 bytes were written |
| StepperMotor.Get | lib/stepperMotor.c:68-85 | reads the register of the kind and channel into the caller's buffer |
| StepperMotor.GetBaseclock | lib/stepperMotor.c:98-111 | reads the base-clock register |
| StepperMotor.SetLocalConfigReg | lib/stepperMotor.c:120-123 | writes the local configuration register of the channel |
| StepperMotor.GetLocalConfigReg | lib/stepperMotor.c:132-135 | reads the local configuration register of the channel |
| StepperMotor.SetLocalConfigRegBitsAtomic | lib/stepperMotor.c:144-147 | writes the atomic bit-set register of the channel |
| StepperMotor.ResetLocalConfigRegBitsAtomic | lib/stepperMotor.c:156-159 | writes the atomic bit-reset register of the channel |
| StepperMotor.SetPrescalerStart | lib/stepperMotor.c:168-171 | writes the start prescaler of the channel |
| StepperMotor.GetPrescalerStart | lib/stepperMotor.c:180-183 | reads the start prescaler of the channel |
| StepperMotor.SetPrescalerTop | lib/stepperMotor.c:192-195 | writes the top prescaler of the channel |
| StepperMotor.GetPrescalerTop | lib/stepperMotor.c:204-207 | reads the top prescaler of the channel |
| StepperMotor.SetAcceleration | lib/stepperMotor.c:216-219 | writes the acceleration of the channel |
| StepperMotor.GetAcceleration | lib/stepperMotor.c:228-231 | reads the acceleration of the channel |
| StepperMotor.SetStepsToDo | lib/stepperMotor.c:240-243 | writes the steps-to-do register of the channel |
| StepperMotor.GetStepsToDo | lib/stepperMotor.c:252-255 | reads the steps-to-do register of the channel |
| StepperMotor.GetStepsHaveDone | lib/stepperMotor.c:264-267 | reads the steps-done register of the channel |
| StepperMotor.GlobalStepReset | lib/stepperMotor.c:274-283 | sets the global step-reset bit of the configuration register |
| ReflectiveSensor.BanksBackToBack | lib/reflectiveSensor.c:59-159 | the value, upper-level and lower-level banks are consecutive, non-overlapping, with channel c at place c of each |
| ReflectiveSensor.LevelReadBack | lib/reflectiveSensor.c:59-159 | an upper or lower level set on a channel reads back as written; every other level register and every value register is unchanged |
| ReflectiveSensor.GetResolution | lib/reflectiveSensor.c:41-50 | reads the resolution register |
| ReflectiveSensor.GetValue | lib/reflectiveSensor.c:59-71 | reads the value register of the channel |
| ReflectiveSensor.SetUpperLevelInt | lib/reflectiveSensor.c:80-93 | writes the upper interrupt level of the channel |
| ReflectiveSensor.GetUpperLevelInt | lib/reflectiveSensor.c:102-115 | reads the upper interrupt level of the channel |
| ReflectiveSensor.SetLowerLevelInt | lib/reflectiveSensor.c:124-137 | writes the lower interrupt level of the channel |
| ReflectiveSensor.GetLowerLevelInt | lib/reflectiveSensor.c:146-159 | reads the lower interrupt level of the channel |
| ReflectivSensoren.ValuesConsecutive | lib/reflectivSensoren.c:57-70 | channel values are consecutive registers, disjoint per channel |
| ReflectivSensoren.GetResolution | lib/reflectivSensoren.c:39-48 | reads the resolution register |
| ReflectivSensoren.GetValue | lib/reflectivSensoren.c:57-70 | reads the value register of the channel |
| Watchdog.RegisterMap | lib/wd.c:20-85 | base clock at 32, status/arm register at 36, counter at 40; status and arm use different bits; the registers do not overlap |
| Watchdog.GetBaseclock | lib/wd.c:20-34 | reads the base-clock register |
| Watchdog.GetStatus | lib/wd.c:37-51 | as written: the bit is read; the result reports whether the read succeeded; the caller's byte is never written |
| Watchdog.GetStatusFixed | lib/wd.c:37-51 | as intended: the status bit is stored in the caller's byte |
| Watchdog.SetCounter | lib/wd.c:53-67 | writes the counter register |
| Watchdog.Arm | lib/wd.c:70-85 | sets the arm bit of the status register |
| AnalogOut.ValuesConsecutive | lib/aout.c:34-46 | output registers are consecutive, disjoint per channel |
| AnalogOut.GetResolution | lib/aout.c:22-31 | reads the resolution register |
| AnalogOut.SetValue | lib/aout.c:34-46 | writes the output register of the channel |
| Info.InfoOffsetValue | lib/info.c:44-45 | description register w is at 36 + 4w, within uint32_t |
| Info.InfoOffsetNext | lib/info.c:45 | the loop's uint32_t offset update reaches the next description register |
| Info.WordsBound | lib/info.c:45 | the loop runs exactly for the registers that cover INFO_DESC_SIZE bytes |
| Info.MsbFirstReversed | lib/info.c:46-53 | on a little-endian host the characters are the register's bytes in reverse order |
| Info.MsbFirstRoundTrip | lib/info.c:50-53 | the register value is recovered from its characters |
| Info.DescriptionBytes | lib/info.c:44-55 | character j of the description is byte 3 - j mod 4 of description register j / 4 |
| Info.FirstShortReadSpec | lib/info.c:45-49 | every read before the first short one succeeds, and that one fails |
| Info.InfoStep | lib/info.c:45-46 | reading one more register is one more flink_read |
| Info.InfoFileStateMem | lib/info.c:44-55 | reading the description never changes a register |
| Info.StoreMsbFirst | lib/info.c:50-53 | the inner loop stores the register's bytes most significant first at desc[i..i+4] and nothing else |
| Info.ReadDescriptionWord | lib/info.c:46-54 | one pass succeeds exactly when the register read returns 4 bytes, and then extends the stored description by that register; a failed pass leaves the buffer unchanged |
| Info.GetDescription | lib/info.c:37-57 | success exactly when every register read is whole. The buffer holds the description up to the first short read and is unchanged beyond it. On failure flink_errno is the platform's errno |
| Legacy.LegacyDevice.constructor | lib/flink.c:26-35 | the handle after malloc and open has the descriptor, no subdevices and no table |
| Legacy.ValidDevCases | lib/flink.c:231-236 | only a non-null handle passes; descriptor 0 is rejected; every other descriptor passes, including the -1 of a failed open |
| Legacy.ValidSubdev | lib/flink.c:238-241 | valid_subdev accepts no subdevice |
| Legacy.FlinkIoctl | lib/flink.c:77-95 | an invalid device fails with FLINK_EINVALDEV and issues no call. Otherwise the result is the driver's; a failure copies errno into flink_errno |
| Legacy.FlinkSelectSubdevice | lib/flink.c:307-316 | success exactly when the device is valid and the driver accepts. Every failure, even an invalid device, ends with errno in flink_errno |
| Legacy.Xfer | lib/flink.c:97-159 | a null buffer makes the data call fail with EFAULT |
| Legacy.FlinkRead | lib/flink.c:97-127 | there is no null check. An invalid device gives FLINK_EINVALDEV and a failed select FLINK_EINVALSUBDEV; seek and read failures leave errno in flink_errno. The result is the bytes transferred, and the buffer receives exactly those |
| Legacy.FlinkWrite | lib/flink.c:129-159 | the same as FlinkRead for writes; a null pointer reaches write(2) and fails with EFAULT |
| Legacy.FlinkReadBit | lib/flink.c:161-193 | the device is checked before the null pointer; on success the caller's byte receives the bit |
| Legacy.FlinkWriteBit | lib/flink.c:195-226 | the null pointer is checked (after the device) before the byte is read; success exactly when the bit ioctl succeeds |
| Legacy.WriteThenRead | lib/flink.c:97-159 | a register written whole reads back whole |
| Legacy.BitWriteThenRead | lib/flink.c:161-226 | a bit written reads back as 1 exactly when the value written was nonzero |
| Legacy.FlinkGetNofSubdevices | lib/flink.c:247-265 | the driver's count, or 255 (-1 as uint8_t) on any failure, with errno in flink_errno |
| Legacy.LastResult | lib/flink.c:690-705 | the discovery result is the last query's, or 0 with no subdevices |
| Legacy.GetSubdevices | lib/flink.c:678-706 | every entry gets its id and every query is issued whatever the earlier outcomes. Entries whose query failed stay zero but for the id. The result is the last query's. The error numbers are those of the last failing query |
| Legacy.QueryAll | lib/flink.c:698-703 | the loop queries every entry in order and ends with the last result |
| Legacy.QueryOne | lib/flink.c:699-701 | one pass sets the id, queries once, and fills the entry when the query succeeds |
| Legacy.FlinkOpen | lib/flink.c:26-51 | the handle is non-null exactly when malloc, open (descriptor > 0), allocation and the last query succeed, and then its table is the queried one. A failed open leaves no descriptor open |
| Legacy.FlinkClose | lib/flink.c:53-73 | a valid device is closed; an invalid one gives FLINK_EINVALDEV and changes nothing |
| Legacy.QueriedIds | lib/flink.c:698-703 | a queried entry has its index as id; a successful query fills it from the driver's descriptor (its channel count among the rest), a failed one leaves every other field zero |
| Legacy.AfterQueriesLast | lib/flink.c:698-703 | after discovery errno is that of the last failing query |
| Legacy.AfterQueriesNone | lib/flink.c:698-703 | when no query fails the error numbers stay as they were |
| Legacy.DiscoveryMasksFailure | lib/flink.c:698-705 | with two subdevices whose first query fails, legacy discovery still succeeds with a zero first entry, while the current discovery stops at index 0 |
| LegacyIo.ChannelBit | lib/flink.c:348 | channel = 32 * (channel / 32) + bit |
| LegacyIo.GpioOffsetsOverlap | lib/flink.c:347-393 | as written, with 32 channels the value register of channel 0 starts at 33, one byte into the direction register at 32. With 64 channels channel 32's direction register starts at 33 |
| LegacyIo.GpioAgreeBelow32 | lib/flink.c:347-393 | below 32 channels the written and the corrected GPIO offsets agree: direction at 32, value at 36 |
| LegacyIo.GpioFixedLayout | lib/flink.c:347-393 | with the register index scaled to bytes, offsets are register-aligned. The value bank follows the ceil(n/32) direction registers and no direction register overlaps a value register. Channels share a register exactly when they share its index |
| LegacyIo.PwmBanks | lib/flink.c:498-537 | the high-time register of a channel is 4n bytes after its period register. Without wrap-around the period bank (36 + 4c) lies entirely before the high-time bank |
| LegacyIo.U32Shift | lib/flink.c:537 | uint32_t reduction before or after an addition gives the same offset |
| LegacyIo.AnalogValueClash | lib/flink.c:621-659 | as written the value of channel 0 is read from the resolution register at 32, and channel c reads what would be channel c - 1's register with the bank start applied |
| LegacyIo.AnalogValueFixedLayout | lib/flink.c:621-659 | with ANALOG_INPUT_FIRST_VALUE_OFFSET applied, value registers start after the resolution register and are disjoint per channel |
| LegacyIo.DioValueReadBack | lib/flink.c:362-449 | a value set on a channel reads back, at the same register and bit, as 1 for a nonzero value and 0 otherwise |
| LegacyIo.DioSetDirection | lib/flink.c:319-360 | an invalid device gives FLINK_EINVALDEV and an index at or past the table size FLINK_EINVALSUBDEV, both without any call; otherwise the output flag is written to the channel's direction bit |
| LegacyIo.DioSetValue | lib/flink.c:362-405 | the same checks; otherwise 1 for any nonzero value, else 0, is written to the channel's value bit |
| LegacyIo.DioGetValue | lib/flink.c:407-449 | the same checks; otherwise the channel's value bit is read into the caller's byte |
| LegacyIo.PwmGetBaseclock | lib/flink.c:452-479 | an invalid device gives FLINK_EINVALDEV; the index is not checked; otherwise the base-clock register is read |
| LegacyIo.PwmSetPeriod | lib/flink.c:481-508 | an invalid device gives FLINK_EINVALDEV; the index is not checked; otherwise the period register of the channel is written |
| LegacyIo.PwmSetHightime | lib/flink.c:510-547 | device and index checks; otherwise the high-time register of the channel is written |
| LegacyIo.CounterSetMode | lib/flink.c:550-553 | always fails and touches nothing |
| LegacyIo.CounterGetCount | lib/flink.c:555-592 | device and index checks; otherwise the counter register of the channel is read |
| LegacyIo.AnalogInGetResolution | lib/flink.c:595-631 | device and index checks; otherwise the resolution register is read |
| LegacyIo.AnalogInGetValue | lib/flink.c:632-670 | device and index checks; otherwise the register at 32 + 4 * channel is read, as written |
| LegacyIo.SubdeviceReset | lib/flink.c:267-305 | device and index checks; otherwise the reset bit of the configuration register is set |

## Left out

- Logging: `dbg_print`, the `DEBUG` printouts, `flink_loglevel` and the `flink_perror` call inside `libc_error`/`flink_error` are output only. `Errors.PerrorLine` gives the line that would be written.
- The file name passed to `open` is not modelled. The answer of `open` is a parameter.
- Exclusive selection: the kernel only records it. Access from other processes is not modelled.
- Memory management: `malloc`/`calloc` success is a parameter. `free` is not modelled, so neither is the handle and table leak of the first generation.
- `fd` is a constant of the handle. A failed `open` leaves the handle unreachable, so its `fd` is never observed.
- Types.Subdevice: the current handle type in lib/types.h does not show `unique_id`. lib/base.c reads it, so the model has the field, filled from the driver's descriptor.
- Legacy.LegacyEntry: the driver fills the legacy `subdevice_t` with the same layout as the descriptor. The model maps the fields by position.
- Bit numbers: `BitIndex` is 0..31, the bits of one register. The accessors only ever pass `channel % 32` or constants.
- Offsets defined in a header that is not part of this model (`STEPPER_MOTOR_FIRST_CONF_OFFSET`, `REFLECTIVE_SENSOR_FIRST_VALUE_OFFSET`, `REFLECTIV_SENSOR_FIRST_VALUE_OFFSET`, `ANALOG_OUTPUT_FIRST_VALUE_OFFSET`, `INFO_DESC_SIZE`, `GLOBAL_STEP_RESET`) are constants without a value, typed as in C.
- lib/ain.c, lib/subdevtypes.c, the utilities and the tests are not part of this model.
- Byte order: `uint32_t` values travel as 4 little-endian bytes, the byte order of the targets.
- The first generation's `flink_read`/`flink_write` take `size` as `uint8_t`; the accessors always pass 4.
- LowLevel.FlinkWriteBit: lib/lowlevel.c:212 reads `*wdata` before the null check at lines 215-218, so that check can never fire; the model reads the byte first and has no null path.
- Concurrency: `flink_errno` is thread-local, and one `ErrorState` stands for the calling thread.

## Findings

| source | as written | input that shows it | evidently intended | confidence | as-written member | corrected member |
|---|---|---|---|---|---|---|
| lib/error.c:26 | no comma after "Not supported", so the two literals are joined and the table has 8 entries | `flink_strerror(FLINK_EINVALDEV)` returns "Invalid subdevice"; `FLINK_WRONGSUBDEVT` reaches `strerror` | one message per code | high; not executed | Errors.StrErrorShifted | Errors.StrErrorFixedMatchesCodes |
| lib/base.c:232 | `subdev_id > dev->nof_subdevices` | a device with 2 subdevices and id 2 returns a pointer one past the table | `>=` | high; not executed | Base.GetSubdeviceById | Base.GetSubdeviceByIdFixed |
| lib/wd.c:45 | `&status` passes the address of the parameter itself | any successful call leaves the caller's status byte unwritten | `status` | high; not executed | Watchdog.GetStatus | Watchdog.GetStatusFixed |
| lib/flink.c:698-705 | discovery ignores failed queries and returns the last query's result | 2 subdevices, the first query fails and the second succeeds: open succeeds with a zero entry 0 | stop at the first failure, as lib/base.c:93-94 does | medium; not executed | Legacy.DiscoveryMasksFailure | Base.QueryDescriptors |
| lib/flink.c:347, 391 | register indexes added unscaled to byte offsets | 32 channels: value register of channel 0 at 33, inside the direction register at 32 | index times REGISTER_WITH, as lib/dio.c:68 does | medium; not executed | LegacyIo.GpioOffsetsOverlap | LegacyIo.GpioFixedLayout |
| lib/flink.c:659 | value offset without `ANALOG_INPUT_FIRST_VALUE_OFFSET` | channel 0 reads offset 32, the resolution register of lib/flink.c:621 | add the bank start that include/flinklib.h:73 defines | medium; not executed | LegacyIo.AnalogValueClash | LegacyIo.AnalogValueFixedLayout |
