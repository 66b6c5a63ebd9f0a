/*
 * The first generation of the library (lib/flink.c with
 * include/flinklib.h): every call takes the device handle together with an
 * index into its subdevice table, and table entries carry no pointer back
 * to the device. The kernel side is the same device file as for the
 * current generation.
 */
module Legacy {
  import opened FlinkLib
  import opened Errors
  import opened Registers
  import Control
  import Base

  // ---------------------------------------------------------------------
  // Handles

  /** subdevice_t: one entry of the legacy subdevice table. */
  datatype LegacySubdevice = LegacySubdevice(
    id: u8,
    typeId: u16,
    subTypeId: u8,
    ifVersion: u8,
    baseAddr: u32,
    memSize: u32,
    nofChannels: u32)

  /** An entry as calloc leaves it. */
  const ZERO_ENTRY := LegacySubdevice(0, 0, 0, 0, 0, 0, 0)

  /** The entry the driver fills in for subdevice id from its descriptor. */
  function LegacyEntry(id: u8, d: Descriptor): LegacySubdevice {
    LegacySubdevice(id, d.functionId, d.subFunctionId, d.functionVersion, d.baseAddr, d.memSize, d.nofChannels)
  }

  /** flink_t: the descriptor, the table size and the table of an open device. */
  class LegacyDevice {
    const fd: int
    var nofSubdevices: u8
    var subdevices: array?<LegacySubdevice>
    const file: DeviceFile

    /** The handle as malloc and open leave it, before discovery. */
    constructor (file: DeviceFile, fd: int)
      ensures this.file == file && this.fd == fd && nofSubdevices == 0 && subdevices == null
    {
      this.file := file;
      this.fd := fd;
      nofSubdevices := 0;
      subdevices := null;
    }
  }

  /** The device file a (possibly null) handle talks to. */
  function FileOf(dev: LegacyDevice?): set<object> {
    if dev == null then {} else {dev.file}
  }

  /** The register contents behind a (possibly null) handle. */
  function MemOf(dev: LegacyDevice?): Mem
    reads FileOf(dev)
  {
    if dev == null then EMPTY_MEM else dev.file.st.mem
  }

  /** valid_dev: a non-null handle whose descriptor is not 0. */
  predicate ValidDev(dev: LegacyDevice?) {
    dev != null && dev.fd != 0
  }

  /**
   * Only a non-null handle passes and descriptor 0 is rejected; every other
   * descriptor passes, the -1 a failed open(2) leaves behind included.
   */
  lemma ValidDevCases(dev: LegacyDevice?)
    ensures ValidDev(dev) ==> dev != null
    ensures dev != null && dev.fd == 0 ==> !ValidDev(dev)
    ensures dev != null && dev.fd > 0 ==> ValidDev(dev)
    ensures dev != null && dev.fd < 0 ==> ValidDev(dev)
  {
  }

  /** valid_subdev: the check is not implemented and accepts no subdevice. */
  function ValidSubdev(dev: LegacyDevice?, sub: LegacySubdevice): (ok: u8)
    ensures ok == 0
  {
    0
  }

  // ---------------------------------------------------------------------
  // Transport

  /** The device file state after flink_ioctl: an invalid device issues no call. */
  function IoctlOn(dev: LegacyDevice?, s: FileState, cmd: Cmd, a: Answer): FileState {
    if ValidDev(dev) then IoctlState(s, cmd, a) else s
  }

  /**
   * flink_ioctl: check the device, pass the command to the driver and turn a
   * failing call into a library error.
   */
  method FlinkIoctl(dev: LegacyDevice?, cmd: Cmd, a: Answer, err: ErrorState) returns (ret: int, out: Cmd)
    modifies FileOf(dev), err
    ensures dev != null ==> dev.file.st == IoctlOn(dev, old(dev.file.st), cmd, a)
    ensures !ValidDev(dev) ==>
      ret == EXIT_ERROR && out == cmd && err.flinkErrno == FLINK_EINVALDEV && err.errno == old(err.errno)
    ensures ValidDev(dev) ==>
      ret == a.ret && err.errno == ErrnoAfter(old(err.errno), a) &&
      out == (if a.ret >= 0 then IoctlReply(dev.file.table, old(dev.file.st), cmd) else cmd) &&
      err.flinkErrno == (if a.ret < 0 then a.errno else old(err.flinkErrno))
  {
    if !ValidDev(dev) {
      err.FlinkError(FLINK_EINVALDEV);
      return EXIT_ERROR, cmd;
    }
    ret, out := dev.file.DoIoctl(cmd, a, err);
    if ret < 0 {
      err.LibcError();
    }
  }

  /**
   * flink_select_subdevice: make the kernel address subdevice id,
   * exclusively for any nonzero flag. Every failure ends in libc_error, so
   * on an invalid device the error recorded is the platform's errno and
   * not FLINK_EINVALDEV.
   */
  method FlinkSelectSubdevice(dev: LegacyDevice?, id: u8, exclusive: u8, a: Answer, err: ErrorState) returns (r: int)
    modifies FileOf(dev), err
    ensures r == EXIT_SUCCESS || r == EXIT_ERROR
    ensures r == EXIT_SUCCESS <==> ValidDev(dev) && a.ret >= 0
    ensures dev != null ==> dev.file.st == IoctlOn(dev, old(dev.file.st), Control.SelectCmd(id, exclusive), a)
    ensures err.errno == if ValidDev(dev) then ErrnoAfter(old(err.errno), a) else old(err.errno)
    ensures err.flinkErrno == if r == EXIT_SUCCESS then old(err.flinkErrno) else err.errno
  {
    var ret, _ := FlinkIoctl(dev, Control.SelectCmd(id, exclusive), a, err);
    if ret < 0 {
      err.LibcError();
      return EXIT_ERROR;
    }
    return EXIT_SUCCESS;
  }

  /** The answer of the data transfer: a null buffer makes read(2) or write(2) fail with EFAULT. */
  function Xfer(io: Io, nonNull: bool): (a: Answer)
    ensures nonNull ==> a == io.xfer
    ensures !nonNull ==> a.ret < 0 && a.errno == EFAULT
  {
    if nonNull then io.xfer else Answer(-1, EFAULT)
  }

  /** A byte transfer at offset gets as far as its read or write call. */
  predicate Reaches(dev: LegacyDevice?, offset: u32, io: Io) {
    ValidDev(dev) && io.select.ret >= 0 && io.seek.ret == offset
  }

  /** The device file state after the selection and seek of a transfer on a valid device. */
  function Positioned(s: FileState, id: u8, offset: u32, io: Io): FileState {
    var s1 := IoctlState(s, SelectSubdevice(id), io.select);
    if io.select.ret < 0 then s1 else SeekState(s1, offset, io.seek)
  }

  /** The device file state after flink_read; nonNull says whether rdata was a real buffer. */
  function ReadFileState(s: FileState, dev: LegacyDevice?, id: u8, offset: u32, size: int, nonNull: bool, io: Io): FileState {
    if !ValidDev(dev) then s
    else if !Reaches(dev, offset, io) then Positioned(s, id, offset, io)
    else ReadState(Positioned(s, id, offset, io), size, Xfer(io, nonNull))
  }

  /** The device file state after flink_write. */
  function WriteFileState(s: FileState, dev: LegacyDevice?, id: u8, offset: u32, size: nat, wdata: Option<seq<bv8>>, io: Io): FileState
    requires io.xfer.ret <= size
    requires wdata.Some? ==> size <= |wdata.value|
  {
    if !ValidDev(dev) then s
    else if !Reaches(dev, offset, io) then Positioned(s, id, offset, io)
    else if wdata.None? then Positioned(s, id, offset, io).(calls := Positioned(s, id, offset, io).calls + [Write([])])
    else WriteState(Positioned(s, id, offset, io), wdata.value[..size], io.xfer)
  }

  /** errno after a byte transfer: set by the last system call that failed. */
  function TransferErrno(e: int, dev: LegacyDevice?, offset: u32, nonNull: bool, io: Io): int {
    if !ValidDev(dev) then e
    else if io.select.ret < 0 then io.select.errno
    else if io.seek.ret != offset then ErrnoAfter(e, io.seek)
    else ErrnoAfter(ErrnoAfter(e, io.seek), Xfer(io, nonNull))
  }

  /** The buffer after a read: the bytes that arrived, then what was there before. */
  function Filled(before: seq<bv8>, m: Mem, dev: LegacyDevice?, id: u8, offset: u32, io: Io): (after: seq<bv8>)
    requires io.xfer.ret <= |before|
    ensures |after| == |before|
  {
    if Reaches(dev, offset, io) && io.xfer.ret >= 0
    then Bytes(m, id, offset, io.xfer.ret) + before[io.xfer.ret..]
    else before
  }

  /**
   * flink_read: read size bytes at offset of subdevice id into rdata and
   * return how many arrived, or -1. There is no null check: a null buffer
   * reaches read(2), which fails with EFAULT.
   */
  method FlinkRead(dev: LegacyDevice?, id: u8, offset: u32, size: u8, rdata: array?<bv8>, io: Io, err: ErrorState)
    returns (r: int)
    requires -1 <= io.xfer.ret <= size
    requires rdata != null ==> size <= rdata.Length
    modifies rdata, FileOf(dev), err
    ensures r == if Reaches(dev, offset, io) then Xfer(io, rdata != null).ret else EXIT_ERROR
    ensures dev != null ==> dev.file.st == ReadFileState(old(dev.file.st), dev, id, offset, size, rdata != null, io)
    ensures rdata != null ==> rdata[..] == Filled(old(rdata[..]), old(MemOf(dev)), dev, id, offset, io)
    ensures err.errno == TransferErrno(old(err.errno), dev, offset, rdata != null, io)
    ensures !ValidDev(dev) ==> err.flinkErrno == FLINK_EINVALDEV
    ensures ValidDev(dev) && io.select.ret < 0 ==> err.flinkErrno == FLINK_EINVALSUBDEV
    ensures ValidDev(dev) && io.select.ret >= 0 ==>
      err.flinkErrno == if r == EXIT_ERROR then err.errno else old(err.flinkErrno)
  {
    if !ValidDev(dev) {
      err.FlinkError(FLINK_EINVALDEV);
      return EXIT_ERROR;
    }
    var sel := FlinkSelectSubdevice(dev, id, 0, io.select, err);
    if sel < 0 {
      err.FlinkError(FLINK_EINVALSUBDEV);
      return EXIT_ERROR;
    }
    var pos := dev.file.Lseek(offset, io.seek, err);
    if pos != offset {
      err.LibcError();
      return EXIT_ERROR;
    }
    r := dev.file.DoRead(rdata, size, io.xfer, err);
    if r == -1 {
      err.LibcError();
      return EXIT_ERROR;
    }
  }

  /**
   * flink_write: write size bytes of wdata at offset of subdevice id and
   * return how many the kernel took, or -1. A null pointer reaches
   * write(2), which fails with EFAULT.
   */
  method FlinkWrite(dev: LegacyDevice?, id: u8, offset: u32, size: u8, wdata: Option<seq<bv8>>, io: Io, err: ErrorState)
    returns (r: int)
    requires -1 <= io.xfer.ret <= size
    requires wdata.Some? ==> size <= |wdata.value|
    modifies FileOf(dev), err
    ensures r == if Reaches(dev, offset, io) then Xfer(io, wdata.Some?).ret else EXIT_ERROR
    ensures dev != null ==> dev.file.st == WriteFileState(old(dev.file.st), dev, id, offset, size, wdata, io)
    ensures err.errno == TransferErrno(old(err.errno), dev, offset, wdata.Some?, io)
    ensures !ValidDev(dev) ==> err.flinkErrno == FLINK_EINVALDEV
    ensures ValidDev(dev) && io.select.ret < 0 ==> err.flinkErrno == FLINK_EINVALSUBDEV
    ensures ValidDev(dev) && io.select.ret >= 0 ==>
      err.flinkErrno == if r == EXIT_ERROR then err.errno else old(err.flinkErrno)
  {
    if !ValidDev(dev) {
      err.FlinkError(FLINK_EINVALDEV);
      return EXIT_ERROR;
    }
    var sel := FlinkSelectSubdevice(dev, id, 0, io.select, err);
    if sel < 0 {
      err.FlinkError(FLINK_EINVALSUBDEV);
      return EXIT_ERROR;
    }
    var pos := dev.file.Lseek(offset, io.seek, err);
    if pos != offset {
      err.LibcError();
      return EXIT_ERROR;
    }
    r := dev.file.DoWrite(wdata, size, io.xfer, err);
    if r == -1 {
      err.LibcError();
      return EXIT_ERROR;
    }
  }

  /** A single-bit access with its pointer present gets as far as its bit ioctl. */
  predicate BitReaches(dev: LegacyDevice?, io: BitIo) {
    ValidDev(dev) && io.select.ret >= 0
  }

  /** The device file state after a single-bit access issuing cmd; checked says its pointer check passed. */
  function BitFileState(s: FileState, dev: LegacyDevice?, id: u8, checked: bool, cmd: Cmd, io: BitIo): FileState {
    if !ValidDev(dev) || !checked then s
    else
      var s1 := IoctlState(s, SelectSubdevice(id), io.select);
      if io.select.ret < 0 then s1 else IoctlState(s1, cmd, io.op)
  }

  /** errno after a single-bit access. */
  function BitErrno(e: int, dev: LegacyDevice?, checked: bool, io: BitIo): int {
    if !ValidDev(dev) || !checked then e
    else if io.select.ret < 0 then io.select.errno
    else ErrnoAfter(e, io.op)
  }

  /** The value a successful READ_SINGLE_BIT reports: bit of the register at offset of subdevice id. */
  function BitValue(m: Mem, id: u8, offset: u32, bit: BitIndex): u8 {
    BitOf(WordAt(m, id, offset), bit)
  }

  /**
   * flink_read_bit: store bit of the register at offset of subdevice id
   * into the byte rdata points to; 0 on success, -1 otherwise. The device
   * is checked before the pointer.
   */
  method FlinkReadBit(dev: LegacyDevice?, id: u8, offset: u32, bit: BitIndex, rdata: array?<u8>, io: BitIo, err: ErrorState)
    returns (r: int)
    requires rdata != null ==> 1 <= rdata.Length
    modifies rdata, FileOf(dev), err
    ensures r == if rdata != null && BitReaches(dev, io) && io.op.ret >= 0 then EXIT_SUCCESS else EXIT_ERROR
    ensures dev != null ==>
      dev.file.st == BitFileState(old(dev.file.st), dev, id, rdata != null, ReadSingleBit(offset, bit, 0), io)
    ensures rdata != null ==>
      rdata[..] == if r == EXIT_SUCCESS
                   then old(rdata[..])[0 := BitValue(old(MemOf(dev)), id, offset, bit)]
                   else old(rdata[..])
    ensures err.errno == BitErrno(old(err.errno), dev, rdata != null, io)
    ensures !ValidDev(dev) ==> err.flinkErrno == FLINK_EINVALDEV
    ensures ValidDev(dev) && rdata == null ==> err.flinkErrno == FLINK_ENULLPTR
    ensures ValidDev(dev) && rdata != null && io.select.ret < 0 ==> err.flinkErrno == FLINK_EINVALSUBDEV
    ensures ValidDev(dev) && rdata != null && io.select.ret >= 0 ==>
      err.flinkErrno == if r == EXIT_ERROR then err.errno else old(err.flinkErrno)
  {
    if !ValidDev(dev) {
      err.FlinkError(FLINK_EINVALDEV);
      return EXIT_ERROR;
    }
    if rdata == null {
      err.FlinkError(FLINK_ENULLPTR);
      return EXIT_ERROR;
    }
    var arg := ReadSingleBit(offset, bit, 0);
    var sel := FlinkSelectSubdevice(dev, id, 0, io.select, err);
    if sel < 0 {
      err.FlinkError(FLINK_EINVALSUBDEV);
      return EXIT_ERROR;
    }
    ghost var selected := dev.file.st;
    var ret, reply := FlinkIoctl(dev, arg, io.op, err);
    if ret < 0 {
      err.LibcError();
      return EXIT_ERROR;
    }
    assert reply.value == BitValue(selected.mem, id, offset, bit);
    rdata[0] := reply.value;
    return EXIT_SUCCESS;
  }

  /**
   * flink_write_bit: set (nonzero byte) or clear (zero byte) bit of the
   * register at offset of subdevice id; 0 on success, -1 otherwise. Here
   * the pointer is checked before the byte behind it is read.
   */
  method FlinkWriteBit(dev: LegacyDevice?, id: u8, offset: u32, bit: BitIndex, wdata: Option<u8>, io: BitIo, err: ErrorState)
    returns (r: int)
    modifies FileOf(dev), err
    ensures r == if wdata.Some? && BitReaches(dev, io) && io.op.ret >= 0 then EXIT_SUCCESS else EXIT_ERROR
    ensures dev != null ==>
      dev.file.st == BitFileState(old(dev.file.st), dev, id, wdata.Some?,
                                  WriteSingleBit(offset, bit, if wdata.Some? then wdata.value else 0), io)
    ensures err.errno == BitErrno(old(err.errno), dev, wdata.Some?, io)
    ensures !ValidDev(dev) ==> err.flinkErrno == FLINK_EINVALDEV
    ensures ValidDev(dev) && wdata.None? ==> err.flinkErrno == FLINK_ENULLPTR
    ensures ValidDev(dev) && wdata.Some? && io.select.ret < 0 ==> err.flinkErrno == FLINK_EINVALSUBDEV
    ensures ValidDev(dev) && wdata.Some? && io.select.ret >= 0 ==>
      err.flinkErrno == if r == EXIT_ERROR then err.errno else old(err.flinkErrno)
  {
    if !ValidDev(dev) {
      err.FlinkError(FLINK_EINVALDEV);
      return EXIT_ERROR;
    }
    if wdata.None? {
      err.FlinkError(FLINK_ENULLPTR);
      return EXIT_ERROR;
    }
    var arg := WriteSingleBit(offset, bit, wdata.value);
    var sel := FlinkSelectSubdevice(dev, id, 0, io.select, err);
    if sel < 0 {
      err.FlinkError(FLINK_EINVALSUBDEV);
      return EXIT_ERROR;
    }
    var ret, _ := FlinkIoctl(dev, arg, io.op, err);
    if ret < 0 {
      err.LibcError();
      return EXIT_ERROR;
    }
    return EXIT_SUCCESS;
  }

  /** A register written whole by one transfer reads back whole by the next. */
  lemma WriteThenRead(s: FileState, dev: LegacyDevice, id: u8, offset: u32, data: seq<bv8>, io1: Io, io2: Io, before: seq<bv8>)
    requires |data| == 4 && |before| == 4
    requires Reaches(dev, offset, io1) && io1.xfer.ret == 4
    requires Reaches(dev, offset, io2) && io2.xfer.ret == 4
    ensures Filled(before, WriteFileState(s, dev, id, offset, 4, Some(data), io1).mem, dev, id, offset, io2) == data
  {
    var p := Positioned(s, id, offset, io1);
    assert p.selected == id && p.pos == offset && p.mem == s.mem;
    assert data[..4] == data;
    StoreBytesReadBack(s.mem, id, offset, data, id, offset, 4);
  }

  /** A bit written through the driver reads back as 1 exactly when the byte written was nonzero. */
  lemma BitWriteThenRead(s: FileState, dev: LegacyDevice, id: u8, offset: u32, bit: BitIndex, value: u8, io: BitIo)
    requires BitReaches(dev, io) && io.op.ret >= 0
    ensures BitValue(BitFileState(s, dev, id, true, WriteSingleBit(offset, bit, value), io).mem, id, offset, bit) ==
      if value != 0 then 1 else 0
  {
    StoreBitReadBack(s.mem, id, offset, bit, value != 0, bit);
  }

  // ---------------------------------------------------------------------
  // Device operations

  /**
   * flink_get_nof_subdevices: the count the driver writes into a uint8_t,
   * or EXIT_ERROR returned as uint8_t, that is 255. Every failure ends in
   * libc_error, so an invalid device records the platform's errno.
   */
  method FlinkGetNofSubdevices(dev: LegacyDevice?, a: Answer, err: ErrorState) returns (n: u8)
    modifies FileOf(dev), err
    ensures n == if ValidDev(dev) && a.ret >= 0 then |dev.file.table| else 255
    ensures dev != null ==> dev.file.st == IoctlOn(dev, old(dev.file.st), Cmd.ReadNofSubdevices(0), a)
    ensures err.errno == if ValidDev(dev) then ErrnoAfter(old(err.errno), a) else old(err.errno)
    ensures err.flinkErrno == if ValidDev(dev) && a.ret >= 0 then old(err.flinkErrno) else err.errno
  {
    var ret, reply := FlinkIoctl(dev, Cmd.ReadNofSubdevices(0), a, err);
    if ret < 0 {
      err.LibcError();
      return U8(EXIT_ERROR);
    }
    return reply.nof;
  }

  /** The result of the discovery loop: the last descriptor query's, 0 when there was none. */
  function LastResult(info: int -> Answer, n: nat): (r: int)
    ensures n == 0 ==> r == 0
    ensures n > 0 ==> r == info(n - 1).ret
  {
    if n == 0 then 0 else info(n - 1).ret
  }

  /** An error number after the first n descriptor queries: the last failing one sets it. */
  function AfterQueries(e: int, info: int -> Answer, n: nat): int {
    if n == 0 then e
    else if info(n - 1).ret < 0 then info(n - 1).errno
    else AfterQueries(e, info, n - 1)
  }

  /** Table entry i after discovery: its id, and the driver's descriptor when the query succeeded. */
  function QueriedEntry(table: Table, info: int -> Answer, i: u8): LegacySubdevice {
    if info(i).ret >= 0 then LegacyEntry(i, Describe(table, i)) else ZERO_ENTRY.(id := i)
  }

  /** Entries below i are queried, the others still as calloc left them. */
  ghost predicate QueriedUpTo(entries: seq<LegacySubdevice>, table: Table, info: int -> Answer, i: nat) {
    && (forall j: u8 :: j < i && j < |entries| ==> entries[j] == QueriedEntry(table, info, j))
    && (forall j: u8 :: i <= j < |entries| ==> entries[j] == ZERO_ENTRY)
  }

  /**
   * get_subdevices: size and allocate the table (alloc says whether calloc
   * succeeds), then give every entry its id and query the driver for its
   * descriptor. All queries are issued whatever their outcome, and the
   * result is the last query's.
   */
  method GetSubdevices(dev: LegacyDevice?, count: Answer, alloc: bool, info: int -> Answer, err: ErrorState)
    returns (r: int)
    modifies dev, FileOf(dev), err
    ensures !ValidDev(dev) ==>
      r == EXIT_ERROR && err.flinkErrno == FLINK_EINVALDEV && err.errno == old(err.errno) &&
      (dev != null ==> dev.file.st == old(dev.file.st) && dev.nofSubdevices == old(dev.nofSubdevices) &&
                       dev.subdevices == old(dev.subdevices))
    ensures ValidDev(dev) && !alloc ==>
      r == EXIT_ERROR && dev.nofSubdevices == 0 && dev.subdevices == null &&
      err.flinkErrno == err.errno == ENOMEM &&
      dev.file.st == IoctlState(old(dev.file.st), Cmd.ReadNofSubdevices(0), count)
    ensures ValidDev(dev) && alloc ==>
      var n := Base.DiscoveredCount(dev.file.table, count);
      && dev.nofSubdevices == n
      && dev.subdevices != null && fresh(dev.subdevices) && dev.subdevices.Length == n
      && r == LastResult(info, n)
      && (forall i: u8 :: i < n ==> dev.subdevices[i] == QueriedEntry(dev.file.table, info, i))
      && dev.file.st == old(dev.file.st).(calls := old(dev.file.st.calls) + [Ioctl(Cmd.ReadNofSubdevices(0))] +
                                                   Base.InfoCalls(n))
      && err.errno == AfterQueries(ErrnoAfter(old(err.errno), count), info, n)
      && err.flinkErrno == AfterQueries(if count.ret < 0 then count.errno else old(err.flinkErrno), info, n)
  {
    if !ValidDev(dev) {
      err.FlinkError(FLINK_EINVALDEV);
      return EXIT_ERROR;
    }
    dev.nofSubdevices := FlinkGetNofSubdevices(dev, count, err);
    if !alloc {
      err.errno := ENOMEM;
      err.LibcError();
      dev.nofSubdevices := 0;
      dev.subdevices := null;
      return EXIT_ERROR;
    }
    var table := new LegacySubdevice[dev.nofSubdevices](_ => ZERO_ENTRY);
    dev.subdevices := table;
    r := QueryAll(dev, table, info, err);
  }

  /** The loop of get_subdevices over a freshly zeroed table. */
  method QueryAll(dev: LegacyDevice, table: array<LegacySubdevice>, info: int -> Answer, err: ErrorState)
    returns (r: int)
    requires ValidDev(dev) && dev.subdevices == table && table.Length == dev.nofSubdevices
    requires forall j :: 0 <= j < table.Length ==> table[j] == ZERO_ENTRY
    modifies table, dev.file, err
    ensures var n := table.Length;
      && r == LastResult(info, n)
      && QueriedUpTo(table[..], dev.file.table, info, n)
      && dev.file.st == old(dev.file.st).(calls := old(dev.file.st.calls) + Base.InfoCalls(n))
      && err.errno == AfterQueries(old(err.errno), info, n)
      && err.flinkErrno == AfterQueries(old(err.flinkErrno), info, n)
  {
    ghost var s0 := dev.file.st;
    var i := 0;
    var ret := 0;
    while i < dev.nofSubdevices
      invariant 0 <= i <= table.Length
      invariant ret == LastResult(info, i)
      invariant QueriedUpTo(table[..], dev.file.table, info, i)
      invariant dev.file.st == s0.(calls := s0.calls + Base.InfoCalls(i))
      invariant err.errno == AfterQueries(old(err.errno), info, i)
      invariant err.flinkErrno == AfterQueries(old(err.flinkErrno), info, i)
      decreases table.Length - i
    {
      ret := QueryOne(dev, table, i, info, err, s0);
      i := i + 1;
    }
    return ret;
  }

  /**
   * One pass of the loop of get_subdevices: entry i gets its id, then the
   * driver is asked for descriptor i and fills the entry when it answers.
   */
  method QueryOne(dev: LegacyDevice, table: array<LegacySubdevice>, i: u8, info: int -> Answer, err: ErrorState,
                  ghost s0: FileState) returns (ret: int)
    requires ValidDev(dev) && i < table.Length
    requires QueriedUpTo(table[..], dev.file.table, info, i) && dev.file.st == s0.(calls := s0.calls + Base.InfoCalls(i))
    modifies table, dev.file, err
    ensures ret == info(i).ret
    ensures QueriedUpTo(table[..], dev.file.table, info, i + 1)
    ensures dev.file.st == s0.(calls := s0.calls + Base.InfoCalls(i + 1))
    ensures err.errno == (if ret < 0 then info(i).errno else old(err.errno))
    ensures err.flinkErrno == (if ret < 0 then info(i).errno else old(err.flinkErrno))
  {
    table[i] := table[i].(id := i);
    var reply;
    ret, reply := FlinkIoctl(dev, ReadSubdeviceInfo(i, ZERO_DESCRIPTOR), info(i), err);
    assert Base.InfoCalls(i) + [Ioctl(ReadSubdeviceInfo(i, ZERO_DESCRIPTOR))] == Base.InfoCalls(i + 1);
    if ret >= 0 {
      table[i] := LegacyEntry(i, reply.desc);
    }
  }

  /**
   * flink_open: allocate the handle (mallocOk says whether malloc
   * succeeds), open the device file and discover its subdevices; when
   * discovery reports a negative result the file is closed again and the
   * result is null.
   */
  method FlinkOpen(file: DeviceFile, mallocOk: bool, openAnswer: Answer, count: Answer, alloc: bool,
                   info: int -> Answer, err: ErrorState) returns (dev: LegacyDevice?)
    modifies file, err
    ensures var n := Base.DiscoveredCount(file.table, count);
      dev != null <==> mallocOk && openAnswer.ret > 0 && alloc && LastResult(info, n) >= 0
    ensures dev != null ==>
      var n := Base.DiscoveredCount(file.table, count);
      && fresh(dev) && dev.file == file && dev.fd == openAnswer.ret && ValidDev(dev)
      && dev.nofSubdevices == n && dev.subdevices != null && fresh(dev.subdevices) && dev.subdevices.Length == n
      && forall i: u8 :: i < n ==> dev.subdevices[i] == QueriedEntry(file.table, info, i)
    ensures file.st.mem == old(file.st.mem)
    ensures file.st.opens == old(file.st.opens) + (if dev != null then 1 else 0)
    ensures dev == null && !mallocOk ==> err.flinkErrno == ENOMEM
    ensures dev == null && mallocOk && openAnswer.ret < 0 ==> err.flinkErrno == openAnswer.errno
    ensures dev == null && mallocOk && openAnswer.ret == 0 ==> err.flinkErrno == FLINK_EINVALDEV
  {
    if !mallocOk {
      err.errno := ENOMEM;
      err.LibcError();
      return null;
    }
    var fd := file.Open(openAnswer, err);
    if fd < 0 {
      err.LibcError();
      return null;
    }
    dev := new LegacyDevice(file, fd);
    var r := GetSubdevices(dev, count, alloc, info, err);
    if r < 0 {
      file.Close();
      return null;
    }
  }

  /** flink_close: close the descriptor of a valid device. */
  method FlinkClose(dev: LegacyDevice?, err: ErrorState) returns (r: int)
    modifies FileOf(dev), err
    ensures r == EXIT_SUCCESS <==> ValidDev(dev)
    ensures r == EXIT_ERROR ==>
      err.flinkErrno == FLINK_EINVALDEV && err.errno == old(err.errno) &&
      (dev != null ==> dev.file.st == old(dev.file.st))
    ensures r == EXIT_SUCCESS ==>
      err.flinkErrno == old(err.flinkErrno) && err.errno == old(err.errno) &&
      dev.file.st == old(dev.file.st).(opens := if old(dev.file.st.opens) > 0 then old(dev.file.st.opens) - 1 else 0,
                                       calls := old(dev.file.st.calls) + [Call.Close])
  {
    if !ValidDev(dev) {
      err.FlinkError(FLINK_EINVALDEV);
      return EXIT_ERROR;
    }
    dev.file.Close();
    return EXIT_SUCCESS;
  }

  // ---------------------------------------------------------------------
  // Properties of discovery

  /** Every entry of a discovered table sits at the index equal to its id, whether its query succeeded or not. */
  lemma QueriedIds(table: Table, info: int -> Answer, i: u8)
    ensures QueriedEntry(table, info, i).id == i
    ensures info(i).ret >= 0 ==> QueriedEntry(table, info, i).nofChannels == Describe(table, i).nofChannels
    ensures info(i).ret < 0 ==> QueriedEntry(table, info, i) == ZERO_ENTRY.(id := i)
  {
  }

  /** The error numbers after the queries are those of the last failing query, if any failed. */
  lemma {:induction false} AfterQueriesLast(e: int, info: int -> Answer, n: nat, k: nat)
    requires k < n && info(k).ret < 0
    requires forall j :: k < j < n ==> info(j).ret >= 0
    ensures AfterQueries(e, info, n) == info(k).errno
    decreases n
  {
    if n - 1 != k {
      AfterQueriesLast(e, info, n - 1, k);
    }
  }

  /** When no query fails the error numbers are left as they were. */
  lemma {:induction false} AfterQueriesNone(e: int, info: int -> Answer, n: nat)
    requires forall j :: 0 <= j < n ==> info(j).ret >= 0
    ensures AfterQueries(e, info, n) == e
  {
    if n > 0 {
      AfterQueriesNone(e, info, n - 1);
    }
  }

  /**
   * The legacy discovery succeeds whenever the last query does, even when
   * an earlier query failed and left its entry empty; the discovery of the
   * current generation (Base.FirstFailure) reports that earlier failure.
   */
  lemma DiscoveryMasksFailure(table: Table, info: int -> Answer)
    requires |table| == 2 && info(0).ret < 0 && info(1).ret >= 0
    ensures LastResult(info, 2) >= 0
    ensures QueriedEntry(table, info, 0) == ZERO_ENTRY
    ensures Base.FirstFailure(info, 0, 2) == 0
  {
  }

}
